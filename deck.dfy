/** The deck of a simulation: the 52-card template without the known cards,
    and the swap-to-end `draw` over a copy of it. */
module Deck {
  import opened Cards

  // ------------------------------------------------------------ the template

  /** Position k of the unfiltered template: suits s, h, d, c in turn, each
      with the ranks 2 .. 14 in the order of RANKS. */
  function CardAt(k: nat): (c: Card)
    requires k < 52
    ensures ValidCard(c)
  {
    Card(k % 13 + 2, Suits[k / 13])
  }

  /** All 52 cards in template order. */
  function FullDeck(): (d: seq<Card>)
    ensures |d| == 52 && forall k :: 0 <= k < 52 ==> d[k] == CardAt(k)
  {
    seq(52, k requires 0 <= k < 52 => CardAt(k))
  }

  /** `xs` without the cards in `used`, in order. */
  function Unused(xs: seq<Card>, used: set<Card>): seq<Card>
  {
    if xs == [] then []
    else
      var init, last := xs[..|xs| - 1], xs[|xs| - 1];
      Unused(init, used) + (if last in used then [] else [last])
  }

  /** deckTemplate: every card of the 52 whose code is not in `used`, in template order. */
  function Template(used: set<Card>): seq<Card>
  {
    Unused(FullDeck(), used)
  }

  /** The two nested forEach loops that push every unused card. */
  method BuildDeck(used: set<Card>) returns (deck: seq<Card>)
    ensures deck == Template(used)
  {
    deck := [];
    for si := 0 to 4
      invariant deck == Unused(FullDeck()[..13 * si], used)
    {
      for ri := 0 to 13
        invariant deck == Unused(FullDeck()[..13 * si + ri], used)
      {
        var c := Card(ri + 2, Suits[si]);
        CardAtIndex(si, ri);
        UnusedStep(FullDeck(), used, 13 * si + ri);
        if c !in used {
          deck := deck + [c];
        }
      }
    }
    assert FullDeck()[..52] == FullDeck();
  }

  /** Extending the scanned prefix by one card pushes that card unless it is used. */
  lemma UnusedStep(xs: seq<Card>, used: set<Card>, k: nat)
    requires k < |xs|
    ensures Unused(xs[..k + 1], used) == Unused(xs[..k], used) + (if xs[k] in used then [] else [xs[k]])
  {
    assert xs[..k + 1][..k] == xs[..k];
  }

  /** Suit index si and rank index ri sit at position 13 * si + ri. */
  lemma CardAtIndex(si: nat, ri: nat)
    requires si < 4 && ri < 13
    ensures 13 * si + ri < 52 && FullDeck()[13 * si + ri] == Card(ri + 2, Suits[si])
  {
    var k := 13 * si + ri;
    assert k / 13 == si && k % 13 == ri;
  }

  /** Where a valid card sits among the 52. */
  function Position(c: Card): int
  {
    13 * SuitIndex(c.suit) + c.rank - 2
  }

  lemma PositionOf(k: nat)
    requires k < 52
    ensures Position(CardAt(k)) == k
  {
    assert SuitIndex(Suits[k / 13]) == k / 13;
  }

  /** The 52 positions hold 52 different cards, and every valid card is among them. */
  lemma FullDeckShape()
    ensures NoDup(FullDeck())
    ensures forall c :: c in FullDeck() <==> ValidCard(c)
  {
    forall i, j | 0 <= i < j < 52 ensures FullDeck()[i] != FullDeck()[j] {
      PositionOf(i);
      PositionOf(j);
    }
    forall c | ValidCard(c) ensures c in FullDeck() {
      CardAtIndex(SuitIndex(c.suit), c.rank - 2);
    }
  }

  lemma {:induction false} UnusedMembers(xs: seq<Card>, used: set<Card>)
    ensures forall c :: c in Unused(xs, used) <==> c in xs && c !in used
  {
    if xs != [] {
      var init := xs[..|xs| - 1];
      UnusedMembers(init, used);
      assert xs == init + [xs[|xs| - 1]];
    }
  }

  lemma {:induction false} UnusedNoDup(xs: seq<Card>, used: set<Card>)
    requires NoDup(xs)
    ensures NoDup(Unused(xs, used))
  {
    if xs != [] {
      var init, last := xs[..|xs| - 1], xs[|xs| - 1];
      UnusedNoDup(init, used);
      UnusedMembers(init, used);
      assert last !in init by {
        assert xs == init + [last];
      }
    }
  }

  /** A sequence without repetitions has as many elements as its set of values. */
  lemma {:induction false} DistinctSize<T>(xs: seq<T>)
    requires NoDup(xs)
    ensures |set x | x in xs| == |xs|
  {
    if xs != [] {
      var init, last := xs[..|xs| - 1], xs[|xs| - 1];
      assert xs == init + [last];
      DistinctSize(init);
      assert (set x | x in xs) == (set x | x in init) + {last};
      assert last !in init;
    }
  }

  /** deckTemplate holds exactly the valid cards not in `used`, each once,
      52 - |used| of them when every used card is valid. */
  lemma TemplateShape(used: set<Card>)
    ensures forall c :: c in Template(used) <==> ValidCard(c) && c !in used
    ensures NoDup(Template(used))
    ensures (forall c :: c in used ==> ValidCard(c)) ==> |Template(used)| == 52 - |used|
  {
    FullDeckShape();
    UnusedMembers(FullDeck(), used);
    UnusedNoDup(FullDeck(), used);
    if forall c :: c in used ==> ValidCard(c) {
      var all := set c | c in FullDeck();
      DistinctSize(FullDeck());
      DistinctSize(Template(used));
      assert (set c | c in Template(used)) == all - used;
      assert used <= all;
      assert |all - used| == |all| - |used| by {
        assert all == (all - used) + used;
      }
    }
  }

  // ------------------------------------------------------------ the draw

  /** A value of Math.random(): a real in [0, 1). */
  type UnitInterval = u: real | 0.0 <= u < 1.0

  /** `Math.floor(Math.random() * deckIdx)`: an index below deckIdx when deckIdx > 0. */
  function Pick(u: UnitInterval, n: nat): (i: nat)
    ensures n > 0 ==> i < n
  {
    var x := u * n as real;
    PickBounds(u, n);
    FloorBounds(x, n);
    x.Floor
  }

  lemma PickBounds(u: UnitInterval, n: nat)
    ensures 0.0 <= u * n as real
    ensures n > 0 ==> u * n as real < n as real
  {
    if n > 0 {
      assert u * n as real < 1.0 * n as real;
    }
  }

  lemma FloorBounds(x: real, n: nat)
    requires 0.0 <= x && (n > 0 ==> x < n as real)
    ensures 0 <= x.Floor && (n > 0 ==> x.Floor < n)
  {
  }

  /** The state of one trial's deck: the cards (a permutation of the template),
      deckIdx, and how many values of Math.random() have been used so far. */
  datatype Deal = Deal(deck: seq<Card>, top: nat, next: nat)

  /** The cards of s with positions i and j exchanged. */
  function Swap(s: seq<Card>, i: nat, j: nat): (r: seq<Card>)
    requires i < |s| && j < |s|
    ensures |r| == |s| && r[j] == s[i] && r[i] == s[j]
    ensures forall k :: 0 <= k < |s| && k != i && k != j ==> r[k] == s[k]
  {
    s[i := s[j]][j := s[i]]
  }

  lemma SwapMultiset(s: seq<Card>, i: nat, j: nat)
    requires i < |s| && j < |s|
    ensures multiset(Swap(s, i, j)) == multiset(s)
  {
    var t := s[i := s[j]];
    assert multiset(t) == multiset(s) - multiset{s[i]} + multiset{s[j]};
    assert multiset(t[j := s[i]]) == multiset(t) - multiset{t[j]} + multiset{s[i]};
  }

  /** `draw()`: pick idx below deckIdx, decrement deckIdx, exchange deck[idx] with
      deck[deckIdx] and return the picked card. */
  function DrawF(rand: nat -> UnitInterval, d: Deal): (r: (Card, Deal))
    requires 0 < d.top <= |d.deck|
    ensures r.1.top == d.top - 1 && r.1.next == d.next + 1 && |r.1.deck| == |d.deck|
  {
    var i := Pick(rand(d.next), d.top);
    (d.deck[i], Deal(Swap(d.deck, i, d.top - 1), d.top - 1, d.next + 1))
  }

  /** The drawn card comes out of deck[0 .. deckIdx) and moves to the new
      deck[deckIdx]; the cards from the old deckIdx on stay; the deck stays a
      permutation of itself, and its part below deckIdx loses just the drawn card. */
  lemma DrawSpec(rand: nat -> UnitInterval, d: Deal)
    requires 0 < d.top <= |d.deck|
    ensures var (c, e) := DrawF(rand, d);
      && c in d.deck[..d.top]
      && e.deck[e.top] == c
      && e.deck[d.top..] == d.deck[d.top..]
      && multiset(e.deck) == multiset(d.deck)
      && multiset(e.deck[..e.top]) + multiset{c} == multiset(d.deck[..d.top])
  {
    var i := Pick(rand(d.next), d.top);
    var t := d.top - 1;
    SwapMultiset(d.deck, i, t);
    SwapPrefix(d.deck, i, t);
  }

  /** Exchanging a position below t with t moves the card at t out of the prefix of length t. */
  lemma SwapPrefix(s: seq<Card>, i: nat, t: nat)
    requires i <= t < |s|
    ensures Swap(s, i, t)[t + 1..] == s[t + 1..]
    ensures multiset(Swap(s, i, t)[..t]) + multiset{s[i]} == multiset(s[..t + 1])
  {
    var r := Swap(s, i, t);
    assert r[..t + 1] == r[..t] + [r[t]];
    assert s == s[..t + 1] + s[t + 1..] && r == r[..t + 1] + r[t + 1..];
    SwapMultiset(s, i, t);
    assert multiset(r) == multiset(r[..t + 1]) + multiset(r[t + 1..]);
    assert multiset(s) == multiset(s[..t + 1]) + multiset(s[t + 1..]);
  }

  /** The draw closure over the trial's deck array. */
  method Draw(deck: array<Card>, top: nat, next: nat, rand: nat -> UnitInterval) returns (card: Card, top': nat, next': nat)
    requires 0 < top <= deck.Length
    modifies deck
    ensures (card, Deal(deck[..], top', next')) == DrawF(rand, Deal(old(deck[..]), top, next))
  {
    var idx := Pick(rand(next), top);
    top' := top - 1;
    var temp := deck[idx];
    deck[idx] := deck[top'];
    deck[top'] := temp;
    card := temp;
    next' := next + 1;
  }
}
