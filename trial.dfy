/** One Monte-Carlo trial: the empty board and opponent slots are filled from a
    fresh copy of the deck template, every participant is scored, the holders of
    the best score are collected, and a win or a tie is credited to them. */
module Trial {
  import opened Cards
  import opened Deck
  import opened Evaluator

  /** An opponent: its id and its two hole-card slots (`o.cards`). */
  datatype Opponent = Opponent(id: int, first: Slot, second: Slot)

  /** A participant: the hero ('my') or the opponent with the given id. */
  datatype Pid = Hero | Opp(id: int)

  /** A `{ win, tie }` counter pair. */
  datatype Stats = Stats(win: nat, tie: nat)

  // ------------------------------------------------------------ slots

  /** How many slots are empty, that is, how many draws filling them takes. */
  function Unknowns(slots: seq<Slot>): (n: nat)
    ensures n <= |slots|
  {
    if slots == [] then 0
    else Unknowns(slots[..|slots| - 1]) + (if slots[|slots| - 1].Unknown? then 1 else 0)
  }

  /** `simBoard` indices 0 .. 4: the board as given, empty slots up to five. */
  function PadBoard(board: seq<Slot>): (r: seq<Slot>)
    requires |board| <= 5
    ensures |r| == 5 && r[..|board|] == board && forall i :: |board| <= i < 5 ==> r[i] == Unknown
  {
    board + seq(5 - |board|, _ => Unknown)
  }

  /** The hole-card slots of the opponents in list order, two each. */
  function HoleSlots(opps: seq<Opponent>): (r: seq<Slot>)
    ensures |r| == 2 * |opps|
    ensures forall j :: 0 <= j < |opps| ==> r[2 * j] == opps[j].first && r[2 * j + 1] == opps[j].second
  {
    if opps == [] then []
    else
      var init, last := opps[..|opps| - 1], opps[|opps| - 1];
      HoleSlots(init) + [last.first, last.second]
  }

  /** Every slot a trial fills, in the order it fills them: board, then opponents. */
  function TrialSlots(board: seq<Slot>, opps: seq<Opponent>): (r: seq<Slot>)
    requires |board| <= 5
    ensures |r| == 5 + 2 * |opps|
  {
    PadBoard(board) + HoleSlots(opps)
  }

  /** The known cards among the slots (the `used` set keeps their `rank+suit` codes). */
  function KnownCards(slots: seq<Slot>): (used: set<Card>)
    ensures forall c :: c in used <==> Known(c) in slots
  {
    if slots == [] then {}
    else
      var init, last := slots[..|slots| - 1], slots[|slots| - 1];
      assert slots == init + [last];
      KnownCards(init) + (if last.Known? then {last.card} else {})
  }

  /** Hero cards as slots, so that every known card is a slot. */
  function HeroSlots(hero: seq<Card>): (r: seq<Slot>)
    ensures |r| == |hero| && forall i :: 0 <= i < |hero| ==> r[i] == Known(hero[i])
  {
    seq(|hero|, i requires 0 <= i < |hero| => Known(hero[i]))
  }

  /** No card is known in two slots. */
  predicate KnownDistinct(slots: seq<Slot>) {
    forall i, j :: 0 <= i < j < |slots| && slots[i].Known? && slots[j].Known? ==> slots[i].card != slots[j].card
  }

  /** Every known card is a valid card. */
  predicate KnownValid(slots: seq<Slot>) {
    forall i :: 0 <= i < |slots| && slots[i].Known? ==> ValidCard(slots[i].card)
  }

  // ------------------------------------------------------------ filling

  /** `if (!h[k]) h[k] = draw()`: a known card stays, an empty slot draws. */
  function FillOne(rand: nat -> UnitInterval, s: Slot, d: Deal): (r: (Card, Deal))
    requires s.Unknown? ==> 0 < d.top <= |d.deck|
    ensures s.Known? ==> r == (s.card, d)
    ensures s.Unknown? ==> r.1.top == d.top - 1 && r.1.next == d.next + 1 && |r.1.deck| == |d.deck|
  {
    match s
    case Known(c) => (c, d)
    case Unknown => DrawF(rand, d)
  }

  /** The slots filled left to right, threading the deck. */
  function FillSlots(rand: nat -> UnitInterval, slots: seq<Slot>, d: Deal): (r: (seq<Card>, Deal))
    requires Unknowns(slots) <= d.top <= |d.deck|
    ensures |r.0| == |slots| && |r.1.deck| == |d.deck|
    ensures r.1.top == d.top - Unknowns(slots) && r.1.next == d.next + Unknowns(slots)
  {
    if slots == [] then ([], d)
    else
      var init, last := slots[..|slots| - 1], slots[|slots| - 1];
      var p := FillSlots(rand, init, d);
      var q := FillOne(rand, last, p.1);
      (p.0 + [q.0], q.1)
  }

  /** The cards of `cards` standing at the empty slots: the drawn cards, in drawing order. */
  function Drawn(slots: seq<Slot>, cards: seq<Card>): (r: seq<Card>)
    requires |cards| == |slots|
    ensures |r| == Unknowns(slots)
    ensures forall c :: c in r ==> exists i :: 0 <= i < |slots| && slots[i].Unknown? && cards[i] == c
    ensures forall i :: 0 <= i < |slots| && slots[i].Unknown? ==> cards[i] in r
  {
    if slots == [] then []
    else
      var n := |slots| - 1;
      var init := Drawn(slots[..n], cards[..n]);
      init + (if slots[n].Unknown? then [cards[n]] else [])
  }

  /** Filling the slots keeps every known card where it is. */
  lemma {:induction false} FillKeeps(rand: nat -> UnitInterval, slots: seq<Slot>, d: Deal)
    requires Unknowns(slots) <= d.top <= |d.deck|
    ensures var r := FillSlots(rand, slots, d);
      forall i :: 0 <= i < |slots| && slots[i].Known? ==> r.0[i] == slots[i].card
  {
    if slots != [] {
      var n := |slots| - 1;
      FillKeeps(rand, slots[..n], d);
      var p := FillSlots(rand, slots[..n], d);
      var q := FillOne(rand, slots[n], p.1);
      assert FillSlots(rand, slots, d).0 == p.0 + [q.0];
      KeepsStep(slots, p.0, q.0);
    }
  }

  /** Appending the card of the last slot keeps the known cards of the prefix in place. */
  lemma KeepsStep(slots: seq<Slot>, cards: seq<Card>, c: Card)
    requires |slots| == |cards| + 1
    requires forall i :: 0 <= i < |cards| && slots[i].Known? ==> cards[i] == slots[i].card
    requires slots[|cards|].Known? ==> c == slots[|cards|].card
    ensures forall i :: 0 <= i < |slots| && slots[i].Known? ==> (cards + [c])[i] == slots[i].card
  {
  }

  /** Filling the slots leaves the deck a permutation of itself and does not
      touch the cards at and above the starting deckIdx. */
  lemma {:induction false} FillPermutes(rand: nat -> UnitInterval, slots: seq<Slot>, d: Deal)
    requires Unknowns(slots) <= d.top <= |d.deck|
    ensures var e := FillSlots(rand, slots, d).1;
      multiset(e.deck) == multiset(d.deck) && e.deck[d.top..] == d.deck[d.top..]
  {
    if slots != [] {
      var n := |slots| - 1;
      FillPermutes(rand, slots[..n], d);
      var e := FillSlots(rand, slots[..n], d).1;
      if slots[n].Unknown? {
        DrawSpec(rand, e);
        var f := FillOne(rand, slots[n], e).1;
        assert f.deck[e.top..] == e.deck[e.top..];
        assert f.deck[d.top..] == f.deck[e.top..][d.top - e.top..];
      }
    }
  }

  /** The drawn cards are exactly what left deck[0 .. deckIdx). */
  lemma {:induction false} FillDrawn(rand: nat -> UnitInterval, slots: seq<Slot>, d: Deal)
    requires Unknowns(slots) <= d.top <= |d.deck|
    ensures var r := FillSlots(rand, slots, d);
      multiset(r.1.deck[..r.1.top]) + multiset(Drawn(slots, r.0)) == multiset(d.deck[..d.top])
  {
    if slots != [] {
      var n := |slots| - 1;
      FillDrawn(rand, slots[..n], d);
      var p := FillSlots(rand, slots[..n], d);
      var q := FillOne(rand, slots[n], p.1);
      var r := FillSlots(rand, slots, d);
      if slots[n].Unknown? {
        DrawSpec(rand, p.1);
      }
      assert r.0 == p.0 + [q.0] && r.1 == q.1;
      assert r.0[..n] == p.0;
      assert Drawn(slots, r.0) == Drawn(slots[..n], p.0) + (if slots[n].Unknown? then [q.0] else []);
    }
  }

  /** Every drawn card comes out of deck[0 .. deckIdx), and no card is drawn twice
      when that part of the deck holds no card twice. */
  lemma FillSource(rand: nat -> UnitInterval, slots: seq<Slot>, d: Deal)
    requires Unknowns(slots) <= d.top <= |d.deck|
    ensures var r := FillSlots(rand, slots, d);
      && (forall c :: c in Drawn(slots, r.0) ==> c in d.deck[..d.top])
      && (NoDup(d.deck[..d.top]) ==> NoDup(Drawn(slots, r.0)))
  {
    var r := FillSlots(rand, slots, d);
    FillDrawn(rand, slots, d);
    var drawn, pool := Drawn(slots, r.0), d.deck[..d.top];
    assert multiset(r.1.deck[..r.1.top]) + multiset(drawn) == multiset(pool);
    forall c | c in drawn ensures c in pool {
      assert c in multiset(drawn);
      assert c in multiset(pool);
    }
    if NoDup(pool) {
      NoDupMultiset(pool);
      forall x ensures multiset(drawn)[x] <= 1 {
        assert multiset(drawn)[x] <= multiset(pool)[x];
      }
      NoDupMultiset(drawn);
    }
  }

  /** When deck[0 .. deckIdx) holds distinct cards, none of them known, and the
      known cards are distinct, the filled slots hold no card twice. */
  lemma {:induction false} FillDistinct(rand: nat -> UnitInterval, slots: seq<Slot>, d: Deal, used: set<Card>)
    requires Unknowns(slots) <= d.top <= |d.deck|
    requires NoDup(d.deck[..d.top]) && forall c :: c in d.deck[..d.top] ==> c !in used
    requires KnownCards(slots) <= used && KnownDistinct(slots)
    ensures NoDup(FillSlots(rand, slots, d).0)
  {
    if slots != [] {
      var n := |slots| - 1;
      var init, last := slots[..n], slots[n];
      assert KnownCards(init) <= KnownCards(slots);
      FillDistinct(rand, init, d, used);
      var p := FillSlots(rand, init, d);
      var q := FillOne(rand, last, p.1);
      assert FillSlots(rand, slots, d).0 == p.0 + [q.0];
      FillKeeps(rand, init, d);
      FillSource(rand, init, d);
      if last.Unknown? {
        FillDrawn(rand, init, d);
        DrawSpec(rand, p.1);
        FreshDraw(q.0, p.1.deck[..p.1.top], Drawn(init, p.0), d.deck[..d.top]);
      }
      NewCard(slots, p.0, q.0, used, d.deck[..d.top]);
    }
  }

  /** A card taken from what is left of a pool without repetitions is none of
      the cards taken from it before. */
  lemma FreshDraw(c: Card, rest: seq<Card>, taken: seq<Card>, pool: seq<Card>)
    requires c in rest && multiset(rest) + multiset(taken) == multiset(pool) && NoDup(pool)
    ensures c in pool && c !in taken
  {
    assert multiset(rest)[c] + multiset(taken)[c] == multiset(pool)[c];
    NoDupMultiset(pool);
  }

  /** The card of the last slot differs from the cards of the earlier slots:
      known cards are distinct and in `used`, drawn cards come from a pool
      outside `used`, and a drawn card is none of the earlier draws. */
  lemma NewCard(slots: seq<Slot>, cards: seq<Card>, c: Card, used: set<Card>, pool: seq<Card>)
    requires |slots| == |cards| + 1 && NoDup(cards)
    requires KnownCards(slots) <= used && KnownDistinct(slots)
    requires forall i :: 0 <= i < |cards| && slots[i].Known? ==> cards[i] == slots[i].card
    requires forall x :: x in Drawn(slots[..|cards|], cards) ==> x in pool
    requires forall x :: x in pool ==> x !in used
    requires slots[|cards|].Known? ==> c == slots[|cards|].card
    requires slots[|cards|].Unknown? ==> c in pool && c !in Drawn(slots[..|cards|], cards)
    ensures NoDup(cards + [c])
  {
    var n := |cards|;
    forall i | 0 <= i < n ensures cards[i] != c {
      if slots[i].Known? {
        assert Known(cards[i]) in slots;
      } else {
        assert slots[..n][i] == slots[i];
        assert cards[i] in Drawn(slots[..n], cards);
      }
    }
    if slots[n].Known? {
      assert Known(c) in slots;
    }
  }

  /** Filling the slots from the template that leaves out the known cards gives
      valid cards, none twice, and no empty slot receives a known card. */
  lemma TrialCards(rand: nat -> UnitInterval, slots: seq<Slot>, used: set<Card>, next: nat)
    requires KnownValid(slots) && KnownDistinct(slots) && KnownCards(slots) <= used
    requires Unknowns(slots) <= |Template(used)|
    ensures var r := FillSlots(rand, slots, Deal(Template(used), |Template(used)|, next)).0;
      && AllValid(r) && NoDup(r)
      && forall i :: 0 <= i < |slots| && slots[i].Unknown? ==> r[i] !in used
  {
    var t := Template(used);
    var d := Deal(t, |t|, next);
    var r := FillSlots(rand, slots, d).0;
    TemplateShape(used);
    assert t[..|t|] == t;
    FillKeeps(rand, slots, d);
    FillSource(rand, slots, d);
    FillDistinct(rand, slots, d, used);
    FilledValid(slots, r, used, t);
  }

  /** Cards that keep the known slots and draw the empty ones from valid cards
      outside `used` are valid, and no empty slot holds a card of `used`. */
  lemma FilledValid(slots: seq<Slot>, r: seq<Card>, used: set<Card>, pool: seq<Card>)
    requires |r| == |slots| && KnownValid(slots)
    requires forall i :: 0 <= i < |slots| && slots[i].Known? ==> r[i] == slots[i].card
    requires forall c :: c in Drawn(slots, r) ==> c in pool
    requires forall c :: c in pool ==> ValidCard(c) && c !in used
    ensures AllValid(r)
    ensures forall i :: 0 <= i < |slots| && slots[i].Unknown? ==> r[i] !in used
  {
    forall i | 0 <= i < |slots| ensures ValidCard(r[i]) && (slots[i].Unknown? ==> r[i] !in used) {
      if slots[i].Unknown? {
        assert r[i] in Drawn(slots, r);
      }
    }
  }

  /** A prefix of the slots never needs more draws than all of them. */
  lemma {:induction false} UnknownsPrefix(slots: seq<Slot>, k: nat)
    requires k < |slots|
    ensures Unknowns(slots[..k + 1]) == Unknowns(slots[..k]) + (if slots[k].Unknown? then 1 else 0)
    ensures Unknowns(slots[..k + 1]) <= Unknowns(slots)
    ensures Unknowns(slots[..k]) <= Unknowns(slots)
    decreases |slots| - k
  {
    assert slots[..k + 1][..k] == slots[..k];
    if k + 1 < |slots| {
      UnknownsPrefix(slots, k + 1);
    } else {
      assert slots[..k + 1] == slots;
    }
  }

  /** Filling one more slot extends the filled prefix by that slot's card. */
  lemma FillStep(rand: nat -> UnitInterval, slots: seq<Slot>, k: nat, d: Deal)
    requires k < |slots| && Unknowns(slots) <= d.top <= |d.deck|
    ensures Unknowns(slots[..k]) <= Unknowns(slots[..k + 1]) <= Unknowns(slots)
    ensures var p := FillSlots(rand, slots[..k], d);
      && (slots[k].Unknown? ==> 0 < p.1.top)
      && var q := FillOne(rand, slots[k], p.1);
      FillSlots(rand, slots[..k + 1], d) == (p.0 + [q.0], q.1)
  {
    UnknownsPrefix(slots, k);
    assert slots[..k + 1][..k] == slots[..k];
  }

  // ------------------------------------------------------------ dealing

  /** `if (!h[k]) h[k] = draw()` on the trial's deck array. */
  method FillSlot(deck: array<Card>, top: nat, next: nat, rand: nat -> UnitInterval, s: Slot) returns (card: Card, top': nat, next': nat)
    requires s.Unknown? ==> 0 < top <= deck.Length
    modifies deck
    ensures (card, Deal(deck[..], top', next')) == FillOne(rand, s, Deal(old(deck[..]), top, next))
  {
    match s
    case Known(c) =>
      card, top', next' := c, top, next;
    case Unknown =>
      card, top', next' := Draw(deck, top, next, rand);
  }

  /** What one deal consists of and which conditions the trial relies on: two
      hero cards, at most five board slots, valid known cards, a template of
      valid cards with enough of them for every empty slot. */
  predicate Setup(hero: seq<Card>, board: seq<Slot>, opps: seq<Opponent>, template: seq<Card>) {
    && |hero| == 2 && AllValid(hero) && AllValid(template)
    && |board| <= 5 && KnownValid(TrialSlots(board, opps))
    && Unknowns(TrialSlots(board, opps)) <= |template|
  }

  /** The trial's opening deal: the template, whole and in order. */
  function Opening(template: seq<Card>, next: nat): Deal {
    Deal(template, |template|, next)
  }

  /** The cards of one deal: the board then two cards per opponent. */
  function Dealt(template: seq<Card>, board: seq<Slot>, opps: seq<Opponent>, rand: nat -> UnitInterval, next: nat): (r: (seq<Card>, Deal))
    requires |board| <= 5 && Unknowns(TrialSlots(board, opps)) <= |template|
    ensures |r.0| == 5 + 2 * |opps|
  {
    FillSlots(rand, TrialSlots(board, opps), Opening(template, next))
  }

  /** A deal from a template of valid cards holds only valid cards. */
  lemma DealtValid(template: seq<Card>, board: seq<Slot>, opps: seq<Opponent>, rand: nat -> UnitInterval, next: nat)
    requires |board| <= 5 && Unknowns(TrialSlots(board, opps)) <= |template|
    requires AllValid(template) && KnownValid(TrialSlots(board, opps))
    ensures AllValid(Dealt(template, board, opps, rand, next).0)
  {
    var slots, d := TrialSlots(board, opps), Opening(template, next);
    var r := FillSlots(rand, slots, d).0;
    FillKeeps(rand, slots, d);
    FillSource(rand, slots, d);
    assert template[..|template|] == template;
    FilledValid(slots, r, {}, template);
  }

  /** `for (k = 0; k < 5; k++) if (!simBoard[k]) simBoard[k] = draw()`. */
  method DealBoard(deck: array<Card>, rand: nat -> UnitInterval, next: nat, board: seq<Slot>)
    returns (simBoard: seq<Card>, top: nat, next': nat)
    requires |board| <= 5 && Unknowns(PadBoard(board)) <= deck.Length
    modifies deck
    ensures (simBoard, Deal(deck[..], top, next')) == FillSlots(rand, PadBoard(board), Opening(old(deck[..]), next))
  {
    ghost var d := Opening(deck[..], next);
    var padded := PadBoard(board);
    top, next' := deck.Length, next;
    simBoard := [];
    assert padded[..0] == [];
    for k := 0 to 5
      invariant Unknowns(padded[..k]) <= Unknowns(padded)
      invariant (simBoard, Deal(deck[..], top, next')) == FillSlots(rand, padded[..k], d)
    {
      FillStep(rand, padded, k, d);
      var c;
      c, top, next' := FillSlot(deck, top, next', rand, padded[k]);
      simBoard := simBoard + [c];
    }
    assert padded[..5] == padded;
  }

  /** `opponents.forEach(o => { h = [...o.cards]; if (!h[0]) h[0] = draw(); if (!h[1]) h[1] = draw(); ... })`. */
  method DealHands(deck: array<Card>, top: nat, next: nat, rand: nat -> UnitInterval, opps: seq<Opponent>)
    returns (hands: seq<seq<Card>>, top': nat, next': nat)
    requires Unknowns(HoleSlots(opps)) <= top <= deck.Length
    modifies deck
    ensures var r := FillSlots(rand, HoleSlots(opps), Deal(old(deck[..]), top, next));
      && Deal(deck[..], top', next') == r.1
      && |hands| == |opps| && forall j :: 0 <= j < |opps| ==> hands[j] == r.0[2 * j..2 * j + 2]
  {
    ghost var slots, d := HoleSlots(opps), Deal(deck[..], top, next);
    top', next' := top, next;
    hands := [];
    assert slots[..0] == [];
    for j := 0 to |opps|
      invariant Unknowns(slots[..2 * j]) <= Unknowns(slots)
      invariant var r := FillSlots(rand, slots[..2 * j], d);
        && Deal(deck[..], top', next') == r.1
        && |hands| == j && forall i :: 0 <= i < j ==> hands[i] == r.0[2 * i..2 * i + 2]
    {
      var o := opps[j];
      ghost var r := FillSlots(rand, slots[..2 * j], d);
      assert slots[..2 * j + 2] == slots[..2 * j] + [o.first, o.second];
      UnknownsPrefix(slots, 2 * j + 1);
      FillAppend(rand, slots[..2 * j], [o.first, o.second], d);
      var h;
      h, top', next' := DealHand(deck, top', next', rand, o);
      HandsStep(r.0, h, hands, j);
      hands := hands + [h];
    }
    assert slots[..2 * |opps|] == slots;
  }

  /** One opponent's hand: `h = [...o.cards]`, then each empty slot drawn. */
  method DealHand(deck: array<Card>, top: nat, next: nat, rand: nat -> UnitInterval, o: Opponent)
    returns (h: seq<Card>, top': nat, next': nat)
    requires Unknowns([o.first, o.second]) <= top <= deck.Length
    modifies deck
    ensures (h, Deal(deck[..], top', next')) == FillSlots(rand, [o.first, o.second], Deal(old(deck[..]), top, next))
  {
    ghost var hs, d := [o.first, o.second], Deal(deck[..], top, next);
    assert hs[..1] == [o.first] && [o.first][..0] == [];
    var h0, h1;
    h0, top', next' := FillSlot(deck, top, next, rand, o.first);
    assert FillSlots(rand, [], d) == ([], d);
    assert [] + [h0] == [h0];
    assert FillSlots(rand, [o.first], d) == ([h0], Deal(deck[..], top', next'));
    h1, top', next' := FillSlot(deck, top', next', rand, o.second);
    h := [h0, h1];
    assert [h0] + [h1] == h;
  }

  /** One trial's dealing on a fresh copy of the template: simBoard and the
      opponent hands, the same cards FillSlots gives. */
  method DealCards(template: seq<Card>, board: seq<Slot>, opps: seq<Opponent>, rand: nat -> UnitInterval, next: nat)
    returns (simBoard: seq<Card>, hands: seq<seq<Card>>, next': nat)
    requires |board| <= 5 && Unknowns(TrialSlots(board, opps)) <= |template|
    ensures var r := Dealt(template, board, opps, rand, next);
      && simBoard == r.0[..5] && next' == r.1.next
      && |hands| == |opps| && forall j :: 0 <= j < |opps| ==> hands[j] == r.0[5 + 2 * j..7 + 2 * j]
  {
    var deck := new Card[|template|](i requires 0 <= i < |template| => template[i]);
    assert deck[..] == template;
    ghost var d := Opening(template, next);
    FillAppend(rand, PadBoard(board), HoleSlots(opps), d);
    ghost var p := FillSlots(rand, PadBoard(board), d);
    ghost var q := FillSlots(rand, HoleSlots(opps), p.1);
    var top;
    simBoard, top, next' := DealBoard(deck, rand, next, board);
    hands, top, next' := DealHands(deck, top, next', rand, opps);
    HandsShift(simBoard, q.0, hands);
  }

  /** The draws over two runs of slots, one after the other. */
  lemma {:induction false} FillAppend(rand: nat -> UnitInterval, a: seq<Slot>, b: seq<Slot>, d: Deal)
    requires Unknowns(a + b) <= d.top <= |d.deck|
    ensures Unknowns(a + b) == Unknowns(a) + Unknowns(b)
    ensures var p := FillSlots(rand, a, d);
      && Unknowns(b) <= p.1.top
      && var q := FillSlots(rand, b, p.1);
      FillSlots(rand, a + b, d) == (p.0 + q.0, q.1)
    decreases |b|
  {
    if b == [] {
      assert a + b == a;
      var p := FillSlots(rand, a, d);
      assert FillSlots(rand, b, p.1) == ([], p.1);
      assert p.0 + [] == p.0;
    } else {
      var n := |b| - 1;
      var ab := a + b;
      assert ab[..|ab| - 1] == a + b[..n];
      assert ab[|ab| - 1] == b[n];
      FillAppend(rand, a, b[..n], d);
      var p := FillSlots(rand, a, d);
      var q := FillSlots(rand, b[..n], p.1);
      var s := FillOne(rand, b[n], q.1);
      assert FillSlots(rand, b, p.1) == (q.0 + [s.0], s.1);
      assert FillSlots(rand, ab, d) == ((p.0 + q.0) + [s.0], s.1);
      assert p.0 + (q.0 + [s.0]) == (p.0 + q.0) + [s.0];
    }
  }

  /** Appending one opponent's two cards to the filled cards appends their hand. */
  lemma HandsStep(x: seq<Card>, h: seq<Card>, hands: seq<seq<Card>>, j: nat)
    requires |x| == 2 * j && |h| == 2 && |hands| == j
    requires forall i :: 0 <= i < j ==> hands[i] == x[2 * i..2 * i + 2]
    ensures var y, hs := x + h, hands + [h];
      forall i :: 0 <= i < j + 1 ==> hs[i] == y[2 * i..2 * i + 2]
  {
    var y, hs := x + h, hands + [h];
    forall i | 0 <= i < j + 1 ensures hs[i] == y[2 * i..2 * i + 2] {
      if i < j {
        assert y[2 * i..2 * i + 2] == x[2 * i..2 * i + 2];
      } else {
        assert y[2 * i..2 * i + 2] == h;
      }
    }
  }

  /** The hands cut from the opponent cards are the same slices of the board cards followed by them. */
  lemma HandsShift(b: seq<Card>, x: seq<Card>, hands: seq<seq<Card>>)
    requires |b| == 5 && |x| == 2 * |hands|
    requires forall i :: 0 <= i < |hands| ==> hands[i] == x[2 * i..2 * i + 2]
    ensures (b + x)[..5] == b
    ensures forall i :: 0 <= i < |hands| ==> hands[i] == (b + x)[5 + 2 * i..7 + 2 * i]
  {
    forall i | 0 <= i < |hands| ensures hands[i] == (b + x)[5 + 2 * i..7 + 2 * i] {
      assert (b + x)[5 + 2 * i..7 + 2 * i] == x[2 * i..2 * i + 2];
    }
  }

  // ------------------------------------------------------------ showdown

  /** The best of the hero's score h and the opponent scores s. */
  function Best(h: int, s: seq<int>): (m: int)
    ensures h <= m && forall j :: 0 <= j < |s| ==> s[j] <= m
    ensures m == h || exists j :: 0 <= j < |s| && s[j] == m
  {
    if s == [] then h
    else
      var m := Best(h, s[..|s| - 1]);
      if s[|s| - 1] > m then s[|s| - 1] else m
  }

  /** The opponents, in list order, whose score is m. */
  function OppHolders(ids: seq<int>, s: seq<int>, m: int): seq<Pid>
    requires |ids| == |s|
  {
    if s == [] then []
    else
      var n := |s| - 1;
      OppHolders(ids[..n], s[..n], m) + (if s[n] == m then [Opp(ids[n])] else [])
  }

  /** Everyone holding the best score, the hero first, then opponents in list order. */
  function Winners(h: int, ids: seq<int>, s: seq<int>): seq<Pid>
    requires |ids| == |s|
  {
    var m := Best(h, s);
    (if h == m then [Hero] else []) + OppHolders(ids, s, m)
  }

  lemma {:induction false} OppHoldersSpec(ids: seq<int>, s: seq<int>, m: int)
    requires |ids| == |s|
    ensures forall p :: p in OppHolders(ids, s, m) <==> exists j :: 0 <= j < |s| && s[j] == m && p == Opp(ids[j])
    ensures NoDup(ids) ==> NoDup(OppHolders(ids, s, m))
  {
    if s != [] {
      var n := |s| - 1;
      OppHoldersSpec(ids[..n], s[..n], m);
      var r := OppHolders(ids[..n], s[..n], m);
      forall p ensures p in OppHolders(ids, s, m) <==> exists j :: 0 <= j < |s| && s[j] == m && p == Opp(ids[j]) {
        if p in r {
          var j :| 0 <= j < n && s[..n][j] == m && p == Opp(ids[..n][j]);
          assert s[j] == m && p == Opp(ids[j]);
        }
        if exists j :: 0 <= j < |s| && s[j] == m && p == Opp(ids[j]) {
          var j :| 0 <= j < |s| && s[j] == m && p == Opp(ids[j]);
          if j < n {
            assert s[..n][j] == m && p == Opp(ids[..n][j]);
          }
        }
      }
      if NoDup(ids) {
        assert NoDup(ids[..n]);
        if s[n] == m {
          assert Opp(ids[n]) !in r;
        }
      }
    }
  }

  /** Nobody below the mark holds it. */
  lemma {:induction false} OppHoldersNone(ids: seq<int>, s: seq<int>, m: int)
    requires |ids| == |s| && forall j :: 0 <= j < |s| ==> s[j] < m
    ensures OppHolders(ids, s, m) == []
  {
    if s != [] {
      var n := |s| - 1;
      OppHoldersNone(ids[..n], s[..n], m);
    }
  }

  /** What one more opponent score does to the best score and its holders. */
  lemma WinnersStep(h: int, ids: seq<int>, s: seq<int>, id: int, x: int)
    requires |ids| == |s|
    ensures var m := Best(h, s);
      && Best(h, s + [x]) == (if x > m then x else m)
      && Winners(h, ids + [id], s + [x])
         == if x > m then [Opp(id)] else if x == m then Winners(h, ids, s) + [Opp(id)] else Winners(h, ids, s)
  {
    var m := Best(h, s);
    assert (s + [x])[..|s|] == s && (ids + [id])[..|s|] == ids;
    if x > m {
      OppHoldersNone(ids, s, x);
    }
  }

  /** Winners is everyone whose score is the best; the hero is among them exactly
      when nobody scores more, somebody always is, and nobody twice. */
  lemma WinnersSpec(h: int, ids: seq<int>, s: seq<int>)
    requires |ids| == |s|
    ensures var w, m := Winners(h, ids, s), Best(h, s);
      && (forall p :: p in w <==> (p == Hero && h == m) || exists j :: 0 <= j < |s| && s[j] == m && p == Opp(ids[j]))
      && (Hero in w <==> forall j :: 0 <= j < |s| ==> s[j] <= h)
      && |w| >= 1
      && (NoDup(ids) ==> NoDup(w))
  {
    var m := Best(h, s);
    var w, o := Winners(h, ids, s), OppHolders(ids, s, m);
    OppHoldersSpec(ids, s, m);
    if h != m {
      var j :| 0 <= j < |s| && s[j] == m;
      assert Opp(ids[j]) in o;
    }
    if NoDup(ids) && h == m {
      assert Hero !in o;
      forall i, k | 0 <= i < k < |w| ensures w[i] != w[k] {
        if i == 0 {
          assert w[k] == o[k - 1];
        } else {
          assert w[i] == o[i - 1] && w[k] == o[k - 1];
        }
      }
    }
  }

  /** The scores of the opponent hands, each with simBoard. */
  function HandScores(v: Variant, hands: seq<seq<Card>>, simBoard: seq<Card>): (s: seq<int>)
    requires forall j :: 0 <= j < |hands| ==> Hand7(hands[j] + simBoard)
    ensures |s| == |hands| && forall j :: 0 <= j < |hands| ==> s[j] == Score(v, hands[j] + simBoard)
  {
    seq(|hands|, j requires 0 <= j < |hands| => Score(v, hands[j] + simBoard))
  }

  /** One more element on a prefix: the step the loops of Showdown, CollectUsed and InitStats take. */
  lemma PrefixSnoc<T>(s: seq<T>, j: nat)
    requires j < |s|
    ensures s[..j + 1] == s[..j] + [s[j]]
  {
  }

  /** `myScore`, `maxScore` and the `winners` list built over simOppHands. */
  method Showdown(v: Variant, hero: seq<Card>, simBoard: seq<Card>, ids: seq<int>, hands: seq<seq<Card>>)
    returns (winners: seq<Pid>)
    requires Hand7(hero + simBoard) && |ids| == |hands|
    requires forall j :: 0 <= j < |hands| ==> Hand7(hands[j] + simBoard)
    ensures winners == Winners(Score(v, hero + simBoard), ids, HandScores(v, hands, simBoard))
  {
    ghost var scores := HandScores(v, hands, simBoard);
    var myScore := Evaluate7(v, hero + simBoard);
    var maxScore := myScore;
    winners := [Hero];
    assert ids[..0] == [] && scores[..0] == [];
    for j := 0 to |hands|
      invariant maxScore == Best(myScore, scores[..j])
      invariant winners == Winners(myScore, ids[..j], scores[..j])
    {
      PrefixSnoc(ids, j);
      PrefixSnoc(scores, j);
      WinnersStep(myScore, ids[..j], scores[..j], ids[j], scores[j]);
      var s := Evaluate7(v, hands[j] + simBoard);
      if s > maxScore {
        maxScore := s;
        winners := [Opp(ids[j])];
      } else if s == maxScore {
        winners := winners + [Opp(ids[j])];
      }
    }
    assert ids[..|hands|] == ids && scores[..|hands|] == scores;
  }

  // ------------------------------------------------------------ credit

  /** One participant's counters after a trial won by `w`: a win when it is the
      only winner, a tie when it is one of several. */
  function Bump(st: Stats, p: Pid, w: seq<Pid>): Stats {
    Stats(st.win + (if w == [p] then 1 else 0), st.tie + (if |w| > 1 && p in w then 1 else 0))
  }

  /** Every participant's counters after a trial won by `w`. */
  function Credited(w: seq<Pid>, my: Stats, opp: map<int, Stats>): (r: (Stats, map<int, Stats>))
    ensures r.1.Keys == opp.Keys
  {
    (Bump(my, Hero, w), map id | id in opp.Keys :: Bump(opp[id], Opp(id), w))
  }

  /** `if (winners.length === 1) ... else ...`: the win or ties recorded for one trial. */
  method Credit(w: seq<Pid>, my: Stats, opp: map<int, Stats>) returns (my': Stats, opp': map<int, Stats>)
    requires NoDup(w) && forall id :: Opp(id) in w ==> id in opp
    ensures (my', opp') == Credited(w, my, opp)
  {
    if |w| == 1 {
      match w[0]
      case Hero =>
        my', opp' := my.(win := my.win + 1), opp;
        CreditedSole(w, my, opp);
      case Opp(id) =>
        my', opp' := my, opp[id := opp[id].(win := opp[id].win + 1)];
        CreditedSole(w, my, opp);
    } else {
      my' := my;
      if Hero in w {
        my' := my.(tie := my.tie + 1);
      }
      opp' := CreditTies(w, opp);
      CreditedShared(w, my, opp, opp');
    }
  }

  /** The `forEach` over several winners: one tie for every opponent among them. */
  method CreditTies(w: seq<Pid>, opp: map<int, Stats>) returns (opp': map<int, Stats>)
    requires NoDup(w) && forall id :: Opp(id) in w ==> id in opp
    ensures opp'.Keys == opp.Keys
    ensures forall id :: id in opp ==> opp'[id] == if Opp(id) in w then opp[id].(tie := opp[id].tie + 1) else opp[id]
  {
    opp' := opp;
    for k := 0 to |w|
      invariant opp'.Keys == opp.Keys
      invariant forall id :: id in opp ==> opp'[id] == if Opp(id) in w[..k] then opp[id].(tie := opp[id].tie + 1) else opp[id]
    {
      assert w[..k + 1] == w[..k] + [w[k]];
      if w[k] != Hero {
        var id := w[k].id;
        assert Opp(id) !in w[..k];
        opp' := opp'[id := opp'[id].(tie := opp'[id].tie + 1)];
      }
    }
    assert w[..|w|] == w;
  }

  /** A sole winner gets one win and nobody else's counters change. */
  lemma CreditedSole(w: seq<Pid>, my: Stats, opp: map<int, Stats>)
    requires |w| == 1 && (w[0].Opp? ==> w[0].id in opp)
    ensures w[0] == Hero ==> Credited(w, my, opp) == (my.(win := my.win + 1), opp)
    ensures w[0].Opp? ==> Credited(w, my, opp) == (my, opp[w[0].id := opp[w[0].id].(win := opp[w[0].id].win + 1)])
  {
    var r := Credited(w, my, opp).1;
    if w[0] == Hero {
      assert r == opp by {
        forall id | id in opp ensures r[id] == opp[id] {
          assert w != [Opp(id)];
        }
      }
    } else {
      var o := opp[w[0].id := opp[w[0].id].(win := opp[w[0].id].win + 1)];
      assert r == o by {
        forall id | id in opp ensures r[id] == o[id] {
          assert w == [Opp(id)] <==> id == w[0].id;
        }
      }
    }
  }

  /** Several winners (or none) get one tie each and no win. */
  lemma CreditedShared(w: seq<Pid>, my: Stats, opp: map<int, Stats>, opp': map<int, Stats>)
    requires |w| != 1 && opp'.Keys == opp.Keys
    requires forall id :: id in opp ==> opp'[id] == if Opp(id) in w then opp[id].(tie := opp[id].tie + 1) else opp[id]
    ensures Credited(w, my, opp) == (if Hero in w then my.(tie := my.tie + 1) else my, opp')
  {
    var r := Credited(w, my, opp).1;
    assert w != [Hero];
    assert r == opp' by {
      forall id | id in opp ensures r[id] == opp'[id] {
        assert w != [Opp(id)];
      }
    }
  }

  // ------------------------------------------------------------ one trial

  /** The opponent ids in list order. */
  function Ids(opps: seq<Opponent>): (ids: seq<int>)
    ensures |ids| == |opps| && forall j :: 0 <= j < |opps| ==> ids[j] == opps[j].id
  {
    seq(|opps|, j requires 0 <= j < |opps| => opps[j].id)
  }

  /** The opponent hands cut from a deal's cards. */
  function Hands(cards: seq<Card>, n: nat): (hands: seq<seq<Card>>)
    requires |cards| == 5 + 2 * n
    ensures |hands| == n && forall j :: 0 <= j < n ==> hands[j] == cards[5 + 2 * j..7 + 2 * j]
  {
    seq(n, j requires 0 <= j < n => cards[5 + 2 * j..7 + 2 * j])
  }

  /** Every seven-card hand of a deal of valid cards is evaluable. */
  lemma HandsValid(hero: seq<Card>, cards: seq<Card>, n: nat)
    requires |hero| == 2 && AllValid(hero) && AllValid(cards) && |cards| == 5 + 2 * n
    ensures Hand7(hero + cards[..5])
    ensures forall j :: 0 <= j < n ==> Hand7(Hands(cards, n)[j] + cards[..5])
  {
  }

  /** The winners of one trial and how many values of Math.random() it leaves used. */
  function Outcome(v: Variant, template: seq<Card>, hero: seq<Card>, board: seq<Slot>, opps: seq<Opponent>,
                   rand: nat -> UnitInterval, next: nat): (r: (seq<Pid>, nat))
    requires Setup(hero, board, opps, template)
    ensures r.1 == next + Unknowns(TrialSlots(board, opps))
  {
    var f := Dealt(template, board, opps, rand, next);
    DealtValid(template, board, opps, rand, next);
    HandsValid(hero, f.0, |opps|);
    var simBoard := f.0[..5];
    var hands := Hands(f.0, |opps|);
    (Winners(Score(v, hero + simBoard), Ids(opps), HandScores(v, hands, simBoard)), f.1.next)
  }

  /** One trial, written as the body of the simulation loop: deal, then showdown. */
  method PlayTrial(v: Variant, template: seq<Card>, hero: seq<Card>, board: seq<Slot>, opps: seq<Opponent>,
                   rand: nat -> UnitInterval, next: nat) returns (winners: seq<Pid>, next': nat)
    requires Setup(hero, board, opps, template)
    ensures (winners, next') == Outcome(v, template, hero, board, opps, rand, next)
  {
    var simBoard, hands;
    simBoard, hands, next' := DealCards(template, board, opps, rand, next);
    ghost var f := Dealt(template, board, opps, rand, next);
    DealtValid(template, board, opps, rand, next);
    HandsValid(hero, f.0, |opps|);
    assert hands == Hands(f.0, |opps|);
    winners := Showdown(v, hero, simBoard, Ids(opps), hands);
  }

  /** Some participant wins or ties every trial, and nobody is listed twice when the ids differ. */
  lemma OutcomeWinners(v: Variant, template: seq<Card>, hero: seq<Card>, board: seq<Slot>, opps: seq<Opponent>,
                       rand: nat -> UnitInterval, next: nat)
    requires Setup(hero, board, opps, template)
    ensures var w := Outcome(v, template, hero, board, opps, rand, next).0;
      && |w| >= 1
      && (forall p :: p in w ==> p == Hero || exists j :: 0 <= j < |opps| && p == Opp(opps[j].id))
      && (NoDup(Ids(opps)) ==> NoDup(w))
  {
    var f := Dealt(template, board, opps, rand, next);
    DealtValid(template, board, opps, rand, next);
    HandsValid(hero, f.0, |opps|);
    var simBoard := f.0[..5];
    WinnersSpec(Score(v, hero + simBoard), Ids(opps), HandScores(v, Hands(f.0, |opps|), simBoard));
  }
}
