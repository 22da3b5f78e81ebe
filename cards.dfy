/** Playing cards, card slots and the small sequence predicates shared by the
    evaluator and the trial engine. */
module Cards {

  /** The four suits, in the order of the SUITS table ('s', 'h', 'd', 'c'). */
  datatype Suit = Spades | Hearts | Diamonds | Clubs

  /** A card; `rank` is the numeric value of RANK_VALUES (2 .. 14, Ace = 14). */
  datatype Card = Card(rank: int, suit: Suit)

  /** A board or hole-card slot: a card the user picked, or null. */
  datatype Slot = Unknown | Known(card: Card)

  datatype Option<T> = None | Some(value: T)

  const Suits: seq<Suit> := [Spades, Hearts, Diamonds, Clubs]

  /** Position of a suit in `Suits` (the index into the suitCounts tally). */
  function SuitIndex(s: Suit): (i: nat)
    ensures i < 4 && Suits[i] == s
  {
    match s
    case Spades => 0
    case Hearts => 1
    case Diamonds => 2
    case Clubs => 3
  }

  predicate ValidCard(c: Card) {
    2 <= c.rank <= 14
  }

  predicate AllValid(cards: seq<Card>) {
    forall i :: 0 <= i < |cards| ==> ValidCard(cards[i])
  }

  /** No element occurs twice. */
  predicate NoDup<T(==)>(s: seq<T>) {
    forall i, j :: 0 <= i < j < |s| ==> s[i] != s[j]
  }

  /** A sequence without repetitions is one whose multiset has multiplicities at most one. */
  lemma {:induction false} NoDupMultiset<T>(s: seq<T>)
    ensures NoDup(s) <==> forall x :: multiset(s)[x] <= 1
  {
    if s != [] {
      var init, x := s[..|s| - 1], s[|s| - 1];
      assert s == init + [x];
      NoDupMultiset(init);
      if NoDup(s) {
        assert NoDup(init);
        assert x !in init;
        forall y ensures multiset(s)[y] <= 1 {
          assert multiset(s)[y] == multiset(init)[y] + multiset([x])[y];
        }
      }
      if forall y :: multiset(s)[y] <= 1 {
        forall y ensures multiset(init)[y] <= 1 {
          assert multiset(s)[y] == multiset(init)[y] + multiset([x])[y];
        }
        assert multiset(s)[x] == multiset(init)[x] + 1;
        assert x !in multiset(init);
        forall i, j | 0 <= i < j < |s| ensures s[i] != s[j] {
          if j == |s| - 1 {
            assert s[i] in init;
          } else {
            assert s[i] == init[i] && s[j] == init[j];
          }
        }
      }
    }
  }

  /** Two sequences with the same elements, counted with multiplicity, agree on being free of repetitions. */
  lemma NoDupPermutation<T>(a: seq<T>, b: seq<T>)
    requires multiset(a) == multiset(b) && NoDup(a)
    ensures NoDup(b)
  {
    NoDupMultiset(a);
    NoDupMultiset(b);
  }
}
