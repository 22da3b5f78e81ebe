/** The evaluator looks only at which cards it is given: scores do not depend
    on the order of the seven cards. */
module Permutation {
  import opened Cards
  import opened Ranks
  import opened Evaluator

  lemma {:induction false} OfSuitMultiset(cards: seq<Card>, s: Suit, c: Card)
    ensures multiset(OfSuit(cards, s))[c] == if c.suit == s then multiset(cards)[c] else 0
  {
    if cards != [] {
      var init := cards[..|cards| - 1];
      OfSuitMultiset(init, s, c);
      assert cards == init + [cards[|cards| - 1]];
    }
  }

  /** How often rank x occurs among the cards: the copies of the four cards of that rank. */
  function RankTally(m: multiset<Card>, x: int): nat {
    m[Card(x, Spades)] + m[Card(x, Hearts)] + m[Card(x, Diamonds)] + m[Card(x, Clubs)]
  }

  lemma {:induction false} RankListTally(a: seq<Card>, x: int)
    ensures multiset(RankList(a))[x] == RankTally(multiset(a), x)
  {
    if a != [] {
      var init, c := a[..|a| - 1], a[|a| - 1];
      assert a == init + [c];
      RankListTally(init, x);
      assert RankList(a) == RankList(init) + [c.rank];
      TallyAdd(multiset(init), c, x);
    }
  }

  /** One more card adds one to the tally of its rank and nothing to the others. */
  lemma TallyAdd(m: multiset<Card>, c: Card, x: int)
    ensures RankTally(m + multiset{c}, x) == RankTally(m, x) + (if c.rank == x then 1 else 0)
  {
    match c.suit
    case Spades =>
    case Hearts =>
    case Diamonds =>
    case Clubs =>
  }

  /** Reordering the cards reorders their ranks. */
  lemma RankListPermutation(a: seq<Card>, b: seq<Card>)
    requires multiset(a) == multiset(b)
    ensures multiset(RankList(a)) == multiset(RankList(b))
  {
    forall x ensures multiset(RankList(a))[x] == multiset(RankList(b))[x] {
      RankListTally(a, x);
      RankListTally(b, x);
    }
  }

  /** SortDesc depends only on the multiset of its input. */
  lemma SortDescPermutation(xs: seq<int>, ys: seq<int>)
    requires multiset(xs) == multiset(ys)
    ensures SortDesc(xs) == SortDesc(ys)
  {
    forall r | 0 <= r < 15 ensures Histogram(xs)[r] == Histogram(ys)[r] {
      CountMultiset(xs, r);
      CountMultiset(ys, r);
    }
    assert Histogram(xs) == Histogram(ys);
  }

  lemma SuitPermutation(a: seq<Card>, b: seq<Card>, s: Suit)
    requires multiset(a) == multiset(b)
    ensures multiset(OfSuit(a, s)) == multiset(OfSuit(b, s))
    ensures SuitCount(a, s) == SuitCount(b, s) && FlushRanks(a, s) == FlushRanks(b, s)
  {
    forall c ensures multiset(OfSuit(a, s))[c] == multiset(OfSuit(b, s))[c] {
      OfSuitMultiset(a, s, c);
      OfSuitMultiset(b, s, c);
    }
    assert multiset(OfSuit(a, s)) == multiset(OfSuit(b, s));
    assert |multiset(OfSuit(a, s))| == |multiset(OfSuit(b, s))|;
    RankListPermutation(OfSuit(a, s), OfSuit(b, s));
    SortDescPermutation(RankList(OfSuit(a, s)), RankList(OfSuit(b, s)));
  }

  /** Reordering keeps seven valid cards. */
  lemma HandPermutation(a: seq<Card>, b: seq<Card>)
    requires Hand7(a) && multiset(a) == multiset(b)
    ensures Hand7(b)
  {
    assert |a| == |multiset(a)| == |multiset(b)| == |b|;
    forall i | 0 <= i < |b| ensures ValidCard(b[i]) {
      assert b[i] in multiset(a);
      var j :| 0 <= j < |a| && a[j] == b[i];
    }
  }

  /** Reordering keeps the suit tally, hence the flush suit. */
  lemma SuitCountsPermutation(a: seq<Card>, b: seq<Card>)
    requires multiset(a) == multiset(b)
    ensures SuitCounts(a) == SuitCounts(b) && FlushSuit(a) == FlushSuit(b)
  {
    SuitPermutation(a, b, Spades);
    SuitPermutation(a, b, Hearts);
    SuitPermutation(a, b, Diamonds);
    SuitPermutation(a, b, Clubs);
  }

  /** The score depends only on which cards are held, not on their order. */
  lemma ScorePermutation(v: Variant, a: seq<Card>, b: seq<Card>)
    requires Hand7(a) && multiset(a) == multiset(b)
    ensures Hand7(b) && Score(v, a) == Score(v, b)
  {
    HandPermutation(a, b);
    SuitCountsPermutation(a, b);
    match FlushSuit(a)
    case Some(s) =>
      SuitPermutation(a, b, s);
    case None =>
      RankListPermutation(a, b);
      SortDescPermutation(RankList(a), RankList(b));
      assert SortedRanks(a) == SortedRanks(b);
  }
}
