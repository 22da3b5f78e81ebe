/** What the evaluator's score means. Each category lemma states, in terms of
    how often each rank occurs, which hand it applies to (the checks run in
    a fixed order, so each excludes the categories tested before it) and what
    the score then is, with its band. Further: the worker copy against the
    server copy, invariance under reordering the cards, and the consequences
    of the one-pair encoding overflowing its band. */
module EvaluatorFacts {
  import opened Cards
  import opened Ranks
  import opened Straight
  import opened Evaluator

  /** The ranks other than a and b, highest first: the kickers of a hand. */
  function Others(ranks: seq<int>, a: int, b: int): (k: seq<int>)
    ensures InRange(k) && Descending(k)
    ensures InRange(ranks) ==>
      && |k| == |ranks| - Count(ranks, a) - (if b != a then Count(ranks, b) else 0)
      && forall x :: Count(k, x) == if x == a || x == b then 0 else Count(ranks, x)
  {
    SortDescSorted(Except(ranks, a, b));
    if InRange(ranks) then
      ExceptInRange(ranks, a, b);
      SortDescLength(Except(ranks, a, b));
      ExceptLength(ranks, a, b);
      OthersCount(ranks, a, b);
      SortDesc(Except(ranks, a, b))
    else
      SortDesc(Except(ranks, a, b))
  }

  lemma OthersCount(ranks: seq<int>, a: int, b: int)
    requires InRange(ranks)
    ensures forall x :: Count(SortDesc(Except(ranks, a, b)), x) == if x == a || x == b then 0 else Count(ranks, x)
  {
    ExceptInRange(ranks, a, b);
    forall x ensures Count(SortDesc(Except(ranks, a, b)), x) == if x == a || x == b then 0 else Count(ranks, x) {
      SortDescCount(Except(ranks, a, b), x);
      ExceptCount(ranks, a, b, x);
    }
  }

  // ------------------------------------------------------------ hand shapes

  /** No suit is held five times or more. */
  ghost predicate NoFlush(cards: seq<Card>) {
    forall s :: SuitCount(cards, s) < 5
  }

  ghost predicate NoQuads(ranks: seq<int>) {
    forall r :: Count(ranks, r) != 4
  }

  /** No three of a kind comes with a second rank held at least twice. */
  ghost predicate NoFullHouse(ranks: seq<int>) {
    forall t, x :: t != x && Count(ranks, t) == 3 ==> Count(ranks, x) != 2 && Count(ranks, x) != 3
  }

  /** The straight test does not fire: the worker has none, the server finds no run. */
  ghost predicate NoStraight(v: Variant, ranks: seq<int>) {
    v == Worker || BestStraight(ranks) == 0
  }

  ghost predicate IsQuads(cards: seq<Card>, q: int) {
    Hand7(cards) && NoFlush(cards) && Count(RankList(cards), q) == 4
  }

  /** Two three-of-a-kinds t0 > t1. */
  ghost predicate IsDoubleTrips(cards: seq<Card>, t0: int, t1: int) {
    Hand7(cards) && NoFlush(cards) && t1 < t0
    && Count(RankList(cards), t0) == 3 && Count(RankList(cards), t1) == 3
  }

  /** Three of rank t and p as the highest rank held exactly twice. */
  ghost predicate IsTripsAndPair(cards: seq<Card>, t: int, p: int) {
    var ranks := RankList(cards);
    Hand7(cards) && NoFlush(cards) && Count(ranks, t) == 3 && Count(ranks, p) == 2
    && forall x :: p < x ==> Count(ranks, x) != 2
  }

  ghost predicate IsStraight(cards: seq<Card>) {
    var ranks := RankList(cards);
    Hand7(cards) && NoFlush(cards) && NoQuads(ranks) && NoFullHouse(ranks) && BestStraight(ranks) != 0
  }

  /** Three of rank t, every other rank at most once. */
  ghost predicate IsTrips(v: Variant, cards: seq<Card>, t: int) {
    var ranks := RankList(cards);
    Hand7(cards) && NoFlush(cards) && Count(ranks, t) == 3
    && (forall x :: x != t ==> Count(ranks, x) < 2) && NoStraight(v, ranks)
  }

  /** No rank more than twice, and p0 > p1 the two highest ranks held twice. */
  ghost predicate IsTwoPair(v: Variant, cards: seq<Card>, p0: int, p1: int) {
    var ranks := RankList(cards);
    Hand7(cards) && NoFlush(cards) && p1 < p0 && Count(ranks, p0) == 2 && Count(ranks, p1) == 2
    && (forall x :: Count(ranks, x) <= 2)
    && (forall x :: p1 < x && x != p0 ==> Count(ranks, x) != 2)
    && NoStraight(v, ranks)
  }

  /** Two of rank p, every other rank at most once. */
  ghost predicate IsOnePair(v: Variant, cards: seq<Card>, p: int) {
    var ranks := RankList(cards);
    Hand7(cards) && NoFlush(cards) && Count(ranks, p) == 2
    && (forall x :: x != p ==> Count(ranks, x) <= 1) && NoStraight(v, ranks)
  }

  ghost predicate IsHighCard(v: Variant, cards: seq<Card>) {
    var ranks := RankList(cards);
    Hand7(cards) && NoFlush(cards) && (forall x :: Count(ranks, x) <= 1) && NoStraight(v, ranks)
  }

  // ------------------------------------------------------------ unfolding helpers

  /** The flush test: no flush suit exactly when no suit reaches five; otherwise the
      first suit in the order s, h, d, c that does. */
  lemma FlushSuitSpec(cards: seq<Card>)
    ensures FlushSuit(cards).None? <==> NoFlush(cards)
    ensures FlushSuit(cards).Some? ==>
      SuitCount(cards, FlushSuit(cards).value) >= 5
      && forall s :: SuitIndex(s) < SuitIndex(FlushSuit(cards).value) ==> SuitCount(cards, s) < 5
  {
    var sc := SuitCounts(cards);
    assert forall s :: sc[SuitIndex(s)] == SuitCount(cards, s);
    assert forall i :: 0 <= i < 4 ==> SuitIndex(Suits[i]) == i;
  }

  /** The sorted ranks count every rank like the ranks in hand order. */
  lemma SortedRanksCount(cards: seq<Card>)
    requires Hand7(cards)
    ensures forall x :: Count(SortedRanks(cards), x) == Count(RankList(cards), x)
  {
    var r := RankList(cards);
    RanksValid(cards);
    assert SortedRanks(cards) == SortDesc(r);
    forall x ensures Count(SortDesc(r), x) == Count(r, x) {
      SortDescCount(r, x);
    }
  }

  /** getStraight on the sorted ranks finds the reference straight of the hand. */
  lemma SortedRanksStraight(cards: seq<Card>)
    requires Hand7(cards)
    ensures GetStraight(SortedRanks(cards)) == BestStraight(RankList(cards))
  {
    var r, s := RankList(cards), SortedRanks(cards);
    SortedRanksCount(cards);
    forall x ensures x in s <==> x in r {
      CountPositive(s, x);
      CountPositive(r, x);
    }
    GetStraightIsBest(s);
    BestRunMembers(s, r, 14);
  }

  /** A group list Score works with, in terms of the ranks in hand order. */
  lemma GroupMembers(cards: seq<Card>, n: nat, g: seq<int>)
    requires Hand7(cards) && g == GroupDown(Histogram(SortedRanks(cards)), n, 2)
    ensures IsGroup(g, RankList(cards), n)
  {
    var r, h := RankList(cards), Histogram(SortedRanks(cards));
    GroupShape(h, n, 2);
    SortedRanksCount(cards);
    forall x | 2 <= x <= 14 ensures h[x] == Count(r, x) {
      assert h[x] == Count(SortedRanks(cards), x);
    }
    GroupOfCounts(g, h, r, n);
  }

  /** A group list drawn from counts that agree with r is a group of r. */
  lemma GroupOfCounts(g: seq<int>, h: Hist, r: seq<int>, n: nat)
    requires StrictlyDescending(g) && forall x :: x in g <==> 2 <= x <= 14 && h[x] == n
    requires forall x :: 2 <= x <= 14 ==> h[x] == Count(r, x)
    ensures IsGroup(g, r, n)
  {
    Heads(g);
  }

  /** g lists, highest first, the ranks between 2 and 14 that occur n times in r. */
  ghost predicate IsGroup(g: seq<int>, r: seq<int>, n: nat) {
    && StrictlyDescending(g)
    && (forall x :: x in g <==> 2 <= x <= 14 && Count(r, x) == n)
    && (|g| > 0 ==> 2 <= g[0] <= 14 && Count(r, g[0]) == n)
    && (|g| > 1 ==> Count(r, g[1]) == n)
  }

  /** The first two entries of a list are members of it. */
  lemma Heads(g: seq<int>)
    ensures |g| > 0 ==> g[0] in g
    ensures |g| > 1 ==> g[1] in g
  {
  }

  /** A group with a single qualifying rank t lists just t. */
  lemma GroupOne(g: seq<int>, r: seq<int>, n: nat, t: int)
    requires IsGroup(g, r, n) && 2 <= t <= 14 && Count(r, t) == n
    requires forall x :: x != t ==> Count(r, x) != n
    ensures g == [t]
  {
    assert t in g;
  }

  /** A group whose highest rank is a and second-highest b starts a, b. */
  lemma GroupTwo(g: seq<int>, r: seq<int>, n: nat, a: int, b: int)
    requires IsGroup(g, r, n) && 2 <= b < a <= 14 && Count(r, a) == n && Count(r, b) == n
    requires forall x :: b < x && x != a ==> Count(r, x) != n
    ensures |g| >= 2 && g[0] == a && g[1] == b
  {
    assert a in g && b in g;
    var i :| 0 <= i < |g| && g[i] == a;
    var j :| 0 <= j < |g| && g[j] == b;
    assert i != j;
  }

  /** A group whose highest rank is a starts with a. */
  lemma GroupHead(g: seq<int>, r: seq<int>, n: nat, a: int)
    requires IsGroup(g, r, n) && 2 <= a <= 14 && Count(r, a) == n
    requires forall x :: a < x ==> Count(r, x) != n
    ensures |g| >= 1 && g[0] == a
  {
    assert a in g;
  }

  /** A descending list with no rank twice is strictly descending. */
  lemma DescendingDistinct(xs: seq<int>)
    requires Descending(xs) && forall x :: Count(xs, x) <= 1
    ensures StrictlyDescending(xs)
  {
    forall x ensures multiset(xs)[x] <= 1 {
      CountMultiset(xs, x);
    }
    NoDupMultiset(xs);
  }

  /** With a rank between 2 and 14 held n > 0 times, that rank is valid. */
  lemma CountedIsValid(cards: seq<Card>, x: int)
    requires Hand7(cards) && Count(RankList(cards), x) > 0
    ensures 2 <= x <= 14
  {
    if x < 2 || x > 14 {
      CountOutOfRange(RankList(cards), x);
    }
  }

  // ------------------------------------------------------------ the categories

  /** Flush: when some suit has five cards, the first such suit in s, h, d, c
      decides. A straight among its ranks (the wheel included) scores 8000000 plus
      its high card, otherwise 5000000 plus the packed top five of those ranks. */
  lemma FlushCategory(v: Variant, cards: seq<Card>)
    requires Hand7(cards) && !NoFlush(cards)
    ensures FlushSuit(cards).Some?
    ensures var s := FlushSuit(cards).value;
      var f := FlushRanks(cards, s);
      var sf := BestStraight(RankList(OfSuit(cards, s)));
      && SuitCount(cards, s) >= 5
      && |f| >= 5 && Descending(f) && multiset(f) == multiset(RankList(OfSuit(cards, s)))
      && Score(v, cards) == (if sf != 0 then 8000000 + sf else 5000000 + Pack5(f))
      && (sf != 0 ==> 8000005 <= Score(v, cards) <= 8000014)
      && (sf == 0 ==> 5000000 <= Score(v, cards) < 6000000)
  {
    FlushSuitSpec(cards);
    var s := FlushSuit(cards).value;
    FlushRanksLength(cards, s);
    FlushRanksSorted(cards, s);
    SuitRanksValid(cards, s);
    SortDescIsSort(RankList(OfSuit(cards, s)));
    FlushRanksStraight(cards, s);
  }

  /** getStraight on fRanks finds the reference straight of the suit's ranks. */
  lemma FlushRanksStraight(cards: seq<Card>, s: Suit)
    requires AllValid(cards)
    ensures GetStraight(FlushRanks(cards, s)) == BestStraight(RankList(OfSuit(cards, s)))
  {
    var rs, f := RankList(OfSuit(cards, s)), FlushRanks(cards, s);
    FlushRanksSorted(cards, s);
    SuitRanksValid(cards, s);
    SortDescIsSort(rs);
    GetStraightIsBest(f);
    forall x ensures x in f <==> x in rs {
      assert x in multiset(f) <==> x in multiset(rs);
    }
    BestRunMembers(f, rs, 14);
  }

  /** Without a flush, the score is the outcome of the rank checks. */
  lemma ScoreUnfold(v: Variant, cards: seq<Card>)
    requires Hand7(cards) && NoFlush(cards)
    ensures var s := SortedRanks(cards); var h := Histogram(s);
      && Grouped(s, GroupDown(h, 4, 2), GroupDown(h, 3, 2), GroupDown(h, 2, 2))
      && Score(v, cards) == Categorize(v, s, GroupDown(h, 4, 2), GroupDown(h, 3, 2), GroupDown(h, 2, 2))
  {
    var s := SortedRanks(cards);
    GroupCounts(s, 4);
    GroupCounts(s, 3);
    GroupCounts(s, 2);
    FlushSuitSpec(cards);
  }

  // The shape lemmas below say what the four / three / pair lists of a hand are.

  lemma QuadsShape(cards: seq<Card>, q: int, four: seq<int>, three: seq<int>, pair: seq<int>)
    requires IsQuads(cards, q) && GroupsOf(SortedRanks(cards), four, three, pair)
    ensures |four| >= 1 && four[0] == q
  {
    var r := RankList(cards);
    GroupMembers(cards, 4, four);
    CountedIsValid(cards, q);
    forall x | x != q ensures Count(r, x) != 4 {
      CountTwo(r, q, x);
    }
    GroupOne(four, r, 4, q);
  }

  lemma DoubleTripsShape(cards: seq<Card>, t0: int, t1: int, four: seq<int>, three: seq<int>, pair: seq<int>)
    requires IsDoubleTrips(cards, t0, t1) && GroupsOf(SortedRanks(cards), four, three, pair)
    ensures four == [] && |three| >= 2 && three[0] == t0 && three[1] == t1
  {
    var r := RankList(cards);
    CountedIsValid(cards, t0);
    CountedIsValid(cards, t1);
    GroupMembers(cards, 4, four);
    GroupMembers(cards, 3, three);
    forall x | x != t0 && x != t1 ensures Count(r, x) < 2 {
      CountThree(r, x, t0, t1);
    }
    GroupTwo(three, r, 3, t0, t1);
  }

  lemma TripsAndPairShape(cards: seq<Card>, t: int, p: int, four: seq<int>, three: seq<int>, pair: seq<int>)
    requires IsTripsAndPair(cards, t, p) && GroupsOf(SortedRanks(cards), four, three, pair)
    ensures four == [] && three == [t] && |pair| >= 1 && pair[0] == p
  {
    var r := RankList(cards);
    CountedIsValid(cards, t);
    CountedIsValid(cards, p);
    GroupMembers(cards, 4, four);
    GroupMembers(cards, 3, three);
    GroupMembers(cards, 2, pair);
    forall x | x != t ensures Count(r, x) < 3 {
      if x != p {
        CountThree(r, x, t, p);
      }
    }
    GroupOne(three, r, 3, t);
    GroupHead(pair, r, 2, p);
  }

  lemma StraightShape(cards: seq<Card>, four: seq<int>, three: seq<int>, pair: seq<int>)
    requires IsStraight(cards) && GroupsOf(SortedRanks(cards), four, three, pair)
    ensures four == [] && |three| <= 1 && (|three| == 1 ==> pair == [])
  {
    GroupMembers(cards, 4, four);
    GroupMembers(cards, 3, three);
    GroupMembers(cards, 2, pair);
  }

  lemma TripsShape(v: Variant, cards: seq<Card>, t: int, four: seq<int>, three: seq<int>, pair: seq<int>)
    requires IsTrips(v, cards, t) && GroupsOf(SortedRanks(cards), four, three, pair)
    ensures four == [] && three == [t] && pair == []
  {
    CountedIsValid(cards, t);
    GroupMembers(cards, 4, four);
    GroupMembers(cards, 3, three);
    GroupMembers(cards, 2, pair);
    GroupOne(three, RankList(cards), 3, t);
  }

  lemma TwoPairShape(v: Variant, cards: seq<Card>, p0: int, p1: int, four: seq<int>, three: seq<int>, pair: seq<int>)
    requires IsTwoPair(v, cards, p0, p1) && GroupsOf(SortedRanks(cards), four, three, pair)
    ensures four == [] && three == [] && |pair| >= 2 && pair[0] == p0 && pair[1] == p1
  {
    CountedIsValid(cards, p0);
    CountedIsValid(cards, p1);
    GroupMembers(cards, 4, four);
    GroupMembers(cards, 3, three);
    GroupMembers(cards, 2, pair);
    GroupTwo(pair, RankList(cards), 2, p0, p1);
  }

  lemma OnePairShape(v: Variant, cards: seq<Card>, p: int, four: seq<int>, three: seq<int>, pair: seq<int>)
    requires IsOnePair(v, cards, p) && GroupsOf(SortedRanks(cards), four, three, pair)
    ensures four == [] && three == [] && pair == [p]
  {
    CountedIsValid(cards, p);
    GroupMembers(cards, 4, four);
    GroupMembers(cards, 3, three);
    GroupMembers(cards, 2, pair);
    GroupOne(pair, RankList(cards), 2, p);
  }

  lemma HighCardShape(v: Variant, cards: seq<Card>, four: seq<int>, three: seq<int>, pair: seq<int>)
    requires IsHighCard(v, cards) && GroupsOf(SortedRanks(cards), four, three, pair)
    ensures four == [] && three == [] && pair == []
  {
    GroupMembers(cards, 4, four);
    GroupMembers(cards, 3, three);
    GroupMembers(cards, 2, pair);
  }

  /** Four of a kind q: 7000000 + q*100 + the highest other rank. */
  lemma QuadsCategory(v: Variant, cards: seq<Card>, q: int)
    requires IsQuads(cards, q)
    ensures var k := Others(RankList(cards), q, q);
      |k| == 3 && Score(v, cards) == 7000000 + q * 100 + k[0]
      && 7000000 <= Score(v, cards) < 8000000
  {
    var r, s := RankList(cards), SortedRanks(cards);
    var h := Histogram(s);
    QuadsShape(cards, q, GroupDown(h, 4, 2), GroupDown(h, 3, 2), GroupDown(h, 2, 2));
    ScoreUnfold(v, cards);
    RanksValid(cards);
    CountedIsValid(cards, q);
    ExceptSorted(r, q, q);
  }

  /** Two three-of-a-kinds: a full house of the higher over the lower. */
  lemma DoubleTripsCategory(v: Variant, cards: seq<Card>, t0: int, t1: int)
    requires IsDoubleTrips(cards, t0, t1)
    ensures Score(v, cards) == 6000000 + t0 * 100 + t1
    ensures 6000000 <= Score(v, cards) < 7000000
  {
    var h := Histogram(SortedRanks(cards));
    DoubleTripsShape(cards, t0, t1, GroupDown(h, 4, 2), GroupDown(h, 3, 2), GroupDown(h, 2, 2));
    ScoreUnfold(v, cards);
    CountedIsValid(cards, t0);
    CountedIsValid(cards, t1);
  }

  /** Three of a kind t with pairs: a full house of t over the highest pair. */
  lemma TripsAndPairCategory(v: Variant, cards: seq<Card>, t: int, p: int)
    requires IsTripsAndPair(cards, t, p)
    ensures Score(v, cards) == 6000000 + t * 100 + p
    ensures 6000000 <= Score(v, cards) < 7000000
  {
    var h := Histogram(SortedRanks(cards));
    var s := SortedRanks(cards);
    var four, three, pair := GroupDown(h, 4, 2), GroupDown(h, 3, 2), GroupDown(h, 2, 2);
    TripsAndPairShape(cards, t, p, four, three, pair);
    ScoreUnfold(v, cards);
    CategorizeFullHouse(v, s, four, three, pair);
    CountedIsValid(cards, t);
    CountedIsValid(cards, p);
  }

  lemma CategorizeFullHouse(v: Variant, ranks: seq<int>, four: seq<int>, three: seq<int>, pair: seq<int>)
    requires |ranks| == 7 && InRange(ranks) && Descending(ranks) && Grouped(ranks, four, three, pair)
    requires four == [] && |three| >= 1 && (|three| >= 2 || |pair| >= 1)
    ensures Categorize(v, ranks, four, three, pair) == 6000000 + three[0] * 100 + (if |three| >= 2 then three[1] else pair[0])
  {
  }

  /** Straight (server copy): with no flush, quads or full house, 4000000 plus the
      high card of the highest run, or 5 for the wheel. */
  lemma StraightCategory(cards: seq<Card>)
    requires IsStraight(cards)
    ensures Score(Server, cards) == 4000000 + BestStraight(RankList(cards))
    ensures 4000005 <= Score(Server, cards) <= 4000014
  {
    var s := SortedRanks(cards);
    var h := Histogram(s);
    var four, three, pair := GroupDown(h, 4, 2), GroupDown(h, 3, 2), GroupDown(h, 2, 2);
    StraightShape(cards, four, three, pair);
    ScoreUnfold(Server, cards);
    SortedRanksStraight(cards);
    GetStraightRange(s);
    CategorizeStraight(s, four, three, pair);
  }

  lemma CategorizeStraight(ranks: seq<int>, four: seq<int>, three: seq<int>, pair: seq<int>)
    requires |ranks| == 7 && InRange(ranks) && Descending(ranks) && Grouped(ranks, four, three, pair)
    requires four == [] && |three| <= 1 && (|three| == 1 ==> pair == []) && GetStraight(ranks) != 0
    ensures Categorize(Server, ranks, four, three, pair) == 4000000 + GetStraight(ranks)
  {
  }

  /** Three of a kind t: 3000000 + t*10000 + the two highest other ranks. */
  lemma TripsCategory(v: Variant, cards: seq<Card>, t: int)
    requires IsTrips(v, cards, t)
    ensures var k := Others(RankList(cards), t, t);
      |k| == 4 && Score(v, cards) == 3000000 + t * 10000 + k[0] * 100 + k[1]
      && 3000000 <= Score(v, cards) < 4000000
  {
    var r, s := RankList(cards), SortedRanks(cards);
    var h := Histogram(s);
    var four, three, pair := GroupDown(h, 4, 2), GroupDown(h, 3, 2), GroupDown(h, 2, 2);
    TripsShape(v, cards, t, four, three, pair);
    ScoreUnfold(v, cards);
    SortedRanksStraight(cards);
    CategorizeTrips(v, s, four, three, pair);
    RanksValid(cards);
    CountedIsValid(cards, t);
    ExceptSorted(r, t, t);
  }

  /** Two pair p0 over p1: 2000000 + p0*10000 + p1*100 + the highest other rank,
      which may be a lower third pair. */
  lemma TwoPairCategory(v: Variant, cards: seq<Card>, p0: int, p1: int)
    requires IsTwoPair(v, cards, p0, p1)
    ensures var k := Others(RankList(cards), p0, p1);
      |k| == 3 && Score(v, cards) == 2000000 + p0 * 10000 + p1 * 100 + k[0]
      && 2030202 <= Score(v, cards) <= 2141314
  {
    var r, s := RankList(cards), SortedRanks(cards);
    var h := Histogram(s);
    var four, three, pair := GroupDown(h, 4, 2), GroupDown(h, 3, 2), GroupDown(h, 2, 2);
    TwoPairShape(v, cards, p0, p1, four, three, pair);
    ScoreUnfold(v, cards);
    SortedRanksStraight(cards);
    CategorizeTwoPair(v, s, four, three, pair);
    RanksValid(cards);
    CountedIsValid(cards, p0);
    CountedIsValid(cards, p1);
    ExceptSorted(r, p0, p1);
  }

  lemma CategorizeTrips(v: Variant, ranks: seq<int>, four: seq<int>, three: seq<int>, pair: seq<int>)
    requires |ranks| == 7 && InRange(ranks) && Descending(ranks) && Grouped(ranks, four, three, pair)
    requires four == [] && |three| == 1 && pair == [] && (v == Worker || GetStraight(ranks) == 0)
    ensures Categorize(v, ranks, four, three, pair) == TripsScore(ranks, three[0])
  {
  }

  lemma CategorizeTwoPair(v: Variant, ranks: seq<int>, four: seq<int>, three: seq<int>, pair: seq<int>)
    requires |ranks| == 7 && InRange(ranks) && Descending(ranks) && Grouped(ranks, four, three, pair)
    requires four == [] && three == [] && |pair| >= 2 && (v == Worker || GetStraight(ranks) == 0)
    ensures Categorize(v, ranks, four, three, pair) == TwoPairScore(ranks, pair[0], pair[1])
  {
  }

  /** The kickers of one pair are distinct ranks other than the pair. */
  lemma PairKickers(r: seq<int>, p: int)
    requires |r| == 7 && InRange(r) && 2 <= p <= 14 && Count(r, p) == 2
    requires forall x :: x != p ==> Count(r, x) <= 1
    ensures var k := Others(r, p, p);
      |k| == 5 && StrictlyDescending(k) && p !in k
  {
    var k := Others(r, p, p);
    DescendingDistinct(k);
    CountPositive(k, p);
  }

  /** One pair p: 1000000 + p*100000 + the three highest other ranks packed as
      k0*1000 + k1*10 + k2. The score reaches 2413131, past its band. */
  lemma OnePairCategory(v: Variant, cards: seq<Card>, p: int)
    requires IsOnePair(v, cards, p)
    ensures var k := Others(RankList(cards), p, p);
      |k| == 5 && Score(v, cards) == 1000000 + p * 100000 + k[0] * 1000 + k[1] * 10 + k[2]
      && 1000000 + p * 100000 <= Score(v, cards) <= 2413131
  {
    var r, s := RankList(cards), SortedRanks(cards);
    var h := Histogram(s);
    var four, three, pair := GroupDown(h, 4, 2), GroupDown(h, 3, 2), GroupDown(h, 2, 2);
    OnePairShape(v, cards, p, four, three, pair);
    ScoreUnfold(v, cards);
    SortedRanksStraight(cards);
    CategorizePair(v, s, four, three, pair);
    RanksValid(cards);
    CountedIsValid(cards, p);
    ExceptSorted(r, p, p);
    PairBound(r, p);
  }

  /** The largest one-pair score: aces with king, queen, jack. */
  lemma PairBound(r: seq<int>, p: int)
    requires |r| == 7 && InRange(r) && 2 <= p <= 14 && Count(r, p) == 2
    requires forall x :: x != p ==> Count(r, x) <= 1
    ensures var k := Others(r, p, p);
      |k| == 5 && 1000000 + p * 100000 + k[0] * 1000 + k[1] * 10 + k[2] <= 2413131
  {
    PairKickers(r, p);
    var k := Others(r, p, p);
    assert k[0] in k && k[1] in k && k[2] in k;
    assert k[0] <= 14 && k[0] > k[1] > k[2] >= 2;
    KickerBound(p, k[0], k[1], k[2]);
  }

  /** Three descending kickers other than the pair rank pack to at most aces with king, queen, jack. */
  lemma KickerBound(p: int, a: int, b: int, c: int)
    requires 2 <= p <= 14 && 14 >= a > b > c >= 2 && a != p && b != p && c != p
    ensures 1000000 + p * 100000 + a * 1000 + b * 10 + c <= 2413131
  {
    if p == 14 {
      assert a <= 13 && b <= 12 && c <= 11;
    }
  }

  /** High card: the top five ranks packed, highest first. */
  lemma HighCardCategory(v: Variant, cards: seq<Card>)
    requires IsHighCard(v, cards)
    ensures var s := SortedRanks(cards);
      StrictlyDescending(s) && Score(v, cards) == Pack5(s) && 22222 <= Score(v, cards) < 1000000
  {
    var s := SortedRanks(cards);
    var h := Histogram(s);
    var four, three, pair := GroupDown(h, 4, 2), GroupDown(h, 3, 2), GroupDown(h, 2, 2);
    HighCardShape(v, cards, four, three, pair);
    ScoreUnfold(v, cards);
    SortedRanksStraight(cards);
    CategorizeHigh(v, s, four, three, pair);
    SortedRanksCount(cards);
    DescendingDistinct(s);
  }

  lemma CategorizePair(v: Variant, ranks: seq<int>, four: seq<int>, three: seq<int>, pair: seq<int>)
    requires |ranks| == 7 && InRange(ranks) && Descending(ranks) && Grouped(ranks, four, three, pair)
    requires four == [] && three == [] && |pair| == 1 && (v == Worker || GetStraight(ranks) == 0)
    ensures Categorize(v, ranks, four, three, pair) == PairScore(ranks, pair[0])
  {
  }

  lemma CategorizeHigh(v: Variant, ranks: seq<int>, four: seq<int>, three: seq<int>, pair: seq<int>)
    requires |ranks| == 7 && InRange(ranks) && Descending(ranks) && Grouped(ranks, four, three, pair)
    requires four == [] && three == [] && pair == [] && (v == Worker || GetStraight(ranks) == 0)
    ensures Categorize(v, ranks, four, three, pair) == Pack5(ranks)
  {
  }

  /** On the same lists the worker's checks agree with the server's unless the server
      finds a straight; the worker then falls through to a lower category. */
  lemma CategorizeVariants(ranks: seq<int>, four: seq<int>, three: seq<int>, pair: seq<int>)
    requires |ranks| == 7 && InRange(ranks) && Descending(ranks) && Grouped(ranks, four, three, pair)
    ensures var w, sv := Categorize(Worker, ranks, four, three, pair), Categorize(Server, ranks, four, three, pair);
      && (!(4000000 <= sv < 5000000) ==> w == sv)
      && (4000000 <= sv < 5000000 ==> w < 4000000)
      && !(4000000 <= w < 5000000)
  {
    GetStraightRange(ranks);
  }

  // ------------------------------------------------------------ worker against server

  /** The flush test comes first and does not depend on the copy. */
  lemma FlushVariants(cards: seq<Card>)
    requires Hand7(cards) && !NoFlush(cards)
    ensures Score(Worker, cards) == Score(Server, cards) && !(4000000 <= Score(Worker, cards) < 5000000)
  {
    FlushCategory(Worker, cards);
    FlushCategory(Server, cards);
  }

  /** The two copies agree on every hand the server does not score as a straight;
      on those, the worker scores below the straight band, which it never reaches. */
  lemma WorkerAgainstServer(cards: seq<Card>)
    requires Hand7(cards)
    ensures !(4000000 <= Score(Server, cards) < 5000000) ==> Score(Worker, cards) == Score(Server, cards)
    ensures 4000000 <= Score(Server, cards) < 5000000 ==> Score(Worker, cards) < 4000000
    ensures !(4000000 <= Score(Worker, cards) < 5000000)
  {
    if NoFlush(cards) {
      var s := SortedRanks(cards);
      var h := Histogram(s);
      ScoreUnfold(Worker, cards);
      ScoreUnfold(Server, cards);
      CategorizeVariants(s, GroupDown(h, 4, 2), GroupDown(h, 3, 2), GroupDown(h, 2, 2));
    } else {
      FlushVariants(cards);
    }
  }

  /** A straight with no flush and no rank twice: the server scores it as a straight,
      the worker as high card. */
  lemma WorkerStraightIsHighCard(cards: seq<Card>)
    requires Hand7(cards) && NoFlush(cards) && (forall x :: Count(RankList(cards), x) <= 1)
    requires BestStraight(RankList(cards)) != 0
    ensures Score(Worker, cards) == Pack5(SortedRanks(cards)) < 1000000
    ensures Score(Server, cards) == 4000000 + BestStraight(RankList(cards))
  {
    HighCardCategory(Worker, cards);
    StraightCategory(cards);
  }

  // ------------------------------------------------------------ the one-pair overflow

  /** A pair of aces outscores every two pair. */
  lemma AcesBeatTwoPair(v: Variant, a: seq<Card>, b: seq<Card>, p0: int, p1: int)
    requires IsOnePair(v, a, 14) && IsTwoPair(v, b, p0, p1)
    ensures Score(v, a) > Score(v, b)
  {
    OnePairCategory(v, a, 14);
    TwoPairCategory(v, b, p0, p1);
  }

  /** A pair of jacks or better outscores a two pair whose top pair is nine or lower;
      a pair of tens or lower loses to every two pair. */
  lemma PairAgainstTwoPair(v: Variant, a: seq<Card>, p: int, b: seq<Card>, p0: int, p1: int)
    requires IsOnePair(v, a, p) && IsTwoPair(v, b, p0, p1)
    ensures p >= 11 && p0 <= 9 ==> Score(v, a) > Score(v, b)
    ensures p <= 10 ==> Score(v, a) < Score(v, b)
  {
    OnePairCategory(v, a, p);
    TwoPairCategory(v, b, p0, p1);
    var k := Others(RankList(a), p, p);
    assert k[0] in k && k[1] in k && k[2] in k;
  }

  // ------------------------------------------------------------ score bands

  /** The bands a score can fall in, one per category, from the straight flush
      down to the high card. The straight band is the server's alone, and the
      one-pair band overlaps the two-pair band (PairScore). */
  predicate Banded(v: Variant, r: int) {
    || 8000005 <= r <= 8000014
    || 7000202 <= r <= 7001414
    || 6000202 <= r <= 6001414
    || 5000000 <= r < 6000000
    || (v == Server && 4000005 <= r <= 4000014)
    || 3020000 <= r < 3141500
    || 2030202 <= r <= 2141314
    || 1200000 <= r < 2415000
    || 22222 <= r < 1000000
  }

  /** Every seven valid cards score inside one of the bands, so no score lies
      below 22222 or above 8000014, and the worker never scores in 4000000s. */
  lemma ScoreBand(v: Variant, cards: seq<Card>)
    requires Hand7(cards)
    ensures Banded(v, Score(v, cards))
    ensures 22222 <= Score(v, cards) <= 8000014
    ensures v == Worker ==> !(4000000 <= Score(v, cards) < 5000000)
  {
    match FlushSuit(cards)
    case Some(s) =>
      FlushRanksLength(cards, s);
      FlushRanksSorted(cards, s);
      GetStraightRange(FlushRanks(cards, s));
    case None =>
      FlushSuitSpec(cards);
      ScoreUnfold(v, cards);
      var r := SortedRanks(cards);
      var h := Histogram(r);
      CategorizeBand(v, r, GroupDown(h, 4, 2), GroupDown(h, 3, 2), GroupDown(h, 2, 2));
  }

  lemma CategorizeBand(v: Variant, ranks: seq<int>, four: seq<int>, three: seq<int>, pair: seq<int>)
    requires |ranks| == 7 && InRange(ranks) && Descending(ranks) && Grouped(ranks, four, three, pair)
    ensures Banded(v, Categorize(v, ranks, four, three, pair))
  {
    GetStraightRange(ranks);
    if |four| == 0 && |three| == 0 && |pair| >= 2 {
      assert pair[1] < pair[0];
    }
  }

  // ------------------------------------------------------------ a worked showdown

  /** A full house is scored by the rank of its three and then of its two: with
      Ks Kh Kd Qs Qh on the board, As Ah makes kings full of aces (6001314) and
      2s 2h only the board's kings full of queens (6001312), so the aces win
      outright rather than tie, in both evaluators. */
  lemma FullHouseKicker(v: Variant, hero: seq<Card>, opponent: seq<Card>)
    requires hero == [Card(14, Spades), Card(14, Hearts)] + FullHouseBoard()
    requires opponent == [Card(2, Spades), Card(2, Hearts)] + FullHouseBoard()
    ensures Hand7(hero) && Hand7(opponent)
    ensures Score(v, hero) == 6001314
    ensures Score(v, opponent) == 6001312
    ensures Score(v, hero) > Score(v, opponent)
  {
    FullHouseShape(hero, 14);
    FullHouseShape(opponent, 2);
    TripsAndPairCategory(v, hero, 13, 14);
    TripsAndPairCategory(v, opponent, 13, 12);
  }

  /** Kings and queens on board: Ks Kh Kd Qs Qh. */
  function FullHouseBoard(): seq<Card> {
    [Card(13, Spades), Card(13, Hearts), Card(13, Diamonds), Card(12, Spades), Card(12, Hearts)]
  }

  /** A pocket pair of rank x (2 or 14) beside that board: three kings, and
      x and queens held twice. */
  lemma FullHouseShape(cards: seq<Card>, x: int)
    requires x == 2 || x == 14
    requires cards == [Card(x, Spades), Card(x, Hearts)] + FullHouseBoard()
    ensures IsTripsAndPair(cards, 13, if x == 14 then 14 else 12)
  {
    var r := RankList(cards);
    RanksOfBoard(cards, x);
    forall y ensures Count(r, y) == (if y == x then 2 else 0) + (if y == 13 then 3 else 0) + (if y == 12 then 2 else 0) {
      CountsOfBoard(r, x, y);
    }
    forall s ensures SuitCount(cards, s) < 5 {
      SuitCountsOfBoard(cards, x, s);
    }
  }

  lemma RanksOfBoard(cards: seq<Card>, x: int)
    requires cards == [Card(x, Spades), Card(x, Hearts)] + FullHouseBoard()
    ensures RankList(cards) == [x, x, 13, 13, 13, 12, 12]
  {
    var r := RankList(cards);
    assert |r| == 7;
    assert r[0] == x && r[1] == x && r[2] == 13 && r[3] == 13 && r[4] == 13 && r[5] == 12 && r[6] == 12;
  }

  lemma CountsOfBoard(r: seq<int>, x: int, y: int)
    requires r == [x, x, 13, 13, 13, 12, 12]
    ensures Count(r, y) == (if y == x then 2 else 0) + (if y == 13 then 3 else 0) + (if y == 12 then 2 else 0)
  {
    assert r == Repeat(x, 2) + (Repeat(13, 3) + Repeat(12, 2));
    CountAppend(Repeat(x, 2), Repeat(13, 3) + Repeat(12, 2), y);
    CountAppend(Repeat(13, 3), Repeat(12, 2), y);
    CountRepeat(x, 2, y);
    CountRepeat(13, 3, y);
    CountRepeat(12, 2, y);
  }

  lemma SuitCountsOfBoard(cards: seq<Card>, x: int, s: Suit)
    requires cards == [Card(x, Spades), Card(x, Hearts)] + FullHouseBoard()
    ensures SuitCount(cards, s) == if s == Spades || s == Hearts then 3 else if s == Diamonds then 1 else 0
  {
    assert cards[..0] == [];
    SuitCountStep(cards, 0, s);
    SuitCountStep(cards, 1, s);
    SuitCountStep(cards, 2, s);
    SuitCountStep(cards, 3, s);
    SuitCountStep(cards, 4, s);
    SuitCountStep(cards, 5, s);
    SuitCountStep(cards, 6, s);
    assert cards[..7] == cards;
  }
}
