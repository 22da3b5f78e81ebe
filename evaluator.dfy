/** The 7-card hand evaluator `evaluate7`. `Score` states what it returns,
    following the order of its checks; `Evaluate7` is the evaluator as the
    source writes it, with its tally loops, proved to return `Score`. The two
    copies of the source (server and browser worker) differ only in the plain
    straight test, selected by `Variant`. */
module Evaluator {
  import opened Cards
  import opened Ranks
  import opened Straight

  /** Which copy of evaluate7: the server's, or the worker's, which has no plain-straight branch. */
  datatype Variant = Server | Worker

  /** Seven cards of valid rank, the only input the engine ever evaluates. */
  predicate Hand7(cards: seq<Card>) {
    |cards| == 7 && AllValid(cards)
  }

  /** `ranks.push(c.val)` over the cards: their ranks in input order. */
  function RankList(cards: seq<Card>): (r: seq<int>)
    ensures |r| == |cards|
    ensures forall i :: 0 <= i < |cards| ==> r[i] == cards[i].rank
  {
    if cards == [] then [] else RankList(cards[..|cards| - 1]) + [cards[|cards| - 1].rank]
  }

  /** `cards.filter(c => c.suit === s)`: the cards of suit s, in input order. */
  function OfSuit(cards: seq<Card>, s: Suit): (r: seq<Card>)
    ensures |r| <= |cards|
    ensures forall i :: 0 <= i < |r| ==> r[i] in cards && r[i].suit == s
  {
    if cards == [] then []
    else
      var last := cards[|cards| - 1];
      OfSuit(cards[..|cards| - 1], s) + (if last.suit == s then [last] else [])
  }

  function SuitCount(cards: seq<Card>, s: Suit): nat {
    |OfSuit(cards, s)|
  }

  /** The suitCounts tally, in the order s, h, d, c. */
  function SuitCounts(cards: seq<Card>): seq<nat> {
    [SuitCount(cards, Spades), SuitCount(cards, Hearts), SuitCount(cards, Diamonds), SuitCount(cards, Clubs)]
  }

  /** The flush suit: the first of s, h, d, c counted at least five times, if any. */
  function FlushSuitOf(sc: seq<nat>): (r: Option<Suit>)
    requires |sc| == 4
    ensures r.Some? ==> sc[SuitIndex(r.value)] >= 5
    ensures r.Some? ==> forall i :: 0 <= i < SuitIndex(r.value) ==> sc[i] < 5
    ensures r.None? <==> forall i :: 0 <= i < 4 ==> sc[i] < 5
  {
    if sc[0] >= 5 then Some(Spades)
    else if sc[1] >= 5 then Some(Hearts)
    else if sc[2] >= 5 then Some(Diamonds)
    else if sc[3] >= 5 then Some(Clubs)
    else None
  }

  function FlushSuit(cards: seq<Card>): Option<Suit> {
    FlushSuitOf(SuitCounts(cards))
  }

  /** fRanks: the ranks of the cards of suit s, highest first. */
  function FlushRanks(cards: seq<Card>, s: Suit): seq<int> {
    SortDesc(RankList(OfSuit(cards, s)))
  }

  /** Decimal packing of the first five ranks, most significant first. */
  function Pack5(xs: seq<int>): (r: int)
    requires |xs| >= 5
    ensures InRange(xs) ==> 22222 <= r < 1000000
  {
    xs[0] * 10000 + xs[1] * 1000 + xs[2] * 100 + xs[3] * 10 + xs[4]
  }

  /** The flush branch: a straight flush by its high card, else the top five flush ranks. */
  function FlushScore(fRanks: seq<int>): (r: int)
    requires |fRanks| >= 5 && InRange(fRanks) && Descending(fRanks)
    ensures GetStraight(fRanks) != 0 ==> 8000005 <= r <= 8000014
    ensures GetStraight(fRanks) == 0 ==> 5000000 <= r < 6000000
  {
    GetStraightRange(fRanks);
    var sf := GetStraight(fRanks);
    if sf != 0 then 8000000 + sf else 5000000 + Pack5(fRanks)
  }

  /** four, three and pair are the ranks occurring exactly 4, 3 and 2 times in ranks, highest first. */
  predicate GroupsOf(ranks: seq<int>, four: seq<int>, three: seq<int>, pair: seq<int>) {
    var h := Histogram(ranks);
    four == GroupDown(h, 4, 2) && three == GroupDown(h, 3, 2) && pair == GroupDown(h, 2, 2)
  }

  /** Every entry of g is a valid rank occurring exactly n times in ranks, highest first. */
  predicate CountGroup(ranks: seq<int>, g: seq<int>, n: nat) {
    StrictlyDescending(g) && forall i :: 0 <= i < |g| ==> 2 <= g[i] <= 14 && Count(ranks, g[i]) == n
  }

  /** What the checks rely on about the four / three / pair lists. */
  predicate Grouped(ranks: seq<int>, four: seq<int>, three: seq<int>, pair: seq<int>) {
    CountGroup(ranks, four, 4) && CountGroup(ranks, three, 3) && CountGroup(ranks, pair, 2)
  }

  /** Four of a kind q: the kicker is the highest other rank. */
  function QuadsScore(ranks: seq<int>, q: int): (r: int)
    requires |ranks| == 7 && InRange(ranks) && 2 <= q <= 14 && Count(ranks, q) == 4
    ensures 7000000 + q * 100 + 2 <= r <= 7000000 + q * 100 + 14
  {
    ExceptLength(ranks, q, q);
    ExceptInRange(ranks, q, q);
    7000000 + q * 100 + Except(ranks, q, q)[0]
  }

  /** Three of a kind t with the two highest other ranks as kickers. */
  function TripsScore(ranks: seq<int>, t: int): (r: int)
    requires |ranks| == 7 && InRange(ranks) && 2 <= t <= 14 && Count(ranks, t) == 3
    ensures 3000000 + t * 10000 <= r < 3000000 + t * 10000 + 1500
  {
    ExceptLength(ranks, t, t);
    ExceptInRange(ranks, t, t);
    var k := Except(ranks, t, t);
    3000000 + t * 10000 + k[0] * 100 + k[1]
  }

  /** Two pair p0 over p1 with the highest other rank as kicker. */
  function TwoPairScore(ranks: seq<int>, p0: int, p1: int): (r: int)
    requires |ranks| == 7 && InRange(ranks) && 2 <= p1 < p0 <= 14
    requires Count(ranks, p0) == 2 && Count(ranks, p1) == 2
    ensures 2000000 + p0 * 10000 + p1 * 100 + 2 <= r <= 2000000 + p0 * 10000 + p1 * 100 + 14
  {
    ExceptLength(ranks, p0, p1);
    ExceptInRange(ranks, p0, p1);
    2000000 + p0 * 10000 + p1 * 100 + Except(ranks, p0, p1)[0]
  }

  /** One pair p with the three highest other ranks as kickers. Its band is not
      [1000000, 2000000): p * 100000 reaches 1400000. */
  function PairScore(ranks: seq<int>, p: int): (r: int)
    requires |ranks| == 7 && InRange(ranks) && 2 <= p <= 14 && Count(ranks, p) == 2
    ensures 1000000 + p * 100000 <= r < 1000000 + p * 100000 + 15000
  {
    ExceptLength(ranks, p, p);
    ExceptInRange(ranks, p, p);
    var k := Except(ranks, p, p);
    1000000 + p * 100000 + k[0] * 1000 + k[1] * 10 + k[2]
  }

  /** Every rank of a group list occurs exactly n times, and the list is strictly descending. */
  lemma GroupCounts(ranks: seq<int>, n: nat)
    ensures CountGroup(ranks, GroupDown(Histogram(ranks), n, 2), n)
  {
    var h := Histogram(ranks);
    GroupShape(h, n, 2);
    forall x | 0 <= x < 15 ensures h[x] == Count(ranks, x) {
    }
    GroupOfHistogram(GroupDown(h, n, 2), h, ranks, n);
  }

  lemma GroupOfHistogram(g: seq<int>, h: Hist, ranks: seq<int>, n: nat)
    requires StrictlyDescending(g) && forall x :: x in g <==> 2 <= x <= 14 && h[x] == n
    requires forall x :: 0 <= x < 15 ==> h[x] == Count(ranks, x)
    ensures CountGroup(ranks, g, n)
  {
    forall i | 0 <= i < |g| ensures 2 <= g[i] <= 14 && Count(ranks, g[i]) == n {
      assert g[i] in g;
    }
  }

  /** The non-flush checks, in the source's order; the first that matches decides. */
  function Categorize(v: Variant, ranks: seq<int>, four: seq<int>, three: seq<int>, pair: seq<int>): int
    requires |ranks| == 7 && InRange(ranks) && Descending(ranks) && Grouped(ranks, four, three, pair)
  {
    GetStraightRange(ranks);
    if |four| > 0 then QuadsScore(ranks, four[0])
    else if |three| >= 2 then 6000000 + three[0] * 100 + three[1]
    else if |three| >= 1 && |pair| >= 1 then 6000000 + three[0] * 100 + pair[0]
    else if v == Server && GetStraight(ranks) != 0 then 4000000 + GetStraight(ranks)
    else if |three| >= 1 then TripsScore(ranks, three[0])
    else if |pair| >= 2 then TwoPairScore(ranks, pair[0], pair[1])
    else if |pair| >= 1 then PairScore(ranks, pair[0])
    else Pack5(ranks)
  }

  /** The checks after the flush test, on the sorted ranks. */
  function RankScore(v: Variant, ranks: seq<int>): int
    requires |ranks| == 7 && InRange(ranks) && Descending(ranks)
  {
    var h := Histogram(ranks);
    GroupCounts(ranks, 4);
    GroupCounts(ranks, 3);
    GroupCounts(ranks, 2);
    Categorize(v, ranks, GroupDown(h, 4, 2), GroupDown(h, 3, 2), GroupDown(h, 2, 2))
  }

  /** evaluate7: the score of seven cards. */
  function Score(v: Variant, cards: seq<Card>): int
    requires Hand7(cards)
  {
    match FlushSuit(cards)
    case Some(s) =>
      FlushRanksLength(cards, s);
      FlushRanksSorted(cards, s);
      FlushScore(FlushRanks(cards, s))
    case None =>
      RankScore(v, SortedRanks(cards))
  }

  /** `ranks` after `ranks.sort((a,b)=>b-a)`: seven valid ranks, highest first. */
  function SortedRanks(cards: seq<Card>): (ranks: seq<int>)
    requires Hand7(cards)
    ensures |ranks| == 7 && InRange(ranks) && Descending(ranks)
    ensures multiset(ranks) == multiset(RankList(cards))
  {
    RanksValid(cards);
    SortDescLength(RankList(cards));
    SortDescIsSort(RankList(cards));
    SortDesc(RankList(cards))
  }

  lemma RanksValid(cards: seq<Card>)
    requires AllValid(cards)
    ensures InRange(RankList(cards))
  {
  }

  lemma SuitRanksValid(cards: seq<Card>, s: Suit)
    requires AllValid(cards)
    ensures AllValid(OfSuit(cards, s)) && InRange(RankList(OfSuit(cards, s)))
  {
    var f := OfSuit(cards, s);
    forall i | 0 <= i < |f| ensures ValidCard(f[i]) {
      var j :| 0 <= j < |cards| && cards[j] == f[i];
    }
  }

  /** fRanks has one entry per card of the suit. */
  lemma FlushRanksLength(cards: seq<Card>, s: Suit)
    requires AllValid(cards)
    ensures |FlushRanks(cards, s)| == SuitCount(cards, s)
  {
    SuitRanksValid(cards, s);
    SortDescLength(RankList(OfSuit(cards, s)));
  }

  /** fRanks is a list of valid ranks, highest first. */
  lemma FlushRanksSorted(cards: seq<Card>, s: Suit)
    requires AllValid(cards)
    ensures InRange(FlushRanks(cards, s)) && Descending(FlushRanks(cards, s))
  {
    SortDescSorted(RankList(OfSuit(cards, s)));
  }

  /** The first loop of evaluate7: `suitCounts[c.suit]++` and `ranks.push(c.val)` per card. */
  method TallyCards(cards: seq<Card>) returns (suitCounts: seq<nat>, ranks: seq<int>)
    ensures suitCounts == SuitCounts(cards) && ranks == RankList(cards)
  {
    var tally := new nat[4](_ => 0);
    ranks := [];
    assert cards[..0] == [];
    for i := 0 to |cards|
      invariant ranks == RankList(cards[..i])
      invariant tally[..] == SuitCounts(cards[..i])
    {
      TallyStep(cards, i);
      var j := SuitIndex(cards[i].suit);
      ghost var before := tally[..];
      tally[j] := tally[j] + 1;
      assert tally[..] == before[j := before[j] + 1];
      ranks := ranks + [cards[i].rank];
    }
    assert cards[..|cards|] == cards;
    suitCounts := tally[..];
  }

  /** Tallying card i adds its rank to the rank list and one to its suit's count only. */
  lemma TallyStep(cards: seq<Card>, i: nat)
    requires i < |cards|
    ensures RankList(cards[..i + 1]) == RankList(cards[..i]) + [cards[i].rank]
    ensures var sc, j := SuitCounts(cards[..i]), SuitIndex(cards[i].suit);
      SuitCounts(cards[..i + 1]) == sc[j := sc[j] + 1]
  {
    assert cards[..i + 1][..i] == cards[..i];
    SuitCountStep(cards, i, Spades);
    SuitCountStep(cards, i, Hearts);
    SuitCountStep(cards, i, Diamonds);
    SuitCountStep(cards, i, Clubs);
  }

  lemma SuitCountStep(cards: seq<Card>, i: nat, s: Suit)
    requires i < |cards|
    ensures SuitCount(cards[..i + 1], s) == SuitCount(cards[..i], s) + (if cards[i].suit == s then 1 else 0)
  {
    assert cards[..i + 1][..i] == cards[..i];
  }

  /** The counts object: `counts[r] = (counts[r] || 0) + 1` per rank. */
  method CountRanks(ranks: seq<int>) returns (counts: Hist)
    requires InRange(ranks)
    ensures counts == Histogram(ranks)
  {
    var tally := new nat[15](_ => 0);
    for i := 0 to |ranks|
      invariant forall r :: 0 <= r < 15 ==> tally[r] == Count(ranks[..i], r)
    {
      assert ranks[..i + 1][..i] == ranks[..i];
      tally[ranks[i]] := tally[ranks[i]] + 1;
    }
    assert ranks[..|ranks|] == ranks;
    counts := tally[..];
  }

  /** The scan over the distinct ranks, highest first, into four / three / pair
      (a rank that does not occur falls through every test). */
  method GroupRanks(counts: Hist) returns (four: seq<int>, three: seq<int>, pair: seq<int>)
    ensures four == GroupDown(counts, 4, 2) && three == GroupDown(counts, 3, 2) && pair == GroupDown(counts, 2, 2)
  {
    four, three, pair := [], [], [];
    var r := 14;
    while r >= 2
      invariant 1 <= r <= 14
      invariant four == GroupDown(counts, 4, r + 1)
      invariant three == GroupDown(counts, 3, r + 1)
      invariant pair == GroupDown(counts, 2, r + 1)
    {
      var n := counts[r];
      if n == 4 {
        four := four + [r];
      } else if n == 3 {
        three := three + [r];
      } else if n == 2 {
        pair := pair + [r];
      }
      r := r - 1;
    }
  }

  /** The evaluator as the source writes it: tally loops, then the checks. */
  method Evaluate7(v: Variant, cards: seq<Card>) returns (score: int)
    requires Hand7(cards)
    ensures score == Score(v, cards)
  {
    var suitCounts, ranks := TallyCards(cards);
    ranks := SortedRanks(cards);
    var flush := FlushSuitOf(suitCounts);
    if flush.Some? {
      FlushRanksLength(cards, flush.value);
      FlushRanksSorted(cards, flush.value);
      score := FlushScore(FlushRanks(cards, flush.value));
    } else {
      score := RankChecks(v, ranks);
    }
  }

  /** Without a flush: the counts object, the four / three / pair lists, then the checks. */
  method RankChecks(v: Variant, ranks: seq<int>) returns (score: int)
    requires |ranks| == 7 && InRange(ranks) && Descending(ranks)
    ensures score == RankScore(v, ranks)
  {
    var counts := CountRanks(ranks);
    var four, three, pair := GroupRanks(counts);
    GroupCounts(ranks, 4);
    GroupCounts(ranks, 3);
    GroupCounts(ranks, 2);
    score := Categorize(v, ranks, four, three, pair);
  }
}
