/** Rank lists as the evaluator handles them: occurrence counts, the rank
    histogram (the `counts` object), the descending sort, the groups of ranks
    seen exactly four, three or two times, and the kicker filter. */
module Ranks {

  /** Number of occurrences of x in xs. */
  function Count(xs: seq<int>, x: int): nat
  {
    if xs == [] then 0
    else Count(xs[..|xs| - 1], x) + (if xs[|xs| - 1] == x then 1 else 0)
  }

  /** A rank histogram: entry r is how many cards have rank r (entries 0 and 1 stay unused). */
  type Hist = h: seq<nat> | |h| == 15 witness seq(15, _ => 0)

  function Histogram(xs: seq<int>): Hist
  {
    seq(15, r => Count(xs, r))
  }

  predicate InRange(xs: seq<int>) {
    forall i :: 0 <= i < |xs| ==> 2 <= xs[i] <= 14
  }

  predicate Descending(xs: seq<int>) {
    forall i, j :: 0 <= i < j < |xs| ==> xs[i] >= xs[j]
  }

  predicate StrictlyDescending(xs: seq<int>) {
    forall i, j :: 0 <= i < j < |xs| ==> xs[i] > xs[j]
  }

  function Repeat(x: int, n: nat): seq<int> {
    seq(n, _ => x)
  }

  /** Ranks lo .. 14, highest first, each repeated as often as h records. */
  function DescUp(h: Hist, lo: int): seq<int>
    requires 2 <= lo <= 15
    decreases 15 - lo
  {
    if lo == 15 then [] else DescUp(h, lo + 1) + Repeat(lo, h[lo])
  }

  /** `ranks.sort((a, b) => b - a)`, computed as a counting sort over the histogram. */
  function SortDesc(xs: seq<int>): seq<int> {
    DescUp(Histogram(xs), 2)
  }

  /** The distinct ranks lo .. 14 that occur exactly n times, highest first
      (the `four`, `three` and `pair` lists for n = 4, 3, 2). */
  function GroupDown(h: Hist, n: nat, lo: int): seq<int>
    requires 2 <= lo <= 15
    decreases 15 - lo
  {
    if lo == 15 then [] else GroupDown(h, n, lo + 1) + (if h[lo] == n then [lo] else [])
  }

  /** `xs.filter(r => r !== a && r !== b)`; a single exclusion passes a == b. */
  function Except(xs: seq<int>, a: int, b: int): seq<int>
  {
    if xs == [] then []
    else
      var last := xs[|xs| - 1];
      Except(xs[..|xs| - 1], a, b) + (if last == a || last == b then [] else [last])
  }

  // ---------------------------------------------------------------- counting

  lemma {:induction false} CountAppend(a: seq<int>, b: seq<int>, x: int)
    ensures Count(a + b, x) == Count(a, x) + Count(b, x)
    decreases |b|
  {
    if b != [] {
      assert (a + b)[..|a + b| - 1] == a + b[..|b| - 1];
      CountAppend(a, b[..|b| - 1], x);
    } else {
      assert a + b == a;
    }
  }

  lemma {:induction false} CountRepeat(y: int, n: nat, x: int)
    ensures Count(Repeat(y, n), x) == if x == y then n else 0
  {
    if n > 0 {
      assert Repeat(y, n)[..n - 1] == Repeat(y, n - 1);
      CountRepeat(y, n - 1, x);
    }
  }

  /** Count is the multiplicity in the multiset of the sequence. */
  lemma {:induction false} CountMultiset(xs: seq<int>, x: int)
    ensures Count(xs, x) == multiset(xs)[x]
  {
    if xs != [] {
      assert xs == xs[..|xs| - 1] + [xs[|xs| - 1]];
      CountMultiset(xs[..|xs| - 1], x);
    }
  }

  lemma CountPositive(xs: seq<int>, x: int)
    ensures Count(xs, x) > 0 <==> x in xs
  {
    CountMultiset(xs, x);
  }

  /** A value occurs at most as often as the list is long. */
  lemma {:induction false} CountLength(xs: seq<int>, x: int)
    ensures Count(xs, x) <= |xs|
  {
    if xs != [] {
      CountLength(xs[..|xs| - 1], x);
    }
  }

  /** Two different values together occur at most |xs| times. */
  lemma CountTwo(xs: seq<int>, a: int, b: int)
    requires a != b
    ensures Count(xs, a) + Count(xs, b) <= |xs|
  {
    ExceptLength(xs, a, b);
  }

  /** Three different values together occur at most |xs| times. */
  lemma CountThree(xs: seq<int>, a: int, b: int, c: int)
    requires a != b && b != c && a != c
    ensures Count(xs, a) + Count(xs, b) + Count(xs, c) <= |xs|
  {
    ExceptLength(xs, a, b);
    ExceptCount(xs, a, b, c);
    CountLength(Except(xs, a, b), c);
  }

  // ---------------------------------------------------------------- sorting

  /** DescUp lists exactly the ranks lo .. 14 with the multiplicities of h, in descending order. */
  lemma {:induction false} DescUpShape(h: Hist, lo: int)
    requires 2 <= lo <= 15
    ensures Descending(DescUp(h, lo))
    ensures forall i :: 0 <= i < |DescUp(h, lo)| ==> lo <= DescUp(h, lo)[i] <= 14
    ensures forall x :: Count(DescUp(h, lo), x) == if lo <= x <= 14 then h[x] else 0
    decreases 15 - lo
  {
    if lo < 15 {
      DescUpShape(h, lo + 1);
      var a, b := DescUp(h, lo + 1), Repeat(lo, h[lo]);
      assert DescUp(h, lo) == a + b;
      forall x ensures Count(a + b, x) == if lo <= x <= 14 then h[x] else 0 {
        CountAppend(a, b, x);
        CountRepeat(lo, h[lo], x);
      }
    }
  }

  /** A list of valid ranks holds no other value. */
  lemma {:induction false} CountOutOfRange(xs: seq<int>, x: int)
    requires InRange(xs) && (x < 2 || x > 14)
    ensures Count(xs, x) == 0
  {
    if xs != [] {
      CountOutOfRange(xs[..|xs| - 1], x);
    }
  }

  /** SortDesc is a sort: descending, and a permutation of its input. */
  lemma SortDescIsSort(xs: seq<int>)
    requires InRange(xs)
    ensures Descending(SortDesc(xs)) && InRange(SortDesc(xs))
    ensures multiset(SortDesc(xs)) == multiset(xs)
  {
    DescUpShape(Histogram(xs), 2);
    SortDescMultiset(xs);
  }

  /** SortDesc orders its input, highest first. */
  lemma SortDescSorted(xs: seq<int>)
    ensures Descending(SortDesc(xs)) && InRange(SortDesc(xs))
  {
    DescUpShape(Histogram(xs), 2);
  }

  lemma SortDescMultiset(xs: seq<int>)
    requires InRange(xs)
    ensures multiset(SortDesc(xs)) == multiset(xs)
  {
    forall x ensures multiset(SortDesc(xs))[x] == multiset(xs)[x] {
      SortDescCount(xs, x);
      CountMultiset(SortDesc(xs), x);
      CountMultiset(xs, x);
    }
  }

  /** Sorting keeps the length. */
  lemma SortDescLength(xs: seq<int>)
    requires InRange(xs)
    ensures |SortDesc(xs)| == |xs|
  {
    SortDescIsSort(xs);
    assert |multiset(SortDesc(xs))| == |multiset(xs)|;
  }

  /** SortDesc counts every rank as often as the input does. */
  lemma SortDescCount(xs: seq<int>, x: int)
    requires InRange(xs)
    ensures Count(SortDesc(xs), x) == Count(xs, x)
  {
    DescUpShape(Histogram(xs), 2);
    if x < 2 || x > 14 {
      CountOutOfRange(xs, x);
    } else {
      assert Histogram(xs)[x] == Count(xs, x);
    }
  }

  /** A descending order of a multiset is unique, so SortDesc agrees with any descending sort. */
  lemma {:induction false} SortUnique(a: seq<int>, b: seq<int>)
    requires Descending(a) && Descending(b) && multiset(a) == multiset(b)
    ensures a == b
    decreases |a|
  {
    assert |a| == |b| by {
      assert |a| == |multiset(a)| && |b| == |multiset(b)|;
    }
    if a != [] {
      SameHead(a, b);
      SameTail(a, b);
      DescendingTail(a);
      DescendingTail(b);
      SortUnique(a[1..], b[1..]);
      assert a == [a[0]] + a[1..] && b == [b[0]] + b[1..];
    }
  }

  /** Two descending lists with the same multiset start with the same (largest) element. */
  lemma SameHead(a: seq<int>, b: seq<int>)
    requires Descending(a) && Descending(b) && multiset(a) == multiset(b) && a != []
    ensures b != [] && a[0] == b[0]
  {
    assert a[0] in multiset(a);
    var i :| 0 <= i < |b| && b[i] == a[0];
    assert b[0] in multiset(b);
    var j :| 0 <= j < |a| && a[j] == b[0];
  }

  lemma SameTail(a: seq<int>, b: seq<int>)
    requires multiset(a) == multiset(b) && a != [] && b != [] && a[0] == b[0]
    ensures multiset(a[1..]) == multiset(b[1..])
  {
    assert a == [a[0]] + a[1..] && b == [b[0]] + b[1..];
    assert multiset(a[1..]) == multiset(a) - multiset{a[0]};
    assert multiset(b[1..]) == multiset(b) - multiset{b[0]};
  }

  lemma DescendingTail(a: seq<int>)
    requires Descending(a) && a != []
    ensures Descending(a[1..])
  {
    forall i, j | 0 <= i < j < |a| - 1 ensures a[1..][i] >= a[1..][j] {
      assert a[1..][i] == a[i + 1] && a[1..][j] == a[j + 1];
    }
  }

  // ---------------------------------------------------------------- groups

  /** GroupDown holds exactly the ranks lo .. 14 of multiplicity n, each once, highest first. */
  lemma {:induction false} GroupShape(h: Hist, n: nat, lo: int)
    requires 2 <= lo <= 15
    ensures StrictlyDescending(GroupDown(h, n, lo))
    ensures forall x :: x in GroupDown(h, n, lo) <==> lo <= x <= 14 && h[x] == n
    decreases 15 - lo
  {
    if lo < 15 {
      GroupShape(h, n, lo + 1);
      var g := GroupDown(h, n, lo + 1);
      forall i | 0 <= i < |g| ensures g[i] > lo {
        assert g[i] in g;
      }
    }
  }

  // ---------------------------------------------------------------- kickers

  lemma {:induction false} ExceptCount(xs: seq<int>, a: int, b: int, x: int)
    ensures Count(Except(xs, a, b), x) == if x == a || x == b then 0 else Count(xs, x)
  {
    if xs != [] {
      var init, last := xs[..|xs| - 1], xs[|xs| - 1];
      ExceptCount(init, a, b, x);
      var tail := if last == a || last == b then [] else [last];
      CountAppend(Except(init, a, b), tail, x);
      assert Count(tail, x) == if tail == [] then 0 else if last == x then 1 else 0 by {
        if tail != [] {
          assert tail[..0] == [];
        }
      }
    }
  }

  /** The filter removes exactly the occurrences of a and b. */
  lemma {:induction false} ExceptLength(xs: seq<int>, a: int, b: int)
    ensures |Except(xs, a, b)| == |xs| - Count(xs, a) - (if b != a then Count(xs, b) else 0)
  {
    if xs != [] {
      ExceptLength(xs[..|xs| - 1], a, b);
    }
  }

  /** Every element the filter keeps comes from xs and is neither a nor b. */
  lemma {:induction false} ExceptMembers(xs: seq<int>, a: int, b: int)
    ensures forall y :: y in Except(xs, a, b) <==> y in xs && y != a && y != b
  {
    if xs != [] {
      ExceptMembers(xs[..|xs| - 1], a, b);
      assert xs == xs[..|xs| - 1] + [xs[|xs| - 1]];
    }
  }

  /** Filtering keeps the relative order, so a descending list stays descending. */
  lemma {:induction false} ExceptDescending(xs: seq<int>, a: int, b: int)
    requires Descending(xs)
    ensures Descending(Except(xs, a, b))
  {
    if xs != [] {
      var init := xs[..|xs| - 1];
      ExceptDescending(init, a, b);
      ExceptMembers(init, a, b);
      var e := Except(init, a, b);
      forall i | 0 <= i < |e| ensures e[i] >= xs[|xs| - 1] {
        assert e[i] in e;
      }
    }
  }

  lemma ExceptInRange(xs: seq<int>, a: int, b: int)
    requires InRange(xs)
    ensures InRange(Except(xs, a, b))
  {
    var ys := Except(xs, a, b);
    ExceptMembers(xs, a, b);
    forall i | 0 <= i < |ys| ensures 2 <= ys[i] <= 14 {
      assert ys[i] in ys;
    }
  }

  /** The kicker list of the source (the sorted ranks, filtered) is the sorted list of the other ranks. */
  lemma ExceptSorted(xs: seq<int>, a: int, b: int)
    requires InRange(xs)
    ensures InRange(Except(xs, a, b))
    ensures Except(SortDesc(xs), a, b) == SortDesc(Except(xs, a, b))
  {
    var ys := Except(xs, a, b);
    ExceptInRange(xs, a, b);
    SortDescIsSort(xs);
    SortDescIsSort(ys);
    ExceptDescending(SortDesc(xs), a, b);
    forall x ensures multiset(Except(SortDesc(xs), a, b))[x] == multiset(SortDesc(ys))[x] {
      CountMultiset(Except(SortDesc(xs), a, b), x);
      ExceptCount(SortDesc(xs), a, b, x);
      CountMultiset(SortDesc(xs), x);
      CountMultiset(SortDesc(ys), x);
      ExceptCount(xs, a, b, x);
      CountMultiset(xs, x);
      CountMultiset(ys, x);
    }
    assert multiset(Except(SortDesc(xs), a, b)) == multiset(SortDesc(ys));
    SortUnique(Except(SortDesc(xs), a, b), SortDesc(ys));
  }
}
