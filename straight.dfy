/** Straight detection: the evaluator's inner `getStraight` as written, a
    reference definition by runs of five consecutive ranks, and the proof that
    the two agree on descending rank lists. */
module Straight {
  import opened Ranks

  /** `[...new Set(xs)]`: the first occurrence of every value, in order. */
  function Dedup(xs: seq<int>): seq<int>
  {
    if xs == [] then []
    else
      var init, last := xs[..|xs| - 1], xs[|xs| - 1];
      if last in init then Dedup(init) else Dedup(init) + [last]
  }

  /** The window scan `for (i = 0; i <= v.length - 5; i++) if (v[i] - v[i+4] === 4) ...`:
      the top value of the first window spanning exactly four, or 0. */
  function FirstRun(v: seq<int>, i: nat): int
    decreases |v| - i
  {
    if i + 4 < |v| then
      if v[i] - v[i + 4] == 4 then v[i] else FirstRun(v, i + 1)
    else 0
  }

  /** `getStraight(vals)`: high card of the straight among vals (5 for A-2-3-4-5), or 0. */
  function GetStraight(vals: seq<int>): int
  {
    var v := Dedup(vals);
    if |v| < 5 then 0
    else if 14 in v && 2 in v && 3 in v && 4 in v && 5 in v then
      var norm := FirstRun(v, 0);
      if norm != 0 then norm else 5
    else FirstRun(v, 0)
  }

  // ------------------------------------------------------ reference definition

  /** The five ranks h, h-1, .., h-4 all occur in vals. */
  predicate RunAt(vals: seq<int>, h: int) {
    h in vals && h - 1 in vals && h - 2 in vals && h - 3 in vals && h - 4 in vals
  }

  /** Ace, 2, 3, 4 and 5 all occur: the wheel, the ace playing low. */
  predicate Wheel(vals: seq<int>) {
    14 in vals && 5 in vals && 4 in vals && 3 in vals && 2 in vals
  }

  /** The highest h' <= h, h' >= 6, with a run topped by h'; 0 when none. */
  function BestRun(vals: seq<int>, h: int): int
    decreases h
  {
    if h < 6 then 0 else if RunAt(vals, h) then h else BestRun(vals, h - 1)
  }

  /** The high card of the best straight: the highest run, else 5 for the wheel, else 0. */
  function BestStraight(vals: seq<int>): int {
    var b := BestRun(vals, 14);
    if b != 0 then b else if Wheel(vals) then 5 else 0
  }

  // ------------------------------------------------------ the reference, characterised

  lemma {:induction false} BestRunSpec(vals: seq<int>, h: int)
    ensures var r := BestRun(vals, h);
      || (r == 0 && forall k :: 6 <= k <= h ==> !RunAt(vals, k))
      || (6 <= r <= h && RunAt(vals, r) && forall k :: r < k <= h ==> !RunAt(vals, k))
    decreases h
  {
    if h >= 6 && !RunAt(vals, h) {
      BestRunSpec(vals, h - 1);
    }
  }

  /** If no run tops any of lo+1 .. hi, searching from hi finds what searching from lo finds. */
  lemma {:induction false} BestRunSkip(vals: seq<int>, hi: int, lo: int)
    requires lo <= hi
    requires forall k :: lo < k <= hi ==> !RunAt(vals, k)
    ensures BestRun(vals, hi) == BestRun(vals, lo)
    decreases hi - lo
  {
    if lo < hi {
      BestRunSkip(vals, hi - 1, lo);
    }
  }

  /** Runs depend only on which values occur. */
  lemma {:induction false} BestRunMembers(a: seq<int>, b: seq<int>, h: int)
    requires forall x :: x in a <==> x in b
    ensures BestRun(a, h) == BestRun(b, h)
    decreases h
  {
    if h >= 6 {
      BestRunMembers(a, b, h - 1);
    }
  }

  // ------------------------------------------------------ de-duplication

  lemma DedupShape(xs: seq<int>)
    ensures forall x :: x in Dedup(xs) <==> x in xs
    ensures Descending(xs) ==> StrictlyDescending(Dedup(xs))
  {
    DedupMembers(xs);
    if Descending(xs) {
      DedupDescending(xs);
    }
  }

  lemma {:induction false} DedupMembers(xs: seq<int>)
    ensures forall x :: x in Dedup(xs) <==> x in xs
  {
    if xs != [] {
      var init, last := xs[..|xs| - 1], xs[|xs| - 1];
      DedupMembers(init);
      assert xs == init + [last];
    }
  }

  lemma {:induction false} DedupDescending(xs: seq<int>)
    requires Descending(xs)
    ensures StrictlyDescending(Dedup(xs))
  {
    if xs != [] {
      var init, last := xs[..|xs| - 1], xs[|xs| - 1];
      assert Descending(init) by {
        forall i, j | 0 <= i < j < |init| ensures init[i] >= init[j] {
          assert init[i] == xs[i] && init[j] == xs[j];
        }
      }
      DedupDescending(init);
      if last !in init {
        DedupMembers(init);
        var d := Dedup(init);
        forall i | 0 <= i < |d| ensures d[i] > last {
          assert d[i] in d;
          var j :| 0 <= j < |init| && init[j] == d[i];
          assert xs[j] >= xs[|xs| - 1];
        }
        AppendBelow(d, last);
      }
    }
  }

  /** A strictly descending list stays so when a value below all of it is appended. */
  lemma AppendBelow(d: seq<int>, x: int)
    requires StrictlyDescending(d) && forall i :: 0 <= i < |d| ==> d[i] > x
    ensures StrictlyDescending(d + [x])
  {
    var e := d + [x];
    forall i, j | 0 <= i < j < |e| ensures e[i] > e[j] {
      assert e[i] == d[i];
    }
  }

  // ------------------------------------------------------ strictly descending lists

  /** In a strictly descending list, the value one below v[j], if present, sits right after it. */
  lemma NextIsPredecessor(v: seq<int>, j: int)
    requires StrictlyDescending(v) && 0 <= j < |v| && v[j] - 1 in v
    ensures j + 1 < |v| && v[j + 1] == v[j] - 1
  {
    var m :| 0 <= m < |v| && v[m] == v[j] - 1;
    assert m > j;
  }

  /** Nothing lies strictly between two neighbours of a strictly descending list. */
  lemma Gap(v: seq<int>, i: int, k: int)
    requires StrictlyDescending(v) && 0 <= i && i + 1 < |v| && v[i + 1] < k < v[i]
    ensures k !in v
  {
    if k in v {
      var m :| 0 <= m < |v| && v[m] == k;
    }
  }

  /** A window of five neighbours spans exactly four iff it is a run. */
  lemma WindowIsRun(v: seq<int>, i: int)
    requires StrictlyDescending(v) && 0 <= i && i + 4 < |v|
    ensures v[i] - v[i + 4] == 4 <==> RunAt(v, v[i])
  {
    assert v[i] > v[i + 1] > v[i + 2] > v[i + 3] > v[i + 4];
    if v[i] - v[i + 4] == 4 {
      assert v[i + 1] == v[i] - 1 && v[i + 2] == v[i] - 2 && v[i + 3] == v[i] - 3;
      assert v[i + 1] in v && v[i + 2] in v && v[i + 3] in v && v[i + 4] in v;
    }
    if RunAt(v, v[i]) {
      RunFrom(v, i);
    }
  }

  /** A run topped by v[m] occupies v[m .. m+4]. */
  lemma RunFrom(v: seq<int>, m: int)
    requires StrictlyDescending(v) && 0 <= m < |v| && RunAt(v, v[m])
    ensures m + 4 < |v| && v[m + 4] == v[m] - 4
  {
    NextIsPredecessor(v, m);
    NextIsPredecessor(v, m + 1);
    NextIsPredecessor(v, m + 2);
    NextIsPredecessor(v, m + 3);
  }

  /** The window scan from i finds the best run topped at or below v[i]. */
  lemma {:induction false} FirstRunIsBest(v: seq<int>, i: nat)
    requires StrictlyDescending(v) && InRange(v) && i < |v|
    ensures FirstRun(v, i) == BestRun(v, v[i])
    decreases |v| - i
  {
    if i + 4 < |v| {
      WindowIsRun(v, i);
      if v[i] - v[i + 4] != 4 {
        FirstRunIsBest(v, i + 1);
        forall k | v[i + 1] < k <= v[i] ensures !RunAt(v, k) {
          if k < v[i] {
            Gap(v, i, k);
          }
        }
        BestRunSkip(v, v[i], v[i + 1]);
      }
    } else {
      BestRunSpec(v, v[i]);
      var r := BestRun(v, v[i]);
      if r != 0 {
        var m :| 0 <= m < |v| && v[m] == r;
        assert m >= i;
        RunFrom(v, m);
      }
    }
  }

  /** In a strictly descending list holding A, 5, 4, 3 and 2 there are at least five entries. */
  lemma WheelNeedsFive(v: seq<int>)
    requires StrictlyDescending(v) && Wheel(v)
    ensures |v| >= 5
  {
    var a :| 0 <= a < |v| && v[a] == 14;
    var b :| 0 <= b < |v| && v[b] == 5;
    var c :| 0 <= c < |v| && v[c] == 4;
    var d :| 0 <= d < |v| && v[d] == 3;
    var e :| 0 <= e < |v| && v[e] == 2;
    assert a < b < c < d < e;
  }

  /** getStraight computes the reference definition on any descending list of ranks. */
  lemma GetStraightIsBest(vals: seq<int>)
    requires InRange(vals) && Descending(vals)
    ensures GetStraight(vals) == BestStraight(vals)
  {
    var v := Dedup(vals);
    DedupShape(vals);
    BestRunMembers(v, vals, 14);
    assert Wheel(v) <==> Wheel(vals);
    assert InRange(v) by {
      forall i | 0 <= i < |v| ensures 2 <= v[i] <= 14 {
        assert v[i] in v;
      }
    }
    if v == [] {
      BestRunSkip(v, 14, 5);
    } else {
      FirstRunIsBest(v, 0);
      assert forall k :: v[0] < k <= 14 ==> !RunAt(v, k);
      BestRunSkip(v, 14, v[0]);
      if Wheel(v) {
        WheelNeedsFive(v);
      }
      if |v| < 5 {
        assert FirstRun(v, 0) == 0;
      }
    }
  }

  /** What getStraight returns: 0 exactly when there is neither a run nor the wheel;
      otherwise the top of the highest run; 5 only for the wheel with no higher run;
      and 0 whenever fewer than five distinct ranks are present. */
  lemma GetStraightSpec(vals: seq<int>)
    requires InRange(vals) && Descending(vals)
    ensures var r := GetStraight(vals);
      && (r == 0 <==> !Wheel(vals) && forall h :: 6 <= h <= 14 ==> !RunAt(vals, h))
      && (r >= 6 ==> r <= 14 && RunAt(vals, r) && forall h :: r < h <= 14 ==> !RunAt(vals, h))
      && (r == 5 ==> Wheel(vals) && forall h :: 6 <= h <= 14 ==> !RunAt(vals, h))
      && (r == 0 || 5 <= r <= 14)
      && (|Dedup(vals)| < 5 ==> r == 0)
  {
    GetStraightIsBest(vals);
    BestRunSpec(vals, 14);
  }

  /** The values getStraight can return on a descending list of ranks. */
  lemma GetStraightRange(vals: seq<int>)
    requires InRange(vals) && Descending(vals)
    ensures GetStraight(vals) == 0 || 5 <= GetStraight(vals) <= 14
  {
    GetStraightSpec(vals);
  }
}
