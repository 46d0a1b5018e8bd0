/** The competitive bar: the score at a fraction of a leaderboard, and what clearing it means. */
module Leaderboard {

  import opened Contracts
  import opened Ranking

  /** Entries with a score above `v`. */
  function CountAbove(scores: seq<real>, v: real): nat {
    if scores == [] then 0 else (if scores[0] > v then 1 else 0) + CountAbove(scores[1..], v)
  }

  lemma {:induction false} AboveCounts(scores: seq<real>, v: real)
    ensures CountAbove(scores, v) == |set i: nat | i < |scores| && scores[i] > v|
  {
    if scores != [] {
      var n := |scores| - 1;
      AboveCounts(scores[..n], v);
      CountAppend(scores[..n], scores[n], v);
      assert scores == scores[..n] + [scores[n]];
      var before, all := (set i: nat | i < n && scores[..n][i] > v), (set i: nat | i < |scores| && scores[i] > v);
      assert all == if scores[n] > v then before + {n} else before;
    }
  }

  predicate Above(a: real, b: real) {
    a > b
  }

  /** Best first. */
  function SortedDown(scores: seq<real>): (sorted: seq<real>)
    ensures |sorted| == |scores|
  {
    SortKeeps(scores, Above);
    StableSort(scores, Above)
  }

  lemma {:induction false} InsertCounts(x: real, sorted: seq<real>, v: real)
    ensures CountAbove(InsertStable(x, sorted, Above), v) == CountAbove(sorted, v) + if x > v then 1 else 0
  {
    if sorted == [] || Above(x, sorted[0]) {
      assert InsertStable(x, sorted, Above)[1..] == sorted;
    } else {
      InsertCounts(x, sorted[1..], v);
      assert InsertStable(x, sorted, Above)[1..] == InsertStable(x, sorted[1..], Above);
    }
  }

  lemma {:induction false} CountAppend(s: seq<real>, x: real, v: real)
    ensures CountAbove(s + [x], v) == CountAbove(s, v) + if x > v then 1 else 0
  {
    if s == [] {
      assert s + [x] == [x] && [x][1..] == [];
    } else {
      CountAppend(s[1..], x, v);
      assert (s + [x])[1..] == s[1..] + [x];
    }
  }

  lemma {:induction false} SortCounts(scores: seq<real>, v: real)
    ensures CountAbove(StableSort(scores, Above), v) == CountAbove(scores, v)
  {
    if scores != [] {
      var n := |scores| - 1;
      SortCounts(scores[..n], v);
      InsertCounts(scores[n], StableSort(scores[..n], Above), v);
      CountAppend(scores[..n], scores[n], v);
      assert scores == scores[..n] + [scores[n]];
    }
  }

  function Ceil(x: real): int {
    -((-x).Floor)
  }

  /** How many places the bar leaves: `ceil(fraction * n)`, at least 1 and at most `n`. */
  function Places(n: nat, fraction: real): (k: int)
    ensures n > 0 ==> 1 <= k <= n
  {
    var wanted := Ceil(fraction * n as real);
    var capped := if wanted < n then wanted else n;
    if capped > 1 then capped else 1
  }

  function TopFractionThreshold(scores: seq<real>, fraction: real): (bar: Option<real>)
    ensures bar.None? <==> scores == []
  {
    if scores == [] then None else Some(SortedDown(scores)[Places(|scores|, fraction) - 1])
  }

  lemma {:induction false} AboveInSorted(s: seq<real>, v: real, k: nat)
    requires Sorted(s, Above) && k < |s|
    ensures CountAbove(s, v) <= |s|
    ensures v >= s[k] <==> CountAbove(s, v) <= k
  {
    assert forall i, j | 0 <= i < j < |s| :: s[i] >= s[j];
    assert Sorted(s[1..], Above);
    CountBound(s[1..], v);
    if s[0] <= v {
      assert forall i | 0 < i < |s| :: s[0] >= s[i];
      NoneAbove(s, v);
    } else if k > 0 {
      AboveInSorted(s[1..], v, k - 1);
    }
  }

  lemma {:induction false} CountBound(s: seq<real>, v: real)
    ensures CountAbove(s, v) <= |s|
  {
    if s != [] { CountBound(s[1..], v); }
  }

  lemma {:induction false} NoneAbove(s: seq<real>, v: real)
    requires forall x | x in s :: x <= v
    ensures CountAbove(s, v) == 0
  {
    if s != [] {
      assert s[0] in s;
      assert forall x | x in s[1..] :: x in s;
      NoneAbove(s[1..], v);
    }
  }

  /** What the bar is: a score of the board, and an estimate reaches it exactly when fewer entries
      than there are places are above the estimate. */
  lemma ClearsBarExactlyWhen(scores: seq<real>, fraction: real, estimate: real)
    requires scores != []
    ensures TopFractionThreshold(scores, fraction).value in scores
    ensures estimate >= TopFractionThreshold(scores, fraction).value
      <==> CountAbove(scores, estimate) < Places(|scores|, fraction)
  {
    hide StableSort, CountAbove, Ceil, Places;
    assert WeakOrder(Above);
    SortKeeps(scores, Above);
    SortSorts(scores, Above);
    SortCounts(scores, estimate);
    var sorted := SortedDown(scores);
    assert sorted[Places(|scores|, fraction) - 1] in multiset(scores);
    AboveInSorted(sorted, estimate, Places(|scores|, fraction) - 1);
  }

  /** With a fraction in (0, 1] the places are the smallest whole number not below the fraction of
      the board. */
  lemma PlacesAreCeiling(n: nat, fraction: real)
    requires n > 0 && 0.0 < fraction <= 1.0
    ensures Places(n, fraction) as real >= fraction * n as real > Places(n, fraction) as real - 1.0
  {
    var x := fraction * n as real;
    assert 0.0 < x;
    assert n as real - x == (1.0 - fraction) * n as real;
    assert x <= n as real;
    assert Ceil(x) as real >= x > Ceil(x) as real - 1.0;
  }
}
