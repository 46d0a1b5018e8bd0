/** Stable sorting, and the order in which artifacts are ranked. */
module Ranking {

  import opened Contracts
  import opened Ordering
  import opened Tables

  // ------------------------------------------------------------------ a stable sort

  /** Puts `x` behind everything it need not precede. */
  function InsertStable<T>(x: T, sorted: seq<T>, less: (T, T) -> bool): seq<T> {
    if sorted == [] then [x]
    else if less(x, sorted[0]) then [x] + sorted
    else [sorted[0]] + InsertStable(x, sorted[1..], less)
  }

  /** `less(a, b)`: `a` must come first. Ties keep their order. */
  function StableSort<T>(xs: seq<T>, less: (T, T) -> bool): seq<T> {
    if xs == [] then []
    else InsertStable(xs[|xs| - 1], StableSort(xs[..|xs| - 1], less), less)
  }

  /** The library's slice `xs[:limit]`: a negative limit counts from the end. */
  function Head<T>(xs: seq<T>, limit: int): (r: seq<T>)
    ensures r <= xs
    ensures limit >= 0 ==> |r| == if |xs| < limit then |xs| else limit
  {
    if limit >= |xs| then xs
    else if limit >= 0 then xs[..limit]
    else if |xs| + limit >= 0 then xs[..|xs| + limit]
    else []
  }

  ghost predicate WeakOrder<T(!new)>(less: (T, T) -> bool) {
    && (forall a, b :: less(a, b) ==> !less(b, a))
    && (forall a, b, c :: less(a, c) ==> less(a, b) || less(b, c))
  }

  ghost predicate Precedes<T>(xs: seq<T>, a: T, b: T) {
    exists i, j :: 0 <= i < j < |xs| && xs[i] == a && xs[j] == b
  }

  lemma {:induction false} InsertKeeps<T>(x: T, sorted: seq<T>, less: (T, T) -> bool)
    ensures multiset(InsertStable(x, sorted, less)) == multiset(sorted) + multiset{x}
  {
    if sorted != [] && !less(x, sorted[0]) {
      InsertKeeps(x, sorted[1..], less);
      assert sorted == [sorted[0]] + sorted[1..];
    }
  }

  lemma {:induction false} SortKeeps<T>(xs: seq<T>, less: (T, T) -> bool)
    ensures multiset(StableSort(xs, less)) == multiset(xs)
    ensures |StableSort(xs, less)| == |xs|
  {
    if xs != [] {
      var n := |xs| - 1;
      SortKeeps(xs[..n], less);
      InsertKeeps(xs[n], StableSort(xs[..n], less), less);
      assert xs == xs[..n] + [xs[n]];
    }
    assert |multiset(StableSort(xs, less))| == |StableSort(xs, less)| && |multiset(xs)| == |xs|;
  }

  ghost predicate Sorted<T>(xs: seq<T>, less: (T, T) -> bool) {
    forall i, j | 0 <= i < j < |xs| :: !less(xs[j], xs[i])
  }

  /** Where the insertion goes: behind everything it does not have to precede. */
  lemma {:induction false} InsertPlace<T(!new)>(x: T, sorted: seq<T>, less: (T, T) -> bool) returns (k: nat)
    requires WeakOrder(less) && Sorted(sorted, less)
    ensures k <= |sorted| && InsertStable(x, sorted, less) == sorted[..k] + [x] + sorted[k..]
    ensures forall j | 0 <= j < k :: !less(x, sorted[j])
    ensures forall j | k <= j < |sorted| :: less(x, sorted[j])
  {
    if sorted == [] || less(x, sorted[0]) {
      k := 0;
      forall j | 0 <= j < |sorted| ensures less(x, sorted[j]) {
        if j > 0 { assert !less(sorted[j], sorted[0]); }
      }
    } else {
      var rest := InsertPlace(x, sorted[1..], less);
      k := rest + 1;
      assert sorted[..k] == [sorted[0]] + sorted[1..][..rest] && sorted[k..] == sorted[1..][rest..];
    }
  }

  lemma {:induction false} SortSorts<T(!new)>(xs: seq<T>, less: (T, T) -> bool)
    requires WeakOrder(less)
    ensures Sorted(StableSort(xs, less), less)
  {
    if xs != [] {
      var n := |xs| - 1;
      SortSorts(xs[..n], less);
      var k := InsertPlace(xs[n], StableSort(xs[..n], less), less);
    }
  }

  lemma {:induction false} DistinctKept<T>(xs: seq<T>, ys: seq<T>)
    requires multiset(xs) == multiset(ys) && Distinct(xs)
    ensures Distinct(ys)
  {
    forall i, j | 0 <= i < j < |ys| ensures ys[i] != ys[j] {
      if ys[i] == ys[j] {
        TwiceInMultiset(ys, i, j);
        assert multiset(xs)[ys[i]] >= 2;
        OnceInMultiset(xs, ys[i]);
        assert false;
      }
    }
  }

  lemma TwiceInMultiset<T>(ys: seq<T>, i: nat, j: nat)
    requires i < j < |ys| && ys[i] == ys[j]
    ensures multiset(ys)[ys[i]] >= 2
  {
    assert ys == ys[..j] + [ys[j]] + ys[j + 1..];
    assert ys[..j][i] == ys[i] && ys[i] in multiset(ys[..j]);
  }

  lemma {:induction false} OnceInMultiset<T>(xs: seq<T>, x: T)
    requires Distinct(xs)
    ensures multiset(xs)[x] <= 1
  {
    if xs != [] {
      var n := |xs| - 1;
      OnceInMultiset(xs[..n], x);
      assert xs == xs[..n] + [xs[n]];
      assert forall i | 0 <= i < n :: xs[..n][i] != xs[n];
      assert xs[n] !in multiset(xs[..n]);
    }
  }

  /** What a stable sort is: exactly those that must precede another do, and ties stand as before. */
  lemma {:induction false} SortOrder<T(!new)>(xs: seq<T>, less: (T, T) -> bool, a: T, b: T)
    requires WeakOrder(less) && Distinct(xs) && a in xs && b in xs
    ensures Precedes(StableSort(xs, less), a, b) <==> less(a, b) || (!less(b, a) && Precedes(xs, a, b))
  {
    var n := |xs| - 1;
    var pre, x := xs[..n], xs[n];
    assert xs == pre + [x];
    var zs := StableSort(pre, less);
    SortSorts(pre, less);
    SortKeeps(pre, less);
    DistinctKept(pre, zs);
    assert forall y :: y in zs <==> y in pre by {
      forall y ensures y in zs <==> y in pre { assert y in multiset(zs) <==> y in multiset(pre); }
    }
    var k := InsertPlace(x, zs, less);
    assert x !in pre by { assert forall i | 0 <= i < n :: xs[i] != x; }
    PrecedesInserted(zs, x, k, a, b);
    PrecedesLast(pre, x, a, b);
    if a != x && b != x {
      SortOrder(pre, less, a, b);
    }
  }

  lemma PrecedesLast<T>(pre: seq<T>, x: T, a: T, b: T)
    requires x !in pre && a in pre + [x] && b in pre + [x]
    ensures a != x && b != x ==> (Precedes(pre + [x], a, b) <==> Precedes(pre, a, b))
    ensures a == x ==> !Precedes(pre + [x], a, b)
    ensures a != x && b == x ==> Precedes(pre + [x], a, b)
  {
    var xs := pre + [x];
    if i, j :| 0 <= i < j < |xs| && xs[i] == a && xs[j] == b {
      assert i < |pre| && pre[i] == a;
      if b != x { assert pre[j] == b; }
    }
    if i, j :| 0 <= i < j < |pre| && pre[i] == a && pre[j] == b {
      assert xs[i] == a && xs[j] == b;
    }
    if a != x && b == x {
      var i :| 0 <= i < |pre| && pre[i] == a;
      assert xs[i] == a && xs[|pre|] == b;
    }
  }

  lemma PrecedesInserted<T>(zs: seq<T>, x: T, k: nat, a: T, b: T)
    requires k <= |zs| && x !in zs && Distinct(zs)
    requires (a == x || a in zs) && (b == x || b in zs)
    ensures var ys := zs[..k] + [x] + zs[k..];
      && (a != x && b != x ==> (Precedes(ys, a, b) <==> Precedes(zs, a, b)))
      && (a == x && b != x ==> (Precedes(ys, a, b) <==> b in zs[k..]))
      && (a != x && b == x ==> (Precedes(ys, a, b) <==> a in zs[..k]))
      && (a == x && b == x ==> !Precedes(ys, a, b))
  {
    var ys := zs[..k] + [x] + zs[k..];
    assert forall i | 0 <= i < |ys| :: ys[i] == if i < k then zs[i] else if i == k then x else zs[i - 1];
    if i, j :| 0 <= i < j < |ys| && ys[i] == a && ys[j] == b {
      var p, q := if i < k then i else i - 1, if j < k then j else j - 1;
      if a != x && b != x { assert zs[p] == a && zs[q] == b; }
      if a == x && b != x { assert i == k && zs[k..][j - 1 - k] == b; }
      if a != x && b == x { assert j == k && zs[..k][i] == a; }
    }
    if p, q :| 0 <= p < q < |zs| && zs[p] == a && zs[q] == b {
      var i, j := if p < k then p else p + 1, if q < k then q else q + 1;
      assert ys[i] == a && ys[j] == b;
    }
    if a == x && b in zs[k..] {
      var q :| 0 <= q < |zs[k..]| && zs[k..][q] == b;
      assert ys[k] == a && ys[k + 1 + q] == b;
    }
    if b == x && a in zs[..k] {
      var p :| 0 <= p < k && zs[p] == a;
      assert ys[p] == a && ys[k] == b;
    }
  }

  /** Two orderings of the same distinct things that agree on who precedes whom are the same. */
  lemma {:induction false} SameOrderSame<T>(xs: seq<T>, ys: seq<T>)
    requires Distinct(xs) && Distinct(ys) && multiset(xs) == multiset(ys)
    requires forall a, b | a in xs && b in xs :: Precedes(xs, a, b) <==> Precedes(ys, a, b)
    ensures xs == ys
    decreases |xs|
  {
    assert |multiset(xs)| == |xs| && |multiset(ys)| == |ys|;
    forall i | 0 <= i < |xs| ensures xs[i] == ys[i] {
      SamePlace(xs, ys, i);
    }
  }

  lemma {:induction false} SamePlace<T>(xs: seq<T>, ys: seq<T>, i: nat)
    requires Distinct(xs) && Distinct(ys) && multiset(xs) == multiset(ys) && |xs| == |ys| && i < |xs|
    requires forall a, b | a in xs && b in xs :: Precedes(xs, a, b) <==> Precedes(ys, a, b)
    ensures xs[i] == ys[i]
    decreases i
  {
    forall j | 0 <= j < i ensures xs[j] == ys[j] { SamePlace(xs, ys, j); }
    assert xs[i] in multiset(ys) && ys[i] in multiset(xs);
    var p :| 0 <= p < |ys| && ys[p] == xs[i];
    var q :| 0 <= q < |xs| && xs[q] == ys[i];
    assert forall j | 0 <= j < i :: xs[j] == ys[j] && xs[j] != xs[i] && ys[j] != ys[i];
    if p > i { assert Precedes(ys, ys[i], ys[p]); }
    if q > i { NotPrecedes(xs, i, q); }
  }

  lemma NotPrecedes<T>(xs: seq<T>, i: nat, q: nat)
    requires Distinct(xs) && i < q < |xs|
    ensures !Precedes(xs, xs[q], xs[i])
  {
  }

  // ------------------------------------------------------------------ ranking artifacts

  function StatusRank(s: Status): nat {
    match s
    case Accepted => 0
    case Tentative => 1
    case Proposed => 2
    case Revised => 3
    case Superseded => 4
    case Rejected => 5
  }

  predicate Newer(a: Artifact, b: Artifact) {
    TextLess(b.createdAt, a.createdAt)
  }

  predicate Trusted(a: Artifact, b: Artifact) {
    StatusRank(a.status) < StatusRank(b.status)
  }

  /** By status rank, then by recency. */
  predicate RanksFirst(a: Artifact, b: Artifact) {
    Trusted(a, b) || (a.status == b.status && Newer(a, b))
  }

  function Ranked(rows: seq<Artifact>): seq<Artifact> {
    StableSort(StableSort(rows, Newer), Trusted)
  }

  lemma NewerIsWeak()
    ensures WeakOrder(Newer)
  {
    forall a, b: Artifact | Newer(a, b) ensures !Newer(b, a) { TextTotal(a.createdAt, b.createdAt); }
    forall a, b, c: Artifact | Newer(a, c) ensures Newer(a, b) || Newer(b, c) {
      TextTotal(a.createdAt, b.createdAt);
      if TextLess(a.createdAt, b.createdAt) { TextTransitive(c.createdAt, a.createdAt, b.createdAt); }
    }
  }

  lemma TrustedIsWeak()
    ensures WeakOrder(Trusted)
  {
  }

  lemma SameRank(a: Artifact, b: Artifact)
    ensures a.status == b.status <==> !Trusted(a, b) && !Trusted(b, a)
  {
  }

  lemma RanksFirstIsWeak()
    ensures WeakOrder(RanksFirst)
  {
    NewerIsWeak();
    forall a, b: Artifact | RanksFirst(a, b) ensures !RanksFirst(b, a) { SameRank(a, b); }
    forall a, b, c: Artifact | RanksFirst(a, c) ensures RanksFirst(a, b) || RanksFirst(b, c) {
      SameRank(a, b);
      SameRank(b, c);
      SameRank(a, c);
    }
  }

  /** The two stable passes are one lexicographic sort: by status rank, then recency, then the order
      in which the query returned the rows. */
  lemma TwoPassesAreLexicographic(rows: seq<Artifact>)
    requires Distinct(rows)
    ensures Ranked(rows) == StableSort(rows, RanksFirst)
    ensures forall a, b | a in rows && b in rows ::
      Precedes(Ranked(rows), a, b) <==> RanksFirst(a, b) || (!RanksFirst(b, a) && Precedes(rows, a, b))
  {
    NewerIsWeak();
    TrustedIsWeak();
    RanksFirstIsWeak();
    var recent, lex := StableSort(rows, Newer), StableSort(rows, RanksFirst);
    SortKeeps(rows, Newer);
    SortKeeps(recent, Trusted);
    SortKeeps(rows, RanksFirst);
    DistinctKept(rows, recent);
    DistinctKept(recent, Ranked(rows));
    DistinctKept(rows, lex);
    forall a, b | a in rows && b in rows
      ensures Precedes(Ranked(rows), a, b) <==> Precedes(lex, a, b)
      ensures Precedes(Ranked(rows), a, b) <==> RanksFirst(a, b) || (!RanksFirst(b, a) && Precedes(rows, a, b))
    {
      assert a in multiset(recent) && b in multiset(recent);
      SortOrder(rows, Newer, a, b);
      SortOrder(recent, Trusted, a, b);
      SortOrder(rows, RanksFirst, a, b);
      SameRank(a, b);
    }
    forall a, b | a in Ranked(rows) && b in Ranked(rows)
      ensures Precedes(Ranked(rows), a, b) <==> Precedes(lex, a, b)
    {
      assert a in multiset(rows) && b in multiset(rows);
    }
    SameOrderSame(Ranked(rows), lex);
  }

  /** Who is served first: the accepted, then the tentative, the proposed, the revised, the superseded
      and the rejected; within a status the newest. */
  lemma TrustedFirst(rows: seq<Artifact>, a: Artifact, b: Artifact)
    requires Distinct(rows) && a in rows && b in rows
    ensures var order := [Accepted, Tentative, Proposed, Revised, Superseded, Rejected];
      forall i, j | 0 <= i < j < |order| :: a.status == order[i] && b.status == order[j] ==>
        Precedes(Ranked(rows), a, b) && !Precedes(Ranked(rows), b, a)
    ensures a.status == b.status && TextLess(b.createdAt, a.createdAt) ==>
      Precedes(Ranked(rows), a, b) && !Precedes(Ranked(rows), b, a)
  {
    hide Ranked, StableSort, Precedes;
    TwoPassesAreLexicographic(rows);
    RanksFirstIsWeak();
  }

  lemma QueryDistinct(db: Db, atype: Option<string>, status: Option<Status>)
    requires Keyed(db)
    ensures Distinct(Query(db.artifacts, atype, status))
    ensures var rows := Query(db.artifacts, atype, status);
      forall i, j | 0 <= i < j < |rows| :: rows[i].id != rows[j].id
  {
    var rows := Query(db.artifacts, atype, status);
    var ks := Ordered(Stamps(db.artifacts), Matching(db.artifacts, atype, status));
    OrderedSorted(Stamps(db.artifacts), Matching(db.artifacts, atype, status));
    forall i, j | 0 <= i < j < |rows| ensures rows[i] != rows[j] && rows[i].id != rows[j].id {
      assert ks[i] in ks && ks[j] in ks && ks[i] != ks[j];
    }
  }
}
