/** The refine cap: when a lineage of `revised` artifacts stays within it, commit by commit and over
    whole runs. */
module RefineCap {

  import opened Contracts
  import opened Ordering
  import opened Tables
  import opened Commit
  import opened Intake
  import opened KernelRuns

  /** A chain of `revised` artifacts, each revising the next. */
  ghost predicate IsChain(db: Db, path: seq<Id>) {
    && (forall i | 0 <= i < |path| :: IsRevised(db, path[i]))
    && (forall i | 0 <= i < |path| - 1 :: RevisedParent(db, path[i]) == Some(path[i + 1]))
  }

  // ------------------------------------------------------------------ whom an artifact revises

  /** The operation of this key says that it revises something into `id`. */
  ghost predicate RevisesInto(db: Db, o: Id, id: Id) {
    o in db.operations && db.operations[o].outputId == id && db.operations[o].opName == "revises"
  }

  /** An artifact revises the first input of the earliest `revises` operation into it, and nothing when
      there is no such operation. */
  lemma RevisedParentIs(db: Db, id: Id, o: Id)
    ensures (forall p :: !RevisesInto(db, p, id)) ==> RevisedParent(db, id).None?
    ensures RevisesInto(db, o, id) && (forall p | RevisesInto(db, p, id) && p != o :: Before(OpStamps(db.operations), o, p)) ==>
      RevisedParent(db, id) ==
        if db.operations[o].parents != [] then Some(db.operations[o].parents[0]) else None
  {
    var into := OperationsInto(db.operations, id);
    var ks := Ordered(OpStamps(db.operations), Into(db.operations, id));
    OrderedSorted(OpStamps(db.operations), Into(db.operations, id));
    assert forall i | 0 <= i < |ks| :: ks[i] in ks;
    if RevisesInto(db, o, id) && forall p | RevisesInto(db, p, id) && p != o :: Before(OpStamps(db.operations), o, p) {
      assert o in Into(db.operations, id);
      var i :| 0 <= i < |ks| && ks[i] == o;
      forall j | 0 <= j < i ensures into[j].opName != "revises" {
        BeforeTotal(OpStamps(db.operations), ks[j], o);
        assert !RevisesInto(db, ks[j], id);
      }
      FirstRevises(into, i);
    }
    if forall p :: !RevisesInto(db, p, id) {
      forall j | 0 <= j < |into| ensures into[j].opName != "revises" { assert !RevisesInto(db, ks[j], id); }
      NoneRevises(into);
    }
  }

  lemma {:induction false} FirstRevises(ops: seq<Operation>, i: nat)
    requires i < |ops| && ops[i].opName == "revises" && forall j | 0 <= j < i :: ops[j].opName != "revises"
    ensures RevisesOnly(ops) != [] && RevisesOnly(ops)[0] == ops[i]
  {
    if i > 0 { FirstRevises(ops[1..], i - 1); }
  }

  lemma {:induction false} NoneRevises(ops: seq<Operation>)
    requires forall j | 0 <= j < |ops| :: ops[j].opName != "revises"
    ensures RevisesOnly(ops) == []
  {
    if ops != [] { NoneRevises(ops[1..]); }
  }

  // ------------------------------------------------------------------ the walk

  /** The walk visits a duplicate-free chain that cannot be extended, and counts it. */
  lemma {:induction false} WalkVisits(db: Db, current: Option<Id>, seen: set<Id>) returns (path: seq<Id>)
    ensures IsChain(db, path) && Distinct(path) && |path| == RefineWalk(db, current, seen)
    ensures forall x | x in path :: x !in seen
    ensures path != [] ==> current == Some(path[0])
    ensures var next := if path == [] then current else RevisedParent(db, path[|path| - 1]);
      next.None? || next.value in seen || next.value in path || !IsRevised(db, next.value)
    decreases db.artifacts.Keys - seen
  {
    hide RevisedParent;
    if current.None? || current.value in seen || !IsRevised(db, current.value) {
      path := [];
    } else {
      var rest := WalkVisits(db, RevisedParent(db, current.value), seen + {current.value});
      path := [current.value] + rest;
      assert forall j | 0 <= j < |rest| :: rest[j] in rest;
      assert Distinct(path);
      assert IsChain(db, path) by {
        forall i | 0 <= i < |path| - 1 ensures RevisedParent(db, path[i]) == Some(path[i + 1]) {
          if i > 0 { assert RevisedParent(db, rest[i - 1]) == Some(rest[i - 1 + 1]); }
        }
      }
    }
  }

  /** No duplicate-free chain from the same start is longer. */
  lemma {:induction false} WalkIsLongest(db: Db, path: seq<Id>, seen: set<Id>)
    requires path != [] && IsChain(db, path) && Distinct(path)
    requires forall x | x in path :: x !in seen
    ensures RefineWalk(db, Some(path[0]), seen) >= |path|
    decreases |path|
  {
    assert path[0] in path && IsRevised(db, path[0]);
    if |path| > 1 {
      var rest := path[1..];
      assert RevisedParent(db, path[0]) == Some(path[0 + 1]);
      assert forall i | 0 <= i < |rest| :: rest[i] == path[i + 1];
      assert forall x | x in rest :: x in path;
      WalkIsLongest(db, rest, seen + {path[0]});
    }
  }

  /** On a store without revision cycles the walk is the exact length of the chain. */
  lemma WalkIsExact(db: Db, path: seq<Id>)
    requires path != [] && IsChain(db, path) && Distinct(path)
    requires RevisedParent(db, path[|path| - 1]).None?
      || !IsRevised(db, RevisedParent(db, path[|path| - 1]).value)
    ensures RefineWalk(db, Some(path[0]), {}) == |path|
  {
    WalkIsLongest(db, path, {});
    var walked := WalkVisits(db, Some(path[0]), {});
    ChainsAgree(db, path, walked);
  }

  lemma {:induction false} ChainsAgree(db: Db, path: seq<Id>, other: seq<Id>)
    requires path != [] && other != [] && path[0] == other[0]
    requires IsChain(db, path) && IsChain(db, other)
    requires RevisedParent(db, path[|path| - 1]).None?
      || !IsRevised(db, RevisedParent(db, path[|path| - 1]).value)
    ensures |other| <= |path|
    decreases |path|
  {
    if |other| > 1 {
      assert RevisedParent(db, other[0]) == Some(other[0 + 1]) && IsRevised(db, other[1]);
      assert |path| > 1;
      assert RevisedParent(db, path[0]) == Some(path[0 + 1]);
      assert forall i | 0 <= i < |path[1..]| :: path[1..][i] == path[i + 1];
      assert forall i | 0 <= i < |other[1..]| :: other[1..][i] == other[i + 1];
      ChainsAgree(db, path[1..], other[1..]);
    }
  }

  // ------------------------------------------------------------------ what bounds a store

  /** Every chain of `revised` artifacts is free of repetition and has at most `cap` members. */
  ghost predicate ChainsWithin(db: Db, cap: int) {
    forall path | IsChain(db, path) :: Distinct(path) && |path| <= cap
  }

  /** How many refines a lineage through `id` already has behind it. */
  function RefinesBehind(db: Db, id: Id): nat {
    RefineWalk(db, RevisedParent(db, id), {})
  }

  /** The walk from `id` comes past `x`. */
  ghost predicate OnWalk(db: Db, id: Id, x: Id) {
    exists p | p != [] && IsChain(db, p) :: RevisedParent(db, id) == Some(p[0]) && x == p[|p| - 1]
  }

  /** A chain of revised artifacts that already leads to `id`. */
  ghost predicate LeadsTo(db: Db, c: seq<Id>, id: Id) {
    c != [] && IsChain(db, c) && RevisedParent(db, c[|c| - 1]) == Some(id)
  }

  /** Sending `id` back joins what leads to it and what it revises; both fit under the cap together,
      and no artifact is on both sides. */
  ghost predicate Fits(db: Db, cap: int, id: Id) {
    && RevisedParent(db, id) != Some(id)
    && forall c | LeadsTo(db, c, id) ::
         |c| <= cap - 1 - RefinesBehind(db, id) && forall x | x in c :: !OnWalk(db, id, x)
  }

  /** Nothing claims to revise `id`. */
  ghost predicate Unrevised(db: Db, id: Id) {
    forall o | o in db.operations && db.operations[o].opName == REVISES && db.operations[o].parents != [] ::
      db.operations[o].parents[0] != id
  }

  lemma {:induction false} RevisesAreOps(ops: seq<Operation>)
    ensures forall op | op in RevisesOnly(ops) :: op in ops && op.opName == REVISES
  {
    if ops != [] { RevisesAreOps(ops[1..]); }
  }

  lemma ParentHasEdge(db: Db, id: Id)
    ensures RevisedParent(db, id).Some? ==>
      exists o :: o in db.operations && db.operations[o].outputId == id && db.operations[o].opName == REVISES
        && db.operations[o].parents != [] && db.operations[o].parents[0] == RevisedParent(db, id).value
  {
    var into := OperationsInto(db.operations, id);
    RevisesAreOps(into);
    if RevisedParent(db, id).Some? {
      var op := RevisesOnly(into)[0];
      assert op in RevisesOnly(into) && op in into;
      var o :| o in Into(db.operations, id) && db.operations[o] == op;
    }
  }

  lemma {:induction false} OrderedAgrees(s: map<Id, Timestamp>, t: map<Id, Timestamp>, keys: set<Id>)
    requires keys <= s.Keys && keys <= t.Keys
    requires forall k | k in keys :: s[k] == t[k]
    ensures Ordered(s, keys) == Ordered(t, keys)
    decreases |keys|
  {
    if keys != {} {
      assert IsFirst(t, keys, First(s, keys));
      FirstUnique(t, keys, First(s, keys), First(t, keys));
      OrderedAgrees(s, t, keys - {First(s, keys)});
    }
  }

  lemma IntoAgrees(p: map<Id, Operation>, q: map<Id, Operation>, id: Id)
    requires Into(p, id) == Into(q, id)
    requires forall o | o in Into(p, id) :: p[o] == q[o]
    ensures OperationsInto(p, id) == OperationsInto(q, id)
  {
    OrderedAgrees(OpStamps(p), OpStamps(q), Into(p, id));
    var ks := Ordered(OpStamps(p), Into(p, id));
    assert forall i | 0 <= i < |ks| :: ks[i] in ks;
  }

  /** A proposed row changes the lineage of nothing else. */
  lemma OthersKeepLineage(db: Db, a: Artifact, op: Operation, next: Db, id: Id)
    requires ProposeRow(db, a, op) == Ok(next) && op.outputId != id
    ensures RevisedParent(next, id) == RevisedParent(db, id)
  {
    assert Into(next.operations, id) == Into(db.operations, id);
    IntoAgrees(next.operations, db.operations, id);
  }

  /** The lineage of a newly proposed artifact is its own operation. */
  lemma NewLineage(db: Db, a: Artifact, op: Operation, next: Db)
    requires OutputsStored(db) && ProposeRow(db, a, op) == Ok(next) && op.outputId == a.id
    ensures RevisedParent(next, a.id) ==
      if op.opName == REVISES && op.parents != [] then Some(op.parents[0]) else None
  {
    assert Into(next.operations, a.id) == {op.opId};
    var into := OperationsInto(next.operations, a.id);
    assert op in into by {
      assert op.opId in Into(next.operations, a.id) && next.operations[op.opId] == op;
    }
    assert into == [op];
    assert RevisesOnly(into) == if op.opName == REVISES then [op] else [];
  }

  /** Nothing leads to an artifact that nothing claims to revise. */
  lemma UnrevisedFits(db: Db, cap: int, id: Id)
    requires Unrevised(db, id)
    ensures Fits(db, cap, id)
  {
    hide RevisedParent, RefineWalk, IsChain, OnWalk, Unrevised;
    NobodysParent(db, id, id);
    forall c ensures !LeadsTo(db, c, id) {
      if c != [] { NobodysParent(db, c[|c| - 1], id); }
    }
  }

  lemma NobodysParent(db: Db, x: Id, id: Id)
    requires Unrevised(db, id)
    ensures RevisedParent(db, x) != Some(id)
  {
    hide RevisedParent;
    ParentHasEdge(db, x);
  }

  // ------------------------------------------------------------------ one artifact sent back

  /** `next` is `db` with `id` sent back, as far as lineages go. */
  ghost predicate SendsBack(db: Db, next: Db, id: Id) {
    && !IsRevised(db, id)
    && (forall x :: IsRevised(next, x) <==> IsRevised(db, x) || x == id)
    && (forall x :: RevisedParent(next, x) == RevisedParent(db, x))
  }

  lemma PartIsChain(db: Db, path: seq<Id>, lo: nat, hi: nat)
    requires IsChain(db, path) && lo <= hi <= |path|
    ensures IsChain(db, path[lo..hi])
  {
    hide RevisedParent, IsRevised;
    var part := path[lo..hi];
    forall i | 0 <= i < |part| - 1 ensures RevisedParent(db, part[i]) == Some(part[i + 1]) {
      assert RevisedParent(db, path[lo + i]) == Some(path[lo + i + 1]);
    }
  }

  /** A stretch of a later chain without `id` was a chain before. */
  lemma PartWithout(db: Db, next: Db, id: Id, path: seq<Id>, lo: nat, hi: nat)
    requires SendsBack(db, next, id) && IsChain(next, path) && lo <= hi <= |path|
    requires forall i | lo <= i < hi :: path[i] != id
    ensures IsChain(db, path[lo..hi])
  {
    hide RevisedParent, IsRevised;
    var part := path[lo..hi];
    forall i | 0 <= i < |part| ensures IsRevised(db, part[i]) {
      assert IsRevised(next, path[lo + i]);
    }
    forall i | 0 <= i < |part| - 1 ensures RevisedParent(db, part[i]) == Some(part[i + 1]) {
      assert RevisedParent(next, path[lo + i]) == Some(path[lo + i + 1]);
    }
  }

  /** What leads to `id`, `id`, and a walk from it are one chain afterwards. */
  lemma JoinedChain(db: Db, next: Db, id: Id, c: seq<Id>, p: seq<Id>)
    requires SendsBack(db, next, id) && (c == [] || LeadsTo(db, c, id))
    requires IsChain(db, p) && (p != [] ==> RevisedParent(db, id) == Some(p[0]))
    ensures IsChain(next, c + [id] + p)
  {
    hide RevisedParent, IsRevised;
    var path := c + [id] + p;
    forall i | 0 <= i < |path| - 1 ensures RevisedParent(next, path[i]) == Some(path[i + 1]) {
      if i < |c| - 1 {
        assert RevisedParent(db, c[i]) == Some(c[i + 1]);
      } else if i > |c| {
        assert RevisedParent(db, p[i - |c| - 1]) == Some(p[i - |c| - 1 + 1]);
      }
    }
  }

  lemma BoundedMustFit(db: Db, cap: int, id: Id, next: Db)
    requires SendsBack(db, next, id) && ChainsWithin(next, cap)
    ensures RefinesBehind(db, id) < cap && Fits(db, cap, id)
  {
    hide RevisedParent, RefineWalk, IsRevised, SendsBack;
    var walk := WalkVisits(db, RevisedParent(db, id), {});
    JoinedChain(db, next, id, [], walk);
    assert |[] + [id] + walk| <= cap;
    NotOwnParent(db, cap, id, next);
    forall c | LeadsTo(db, c, id)
      ensures |c| <= cap - 1 - RefinesBehind(db, id) && forall x | x in c :: !OnWalk(db, id, x)
    {
      JoinedChain(db, next, id, c, walk);
      assert |c + [id] + walk| <= cap;
      forall x | x in c ensures !OnWalk(db, id, x) { NotOnBothSides(db, cap, id, next, c, x); }
    }
  }

  lemma NotOwnParent(db: Db, cap: int, id: Id, next: Db)
    requires SendsBack(db, next, id) && ChainsWithin(next, cap)
    ensures RevisedParent(db, id) != Some(id)
  {
    hide RevisedParent, IsRevised;
    if RevisedParent(db, id) == Some(id) {
      var loop := [id, id];
      assert IsChain(next, loop);
      assert !Distinct(loop) by { assert loop[0] == loop[1]; }
    }
  }

  lemma Repeats(c: seq<Id>, id: Id, p: seq<Id>)
    requires p != [] && p[|p| - 1] in c
    ensures !Distinct(c + [id] + p)
  {
    var path := c + [id] + p;
    var i :| 0 <= i < |c| && c[i] == p[|p| - 1];
    assert path[i] == path[|path| - 1];
  }

  lemma NotOnBothSides(db: Db, cap: int, id: Id, next: Db, c: seq<Id>, x: Id)
    requires SendsBack(db, next, id) && ChainsWithin(next, cap) && LeadsTo(db, c, id) && x in c
    ensures !OnWalk(db, id, x)
  {
    hide RevisedParent, IsRevised, SendsBack, IsChain;
    if OnWalk(db, id, x) {
      var p :| p != [] && IsChain(db, p) && RevisedParent(db, id) == Some(p[0]) && x == p[|p| - 1];
      Repeats(c, id, p);
      JoinedChain(db, next, id, c, p);
    }
  }

  lemma FirstPlace(path: seq<Id>, id: Id) returns (i: nat)
    ensures i <= |path| && (forall j | 0 <= j < i :: path[j] != id)
    ensures i < |path| ==> path[i] == id
  {
    i := 0;
    while i < |path| && path[i] != id
      invariant i <= |path| && forall j | 0 <= j < i :: path[j] != id
    {
      i := i + 1;
    }
  }

  /** Coming back behind itself, `id` would be led to from its own walk. */
  lemma LoopLeads(db: Db, id: Id, next: Db, path: seq<Id>, i: nat, j: nat)
    requires SendsBack(db, next, id) && RevisedParent(db, id) != Some(id) && IsChain(next, path)
    requires i < j < |path| && path[i] == id && path[j] == id && forall m | i < m < j :: path[m] != id
    ensures LeadsTo(db, path[i + 1..j], id) && OnWalk(db, id, path[i + 1..j][0])
  {
    hide RevisedParent, RefineWalk, IsRevised;
    assert RevisedParent(next, path[i]) == Some(path[i + 1]);
    assert RevisedParent(next, path[j - 1]) == Some(path[j - 1 + 1]);
    var c := path[i + 1..j];
    PartWithout(db, next, id, path, i + 1, j);
    PartIsChain(db, c, 0, 1);
    assert c[0..1][0] == c[0] && c[|c| - 1] == path[j - 1];
  }

  /** `id` does not come back behind itself. */
  lemma NotBehindItself(db: Db, cap: int, id: Id, next: Db, path: seq<Id>, i: nat)
    requires SendsBack(db, next, id) && Fits(db, cap, id) && IsChain(next, path)
    requires i < |path| && path[i] == id
    ensures forall j | i < j < |path| :: path[j] != id
  {
    hide RevisedParent, RefineWalk, IsRevised, SendsBack, IsChain;
    var tail := path[i + 1..];
    var m := FirstPlace(tail, id);
    assert forall n | 0 <= n < |tail| :: tail[n] == path[i + 1 + n];
    if m < |tail| {
      LoopLeads(db, id, next, path, i, i + 1 + m);
    }
    forall n | i < n < |path| ensures path[n] != id {
      assert path[n] == tail[n - i - 1];
    }
  }

  /** What comes behind `id` in a later chain is on its walk. */
  lemma BehindIsWalk(db: Db, cap: int, id: Id, next: Db, path: seq<Id>, i: nat)
    requires SendsBack(db, next, id) && Fits(db, cap, id) && ChainsWithin(db, cap) && IsChain(next, path)
    requires i < |path| && path[i] == id
    ensures Distinct(path[i + 1..]) && |path| - i - 1 <= RefinesBehind(db, id)
    ensures id !in path[i + 1..] && forall x | x in path[i + 1..] :: OnWalk(db, id, x)
  {
    hide RevisedParent, RefineWalk, IsRevised, Fits;
    NotBehindItself(db, cap, id, next, path, i);
    var tail := path[i + 1..|path|];
    PartWithout(db, next, id, path, i + 1, |path|);
    assert tail == path[i + 1..];
    if tail != [] {
      assert RevisedParent(next, path[i]) == Some(path[i + 1]);
      WalkIsLongest(db, tail, {});
      forall x | x in tail ensures x != id && OnWalk(db, id, x) {
        var m :| 0 <= m < |tail| && tail[m] == x;
        PartIsChain(db, tail, 0, m + 1);
        assert tail[0..m + 1][0] == tail[0] && tail[0..m + 1][m] == x;
      }
    }
  }

  /** What comes before `id` in a later chain leads to it. */
  lemma BeforeLeads(db: Db, id: Id, next: Db, path: seq<Id>, i: nat)
    requires SendsBack(db, next, id) && IsChain(next, path) && i < |path| && path[i] == id
    requires forall j | 0 <= j < i :: path[j] != id
    ensures IsChain(db, path[0..i]) && (i > 0 ==> LeadsTo(db, path[0..i], id))
  {
    hide RevisedParent, IsRevised;
    PartWithout(db, next, id, path, 0, i);
    if i > 0 { assert RevisedParent(next, path[i - 1]) == Some(path[i - 1 + 1]); }
  }

  lemma FittingStaysBounded(db: Db, cap: int, id: Id, next: Db, path: seq<Id>)
    requires SendsBack(db, next, id) && ChainsWithin(db, cap)
    requires RefinesBehind(db, id) < cap && Fits(db, cap, id) && IsChain(next, path)
    ensures Distinct(path) && |path| <= cap
  {
    hide RevisedParent, RefinesBehind, IsRevised, OnWalk, Distinct, IsChain, SendsBack, LeadsTo;
    var i := FirstPlace(path, id);
    var c := path[0..i];
    if i == |path| {
      PartWithout(db, next, id, path, 0, i);
      assert path == c;
    } else {
      BehindIsWalk(db, cap, id, next, path, i);
      BeforeLeads(db, id, next, path, i);
      var tail := path[i + 1..];
      assert path == c + [id] + tail;
      assert forall m | 0 <= m < |c| :: c[m] in c && c[m] != id;
      DistinctJoin(c, id, tail);
    }
  }

  lemma DistinctJoin(c: seq<Id>, id: Id, tail: seq<Id>)
    requires Distinct(c) && Distinct(tail)
    requires forall m | 0 <= m < |c| :: c[m] != id && c[m] !in tail
    requires id !in tail
    ensures Distinct(c + [id] + tail)
  {
    assert forall m | 0 <= m < |tail| :: tail[m] in tail;
  }

  /** In a store within the cap, sending an artifact back stays within it exactly when the walk
      behind it is below the cap and every chain that leads to it fits in front of that walk. */
  lemma SendingBackKeepsCapExactlyWhen(db: Db, cap: int, id: Id, next: Db)
    requires ChainsWithin(db, cap) && SendsBack(db, next, id)
    ensures ChainsWithin(next, cap) <==> RefinesBehind(db, id) < cap && Fits(db, cap, id)
  {
    hide RevisedParent, RefineWalk, IsRevised, SendsBack, Fits;
    if ChainsWithin(next, cap) { BoundedMustFit(db, cap, id, next); }
    if RefinesBehind(db, id) < cap && Fits(db, cap, id) {
      forall path | IsChain(next, path) ensures Distinct(path) && |path| <= cap {
        FittingStaysBounded(db, cap, id, next, path);
      }
    }
  }

  // ------------------------------------------------------------------ one unit of work

  /** The step moves `id` from `proposed` to `revised`. */
  ghost predicate SentBack(db: Db, next: Db, id: Id) {
    && id in db.artifacts && db.artifacts[id].status == Proposed
    && id in next.artifacts && next.artifacts[id].status == Revised
  }

  lemma ProposeKeepsChains(db: Db, cap: int, a: Artifact, op: Operation, next: Db)
    requires ChainsWithin(db, cap) && op.outputId == a.id && ProposeRow(db, a, op) == Ok(next)
    ensures ChainsWithin(next, cap)
  {
    hide RevisedParent;
    forall path | IsChain(next, path) ensures Distinct(path) && |path| <= cap {
      forall i | 0 <= i < |path| ensures IsRevised(db, path[i]) && path[i] != a.id {
        assert IsRevised(next, path[i]);
      }
      forall i | 0 <= i < |path| - 1 ensures RevisedParent(db, path[i]) == Some(path[i + 1]) {
        assert RevisedParent(next, path[i]) == Some(path[i + 1]);
        OthersKeepLineage(db, a, op, next, path[i]);
      }
      assert IsChain(db, path);
    }
  }

  /** A step that revises nothing and leaves the operations alone keeps every chain. */
  lemma SameLineageKeepsChains(db: Db, cap: int, next: Db)
    requires ChainsWithin(db, cap) && next.operations == db.operations
    requires forall id | IsRevised(next, id) :: IsRevised(db, id)
    ensures ChainsWithin(next, cap)
  {
    assert forall id :: RevisedParent(next, id) == RevisedParent(db, id);
    hide RevisedParent, IsRevised;
    forall path | IsChain(next, path) ensures Distinct(path) && |path| <= cap {
      forall i | 0 <= i < |path| ensures IsRevised(db, path[i]) { assert IsRevised(next, path[i]); }
      forall i | 0 <= i < |path| - 1 ensures RevisedParent(db, path[i]) == Some(path[i + 1]) {
        assert RevisedParent(next, path[i]) == Some(path[i + 1]);
      }
      assert IsChain(db, path);
    }
  }

  /** A commit sends nothing back but its own artifact. */
  lemma CommitSendsBack(db: Db, id: Id, gated: set<string>, identity: string,
                        reply: Reply, exhausted: bool, now: Timestamp, next: Db)
    requires Keyed(db) && Committed(db, id, gated, identity, reply, exhausted, now) == Ok(next)
    ensures next.operations == db.operations
    ensures forall x | SentBack(db, next, x) :: x == id
    ensures SentBack(db, next, id) ==> SendsBack(db, next, id) && !exhausted
    ensures !SentBack(db, next, id) ==> forall x | IsRevised(next, x) :: IsRevised(db, x)
  {
    hide Committed, RowsOf, HasProvenance, Consistent, RevisedParent;
    CommittedSettles(db, id, gated, identity, reply, exhausted, now);
    var b := reply.bundle;
    forall x | x in db.artifacts && x != id
      ensures next.artifacts[x].status == db.artifacts[x].status
        || (next.artifacts[x].status == Superseded && db.artifacts[x].status != Revised)
    {
      if !(b.status == Accepted && b.supersedes == Some(x)) {
        assert next.artifacts[x] == db.artifacts[x];
      }
    }
    assert forall x :: RevisedParent(next, x) == RevisedParent(db, x) by { SameParents(db, next); }
  }

  lemma SameParents(db: Db, next: Db)
    requires next.operations == db.operations
    ensures forall x :: RevisedParent(next, x) == RevisedParent(db, x)
  {
  }

  /** One unit of work whose send-backs are below the cap keeps the bound exactly when what it sends
      back fits. */
  lemma UnitKeepsCapExactlyWhen(k: Kernel, cap: int, db: Db, next: Db)
    requires Keyed(db) && ChainsWithin(db, cap) && IsUnit(k, OutputsOwn, db, next)
    requires forall id | SentBack(db, next, id) :: RefinesBehind(db, id) < cap
    ensures ChainsWithin(next, cap) <==> forall id | SentBack(db, next, id) :: Fits(db, cap, id)
  {
    hide ChainsWithin, Fits, RefinesBehind, Committed, SendsBack;
    if next != db {
      var u :| Does(k, OutputsOwn, db, u, next);
      match u
      case UPropose(a, op) =>
        ProposeKeepsChains(db, cap, a, op, next);
      case ULink(oldId, newId) =>
        SameLineageKeepsChains(db, cap, next);
      case UCommit(id, reply, exhausted, now) =>
        CommitSendsBack(db, id, k.gated.Keys, k.identity, reply, exhausted, now, next);
        hide SentBack, IsRevised;
        if SentBack(db, next, id) {
          SendingBackKeepsCapExactlyWhen(db, cap, id, next);
        } else {
          SameLineageKeepsChains(db, cap, next);
        }
      case UFailure(row) =>
        SameLineageKeepsChains(db, cap, next);
    }
  }

  // ------------------------------------------------------------------ what the walk is checked for

  /** In these states an artifact is sent back only with its walk below the cap, and only in the
      submission that minted it: no operation was recorded in between. */
  ghost predicate Checked(states: seq<Db>, cap: int) {
    forall i: nat | i + 1 < |states| :: CheckedAt(states, cap, i)
  }

  ghost predicate CheckedAt(states: seq<Db>, cap: int, i: nat)
    requires i + 1 < |states|
  {
    forall id | SentBack(states[i], states[i + 1], id) :: RefinesBehind(states[i], id) < cap && Minted(states, i, id)
  }

  ghost predicate Minted(states: seq<Db>, i: nat, id: Id)
    requires i < |states|
  {
    exists j | 0 <= j < i :: MintedAt(states[j], states[j + 1], states[i], id)
  }

  ghost predicate MintedAt(before: Db, after: Db, now: Db, id: Id) {
    id !in before.artifacts && id in after.artifacts && now.operations == after.operations
  }

  lemma MintedLater(states: seq<Db>, more: seq<Db>, offset: nat, i: nat, id: Id)
    requires i < |states| && Minted(states, i, id) && offset + |states| <= |more|
    requires forall n | 0 <= n < |states| :: more[offset + n] == states[n]
    ensures Minted(more, offset + i, id)
  {
    var j :| 0 <= j < i && MintedAt(states[j], states[j + 1], states[i], id);
    assert more[offset + j] == states[j] && more[offset + (j + 1)] == states[j + 1];
    assert MintedAt(more[offset + j], more[offset + j + 1], more[offset + i], id);
  }

  lemma CheckedLater(states: seq<Db>, more: seq<Db>, offset: nat, cap: int, i: nat)
    requires i + 1 < |states| && CheckedAt(states, cap, i) && offset + |states| <= |more|
    requires forall n | 0 <= n < |states| :: more[offset + n] == states[n]
    ensures CheckedAt(more, cap, offset + i)
  {
    hide RefinesBehind, SentBack, Minted;
    var s, t := states[i], states[i + 1];
    assert more[offset + i] == s && more[offset + (i + 1)] == t;
    forall id | SentBack(s, t, id) ensures Minted(more, offset + i, id) {
      MintedLater(states, more, offset, i, id);
    }
  }

  /** Two stretches of a run, the second from the last state of the first on. */
  lemma JoinChecked(a: seq<Db>, b: seq<Db>, cap: int)
    requires a != [] && b != [] && a[|a| - 1] == b[0] && Checked(a, cap) && Checked(b, cap)
    ensures Checked(a[..|a| - 1] + b, cap)
  {
    hide CheckedAt;
    var n, all := |a| - 1, a[..|a| - 1] + b;
    assert forall m | 0 <= m < |a| :: all[0 + m] == a[m];
    assert forall m | 0 <= m < |b| :: all[n + m] == b[m];
    forall i: nat | i + 1 < |all| ensures CheckedAt(all, cap, i) {
      if i < n {
        CheckedLater(a, all, 0, cap, i);
      } else {
        CheckedLater(b, all, n, cap, i - n);
      }
    }
  }

  lemma PrefixChecked(a: seq<Db>, n: nat, cap: int)
    requires Checked(a, cap) && n <= |a|
    ensures Checked(a[..n], cap)
  {
    hide RefinesBehind, SentBack, Minted;
    forall i: nat | i + 1 < n ensures CheckedAt(a[..n], cap, i) {
      assert CheckedAt(a, cap, i);
      var s, t := a[i], a[i + 1];
      forall id | SentBack(s, t, id) ensures Minted(a[..n], i, id) { MintedBefore(a, n, i, id); }
    }
  }

  lemma MintedBefore(a: seq<Db>, n: nat, i: nat, id: Id)
    requires i < n <= |a| && Minted(a, i, id)
    ensures Minted(a[..n], i, id)
  {
    hide MintedAt;
    var j :| 0 <= j < i && MintedAt(a[j], a[j + 1], a[i], id);
    var b := a[..n];
    assert b[j] == a[j] && b[j + 1] == a[j + 1] && b[i] == a[i];
    assert MintedAt(b[j], b[j + 1], b[i], id);
  }

  ghost predicate Quiet(db: Db, next: Db) {
    forall id :: !SentBack(db, next, id)
  }

  /** A store's operations have stored outputs, under keys of their own. */
  ghost predicate Wired(db: Db) {
    Keyed(db) && OutputsStored(db)
  }

  lemma ProposeKeepsWired(db: Db, a: Artifact, op: Operation, next: Db)
    requires Wired(db) && op.outputId == a.id && ProposeRow(db, a, op) == Ok(next)
    ensures Wired(next) && Quiet(db, next)
    ensures RevisedParent(next, a.id) ==
      if op.opName == REVISES && op.parents != [] then Some(op.parents[0]) else None
  {
    hide RevisedParent;
    NewLineage(db, a, op, next);
  }

  lemma LinkKeepsWired(db: Db, op: Operation, newId: Id, next: Db)
    requires Wired(db) && Linked(db, op, newId) == Ok(next)
    ensures Wired(next) && next.operations == db.operations && next.artifacts.Keys == db.artifacts.Keys
    ensures Quiet(db, next)
  {
  }

  lemma CommitKeepsWired(k: Kernel, db: Db, id: Id, reply: Reply, exhausted: bool, now: Timestamp, next: Db)
    requires Wired(db) && Committed(db, id, k.gated.Keys, k.identity, reply, exhausted, now) == Ok(next)
    ensures Wired(next)
  {
    hide Committed, Settles;
    CommittedKeepsRows(db, id, k.gated.Keys, k.identity, reply, exhausted, now);
    CommittedSettles(db, id, k.gated.Keys, k.identity, reply, exhausted, now);
    SettledEvolves(db, next, db.artifacts[id], reply.bundle, exhausted, now);
  }

  // ------------------------------------------------------------------ submissions

  /** What is asked of the states of an event: they stay wired and checked. */
  ghost predicate Sound(states: seq<Db>, cap: int) {
    && states != [] && Checked(states, cap)
    && forall i | 0 <= i < |states| :: Wired(states[i])
  }

  lemma JoinSound(a: seq<Db>, b: seq<Db>, cap: int)
    requires a != [] && Sound(a, cap) && Sound(b, cap) && a[|a| - 1] == b[0]
    ensures Sound(a[..|a| - 1] + b, cap)
  {
    hide Checked, Wired;
    JoinChecked(a, b, cap);
  }

  lemma QuietSound(a: seq<Db>, cap: int)
    requires a != [] && forall i | 0 <= i < |a| :: Wired(a[i])
    requires forall i | 0 <= i < |a| - 1 :: Quiet(a[i], a[i + 1])
    ensures Sound(a, cap)
  {
  }

  /** Nothing but a just minted artifact is sent back, with its walk below the cap. */
  ghost predicate SendsBackOnly(db: Db, next: Db, cap: int, id: Id) {
    forall x | SentBack(db, next, x) :: x == id && RefinesBehind(db, x) < cap
  }

  lemma CommitChecked(before: seq<Db>, cap: int, id: Id, next: Db)
    requires |before| > 1 && Checked(before, cap)
    requires MintedAt(before[0], before[1], before[|before| - 1], id)
    requires SendsBackOnly(before[|before| - 1], next, cap, id)
    ensures Checked(before + [next], cap)
  {
    hide RefinesBehind, SentBack, Minted, MintedAt;
    var states, n := before + [next], |before| - 1;
    forall i: nat | i + 1 < |states| ensures CheckedAt(states, cap, i) {
      if i < n {
        CheckedLater(before, states, 0, cap, i);
      } else {
        MintedFirst(states, n, id);
      }
    }
  }

  lemma MintedFirst(states: seq<Db>, n: nat, id: Id)
    requires 0 < n < |states| && MintedAt(states[0], states[1], states[n], id)
    ensures Minted(states, n, id)
  {
    hide MintedAt;
    assert MintedAt(states[0], states[0 + 1], states[n], id);
  }

  /** A proposal, then its commit with the walk below the cap unless exhausted. */
  lemma CommitSound(k: Kernel, before: seq<Db>, id: Id, reply: Reply, exhausted: bool, now: Timestamp, next: Db)
    requires |before| > 1 && Sound(before, k.refineCap)
    requires Committed(before[|before| - 1], id, k.gated.Keys, k.identity, reply, exhausted, now) == Ok(next)
    requires MintedAt(before[0], before[1], before[|before| - 1], id)
    requires !exhausted ==> RefinesBehind(before[|before| - 1], id) < k.refineCap
    ensures Sound(before + [next], k.refineCap)
  {
    hide Committed, RefinesBehind, Checked, SentBack, SendsBack, IsRevised;
    var db := before[|before| - 1];
    CommitKeepsWired(k, db, id, reply, exhausted, now, next);
    CommitSendsBack(db, id, k.gated.Keys, k.identity, reply, exhausted, now, next);
    CommitChecked(before, k.refineCap, id, next);
  }

  lemma ChildWalk(db: Db, parent: Artifact, child: Artifact, op: Operation, d1: Db)
    requires Wired(db) && op.outputId == child.id && ProposeRow(db, child, op) == Ok(d1) && op.parents == [parent.id]
    requires parent.id in db.artifacts && db.artifacts[parent.id].status in {Accepted, Superseded}
    ensures RefinesBehind(d1, child.id) == 0
  {
    hide RevisedParent;
    NewLineage(db, child, op, d1);
  }

  lemma ParentStays(k: Kernel, db: Db, parent: Id, child: Artifact, op: Operation, d1: Db,
                    reply: Reply, now: Timestamp, d2: Db)
    requires Keyed(db) && ProposeRow(db, child, op) == Ok(d1)
    requires Committed(d1, child.id, k.gated.Keys, k.identity, reply, false, now) == Ok(d2)
    requires parent in db.artifacts && db.artifacts[parent].status in {Accepted, Superseded}
    ensures parent in d2.artifacts && d2.artifacts[parent].status in {Accepted, Superseded}
  {
    hide Committed, ProposeRow, Settles, RowsOf;
    ProposedEvolves(db, child, op, d1);
    CommittedSettles(d1, child.id, k.gated.Keys, k.identity, reply, false, now);
    SettledEvolves(d1, d2, d1.artifacts[child.id], reply.bundle, false, now);
    hide Evolves;
    AcceptedStays(db, d1, parent);
    AcceptedStays(d1, d2, parent);
  }

  lemma AcceptedStays(db: Db, next: Db, id: Id)
    requires Evolves(db, next) && id in db.artifacts && db.artifacts[id].status in {Accepted, Superseded}
    ensures id in next.artifacts && next.artifacts[id].status in {Accepted, Superseded}
  {
  }

  /** One child, proposed and committed. */
  lemma ChildSound(k: Kernel, db: Db, parent: Artifact, child: Artifact, op: Operation, reply: Reply,
                   now: Timestamp, d1: Db)
    requires Wired(db) && k.refineCap >= 1 && op.outputId == child.id && op.parents == [parent.id]
    requires parent.id in db.artifacts && db.artifacts[parent.id].status in {Accepted, Superseded}
    requires ProposeRow(db, child, op) == Ok(d1)
    ensures Sound([db, d1], k.refineCap)
    ensures var d2 := Committed(d1, child.id, k.gated.Keys, k.identity, reply, false, now);
      d2.Ok? ==>
        && Sound([db, d1, d2.value], k.refineCap)
        && parent.id in d2.value.artifacts
        && d2.value.artifacts[parent.id].status in {Accepted, Superseded}
  {
    hide Committed, RefinesBehind, Sound, RevisedParent;
    ProposeKeepsWired(db, child, op, d1);
    QuietSound([db, d1], k.refineCap);
    var d2 := Committed(d1, child.id, k.gated.Keys, k.identity, reply, false, now);
    if d2.Ok? {
      ChildWalk(db, parent, child, op, d1);
      CommitSound(k, [db, d1], child.id, reply, false, now, d2.value);
      assert [db, d1] + [d2.value] == [db, d1, d2.value];
      ParentStays(k, db, parent.id, child, op, d1, reply, now, d2.value);
    }
  }

  lemma {:induction false} HarvestSound(k: Kernel, db: Db, parent: Artifact, children: seq<Child>,
                                        index: nat, replies: seq<Reply>, now: Timestamp)
    requires index <= |children| && k.refineCap >= 1 && Wired(db)
    requires parent.id in db.artifacts && db.artifacts[parent.id].status in {Accepted, Superseded}
    ensures Sound([db] + HarvestTrace(k, db, parent, children, index, replies, now), k.refineCap)
    decreases |children| - index
  {
    hide Sound, Committed, ProposeRow, ChildRow, ChildEdge, Wired;
    QuietSound([db], k.refineCap);
    if index < |children| {
      var child, op := ChildRow(parent, children[index], index, now), ChildEdge(parent, children[index], index, now);
      ChildObeys(OutputsOwn, db, parent, children[index], index, now);
      match ProposeRow(db, child, op)
      case Err(_) =>
        assert [db] + [] == [db];
      case Ok(d1) =>
        var reply := FirstReply(replies);
        ChildSound(k, db, parent, child, op, reply, now, d1);
        match Committed(d1, child.id, k.gated.Keys, k.identity, reply, false, now)
        case Err(_) =>
          assert [db] + [d1] == [db, d1];
        case Ok(d2) =>
          assert Wired(d2) by { SoundLast([db, d1, d2], k.refineCap); }
          HarvestSound(k, d2, parent, children, index + 1, LaterReplies(replies), now);
          var rest := HarvestTrace(k, d2, parent, children, index + 1, LaterReplies(replies), now);
          JoinSound([db, d1, d2], [d2] + rest, k.refineCap);
          assert [db, d1, d2][..2] + ([d2] + rest) == [db] + ([d1, d2] + rest);
    } else {
      assert [db] + [] == [db];
    }
  }

  lemma SoundLast(states: seq<Db>, cap: int)
    requires Sound(states, cap)
    ensures Wired(states[|states| - 1])
  {
  }

  lemma RowLands(k: Kernel, db: Db, id: Id, reply: Reply, exhausted: bool, now: Timestamp, next: Db)
    requires Wired(db) && Committed(db, id, k.gated.Keys, k.identity, reply, exhausted, now) == Ok(next)
    ensures reply.Verdict? && id in next.artifacts
    ensures reply.bundle.status == Accepted ==> next.artifacts[id].status == Accepted
  {
    hide Committed;
    CommittedSettles(db, id, k.gated.Keys, k.identity, reply, exhausted, now);
  }

  /** A recorded proposal from its minting to the end of its harvest. */
  lemma CommitTraceSound(k: Kernel, before: seq<Db>, row: Artifact, op: Operation, reply: Reply,
                         kids: seq<Reply>, now: Timestamp)
    requires |before| > 1 && Sound(before, k.refineCap) && k.refineCap >= 1
    requires MintedAt(before[0], before[1], before[|before| - 1], row.id)
    requires RefinesBehind(before[|before| - 1], row.id) == LineageRefines(before[|before| - 1], op)
    ensures Sound(before + CommitTrace(k, before[|before| - 1], row, op, reply, kids, now), k.refineCap)
  {
    hide Sound, Committed, HarvestTrace, RefinesBehind, LineageRefines, Wired, MintedAt;
    var db := before[|before| - 1];
    var exhausted := Exhausted(k, db, op);
    match Committed(db, row.id, k.gated.Keys, k.identity, reply, exhausted, now)
    case Err(_) =>
      assert before + [] == before;
    case Ok(next) =>
      CommitSound(k, before, row.id, reply, exhausted, now, next);
      SoundLast(before, k.refineCap);
      SoundLast(before + [next], k.refineCap);
      RowLands(k, db, row.id, reply, exhausted, now, next);
      if reply.bundle.status == Accepted {
        HarvestSound(k, next, row, k.harvest(row), 0, kids, now);
        var rest := HarvestTrace(k, next, row, k.harvest(row), 0, kids, now);
        JoinSound(before + [next], [next] + rest, k.refineCap);
        assert (before + [next])[..|before|] + ([next] + rest) == before + ([next] + rest);
      } else {
        assert before + ([next] + []) == before + [next];
      }
  }

  /** The walk that is checked is the one behind the new artifact. */
  lemma CheckedWalk(k: Kernel, db: Db, row: Artifact, op: Operation, now: Timestamp, d1: Db, d2: Db)
    requires Wired(db) && op.outputId == row.id
    requires ProposeRow(db, StampedArtifact(row, now), StampedOperation(op, now)) == Ok(d1)
    requires Linked(d1, op, row.id) == Ok(d2)
    ensures Sound([db, d1, d2], k.refineCap)
    ensures RefinesBehind(d2, row.id) == LineageRefines(d2, op)
    ensures MintedAt(db, d1, d2, row.id)
  {
    hide RefineWalk, RevisedParent;
    ProposeKeepsWired(db, StampedArtifact(row, now), StampedOperation(op, now), d1);
    LinkKeepsWired(d1, op, row.id, d2);
    SameParents(d1, d2);
    hide Linked, SentBack, Wired, ProposeRow;
    assert RevisedParent(d2, row.id) == RevisedParent(d1, row.id);
    NoWalk(d2);
    QuietSound([db, d1, d2], k.refineCap);
  }

  lemma NoWalk(db: Db)
    ensures RefineWalk(db, None, {}) == 0
  {
  }

  lemma TakenNames(k: Kernel, env: ProposalEnvelope, now: Timestamp)
    ensures Taken(k, env).id == env.artifact.id == StampedArtifact(Taken(k, env), now).id
    ensures StampedOperation(env.operation, now).outputId == env.operation.outputId
  {
    hide Harvested, CleanPayload, Sidecar;
  }

  lemma SubmitSound(k: Kernel, db: Db, env: ProposalEnvelope, reply: Reply, kids: seq<Reply>, now: Timestamp)
    requires Wired(db) && k.refineCap >= 1 && env.operation.outputId == env.artifact.id
    ensures Sound(SubmitTrace(k, db, env, reply, kids, now), k.refineCap)
  {
    hide Sound, Wired, ShapeError, CommitTrace, RefinesBehind, LineageRefines, RevisedParent, Linked, ProposeRow,
      Taken, StampedArtifact, StampedOperation, MintedAt, Quiet;
    QuietSound([db], k.refineCap);
    TakenNames(k, env, now);
    if ShapeError(k, env).None? {
      var row := Taken(k, env);
      var a, op := StampedArtifact(row, now), StampedOperation(env.operation, now);
      match ProposeRow(db, a, op)
      case Err(_) =>
      case Ok(d1) =>
        match Linked(d1, env.operation, row.id)
        case Err(_) =>
          ProposeKeepsWired(db, a, op, d1);
          QuietSound([db, d1], k.refineCap);
        case Ok(d2) =>
          CheckedWalk(k, db, row, env.operation, now, d1, d2);
          CommitTraceSound(k, [db, d1, d2], row, env.operation, reply, kids, now);
    }
  }

  lemma EventSound(k: Kernel, db: Db, e: Event)
    requires Wired(db) && k.refineCap >= 1 && ObeyingEvent(OutputsOwn, db, e)
    ensures Sound(EventTrace(k, db, e), k.refineCap)
  {
    hide Wired, SubmitTrace, Sound;
    match e
    case Submit(env, reply, kids, now, stop) =>
      SubmitSound(k, db, env, reply, kids, now);
      var full := SubmitTrace(k, db, env, reply, kids, now);
      if stop < |full| { PrefixSound(full, stop + 1, k.refineCap); }
    case Seed(a, op, now) =>
      QuietSound([db], k.refineCap);
      var next := ProposeRow(db, StampedArtifact(a, now), StampedOperation(op, now));
      if next.Ok? {
        ProposeKeepsWired(db, StampedArtifact(a, now), StampedOperation(op, now), next.value);
        QuietSound([db, next.value], k.refineCap);
      }
    case CycleFailed(row) =>
      FailureKeepsWired(db, row);
      QuietSound([db, FailureRow(db, row)], k.refineCap);
  }

  lemma FailureKeepsWired(db: Db, row: CycleFailure)
    requires Wired(db)
    ensures Wired(FailureRow(db, row)) && Quiet(db, FailureRow(db, row))
  {
  }

  lemma PrefixSound(states: seq<Db>, n: nat, cap: int)
    requires Sound(states, cap) && 0 < n <= |states|
    ensures Sound(states[..n], cap)
  {
    hide Checked, Wired;
    PrefixChecked(states, n, cap);
  }

  // ------------------------------------------------------------------ whole runs

  lemma {:induction false} RunSound(k: Kernel, db: Db, run: seq<Event>)
    requires Wired(db) && k.refineCap >= 1 && ObeyingRun(k, OutputsOwn, db, run)
    ensures Sound(Visited(k, db, run), k.refineCap)
    decreases |run|
  {
    hide Sound, Wired, EventTrace, ObeyingEvent;
    if run == [] {
      QuietSound([db], k.refineCap);
    } else {
      var trace := EventTrace(k, db, run[0]);
      EventSound(k, db, run[0]);
      SoundLast(trace, k.refineCap);
      RunSound(k, trace[|trace| - 1], run[1..]);
      JoinSound(trace, Visited(k, trace[|trace| - 1], run[1..]), k.refineCap);
    }
  }

  lemma EmptyWired()
    ensures Wired(EMPTY_DB)
  {
  }

  lemma EmptyWithin(cap: int)
    requires cap >= 0
    ensures ChainsWithin(EMPTY_DB, cap)
  {
    forall path ensures IsChain(EMPTY_DB, path) ==> path == [] {
      assert path != [] && IsChain(EMPTY_DB, path) ==> IsRevised(EMPTY_DB, path[0]);
    }
  }

  /** In every run, whatever the verifier replies and whatever fails, an artifact is sent back only
      while fewer than `refineCap` refines lie behind it, and before any further operation is
      recorded. */
  lemma SentBackBelowCap(k: Kernel, run: seq<Event>, i: nat, id: Id)
    requires k.refineCap >= 1 && ObeyingRun(k, OutputsOwn, EMPTY_DB, run)
    requires i < |Visited(k, EMPTY_DB, run)| - 1
    requires SentBack(Visited(k, EMPTY_DB, run)[i], Visited(k, EMPTY_DB, run)[i + 1], id)
    ensures RefinesBehind(Visited(k, EMPTY_DB, run)[i], id) < k.refineCap
    ensures Minted(Visited(k, EMPTY_DB, run), i, id)
  {
    hide Wired, SentBack, RefinesBehind, Minted, Visited, ObeyingRun;
    EmptyWired();
    RunSound(k, EMPTY_DB, run);
    assert CheckedAt(Visited(k, EMPTY_DB, run), k.refineCap, i);
  }

  lemma StepKeepsCapExactlyWhen(k: Kernel, run: seq<Event>, i: nat)
    requires k.refineCap >= 1 && ObeyingRun(k, OutputsOwn, EMPTY_DB, run)
    requires i < |Visited(k, EMPTY_DB, run)| - 1
    requires ChainsWithin(Visited(k, EMPTY_DB, run)[i], k.refineCap)
    ensures var states := Visited(k, EMPTY_DB, run);
      ChainsWithin(states[i + 1], k.refineCap)
      <==> forall id | SentBack(states[i], states[i + 1], id) :: Fits(states[i], k.refineCap, id)
  {
    hide ChainsWithin, SentBack, Fits, RefinesBehind, Minted, Keyed;
    var states := Visited(k, EMPTY_DB, run);
    RunIsUnits(k, OutputsOwn, EMPTY_DB, run);
    EmptyIsKeyed();
    StatesKeyed(k, OutputsOwn, states, i);
    assert IsUnit(k, OutputsOwn, states[i], states[i + 1]);
    forall id | SentBack(states[i], states[i + 1], id) ensures RefinesBehind(states[i], id) < k.refineCap {
      SentBackBelowCap(k, run, i, id);
    }
    UnitKeepsCapExactlyWhen(k, k.refineCap, states[i], states[i + 1]);
  }

  lemma EmptyIsKeyed()
    ensures Keyed(EMPTY_DB)
  {
  }

  lemma VisitedFirst(k: Kernel, run: seq<Event>)
    ensures Visited(k, EMPTY_DB, run)[0] == EMPTY_DB
  {
  }

  /** Whatever these steps send back fits under the cap when it is sent back. */
  ghost predicate AllFit(states: seq<Db>, cap: int) {
    forall i, id | 0 <= i < |states| - 1 && SentBack(states[i], states[i + 1], id) :: Fits(states[i], cap, id)
  }

  lemma {:induction false} FittingRunWithin(k: Kernel, run: seq<Event>, i: nat)
    requires k.refineCap >= 1 && ObeyingRun(k, OutputsOwn, EMPTY_DB, run)
    requires i < |Visited(k, EMPTY_DB, run)| && AllFit(Visited(k, EMPTY_DB, run), k.refineCap)
    ensures ChainsWithin(Visited(k, EMPTY_DB, run)[i], k.refineCap)
  {
    hide ChainsWithin, SentBack, Fits, Visited, ObeyingRun;
    VisitedFirst(k, run);
    EmptyWithin(k.refineCap);
    if i > 0 {
      FittingRunWithin(k, run, i - 1);
      StepKeepsCapExactlyWhen(k, run, i - 1);
    }
  }

  /** Every state of a run keeps its lineages within the cap exactly when every artifact the run sends
      back fits in front of its walk at that moment. */
  lemma RunsStayCappedExactlyWhen(k: Kernel, run: seq<Event>)
    requires k.refineCap >= 1 && ObeyingRun(k, OutputsOwn, EMPTY_DB, run)
    ensures var states := Visited(k, EMPTY_DB, run);
      (forall i | 0 <= i < |states| :: ChainsWithin(states[i], k.refineCap))
      <==> AllFit(states, k.refineCap)
  {
    hide ChainsWithin, SentBack, Fits, Visited, ObeyingRun;
    var states := Visited(k, EMPTY_DB, run);
    if forall i | 0 <= i < |states| :: ChainsWithin(states[i], k.refineCap) {
      forall i, id | 0 <= i < |states| - 1 && SentBack(states[i], states[i + 1], id)
        ensures Fits(states[i], k.refineCap, id)
      {
        StepKeepsCapExactlyWhen(k, run, i);
      }
    }
    if AllFit(states, k.refineCap) {
      forall i | 0 <= i < |states| ensures ChainsWithin(states[i], k.refineCap) { FittingRunWithin(k, run, i); }
    }
  }

  /** No artifact is minted under an id that a recorded operation, its own included, already claims
      to revise. */
  ghost predicate NoForwardNames(states: seq<Db>) {
    forall j, id | 0 <= j < |states| - 1 && id !in states[j].artifacts && id in states[j + 1].artifacts ::
      Unrevised(states[j + 1], id)
  }

  /** Where nothing is revised before it is minted, in every state of every run, whatever the verifier
      replies and whatever fails, a chain of `revised` artifacts has no cycle and at most `refineCap`
      members, the newest included. */
  lemma LineagesAreCapped(k: Kernel, run: seq<Event>, i: nat, path: seq<Id>)
    requires k.refineCap >= 1 && ObeyingRun(k, OutputsOwn, EMPTY_DB, run)
    requires NoForwardNames(Visited(k, EMPTY_DB, run))
    requires i < |Visited(k, EMPTY_DB, run)| && IsChain(Visited(k, EMPTY_DB, run)[i], path)
    ensures Distinct(path) && |path| <= k.refineCap
  {
    hide SentBack, Fits, RefinesBehind, IsChain, Visited, ObeyingRun;
    var states := Visited(k, EMPTY_DB, run);
    forall j, id | 0 <= j < |states| - 1 && SentBack(states[j], states[j + 1], id)
      ensures Fits(states[j], k.refineCap, id)
    {
      SentBackBelowCap(k, run, j, id);
      var m :| 0 <= m < j && MintedAt(states[m], states[m + 1], states[j], id);
      assert Unrevised(states[m + 1], id);
      UnrevisedFits(states[j], k.refineCap, id);
    }
    RunsStayCappedExactlyWhen(k, run);
  }
}
