/** Provenance: everything an artifact was made from, found backwards over the operations. */
module Provenance {

  import opened Contracts
  import opened Tables
  import opened Store

  datatype Origin = Origin(
    artifact: Artifact,
    operations: seq<Operation>,
    ancestors: seq<Artifact>,
    decisions: seq<Decision>)

  // ------------------------------------------------------------------ what should be found

  /** `from` is an existing input of an operation that produced `to`. */
  ghost predicate MadeFrom(db: Db, to: Id, from: Id) {
    from in db.artifacts
    && exists k :: k in db.operations && db.operations[k].outputId == to && from in db.operations[k].parents
  }

  ghost predicate IsBackPath(db: Db, path: seq<Id>) {
    path != [] && forall i | 0 <= i < |path| - 1 :: MadeFrom(db, path[i], path[i + 1])
  }

  /** Reachable in one or more steps back. On a cycle an artifact is its own ancestor. */
  ghost predicate Ancestor(db: Db, root: Id, x: Id) {
    exists path :: IsBackPath(db, path) && |path| >= 2 && path[0] == root && path[|path| - 1] == x
  }

  ghost predicate Contributes(db: Db, root: Id, op: Operation) {
    && op.opId in db.operations && db.operations[op.opId] == op
    && (op.outputId == root || Ancestor(db, root, op.outputId))
  }

  lemma AncestorStep(db: Db, root: Id, at: Id, from: Id)
    requires at == root || Ancestor(db, root, at)
    requires MadeFrom(db, at, from)
    ensures Ancestor(db, root, from)
  {
    var path := [root];
    if at != root {
      path :| IsBackPath(db, path) && |path| >= 2 && path[0] == root && path[|path| - 1] == at;
    }
    var longer := path + [from];
    assert IsBackPath(db, longer) by {
      forall i | 0 <= i < |longer| - 1 ensures MadeFrom(db, longer[i], longer[i + 1]) {
        if i < |path| - 1 { assert MadeFrom(db, path[i], path[i + 1]); }
      }
    }
    assert longer[0] == root && longer[|longer| - 1] == from && |longer| >= 2;
  }

  // ------------------------------------------------------------------ the walk

  /** What has been seen, in the order it was seen, and what is still to expand. */
  datatype Walk = Walk(ops: seq<Operation>, ancestors: seq<Artifact>, frontier: seq<Id>)

  function OpIds(w: Walk): set<Id> {
    set i | 0 <= i < |w.ops| :: w.ops[i].opId
  }

  function AncestorIds(w: Walk): set<Id> {
    set i | 0 <= i < |w.ancestors| :: w.ancestors[i].id
  }

  /** Nothing is seen twice, and nothing is seen that does not belong. */
  ghost predicate Sane(db: Db, root: Id, w: Walk) {
    && (forall i, j | 0 <= i < j < |w.ops| :: w.ops[i].opId != w.ops[j].opId)
    && (forall i, j | 0 <= i < j < |w.ancestors| :: w.ancestors[i].id != w.ancestors[j].id)
    && (forall op | op in w.ops :: Contributes(db, root, op))
    && (forall a | a in w.ancestors :: a.id in db.artifacts && db.artifacts[a.id] == a && Ancestor(db, root, a.id))
    && (forall x | x in w.frontier :: x == root || x in AncestorIds(w))
  }

  ghost predicate ParentsSeen(db: Db, w: Walk, parents: seq<Id>) {
    forall p | p in parents && p in db.artifacts :: p in AncestorIds(w)
  }

  ghost predicate Expanded(db: Db, w: Walk, x: Id) {
    forall op | op in OperationsInto(db.operations, x) :: op in w.ops
  }

  /** Everything seen is expanded, or waits on the frontier, or is `current`. */
  ghost predicate Covering(db: Db, root: Id, w: Walk, current: Option<Id>) {
    && (forall x | x == root || x in AncestorIds(w) :: x in w.frontier || current == Some(x) || Expanded(db, w, x))
    && (forall op | op in w.ops :: ParentsSeen(db, w, op.parents))
  }

  /** `v` has seen all that `w` has. */
  ghost predicate Grown(w: Walk, v: Walk) {
    && w.ops <= v.ops && w.ancestors <= v.ancestors
    && (forall x | x in w.frontier :: x in v.frontier)
    && (forall x | x in AncestorIds(v) && x !in AncestorIds(w) :: x in v.frontier)
    && |v.frontier| - |w.frontier| == |v.ancestors| - |w.ancestors|
  }

  /** How many artifacts are left to see. */
  ghost function Unseen(db: Db, w: Walk): set<Id> {
    db.artifacts.Keys - AncestorIds(w)
  }

  lemma SeenParent(db: Db, root: Id, w: Walk, a: Artifact)
    requires Sane(db, root, w) && a.id in db.artifacts && db.artifacts[a.id] == a && Ancestor(db, root, a.id)
    requires a.id !in AncestorIds(w)
    ensures var v := w.(ancestors := w.ancestors + [a], frontier := w.frontier + [a.id]);
      Sane(db, root, v) && Grown(w, v) && AncestorIds(v) == AncestorIds(w) + {a.id}
  {
    var v := w.(ancestors := w.ancestors + [a], frontier := w.frontier + [a.id]);
    assert AncestorIds(v) == AncestorIds(w) + {a.id} by {
      forall x | x in AncestorIds(w) ensures x in AncestorIds(v) {
        var i :| 0 <= i < |w.ancestors| && w.ancestors[i].id == x;
        assert v.ancestors[i].id == x;
      }
      assert v.ancestors[|w.ancestors|].id == a.id;
    }
    forall i, j | 0 <= i < j < |v.ancestors| ensures v.ancestors[i].id != v.ancestors[j].id {
      if j == |w.ancestors| { assert w.ancestors[i].id in AncestorIds(w); }
    }
  }

  lemma GrownTrans(u: Walk, v: Walk, w: Walk)
    requires Grown(u, v) && Grown(v, w)
    ensures Grown(u, w)
  {
  }

  lemma GrownKeeps(db: Db, w: Walk, v: Walk)
    requires Grown(w, v)
    ensures AncestorIds(w) <= AncestorIds(v)
    ensures forall parents | ParentsSeen(db, w, parents) :: ParentsSeen(db, v, parents)
    ensures forall x | Expanded(db, w, x) :: Expanded(db, v, x)
  {
    forall x | x in AncestorIds(w) ensures x in AncestorIds(v) {
      var i :| 0 <= i < |w.ancestors| && w.ancestors[i].id == x;
      assert v.ancestors[i].id == x;
    }
  }

  /** The inputs of one operation: the unseen existing ones join the walk. */
  method AddParents(store: SqliteStore, ghost root: Id, w: Walk, op: Operation) returns (v: Walk)
    requires Keyed(store.working) && Sane(store.working, root, w) && Contributes(store.working, root, op)
    ensures Sane(store.working, root, v) && Grown(w, v) && v.ops == w.ops
    ensures ParentsSeen(store.working, v, op.parents)
  {
    hide Ancestor;
    ghost var db := store.working;
    v := w;
    for i := 0 to |op.parents|
      invariant Sane(db, root, v) && Grown(w, v) && v.ops == w.ops
      invariant forall j | 0 <= j < i && op.parents[j] in db.artifacts :: op.parents[j] in AncestorIds(v)
    {
      var parent := op.parents[i];
      if parent !in AncestorIds(v) {
        var found := store.GetArtifact(parent);
        if found.Some? {
          assert MadeFrom(db, op.outputId, parent);
          AncestorStep(db, root, op.outputId, parent);
          SeenParent(db, root, v, found.value);
          GrownTrans(w, v, v.(ancestors := v.ancestors + [found.value], frontier := v.frontier + [parent]));
          v := v.(ancestors := v.ancestors + [found.value], frontier := v.frontier + [parent]);
        }
      }
    }
  }

  lemma SeenOp(db: Db, root: Id, w: Walk, op: Operation)
    requires Sane(db, root, w) && Contributes(db, root, op) && op.opId !in OpIds(w)
    ensures Sane(db, root, w.(ops := w.ops + [op])) && Grown(w, w.(ops := w.ops + [op]))
  {
    var v := w.(ops := w.ops + [op]);
    forall i, j | 0 <= i < j < |v.ops| ensures v.ops[i].opId != v.ops[j].opId {
      if j == |w.ops| { assert w.ops[i].opId in OpIds(w); }
    }
  }

  lemma SameOp(db: Db, root: Id, w: Walk, op: Operation)
    requires Sane(db, root, w) && Contributes(db, root, op) && op.opId in OpIds(w)
    ensures op in w.ops
  {
    var i :| 0 <= i < |w.ops| && w.ops[i].opId == op.opId;
    assert w.ops[i] in w.ops;
    assert Contributes(db, root, w.ops[i]);
  }

  lemma IntoContributes(db: Db, root: Id, w: Walk, current: Id)
    requires Keyed(db) && Sane(db, root, w) && (current == root || current in AncestorIds(w))
    ensures forall op | op in OperationsInto(db.operations, current) :: Contributes(db, root, op)
  {
    if current != root {
      var i :| 0 <= i < |w.ancestors| && w.ancestors[i].id == current;
      assert w.ancestors[i] in w.ancestors;
    }
  }

  lemma GrownSelf(w: Walk)
    ensures Grown(w, w)
  {
  }

  lemma AllParentsSeen(db: Db, u: Walk, v: Walk, op: Operation)
    requires forall o | o in u.ops :: ParentsSeen(db, u, o.parents)
    requires v.ops == u.ops + [op] && Grown(u.(ops := u.ops + [op]), v) && ParentsSeen(db, v, op.parents)
    ensures forall o | o in v.ops :: ParentsSeen(db, v, o.parents)
  {
    var before := u.(ops := u.ops + [op]);
    GrownKeeps(db, before, v);
    forall o | o in u.ops ensures ParentsSeen(db, v, o.parents) {
      assert ParentsSeen(db, u, o.parents) && ParentsSeen(db, before, o.parents);
    }
  }

  /** All operations into one artifact. */
  method Expand(store: SqliteStore, ghost root: Id, w: Walk, current: Id) returns (v: Walk)
    requires Keyed(store.working) && Sane(store.working, root, w)
    requires current == root || current in AncestorIds(w)
    requires forall op | op in w.ops :: ParentsSeen(store.working, w, op.parents)
    ensures Sane(store.working, root, v) && Grown(w, v)
    ensures Expanded(store.working, v, current)
    ensures forall op | op in v.ops :: ParentsSeen(store.working, v, op.parents)
  {
    hide Sane, Grown, ParentsSeen, Keyed, AncestorIds, OpIds, Contributes, Ancestor;
    ghost var db := store.working;
    var into := OperationsInto(store.working.operations, current);
    IntoContributes(db, root, w, current);
    GrownSelf(w);
    v := w;
    for i := 0 to |into|
      invariant Sane(db, root, v) && Grown(w, v)
      invariant forall j | 0 <= j < i :: into[j] in v.ops
      invariant forall op | op in v.ops :: ParentsSeen(db, v, op.parents)
    {
      var op := into[i];
      assert op in into;
      if op.opId in OpIds(v) {
        SameOp(db, root, v, op);
      } else {
        SeenOp(db, root, v, op);
        ghost var u := v;
        v := AddParents(store, root, v.(ops := v.ops + [op]), op);
        GrownTrans(u, u.(ops := u.ops + [op]), v);
        GrownTrans(w, u, v);
        AllParentsSeen(db, u, v, op);
      }
    }
  }

  lemma GrownCovers(db: Db, root: Id, w: Walk, current: Id, v: Walk)
    requires Covering(db, root, w, Some(current)) && Grown(w, v) && Expanded(db, v, current)
    requires forall op | op in v.ops :: ParentsSeen(db, v, op.parents)
    ensures Covering(db, root, v, None)
  {
    GrownKeeps(db, w, v);
    forall x | x == root || x in AncestorIds(v) ensures x in v.frontier || Expanded(db, v, x) {
      if x != current && (x == root || x in AncestorIds(w)) {
        assert x in w.frontier || Expanded(db, w, x);
      }
    }
  }

  /** A walk with an empty frontier has seen everything there is. */
  lemma {:induction false} PathSeen(db: Db, root: Id, w: Walk, path: seq<Id>, i: nat)
    requires Covering(db, root, w, None) && w.frontier == []
    requires IsBackPath(db, path) && path[0] == root && i < |path|
    ensures path[i] == root || path[i] in AncestorIds(w)
    ensures i > 0 ==> path[i] in AncestorIds(w)
  {
    hide AncestorIds, Expanded, MadeFrom, Into;
    if i > 0 {
      PathSeen(db, root, w, path, i - 1);
      assert MadeFrom(db, path[i - 1], path[i - 1 + 1]);
      ParentOfSeen(db, root, w, path[i - 1], path[i]);
    }
  }

  lemma ParentOfSeen(db: Db, root: Id, w: Walk, to: Id, from: Id)
    requires Covering(db, root, w, None) && w.frontier == []
    requires (to == root || to in AncestorIds(w)) && MadeFrom(db, to, from)
    ensures from in AncestorIds(w)
  {
    hide AncestorIds;
    var k :| k in db.operations && db.operations[k].outputId == to && from in db.operations[k].parents;
    assert k in Into(db.operations, to);
    assert Expanded(db, w, to);
    assert ParentsSeen(db, w, db.operations[k].parents);
  }

  lemma FinishedIsComplete(db: Db, root: Id, w: Walk)
    requires Keyed(db) && Sane(db, root, w) && Covering(db, root, w, None) && w.frontier == []
    ensures forall op :: op in w.ops <==> Contributes(db, root, op)
    ensures forall a :: a in w.ancestors <==> a.id in db.artifacts && db.artifacts[a.id] == a && Ancestor(db, root, a.id)
  {
    forall x | Ancestor(db, root, x) ensures x in AncestorIds(w) {
      var path :| IsBackPath(db, path) && |path| >= 2 && path[0] == root && path[|path| - 1] == x;
      PathSeen(db, root, w, path, |path| - 1);
    }
    forall op | Contributes(db, root, op) ensures op in w.ops {
      assert op.opId in Into(db.operations, op.outputId);
      assert Expanded(db, w, op.outputId);
    }
    forall a: Artifact | a.id in db.artifacts && db.artifacts[a.id] == a && Ancestor(db, root, a.id) ensures a in w.ancestors {
      var i :| 0 <= i < |w.ancestors| && w.ancestors[i].id == a.id;
      assert w.ancestors[i] in w.ancestors;
    }
  }

  lemma FewerUnseen(db: Db, root: Id, w: Walk, v: Walk)
    requires Sane(db, root, v) && Grown(w, v)
    ensures Unseen(db, v) <= Unseen(db, w)
    ensures |v.ancestors| > |w.ancestors| ==> Unseen(db, v) < Unseen(db, w)
    ensures |v.ancestors| == |w.ancestors| ==> Unseen(db, v) == Unseen(db, w)
    ensures |v.frontier| - |w.frontier| == |v.ancestors| - |w.ancestors| >= 0
  {
    GrownKeeps(db, w, v);
    if |v.ancestors| == |w.ancestors| {
      assert v.ancestors == w.ancestors;
    }
    if |v.ancestors| > |w.ancestors| {
      var a := v.ancestors[|w.ancestors|];
      assert a in v.ancestors && a.id in AncestorIds(v);
      assert forall i | 0 <= i < |w.ancestors| :: w.ancestors[i].id == v.ancestors[i].id != a.id;
      assert a.id in Unseen(db, w) && a.id !in Unseen(db, v);
    }
  }

  function DecisionsOfAll(ds: seq<Decision>, ancestors: seq<Artifact>): seq<Decision> {
    if ancestors == [] then []
    else DecisionsOfAll(ds, ancestors[..|ancestors| - 1]) + DecisionsFor(ds, ancestors[|ancestors| - 1].id)
  }

  /** The whole traversal. It ends on any graph of operations, cycles and missing inputs included,
      and returns exactly the operations backward reachable from the artifact and exactly its
      existing ancestors, each once. */
  method GetProvenance(store: SqliteStore, id: Id) returns (r: Result<Origin, Failure>)
    requires Keyed(store.working)
    ensures r.Err? <==> id !in store.working.artifacts
    ensures r.Ok? ==>
      && r.value.artifact == store.working.artifacts[id]
      && (forall op :: op in r.value.operations <==> Contributes(store.working, id, op))
      && (forall i, j | 0 <= i < j < |r.value.operations| :: r.value.operations[i].opId != r.value.operations[j].opId)
      && (forall a :: a in r.value.ancestors <==>
            a.id in store.working.artifacts && store.working.artifacts[a.id] == a && Ancestor(store.working, id, a.id))
      && (forall i, j | 0 <= i < j < |r.value.ancestors| :: r.value.ancestors[i].id != r.value.ancestors[j].id)
      && r.value.decisions == DecisionsFor(store.working.decisions, id)
           + DecisionsOfAll(store.working.decisions, r.value.ancestors)
  {
    hide Sane, Covering, Grown, Expanded, ParentsSeen, Keyed, AncestorIds, Contributes, Ancestor, DecisionsFor;
    var root := store.GetArtifact(id);
    if root.None? { return Err(UnknownArtifact); }
    ghost var db := store.working;
    var w := Walk([], [], [id]);
    StartWalk(db, id);
    while w.frontier != []
      invariant Sane(db, id, w) && Covering(db, id, w, None)
      decreases Unseen(db, w), |w.frontier|
    {
      var n := |w.frontier| - 1;
      var current := w.frontier[n];
      var popped := w.(frontier := w.frontier[..n]);
      PoppedCovers(db, id, w);
      w := Expand(store, id, popped, current);
      GrownCovers(db, id, popped, current, w);
      FewerUnseen(db, id, popped, w);
    }
    FinishedIsComplete(db, id, w);
    SaneDistinct(db, id, w);
    var decisions := CollectDecisions(store, id, w.ancestors);
    r := Ok(Origin(root.value, w.ops, w.ancestors, decisions));
  }

  method CollectDecisions(store: SqliteStore, id: Id, ancestors: seq<Artifact>) returns (decisions: seq<Decision>)
    ensures decisions == DecisionsFor(store.working.decisions, id) + DecisionsOfAll(store.working.decisions, ancestors)
  {
    decisions := DecisionsFor(store.working.decisions, id);
    for i := 0 to |ancestors|
      invariant decisions == DecisionsFor(store.working.decisions, id)
        + DecisionsOfAll(store.working.decisions, ancestors[..i])
    {
      assert ancestors[..i + 1][..i] == ancestors[..i];
      decisions := decisions + DecisionsFor(store.working.decisions, ancestors[i].id);
    }
    assert ancestors[..|ancestors|] == ancestors;
  }

  lemma StartWalk(db: Db, id: Id)
    ensures Sane(db, id, Walk([], [], [id])) && Covering(db, id, Walk([], [], [id]), None)
  {
  }

  lemma SaneDistinct(db: Db, root: Id, w: Walk)
    requires Sane(db, root, w)
    ensures forall i, j | 0 <= i < j < |w.ops| :: w.ops[i].opId != w.ops[j].opId
    ensures forall i, j | 0 <= i < j < |w.ancestors| :: w.ancestors[i].id != w.ancestors[j].id
  {
  }

  lemma PoppedCovers(db: Db, root: Id, w: Walk)
    requires Covering(db, root, w, None) && w.frontier != []
    requires Sane(db, root, w)
    ensures var n := |w.frontier| - 1;
      var popped := w.(frontier := w.frontier[..n]);
      && Covering(db, root, popped, Some(w.frontier[n])) && Sane(db, root, popped)
      && (w.frontier[n] == root || w.frontier[n] in AncestorIds(popped))
      && Unseen(db, popped) == Unseen(db, w)
      && forall op | op in popped.ops :: ParentsSeen(db, popped, op.parents)
  {
    var n := |w.frontier| - 1;
    var popped := w.(frontier := w.frontier[..n]);
    assert w.frontier == w.frontier[..n] + [w.frontier[n]];
    assert AncestorIds(popped) == AncestorIds(w);
    assert forall x | x in popped.frontier :: x in w.frontier;
    forall x | x == root || x in AncestorIds(popped)
      ensures x in popped.frontier || w.frontier[n] == x || Expanded(db, popped, x)
    {
      assert x in w.frontier || Expanded(db, w, x);
    }
  }

  // ------------------------------------------------------------------ the decisions

  lemma {:induction false} FilterCounts(ds: seq<Decision>, id: Id, d: Decision)
    ensures multiset(DecisionsFor(ds, id))[d] == if d.artifactId == id then multiset(ds)[d] else 0
  {
    if ds != [] {
      var n := |ds| - 1;
      FilterCounts(ds[..n], id, d);
      assert ds == ds[..n] + [ds[n]];
    }
  }

  lemma {:induction false} AllCounts(ds: seq<Decision>, ancestors: seq<Artifact>, d: Decision)
    requires forall i, j | 0 <= i < j < |ancestors| :: ancestors[i].id != ancestors[j].id
    ensures multiset(DecisionsOfAll(ds, ancestors))[d]
      == if exists a :: a in ancestors && a.id == d.artifactId then multiset(ds)[d] else 0
  {
    if ancestors != [] {
      var n := |ancestors| - 1;
      AllCounts(ds, ancestors[..n], d);
      FilterCounts(ds, ancestors[n].id, d);
      assert ancestors == ancestors[..n] + [ancestors[n]];
      if a :| a in ancestors[..n] && a.id == d.artifactId {
        var i :| 0 <= i < n && ancestors[i] == a;
        assert ancestors[i].id != ancestors[n].id;
      }
    }
  }

  /** Every recorded decision on the artifact or an ancestor comes exactly as often as it was
      recorded, and no other comes at all; except that the decisions on an artifact that is its own
      ancestor come twice. */
  lemma DecisionsOncePerRow(db: Db, id: Id, ancestors: seq<Artifact>, d: Decision)
    requires Keyed(db) && id in db.artifacts
    requires forall i, j | 0 <= i < j < |ancestors| :: ancestors[i].id != ancestors[j].id
    requires forall a :: a in ancestors <==> a.id in db.artifacts && db.artifacts[a.id] == a && Ancestor(db, id, a.id)
    ensures var all := DecisionsFor(db.decisions, id) + DecisionsOfAll(db.decisions, ancestors);
      multiset(all)[d] ==
        if d.artifactId == id then (if Ancestor(db, id, id) then 2 else 1) * multiset(db.decisions)[d]
        else if d.artifactId in db.artifacts && Ancestor(db, id, d.artifactId) then multiset(db.decisions)[d]
        else 0
  {
    FilterCounts(db.decisions, id, d);
    AllCounts(db.decisions, ancestors, d);
    if d.artifactId in db.artifacts && Ancestor(db, id, d.artifactId) {
      assert db.artifacts[d.artifactId] in ancestors;
    }
  }
}
