/** The state-checkable invariants: the checks as loops over the store, what an empty audit means,
    and when it stays empty. */
module Audit {

  import opened Contracts
  import opened Ordering
  import opened Tables
  import opened Ranking
  import opened Commit
  import opened Intake
  import opened KernelRuns

  datatype Violation = Violation(section: string, subject: Id)

  predicate HasEdge(db: Db, id: Id) {
    exists k | k in db.operations :: db.operations[k].outputId == id
  }

  predicate ProvenanceSound(db: Db, a: Artifact) {
    a.isRoot || a.status !in {Accepted, Tentative} || HasEdge(db, a.id)
  }

  predicate PointersSound(db: Db, a: Artifact) {
    && (a.status == Superseded ==> a.supersededBy.Some? && a.supersededBy.value in db.artifacts)
    && (a.status == Revised && a.revisedBy.Some? ==> a.revisedBy.value in db.artifacts)
  }

  /** Every accepted or tentative non-root has an operation edge, and every replacement pointer
      resolves. */
  ghost predicate AuditsEmpty(db: Db) {
    forall id | id in db.artifacts :: ProvenanceSound(db, db.artifacts[id]) && PointersSound(db, db.artifacts[id])
  }

  // ------------------------------------------------------------------ the checks

  ghost predicate NoneTwice(ops: seq<Operation>) {
    forall i, j | 0 <= i < j < |ops| :: ops[i].opId != ops[j].opId
  }

  /** The list holds exactly the rows of the dictionary, each once, under their own keys. */
  ghost predicate Lists(ops: seq<Operation>, seen: map<Id, Operation>) {
    && NoneTwice(ops)
    && (forall i | 0 <= i < |ops| :: ops[i].opId in seen && seen[ops[i].opId] == ops[i])
    && (forall o | o in seen :: seen[o] in ops)
  }

  lemma ListGrows(ops: seq<Operation>, seen: map<Id, Operation>, op: Operation)
    requires Lists(ops, seen) && op.opId !in seen
    ensures Lists(ops + [op], seen[op.opId := op])
  {
    var after := seen[op.opId := op];
    forall o | o in after ensures after[o] in ops + [op] {
      if o != op.opId { assert seen[o] in ops; }
    }
  }

  /** The keys of the operations that output one of `ids`. */
  ghost function OutputsAny(db: Db, ids: set<Id>): set<Id> {
    set o | o in db.operations && db.operations[o].outputId in ids
  }

  ghost function IdsOf(artifacts: seq<Artifact>): set<Id> {
    set i | 0 <= i < |artifacts| :: artifacts[i].id
  }

  /** `setdefault` for each of some operations. */
  method AddNew(db: Db, ops0: seq<Operation>, seen0: map<Id, Operation>, into: seq<Operation>)
    returns (ops: seq<Operation>, seen: map<Id, Operation>)
    requires Lists(ops0, seen0)
    requires forall o | o in seen0 :: o in db.operations && seen0[o] == db.operations[o]
    requires forall op | op in into :: op.opId in db.operations && db.operations[op.opId] == op
    ensures Lists(ops, seen)
    ensures seen.Keys == seen0.Keys + set n | 0 <= n < |into| :: into[n].opId
    ensures forall o | o in seen :: o in db.operations && seen[o] == db.operations[o]
  {
    hide Lists;
    ops, seen := ops0, seen0;
    for j := 0 to |into|
      invariant Lists(ops, seen)
      invariant seen.Keys == seen0.Keys + set n | 0 <= n < j :: into[n].opId
      invariant forall o | o in seen :: o in db.operations && seen[o] == db.operations[o]
    {
      assert into[j] in into;
      if into[j].opId !in seen {
        ListGrows(ops, seen, into[j]);
        seen := seen[into[j].opId := into[j]];
        ops := ops + [into[j]];
      }
    }
  }

  lemma IdsOfPrefix(artifacts: seq<Artifact>, i: nat)
    requires i < |artifacts|
    ensures IdsOf(artifacts[..i + 1]) == IdsOf(artifacts[..i]) + {artifacts[i].id}
  {
    assert forall n | 0 <= n < i :: artifacts[..i + 1][n] == artifacts[..i][n];
    assert artifacts[..i + 1][i] == artifacts[i];
  }

  /** Every operation into the given artifacts, each once. */
  method AllOperations(db: Db, artifacts: seq<Artifact>) returns (ops: seq<Operation>)
    requires Keyed(db)
    ensures NoneTwice(ops)
    ensures forall i | 0 <= i < |ops| ::
      ops[i].opId in OutputsAny(db, IdsOf(artifacts)) && db.operations[ops[i].opId] == ops[i]
    ensures forall o | o in OutputsAny(db, IdsOf(artifacts)) :: db.operations[o] in ops
  {
    var seen: map<Id, Operation> := map[];
    ops := [];
    for i := 0 to |artifacts|
      invariant Lists(ops, seen)
      invariant seen.Keys == OutputsAny(db, IdsOf(artifacts[..i]))
      invariant forall o | o in seen :: o in db.operations && seen[o] == db.operations[o]
    {
      IntoCovers(db, artifacts[i].id);
      IdsOfPrefix(artifacts, i);
      ops, seen := AddNew(db, ops, seen, OperationsInto(db.operations, artifacts[i].id));
    }
    assert artifacts[..|artifacts|] == artifacts;
  }

  lemma IntoCovers(db: Db, id: Id)
    requires Keyed(db)
    ensures var into := OperationsInto(db.operations, id);
      (set n | 0 <= n < |into| :: into[n].opId) == OutputsAny(db, {id})
  {
    var into := OperationsInto(db.operations, id);
    forall o ensures o in (set n | 0 <= n < |into| :: into[n].opId) <==> o in OutputsAny(db, {id}) {
      if o in OutputsAny(db, {id}) {
        assert o in Into(db.operations, id);
        assert db.operations[o] in into;
      }
      if o in (set n | 0 <= n < |into| :: into[n].opId) {
        var n :| 0 <= n < |into| && into[n].opId == o;
        assert into[n] in into;
      }
    }
  }

  lemma AllIds(db: Db)
    requires Keyed(db)
    ensures IdsOf(Query(db.artifacts, None, None)) == db.artifacts.Keys
  {
    var rows := Query(db.artifacts, None, None);
    AllRows(db);
    forall id ensures id in IdsOf(rows) <==> id in db.artifacts {
      if id in db.artifacts {
        assert db.artifacts[id] in rows;
        var i :| 0 <= i < |rows| && rows[i] == db.artifacts[id];
      }
      if id in IdsOf(rows) {
        var i :| 0 <= i < |rows| && rows[i].id == id;
        assert rows[i] in rows;
      }
    }
  }

  /** `all_operations` over the whole artifact table is the whole operation table exactly when
      every operation outputs a stored artifact. */
  method AllOperationsOfStore(db: Db) returns (ops: seq<Operation>)
    requires Keyed(db)
    ensures NoneTwice(ops)
    ensures forall i | 0 <= i < |ops| :: ops[i].opId in db.operations && db.operations[ops[i].opId] == ops[i]
    ensures (forall o | o in db.operations :: db.operations[o] in ops)
      <==> OutputsStored(db)
  {
    var artifacts := Query(db.artifacts, None, None);
    ops := AllOperations(db, artifacts);
    AllIds(db);
    forall o | o in db.operations
      ensures db.operations[o] in ops <==> db.operations[o].outputId in db.artifacts
    {
      if db.operations[o] in ops {
        var i :| 0 <= i < |ops| && ops[i] == db.operations[o];
      }
    }
  }

  method Duplicates(values: seq<Id>) returns (dups: seq<Id>)
    ensures forall d :: d in dups <==> exists i, j :: 0 <= i < j < |values| && values[i] == values[j] == d
    ensures forall i, j | 0 <= i < j < |dups| :: TextLess(dups[i], dups[j])
  {
    var seen: set<Id>, found: set<Id> := {}, {};
    for n := 0 to |values|
      invariant seen == set i | 0 <= i < n :: values[i]
      invariant forall d :: d in found <==> exists i, j :: 0 <= i < j < n && values[i] == values[j] == d
    {
      if values[n] in seen { found := found + {values[n]}; }
      seen := seen + {values[n]};
    }
    ghost var stamps := map d | d in found :: "";
    dups := Ordered(map d | d in found :: "", found);
    OrderedSorted(map d | d in found :: "", found);
  }

  lemma SomeMember<T>(s: seq<T>)
    ensures s != [] ==> exists x :: x in s
  {
    if s != [] { assert s[0] in s; }
  }

  method Report(section: string, subjects: seq<Id>) returns (violations: seq<Violation>)
    ensures |violations| == |subjects|
    ensures forall i | 0 <= i < |subjects| :: violations[i] == Violation(section, subjects[i])
  {
    violations := [];
    for i := 0 to |subjects|
      invariant |violations| == i
      invariant forall j | 0 <= j < i :: violations[j] == Violation(section, subjects[j])
    {
      violations := violations + [Violation(section, subjects[i])];
    }
  }

  /** Rows are keyed, so this check can never report anything. */
  method CheckUniqueIds(db: Db) returns (violations: seq<Violation>)
    requires Keyed(db)
    ensures violations == []
  {
    var artifacts := Query(db.artifacts, None, None);
    var dups := Duplicates(seq(|artifacts|, i requires 0 <= i < |artifacts| => artifacts[i].id));
    violations := Report("5.1", dups);
    QueryDistinct(db, None, None);
    SomeMember(dups);
    var ops := AllOperations(db, artifacts);
    var opDups := Duplicates(seq(|ops|, i requires 0 <= i < |ops| => ops[i].opId));
    var more := Report("5.1", opDups);
    SomeMember(opDups);
    violations := violations + more;
  }

  method CheckProvenance(db: Db) returns (violations: seq<Violation>)
    requires Keyed(db)
    ensures violations == [] <==> forall id | id in db.artifacts :: ProvenanceSound(db, db.artifacts[id])
    ensures forall v | v in violations :: v.subject in db.artifacts && !ProvenanceSound(db, db.artifacts[v.subject])
  {
    hide HasEdge, Query, Keyed, OperationsInto;
    violations := [];
    var rows := Query(db.artifacts, None, None);
    AllRows(db);
    for i := 0 to |rows|
      invariant violations == [] <==> forall j | 0 <= j < i :: ProvenanceSound(db, rows[j])
      invariant forall v | v in violations :: v.subject in db.artifacts && !ProvenanceSound(db, db.artifacts[v.subject])
    {
      var a := rows[i];
      assert a in rows;
      if a.isRoot { continue; }
      if a.status !in {Accepted, Tentative} { continue; }
      EdgeSeen(db, a.id);
      if OperationsInto(db.operations, a.id) == [] {
        violations := violations + [Violation("5.4", a.id)];
      }
    }
  }

  lemma EdgeSeen(db: Db, id: Id)
    ensures OperationsInto(db.operations, id) == [] <==> !HasEdge(db, id)
  {
    if HasEdge(db, id) {
      var k :| k in db.operations && db.operations[k].outputId == id;
      assert k in Into(db.operations, id);
    }
    if OperationsInto(db.operations, id) != [] {
      var k :| k in Into(db.operations, id);
    }
  }

  /** A full query returns exactly the rows of the table. */
  lemma AllRows(db: Db)
    requires Keyed(db)
    ensures forall a | a in Query(db.artifacts, None, None) :: a.id in db.artifacts && db.artifacts[a.id] == a
    ensures forall id | id in db.artifacts :: db.artifacts[id] in Query(db.artifacts, None, None)
  {
    assert forall id | id in db.artifacts :: id in Matching(db.artifacts, None, None);
  }

  method MissingOutputs(db: Db, ops: seq<Operation>) returns (violations: seq<Violation>)
    ensures violations == [] <==>
      forall j | 0 <= j < |ops| :: ops[j].outputId == "" || ops[j].outputId in db.artifacts
  {
    violations := [];
    for i := 0 to |ops|
      invariant violations == [] <==>
        forall j | 0 <= j < i :: ops[j].outputId == "" || ops[j].outputId in db.artifacts
    {
      if ops[i].outputId != "" && ops[i].outputId !in db.artifacts {
        violations := violations + [Violation("5.5", ops[i].opId)];
      }
    }
  }

  /** The operations it looks at are reached through the artifacts they output, so an operation
      whose output is missing is never looked at and this check can never report one. */
  method CheckFailuresRetained(db: Db) returns (violations: seq<Violation>)
    requires Keyed(db)
    ensures violations == []
  {
    var ops := AllOperations(db, Query(db.artifacts, None, None));
    AllIds(db);
    violations := MissingOutputs(db, ops);
  }

  function PointerViolations(db: Db, a: Artifact): (vs: seq<Violation>)
    ensures vs == [] <==> PointersSound(db, a)
    ensures forall v | v in vs :: v.subject == a.id
  {
    (if a.status == Superseded && (a.supersededBy.None? || a.supersededBy.value !in db.artifacts)
     then [Violation("6", a.id)] else [])
    + (if a.status == Revised && a.revisedBy.Some? && a.revisedBy.value !in db.artifacts
       then [Violation("6", a.id)] else [])
  }

  method CheckTerminalPointers(db: Db) returns (violations: seq<Violation>)
    requires Keyed(db)
    ensures violations == [] <==> forall id | id in db.artifacts :: PointersSound(db, db.artifacts[id])
    ensures forall v | v in violations :: v.subject in db.artifacts && !PointersSound(db, db.artifacts[v.subject])
  {
    hide PointerViolations, Query, Keyed;
    violations := [];
    var rows := Query(db.artifacts, None, None);
    AllRows(db);
    for i := 0 to |rows|
      invariant violations == [] <==> forall j | 0 <= j < i :: PointersSound(db, rows[j])
      invariant forall v | v in violations :: v.subject in db.artifacts && !PointersSound(db, db.artifacts[v.subject])
    {
      assert rows[i] in rows;
      var found := PointerViolations(db, rows[i]);
      assert found != [] ==> found[0] in found;
      violations := violations + found;
    }
    assert forall id | id in db.artifacts :: db.artifacts[id] in rows;
  }

  lemma AuditsEmptyMeans(db: Db)
    requires Keyed(db)
    ensures AuditsEmpty(db) <==> forall id | id in db.artifacts ::
      && (!db.artifacts[id].isRoot && db.artifacts[id].status in {Accepted, Tentative} ==>
            exists k :: k in db.operations && db.operations[k].outputId == id)
      && (db.artifacts[id].status == Superseded ==>
            db.artifacts[id].supersededBy.Some? && db.artifacts[id].supersededBy.value in db.artifacts)
      && (db.artifacts[id].status == Revised && db.artifacts[id].revisedBy.Some? ==>
            db.artifacts[id].revisedBy.value in db.artifacts)
  {
    forall id | id in db.artifacts
      ensures HasEdge(db, id) <==> exists k :: k in db.operations && db.operations[k].outputId == id
    {
    }
  }

  /** The whole audit: empty exactly when provenance and pointers are sound. */
  method RunAudit(db: Db) returns (violations: seq<Violation>)
    requires Keyed(db)
    ensures violations == [] <==> AuditsEmpty(db)
    ensures violations == [] <==> forall id | id in db.artifacts ::
      && (!db.artifacts[id].isRoot && db.artifacts[id].status in {Accepted, Tentative} ==>
            exists k :: k in db.operations && db.operations[k].outputId == id)
      && (db.artifacts[id].status == Superseded ==>
            db.artifacts[id].supersededBy.Some? && db.artifacts[id].supersededBy.value in db.artifacts)
      && (db.artifacts[id].status == Revised && db.artifacts[id].revisedBy.Some? ==>
            db.artifacts[id].revisedBy.value in db.artifacts)
  {
    AuditsEmptyMeans(db);
    hide AuditsEmpty;
    var v1 := CheckUniqueIds(db);
    var v2 := CheckProvenance(db);
    var v3 := CheckFailuresRetained(db);
    var v4 := CheckTerminalPointers(db);
    violations := v1 + v2 + v3 + v4;
  }

  // ------------------------------------------------------------------ what each unit does to the audit

  lemma EdgesGrow(db: Db, a: Artifact, op: Operation, next: Db, id: Id)
    requires ProposeRow(db, a, op) == Ok(next) && HasEdge(db, id)
    ensures HasEdge(next, id)
  {
    var k :| k in db.operations && db.operations[k].outputId == id;
    assert k in next.operations && next.operations[k].outputId == id;
  }

  /** No proposal can make the audit report anything, whatever it carries. */
  lemma ProposeKeepsEmpty(db: Db, a: Artifact, op: Operation, next: Db)
    requires Keyed(db) && AuditsEmpty(db) && ProposeRow(db, a, op) == Ok(next)
    ensures AuditsEmpty(next)
  {
    hide HasEdge;
    forall id | id in next.artifacts
      ensures ProvenanceSound(next, next.artifacts[id]) && PointersSound(next, next.artifacts[id])
    {
      if id != a.id && HasEdge(db, id) { EdgesGrow(db, a, op, next, id); }
    }
  }

  lemma SameEdges(db: Db, next: Db, id: Id)
    requires next.operations == db.operations
    ensures HasEdge(next, id) == HasEdge(db, id)
  {
  }

  /** Nor can a revision link. */
  lemma LinkKeepsEmpty(db: Db, oldId: Id, newId: Id, next: Db)
    requires Keyed(db) && AuditsEmpty(db) && IsRevised(db, oldId) && LinkRow(db, oldId, newId) == Ok(next)
    ensures AuditsEmpty(next)
  {
    hide HasEdge;
    forall id | id in next.artifacts
      ensures ProvenanceSound(next, next.artifacts[id]) && PointersSound(next, next.artifacts[id])
    {
      SameEdges(db, next, id);
      assert ProvenanceSound(db, db.artifacts[id]);
    }
  }

  lemma FailureKeepsEmpty(db: Db, row: CycleFailure)
    requires AuditsEmpty(db)
    ensures AuditsEmpty(FailureRow(db, row))
  {
    hide HasEdge;
    var next := FailureRow(db, row);
    forall id | id in next.artifacts
      ensures ProvenanceSound(next, next.artifacts[id]) && PointersSound(next, next.artifacts[id])
    {
      SameEdges(db, next, next.artifacts[id].id);
    }
  }

  /** The artifact was proposed with a pointer to a revision that does not exist. */
  predicate DanglingPreset(db: Db, id: Id)
    requires id in db.artifacts
  {
    db.artifacts[id].revisedBy.Some? && db.artifacts[id].revisedBy.value !in db.artifacts
  }

  /** A commit keeps the audit empty exactly when it does not send back an artifact whose preset
      pointer to a revision dangles. */
  lemma CommitKeepsEmptyExactlyWhen(db: Db, id: Id, gated: set<string>, identity: string,
                                    reply: Reply, exhausted: bool, now: Timestamp, next: Db)
    requires Keyed(db) && AuditsEmpty(db)
    requires Committed(db, id, gated, identity, reply, exhausted, now) == Ok(next)
    ensures reply.Verdict? && id in db.artifacts
    ensures AuditsEmpty(next) <==> !(reply.bundle.status == Revised && !exhausted && DanglingPreset(db, id))
  {
    hide OperationsInto, RowsOf, Committed, HasEdge;
    CommittedSettles(db, id, gated, identity, reply, exhausted, now);
    var a, b := db.artifacts[id], reply.bundle;
    EdgeSeen(db, id);
    SameEdges(db, next, id);
    forall i | i in next.artifacts && i != id
      ensures ProvenanceSound(next, next.artifacts[i]) && PointersSound(next, next.artifacts[i])
    {
      SameEdges(db, next, i);
      if !(b.status == Accepted && b.supersedes == Some(i)) {
        assert next.artifacts[i] == db.artifacts[i];
      }
    }
    assert ProvenanceSound(next, next.artifacts[id]);
    assert PointersSound(next, next.artifacts[id]) <==> !(b.status == Revised && !exhausted && DanglingPreset(db, id));
  }

  // ------------------------------------------------------------------ whole runs

  /** What a run keeps whose proposals carry no dangling pointer. */
  ghost predicate Kept(db: Db) {
    && Keyed(db) && AuditsEmpty(db)
    && forall id | id in db.artifacts :: !DanglingPreset(db, id)
  }

  lemma UnitKeepsEmpty(k: Kernel, db: Db, next: Db)
    requires Kept(db) && IsUnit(k, PresetResolves, db, next)
    ensures Kept(next)
  {
    hide Committed, AuditsEmpty, HasEdge, PointersSound, ProvenanceSound, Evolves;
    UnitEvolves(k, PresetResolves, db, next);
    if next != db {
      var u :| Does(k, PresetResolves, db, u, next);
      match u
      case UPropose(a, op) =>
        ProposeKeepsEmpty(db, a, op, next);
      case ULink(oldId, newId) =>
        LinkKeepsEmpty(db, oldId, newId, next);
      case UCommit(id, reply, exhausted, now) =>
        CommitKeepsEmptyExactlyWhen(db, id, k.gated.Keys, k.identity, reply, exhausted, now, next);
        CommitKeepsPresets(db, id, k.gated.Keys, k.identity, reply, exhausted, now, next);
      case UFailure(row) =>
        FailureKeepsEmpty(db, row);
    }
  }

  lemma CommitKeepsPresets(db: Db, id: Id, gated: set<string>, identity: string,
                           reply: Reply, exhausted: bool, now: Timestamp, next: Db)
    requires Keyed(db) && Committed(db, id, gated, identity, reply, exhausted, now) == Ok(next)
    ensures next.artifacts.Keys == db.artifacts.Keys
    ensures forall i | i in db.artifacts :: DanglingPreset(next, i) == DanglingPreset(db, i)
  {
    hide OperationsInto, RowsOf, Committed;
    CommittedSettles(db, id, gated, identity, reply, exhausted, now);
    var b := reply.bundle;
    forall i | i in db.artifacts ensures DanglingPreset(next, i) == DanglingPreset(db, i) {
      if i != id && !(b.status == Accepted && b.supersedes == Some(i)) {
        assert next.artifacts[i] == db.artifacts[i];
      }
    }
  }

  lemma {:induction false} StatesKept(k: Kernel, states: seq<Db>, i: nat)
    requires UnitSteps(k, PresetResolves, states) && i < |states| && Kept(states[0])
    ensures Kept(states[i])
  {
    if i > 0 {
      StatesKept(k, states, i - 1);
      assert IsUnit(k, PresetResolves, states[i - 1], states[i - 1 + 1]);
      UnitKeepsEmpty(k, states[i - 1], states[i]);
    }
  }

  /** Every state a run passes through, mid-submission ones included, audits empty, as long as no
      proposal carries a preset pointer to a revision that is not stored. Nothing is asked of the
      operations. */
  lemma RunsAuditEmpty(k: Kernel, run: seq<Event>, i: nat)
    requires ObeyingRun(k, PresetResolves, EMPTY_DB, run) && i < |Visited(k, EMPTY_DB, run)|
    ensures Keyed(Visited(k, EMPTY_DB, run)[i]) && AuditsEmpty(Visited(k, EMPTY_DB, run)[i])
  {
    RunIsUnits(k, PresetResolves, EMPTY_DB, run);
    StatesKept(k, Visited(k, EMPTY_DB, run), i);
  }

  /** Some artifact is sent back whose preset pointer to a revision dangles. */
  ghost predicate SendsBackDangling(db: Db, next: Db) {
    exists id | id in db.artifacts && id in next.artifacts ::
      db.artifacts[id].status == Proposed && next.artifacts[id].status == Revised && DanglingPreset(db, id)
  }

  lemma CommitSendsBack(db: Db, id: Id, gated: set<string>, identity: string,
                        reply: Reply, exhausted: bool, now: Timestamp, next: Db)
    requires Keyed(db) && Committed(db, id, gated, identity, reply, exhausted, now) == Ok(next)
    ensures reply.Verdict? && id in db.artifacts
    ensures SendsBackDangling(db, next)
      <==> reply.bundle.status == Revised && !exhausted && DanglingPreset(db, id)
  {
    hide Committed, RowsOf, HasProvenance, DanglingPreset, Consistent;
    CommittedSettles(db, id, gated, identity, reply, exhausted, now);
    var b := reply.bundle;
    forall i | i in db.artifacts && i != id
      ensures next.artifacts[i].status == db.artifacts[i].status || next.artifacts[i].status == Superseded
    {
      if !(b.status == Accepted && b.supersedes == Some(i)) {
        assert next.artifacts[i] == db.artifacts[i];
      }
    }
  }

  /** Whatever was proposed: one unit of work keeps the audit empty exactly when it does not send
      back an artifact whose preset pointer dangles. */
  lemma UnitKeepsEmptyExactlyWhen(k: Kernel, db: Db, next: Db)
    requires Keyed(db) && AuditsEmpty(db) && IsUnit(k, AnyProposal, db, next)
    ensures AuditsEmpty(next) <==> !SendsBackDangling(db, next)
  {
    hide Committed, AuditsEmpty, DanglingPreset;
    if next != db {
      var u :| Does(k, AnyProposal, db, u, next);
      match u
      case UPropose(a, op) =>
        ProposeKeepsEmpty(db, a, op, next);
      case ULink(oldId, newId) =>
        LinkKeepsEmpty(db, oldId, newId, next);
      case UCommit(id, reply, exhausted, now) =>
        CommitKeepsEmptyExactlyWhen(db, id, k.gated.Keys, k.identity, reply, exhausted, now, next);
        CommitSendsBack(db, id, k.gated.Keys, k.identity, reply, exhausted, now, next);
      case UFailure(row) =>
        FailureKeepsEmpty(db, row);
    }
  }

  lemma {:induction false} StatesAuditEmpty(k: Kernel, states: seq<Db>, i: nat)
    requires UnitSteps(k, AnyProposal, states) && i < |states| && Keyed(states[0]) && AuditsEmpty(states[0])
    requires forall j | 0 <= j < |states| - 1 :: !SendsBackDangling(states[j], states[j + 1])
    ensures AuditsEmpty(states[i])
  {
    hide AuditsEmpty, SendsBackDangling, Keyed;
    if i > 0 {
      StatesAuditEmpty(k, states, i - 1);
      StatesKeyed(k, AnyProposal, states, i - 1);
      assert IsUnit(k, AnyProposal, states[i - 1], states[i - 1 + 1]);
      assert !SendsBackDangling(states[i - 1], states[i - 1 + 1]);
      UnitKeepsEmptyExactlyWhen(k, states[i - 1], states[i]);
    }
  }

  /** Over every run whatever: all states audit empty exactly when no step of the run sends back an
      artifact whose preset pointer to a revision dangles at that moment. */
  lemma RunsAuditEmptyExactlyWhen(k: Kernel, run: seq<Event>)
    ensures var states := Visited(k, EMPTY_DB, run);
      (forall i | 0 <= i < |states| :: AuditsEmpty(states[i]))
      <==> (forall i | 0 <= i < |states| - 1 :: !SendsBackDangling(states[i], states[i + 1]))
  {
    hide AuditsEmpty, SendsBackDangling, Keyed;
    var states := Visited(k, EMPTY_DB, run);
    AnyRunObeys(k, EMPTY_DB, run);
    RunIsUnits(k, AnyProposal, EMPTY_DB, run);
    EmptyIsSound();
    if forall i | 0 <= i < |states| :: AuditsEmpty(states[i]) {
      forall i | 0 <= i < |states| - 1 ensures !SendsBackDangling(states[i], states[i + 1]) {
        StatesKeyed(k, AnyProposal, states, i);
        assert IsUnit(k, AnyProposal, states[i], states[i + 1]);
        UnitKeepsEmptyExactlyWhen(k, states[i], states[i + 1]);
      }
    }
    if forall i | 0 <= i < |states| - 1 :: !SendsBackDangling(states[i], states[i + 1]) {
      forall i | 0 <= i < |states| ensures AuditsEmpty(states[i]) { StatesAuditEmpty(k, states, i); }
    }
  }

  lemma EmptyIsSound()
    ensures Keyed(EMPTY_DB) && AuditsEmpty(EMPTY_DB)
  {
  }

  const DANGLING := Artifact("a", "T", Inline(JObj(map[])), Proposed, "proposer", "t", None, Some("gone"), false, [])
  const PLAIN_EDGE := Operation("op", "submit", [], "a", OpSuccess, "t")

  /** The condition is needed: a proposal with a dangling preset pointer is accepted by the store and
      leaves the audit empty, and makes it report as soon as it is sent back. */
  lemma DanglingPresetBreaksTheAudit(k: Kernel) returns (d1: Db, d2: Db)
    requires "T" in k.gated && k.identity != "proposer"
    ensures ProposeRow(EMPTY_DB, DANGLING, PLAIN_EDGE) == Ok(d1) && AuditsEmpty(d1)
    ensures Committed(d1, "a", k.gated.Keys, k.identity, Verdict(VerdictBundle(Revised, [], None)), false, "t") == Ok(d2)
    ensures !AuditsEmpty(d2)
  {
    d1 := Db(map["a" := DANGLING], map["op" := PLAIN_EDGE], [], []);
    ProposeKeepsEmpty(EMPTY_DB, DANGLING, PLAIN_EDGE, d1);
    var reply := Verdict(VerdictBundle(Revised, [], None));
    assert RowsOf("a", [], "t") == [] && d1.decisions + [] == d1.decisions;
    d2 := d1.(artifacts := d1.artifacts["a" := DANGLING.(status := Revised)]);
    assert SetStatusRow(d1, "a", Revised) == Ok(d2);
    assert Committed(d1, "a", k.gated.Keys, k.identity, reply, false, "t") == Ok(d2);
    assert "gone" !in d1.artifacts by { assert |"gone"| != |"a"|; }
    CommitKeepsEmptyExactlyWhen(d1, "a", k.gated.Keys, k.identity, reply, false, "t", d2);
  }

  // ------------------------------------------------------------------ the whole operation table

  lemma UnitKeepsOutputs(k: Kernel, db: Db, next: Db)
    requires OutputsStored(db) && IsUnit(k, OutputsOwn, db, next)
    ensures OutputsStored(next)
  {
    if next != db {
      var u :| Does(k, OutputsOwn, db, u, next);
      if u.UCommit? {
        CommittedKeepsRows(db, u.id, k.gated.Keys, k.identity, u.reply, u.exhausted, u.now);
      }
    }
  }

  lemma {:induction false} StatesOutputStored(k: Kernel, states: seq<Db>, i: nat)
    requires UnitSteps(k, OutputsOwn, states) && i < |states| && OutputsStored(states[0])
    ensures OutputsStored(states[i])
  {
    hide OutputsStored;
    if i > 0 {
      StatesOutputStored(k, states, i - 1);
      assert IsUnit(k, OutputsOwn, states[i - 1], states[i - 1 + 1]);
      UnitKeepsOutputs(k, states[i - 1], states[i]);
    }
  }

  /** In every state of a run whose operations output the artifacts they come with, the operations
      into the artifacts are the whole operation table. */
  lemma RunsOutputStored(k: Kernel, run: seq<Event>, i: nat)
    requires ObeyingRun(k, OutputsOwn, EMPTY_DB, run) && i < |Visited(k, EMPTY_DB, run)|
    ensures OutputsStored(Visited(k, EMPTY_DB, run)[i])
  {
    RunIsUnits(k, OutputsOwn, EMPTY_DB, run);
    StatesOutputStored(k, Visited(k, EMPTY_DB, run), i);
  }

  /** The condition is needed, and the audit does not see its breach: one seeded row whose operation
      outputs something else leaves an operation outside `all_operations`, and the audit empty. */
  lemma StrayOutputIsUnseen(now: Timestamp)
    ensures var a := Artifact("a", "T", Inline(JNull), Proposed, "me", now, None, None, true, []);
      var op := Operation("op", "load", [], "elsewhere", OpSuccess, now);
      ProposeRow(EMPTY_DB, a, op).Ok?
      && !OutputsStored(ProposeRow(EMPTY_DB, a, op).value) && AuditsEmpty(ProposeRow(EMPTY_DB, a, op).value)
  {
    var op := Operation("op", "load", [], "elsewhere", OpSuccess, now);
    var a := Artifact("a", "T", Inline(JNull), Proposed, "me", now, None, None, true, []);
    var db := ProposeRow(EMPTY_DB, a, op).value;
    assert "op" in db.operations && db.operations["op"].outputId == "elsewhere";
    assert |"elsewhere"| != |"a"|;
    ProposeKeepsEmpty(EMPTY_DB, a, op, db);
  }
}
