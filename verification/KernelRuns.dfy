/** Whole runs of the kernel, with any verifier and any failures short of a raised COMMIT: what every
    reachable state keeps. */
module KernelRuns {

  import opened Contracts
  import opened Lifecycle
  import opened Tables
  import opened Commit
  import opened Intake

  /** One thing that happens to the store. `stop` is how many units of work a submission got
      through before some collaborator raised. */
  datatype Event =
    | Submit(env: ProposalEnvelope, reply: Reply, kids: seq<Reply>, now: Timestamp, stop: nat)
    | Seed(artifact: Artifact, operation: Operation, now: Timestamp)
    | CycleFailed(row: CycleFailure)

  ghost function EventTrace(k: Kernel, db: Db, e: Event): (trace: seq<Db>)
    ensures trace != [] && trace[0] == db
  {
    match e
    case Submit(env, reply, kids, now, stop) =>
      var full := SubmitTrace(k, db, env, reply, kids, now);
      if stop < |full| then full[..stop + 1] else full
    case Seed(a, op, now) =>
      (match ProposeRow(db, StampedArtifact(a, now), StampedOperation(op, now))
       case Ok(next) => [db, next]
       case Err(_) => [db])
    case CycleFailed(row) => [db, FailureRow(db, row)]
  }

  ghost function After(k: Kernel, db: Db, e: Event): Db {
    var trace := EventTrace(k, db, e);
    trace[|trace| - 1]
  }

  /** Every state a run passes through, in order. */
  ghost function Visited(k: Kernel, db: Db, run: seq<Event>): (states: seq<Db>)
    ensures states != [] && states[0] == db
    decreases |run|
  {
    if run == [] then [db]
    else
      var trace := EventTrace(k, db, run[0]);
      trace[..|trace| - 1] + Visited(k, trace[|trace| - 1], run[1..])
  }

  // ------------------------------------------------------------------ units of work

  /** What is asked of the proposals of a run: nothing, that an operation outputs the artifact it
      comes with, or that a preset pointer to a revision points at a stored artifact. */
  datatype Rule = AnyProposal | OutputsOwn | PresetResolves

  ghost predicate Obeys(rule: Rule, db: Db, a: Artifact, op: Operation) {
    match rule
    case AnyProposal => true
    case OutputsOwn => op.outputId == a.id
    case PresetResolves => a.revisedBy.Some? ==> a.revisedBy.value in db.artifacts || a.revisedBy.value == a.id
  }

  ghost predicate ObeyingEvent(rule: Rule, db: Db, e: Event) {
    match e
    case Submit(env, _, _, _, _) => Obeys(rule, db, env.artifact, env.operation)
    case Seed(a, op, _) => Obeys(rule, db, a, op)
    case CycleFailed(_) => true
  }

  ghost predicate ObeyingRun(k: Kernel, rule: Rule, db: Db, run: seq<Event>)
    decreases |run|
  {
    run != [] ==> ObeyingEvent(rule, db, run[0]) && ObeyingRun(k, rule, After(k, db, run[0]), run[1..])
  }

  lemma {:induction false} AnyRunObeys(k: Kernel, db: Db, run: seq<Event>)
    ensures ObeyingRun(k, AnyProposal, db, run)
    decreases |run|
  {
    if run != [] { AnyRunObeys(k, After(k, db, run[0]), run[1..]); }
  }

  datatype Unit =
    | UPropose(a: Artifact, op: Operation)
    | ULink(oldId: Id, newId: Id)
    | UCommit(id: Id, reply: Reply, exhausted: bool, now: Timestamp)
    | UFailure(row: CycleFailure)

  /** `next` is `db` after one completed unit of work; its proposal, if any, obeys the rule. */
  ghost predicate Does(k: Kernel, rule: Rule, db: Db, u: Unit, next: Db) {
    match u
    case UPropose(a, op) => ProposeRow(db, a, op) == Ok(next) && Obeys(rule, db, a, op)
    case ULink(oldId, newId) => IsRevised(db, oldId) && LinkRow(db, oldId, newId) == Ok(next)
    case UCommit(id, reply, exhausted, now) =>
      Committed(db, id, k.gated.Keys, k.identity, reply, exhausted, now) == Ok(next)
    case UFailure(row) => next == FailureRow(db, row)
  }

  ghost predicate IsUnit(k: Kernel, rule: Rule, db: Db, next: Db) {
    next == db || exists u :: Does(k, rule, db, u, next)
  }

  ghost predicate UnitSteps(k: Kernel, rule: Rule, states: seq<Db>) {
    forall i | 0 <= i < |states| - 1 :: IsUnit(k, rule, states[i], states[i + 1])
  }

  lemma CommittedKeepsRows(db: Db, id: Id, gated: set<string>, identity: string,
                           reply: Reply, exhausted: bool, now: Timestamp)
    requires Committed(db, id, gated, identity, reply, exhausted, now).Ok?
    ensures Committed(db, id, gated, identity, reply, exhausted, now).value.artifacts.Keys == db.artifacts.Keys
    ensures Committed(db, id, gated, identity, reply, exhausted, now).value.operations == db.operations
  {
    hide HasProvenance, Consistent, RowsOf, IsLegalTransition;
  }

  lemma ProposeIsUnit(k: Kernel, rule: Rule, db: Db, a: Artifact, op: Operation, next: Db)
    requires ProposeRow(db, a, op) == Ok(next) && Obeys(rule, db, a, op)
    ensures IsUnit(k, rule, db, next)
    ensures db.artifacts.Keys <= next.artifacts.Keys && a.id in next.artifacts
  {
    assert Does(k, rule, db, UPropose(a, op), next);
  }

  lemma CommitIsUnit(k: Kernel, rule: Rule, db: Db, id: Id, reply: Reply, exhausted: bool, now: Timestamp, next: Db)
    requires Committed(db, id, k.gated.Keys, k.identity, reply, exhausted, now) == Ok(next)
    ensures IsUnit(k, rule, db, next)
    ensures db.artifacts.Keys == next.artifacts.Keys
  {
    assert Does(k, rule, db, UCommit(id, reply, exhausted, now), next);
    CommittedKeepsRows(db, id, k.gated.Keys, k.identity, reply, exhausted, now);
  }

  lemma ChildObeys(rule: Rule, db: Db, parent: Artifact, child: Child, index: nat, now: Timestamp)
    ensures Obeys(rule, db, ChildRow(parent, child, index, now), ChildEdge(parent, child, index, now))
    ensures ChildEdge(parent, child, index, now).parents == [parent.id]
  {
  }

  lemma TakenObeys(k: Kernel, rule: Rule, db: Db, env: ProposalEnvelope, now: Timestamp)
    requires Obeys(rule, db, env.artifact, env.operation)
    ensures Obeys(rule, db, StampedArtifact(Taken(k, env), now), StampedOperation(env.operation, now))
  {
    hide Harvested, CleanPayload, Sidecar;
  }

  lemma OneState(k: Kernel, rule: Rule, db: Db)
    ensures UnitSteps(k, rule, [db])
  {
  }

  lemma TwoStates(k: Kernel, rule: Rule, db: Db, next: Db)
    requires IsUnit(k, rule, db, next)
    ensures UnitSteps(k, rule, [db, next])
  {
  }

  lemma {:induction false} HarvestIsUnits(k: Kernel, rule: Rule, db: Db, parent: Artifact, children: seq<Child>,
                                          index: nat, replies: seq<Reply>, now: Timestamp)
    requires index <= |children|
    ensures UnitSteps(k, rule, [db] + HarvestTrace(k, db, parent, children, index, replies, now))
    decreases |children| - index
  {
    hide IsUnit, Committed, ProposeRow, Obeys, ChildRow, ChildEdge, UnitSteps;
    OneState(k, rule, db);
    if index < |children| {
      var child, op := ChildRow(parent, children[index], index, now), ChildEdge(parent, children[index], index, now);
      ChildObeys(rule, db, parent, children[index], index, now);
      match ProposeRow(db, child, op)
      case Err(_) =>
        assert [db] + [] == [db];
      case Ok(d1) =>
        ProposeIsUnit(k, rule, db, child, op, d1);
        TwoStates(k, rule, db, d1);
        var reply := FirstReply(replies);
        match Committed(d1, child.id, k.gated.Keys, k.identity, reply, false, now)
        case Err(_) =>
          assert [db] + [d1] == [db, d1];
        case Ok(d2) =>
          CommitIsUnit(k, rule, d1, child.id, reply, false, now, d2);
          HarvestIsUnits(k, rule, d2, parent, children, index + 1, LaterReplies(replies), now);
          var rest := HarvestTrace(k, d2, parent, children, index + 1, LaterReplies(replies), now);
          JoinUnits(k, rule, [db, d1], [d2] + rest);
          assert [db, d1] + ([d2] + rest) == [db] + ([d1, d2] + rest);
    } else {
      assert [db] + [] == [db];
    }
  }

  lemma JoinUnits(k: Kernel, rule: Rule, a: seq<Db>, b: seq<Db>)
    requires UnitSteps(k, rule, a) && UnitSteps(k, rule, b)
    requires a != [] && b != [] ==> IsUnit(k, rule, a[|a| - 1], b[0])
    ensures UnitSteps(k, rule, a + b)
  {
    forall i | 0 <= i < |a + b| - 1 ensures IsUnit(k, rule, (a + b)[i], (a + b)[i + 1]) {
      if i + 1 < |a| {
        assert IsUnit(k, rule, a[i], a[i + 1]);
      } else if i >= |a| {
        assert IsUnit(k, rule, b[i - |a|], b[i - |a| + 1]);
      }
    }
  }

  lemma CommitIsUnits(k: Kernel, rule: Rule, db: Db, row: Artifact, op: Operation, reply: Reply,
                      kids: seq<Reply>, now: Timestamp)
    ensures UnitSteps(k, rule, [db] + CommitTrace(k, db, row, op, reply, kids, now))
  {
    var exhausted := Exhausted(k, db, op);
    match Committed(db, row.id, k.gated.Keys, k.identity, reply, exhausted, now)
    case Err(_) =>
    case Ok(next) =>
      CommitIsUnit(k, rule, db, row.id, reply, exhausted, now, next);
      var rest := CommitTrace(k, db, row, op, reply, kids, now)[1..];
      if reply.Verdict? && reply.bundle.status == Accepted {
        HarvestIsUnits(k, rule, next, row, k.harvest(row), 0, kids, now);
      }
      JoinUnits(k, rule, [db], [next] + rest);
      assert [db] + ([next] + rest) == [db] + CommitTrace(k, db, row, op, reply, kids, now);
  }

  lemma SubmitIsUnits(k: Kernel, rule: Rule, db: Db, env: ProposalEnvelope, reply: Reply, kids: seq<Reply>, now: Timestamp)
    requires Obeys(rule, db, env.artifact, env.operation)
    ensures UnitSteps(k, rule, SubmitTrace(k, db, env, reply, kids, now))
  {
    hide Committed, ShapeError, HarvestTrace, CommitTrace, ProposeRow;
    if ShapeError(k, env).None? {
      var row := Taken(k, env);
      var a, op := StampedArtifact(row, now), StampedOperation(env.operation, now);
      match ProposeRow(db, a, op)
      case Err(_) =>
      case Ok(d1) =>
        TakenObeys(k, rule, db, env, now);
        ProposeIsUnit(k, rule, db, a, op, d1);
        match Linked(d1, env.operation, row.id)
        case Err(_) =>
        case Ok(d2) =>
          assert IsUnit(k, rule, d1, d2) by {
            if d2 != d1 { assert Does(k, rule, d1, ULink(env.operation.parents[0], row.id), d2); }
          }
          var rest := CommitTrace(k, d2, row, env.operation, reply, kids, now);
          CommitIsUnits(k, rule, d2, row, env.operation, reply, kids, now);
          JoinUnits(k, rule, [db, d1], [d2] + rest);
          assert [db, d1] + ([d2] + rest) == [db, d1, d2] + rest;
    }
  }

  lemma EventIsUnits(k: Kernel, rule: Rule, db: Db, e: Event)
    requires ObeyingEvent(rule, db, e)
    ensures UnitSteps(k, rule, EventTrace(k, db, e))
  {
    match e
    case Submit(env, reply, kids, now, stop) =>
      SubmitIsUnits(k, rule, db, env, reply, kids, now);
    case Seed(a, op, now) =>
      var next := ProposeRow(db, StampedArtifact(a, now), StampedOperation(op, now));
      if next.Ok? {
        assert Does(k, rule, db, UPropose(StampedArtifact(a, now), StampedOperation(op, now)), next.value);
      }
    case CycleFailed(row) =>
      assert Does(k, rule, db, UFailure(row), FailureRow(db, row));
  }

  lemma {:induction false} RunIsUnits(k: Kernel, rule: Rule, db: Db, run: seq<Event>)
    requires ObeyingRun(k, rule, db, run)
    ensures UnitSteps(k, rule, Visited(k, db, run))
    decreases |run|
  {
    if run != [] {
      var trace := EventTrace(k, db, run[0]);
      EventIsUnits(k, rule, db, run[0]);
      RunIsUnits(k, rule, trace[|trace| - 1], run[1..]);
      var n := |trace| - 1;
      assert UnitSteps(k, rule, trace[..n]) by {
        forall i | 0 <= i < n - 1 ensures IsUnit(k, rule, trace[..n][i], trace[..n][i + 1]) {
          assert IsUnit(k, rule, trace[i], trace[i + 1]);
        }
      }
      assert n > 0 ==> IsUnit(k, rule, trace[n - 1], trace[n]) by {
        if n > 0 { assert IsUnit(k, rule, trace[n - 1], trace[n - 1 + 1]); }
      }
      JoinUnits(k, rule, trace[..n], Visited(k, trace[n], run[1..]));
    }
  }

  // ------------------------------------------------------------------ histories

  /** The columns of a row that nothing after `propose` may touch. */
  predicate SameFixedColumns(a: Artifact, b: Artifact) {
    a.id == b.id && a.atype == b.atype && a.payload == b.payload && a.createdBy == b.createdBy
    && a.createdAt == b.createdAt && a.isRoot == b.isRoot && a.objects == b.objects
  }

  /** `next` only adds to `db`: no row disappears, fixed columns stay, statuses move along the
      table, a superseded row keeps its pointer, and the two logs grow at the end. */
  ghost predicate Evolves(db: Db, next: Db) {
    && (forall id | id in db.artifacts ::
          && id in next.artifacts
          && SameFixedColumns(db.artifacts[id], next.artifacts[id])
          && (db.artifacts[id].status == next.artifacts[id].status
              || IsLegalTransition(db.artifacts[id].status, next.artifacts[id].status))
          && (db.artifacts[id].status == Superseded ==>
                next.artifacts[id].supersededBy == db.artifacts[id].supersededBy))
    && (forall id | id in next.artifacts && id !in db.artifacts :: next.artifacts[id].status == Proposed)
    && (forall id | id in db.operations ::
          id in next.operations && next.operations[id] == db.operations[id])
    && db.decisions <= next.decisions
    && db.failures <= next.failures
  }

  lemma SettledEvolves(db: Db, next: Db, a: Artifact, b: VerdictBundle, exhausted: bool, now: Timestamp)
    requires Keyed(db) && a.id in db.artifacts && db.artifacts[a.id].status == Proposed
    requires Settles(db, next, a, b, exhausted, now)
    ensures Keyed(next) && Evolves(db, next)
  {
    forall id | id in db.artifacts
      ensures SameFixedColumns(db.artifacts[id], next.artifacts[id])
      ensures db.artifacts[id].status == next.artifacts[id].status
        || IsLegalTransition(db.artifacts[id].status, next.artifacts[id].status)
      ensures db.artifacts[id].status == Superseded ==>
        next.artifacts[id].supersededBy == db.artifacts[id].supersededBy
      ensures next.artifacts[id].id == id
    {
      if id != a.id && b.status == Accepted && b.supersedes == Some(id) {
      } else if id != a.id {
        assert next.artifacts[id] == db.artifacts[id];
      }
    }
  }

  lemma ProposedEvolves(db: Db, a: Artifact, op: Operation, next: Db)
    requires Keyed(db) && ProposeRow(db, a, op) == Ok(next)
    ensures Keyed(next) && Evolves(db, next)
  {
  }

  lemma LinkedEvolves(db: Db, oldId: Id, newId: Id, next: Db)
    requires Keyed(db) && IsRevised(db, oldId) && LinkRow(db, oldId, newId) == Ok(next)
    ensures Keyed(next) && Evolves(db, next)
  {
  }

  lemma UnitEvolves(k: Kernel, rule: Rule, db: Db, next: Db)
    requires Keyed(db) && IsUnit(k, rule, db, next)
    ensures Keyed(next) && Evolves(db, next)
  {
    if next != db {
      var u :| Does(k, rule, db, u, next);
      match u
      case UPropose(a, op) =>
        ProposedEvolves(db, a, op, next);
      case ULink(oldId, newId) =>
        LinkedEvolves(db, oldId, newId, next);
      case UCommit(id, reply, exhausted, now) =>
        CommittedSettles(db, id, k.gated.Keys, k.identity, reply, exhausted, now);
        SettledEvolves(db, next, db.artifacts[id], reply.bundle, exhausted, now);
      case UFailure(row) =>
    }
  }

  lemma {:induction false} StatesKeyed(k: Kernel, rule: Rule, states: seq<Db>, i: nat)
    requires UnitSteps(k, rule, states) && i < |states| && Keyed(states[0])
    ensures Keyed(states[i])
  {
    if i > 0 {
      StatesKeyed(k, rule, states, i - 1);
      assert IsUnit(k, rule, states[i - 1], states[i - 1 + 1]);
      UnitEvolves(k, rule, states[i - 1], states[i]);
    }
  }

  /** The statuses an artifact has in the given states, from the first one it is in. */
  ghost function StatusHistory(states: seq<Db>, id: Id): seq<Status> {
    if states == [] then []
    else
      (if id in states[0].artifacts then [states[0].artifacts[id].status] else [])
      + StatusHistory(states[1..], id)
  }

  ghost predicate EvolvesThroughout(states: seq<Db>) {
    forall i | 0 <= i < |states| - 1 :: Evolves(states[i], states[i + 1])
  }

  lemma {:induction false} HistoriesLegal(states: seq<Db>, id: Id)
    requires EvolvesThroughout(states)
    ensures IsHistory(StatusHistory(states, id))
    ensures states != [] && id in states[0].artifacts ==>
      StatusHistory(states, id) != [] && StatusHistory(states, id)[0] == states[0].artifacts[id].status
    ensures states != [] && id !in states[0].artifacts && StatusHistory(states, id) != [] ==>
      StatusHistory(states, id)[0] == Proposed
    decreases |states|
  {
    if |states| > 0 {
      assert EvolvesThroughout(states[1..]) by {
        forall i | 0 <= i < |states[1..]| - 1 ensures Evolves(states[1..][i], states[1..][i + 1]) {
          assert Evolves(states[i + 1], states[i + 1 + 1]);
        }
      }
      HistoriesLegal(states[1..], id);
      if |states| > 1 {
        assert Evolves(states[0], states[0 + 1]);
      }
    }
  }

  /** Over every run from an empty store whose COMMITs go through, whatever the verifier replies: each
      step only adds, and the status history of every artifact is a path of the transition table
      that starts at `proposed`. */
  lemma RunsOnlyAdd(k: Kernel, run: seq<Event>)
    ensures EvolvesThroughout(Visited(k, EMPTY_DB, run))
    ensures forall id :: IsHistory(StatusHistory(Visited(k, EMPTY_DB, run), id))
    ensures forall id :: StatusHistory(Visited(k, EMPTY_DB, run), id) != [] ==>
      StatusHistory(Visited(k, EMPTY_DB, run), id)[0] == Proposed
  {
    var states := Visited(k, EMPTY_DB, run);
    AnyRunObeys(k, EMPTY_DB, run);
    RunIsUnits(k, AnyProposal, EMPTY_DB, run);
    forall i | 0 <= i < |states| - 1 ensures Evolves(states[i], states[i + 1]) {
      StatesKeyed(k, AnyProposal, states, i);
      assert IsUnit(k, AnyProposal, states[i], states[i + 1]);
      UnitEvolves(k, AnyProposal, states[i], states[i + 1]);
    }
    forall id
      ensures IsHistory(StatusHistory(states, id))
      ensures StatusHistory(states, id) != [] ==> StatusHistory(states, id)[0] == Proposed
    {
      HistoriesLegal(states, id);
    }
  }

  /** What was once in the store is in every later state with the same fixed columns, and a
      terminal status is for ever. */
  lemma {:induction false} NothingIsLost(states: seq<Db>, i: nat, j: nat, id: Id)
    requires EvolvesThroughout(states) && i <= j < |states| && id in states[i].artifacts
    ensures id in states[j].artifacts
    ensures SameFixedColumns(states[i].artifacts[id], states[j].artifacts[id])
    ensures IsTerminal(states[i].artifacts[id].status) ==>
      states[j].artifacts[id].status == states[i].artifacts[id].status
    ensures states[i].artifacts[id].status == Superseded ==>
      states[j].artifacts[id].supersededBy == states[i].artifacts[id].supersededBy
    ensures states[i].decisions <= states[j].decisions
    decreases j - i
  {
    if i < j {
      NothingIsLost(states, i, j - 1, id);
      assert Evolves(states[j - 1], states[j - 1 + 1]);
    }
  }
}
