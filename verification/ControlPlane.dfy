/** The control plane as it runs: intake, revision linking, the refine walk, the handoff and the
    harvest, over the store and a live verifier. */
module ControlPlane {

  import opened Contracts
  import opened Tables
  import opened Commit
  import opened Store
  import opened CommitPath
  import opened Pipeline
  import opened Intake
  import opened Recorded
  import opened KernelRuns
  import opened Connections
  import opened Slices

  datatype IntakeResult =
    | ShapeRejected(message: string)
    | Failed(failure: Failure)
    | Entered(commit: CommitResult)

  /** `state` is one of the states of `trace`, or the durable state from before. */
  ghost predicate Explained(trace: seq<Db>, before: Db, state: Db) {
    state == before || state in trace
  }

  class TaskPlane<S> {
    const kernel: Kernel
    const store: SqliteStore
    const verifier: SdkVerifier<S>
    var rationale: map<Id, string>
    /** Scripts the handoffs that outlast the dispatch timeout. */
    var slow: seq<bool>

    constructor (kernel: Kernel, store: SqliteStore, verifier: SdkVerifier<S>, slow: seq<bool>)
      ensures this.kernel == kernel && this.store == store && this.verifier == verifier
      ensures rationale == map[] && this.slow == slow
    {
      this.kernel, this.store, this.verifier := kernel, store, verifier;
      this.rationale, this.slow := map[], slow;
    }

    ghost predicate Valid()
      reads this, verifier
    {
      kernel.identity == verifier.identity
    }

    /** The walk over `revised` ancestors, as a loop. */
    method CountLineageRefines(op: Operation) returns (count: nat)
      ensures count == LineageRefines(store.working, op)
    {
      count := 0;
      if op.opName != REVISES || op.parents == [] { return; }
      var current: Option<Id>, seen: set<Id> := Some(op.parents[0]), {};
      while current.Some? && current.value !in seen
        invariant count + RefineWalk(store.working, current, seen) == LineageRefines(store.working, op)
        decreases store.working.artifacts.Keys - seen, current.Some?
      {
        var id := current.value;
        if !IsRevised(store.working, id) { return; }
        seen := seen + {id};
        count := count + 1;
        current := RevisedParent(store.working, id);
      }
    }

    /** Points a flagged artifact at its revision; anything else is left alone. */
    method LinkRevisionIfAny(env: ProposalEnvelope) returns (error: Option<Failure>)
      requires store.depth == 0
      modifies store
      ensures store.depth == 0 && store.blobs == old(store.blobs)
      ensures old(store.Healthy()) ==> store.Healthy()
      ensures error.None? ==> Linked(old(store.working), env.operation, env.artifact.id) == Ok(store.working)
      ensures error.None? ==> PointsAtRevision(old(store.working), store.working, env)
      ensures error.None? ==> store.committed in {old(store.committed), store.working}
      ensures error.None? && old(store.committed) == old(store.working) ==> store.committed == store.working
      ensures error.Some? ==> store.committed == old(store.committed)
      ensures error.Some? ==> (store.working == store.committed
        || Linked(old(store.working), env.operation, env.artifact.id) == Ok(store.working))
      ensures old(store.Healthy()) ==>
        (error.Some? <==> Linked(old(store.working), env.operation, env.artifact.id).Err?)
      ensures Reaches(kernel, AnyProposal, old(ConnOf(store)), ConnOf(store))
    {
      hide Reaches;
      var op := env.operation;
      error := None;
      ghost var s := ConnOf(store);
      ReachesItself(kernel, AnyProposal, s);
      if op.opName != REVISES || op.parents == [] { return; }
      var flagged := store.GetArtifact(op.parents[0]);
      if flagged.Some? && flagged.value.status == Revised {
        ghost var spec := LinkRow(store.working, op.parents[0], env.artifact.id);
        error := store.LinkRevision(op.parents[0], env.artifact.id);
        UnitReaches(kernel, AnyProposal, ULink(op.parents[0], env.artifact.id), spec, s, ConnOf(store));
      }
    }

    /** The handoff and the commit: the request carries the declared slice, its recorded scores and
        the bound objects, and nothing else. */
    method CommitThroughVerifier(id: Id, objects: map<string, Bytes>, exhausted: bool, rejectedFirst: bool,
                                 now: Timestamp)
      returns (result: Result<CommitResult, Failure>, ghost reply: Reply)
      requires Valid() && store.depth == 0
      modifies this`slow, store, verifier
      ensures store.depth == 0 && store.blobs == old(store.blobs)
      ensures old(store.Healthy()) ==> store.Healthy()
      ensures Admit(old(store.working), id, kernel.gated.Keys, kernel.identity).Err? ==>
        verifier.requests == old(verifier.requests)
      ensures Admit(old(store.working), id, kernel.gated.Keys, kernel.identity).Ok? ==>
        verifier.requests == old(verifier.requests)
          + [RequestFor(kernel, old(store.working), old(store.working).artifacts[id], objects, rejectedFirst)]
      ensures var spec := Committed(old(store.working), id, kernel.gated.Keys, kernel.identity, reply, exhausted, now);
        if result.Ok? then
          && spec == Ok(store.working) && store.committed == store.working && reply.Verdict?
          && result.value == ResultOf(old(store.working).artifacts[id], reply.bundle, exhausted, now)
        else
          && store.committed == old(store.committed)
          && (store.working in {store.committed, old(store.working)} || spec == Ok(store.working))
          && (old(store.Healthy()) ==> spec.Err?)
      ensures Reaches(kernel, AnyProposal, old(ConnOf(store)), ConnOf(store))
    {
      hide Reaches;
      ghost var s := ConnOf(store);
      ReachesItself(kernel, AnyProposal, s);
      var admitted := Admit(store.working, id, kernel.gated.Keys, verifier.identity);
      reply := NO_REPLY;
      if admitted.Err? { return Err(admitted.error), reply; }
      var req := RequestFor(kernel, store.working, admitted.value, objects, rejectedFirst);
      var answer := verifier.Dispatch(req);
      if slow != [] {
        if slow[0] { answer := Raises(Exception("GateUnavailable", "verifier did not respond")); }
        slow := slow[1..];
      }
      reply := answer;
      result := LandReply(store, admitted.value, answer, exhausted, now);
      UnitReaches(kernel, AnyProposal, UCommit(id, reply, exhausted, now),
        Committed(s.working, id, kernel.gated.Keys, kernel.identity, reply, exhausted, now), s, ConnOf(store));
    }

    /** Content-addresses the harvested objects. */
    method HarvestObjects(objects: map<string, Bytes>)
      requires store.ContentAddressed()
      modifies store`blobs
      ensures store.ContentAddressed()
      ensures forall h | h in old(store.blobs) :: h in store.blobs && store.blobs[h] == old(store.blobs)[h]
      ensures forall name | name in objects :: store.GetObject(RefOf(objects[name]).contentHash) == Ok(objects[name])
    {
      var todo := objects.Keys;
      while todo != {}
        invariant todo <= objects.Keys
        invariant store.ContentAddressed()
        invariant forall h | h in old(store.blobs) :: h in store.blobs && store.blobs[h] == old(store.blobs)[h]
        invariant forall name | name in objects && name !in todo ::
          store.GetObject(RefOf(objects[name]).contentHash) == Ok(objects[name])
        decreases |todo|
      {
        var name :| name in todo;
        var ref := store.PutObject(objects[name]);
        todo := todo - {name};
      }
    }

    /** One child: proposed, then committed through its own gate. `asked` says whether the gate was
        reached. */
    method HarvestOne(parent: Artifact, children: seq<Child>, i: nat, objects: map<string, Bytes>,
                      rejectedFirst: bool, now: Timestamp)
      returns (error: Option<Failure>, ghost asked: seq<Reply>)
      requires Valid() && store.depth == 0 && store.committed == store.working && i < |children|
      modifies this`slow, store, verifier
      ensures store.depth == 0 && store.blobs == old(store.blobs)
      ensures old(store.Healthy()) ==> store.Healthy()
      ensures |asked| <= 1
      ensures var step := ChildStates(kernel, old(store.working), parent, children[i], i, FirstReply(asked), now);
        if error.None? then
          |step| == 2 && asked != [] && store.working == store.committed == step[1]
        else
          && store.working in [old(store.working)] + step && store.committed in [old(store.working)] + step
          && (old(store.Healthy()) ==>
                |step| < 2 && store.working == store.committed == ([old(store.working)] + step)[|step|])
      ensures Reaches(kernel, AnyProposal, old(ConnOf(store)), ConnOf(store))
    {
      hide Reaches;
      ghost var d0, s := store.working, ConnOf(store);
      var row, op := ChildArtifact(parent, children[i], i, now), ChildOperation(parent, children[i], i, now);
      asked := [];
      error := store.Propose(row, op, now);
      ProposeReaches(kernel, row, op, now, s, ConnOf(store));
      if error.Some? { return; }
      ghost var s1 := ConnOf(store);
      var result;
      ghost var reply;
      result, reply := CommitThroughVerifier(row.id, objects, false, rejectedFirst, now);
      asked := [reply];
      ReachesOn(kernel, AnyProposal, s, s1, ConnOf(store));
      error := if result.Ok? then None else Some(result.error);
    }

    /** Mints and gates the children of an accepted parent, one after the other; the first failure
        ends it. `trace` lists the states a harvest with these replies passes through. */
    method HarvestChildren(parent: Artifact, objects: map<string, Bytes>, rejectedFirst: bool, now: Timestamp)
      returns (error: Option<Failure>, ghost kids: seq<Reply>)
      requires Valid() && store.depth == 0 && store.committed == store.working
      modifies this`slow, store, verifier
      ensures store.depth == 0 && store.blobs == old(store.blobs)
      ensures old(store.Healthy()) ==> store.Healthy()
      ensures var trace := [old(store.working)]
          + HarvestTrace(kernel, old(store.working), parent, kernel.harvest(parent), 0, kids, now);
        && store.working in trace && store.committed in trace
        && (old(store.Healthy()) ==> store.working == store.committed == trace[|trace| - 1])
      ensures Reaches(kernel, AnyProposal, old(ConnOf(store)), ConnOf(store))
    {
      hide Progress, ChildStates, HarvestTrace, Reaches;
      ghost var s := ConnOf(store);
      ReachesItself(kernel, AnyProposal, s);
      var children := kernel.harvest(parent);
      ghost var start := store.working;
      ghost var done: seq<Db> := [start];
      kids := [];
      ProgressStart(kernel, start, parent, children, now);
      error := None;
      for i := 0 to |children|
        invariant store.depth == 0 && store.blobs == old(store.blobs) && error.None? && Valid()
        invariant old(store.Healthy()) ==> store.Healthy()
        invariant store.working == store.committed
        invariant Progress(kernel, start, parent, children, kids, now, done, store.working, i)
        invariant Reaches(kernel, AnyProposal, s, ConnOf(store))
      {
        ghost var d0, si := store.working, ConnOf(store);
        ghost var asked;
        error, asked := HarvestOne(parent, children, i, objects, rejectedFirst, now);
        ReachesOn(kernel, AnyProposal, s, si, ConnOf(store));
        if error.Some? {
          ProgressEnds(kernel, start, parent, children, kids, now, done, d0, i, asked);
          kids := kids + asked;
          return;
        }
        ProgressStep(kernel, start, parent, children, kids, now, done, d0, i, asked);
        kids := kids + asked;
        done := done + ChildStates(kernel, d0, parent, children[i], i, FirstReply(asked), now);
      }
      ProgressDone(kernel, start, parent, children, kids, now, done, store.working);
    }

    /** Propose and link: the part of intake that only touches the store. */
    method RecordProposal(env: ProposalEnvelope, now: Timestamp) returns (error: Option<Failure>)
      requires store.depth == 0
      modifies store
      ensures store.depth == 0 && store.blobs == old(store.blobs)
      ensures old(store.Healthy()) ==> store.Healthy()
      ensures var states := RecordStates(kernel, old(store.working), env, now);
        if error.None? then |states| == 3 && store.working == store.committed == states[2]
        else
          && Explained(states, old(store.committed), store.working)
          && Explained(states, old(store.committed), store.committed)
          && (old(store.Healthy()) && old(store.working == store.committed) ==>
                |states| < 3 && store.working == store.committed == states[|states| - 1])
      ensures Reaches(kernel, AnyProposal, old(ConnOf(store)), ConnOf(store))
    {
      hide Reaches;
      ghost var states, s := RecordStates(kernel, store.working, env, now), ConnOf(store);
      error := store.Propose(Taken(kernel, env), env.operation, now);
      ProposeReaches(kernel, Taken(kernel, env), env.operation, now, s, ConnOf(store));
      ghost var s1 := ConnOf(store);
      if error.Some? {
        assert |states| > 1 ==> states[1] in states;
        assert states[0] in states;
        return;
      }
      assert states[1] in states;
      error := LinkRevisionIfAny(env);
      ReachesOn(kernel, AnyProposal, s, s1, ConnOf(store));
      assert |states| > 2 ==> states[2] in states;
    }

    /** The commit of a recorded proposal and, when it is accepted, its harvest. */
    method CommitAndHarvest(row: Artifact, op: Operation, objects: map<string, Bytes>, rejectedFirst: bool,
                            now: Timestamp)
      returns (r: IntakeResult, ghost reply: Reply, ghost kids: seq<Reply>)
      requires Valid() && store.depth == 0 && store.committed == store.working
      modifies this`slow, store, verifier
      ensures store.depth == 0 && store.blobs == old(store.blobs)
      ensures old(store.Healthy()) ==> store.Healthy()
      ensures r.Failed? || r.Entered?
      ensures var states := [old(store.working)]
          + CommitTrace(kernel, old(store.working), row, op, reply, kids, now);
        && store.working in states && store.committed in states
        && (old(store.Healthy()) ==> store.working == store.committed == states[|states| - 1])
        && (r.Entered? && Keyed(old(store.working)) ==> (|states| > 1 && row.id in states[1].artifacts
                            && states[1].artifacts[row.id].status == r.commit.status))
      ensures Reaches(kernel, AnyProposal, old(ConnOf(store)), ConnOf(store))
    {
      hide Reaches, CommitTrace, HarvestTrace, Committed, RefineWalk, Keyed, Admit, RequestFor, LineageRefines, ResultOf;
      kids := [];
      var depth := CountLineageRefines(op);
      var exhausted := depth >= kernel.refineCap;
      ghost var d2, s := store.working, ConnOf(store);
      var result;
      result, reply := CommitThroughVerifier(row.id, objects, exhausted, rejectedFirst, now);
      CommitTraceParts(kernel, d2, row, op, reply, kids, now);
      if result.Err? { return Failed(result.error), reply, kids; }
      ghost var d3, s3 := store.working, ConnOf(store);
      if Keyed(d2) { CommittedStatus(d2, row.id, kernel.gated.Keys, kernel.identity, reply, exhausted, now); }
      AcceptedResult(d2, row.id, kernel.gated.Keys, kernel.identity, reply, exhausted, now);
      if result.value.status == Accepted {
        var swallowed;
        swallowed, kids := HarvestChildren(row, objects, rejectedFirst, now);
        ReachesOn(kernel, AnyProposal, s, s3, ConnOf(store));
        CommitTraceParts(kernel, d2, row, op, reply, kids, now);
      }
      r := Entered(result.value);
    }

    /** Takes in one proposal: shape check, harvest before anything is recorded, propose, link,
        commit, and the children of an accepted parent. Whatever raises and wherever, the tables end
        in one of the states of the submission's trace (or at the durable state from before), and
        without a raise in its last one. A malformed proposal records nothing at all. */
    method SubmitProposal(env: ProposalEnvelope, rejectedFirst: bool, now: Timestamp)
      returns (r: IntakeResult, ghost reply: Reply, ghost kids: seq<Reply>)
      requires Valid() && store.depth == 0 && store.ContentAddressed()
      modifies this, store, verifier
      ensures Valid() && store.depth == 0 && store.ContentAddressed()
      ensures old(store.Healthy()) ==> store.Healthy()
      ensures r.ShapeRejected? <==> ShapeError(kernel, env).Some?
      ensures r.ShapeRejected? ==>
        && store.working == old(store.working) && store.committed == old(store.committed)
        && store.blobs == old(store.blobs) && verifier.requests == old(verifier.requests)
        && rationale == old(rationale)
      ensures !r.ShapeRejected? && env.metadata != "" ==> rationale == old(rationale)[env.artifact.id := env.metadata]
      ensures var trace := SubmitTrace(kernel, old(store.working), env, reply, kids, now);
        && Explained(trace, old(store.committed), store.working)
        && Explained(trace, old(store.committed), store.committed)
        && (old(store.Healthy()) && old(store.working == store.committed) ==>
              store.working == store.committed == trace[|trace| - 1])
        && (r.Entered? && Keyed(old(store.working)) ==> (|trace| > 3 && env.artifact.id in trace[3].artifacts
                            && trace[3].artifacts[env.artifact.id].status == r.commit.status))
      ensures Reaches(kernel, AnyProposal, old(ConnOf(store)), ConnOf(store))
    {
      hide Reaches, RecordStates, CommitTrace, SubmitTrace, ShapeError, Harvested, Taken;
      reply, kids := NO_REPLY, [];
      var malformed := ShapeError(kernel, env);
      ghost var d0, s := store.working, ConnOf(store);
      ReachesItself(kernel, AnyProposal, s);
      TraceParts(kernel, d0, env, reply, kids, now);
      if malformed.Some? { return ShapeRejected(malformed.value), reply, kids; }
      var objects := Harvested(kernel, env);
      HarvestObjects(objects);
      if env.metadata != "" { rationale := rationale[env.artifact.id := env.metadata]; }
      var error := RecordProposal(env, now);
      if error.Some? { return Failed(error.value), reply, kids; }
      if Keyed(d0) { RecordedKeyed(kernel, d0, env, now); }
      ghost var s2 := ConnOf(store);
      var row := Taken(kernel, env);
      r, reply, kids := CommitAndHarvest(row, env.operation, objects, rejectedFirst, now);
      ReachesOn(kernel, AnyProposal, s, s2, ConnOf(store));
      TraceParts(kernel, d0, env, reply, kids, now);
    }
  }

  /** What `propose` leaves behind is reached by the unit that proposes the stamped rows. */
  lemma ProposeReaches(k: Kernel, a: Artifact, op: Operation, now: Timestamp, s: Conn, t: Conn)
    requires Leaves(ProposeRow(s.working, StampedArtifact(a, now), StampedOperation(op, now)), s, t)
    ensures Reaches(k, AnyProposal, s, t)
  {
    hide Reaches;
    UnitReaches(k, AnyProposal, UPropose(StampedArtifact(a, now), StampedOperation(op, now)),
      ProposeRow(s.working, StampedArtifact(a, now), StampedOperation(op, now)), s, t);
  }

  lemma CommittedStatus(db: Db, id: Id, gated: set<string>, identity: string, reply: Reply,
                        exhausted: bool, now: Timestamp)
    requires Keyed(db)
    ensures var next := Committed(db, id, gated, identity, reply, exhausted, now);
      next.Ok? ==>
        && reply.Verdict? && id in db.artifacts && id in next.value.artifacts
        && next.value.artifacts[id].status == ResultOf(db.artifacts[id], reply.bundle, exhausted, now).status
  {
    if Committed(db, id, gated, identity, reply, exhausted, now).Ok? {
      CommittedSettles(db, id, gated, identity, reply, exhausted, now);
    }
  }

  lemma AcceptedResult(db: Db, id: Id, gated: set<string>, identity: string, reply: Reply,
                       exhausted: bool, now: Timestamp)
    requires Committed(db, id, gated, identity, reply, exhausted, now).Ok?
    ensures reply.Verdict? && id in db.artifacts
    ensures ResultOf(db.artifacts[id], reply.bundle, exhausted, now).status == Accepted
      <==> reply.bundle.status == Accepted
  {
  }

  lemma CommitTraceParts(k: Kernel, db: Db, row: Artifact, op: Operation, reply: Reply, kids: seq<Reply>,
                         now: Timestamp)
    ensures var next := Committed(db, row.id, k.gated.Keys, k.identity, reply, Exhausted(k, db, op), now);
      [db] + CommitTrace(k, db, row, op, reply, kids, now) ==
        if next.Err? then [db]
        else [db] + ([next.value] + if reply.Verdict? && reply.bundle.status == Accepted
               then HarvestTrace(k, next.value, row, k.harvest(row), 0, kids, now) else [])
  {
  }

  /** The states of intake before the commit. */
  ghost function RecordStates(k: Kernel, db: Db, env: ProposalEnvelope, now: Timestamp): (states: seq<Db>)
    ensures 1 <= |states| <= 3 && states[0] == db
  {
    match ProposeRow(db, StampedArtifact(Taken(k, env), now), StampedOperation(env.operation, now))
    case Err(_) => [db]
    case Ok(d1) =>
      match Linked(d1, env.operation, env.artifact.id)
      case Err(_) => [db, d1]
      case Ok(d2) => [db, d1, d2]
  }

  lemma RecordedKeyed(k: Kernel, db: Db, env: ProposalEnvelope, now: Timestamp)
    requires Keyed(db) && |RecordStates(k, db, env, now)| == 3
    ensures Keyed(RecordStates(k, db, env, now)[2])
  {
    hide Taken;
    var a, op := StampedArtifact(Taken(k, env), now), StampedOperation(env.operation, now);
    var d1 := ProposeRow(db, a, op).value;
    ProposedEvolves(db, a, op, d1);
    var d2 := Linked(d1, env.operation, env.artifact.id).value;
    if d2 != d1 { LinkedEvolves(d1, env.operation.parents[0], env.artifact.id, d2); }
  }

  /** A submission's trace is its intake states followed, from the third on, by its commit states. */
  lemma TraceParts(k: Kernel, db: Db, env: ProposalEnvelope, reply: Reply, kids: seq<Reply>, now: Timestamp)
    ensures Taken(k, env).id == env.artifact.id
    ensures ShapeError(k, env).Some? ==> SubmitTrace(k, db, env, reply, kids, now) == [db]
    ensures ShapeError(k, env).None? ==>
      var states := RecordStates(k, db, env, now);
      SubmitTrace(k, db, env, reply, kids, now) ==
        if |states| < 3 then states
        else states[..2] + ([states[2]] + CommitTrace(k, states[2], Taken(k, env), env.operation, reply, kids, now))
  {
    TakenKeepsId(k, env);
    hide Taken, ShapeError, ProposeRow, Linked, CommitTrace, StampedArtifact, StampedOperation;
  }

  lemma TakenKeepsId(k: Kernel, env: ProposalEnvelope)
    ensures Taken(k, env).id == env.artifact.id
  {
    hide Harvested, CleanPayload, Sidecar;
  }

  /** `done` are the states of the harvest up to child `i`, whatever the later replies are. */
  ghost predicate Progress(k: Kernel, start: Db, parent: Artifact, children: seq<Child>, kids: seq<Reply>,
                           now: Timestamp, done: seq<Db>, at: Db, i: nat)
  {
    && i <= |children| && done != [] && at == done[|done| - 1]
    && forall later ::
         [start] + HarvestTrace(k, start, parent, children, 0, kids + later, now)
         == done + HarvestTrace(k, at, parent, children, i, later, now)
  }

  lemma ProgressStart(k: Kernel, start: Db, parent: Artifact, children: seq<Child>, now: Timestamp)
    ensures Progress(k, start, parent, children, [], now, [start], start, 0)
  {
    forall later
      ensures [start] + HarvestTrace(k, start, parent, children, 0, [] + later, now)
        == [start] + HarvestTrace(k, start, parent, children, 0, later, now)
    {
      assert [] + later == later;
    }
  }

  lemma ProgressStep(k: Kernel, start: Db, parent: Artifact, children: seq<Child>, kids: seq<Reply>,
                     now: Timestamp, done: seq<Db>, at: Db, i: nat, asked: seq<Reply>)
    requires i < |children| && Progress(k, start, parent, children, kids, now, done, at, i) && |asked| == 1
    requires |ChildStates(k, at, parent, children[i], i, FirstReply(asked), now)| == 2
    ensures var step := ChildStates(k, at, parent, children[i], i, FirstReply(asked), now);
      Progress(k, start, parent, children, kids + asked, now, done + step, step[1], i + 1)
  {
    hide ChildStates, HarvestTrace, ProposeRow, Committed;
    var step := ChildStates(k, at, parent, children[i], i, FirstReply(asked), now);
    forall later
      ensures [start] + HarvestTrace(k, start, parent, children, 0, kids + asked + later, now)
        == done + step + HarvestTrace(k, step[1], parent, children, i + 1, later, now)
    {
      assert kids + asked + later == kids + (asked + later);
      assert (asked + later)[0] == asked[0] && (asked + later)[1..] == later;
      HarvestUnfolds(k, at, parent, children, i, asked + later, now);
      var rest := HarvestTrace(k, step[1], parent, children, i + 1, later, now);
      assert done + (step + rest) == done + step + rest;
    }
  }

  lemma ProgressEnds(k: Kernel, start: Db, parent: Artifact, children: seq<Child>, kids: seq<Reply>,
                     now: Timestamp, done: seq<Db>, at: Db, i: nat, asked: seq<Reply>)
    requires i < |children| && Progress(k, start, parent, children, kids, now, done, at, i) && |asked| <= 1
    ensures var step := ChildStates(k, at, parent, children[i], i, FirstReply(asked), now);
      var trace := [start] + HarvestTrace(k, start, parent, children, 0, kids + asked, now);
      && (forall x | x in [at] + step :: x in trace)
      && (|step| < 2 ==> trace[|trace| - 1] == ([at] + step)[|step|])
  {
    hide ChildStates;
    var step := ChildStates(k, at, parent, children[i], i, FirstReply(asked), now);
    HarvestUnfolds(k, at, parent, children, i, asked, now);
    var trace := [start] + HarvestTrace(k, start, parent, children, 0, kids + asked, now);
    var rest := HarvestTrace(k, at, parent, children, i, asked, now);
    assert trace == done + rest;
    assert at in done;
    forall x | x in step ensures x in rest {
      var j :| 0 <= j < |step| && step[j] == x;
      assert rest[j] == x;
    }
    if |step| < 2 { assert rest == step; }
  }

  lemma ProgressDone(k: Kernel, start: Db, parent: Artifact, children: seq<Child>, kids: seq<Reply>,
                     now: Timestamp, done: seq<Db>, at: Db)
    requires Progress(k, start, parent, children, kids, now, done, at, |children|)
    ensures [start] + HarvestTrace(k, start, parent, children, 0, kids, now) == done
    ensures at in done && at == done[|done| - 1]
  {
    assert kids + [] == kids;
    assert done + [] == done;
  }

  /** The states one child passes through: proposed, and committed if its commit goes through. */
  ghost function ChildStates(k: Kernel, db: Db, parent: Artifact, child: Child, index: nat,
                             reply: Reply, now: Timestamp): (states: seq<Db>)
    ensures |states| <= 2
  {
    match ProposeRow(db, ChildRow(parent, child, index, now), ChildEdge(parent, child, index, now))
    case Err(_) => []
    case Ok(d1) =>
      match Committed(d1, ChildRow(parent, child, index, now).id, k.gated.Keys, k.identity, reply, false, now)
      case Err(_) => [d1]
      case Ok(d2) => [d1, d2]
  }

  lemma HarvestUnfolds(k: Kernel, db: Db, parent: Artifact, children: seq<Child>, i: nat,
                       replies: seq<Reply>, now: Timestamp)
    requires i < |children|
    ensures var step := ChildStates(k, db, parent, children[i], i, FirstReply(replies), now);
      HarvestTrace(k, db, parent, children, i, replies, now) == step +
        if |step| == 2 then HarvestTrace(k, step[1], parent, children, i + 1, LaterReplies(replies), now) else []
  {
  }
}
