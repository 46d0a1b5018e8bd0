/** What a submission puts on record, column by column: the proposed row, the revision pointer, and
    the children of an accepted parent. */
module Recorded {

  import opened Contracts
  import opened Ordering
  import opened Tables
  import opened Commit
  import opened Text
  import opened Intake

  // ------------------------------------------------------------------ the proposed row

  /** A proposal is malformed exactly when its payload is no object, lacks a key that its operation
      requires, or the domain says so. */
  lemma MalformedExactlyWhen(k: Kernel, env: ProposalEnvelope)
    ensures ShapeError(k, env).Some? <==>
      || !(env.artifact.payload.Inline? && env.artifact.payload.value.JObj?)
      || (env.operation.opName in k.operations
          && exists key :: key in k.operations[env.operation.opName].required
               && key !in env.artifact.payload.value.fields)
      || k.shapeError(env.artifact).Some?
  {
  }

  /** The payload keeps exactly the keys its operation declares, unless that declares none, and never
      loses a required one. */
  ghost predicate PayloadTaken(k: Kernel, env: ProposalEnvelope, payload: Payload) {
    && env.artifact.payload.Inline? && env.artifact.payload.value.JObj?
    && payload.Inline? && payload.value.JObj?
    && var offered, kept, name := env.artifact.payload.value.fields, payload.value.fields, env.operation.opName;
       && (forall key :: key in kept ==> key in offered && kept[key] == offered[key])
       && (forall key :: key in offered ==>
             (key in kept <==>
               || name !in k.operations
               || (k.operations[name].required == [] && k.operations[name].objectKeys == [])
               || key in k.operations[name].required || key in k.operations[name].objectKeys))
       && (name in k.operations ==> forall key | key in k.operations[name].required :: key in kept)
  }

  /** The sidecar holds exactly the declared objects that came with the proposal, each once, under the
      hash of its bytes; without any, the offered sidecar stays. */
  ghost predicate SidecarTaken(k: Kernel, env: ProposalEnvelope, refs: seq<(string, ObjectRef)>) {
    if forall name | name in env.objects :: name !in k.objectNames(env.artifact) then refs == env.artifact.objects
    else
      && (forall i | 0 <= i < |refs| ::
            && refs[i].0 in env.objects && refs[i].0 in k.objectNames(env.artifact)
            && refs[i].1.contentHash == Sha256(env.objects[refs[i].0]))
      && (forall name | name in env.objects && name in k.objectNames(env.artifact) ::
            exists i :: 0 <= i < |refs| && refs[i].0 == name)
      && (forall i, j | 0 <= i < j < |refs| :: refs[i].0 != refs[j].0)
  }

  lemma PayloadIsTaken(k: Kernel, env: ProposalEnvelope)
    requires ShapeError(k, env).None?
    ensures PayloadTaken(k, env, CleanPayload(k, env))
  {
    if env.operation.opName in k.operations {
      var sig := k.operations[env.operation.opName];
      assert sig.required != [] ==> sig.required[0] in AllowedKeys(sig);
      assert sig.objectKeys != [] ==> sig.objectKeys[0] in AllowedKeys(sig);
      MalformedExactlyWhen(k, env);
    }
  }

  ghost function NamesOf(objects: map<string, Bytes>): (names: seq<string>)
    ensures forall name :: name in names <==> name in objects
  {
    Ordered(map name | name in objects :: "", objects.Keys)
  }

  lemma NamesOnce(objects: map<string, Bytes>)
    ensures Distinct(NamesOf(objects))
  {
    OrderedSorted(map name | name in objects :: "", objects.Keys);
  }

  /** One reference an object, in the order of the names. */
  lemma SidecarLists(objects: map<string, Bytes>)
    ensures |Sidecar(objects)| == |NamesOf(objects)|
    ensures forall i | 0 <= i < |Sidecar(objects)| ::
      NamesOf(objects)[i] in objects && Sidecar(objects)[i] == (NamesOf(objects)[i], RefOf(objects[NamesOf(objects)[i]]))
  {
    hide RefOf, Ordered;
    var names, refs := NamesOf(objects), Sidecar(objects);
    forall i | 0 <= i < |refs| ensures names[i] in objects && refs[i] == (names[i], RefOf(objects[names[i]])) {
      assert names[i] in names;
    }
  }

  lemma HarvestedAre(k: Kernel, env: ProposalEnvelope)
    ensures forall name :: name in Harvested(k, env) <==> name in env.objects && name in k.objectNames(env.artifact)
    ensures forall name | name in Harvested(k, env) :: Harvested(k, env)[name] == env.objects[name]
  {
  }

  lemma SidecarHolds(objects: map<string, Bytes>)
    ensures var refs := Sidecar(objects);
      && (forall i | 0 <= i < |refs| :: refs[i].0 in objects && refs[i].1.contentHash == Sha256(objects[refs[i].0]))
      && (forall name | name in objects :: exists i :: 0 <= i < |refs| && refs[i].0 == name)
      && (forall i, j | 0 <= i < j < |refs| :: refs[i].0 != refs[j].0)
  {
    hide Sidecar, NamesOf, Sha256;
    var refs, names := Sidecar(objects), NamesOf(objects);
    SidecarLists(objects);
    NamesOnce(objects);
    forall name | name in objects ensures exists i :: 0 <= i < |refs| && refs[i].0 == name {
      assert name in names;
      var i :| 0 <= i < |names| && names[i] == name;
      assert refs[i].0 == name;
    }
  }

  lemma TakenObjects(k: Kernel, env: ProposalEnvelope)
    ensures Taken(k, env).objects ==
      if Harvested(k, env) == map[] then env.artifact.objects else Sidecar(Harvested(k, env))
  {
    hide Harvested, Sidecar, CleanPayload;
  }

  lemma SidecarIsTaken(k: Kernel, env: ProposalEnvelope)
    ensures SidecarTaken(k, env, Taken(k, env).objects)
  {
    hide Sidecar, Harvested, Taken, Sha256;
    var objects := Harvested(k, env);
    TakenObjects(k, env);
    HarvestedAre(k, env);
    if objects == map[] {
      forall name | name in env.objects ensures name !in k.objectNames(env.artifact) {
        assert name !in objects;
      }
    } else {
      var some :| some in objects;
      SidecarHolds(objects);
    }
  }

  lemma RowIsTaken(k: Kernel, env: ProposalEnvelope, now: Timestamp)
    requires ShapeError(k, env).None?
    ensures var row := StampedArtifact(Taken(k, env), now);
      && row == env.artifact.(createdAt := if env.artifact.createdAt == "" then now else env.artifact.createdAt,
                              payload := row.payload, objects := row.objects)
      && PayloadTaken(k, env, row.payload)
      && SidecarTaken(k, env, row.objects)
  {
    PayloadIsTaken(k, env);
    SidecarIsTaken(k, env);
    hide PayloadTaken, SidecarTaken, CleanPayload, Sidecar, Harvested, ShapeError;
  }

  /** The first unit of a submission records one row and one operation and touches nothing else. */
  lemma ProposalIsRecorded(k: Kernel, db: Db, env: ProposalEnvelope, reply: Reply, kids: seq<Reply>, now: Timestamp)
    requires |SubmitTrace(k, db, env, reply, kids, now)| > 1
    ensures var next, id, op := SubmitTrace(k, db, env, reply, kids, now)[1], env.artifact.id, env.operation;
      && id !in db.artifacts && op.opId !in db.operations && id in next.artifacts
      && next.artifacts == db.artifacts[id := next.artifacts[id]]
      && next.operations == db.operations[op.opId := op.(createdAt := if op.createdAt == "" then now else op.createdAt)]
      && next.decisions == db.decisions && next.failures == db.failures
      && next.artifacts[id] == env.artifact.(
           createdAt := if env.artifact.createdAt == "" then now else env.artifact.createdAt,
           payload := next.artifacts[id].payload,
           objects := next.artifacts[id].objects)
      && next.artifacts[id].status == Proposed
      && PayloadTaken(k, env, next.artifacts[id].payload)
      && SidecarTaken(k, env, next.artifacts[id].objects)
  {
    hide PayloadTaken, SidecarTaken, StampedArtifact, Taken;
    SecondState(k, db, env, reply, kids, now);
    RowIsTaken(k, env, now);
    hide SubmitTrace;
  }

  lemma SecondState(k: Kernel, db: Db, env: ProposalEnvelope, reply: Reply, kids: seq<Reply>, now: Timestamp)
    requires |SubmitTrace(k, db, env, reply, kids, now)| > 1
    ensures ShapeError(k, env).None?
    ensures ProposeRow(db, StampedArtifact(Taken(k, env), now), StampedOperation(env.operation, now))
      == Ok(SubmitTrace(k, db, env, reply, kids, now)[1])
  {
    hide ShapeError, ProposeRow, CommitTrace, Linked, Taken, StampedArtifact, StampedOperation;
  }

  // ------------------------------------------------------------------ the revision pointer

  /** A proposal that revises a flagged parent points that parent at itself, and changes nothing else;
      any other proposal changes nothing at all. */
  ghost predicate PointsAtRevision(db: Db, next: Db, env: ProposalEnvelope) {
    if env.operation.opName == "revises" && env.operation.parents != []
       && env.operation.parents[0] in db.artifacts && db.artifacts[env.operation.parents[0]].status == Revised
    then
      var parent := env.operation.parents[0];
      && env.artifact.id in db.artifacts
      && OnlyRowMoves(db, next, parent)
      && next.artifacts[parent].revisedBy == Some(env.artifact.id)
      && next.artifacts[parent] == db.artifacts[parent].(revisedBy := next.artifacts[parent].revisedBy)
    else next == db
  }

  lemma LinkPoints(db: Db, env: ProposalEnvelope, next: Db)
    requires Linked(db, env.operation, env.artifact.id) == Ok(next)
    ensures PointsAtRevision(db, next, env)
  {
  }

  /** In the third state of a submission the first parent of its operation points at the submission
      exactly when the operation revises that parent and it was flagged, or the parent already pointed
      there; and no other row changes in that step. */
  lemma RevisionIsLinked(k: Kernel, db: Db, env: ProposalEnvelope, reply: Reply, kids: seq<Reply>, now: Timestamp)
    requires |SubmitTrace(k, db, env, reply, kids, now)| > 2
    ensures var trace := SubmitTrace(k, db, env, reply, kids, now);
      var parents := env.operation.parents;
      && PointsAtRevision(trace[1], trace[2], env)
      && (parents != [] && parents[0] in trace[1].artifacts ==>
            && parents[0] in trace[2].artifacts
            && (trace[2].artifacts[parents[0]].revisedBy == Some(env.artifact.id) <==>
                  || (env.operation.opName == "revises" && trace[1].artifacts[parents[0]].status == Revised)
                  || trace[1].artifacts[parents[0]].revisedBy == Some(env.artifact.id)))
  {
    hide SubmitTrace, Linked;
    var trace := SubmitTrace(k, db, env, reply, kids, now);
    ThirdState(k, db, env, reply, kids, now);
    LinkPoints(trace[1], env, trace[2]);
  }

  lemma TakenId(k: Kernel, env: ProposalEnvelope)
    ensures Taken(k, env).id == env.artifact.id
  {
    hide Harvested, CleanPayload, Sidecar;
  }

  /** A reply that sends the proposal back lands it `revised` exactly when the lineage has been refined
      fewer times than the cap, and `rejected` otherwise. */
  lemma SentBackExactlyWhen(k: Kernel, db: Db, env: ProposalEnvelope, reply: Reply, kids: seq<Reply>, now: Timestamp)
    requires Keyed(db) && |SubmitTrace(k, db, env, reply, kids, now)| > 3
    requires reply.Verdict? && reply.bundle.status == Revised
    ensures var trace, id := SubmitTrace(k, db, env, reply, kids, now), env.artifact.id;
      && id in trace[3].artifacts
      && (trace[3].artifacts[id].status == Revised <==> LineageRefines(trace[2], env.operation) < k.refineCap)
      && (trace[3].artifacts[id].status == Rejected <==> LineageRefines(trace[2], env.operation) >= k.refineCap)
  {
    hide LineageRefines, SubmitTrace, Committed, Keyed;
    FourthState(k, db, env, reply, kids, now);
    ThirdKeyed(k, db, env, reply, kids, now);
    var trace := SubmitTrace(k, db, env, reply, kids, now);
    RevisedLands(k, trace[2], env.artifact.id, reply, LineageRefines(trace[2], env.operation) >= k.refineCap, now, trace[3]);
  }

  lemma RevisedLands(k: Kernel, db: Db, id: Id, reply: Reply, exhausted: bool, now: Timestamp, next: Db)
    requires Keyed(db) && Committed(db, id, k.gated.Keys, k.identity, reply, exhausted, now) == Ok(next)
    requires reply.Verdict? && reply.bundle.status == Revised
    ensures id in next.artifacts && next.artifacts[id].status == if exhausted then Rejected else Revised
  {
    hide Committed;
    CommittedSettles(db, id, k.gated.Keys, k.identity, reply, exhausted, now);
  }

  lemma ThirdKeyed(k: Kernel, db: Db, env: ProposalEnvelope, reply: Reply, kids: seq<Reply>, now: Timestamp)
    requires Keyed(db) && |SubmitTrace(k, db, env, reply, kids, now)| > 2
    ensures Keyed(SubmitTrace(k, db, env, reply, kids, now)[2])
  {
    hide SubmitTrace, Taken, StampedArtifact, StampedOperation, ProposeRow, Keyed, OnlyRowMoves;
    SecondState(k, db, env, reply, kids, now);
    ThirdState(k, db, env, reply, kids, now);
    var trace := SubmitTrace(k, db, env, reply, kids, now);
    ProposedKeyed(db, StampedArtifact(Taken(k, env), now), StampedOperation(env.operation, now), trace[1]);
    LinkPoints(trace[1], env, trace[2]);
    PointingKeyed(trace[1], trace[2], env);
  }

  lemma ProposedKeyed(db: Db, a: Artifact, op: Operation, next: Db)
    requires Keyed(db) && ProposeRow(db, a, op) == Ok(next)
    ensures Keyed(next)
  {
  }

  lemma PointingKeyed(db: Db, next: Db, env: ProposalEnvelope)
    requires Keyed(db) && PointsAtRevision(db, next, env)
    ensures Keyed(next)
  {
  }

  lemma ThirdState(k: Kernel, db: Db, env: ProposalEnvelope, reply: Reply, kids: seq<Reply>, now: Timestamp)
    requires |SubmitTrace(k, db, env, reply, kids, now)| > 2
    ensures var trace := SubmitTrace(k, db, env, reply, kids, now);
      Linked(trace[1], env.operation, env.artifact.id) == Ok(trace[2])
  {
    TakenId(k, env);
    hide CommitTrace, Taken, ShapeError, ProposeRow, Linked;
  }

  lemma FourthState(k: Kernel, db: Db, env: ProposalEnvelope, reply: Reply, kids: seq<Reply>, now: Timestamp)
    requires |SubmitTrace(k, db, env, reply, kids, now)| > 3
    ensures var trace := SubmitTrace(k, db, env, reply, kids, now);
      Committed(trace[2], env.artifact.id, k.gated.Keys, k.identity, reply,
        LineageRefines(trace[2], env.operation) >= k.refineCap, now) == Ok(trace[3])
  {
    TakenId(k, env);
    hide LineageRefines, Committed, Taken, ShapeError, ProposeRow, Linked, HarvestTrace;
  }

  // ------------------------------------------------------------------ the children

  /** `next` is `db` with one child of the parent recorded: proposed, made by whoever made the parent,
      with the parent's objects, and derived from the parent by one operation. */
  ghost predicate MintsChild(db: Db, next: Db, parent: Artifact, child: Child, i: nat, now: Timestamp) {
    var id := parent.id + "::" + Lower(child.atype) + "::" + Decimal(i);
    && id !in db.artifacts && "op-" + id !in db.operations
    && next.artifacts == db.artifacts[id := Artifact(
         id, child.atype, Inline(child.payload), Proposed, parent.createdBy, now, None, None, false, parent.objects)]
    && next.operations == db.operations["op-" + id :=
         Operation("op-" + id, child.opName, [parent.id], id, OpSuccess, now)]
    && next.decisions == db.decisions && next.failures == db.failures
  }

  lemma ChildMinted(db: Db, next: Db, parent: Artifact, child: Child, i: nat, now: Timestamp)
    requires ProposeRow(db, ChildRow(parent, child, i, now), ChildEdge(parent, child, i, now)) == Ok(next)
    ensures MintsChild(db, next, parent, child, i, now)
  {
    hide Lower, Decimal;
  }

  /** A harvest alternates: child `i` is recorded, and then committed with its own reply and no cap,
      whatever became of the children before it. */
  lemma {:induction false} HarvestMints(k: Kernel, db: Db, parent: Artifact, children: seq<Child>, index: nat,
                                        replies: seq<Reply>, now: Timestamp, n: nat)
    requires index <= |children| && n < |HarvestTrace(k, db, parent, children, index, replies, now)|
    ensures var trace := HarvestTrace(k, db, parent, children, index, replies, now);
      var before := if n == 0 then db else trace[n - 1];
      var i := index + n / 2;
      && i < |children|
      && if n % 2 == 0 then MintsChild(before, trace[n], parent, children[i], i, now)
         else Committed(before, parent.id + "::" + Lower(children[i].atype) + "::" + Decimal(i), k.gated.Keys, k.identity,
                        if n / 2 < |replies| then replies[n / 2] else NO_REPLY, false, now) == Ok(trace[n])
    decreases |children| - index
  {
    hide Committed, ProposeRow, MintsChild, Lower, Decimal;
    var child, op := ChildRow(parent, children[index], index, now), ChildEdge(parent, children[index], index, now);
    var d1 := ProposeRow(db, child, op).value;
    ChildMinted(db, d1, parent, children[index], index, now);
    if n > 1 {
      var d2 := Committed(d1, child.id, k.gated.Keys, k.identity, FirstReply(replies), false, now).value;
      var rest := HarvestTrace(k, d2, parent, children, index + 1, LaterReplies(replies), now);
      assert HarvestTrace(k, db, parent, children, index, replies, now) == [d1, d2] + rest;
      HarvestMints(k, d2, parent, children, index + 1, LaterReplies(replies), now, n - 2);
    }
  }
}
