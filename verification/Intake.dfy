/** Proposal intake on values: the states the tables pass through while one proposal is taken in,
    committed, and (when accepted) has its children harvested. */
module Intake {

  import opened Contracts
  import opened Ordering
  import opened Tables
  import opened Commit
  import opened Text

  datatype StoreInput = Incumbents | RejectedLog

  datatype OpSignature = OpSignature(required: seq<string>, objectKeys: seq<string>)

  /** A child the domain declares on an accepted parent. */
  datatype Child = Child(atype: string, opName: string, payload: Json)

  /** The configuration of one task, as far as intake reads it. A task without a harvester has one
      that declares no children. */
  datatype Kernel = Kernel(
    operations: map<string, OpSignature>,
    gated: map<string, set<StoreInput>>,
    shapeError: Artifact -> Option<string>,
    objectNames: Artifact -> set<string>,
    harvest: Artifact -> seq<Child>,
    identity: string,
    refineCap: int)

  const REVISES := "revises"

  // ------------------------------------------------------------------ shape and harvest

  function ShapeError(k: Kernel, env: ProposalEnvelope): Option<string> {
    if !env.artifact.payload.Inline? || !env.artifact.payload.value.JObj? then
      Some("a proposal payload must be a JSON object")
    else if env.operation.opName in k.operations
            && exists key | key in k.operations[env.operation.opName].required ::
                 key !in env.artifact.payload.value.fields then
      Some("payload is missing required key(s)")
    else k.shapeError(env.artifact)
  }

  function AllowedKeys(sig: OpSignature): set<string> {
    (set key | key in sig.required) + (set key | key in sig.objectKeys)
  }

  /** Where the operation declares its payload keys, only those survive. */
  function CleanPayload(k: Kernel, env: ProposalEnvelope): Payload {
    var payload := env.artifact.payload;
    if env.operation.opName !in k.operations || !payload.Inline? || !payload.value.JObj? then payload
    else
      var allowed := AllowedKeys(k.operations[env.operation.opName]);
      if allowed == {} then payload
      else Inline(JObj(map key | key in payload.value.fields && key in allowed :: payload.value.fields[key]))
  }

  /** Only the declared objects are harvested. */
  function Harvested(k: Kernel, env: ProposalEnvelope): map<string, Bytes> {
    map name | name in env.objects && name in k.objectNames(env.artifact) :: env.objects[name]
  }

  function RefOf(data: Bytes): ObjectRef {
    ObjectRef("sha256:" + Sha256(data), Sha256(data))
  }

  function Sidecar(objects: map<string, Bytes>): (refs: seq<(string, ObjectRef)>)
    ensures |refs| == |objects|
    ensures forall name :: name in objects <==> (exists ref :: (name, ref) in refs)
    ensures forall pair | pair in refs :: pair.0 in objects && pair.1 == RefOf(objects[pair.0])
  {
    var names := Ordered(map name | name in objects :: "", objects.Keys);
    var refs := seq(|names|, i requires 0 <= i < |names| =>
      assert names[i] in names; (names[i], RefOf(objects[names[i]])));
    assert forall name | name in objects :: exists ref :: (name, ref) in refs by {
      forall name | name in objects ensures exists ref :: (name, ref) in refs {
        assert name in names;
        var i :| 0 <= i < |names| && names[i] == name;
        assert refs[i] == (name, RefOf(objects[name]));
      }
    }
    refs
  }

  /** The row that is proposed: payload stripped, harvested objects as a sidecar. */
  function Taken(k: Kernel, env: ProposalEnvelope): Artifact {
    var stripped := env.artifact.(payload := CleanPayload(k, env));
    if Harvested(k, env) == map[] then stripped
    else stripped.(objects := Sidecar(Harvested(k, env)))
  }

  // ------------------------------------------------------------------ lineage

  function RevisesOnly(ops: seq<Operation>): seq<Operation> {
    if ops == [] then []
    else (if ops[0].opName == REVISES then [ops[0]] else []) + RevisesOnly(ops[1..])
  }

  /** The artifact this one revises, by its first `revises` operation. */
  function RevisedParent(db: Db, id: Id): Option<Id> {
    var revises := RevisesOnly(OperationsInto(db.operations, id));
    if revises != [] && revises[0].parents != [] then Some(revises[0].parents[0]) else None
  }

  predicate IsRevised(db: Db, id: Id) {
    id in db.artifacts && db.artifacts[id].status == Revised
  }

  /** The walk back over `revised` ancestors; it stops at an artifact it has seen. */
  function RefineWalk(db: Db, current: Option<Id>, seen: set<Id>): nat
    decreases db.artifacts.Keys - seen
  {
    if current.None? || current.value in seen || !IsRevised(db, current.value) then 0
    else 1 + RefineWalk(db, RevisedParent(db, current.value), seen + {current.value})
  }

  function LineageRefines(db: Db, op: Operation): nat {
    if op.opName != REVISES || op.parents == [] then 0
    else RefineWalk(db, Some(op.parents[0]), {})
  }

  function Linked(db: Db, op: Operation, newId: Id): Result<Db, Failure> {
    if op.opName == REVISES && op.parents != [] && IsRevised(db, op.parents[0])
    then LinkRow(db, op.parents[0], newId)
    else Ok(db)
  }

  // ------------------------------------------------------------------ traces

  function ChildArtifact(parent: Artifact, child: Child, index: nat, now: Timestamp): Artifact {
    Artifact(parent.id + "::" + Lower(child.atype) + "::" + Decimal(index), child.atype,
      Inline(child.payload), Proposed, parent.createdBy, now, None, None, false, parent.objects)
  }

  function ChildOperation(parent: Artifact, child: Child, index: nat, now: Timestamp): Operation {
    var id := ChildArtifact(parent, child, index, now).id;
    Operation("op-" + id, child.opName, [parent.id], id, OpSuccess, now)
  }

  /** The rows a harvested child is proposed with. */
  function ChildRow(parent: Artifact, child: Child, index: nat, now: Timestamp): Artifact {
    StampedArtifact(ChildArtifact(parent, child, index, now), now)
  }

  function ChildEdge(parent: Artifact, child: Child, index: nat, now: Timestamp): Operation {
    StampedOperation(ChildOperation(parent, child, index, now), now)
  }

  function FirstReply(replies: seq<Reply>): Reply {
    if replies != [] then replies[0] else NO_REPLY
  }

  function LaterReplies(replies: seq<Reply>): seq<Reply> {
    if replies != [] then replies[1..] else []
  }

  const NO_REPLY := Raises(Exception("GateUnavailable", "no reply"))

  /** The states after each unit of work of a child harvest: a proposed child, then its commit. A
      child that fails ends the harvest. `replies` are the verifier's, one a child from `index` on. */
  function HarvestTrace(k: Kernel, db: Db, parent: Artifact, children: seq<Child>, index: nat,
                        replies: seq<Reply>, now: Timestamp): seq<Db>
    requires index <= |children|
    decreases |children| - index
  {
    if index == |children| then []
    else
      var child := ChildRow(parent, children[index], index, now);
      match ProposeRow(db, child, ChildEdge(parent, children[index], index, now))
      case Err(_) => []
      case Ok(d1) =>
        match Committed(d1, child.id, k.gated.Keys, k.identity, FirstReply(replies), false, now)
        case Err(_) => [d1]
        case Ok(d2) => [d1, d2] + HarvestTrace(k, d2, parent, children, index + 1, LaterReplies(replies), now)
  }

  function Exhausted(k: Kernel, db: Db, op: Operation): bool {
    LineageRefines(db, op) >= k.refineCap
  }

  /** The states from the commit of a proposal on. */
  function CommitTrace(k: Kernel, db: Db, row: Artifact, op: Operation, reply: Reply,
                       kids: seq<Reply>, now: Timestamp): seq<Db>
  {
    match Committed(db, row.id, k.gated.Keys, k.identity, reply, Exhausted(k, db, op), now)
    case Err(_) => []
    case Ok(next) =>
      [next] + if reply.Verdict? && reply.bundle.status == Accepted
               then HarvestTrace(k, next, row, k.harvest(row), 0, kids, now)
               else []
  }

  /** The states one submission passes through when no collaborator raises, in order: as found,
      proposed, linked, committed, and then the harvest. A raise anywhere cuts the list short, so
      the states a real submission can leave behind are the members of this list. */
  function SubmitTrace(k: Kernel, db: Db, env: ProposalEnvelope, reply: Reply,
                       kids: seq<Reply>, now: Timestamp): (trace: seq<Db>)
    ensures trace != [] && trace[0] == db
  {
    if ShapeError(k, env).Some? then [db]
    else
      var row := Taken(k, env);
      match ProposeRow(db, StampedArtifact(row, now), StampedOperation(env.operation, now))
      case Err(_) => [db]
      case Ok(d1) =>
        match Linked(d1, env.operation, row.id)
        case Err(_) => [db, d1]
        case Ok(d2) => [db, d1, d2] + CommitTrace(k, d2, row, env.operation, reply, kids, now)
  }
}
