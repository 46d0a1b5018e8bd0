/** The store: one database connection behind a re-entrant transaction.

    `committed` is what is durable, `working` is what this connection reads, and `disk` scripts the
    statements and COMMITs that raise: one entry a write, `true` raises, past the end none does. */
module Store {

  import opened Contracts
  import opened Tables

  class SqliteStore {
    var committed: Db
    var working: Db
    var depth: nat
    var disk: seq<bool>
    var blobs: map<string, Bytes>

    constructor (script: seq<bool>)
      ensures committed == working == EMPTY_DB && depth == 0 && disk == script && blobs == map[]
    {
      committed, working, depth, disk, blobs := EMPTY_DB, EMPTY_DB, 0, script, map[];
    }

    ghost predicate Healthy()
      reads this
    {
      true !in disk
    }

    /** The contract of one atomic unit whose effect on the tables is `spec`: with no error the
        effect is there, and durable when this unit is the outermost; with an error nothing became
        durable, and the connection is back at the durable state unless it was the COMMIT itself
        that raised. On a healthy disk only the errors of `spec` occur. */
    twostate predicate Atomic(spec: Result<Db, Failure>, new error: Option<Failure>)
      reads this
    {
      && depth == old(depth)
      && blobs == old(blobs)
      && (old(Healthy()) ==> Healthy())
      && match error
         case None =>
           && spec.Ok?
           && working == spec.value
           && committed == (if depth == 0 then working else old(committed))
         case Some(f) =>
           && committed == old(committed)
           && (old(Healthy()) ==> spec == Err(f))
           && (f !in {StatementRaised, CommitRaised} ==> spec == Err(f))
           && (f == CommitRaised ==> depth == 0 && spec.Ok?)
           && (depth == 0 ==>
                working == (if f == CommitRaised then spec.value
                            else if f == NotProposedStatus then old(working)
                            else committed))
    }

    method Raises() returns (raised: bool)
      modifies `disk
      ensures old(Healthy()) ==> !raised && Healthy()
    {
      raised := false;
      if disk != [] {
        raised := disk[0];
        disk := disk[1..];
      }
    }

    method Enter()
      modifies `depth
      ensures depth == old(depth) + 1
    {
      depth := depth + 1;
    }

    /** The end of a transaction block: the outermost one commits or, when its body raised, rolls
        back; a nested one does neither. The depth is restored on every path. */
    method Leave(bodyError: Option<Failure>) returns (error: Option<Failure>)
      requires depth > 0
      modifies this
      ensures depth == old(depth) - 1 && blobs == old(blobs)
      ensures old(Healthy()) ==> Healthy() && error == bodyError
      ensures depth > 0 ==> committed == old(committed) && working == old(working) && error == bodyError
      ensures bodyError.Some? ==> error == bodyError && committed == old(committed)
      ensures depth == 0 && bodyError.Some? ==> working == committed
      ensures bodyError.None? ==> working == old(working) && error in {None, Some(CommitRaised)}
      ensures depth == 0 && bodyError.None? ==>
        committed == if error.None? then old(working) else old(committed)
    {
      error := bodyError;
      if depth == 1 {
        if bodyError.Some? {
          working := committed;
        } else {
          var raised := Raises();
          if raised {
            error := Some(CommitRaised);
          } else {
            committed := working;
          }
        }
      }
      depth := depth - 1;
    }

    /** One write statement: the connection moves to `next` unless the statement raises. */
    method Execute(next: Db) returns (error: Option<Failure>)
      modifies `disk, `working
      ensures old(Healthy()) ==> Healthy() && error == None
      ensures error in {None, Some(StatementRaised)}
      ensures working == if error.None? then next else old(working)
    {
      var raised := Raises();
      if raised {
        error := Some(StatementRaised);
      } else {
        working := next;
        error := None;
      }
    }

    /** One table update inside its own transaction block. */
    method Update(spec: Result<Db, Failure>) returns (error: Option<Failure>)
      requires spec.Err? ==> spec.error !in {NotProposedStatus, CommitRaised}
      modifies this
      ensures Atomic(spec, error)
      ensures depth > 0 && error.Some? ==> working == old(working)
    {
      Enter();
      match spec
      case Err(f) =>
        error := Leave(Some(f));
      case Ok(next) =>
        error := Execute(next);
        error := Leave(error);
    }

    // ---------------------------------------------------------------- reads

    function GetArtifact(id: Id): Option<Artifact>
      reads this
    {
      if id in working.artifacts then Some(working.artifacts[id]) else None
    }

    function QueryArtifacts(atype: Option<string>, status: Option<Status>): seq<Artifact>
      reads this
    {
      Query(working.artifacts, atype, status)
    }

    // ---------------------------------------------------------------- writes

    method Propose(a: Artifact, op: Operation, now: Timestamp) returns (error: Option<Failure>)
      modifies this
      ensures Atomic(ProposeRow(old(working), StampedArtifact(a, now), StampedOperation(op, now)), error)
      ensures error.None? ==>
        && a.status == Proposed && a.id !in old(working).artifacts && op.opId !in old(working).operations
        && working.artifacts ==
             old(working).artifacts[a.id := a.(createdAt := if a.createdAt == "" then now else a.createdAt)]
        && working.operations ==
             old(working).operations[op.opId := op.(createdAt := if op.createdAt == "" then now else op.createdAt)]
        && working.decisions == old(working).decisions && working.failures == old(working).failures
    {
      if a.status != Proposed { return Some(NotProposedStatus); }
      var row, edge := StampedArtifact(a, now), StampedOperation(op, now);
      Enter();
      if row.id in working.artifacts {
        error := Leave(Some(IdInUse));
        return;
      }
      if edge.opId in working.operations {
        error := Leave(Some(OpIdInUse));
        return;
      }
      error := Execute(working.(artifacts := working.artifacts[row.id := row]));
      if error.None? {
        error := Execute(working.(operations := working.operations[edge.opId := edge]));
      }
      error := Leave(error);
    }

    method RecordDecision(d: Decision) returns (error: Option<Failure>)
      modifies this
      ensures Atomic(Ok(RecordRow(old(working), d)), error)
      ensures error.None? ==> working == old(working).(decisions := old(working).decisions + [d])
    {
      error := Update(Ok(RecordRow(working, d)));
    }

    method SetStatus(id: Id, s: Status) returns (error: Option<Failure>)
      modifies this
      ensures Atomic(SetStatusRow(old(working), id, s), error)
      ensures error.None? ==> id in old(working).artifacts && OnlyRowMoves(old(working), working, id)
      ensures error.None? ==> working.artifacts[id] == old(working).artifacts[id].(status := s)
    {
      error := Update(SetStatusRow(working, id, s));
    }

    method AcceptSuperseding(newId: Id, oldId: Id) returns (error: Option<Failure>)
      modifies this
      ensures Atomic(SupersedeRows(old(working), newId, oldId), error)
      ensures error.None? ==> newId in old(working).artifacts && oldId in old(working).artifacts
      ensures error.None? && newId != oldId ==>
        && working == old(working).(artifacts := working.artifacts)
        && working.artifacts.Keys == old(working).artifacts.Keys
        && (forall id | id in working.artifacts && id !in {newId, oldId} ::
              working.artifacts[id] == old(working).artifacts[id])
        && working.artifacts[newId] == old(working).artifacts[newId].(status := Accepted)
        && working.artifacts[oldId] ==
             old(working).artifacts[oldId].(status := Superseded, supersededBy := Some(newId))
    {
      Enter();
      if newId !in working.artifacts || oldId !in working.artifacts {
        error := Leave(Some(UnknownArtifact));
        return;
      }
      error := Execute(working.(artifacts :=
        working.artifacts[newId := working.artifacts[newId].(status := Accepted)]));
      if error.None? {
        error := Execute(working.(artifacts := working.artifacts[oldId :=
          working.artifacts[oldId].(status := Superseded, supersededBy := Some(newId))]));
      }
      error := Leave(error);
    }

    /** Points a row at its revision and marks it revised; no other column and no other row changes. */
    method LinkRevision(oldId: Id, newId: Id) returns (error: Option<Failure>)
      modifies this
      ensures Atomic(LinkRow(old(working), oldId, newId), error)
      ensures error.None? ==>
        && oldId in old(working).artifacts && newId in old(working).artifacts
        && OnlyRowMoves(old(working), working, oldId)
        && working.artifacts[oldId].status == Revised && working.artifacts[oldId].revisedBy == Some(newId)
        && working.artifacts[oldId] == old(working).artifacts[oldId].(
             status := working.artifacts[oldId].status, revisedBy := working.artifacts[oldId].revisedBy)
    {
      error := Update(LinkRow(working, oldId, newId));
    }

    method RecordCycleFailure(f: CycleFailure) returns (error: Option<Failure>)
      modifies this
      ensures Atomic(Ok(FailureRow(old(working), f)), error)
      ensures error.None? ==> working == old(working).(failures := old(working).failures + [f])
    {
      error := Update(Ok(FailureRow(working, f)));
    }

    // ---------------------------------------------------------------- objects

    /** Every stored object is filed under the hash of its own bytes. */
    ghost predicate ContentAddressed()
      reads this
    {
      forall h | h in blobs :: h == Sha256(blobs[h])
    }

    method PutObject(data: Bytes) returns (ref: ObjectRef)
      requires ContentAddressed()
      modifies `blobs
      ensures ContentAddressed()
      ensures ref == ObjectRef("sha256:" + Sha256(data), Sha256(data))
      ensures blobs == old(blobs)[ref.contentHash := data]
      ensures forall h | h in old(blobs) :: h in blobs && blobs[h] == old(blobs)[h]
    {
      var hash := Sha256(data);
      if hash in blobs { Sha256Injective(blobs[hash], data); }
      blobs := blobs[hash := data];
      ref := ObjectRef("sha256:" + hash, hash);
    }

    function GetObject(hash: string): Result<Bytes, Failure>
      reads this
    {
      if hash in blobs then Ok(blobs[hash]) else Err(UnknownObject)
    }
  }
}
