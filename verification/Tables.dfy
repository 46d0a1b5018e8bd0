/** The rows of the store as one value, and the effect of every statement on them. */
module Tables {

  import opened Contracts
  import opened Ordering

  datatype Decision = Decision(
    artifactId: Id,
    gate: string,
    verdict: Kind,
    rationale: string,
    defects: Option<seq<string>>,
    score: Option<real>,
    createdAt: Timestamp)

  datatype CycleFailure = CycleFailure(
    kind: string,
    detail: string,
    createdAt: Timestamp,
    transcriptRef: Option<string>)

  datatype Db = Db(
    artifacts: map<Id, Artifact>,
    operations: map<Id, Operation>,
    decisions: seq<Decision>,
    failures: seq<CycleFailure>)

  const EMPTY_DB := Db(map[], map[], [], [])

  /** What a raised error inside the control plane is. */
  datatype Failure =
    | NotProposedStatus
    | IdInUse
    | OpIdInUse
    | UnknownArtifact
    | UnknownObject
    | StatementRaised
    | CommitRaised
    | CommitMisuse
    | NoImplicitAccept
    | ProposerIsGate
    | BundleInconsistent
    | IllegalTransition(from: Status, to: Status)
    | NoProvenance
    | UnknownIncumbent
    | DispatchRaised(exc: Exception)

  /** Rows are filed under their own primary key. */
  ghost predicate Keyed(db: Db) {
    && (forall k | k in db.artifacts :: db.artifacts[k].id == k)
    && (forall k | k in db.operations :: db.operations[k].opId == k)
  }

  /** Every operation outputs an artifact that exists. */
  ghost predicate OutputsStored(db: Db) {
    forall o | o in db.operations :: db.operations[o].outputId in db.artifacts
  }

  // ------------------------------------------------------------------ reads

  function Stamps(rows: map<Id, Artifact>): map<Id, Timestamp> {
    map k | k in rows :: rows[k].createdAt
  }

  function OpStamps(ops: map<Id, Operation>): map<Id, Timestamp> {
    map k | k in ops :: ops[k].createdAt
  }

  function Matching(arts: map<Id, Artifact>, atype: Option<string>, status: Option<Status>): set<Id> {
    set k | k in arts
            && (atype.Some? ==> arts[k].atype == atype.value)
            && (status.Some? ==> arts[k].status == status.value)
  }

  /** The rows a query returns: the matching ones, in query order. */
  function Query(arts: map<Id, Artifact>, atype: Option<string>, status: Option<Status>): (rows: seq<Artifact>)
    ensures |rows| == |Matching(arts, atype, status)|
    ensures forall a | a in rows :: exists k :: k in Matching(arts, atype, status) && arts[k] == a
    ensures forall k | k in Matching(arts, atype, status) :: arts[k] in rows
  {
    var ks := Ordered(Stamps(arts), Matching(arts, atype, status));
    var rows := seq(|ks|, i requires 0 <= i < |ks| =>
      assert ks[i] in ks; arts[ks[i]]);
    assert forall k | k in Matching(arts, atype, status) :: arts[k] in rows by {
      forall k | k in Matching(arts, atype, status) ensures arts[k] in rows {
        assert k in ks;
        var i :| 0 <= i < |ks| && ks[i] == k;
        assert rows[i] == arts[k];
      }
    }
    rows
  }

  function Into(ops: map<Id, Operation>, id: Id): set<Id> {
    set k | k in ops && ops[k].outputId == id
  }

  function OperationsInto(ops: map<Id, Operation>, id: Id): (into: seq<Operation>)
    ensures |into| == |Into(ops, id)|
    ensures forall op :: op in into <==> exists k :: k in Into(ops, id) && ops[k] == op
  {
    var ks := Ordered(OpStamps(ops), Into(ops, id));
    var into := seq(|ks|, i requires 0 <= i < |ks| =>
      assert ks[i] in ks; ops[ks[i]]);
    assert forall k | k in Into(ops, id) :: ops[k] in into by {
      forall k | k in Into(ops, id) ensures ops[k] in into {
        assert k in ks;
        var i :| 0 <= i < |ks| && ks[i] == k;
        assert into[i] == ops[k];
      }
    }
    into
  }

  /** A query returns its rows by timestamp, and those of one timestamp by id. */
  lemma QueryIsOrdered(db: Db, atype: Option<string>, status: Option<Status>, i: nat, j: nat)
    requires Keyed(db) && i < j < |Query(db.artifacts, atype, status)|
    ensures var a, b := Query(db.artifacts, atype, status)[i], Query(db.artifacts, atype, status)[j];
      TextLess(a.createdAt, b.createdAt) || (a.createdAt == b.createdAt && TextLess(a.id, b.id))
  {
    var ks := Ordered(Stamps(db.artifacts), Matching(db.artifacts, atype, status));
    OrderedSorted(Stamps(db.artifacts), Matching(db.artifacts, atype, status));
    assert ks[i] in ks && ks[j] in ks;
  }

  /** So do the operations into an artifact. */
  lemma OperationsAreOrdered(db: Db, id: Id, i: nat, j: nat)
    requires Keyed(db) && i < j < |OperationsInto(db.operations, id)|
    ensures var a, b := OperationsInto(db.operations, id)[i], OperationsInto(db.operations, id)[j];
      TextLess(a.createdAt, b.createdAt) || (a.createdAt == b.createdAt && TextLess(a.opId, b.opId))
  {
    var ks := Ordered(OpStamps(db.operations), Into(db.operations, id));
    OrderedSorted(OpStamps(db.operations), Into(db.operations, id));
    assert ks[i] in ks && ks[j] in ks;
  }

  function DecisionsFor(ds: seq<Decision>, id: Id): seq<Decision> {
    if ds == [] then []
    else
      var rest := DecisionsFor(ds[..|ds| - 1], id);
      if ds[|ds| - 1].artifactId == id then rest + [ds[|ds| - 1]] else rest
  }

  /** The recorded scores of one artifact by gate; a later row of the same gate wins. */
  function GateScores(ds: seq<Decision>, id: Id): map<string, real> {
    if ds == [] then map[]
    else
      var d := ds[|ds| - 1];
      var rest := GateScores(ds[..|ds| - 1], id);
      if d.artifactId == id && d.score.Some? then rest[d.gate := d.score.value] else rest
  }

  /** The row scores the artifact at the gate. */
  ghost predicate Scores(d: Decision, id: Id, gate: string) {
    d.artifactId == id && d.gate == gate && d.score.Some?
  }

  /** An artifact has a score at a gate exactly when a row says so, and the last such row counts. */
  lemma {:induction false} GateScoresAre(ds: seq<Decision>, id: Id, gate: string)
    ensures gate in GateScores(ds, id) <==> exists i :: 0 <= i < |ds| && Scores(ds[i], id, gate)
    ensures forall i | 0 <= i < |ds| && Scores(ds[i], id, gate) && (forall j | i < j < |ds| :: !Scores(ds[j], id, gate)) ::
      gate in GateScores(ds, id) && GateScores(ds, id)[gate] == ds[i].score.value
  {
    if ds != [] {
      var n := |ds| - 1;
      GateScoresAre(ds[..n], id, gate);
      assert forall i | 0 <= i < n :: ds[..n][i] == ds[i];
    }
  }

  /** The rows of one artifact, in the order in which they were recorded. */
  lemma {:induction false} DecisionsForAre(a: seq<Decision>, b: seq<Decision>, id: Id)
    ensures DecisionsFor(a + b, id) == DecisionsFor(a, id) + DecisionsFor(b, id)
    ensures (forall d | d in a :: d.artifactId == id) ==> DecisionsFor(a, id) == a
    ensures (forall d | d in a :: d.artifactId != id) ==> DecisionsFor(a, id) == []
    decreases |a| + |b|
  {
    if b != [] {
      var n := |b| - 1;
      assert (a + b)[..|a| + n] == a + b[..n];
      DecisionsForAre(a, b[..n], id);
    } else {
      assert a + b == a;
      if a != [] {
        var m := |a| - 1;
        assert a == a[..m] + [a[m]];
        DecisionsForAre(a[..m], [], id);
      }
    }
  }

  lemma {:induction false} NoRowsNoScores(ds: seq<Decision>, id: Id)
    requires forall d | d in ds :: d.artifactId != id
    ensures GateScores(ds, id) == map[]
  {
    if ds != [] {
      NoRowsNoScores(ds[..|ds| - 1], id);
      assert ds[|ds| - 1] in ds;
    }
  }

  lemma {:induction false} ScoresOfOthersKept(was: seq<Decision>, more: seq<Decision>, id: Id)
    requires forall d | d in more :: d.artifactId != id
    ensures GateScores(was + more, id) == GateScores(was, id)
  {
    if more == [] {
      assert was + more == was;
    } else {
      var n := |more| - 1;
      assert (was + more)[..|was| + n] == was + more[..n];
      assert more[n] in more;
      ScoresOfOthersKept(was, more[..n], id);
    }
  }

  lemma {:induction false} ScoresOfNewcomer(was: seq<Decision>, more: seq<Decision>, id: Id)
    requires forall d | d in was :: d.artifactId != id
    ensures GateScores(was + more, id) == GateScores(more, id)
  {
    if more == [] {
      assert was + more == was;
      NoRowsNoScores(was, id);
    } else {
      var n := |more| - 1;
      assert (was + more)[..|was| + n] == was + more[..n];
      ScoresOfNewcomer(was, more[..n], id);
    }
  }

  // ------------------------------------------------------------------ writes

  /** Nothing but the row of `id` differs: no other row, no operation, no decision, no failure. */
  ghost predicate OnlyRowMoves(db: Db, next: Db, id: Id) {
    && next.artifacts.Keys == db.artifacts.Keys
    && (forall k | k in db.artifacts && k != id :: next.artifacts[k] == db.artifacts[k])
    && next.operations == db.operations && next.decisions == db.decisions && next.failures == db.failures
  }

  /** Rows handed in without a timestamp get one. */
  function StampedArtifact(a: Artifact, now: Timestamp): Artifact {
    if a.createdAt != "" then a else a.(createdAt := now)
  }

  function StampedOperation(op: Operation, now: Timestamp): Operation {
    if op.createdAt != "" then op else op.(createdAt := now)
  }

  function ProposeRow(db: Db, a: Artifact, op: Operation): Result<Db, Failure> {
    if a.status != Proposed then Err(NotProposedStatus)
    else if a.id in db.artifacts then Err(IdInUse)
    else if op.opId in db.operations then Err(OpIdInUse)
    else Ok(db.(artifacts := db.artifacts[a.id := a], operations := db.operations[op.opId := op]))
  }

  function RecordRow(db: Db, d: Decision): Db {
    db.(decisions := db.decisions + [d])
  }

  function SetStatusRow(db: Db, id: Id, s: Status): Result<Db, Failure> {
    if id !in db.artifacts then Err(UnknownArtifact)
    else Ok(db.(artifacts := db.artifacts[id := db.artifacts[id].(status := s)]))
  }

  function SupersedeRows(db: Db, newId: Id, oldId: Id): Result<Db, Failure> {
    if newId !in db.artifacts || oldId !in db.artifacts then Err(UnknownArtifact)
    else
      var one := db.artifacts[newId := db.artifacts[newId].(status := Accepted)];
      Ok(db.(artifacts := one[oldId := one[oldId].(status := Superseded, supersededBy := Some(newId))]))
  }

  function LinkRow(db: Db, oldId: Id, newId: Id): Result<Db, Failure> {
    if oldId !in db.artifacts || newId !in db.artifacts then Err(UnknownArtifact)
    else Ok(db.(artifacts := db.artifacts[oldId :=
      db.artifacts[oldId].(status := Revised, revisedBy := Some(newId))]))
  }

  function FailureRow(db: Db, f: CycleFailure): Db {
    db.(failures := db.failures + [f])
  }
}
