/** The commit path on values: what one verdict bundle does to the tables, or why it does nothing. */
module Commit {

  import opened Contracts
  import opened Lifecycle
  import opened Tables

  /** What a commit attempt produced; `status` is the artifact's new status. */
  datatype CommitResult = CommitResult(
    artifactId: Id,
    status: Status,
    defects: Option<seq<string>>,
    decisions: seq<Decision>)

  /** The checks before the handoff: the artifact exists, is `proposed`, is gated, and was not made
      by the verifier. */
  function Admit(db: Db, id: Id, gated: set<string>, identity: string): Result<Artifact, Failure> {
    if id !in db.artifacts then Err(CommitMisuse)
    else if db.artifacts[id].status != Proposed then Err(CommitMisuse)
    else if db.artifacts[id].atype !in gated then Err(NoImplicitAccept)
    else if identity == db.artifacts[id].createdBy then Err(ProposerIsGate)
    else Ok(db.artifacts[id])
  }

  /** A bundle's status agrees with its decisions. */
  predicate Consistent(b: VerdictBundle) {
    && ((exists d | d in b.decisions :: d.kind == Reject) ==> b.status == Rejected)
    && ((exists d | d in b.decisions :: d.kind == Refine) ==> b.status == Revised)
  }

  function DefectsFrom(ds: seq<GateDecision>): Option<seq<string>> {
    if ds == [] then None
    else if ds[0].kind == Refine && ds[0].defects.Some? && ds[0].defects.value != [] then ds[0].defects
    else DefectsFrom(ds[1..])
  }

  function RowOf(id: Id, g: GateDecision, now: Timestamp): Decision {
    Decision(id, g.gate, g.kind, g.rationale, g.defects, g.score, now)
  }

  function RowsOf(id: Id, gs: seq<GateDecision>, now: Timestamp): (rows: seq<Decision>)
    ensures |rows| == |gs|
    ensures forall d | d in rows :: d.artifactId == id
  {
    seq(|gs|, i requires 0 <= i < |gs| => RowOf(id, gs[i], now))
  }

  predicate HasProvenance(ops: map<Id, Operation>, a: Artifact) {
    a.isRoot || OperationsInto(ops, a.id) != []
  }

  /** Accept, superseding the named incumbent if any. */
  function AcceptRows(db: Db, a: Artifact, supersedes: Option<Id>): Result<Db, Failure> {
    if supersedes.None? then SetStatusRow(db, a.id, Accepted)
    else if supersedes.value !in db.artifacts then Err(UnknownIncumbent)
    else
      var was := db.artifacts[supersedes.value].status;
      if !IsLegalTransition(was, Superseded) then Err(IllegalTransition(was, Superseded))
      else SupersedeRows(db, a.id, supersedes.value)
  }

  /** The status part of a commit, once the decision rows are in. */
  function SettleRows(db: Db, a: Artifact, b: VerdictBundle, exhausted: bool): Result<Db, Failure> {
    if !IsLegalTransition(Proposed, b.status) then Err(IllegalTransition(Proposed, b.status))
    else
      match b.status
      case Rejected => SetStatusRow(db, a.id, Rejected)
      case Revised => SetStatusRow(db, a.id, if exhausted then Rejected else Revised)
      case Tentative =>
        if HasProvenance(db.operations, a) then SetStatusRow(db, a.id, Tentative) else Err(NoProvenance)
      case Accepted =>
        if HasProvenance(db.operations, a) then AcceptRows(db, a, b.supersedes) else Err(NoProvenance)
      case _ => Err(BundleInconsistent)
  }

  function ResultOf(a: Artifact, b: VerdictBundle, exhausted: bool, now: Timestamp): CommitResult {
    CommitResult(
      a.id,
      if b.status == Revised && exhausted then Rejected else b.status,
      if b.status == Revised then DefectsFrom(b.decisions) else None,
      RowsOf(a.id, b.decisions, now))
  }

  /** One bundle applied to the tables, from the consistency check to the last write. */
  function Land(db: Db, a: Artifact, reply: Reply, exhausted: bool, now: Timestamp): Result<Db, Failure> {
    if reply.Raises? then Err(DispatchRaised(reply.exc))
    else if !Consistent(reply.bundle) then Err(BundleInconsistent)
    else
      SettleRows(
        db.(decisions := db.decisions + RowsOf(a.id, reply.bundle.decisions, now)),
        a, reply.bundle, exhausted)
  }

  function Committed(db: Db, id: Id, gated: set<string>, identity: string,
                     reply: Reply, exhausted: bool, now: Timestamp): Result<Db, Failure> {
    var admitted := Admit(db, id, gated, identity);
    if admitted.Err? then Err(admitted.error)
    else Land(db, admitted.value, reply, exhausted, now)
  }

  /** What a commit changes and what it leaves alone: the decision rows are appended, only the
      artifact and (under an accept) the incumbent move, each along an edge of the table, and no
      other column of any row changes. */
  ghost predicate Settles(db: Db, next: Db, a: Artifact, b: VerdictBundle, exhausted: bool, now: Timestamp)
  {
    && a.id in db.artifacts
    && next.operations == db.operations
    && next.failures == db.failures
    && next.decisions == db.decisions + RowsOf(a.id, b.decisions, now)
    && next.artifacts.Keys == db.artifacts.Keys
    && IsLegalTransition(Proposed, b.status)
    && next.artifacts[a.id] == db.artifacts[a.id].(
         status := if b.status == Revised && exhausted then Rejected else b.status)
    && (forall k | k in db.artifacts && k != a.id
          && !(b.status == Accepted && b.supersedes == Some(k)) ::
          next.artifacts[k] == db.artifacts[k])
    && (b.status == Accepted && b.supersedes.Some? ==>
          && b.supersedes.value in db.artifacts
          && b.supersedes.value != a.id
          && IsLegalTransition(db.artifacts[b.supersedes.value].status, Superseded)
          && next.artifacts[b.supersedes.value] ==
             db.artifacts[b.supersedes.value].(status := Superseded, supersededBy := Some(a.id)))
    && (b.status in {Accepted, Tentative} ==> HasProvenance(db.operations, a))
    && Consistent(b)
  }

  /** The artifact table after a commit went through. */
  function Moved(arts: map<Id, Artifact>, id: Id, b: VerdictBundle, exhausted: bool): map<Id, Artifact>
    requires id in arts
  {
    var one := arts[id := arts[id].(status := if b.status == Revised && exhausted then Rejected else b.status)];
    if b.status == Accepted && b.supersedes.Some? && b.supersedes.value in arts && b.supersedes.value != id
    then one[b.supersedes.value := arts[b.supersedes.value].(status := Superseded, supersededBy := Some(id))]
    else one
  }

  lemma SettleMoves(db: Db, a: Artifact, b: VerdictBundle, exhausted: bool)
    requires a.id in db.artifacts && db.artifacts[a.id] == a && a.status == Proposed
    requires SettleRows(db, a, b, exhausted).Ok?
    ensures SettleRows(db, a, b, exhausted).value == db.(artifacts := Moved(db.artifacts, a.id, b, exhausted))
    ensures IsLegalTransition(Proposed, b.status)
    ensures b.status in {Accepted, Tentative} ==> HasProvenance(db.operations, a)
    ensures b.status == Accepted && b.supersedes.Some? ==>
      (&& b.supersedes.value in db.artifacts && b.supersedes.value != a.id
       && IsLegalTransition(db.artifacts[b.supersedes.value].status, Superseded))
  {
    match b.status
    case Accepted =>
    case _ =>
  }

  lemma CommittedSettles(db: Db, id: Id, gated: set<string>, identity: string,
                         reply: Reply, exhausted: bool, now: Timestamp)
    requires Keyed(db)
    requires Committed(db, id, gated, identity, reply, exhausted, now).Ok?
    ensures reply.Verdict? && id in db.artifacts && db.artifacts[id].status == Proposed
    ensures db.artifacts[id].atype in gated && db.artifacts[id].createdBy != identity
    ensures Settles(db, Committed(db, id, gated, identity, reply, exhausted, now).value,
                    db.artifacts[id], reply.bundle, exhausted, now)
  {
    var a, b := db.artifacts[id], reply.bundle;
    var mid := db.(decisions := db.decisions + RowsOf(id, b.decisions, now));
    assert Land(db, a, reply, exhausted, now) == SettleRows(mid, a, b, exhausted);
    SettleMoves(mid, a, b, exhausted);
  }

  /** What a commit puts on record and reports, ruling by ruling. Of the defects, the first refine that
      has any is reported, and only when the bundle sends the artifact back. */
  lemma CommitSaysWhatWasRuled(db: Db, id: Id, gated: set<string>, identity: string,
                               reply: Reply, exhausted: bool, now: Timestamp, i: nat)
    requires Keyed(db) && Committed(db, id, gated, identity, reply, exhausted, now).Ok?
    ensures reply.Verdict? && id in db.artifacts
    ensures var rulings := reply.bundle.decisions;
      var rows := Committed(db, id, gated, identity, reply, exhausted, now).value.decisions;
      var result := ResultOf(db.artifacts[id], reply.bundle, exhausted, now);
      && |rows| == |db.decisions| + |rulings| && db.decisions <= rows
      && result.artifactId == id && result.decisions == rows[|db.decisions|..]
      && (i < |rulings| ==> rows[|db.decisions| + i] == Decision(id, rulings[i].gate, rulings[i].kind,
            rulings[i].rationale, rulings[i].defects, rulings[i].score, now))
      && (result.defects.Some? ==> reply.bundle.status == Revised)
      && (reply.bundle.status == Revised ==>
            && (result.defects.Some? <==> exists j :: 0 <= j < |rulings| && HasDefects(rulings[j]))
            && (i < |rulings| && HasDefects(rulings[i]) && (forall j | 0 <= j < i :: !HasDefects(rulings[j])) ==>
                  result.defects == rulings[i].defects))
  {
    CommittedSettles(db, id, gated, identity, reply, exhausted, now);
    DefectsAre(reply.bundle.decisions, i);
    hide Committed, DefectsFrom, HasDefects;
  }

  ghost predicate HasDefects(ruling: GateDecision) {
    ruling.kind == Refine && ruling.defects.Some? && ruling.defects.value != []
  }

  lemma {:induction false} DefectsAre(rulings: seq<GateDecision>, i: nat)
    ensures DefectsFrom(rulings).Some? <==> exists j :: 0 <= j < |rulings| && HasDefects(rulings[j])
    ensures i < |rulings| && HasDefects(rulings[i]) && (forall j | 0 <= j < i :: !HasDefects(rulings[j])) ==>
      DefectsFrom(rulings) == rulings[i].defects
  {
    if rulings != [] {
      DefectsAre(rulings[1..], if i > 0 then i - 1 else 0);
      assert forall j | 0 <= j < |rulings[1..]| :: rulings[1..][j] == rulings[j + 1];
      if j :| 0 <= j < |rulings| && HasDefects(rulings[j]) {
        if j > 0 { assert HasDefects(rulings[1..][j - 1]); }
      }
      if j :| 0 <= j < |rulings[1..]| && HasDefects(rulings[1..][j]) { assert HasDefects(rulings[j + 1]); }
    }
  }

  /** Which refusal it is: the first of these that applies, in this order. */
  lemma CommitRefusesInOrder(db: Db, id: Id, gated: set<string>, identity: string,
                             reply: Reply, exhausted: bool, now: Timestamp)
    requires Keyed(db)
    ensures var refusal := Committed(db, id, gated, identity, reply, exhausted, now);
      if id !in db.artifacts || db.artifacts[id].status != Proposed then refusal == Err(CommitMisuse)
      else if db.artifacts[id].atype !in gated then refusal == Err(NoImplicitAccept)
      else if db.artifacts[id].createdBy == identity then refusal == Err(ProposerIsGate)
      else if reply.Raises? then refusal == Err(DispatchRaised(reply.exc))
      else if (exists d | d in reply.bundle.decisions ::
                 || (d.kind == Reject && reply.bundle.status != Rejected)
                 || (d.kind == Refine && reply.bundle.status != Revised)) then refusal == Err(BundleInconsistent)
      else if reply.bundle.status in {Proposed, Superseded}
      then refusal == Err(IllegalTransition(Proposed, reply.bundle.status))
      else if reply.bundle.status in {Rejected, Revised} then refusal.Ok?
      else
        refusal.Err? ==>
          refusal.error in {NoProvenance, UnknownIncumbent, UnknownArtifact} || refusal.error.IllegalTransition?
  {
    hide HasProvenance, RowsOf, DefectsFrom;
  }

  /** Exactly when a commit goes through, in terms a caller can read off before it. */
  lemma CommitsExactlyWhen(db: Db, id: Id, gated: set<string>, identity: string,
                           reply: Reply, exhausted: bool, now: Timestamp)
    requires Keyed(db)
    ensures Committed(db, id, gated, identity, reply, exhausted, now).Ok? <==>
      && id in db.artifacts
      && db.artifacts[id].status == Proposed
      && db.artifacts[id].atype in gated
      && db.artifacts[id].createdBy != identity
      && reply.Verdict?
      && ((exists d | d in reply.bundle.decisions :: d.kind == Reject) ==> reply.bundle.status == Rejected)
      && ((exists d | d in reply.bundle.decisions :: d.kind == Refine) ==> reply.bundle.status == Revised)
      && reply.bundle.status in {Tentative, Accepted, Rejected, Revised}
      && (reply.bundle.status in {Tentative, Accepted} && !db.artifacts[id].isRoot ==>
            exists k :: k in db.operations && db.operations[k].outputId == id)
      && (reply.bundle.status == Accepted && reply.bundle.supersedes.Some? ==>
            && reply.bundle.supersedes.value in db.artifacts
            && db.artifacts[reply.bundle.supersedes.value].status in {Tentative, Accepted})
  {
    hide HasProvenance, RowsOf, OperationsInto;
    if id in db.artifacts {
      ProvenanceMeans(db.operations, db.artifacts[id]);
    }
  }

  lemma ProvenanceMeans(ops: map<Id, Operation>, a: Artifact)
    ensures HasProvenance(ops, a) <==> a.isRoot || exists k :: k in ops && ops[k].outputId == a.id
  {
    var into := Into(ops, a.id);
    assert OperationsInto(ops, a.id) == [] <==> into == {};
    if k :| k in ops && ops[k].outputId == a.id { assert k in into; }
  }
}
