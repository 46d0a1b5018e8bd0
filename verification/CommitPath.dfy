/** The commit path as it writes: decisions and status change(s) inside one store transaction. */
module CommitPath {

  import opened Contracts
  import opened Lifecycle
  import opened Tables
  import opened Commit
  import opened Store

  /** Appends one decision row per ruling, inside an open transaction. */
  method RecordDecisions(store: SqliteStore, id: Id, rulings: seq<GateDecision>, now: Timestamp)
    returns (error: Option<Failure>)
    requires store.depth > 0
    modifies store
    ensures store.depth == old(store.depth) && store.blobs == old(store.blobs)
    ensures store.committed == old(store.committed)
    ensures old(store.Healthy()) ==> store.Healthy() && error.None?
    ensures error in {None, Some(StatementRaised)}
    ensures error.None? ==> (store.working ==
      old(store.working).(decisions := old(store.working).decisions + RowsOf(id, rulings, now)))
  {
    error := None;
    ghost var was := store.working;
    for i := 0 to |rulings|
      invariant error == None
      invariant store.depth == old(store.depth) && store.blobs == old(store.blobs)
      invariant store.committed == old(store.committed)
      invariant old(store.Healthy()) ==> store.Healthy()
      invariant store.working == was.(decisions := was.decisions + RowsOf(id, rulings[..i], now))
    {
      error := store.RecordDecision(RowOf(id, rulings[i], now));
      if error.Some? { return; }
      assert RowsOf(id, rulings[..i + 1], now) == RowsOf(id, rulings[..i], now) + [RowOf(id, rulings[i], now)];
    }
    assert rulings[..|rulings|] == rulings;
  }

  /** The status write(s) the bundle asks for, inside an open transaction. */
  method Settle(store: SqliteStore, a: Artifact, b: VerdictBundle, exhausted: bool)
    returns (error: Option<Failure>)
    requires store.depth > 0
    modifies store
    ensures store.Atomic(SettleRows(old(store.working), a, b, exhausted), error)
  {
    if !IsLegalTransition(Proposed, b.status) { return Some(IllegalTransition(Proposed, b.status)); }
    match b.status {
      case Rejected =>
        error := store.SetStatus(a.id, Rejected);
      case Revised =>
        if exhausted {
          error := store.SetStatus(a.id, Rejected);
        } else {
          error := store.SetStatus(a.id, Revised);
        }
      case Tentative =>
        if !HasProvenance(store.working.operations, a) { return Some(NoProvenance); }
        error := store.SetStatus(a.id, Tentative);
      case Accepted =>
        if !HasProvenance(store.working.operations, a) { return Some(NoProvenance); }
        if b.supersedes.None? {
          error := store.SetStatus(a.id, Accepted);
        } else {
          var incumbent := store.GetArtifact(b.supersedes.value);
          if incumbent.None? { return Some(UnknownIncumbent); }
          if !IsLegalTransition(incumbent.value.status, Superseded) {
            return Some(IllegalTransition(incumbent.value.status, Superseded));
          }
          error := store.AcceptSuperseding(a.id, b.supersedes.value);
        }
      case _ =>
        error := Some(BundleInconsistent);
    }
  }

  /** Everything after the handoff. The decision rows and the status change(s) land together or
      not at all: this is the atomicity contract of the whole commit. */
  method LandReply(store: SqliteStore, a: Artifact, reply: Reply, exhausted: bool, now: Timestamp)
    returns (result: Result<CommitResult, Failure>)
    modifies store
    ensures store.depth == old(store.depth) && store.blobs == old(store.blobs)
    ensures old(store.Healthy()) ==> store.Healthy()
    ensures result.Ok? ==>
      && reply.Verdict?
      && Land(old(store.working), a, reply, exhausted, now) == Ok(store.working)
      && result.value == ResultOf(a, reply.bundle, exhausted, now)
      && (store.depth == 0 ==> store.committed == store.working)
    ensures result.Err? ==> store.committed == old(store.committed)
    ensures result.Err? && store.depth == 0 ==>
      if result.error == CommitRaised
      then Land(old(store.working), a, reply, exhausted, now) == Ok(store.working)
      else if reply.Raises? || !Consistent(reply.bundle) then store.working == old(store.working)
      else store.working == store.committed
    ensures old(store.Healthy()) ==>
      match Land(old(store.working), a, reply, exhausted, now)
      case Ok(next) => result.Ok? && store.working == next
      case Err(f) => result == Err(f)
  {
    if reply.Raises? { return Err(DispatchRaised(reply.exc)); }
    var b := reply.bundle;
    if !Consistent(b) { return Err(BundleInconsistent); }
    store.Enter();
    var error := RecordDecisions(store, a.id, b.decisions, now);
    if error.None? {
      error := Settle(store, a, b, exhausted);
    }
    error := store.Leave(error);
    result := if error.None? then Ok(ResultOf(a, b, exhausted, now)) else Err(error.value);
  }

  /** The whole commit of a proposed artifact, for whatever the opaque verifier replies. */
  method RunCommit(store: SqliteStore, id: Id, gated: set<string>, identity: string,
                   reply: Reply, exhausted: bool, now: Timestamp)
    returns (result: Result<CommitResult, Failure>)
    modifies store
    ensures store.depth == old(store.depth) && store.blobs == old(store.blobs)
    ensures result.Ok? ==>
      && Committed(old(store.working), id, gated, identity, reply, exhausted, now) == Ok(store.working)
      && result.value == ResultOf(old(store.working).artifacts[id], reply.bundle, exhausted, now)
      && (store.depth == 0 ==> store.committed == store.working)
    ensures result.Err? ==> store.committed == old(store.committed)
    ensures result.Err? && store.depth == 0 ==>
      if result.error == CommitRaised
      then Committed(old(store.working), id, gated, identity, reply, exhausted, now) == Ok(store.working)
      else store.working in {store.committed, old(store.working)}
    ensures old(store.Healthy()) ==>
      match Committed(old(store.working), id, gated, identity, reply, exhausted, now)
      case Ok(next) => result.Ok? && store.working == next
      case Err(f) => result == Err(f)
  {
    var admitted := Admit(store.working, id, gated, identity);
    if admitted.Err? { return Err(admitted.error); }
    result := LandReply(store, admitted.value, reply, exhausted, now);
  }

  /** A commit whose failure is then written down as a failed cycle, as the cycle loop does. The
      failed attempt leaves no trace in the durable tables exactly when what raised was not the
      COMMIT itself: a raised COMMIT is not rolled back, so the next unit makes its writes durable
      after the cycle was reported as failed. */
  method CommitOrRecordFailure(store: SqliteStore, id: Id, gated: set<string>, identity: string,
                               reply: Reply, exhausted: bool, now: Timestamp, row: CycleFailure)
    returns (result: Result<CommitResult, Failure>, recorded: Option<Failure>)
    requires store.depth == 0 && store.working == store.committed && Keyed(store.working)
    modifies store
    ensures result.Err? && recorded.None? ==>
      (store.committed == FailureRow(old(store.committed), row) <==> result.error != CommitRaised)
    ensures result.Err? && result.error == CommitRaised && recorded.None? ==>
      (&& Committed(old(store.working), id, gated, identity, reply, exhausted, now).Ok?
       && store.committed ==
          FailureRow(Committed(old(store.working), id, gated, identity, reply, exhausted, now).value, row))
  {
    recorded := None;
    ghost var was := store.working;
    result := RunCommit(store, id, gated, identity, reply, exhausted, now);
    if result.Err? {
      if result.error == CommitRaised {
        CommittedSettles(was, id, gated, identity, reply, exhausted, now);
        assert store.working.artifacts[id].status != was.artifacts[id].status;
      }
      recorded := store.RecordCycleFailure(row);
    }
  }
}
