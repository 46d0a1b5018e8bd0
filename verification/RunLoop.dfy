/** The run loop: cycles until the policy stops them, every cycle on record, failures bounded. */
module RunLoop {

  import opened Contracts
  import opened Tables
  import opened Commit
  import opened Intake
  import opened KernelRuns
  import opened Connections
  import opened ControlPlane

  /** What the sandbox came back with: a proposal, its own failure, or something else raised. */
  datatype Collected = Proposes(env: ProposalEnvelope) | SandboxFails(message: string) | CollectRaises(message: string)

  /** How the collaborators of one cycle behave; `Some` is a raise with its message. */
  datatype CycleScript = CycleScript(
    serve: Option<string>,
    collected: Collected,
    regenerate: Option<string>,
    rejectedFirst: bool,
    now: Timestamp)

  datatype CycleResult = CycleResult(
    entered: bool,
    shapeError: Option<string>,
    sandboxError: Option<string>,
    gateError: Option<string>,
    commit: Option<CommitResult>)

  datatype Policy = Policy(maxCycles: int, stopOnAccept: bool, failureCap: int)

  // ------------------------------------------------------------------ one cycle on values

  function MessageOf(f: Failure): string {
    if f.DispatchRaised? then f.exc.message else "store or commit error"
  }

  predicate Unavailable(f: Failure) {
    f.DispatchRaised? && f.exc.className == "GateUnavailable"
  }

  function Crashed(message: string): CycleResult {
    CycleResult(false, None, Some("cycle failed: " + message), None, None)
  }

  /** The catch-all of the cycle takes over: something raised that no inner handler expects. */
  predicate CaughtAll(script: CycleScript, submitted: IntakeResult) {
    || script.serve.Some?
    || script.collected.CollectRaises?
    || (script.collected.Proposes? && submitted.Failed? && !Unavailable(submitted.failure))
    || script.regenerate.Some?
  }

  /** The result of a cycle whose recording goes through. */
  function OutcomeOf(script: CycleScript, submitted: IntakeResult): CycleResult {
    if script.serve.Some? then Crashed(script.serve.value)
    else if script.collected.CollectRaises? then Crashed(script.collected.message)
    else if script.collected.Proposes? && submitted.Failed? && !Unavailable(submitted.failure)
    then Crashed(MessageOf(submitted.failure))
    else if script.regenerate.Some? then Crashed(script.regenerate.value)
    else if script.collected.SandboxFails? then CycleResult(false, None, Some(script.collected.message), None, None)
    else
      match submitted
      case ShapeRejected(m) => CycleResult(false, Some(m), None, None, None)
      case Failed(f) => CycleResult(false, None, None, Some(MessageOf(f)), None)
      case Entered(c) => CycleResult(true, None, None, None, Some(c))
  }

  /** The durable classification of a failed cycle. */
  function FailureOf(r: CycleResult): Option<(string, string)> {
    if r.sandboxError.Some? then Some(("sandbox-error", r.sandboxError.value))
    else if r.gateError.Some? then Some(("gate-error", r.gateError.value))
    else if r.shapeError.Some? then Some(("shape-error", r.shapeError.value))
    else None
  }

  function FailureEntry(f: (string, string), now: Timestamp): CycleFailure {
    CycleFailure(f.0, f.1, now, None)
  }

  /** What the run loop counts as a failure: an empty sandbox message falls through. */
  function CountedFailure(r: CycleResult): Option<string> {
    if r.sandboxError.Some? && r.sandboxError.value != "" then r.sandboxError else r.gateError
  }

  datatype Feedback =
    | Nothing
    | SandboxSaid(message: string)
    | GateSaid(message: string)
    | ShapeSaid(message: string)
    | Refined(defects: seq<string>)
    | WasRejected(reason: string)

  function RejectionReason(decisions: seq<Decision>): string {
    if decisions == [] then "the submission did not clear a gate"
    else if decisions[0].verdict == Reject then decisions[0].rationale
    else RejectionReason(decisions[1..])
  }

  function FeedbackFrom(r: CycleResult): Feedback {
    if r.sandboxError.Some? then SandboxSaid(r.sandboxError.value)
    else if r.gateError.Some? then GateSaid(r.gateError.value)
    else if !r.entered && r.shapeError.Some? then ShapeSaid(r.shapeError.value)
    else if r.commit.Some? && r.commit.value.status == Revised && r.commit.value.defects.Some?
            && r.commit.value.defects.value != [] then Refined(r.commit.value.defects.value)
    else if r.commit.Some? && r.commit.value.status == Rejected then WasRejected(RejectionReason(r.commit.value.decisions))
    else Nothing
  }

  predicate Accepts(r: CycleResult) {
    CountedFailure(r).None? && r.commit.Some? && r.commit.value.status == Accepted
  }

  /** Every collaborator of the cycle came back, or failed as its handler expects. */
  ghost predicate NothingEscaped(script: CycleScript, submitted: IntakeResult) {
    && script.serve.None? && !script.collected.CollectRaises? && script.regenerate.None?
    && (script.collected.Proposes? && submitted.Failed? ==>
          submitted.failure.DispatchRaised? && submitted.failure.exc.className == "GateUnavailable")
  }

  /** How many of the last cycles failed in a row. */
  function Streak(results: seq<CycleResult>): nat {
    if results == [] then 0
    else if CountedFailure(results[|results| - 1]).Some? then 1 + Streak(results[..|results| - 1])
    else 0
  }

  /** What each of the cycles was told. */
  function Told(results: seq<CycleResult>): (told: seq<Feedback>)
    ensures |told| == |results|
  {
    seq(|results|, i requires 0 <= i < |results| => if i == 0 then Nothing else FeedbackFrom(results[i - 1]))
  }

  predicate OverCap(p: Policy, results: seq<CycleResult>) {
    p.failureCap != 0 && Streak(results) > 0 && Streak(results) >= p.failureCap
  }

  /** The loop would not have gone on after these cycles. */
  predicate Stops(p: Policy, results: seq<CycleResult>) {
    || |results| >= p.maxCycles
    || OverCap(p, results)
    || (p.stopOnAccept && results != [] && Accepts(results[|results| - 1]))
  }

  // ------------------------------------------------------------------ what the counting means

  /** The streak is the number of trailing failures. */
  lemma {:induction false} StreakIsTrailing(results: seq<CycleResult>)
    ensures Streak(results) <= |results|
    ensures forall i | |results| - Streak(results) <= i < |results| :: CountedFailure(results[i]).Some?
    ensures Streak(results) < |results| ==> CountedFailure(results[|results| - Streak(results) - 1]).None?
  {
    if results != [] && CountedFailure(results[|results| - 1]).Some? {
      StreakIsTrailing(results[..|results| - 1]);
    }
  }

  /** The cycle failed: the sandbox with a message, or the gate. */
  ghost predicate CycleFails(r: CycleResult) {
    (r.sandboxError.Some? && r.sandboxError.value != "") || r.gateError.Some?
  }

  /** The cycle did not fail and its commit is an accept. */
  ghost predicate LandsAccepted(r: CycleResult) {
    && (r.sandboxError.None? || r.sandboxError.value == "") && r.gateError.None?
    && r.commit.Some? && r.commit.value.status == Accepted
  }

  /** How many failures in a row end a run; a negative cap is as one of 1. */
  ghost function Patience(p: Policy): nat {
    if p.failureCap > 0 then p.failureCap else 1
  }

  /** The cycles before place `n` end in as many failures as the cap allows. */
  ghost predicate FailedOften(p: Policy, results: seq<CycleResult>, n: nat)
    requires n <= |results|
  {
    Patience(p) <= n && forall i | n - Patience(p) <= i < n :: CycleFails(results[i])
  }

  /** The cap is reached exactly when there is one and the last cycles, as many as it says, failed. */
  lemma OverCapExactlyWhen(p: Policy, results: seq<CycleResult>)
    ensures OverCap(p, results) <==> p.failureCap != 0 && FailedOften(p, results, |results|)
  {
    StreakIsTrailing(results);
    assert forall r :: CountedFailure(r).Some? <==> CycleFails(r);
    if |results| >= Patience(p) && Streak(results) < Patience(p) {
      assert |results| - Patience(p) <= |results| - Streak(results) - 1 < |results|;
    }
  }

  /** A failed cycle is counted exactly unless it is a sandbox failure without a message, or only a
      malformed proposal. */
  lemma CountedExactlyWhen(script: CycleScript, submitted: IntakeResult)
    ensures var r := OutcomeOf(script, submitted);
      FailureOf(r).Some? && CountedFailure(r).None? <==> r.shapeError.Some? || r.sandboxError == Some("")
    ensures var r := OutcomeOf(script, submitted);
      FailureOf(r).None? ==> CountedFailure(r).None? && r.commit.Some?
  {
  }

  lemma EmptyMessageIsNotCounted(script: CycleScript, submitted: IntakeResult)
    requires script.serve.None? && script.regenerate.None? && script.collected == SandboxFails("")
    ensures FailureOf(OutcomeOf(script, submitted)) == Some(("sandbox-error", ""))
    ensures CountedFailure(OutcomeOf(script, submitted)).None?
  {
  }

  /** The report of a committed proposal agrees with the store exactly when the workspace could be
      regenerated; otherwise the cycle counts as failed although its commit stands. */
  lemma ReportAgreesExactlyWhen(script: CycleScript, submitted: IntakeResult)
    requires script.serve.None? && script.collected.Proposes? && submitted.Entered?
    ensures OutcomeOf(script, submitted).commit == Some(submitted.commit) <==> script.regenerate.None?
    ensures script.regenerate.Some? ==> CountedFailure(OutcomeOf(script, submitted)).Some?
  {
    if script.regenerate.Some? {
      assert "cycle failed: " + script.regenerate.value != "";
    }
  }

  ghost predicate FirstReject(decisions: seq<Decision>, i: nat) {
    i < |decisions| && decisions[i].verdict == Reject && forall j | 0 <= j < i :: decisions[j].verdict != Reject
  }

  /** The reason given for a rejection: the rationale of the first gate that rejected. */
  ghost predicate SaysWhy(decisions: seq<Decision>, reason: string) {
    && ((forall d | d in decisions :: d.verdict != Reject) ==> reason == "the submission did not clear a gate")
    && (forall i: nat | FirstReject(decisions, i) :: reason == decisions[i].rationale)
  }

  lemma {:induction false} ReasonSaysWhy(decisions: seq<Decision>)
    ensures SaysWhy(decisions, RejectionReason(decisions))
  {
    if decisions != [] {
      var rest := decisions[1..];
      ReasonSaysWhy(rest);
      forall i: nat | FirstReject(decisions, i) ensures RejectionReason(decisions) == decisions[i].rationale {
        if i > 0 {
          assert forall j | 0 <= j < |rest| :: rest[j] == decisions[j + 1];
          assert FirstReject(rest, i - 1);
        }
      }
    }
  }

  /** What a cycle whose proposal was taken in tells the next one. */
  ghost predicate TellsOf(c: CommitResult, told: Feedback) {
    match c.status
    case Revised => told == if c.defects.Some? && c.defects.value != [] then Refined(c.defects.value) else Nothing
    case Rejected => told.WasRejected? && SaysWhy(c.decisions, told.reason)
    case _ => told == Nothing
  }

  /** The next cycle is told what went wrong in this one: whatever escaped its handlers first, then
      the failure of the sandbox, the shape, the gate, or the verdict; after an accept, nothing. */
  lemma FeedbackTellsWhatHappened(script: CycleScript, submitted: IntakeResult)
    ensures var told := FeedbackFrom(OutcomeOf(script, submitted));
      var raised :=
        if script.serve.Some? then script.serve
        else if script.collected.CollectRaises? then Some(script.collected.message)
        else if script.collected.Proposes? && submitted.Failed?
                && !(submitted.failure.DispatchRaised? && submitted.failure.exc.className == "GateUnavailable")
        then Some(if submitted.failure.DispatchRaised? then submitted.failure.exc.message else "store or commit error")
        else script.regenerate;
      && (raised.Some? ==> told == SandboxSaid("cycle failed: " + raised.value))
      && (raised.None? && script.collected.SandboxFails? ==> told == SandboxSaid(script.collected.message))
      && (raised.None? && script.collected.Proposes? ==>
            && (submitted.ShapeRejected? ==> told == ShapeSaid(submitted.message))
            && (submitted.Failed? ==> submitted.failure.DispatchRaised? && told == GateSaid(submitted.failure.exc.message))
            && (submitted.Entered? ==> TellsOf(submitted.commit, told)))
  {
    hide RejectionReason, SaysWhy;
    if submitted.Entered? { ReasonSaysWhy(submitted.commit.decisions); }
  }

  function LastFeedback(results: seq<CycleResult>): Feedback {
    if results == [] then Nothing else FeedbackFrom(results[|results| - 1])
  }

  /** The loop went on after every cycle but the last. */
  predicate WentOn(p: Policy, results: seq<CycleResult>) {
    forall i | 0 <= i < |results| :: !Stops(p, results[..i])
  }

  lemma NoCycleYet(p: Policy)
    ensures WentOn(p, []) && Streak([]) == 0 && Told([]) == []
  {
  }

  /** The first cycle was told nothing and every other what became of the one before it. */
  ghost predicate TellsEach(told: seq<Feedback>, results: seq<CycleResult>) {
    |told| == |results| && forall i | 0 <= i < |told| :: told[i] == if i == 0 then Nothing else FeedbackFrom(results[i - 1])
  }

  lemma ToldIs(results: seq<CycleResult>)
    ensures TellsEach(Told(results), results)
  {
  }

  lemma OneMoreCycle(p: Policy, before: seq<CycleResult>, r: CycleResult)
    ensures Streak(before + [r]) == if CountedFailure(r).Some? then Streak(before) + 1 else 0
    ensures Told(before + [r]) == Told(before) + [LastFeedback(before)]
    ensures WentOn(p, before) && !Stops(p, before) ==> WentOn(p, before + [r])
  {
    var after := before + [r];
    assert after[..|before|] == before;
    forall i | WentOn(p, before) && !Stops(p, before) && 0 <= i < |after| ensures !Stops(p, after[..i]) {
      if i < |before| { assert after[..i] == before[..i]; }
    }
  }

  // ------------------------------------------------------------------ the loop

  /** `ends` are states the connection passed on its way to `t`: each is reached from the one before
      by units of work, raised COMMITs and rollbacks, and what was durable in any of them is durable
      in `t`. */
  ghost predicate Passed(k: Kernel, ends: seq<Conn>, t: Conn) {
    && ends != []
    && (forall i | 0 <= i < |ends| - 1 :: Reaches(k, AnyProposal, ends[i], ends[i + 1]))
    && Reaches(k, AnyProposal, ends[|ends| - 1], t)
    && (Consistently(ends[0]) ==> Consistently(t) && forall s | s in ends :: Grows(s.committed, t.committed))
  }

  lemma PassedNothing(k: Kernel, s: Conn)
    ensures Passed(k, [s], s)
  {
    ReachesItself(k, AnyProposal, s);
    GrowsItself(s.committed);
  }

  lemma PassedOn(k: Kernel, ends: seq<Conn>, t: Conn, u: Conn)
    requires Passed(k, ends, t) && Reaches(k, AnyProposal, t, u)
    ensures Passed(k, ends, u)
  {
    hide Consistently, Grows, ConnRun;
    ReachesOn(k, AnyProposal, ends[|ends| - 1], t, u);
    if Consistently(ends[0]) {
      var states :| RunsFromTo(k, AnyProposal, states, t, u);
      RunGrows(k, AnyProposal, states, 0, |states| - 1);
      forall s | s in ends ensures Grows(s.committed, u.committed) {
        GrowsOn(s.committed, t.committed, u.committed);
      }
    }
  }

  lemma PassedCycle(k: Kernel, ends: seq<Conn>, t: Conn, u: Conn)
    requires Passed(k, ends, t) && Reaches(k, AnyProposal, t, u)
    ensures Passed(k, ends, u) && Passed(k, ends + [u], u)
  {
    hide Passed;
    PassedOn(k, ends, t, u);
    PassedHere(k, ends, u);
  }

  lemma PassedHere(k: Kernel, ends: seq<Conn>, t: Conn)
    requires Passed(k, ends, t)
    ensures Passed(k, ends + [t], t)
  {
    hide Consistently, Grows, Reaches;
    ReachesItself(k, AnyProposal, t);
    GrowsItself(t.committed);
    var all := ends + [t];
    forall i | 0 <= i < |all| - 1 ensures Reaches(k, AnyProposal, all[i], all[i + 1]) {
      if i < |ends| - 1 { assert Reaches(k, AnyProposal, ends[i], ends[i + 1]); }
    }
  }

  datatype RunOutcome = Completed | Aborted(failures: nat, last: string) | Escaped

  /** Where a run stops, told from the results alone. Under `stopOnAccept` nothing runs after an unfailed
      cycle that landed an accept, and with a cap nothing after that many failures in a row. A run that
      completes short of its cycles ends in such an accept, and one that aborts in such failures. */
  ghost predicate StopsRightly(p: Policy, outcome: RunOutcome, results: seq<CycleResult>) {
    && (p.stopOnAccept ==> forall i | 0 <= i < |results| - 1 :: !LandsAccepted(results[i]))
    && (outcome.Completed? && |results| < p.maxCycles ==>
          p.stopOnAccept && results != [] && LandsAccepted(results[|results| - 1]))
    && (outcome.Completed? && !p.stopOnAccept ==> |results| == if p.maxCycles > 0 then p.maxCycles else 0)
    && (p.failureCap != 0 ==> forall n: nat | n < |results| :: !FailedOften(p, results, n))
    && (outcome.Completed? && p.failureCap != 0 ==> !FailedOften(p, results, |results|))
    && (outcome.Aborted? ==> p.failureCap != 0 && FailedOften(p, results, |results|))
  }

  lemma StopsInFields(p: Policy, outcome: RunOutcome, results: seq<CycleResult>)
    requires WentOn(p, results) && |results| <= (if p.maxCycles > 0 then p.maxCycles else 0)
    requires outcome.Aborted? ==> OverCap(p, results)
    requires outcome.Completed? ==> Stops(p, results) && !OverCap(p, results)
    ensures StopsRightly(p, outcome, results)
  {
    forall i | 0 <= i < |results| - 1 ensures p.stopOnAccept ==> !LandsAccepted(results[i]) {
      assert !Stops(p, results[..i + 1]);
      assert results[..i + 1][i] == results[i];
    }
    forall n: nat | n <= |results| ensures FailedOften(p, results, n) <==> FailedOften(p, results[..n], n) {}
    forall n: nat | n < |results| ensures p.failureCap != 0 ==> !FailedOften(p, results, n) {
      assert !Stops(p, results[..n]);
      OverCapExactlyWhen(p, results[..n]);
    }
    OverCapExactlyWhen(p, results);
    assert results[..|results|] == results;
  }

  class Orchestrator<S> {
    const plane: TaskPlane<S>
    const policy: Policy
    const collaborators: nat -> CycleScript
    /** How provisioning the verifier goes, run by run. */
    const provision: nat -> Option<string>
    var turn: nat
    var history: seq<CycleResult>
    var told: seq<Feedback>
    var provisioned: nat
    var tornDown: nat
    var records: seq<(nat, string)>

    constructor (plane: TaskPlane<S>, policy: Policy, collaborators: nat -> CycleScript, provision: nat -> Option<string>)
      ensures this.plane == plane && this.policy == policy
      ensures this.collaborators == collaborators && this.provision == provision
      ensures turn == 0 && history == [] && told == [] && provisioned == tornDown == 0 && records == []
    {
      this.plane, this.policy, this.collaborators, this.provision := plane, policy, collaborators, provision;
      turn, history, told, provisioned, tornDown, records := 0, [], [], 0, 0, [];
    }

    ghost predicate Valid()
      reads plane, plane.store, plane.verifier
    {
      plane.Valid() && plane.store.depth == 0 && plane.store.ContentAddressed()
    }

    ghost predicate Healthy()
      reads plane, plane.store
    {
      plane.store.Healthy()
    }

    /** Puts one cycle on record. A failed cycle also leaves a durable row; if writing that row
        raises, nothing is on record and the raise goes on. */
    method RecordCycle(result: CycleResult, now: Timestamp) returns (error: Option<Failure>)
      requires Valid()
      modifies this`history, plane.store
      ensures Valid() && (old(Healthy()) ==> Healthy() && error.None?)
      ensures history == if error.None? then old(history) + [result] else old(history)
      ensures error.None? && FailureOf(result).None? ==> plane.store.working == old(plane.store.working)
      ensures error.None? && FailureOf(result).Some? ==>
        plane.store.working == FailureRow(old(plane.store.working), FailureEntry(FailureOf(result).value, now))
      ensures error.None? ==> (plane.store.working == old(plane.store.working).(failures :=
        old(plane.store.working).failures +
          if result.sandboxError.Some? then [CycleFailure("sandbox-error", result.sandboxError.value, now, None)]
          else if result.gateError.Some? then [CycleFailure("gate-error", result.gateError.value, now, None)]
          else if result.shapeError.Some? then [CycleFailure("shape-error", result.shapeError.value, now, None)]
          else []))
      ensures error.None? && old(plane.store.committed == plane.store.working) ==>
        plane.store.committed == plane.store.working
      ensures Reaches(plane.kernel, AnyProposal, old(ConnOf(plane.store)), ConnOf(plane.store))
    {
      hide Reaches;
      error := None;
      ghost var s := ConnOf(plane.store);
      ReachesItself(plane.kernel, AnyProposal, s);
      var failure := FailureOf(result);
      if failure.Some? {
        var row := FailureEntry(failure.value, now);
        error := plane.store.RecordCycleFailure(row);
        UnitReaches(plane.kernel, AnyProposal, UFailure(row), Ok(FailureRow(s.working, row)), s, ConnOf(plane.store));
      }
      if error.None? { history := history + [result]; }
    }

    /** A cycle up to recording; `caught` says that the catch-all took over. */
    method Attempt(script: CycleScript)
      returns (result: CycleResult, caught: bool, ghost submitted: IntakeResult, ghost mid: Db)
      requires Valid()
      modifies plane, plane.store, plane.verifier
      ensures Valid() && (old(Healthy()) ==> Healthy())
      ensures result == OutcomeOf(script, submitted) && caught == CaughtAll(script, submitted)
      ensures mid == plane.store.working
      ensures (script.serve.Some? || !script.collected.Proposes?) ==>
        mid == old(plane.store.working) && plane.store.committed == old(plane.store.committed)
      ensures script.serve.None? && script.collected.Proposes? ==>
        exists reply, kids ::
          var trace := SubmitTrace(plane.kernel, old(plane.store.working), script.collected.env, reply, kids, script.now);
          Explained(trace, old(plane.store.committed), mid)
          && Explained(trace, old(plane.store.committed), plane.store.committed)
      ensures old(Healthy()) && old(plane.store.working == plane.store.committed) ==> plane.store.committed == mid
      ensures Reaches(plane.kernel, AnyProposal, old(ConnOf(plane.store)), ConnOf(plane.store))
    {
      hide Reaches;
      submitted, mid, caught := ShapeRejected(""), plane.store.working, true;
      ReachesItself(plane.kernel, AnyProposal, ConnOf(plane.store));
      if script.serve.Some? { return Crashed(script.serve.value), caught, submitted, mid; }
      match script.collected {
        case CollectRaises(message) =>
          return Crashed(message), caught, submitted, mid;
        case SandboxFails(message) =>
          if script.regenerate.Some? { return Crashed(script.regenerate.value), caught, submitted, mid; }
          return CycleResult(false, None, Some(message), None, None), false, submitted, mid;
        case Proposes(env) =>
          var r;
          ghost var reply, kids;
          r, reply, kids := plane.SubmitProposal(env, script.rejectedFirst, script.now);
          submitted, mid := r, plane.store.working;
          if r.Failed? && !Unavailable(r.failure) { return Crashed(MessageOf(r.failure)), caught, submitted, mid; }
          if script.regenerate.Some? { return Crashed(script.regenerate.value), caught, submitted, mid; }
          caught := false;
          result := match r
            case ShapeRejected(m) => CycleResult(false, Some(m), None, None, None)
            case Failed(f) => CycleResult(false, None, None, Some(MessageOf(f)), None)
            case Entered(c) => CycleResult(true, None, None, None, Some(c));
      }
    }

    /** One cycle. Whatever its collaborators do it leaves exactly one entry in the history. A raise
        while recording is itself a crashed cycle, recorded once more; it escapes, and then there is no
        entry, when that raises too or when the result already came from the catch-all. */
    method RunCycle(feedback: Feedback) returns (r: Option<CycleResult>, ghost submitted: IntakeResult)
      requires Valid()
      modifies this`turn, this`history, this`told, plane, plane.store, plane.verifier
      ensures Valid() && (old(Healthy()) ==> Healthy() && r.Some?)
      ensures turn == old(turn) + 1 && told == old(told) + [feedback]
      ensures history == if r.Some? then old(history) + [r.value] else old(history)
      ensures old(Healthy()) ==> r == Some(OutcomeOf(collaborators(old(turn)), submitted))
      ensures r.Some? ==>
        || r.value == OutcomeOf(collaborators(old(turn)), submitted)
        || (r.value == Crashed("store or commit error") && NothingEscaped(collaborators(old(turn)), submitted))
      ensures old(Healthy()) && old(plane.store.working == plane.store.committed) ==>
        plane.store.working == plane.store.committed
      ensures Reaches(plane.kernel, AnyProposal, old(ConnOf(plane.store)), ConnOf(plane.store))
    {
      hide Reaches;
      var script := collaborators(turn);
      turn, told := turn + 1, told + [feedback];
      var result, caught;
      ghost var mid, s := plane.store.working, ConnOf(plane.store);
      result, caught, submitted, mid := Attempt(script);
      ghost var s1 := ConnOf(plane.store);
      var error := RecordCycle(result, script.now);
      ghost var s2 := ConnOf(plane.store);
      ReachesOn(plane.kernel, AnyProposal, s, s1, s2);
      if error.Some? && !caught {
        result := Crashed("store or commit error");
        error := RecordCycle(result, script.now);
        ReachesOn(plane.kernel, AnyProposal, s, s2, ConnOf(plane.store));
      }
      r := if error.Some? then None else Some(result);
    }

    /** The cycles of one run, up to its record. `ends` are the states of the connection before the first
        cycle and after each. */
    method Cycles(runId: nat) returns (outcome: RunOutcome, results: seq<CycleResult>, ghost ends: seq<Conn>)
      requires Valid()
      modifies this`turn, this`history, this`told, this`records, plane, plane.store, plane.verifier
      ensures Valid() && (old(Healthy()) ==> Healthy() && outcome != Escaped)
      ensures history == old(history) + results
      ensures outcome != Escaped ==> told == old(told) + Told(results)
      ensures |results| <= if policy.maxCycles > 0 then policy.maxCycles else 0
      ensures WentOn(policy, results)
      ensures outcome.Aborted? <==> outcome != Escaped && OverCap(policy, results)
      ensures outcome.Completed? ==> Stops(policy, results) && !OverCap(policy, results)
      ensures outcome.Aborted? ==>
        outcome.failures == Streak(results) && Some(outcome.last) == CountedFailure(results[|results| - 1])
      ensures records == old(records) + (if outcome == Escaped then [] else
        [(runId, if outcome.Aborted? then "aborted" else "complete")])
      ensures |ends| == |results| + 1 && ends[0] == old(ConnOf(plane.store))
      ensures Passed(plane.kernel, ends, ConnOf(plane.store))
      ensures outcome != Escaped ==> ends[|results|] == ConnOf(plane.store)
    {
      hide Valid, Healthy, Passed, Reaches, Streak, Told, WentOn, OutcomeOf, FeedbackFrom, FailureOf, CountedFailure, CaughtAll, Crashed, ConnOf, Grows;
      ends := [ConnOf(plane.store)];
      PassedNothing(plane.kernel, ConnOf(plane.store));
      results, outcome := [], Completed;
      NoCycleYet(policy);
      var feedback, cycles, failures := Nothing, 0, 0;
      while cycles < policy.maxCycles
        invariant Valid() && (old(Healthy()) ==> Healthy())
        invariant cycles == |results| && failures == Streak(results)
        invariant cycles == 0 || cycles <= policy.maxCycles
        invariant history == old(history) + results && told == old(told) + Told(results)
        invariant feedback == LastFeedback(results)
        invariant WentOn(policy, results)
        invariant !OverCap(policy, results)
        invariant !(policy.stopOnAccept && results != [] && Accepts(results[|results| - 1]))
        invariant outcome == Completed && records == old(records)
        invariant |ends| == |results| + 1 && ends[0] == old(ConnOf(plane.store))
        invariant ends[|results|] == ConnOf(plane.store) && Passed(plane.kernel, ends, ConnOf(plane.store))
        decreases policy.maxCycles - cycles
      {
        ghost var before, s := results, ConnOf(plane.store);
        var r;
        ghost var submitted;
        r, submitted := RunCycle(feedback);
        PassedCycle(plane.kernel, ends, s, ConnOf(plane.store));
        if r.None? { return Escaped, results, ends; }
        ends := ends + [ConnOf(plane.store)];
        results := results + [r.value];
        cycles := cycles + 1;
        OneMoreCycle(policy, before, r.value);
        var failure := CountedFailure(r.value);
        if failure.Some? {
          failures := failures + 1;
          if policy.failureCap != 0 && failures >= policy.failureCap {
            records := records + [(runId, "aborted")];
            return Aborted(failures, failure.value), results, ends;
          }
        } else {
          failures := 0;
          if policy.stopOnAccept && Accepts(r.value) { break; }
        }
        feedback := FeedbackFrom(r.value);
      }
      records := records + [(runId, "complete")];
    }

    /** A whole run: the verifier is provisioned first and torn down at the end, whatever happened. */
    method Run() returns (outcome: RunOutcome, results: seq<CycleResult>, ghost ends: seq<Conn>)
      requires Valid()
      modifies this, plane, plane.store, plane.verifier
      ensures Valid()
      ensures history == old(history) + results
      ensures outcome != Escaped ==> told == old(told) + Told(results)
      ensures |results| <= if policy.maxCycles > 0 then policy.maxCycles else 0
      ensures WentOn(policy, results)
      ensures outcome.Aborted? <==> outcome != Escaped && OverCap(policy, results)
      ensures outcome.Completed? ==> Stops(policy, results) && !OverCap(policy, results)
      ensures outcome.Aborted? ==>
        outcome.failures == Streak(results) && Some(outcome.last) == CountedFailure(results[|results| - 1])
      ensures old(Healthy()) ==> (outcome == Escaped <==> provision(old(provisioned)).Some?)
      ensures provisioned == old(provisioned) + 1 && tornDown == old(tornDown) + 1
      ensures records == old(records) + (if outcome == Escaped then [] else
        [(old(provisioned), if outcome.Aborted? then "aborted" else "complete")])
      ensures StopsRightly(policy, outcome, results)
      ensures outcome != Escaped ==>
        old(told) <= told && TellsEach(told[|old(told)|..], results)
      ensures |ends| == |results| + 1 && ends[0] == old(ConnOf(plane.store))
      ensures Passed(plane.kernel, ends, ConnOf(plane.store))
      ensures outcome != Escaped ==> ends[|results|] == ConnOf(plane.store)
    {
      hide Valid, Healthy, StopsRightly, Passed, Streak, Told, CountedFailure, ConnOf, FeedbackFrom;
      var runId := provisioned;
      provisioned := provisioned + 1;
      if provision(runId).Some? {
        outcome, results, ends := Escaped, [], [ConnOf(plane.store)];
        PassedNothing(plane.kernel, ConnOf(plane.store));
        NoCycleYet(policy);
      } else {
        outcome, results, ends := Cycles(runId);
      }
      tornDown := tornDown + 1;
      StopsInFields(policy, outcome, results);
      ToldIs(results);
      assert outcome != Escaped ==> told[|old(told)|..] == Told(results);
    }
  }
}
