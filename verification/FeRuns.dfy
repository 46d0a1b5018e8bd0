/** Whole runs of the model-building task: store, slice, pipeline, gates and commit together. */
module FeRuns {

  import opened Contracts
  import opened Tables
  import opened Commit
  import opened Pipeline
  import opened Scoring
  import opened SubmissionGates
  import opened Intake
  import opened Slices
  import opened KernelRuns
  import opened Incumbency

  // ------------------------------------------------------------------ one dispatch

  function HardGate(cfg: FeConfig, g: GateState, req: VerifierRequest): (GateState, Answer) {
    if cfg.acceptAlways then ScoreAndAccept(cfg, g, req) else Selection(cfg, g, req)
  }

  function HardName(cfg: FeConfig): string {
    if cfg.acceptAlways then SCORE_AND_ACCEPT else SELECTION
  }

  /** The two-step pipeline spelled out. */
  function FeDispatch(cfg: FeConfig, g: GateState, req: VerifierRequest): (GateState, Reply) {
    var (g1, a1) := Runnable(cfg, g, req);
    var d1 := DecisionOf(RUNS_CLEAN, a1.verdict);
    if a1.verdict.kind == Reject then (g1, Verdict(VerdictBundle(Rejected, [d1], None)))
    else
      var (g2, a2) := HardGate(cfg, g1, req);
      var d2 := DecisionOf(HardName(cfg), a2.verdict);
      if a2.verdict.kind == Reject then (g2, Verdict(VerdictBundle(Rejected, [d1, d2], None)))
      else (g2, Verdict(VerdictBundle(Accepted, [d1, d2], a2.verdict.supersedes)))
  }

  lemma DispatchIsPipeline(cfg: FeConfig, g: GateState, req: VerifierRequest)
    ensures RunPipeline(FePipeline(cfg), g, req) == FeDispatch(cfg, g, req)
  {
    var steps := FePipeline(cfg);
    var (g1, a1) := Runnable(cfg, g, req);
    assert steps[0].plugin(g, req) == (g1, a1);
    assert steps[1].plugin(g1, req) == HardGate(cfg, g1, req);
    assert steps == [steps[0], steps[1]];
    hide Runnable, HardGate, SharedRun, RunStage, RunPipeline;
    assert a1.Ruled? && a1.verdict.kind != Refine && a1.verdict.supersedes.None?;
    TwoStepRun(steps[0], steps[1], g, req);
  }

  /** A pipeline of one cheap and one hard check that both rule accept or reject. */
  lemma TwoStepRun<S>(cheap: GateStep<S>, hard: GateStep<S>, s: S, req: VerifierRequest)
    requires !cheap.isHard && hard.isHard
    requires var (s1, a1) := cheap.plugin(s, req);
      && a1.Ruled? && a1.verdict.kind != Refine
      && hard.plugin(s1, req).1.Ruled? && hard.plugin(s1, req).1.verdict.kind != Refine
    ensures var (s1, a1) := cheap.plugin(s, req);
      var (s2, a2) := hard.plugin(s1, req);
      var d1, d2 := DecisionOf(cheap.gate, a1.verdict), DecisionOf(hard.gate, a2.verdict);
      RunPipeline([cheap, hard], s, req) ==
        if a1.verdict.kind == Reject then (s1, Verdict(VerdictBundle(Rejected, [d1], None)))
        else if a2.verdict.kind == Reject then (s2, Verdict(VerdictBundle(Rejected, [d1, d2], None)))
        else (s2, Verdict(VerdictBundle(Accepted, [d1, d2], a2.verdict.supersedes)))
  {
    var steps := [cheap, hard];
    assert steps == [cheap] + [hard];
    FilterAppend([cheap], [hard]);
    FilterFixed([cheap], false);
    FilterFixed([hard], true);
    assert Cheap(steps) == [cheap] && Hard(steps) == [hard];
    var (s1, a1) := cheap.plugin(s, req);
    var t0 := Tally([], {}, 0);
    var d1 := DecisionOf(cheap.gate, a1.verdict);
    assert t0.decisions + [d1] == [d1];
    RunOne(cheap, s, req, t0);
    if a1.verdict.kind == Accept {
      var t1 := Counted(t0, cheap, a1.verdict).(ruled := 0);
      RunOne(hard, s1, req, t1);
      var v := hard.plugin(s1, req).1.verdict;
      var t2 := Counted(t1, hard, v);
      assert t2.decisions == [d1, DecisionOf(hard.gate, v)];
      assert t2.superseded == if v.supersedes.Some? then {v.supersedes.value} else {};
      ConcludeNames(t2, 1);
      if v.supersedes.Some? { assert v.supersedes.value in t2.superseded; }
    }
  }

  lemma RunOne<S>(step: GateStep<S>, s: S, req: VerifierRequest, t: Tally)
    requires step.plugin(s, req).1.Ruled?
    ensures RunStage([step], s, req, t).0 == step.plugin(s, req).0
    ensures step.plugin(s, req).1.verdict.kind == Accept ==>
      RunStage([step], s, req, t).1 == Go(Counted(t, step, step.plugin(s, req).1.verdict))
    ensures step.plugin(s, req).1.verdict.kind == Reject ==>
      RunStage([step], s, req, t).1 == Stop(Verdict(VerdictBundle(
        Rejected, t.decisions + [DecisionOf(step.gate, step.plugin(s, req).1.verdict)], None)))
  {
    assert [step][1..] == [];
  }

  /** Both gates share one run: after `runs-clean` the second gate always finds the run cached, so
      a dispatch executes the script at most once. */
  lemma SecondGateRunsNothing(cfg: FeConfig, g: GateState, req: VerifierRequest)
    ensures var g1 := Runnable(cfg, g, req).0;
      SharedRun(cfg, g1, req.objects) == (g1, SharedRun(cfg, g, req.objects).1)
  {
  }

  // ------------------------------------------------------------------ the machine

  datatype World = World(db: Db, gates: GateState)

  /** How far a submission got before some collaborator raised. `RanOnly` and `Judged` are handoffs
      whose reply never landed: a timeout, or a landing transaction that failed. */
  datatype Stage = Untouched | RecordedOnly | LinkedOnly | RanOnly | Judged | Landed

  datatype FeEvent =
    | Offer(env: ProposalEnvelope, stage: Stage, rejectedFirst: bool, now: Timestamp)
    | Restart
    | Seeded(artifact: Artifact, operation: Operation, stamp: Timestamp)
    | CycleLost(row: CycleFailure)

  /** The domain gates submissions and nothing else, on both store inputs. */
  predicate IsFeTask(k: Kernel) {
    k.gated == map[SUBMISSION := {Incumbents, RejectedLog}]
  }

  function RequestIn(k: Kernel, db: Db, env: ProposalEnvelope, rejectedFirst: bool): VerifierRequest
    requires env.artifact.id in db.artifacts
  {
    RequestFor(k, db, db.artifacts[env.artifact.id], Harvested(k, env), rejectedFirst)
  }

  /** From the handoff on, in the state the verifier is asked in. */
  function HandOff(k: Kernel, cfg: FeConfig, w: World, env: ProposalEnvelope, stage: Stage,
                   rejectedFirst: bool, now: Timestamp): (World, Option<Reply>)
    requires env.artifact.id in w.db.artifacts
  {
    if stage == LinkedOnly || Admit(w.db, env.artifact.id, k.gated.Keys, k.identity).Err? then (w, None)
    else
      var req := RequestIn(k, w.db, env, rejectedFirst);
      if stage == RanOnly then (w.(gates := Runnable(cfg, w.gates, req).0), None)
      else
        var (g, reply) := FeDispatch(cfg, w.gates, req);
        if stage == Judged then (w.(gates := g), Some(reply))
        else
          match Committed(w.db, env.artifact.id, k.gated.Keys, k.identity, reply, Exhausted(k, w.db, env.operation), now)
          case Err(_) => (World(w.db, g), Some(reply))
          case Ok(next) => (World(next, g), Some(reply))
  }

  /** How far intake gets on the tables alone: stopped short, or at the handoff. */
  datatype Approach = Short(db: Db) | AtGate(db: Db)

  function Approached(k: Kernel, db: Db, env: ProposalEnvelope, stage: Stage, now: Timestamp): (r: Approach)
    ensures r.AtGate? ==> env.artifact.id in r.db.artifacts
  {
    if stage == Untouched || ShapeError(k, env).Some? then Short(db)
    else
      match ProposeRow(db, StampedArtifact(Taken(k, env), now), StampedOperation(env.operation, now))
      case Err(_) => Short(db)
      case Ok(d1) =>
        if stage == RecordedOnly then Short(d1)
        else
          match Linked(d1, env.operation, env.artifact.id)
          case Err(_) => Short(d1)
          case Ok(d2) => AtGate(d2)
  }

  function FeStep(k: Kernel, cfg: FeConfig, w: World, e: FeEvent): (World, Option<Reply>) {
    match e
    case Restart => (w.(gates := FRESH), None)
    case Seeded(a, op, stamp) =>
      (match ProposeRow(w.db, StampedArtifact(a, stamp), StampedOperation(op, stamp))
       case Err(_) => (w, None)
       case Ok(next) => (w.(db := next), None))
    case CycleLost(row) => (w.(db := FailureRow(w.db, row)), None)
    case Offer(env, stage, rejectedFirst, now) =>
      var reached := Approached(k, w.db, env, stage, now);
      if reached.Short? then (w.(db := reached.db), None)
      else HandOff(k, cfg, w.(db := reached.db), env, stage, rejectedFirst, now)
  }

  function FeRun(k: Kernel, cfg: FeConfig, w: World, run: seq<FeEvent>): World
    decreases |run|
  {
    if run == [] then w else FeRun(k, cfg, FeStep(k, cfg, w, run[0]).0, run[1..])
  }

  const START := World(EMPTY_DB, FRESH)

  // ------------------------------------------------------------------ what the gates see

  ghost function TrialsIn(db: Db): nat {
    |Matching(db.artifacts, Some(SUBMISSION), Some(Rejected))|
  }

  /** Reigning submissions have exactly the selection score on record. */
  ghost predicate ScoresAreSelections(db: Db) {
    forall id | Reigned(db, SUBMISSION, id) ::
      ScoreOf(db, SELECTION, id).Some? && GateScores(db.decisions, id) == map[SELECTION := ScoreOf(db, SELECTION, id).value]
  }

  /** What the process remembers of an accepted submission is what was recorded. */
  ghost predicate LedgerHonest(db: Db, g: GateState) {
    forall id | IsAccepted(db, SUBMISSION, id) && id in g.scores :: ScoreOf(db, SELECTION, id) == Some(g.scores[id])
  }

  ghost predicate OneRunCached(g: GateState) {
    forall a, b | a in g.runs && b in g.runs :: a == b
  }

  /** The invariant of a run under the improving policy. */
  ghost predicate FeInv(cfg: FeConfig, w: World) {
    && Keyed(w.db)
    && DecisionsSettled(w.db)
    && OneRunCached(w.gates)
    && (!cfg.acceptAlways ==>
          && OneBest(w.db, SUBMISSION, SELECTION, cfg.margin)
          && ScoresAreSelections(w.db)
          && LedgerHonest(w.db, w.gates))
  }

  lemma {:induction false} ScoredAppend(a: seq<Artifact>, b: seq<Artifact>, ledger: map<Id, real>,
                                        recorded: map<Id, map<string, real>>)
    ensures Scored(a + b, ledger, recorded) == Scored(a, ledger, recorded) + Scored(b, ledger, recorded)
    ensures Trials(a + b) == Trials(a) + Trials(b)
  {
    if b == [] {
      assert a + b == a;
    } else {
      var n := |b| - 1;
      assert (a + b)[..|a| + n] == a + b[..n];
      ScoredAppend(a, b[..n], ledger, recorded);
    }
  }

  lemma {:induction false} RejectedOnly(a: seq<Artifact>, ledger: map<Id, real>, recorded: map<Id, map<string, real>>)
    requires forall x | x in a :: x.status == Rejected
    ensures Scored(a, ledger, recorded) == [] && Trials(a) == |a|
  {
    if a != [] {
      assert a[|a| - 1] in a;
      RejectedOnly(a[..|a| - 1], ledger, recorded);
    }
  }

  /** The accepted part of the slice, read with any honest ledger, yields the incumbent and its
      score. */
  lemma IncumbentsRead(db: Db, incumbents: seq<Artifact>, slice: seq<Artifact>, ledger: map<Id, real>, margin: real)
    requires Keyed(db) && OneBest(db, SUBMISSION, SELECTION, margin) && ScoresAreSelections(db)
    requires incumbents == Query(db.artifacts, Some(SUBMISSION), Some(Accepted))
    requires forall x | x in incumbents :: x in slice
    requires forall id | IsAccepted(db, SUBMISSION, id) && id in ledger :: ScoreOf(db, SELECTION, id) == Some(ledger[id])
    ensures BestPair(Scored(incumbents, ledger, RecordedScores(db, slice)))
      == (Incumbent(db, SUBMISSION), Base(db, SUBMISSION, SELECTION))
    ensures Trials(incumbents) == 0
  {
    hide RecordedScores, Scored, Query, GateScores;
    var keys := Matching(db.artifacts, Some(SUBMISSION), Some(Accepted));
    IncumbentAlone(db, incumbents, margin);
    if incumbents != [] {
      var x := incumbents[0];
      assert x in incumbents;
      var k :| k in keys && db.artifacts[k] == x;
      assert IsAccepted(db, SUBMISSION, x.id) && Reigned(db, SUBMISSION, x.id);
      IncumbentIs(db, SUBMISSION, SELECTION, margin, x.id);
      var s := ScoreOf(db, SELECTION, x.id).value;
      RecordedOf(db, slice, x, s);
      ScoredOne(x, ledger, RecordedScores(db, slice), s);
      assert incumbents == [x];
      assert BestPair([(x.id, s)]) == (Some(x.id), s);
      assert [x][..0] == [] && Trials([x][..0]) == 0;
    } else {
      NoIncumbent(db);
      RejectedOnly([], ledger, RecordedScores(db, slice));
    }
  }

  lemma NoIncumbent(db: Db)
    requires Matching(db.artifacts, Some(SUBMISSION), Some(Accepted)) == {}
    ensures Incumbent(db, SUBMISSION).None?
  {
    assert forall id :: IsAccepted(db, SUBMISSION, id) ==> id in Matching(db.artifacts, Some(SUBMISSION), Some(Accepted));
  }

  lemma RejectsRead(db: Db, rejects: seq<Artifact>, ledger: map<Id, real>, recorded: map<Id, map<string, real>>)
    requires rejects == Query(db.artifacts, Some(SUBMISSION), Some(Rejected))
    ensures Scored(rejects, ledger, recorded) == [] && Trials(rejects) == TrialsIn(db)
  {
    forall x | x in rejects ensures x.status == Rejected {
      var k :| k in Matching(db.artifacts, Some(SUBMISSION), Some(Rejected)) && db.artifacts[k] == x;
    }
    RejectedOnly(rejects, ledger, recorded);
  }

  /** The slice as the gates read it: the incumbent alone, and as many trials as rejections. */
  lemma SliceReads(db: Db, a: Artifact, rejectedFirst: bool, ledger: map<Id, real>, margin: real)
    requires Keyed(db) && OneBest(db, SUBMISSION, SELECTION, margin) && ScoresAreSelections(db)
    requires a.atype == SUBMISSION
    requires forall id | IsAccepted(db, SUBMISSION, id) && id in ledger :: ScoreOf(db, SELECTION, id) == Some(ledger[id])
    ensures var slice := ResolveSlice(db, a, {Incumbents, RejectedLog}, rejectedFirst);
      && BestPair(Scored(slice, ledger, RecordedScores(db, slice)))
         == (Incumbent(db, SUBMISSION), Base(db, SUBMISSION, SELECTION))
      && Trials(slice) == TrialsIn(db)
  {
    var incumbents, rejects := Provided(db, a, Incumbents), Provided(db, a, RejectedLog);
    var slice := ResolveSlice(db, a, {Incumbents, RejectedLog}, rejectedFirst);
    assert slice == if rejectedFirst then rejects + incumbents else incumbents + rejects;
    hide Query, RecordedScores, Scored, BestPair, OneBest, ScoresAreSelections, Keyed;
    var recorded := RecordedScores(db, slice);
    IncumbentsRead(db, incumbents, slice, ledger, margin);
    RejectsRead(db, rejects, ledger, recorded);
    ScoredAppend(incumbents, rejects, ledger, recorded);
    ScoredAppend(rejects, incumbents, ledger, recorded);
    assert [] + Scored(incumbents, ledger, recorded) == Scored(incumbents, ledger, recorded);
    assert Scored(incumbents, ledger, recorded) + [] == Scored(incumbents, ledger, recorded);
  }

  lemma IncumbentAlone(db: Db, incumbents: seq<Artifact>, margin: real)
    requires OneBest(db, SUBMISSION, SELECTION, margin)
    requires incumbents == Query(db.artifacts, Some(SUBMISSION), Some(Accepted)) && Keyed(db)
    ensures |incumbents| <= 1
  {
    var keys := Matching(db.artifacts, Some(SUBMISSION), Some(Accepted));
    if keys != {} {
      var one :| one in keys;
      forall other | other in keys ensures other == one {
        assert IsAccepted(db, SUBMISSION, one) && IsAccepted(db, SUBMISSION, other);
      }
      assert keys == {one};
    }
  }

  lemma RecordedOf(db: Db, slice: seq<Artifact>, x: Artifact, s: real)
    requires x in slice && GateScores(db.decisions, x.id) == map[SELECTION := s]
    ensures x.id in RecordedScores(db, slice) && RecordedScores(db, slice)[x.id].Values == {s}
  {
    var i :| 0 <= i < |slice| && slice[i] == x;
    assert SELECTION in map[SELECTION := s];
    assert map[SELECTION := s] != map[];
  }

  lemma ScoredOne(x: Artifact, ledger: map<Id, real>, recorded: map<Id, map<string, real>>, s: real)
    requires x.status == Accepted && x.id in recorded && recorded[x.id].Values == {s}
    requires x.id in ledger ==> ledger[x.id] == s
    ensures Scored([x], ledger, recorded) == [(x.id, s)]
  {
    assert s in recorded[x.id].Values;
    assert [x][..0] == [];
    assert Scored([x][..0], ledger, recorded) == [];
  }

  // ------------------------------------------------------------------ the reply, from the store alone

  ghost function BarIn(cfg: FeConfig, db: Db): real {
    Bar(cfg, Base(db, SUBMISSION, SELECTION), TrialsIn(db))
  }

  /** The ruling of the hard gate, from the run and the store: no ledger is mentioned. */
  ghost function HardRuling(cfg: FeConfig, db: Db, run: Option<RunResult>): GateVerdict {
    match Measure(cfg, run)
    case None => GateVerdict(Reject, "no scorable predictions", None, None, None)
    case Some(score) =>
      if cfg.acceptAlways then GateVerdict(Accept, "score recorded", None, Some(score), None)
      else if score > BarIn(cfg, db)
      then GateVerdict(Accept, "improves", None, Some(score), Incumbent(db, SUBMISSION))
      else GateVerdict(Reject, "does not improve", None, Some(score), None)
  }

  ghost function ExpectedReply(cfg: FeConfig, db: Db, run: Option<RunResult>): Reply {
    var v1 := RunnableVerdict(cfg, run).verdict;
    var d1 := DecisionOf(RUNS_CLEAN, v1);
    if v1.kind == Reject then Verdict(VerdictBundle(Rejected, [d1], None))
    else
      var v2 := HardRuling(cfg, db, run);
      var d2 := DecisionOf(HardName(cfg), v2);
      if v2.kind == Reject then Verdict(VerdictBundle(Rejected, [d1, d2], None))
      else Verdict(VerdictBundle(Accepted, [d1, d2], v2.supersedes))
  }

  /** The proposal under test: recorded, still proposed, of the gated type. */
  ghost predicate UnderTest(db: Db, id: Id) {
    id in db.artifacts && db.artifacts[id].status == Proposed && db.artifacts[id].atype == SUBMISSION
  }

  lemma SharedRunKeepsScores(cfg: FeConfig, g: GateState, objects: map<string, Bytes>)
    ensures SharedRun(cfg, g, objects).0.scores == g.scores
  {
  }

  lemma HardGateRules(k: Kernel, cfg: FeConfig, w: World, env: ProposalEnvelope, rejectedFirst: bool)
    requires IsFeTask(k) && FeInv(cfg, w) && UnderTest(w.db, env.artifact.id)
    ensures var req := RequestIn(k, w.db, env, rejectedFirst);
      var g1 := Runnable(cfg, w.gates, req).0;
      HardGate(cfg, g1, req).1 == Ruled(HardRuling(cfg, w.db, SharedRun(cfg, w.gates, req.objects).1))
  {
    hide SharedRun, Measure, Scored, BestPair, Trials, OneBest, ScoresAreSelections, ResolveSlice, RecordedScores, DecisionsSettled;
    var req := RequestIn(k, w.db, env, rejectedFirst);
    var g1 := Runnable(cfg, w.gates, req).0;
    var run := SharedRun(cfg, w.gates, req.objects).1;
    SecondGateRunsNothing(cfg, w.gates, req);
    SharedRunKeepsScores(cfg, w.gates, req.objects);
    var measured := Measure(cfg, run);
    if !cfg.acceptAlways && measured.Some? {
      var ledger := g1.scores[req.proposal.id := measured.value];
      SliceReads(w.db, req.proposal, rejectedFirst, ledger, cfg.margin);
    }
  }

  /** Whatever the verifier process remembers, its reply is a function of the store and of the run:
      this is what makes the ledger redundant. */
  lemma ReplyIsExpected(k: Kernel, cfg: FeConfig, w: World, env: ProposalEnvelope, rejectedFirst: bool)
    requires IsFeTask(k) && FeInv(cfg, w) && UnderTest(w.db, env.artifact.id)
    ensures FeDispatch(cfg, w.gates, RequestIn(k, w.db, env, rejectedFirst)).1
      == ExpectedReply(cfg, w.db, SharedRun(cfg, w.gates, Harvested(k, env)).1)
  {
    HardGateRules(k, cfg, w, env, rejectedFirst);
  }

  /** The run gets past runs-clean with these predictions. */
  ghost predicate RunClears(cfg: FeConfig, run: Option<RunResult>, preds: map<string, string>) {
    run.Some? && !run.value.timedOut && run.value.exitCode == 0 && Scorable(cfg.truth, run, preds)
  }

  /** The score to beat: that of the accepted submission, 0 when there is none. */
  ghost predicate IsBase(db: Db, base: real) {
    if exists x :: IsAccepted(db, SUBMISSION, x)
    then exists x :: IsAccepted(db, SUBMISSION, x) && ScoreOf(db, SELECTION, x) == Some(base)
    else base == 0.0
  }

  ghost function RejectedSubmissions(db: Db): set<Id> {
    set id | id in db.artifacts && db.artifacts[id].atype == SUBMISSION && db.artifacts[id].status == Rejected
  }

  lemma BaseIs(db: Db, margin: real, base: real)
    requires OneBest(db, SUBMISSION, SELECTION, margin) && IsBase(db, base)
    ensures base == Base(db, SUBMISSION, SELECTION)
    ensures forall x :: Incumbent(db, SUBMISSION) == Some(x) <==> IsAccepted(db, SUBMISSION, x)
  {
    if x :| IsAccepted(db, SUBMISSION, x) {
      forall y | IsAccepted(db, SUBMISSION, y) ensures y == x && Incumbent(db, SUBMISSION) == Some(y) {
        IncumbentIs(db, SUBMISSION, SELECTION, margin, y);
      }
      IncumbentIs(db, SUBMISSION, SELECTION, margin, x);
    }
  }

  lemma TrialsAreRejections(db: Db)
    ensures TrialsIn(db) == |RejectedSubmissions(db)|
  {
    assert Matching(db.artifacts, Some(SUBMISSION), Some(Rejected)) == RejectedSubmissions(db);
  }

  lemma RunnableRules(cfg: FeConfig, run: Option<RunResult>, preds: map<string, string>)
    ensures RunClears(cfg, run, preds) ==> RunnableVerdict(cfg, run).verdict.kind == Accept
    ensures (forall p :: !RunClears(cfg, run, p)) ==> RunnableVerdict(cfg, run).verdict.kind == Reject
  {
    hide ParsePredictions;
    if run.Some? && ParsePredictions(run.value.output).Some? {
      var p := ParsePredictions(run.value.output).value;
      if Covers(cfg.truth, p) {
        forall row | row in cfg.truth ensures row.0 in p {
          var i :| 0 <= i < |cfg.truth| && cfg.truth[i] == row;
        }
      }
      if forall row | row in cfg.truth :: row.0 in p {
        assert forall i | 0 <= i < |cfg.truth| :: cfg.truth[i] in cfg.truth;
      }
      assert Covers(cfg.truth, p) && !run.value.timedOut && run.value.exitCode == 0 ==> RunClears(cfg, run, p);
    }
  }

  /** Accepted exactly with a clean, covering run that scores above the bar (or under the policy that
      accepts always); an accept names the accepted submission, and nothing else ever does. */
  ghost predicate AcceptsAbove(cfg: FeConfig, db: Db, run: Option<RunResult>, reply: Reply, bar: real) {
    && reply.Verdict? && reply.bundle.status in {Accepted, Rejected}
    && (reply.bundle.status == Accepted <==>
          exists preds | RunClears(cfg, run, preds) :: cfg.acceptAlways || Score(cfg.truth, preds) > bar)
    && (forall x :: reply.bundle.supersedes == Some(x) <==>
          reply.bundle.status == Accepted && !cfg.acceptAlways && IsAccepted(db, SUBMISSION, x))
  }

  /** The arithmetic of the promise: whatever the process remembers, the bar of a dispatch is the score
      of the accepted submission plus the margin plus the deflation for every submission the store has
      rejected. */
  lemma AcceptedExactlyWhenBetter(k: Kernel, cfg: FeConfig, w: World, env: ProposalEnvelope, rejectedFirst: bool, base: real)
    requires IsFeTask(k) && FeInv(cfg, w) && UnderTest(w.db, env.artifact.id)
    requires !cfg.acceptAlways ==> IsBase(w.db, base)
    ensures AcceptsAbove(cfg, w.db, SharedRun(cfg, w.gates, Harvested(k, env)).1,
      FeDispatch(cfg, w.gates, RequestIn(k, w.db, env, rejectedFirst)).1,
      base + cfg.margin + cfg.deflation * |RejectedSubmissions(w.db)| as real)
  {
    hide FeDispatch, RequestIn, FeInv, SharedRun, IsBase, BarIn, ExpectedReply, RepliesAbove, AcceptsAbove,
      RejectedSubmissions, Harvested, IsFeTask, Incumbent, OneBest;
    var run := SharedRun(cfg, w.gates, Harvested(k, env)).1;
    ReplyIsExpected(k, cfg, w, env, rejectedFirst);
    if !cfg.acceptAlways {
      HasOneBest(cfg, w);
      BarIs(cfg, w.db, base);
    }
    ExpectedWhen(cfg, w.db, run);
    AnyBarUnderAcceptAlways(cfg, w.db, run, BarIn(cfg, w.db),
      base + cfg.margin + cfg.deflation * |RejectedSubmissions(w.db)| as real);
  }

  lemma HasOneBest(cfg: FeConfig, w: World)
    requires FeInv(cfg, w) && !cfg.acceptAlways
    ensures OneBest(w.db, SUBMISSION, SELECTION, cfg.margin)
  {
  }

  lemma AnyBarUnderAcceptAlways(cfg: FeConfig, db: Db, run: Option<RunResult>, bar: real, other: real)
    requires cfg.acceptAlways || bar == other
    requires !cfg.acceptAlways ==> forall x :: Incumbent(db, SUBMISSION) == Some(x) <==> IsAccepted(db, SUBMISSION, x)
    requires RepliesAbove(cfg, db, run, bar)
    ensures AcceptsAbove(cfg, db, run, ExpectedReply(cfg, db, run), other)
  {
    hide ExpectedReply, RunClears, Score, Incumbent;
  }

  lemma BarIs(cfg: FeConfig, db: Db, base: real)
    requires OneBest(db, SUBMISSION, SELECTION, cfg.margin) && IsBase(db, base)
    ensures BarIn(cfg, db) == base + cfg.margin + cfg.deflation * |RejectedSubmissions(db)| as real
    ensures forall x :: Incumbent(db, SUBMISSION) == Some(x) <==> IsAccepted(db, SUBMISSION, x)
  {
    BaseIs(db, cfg.margin, base);
    TrialsAreRejections(db);
    hide IsBase, Incumbent, Base, OneBest, IsAccepted;
  }

  ghost predicate RepliesAbove(cfg: FeConfig, db: Db, run: Option<RunResult>, bar: real) {
    var reply := ExpectedReply(cfg, db, run);
    && reply.Verdict? && reply.bundle.status in {Accepted, Rejected}
    && (reply.bundle.status == Accepted <==>
          exists preds | RunClears(cfg, run, preds) :: cfg.acceptAlways || Score(cfg.truth, preds) > bar)
    && reply.bundle.supersedes ==
         if reply.bundle.status == Accepted && !cfg.acceptAlways then Incumbent(db, SUBMISSION) else None
  }

  lemma ExpectedWhen(cfg: FeConfig, db: Db, run: Option<RunResult>)
    ensures RepliesAbove(cfg, db, run, BarIn(cfg, db))
  {
    hide Measure, Incumbent, BarIn, RunnableVerdict, RunClears, Score;
    RunnableRules(cfg, run, map[]);
    RunnableKinds(cfg, run);
    forall p | RunClears(cfg, run, p)
      ensures RunnableVerdict(cfg, run).verdict.kind == Accept && Measure(cfg, run) == Some(Score(cfg.truth, p))
    {
      RunnableRules(cfg, run, p);
      ClearsScores(cfg, run, p);
    }
  }

  lemma ClearsScores(cfg: FeConfig, run: Option<RunResult>, preds: map<string, string>)
    requires RunClears(cfg, run, preds)
    ensures Measure(cfg, run) == Some(Score(cfg.truth, preds))
  {
    hide Score;
    ScoreOfRun(cfg, run, preds);
  }

  lemma RunnableKinds(cfg: FeConfig, run: Option<RunResult>)
    ensures RunnableVerdict(cfg, run).Ruled? && RunnableVerdict(cfg, run).verdict.kind in {Accept, Reject}
  {
  }

  /** What a dispatch leaves in the process: the run cache of one shared run, and at most the
      proposal's own score. */
  lemma GatesAfter(cfg: FeConfig, g: GateState, req: VerifierRequest)
    ensures Runnable(cfg, g, req).0 == SharedRun(cfg, g, req.objects).0
    ensures FeDispatch(cfg, g, req).0.runs == SharedRun(cfg, g, req.objects).0.runs
    ensures forall id | id != req.proposal.id ::
      id in FeDispatch(cfg, g, req).0.scores <==> id in g.scores
    ensures forall id | id != req.proposal.id && id in g.scores ::
      FeDispatch(cfg, g, req).0.scores[id] == g.scores[id]
    ensures FeDispatch(cfg, g, req).1.bundle.status == Accepted ==>
      var s := Measure(cfg, SharedRun(cfg, g, req.objects).1);
      s.Some? && req.proposal.id in FeDispatch(cfg, g, req).0.scores
      && FeDispatch(cfg, g, req).0.scores[req.proposal.id] == s.value
  {
    SecondGateRunsNothing(cfg, g, req);
  }

  lemma RunsStayOne(cfg: FeConfig, g: GateState, objects: map<string, Bytes>)
    requires OneRunCached(g)
    ensures OneRunCached(SharedRun(cfg, g, objects).0)
  {
  }

  /** The scores a bundle of this pipeline records. */
  lemma RowsScore(id: Id, d1: GateDecision, d2: GateDecision, now: Timestamp)
    requires d1.score.None?
    ensures GateScores(RowsOf(id, [d1], now), id) == map[]
    ensures GateScores(RowsOf(id, [d1, d2], now), id) ==
      if d2.score.Some? then map[d2.gate := d2.score.value] else map[]
  {
    var one, two := RowsOf(id, [d1], now), RowsOf(id, [d1, d2], now);
    assert one[..0] == [] && two[..1] == one;
    assert GateScores(one, id) == map[];
  }

  lemma AcceptImproves(cfg: FeConfig, db: Db, run: Option<RunResult>, id: Id, now: Timestamp)
    requires !cfg.acceptAlways && cfg.deflation >= 0.0
    ensures ExpectedReply(cfg, db, run).Verdict?
    ensures Improves(db, ExpectedReply(cfg, db, run).bundle, SUBMISSION, SELECTION, cfg.margin, id, now)
    ensures var b := ExpectedReply(cfg, db, run).bundle;
      b.status == Accepted ==>
        && Measure(cfg, run).Some?
        && GateScores(RowsOf(id, b.decisions, now), id) == map[SELECTION := Measure(cfg, run).value]
        && Measure(cfg, run).value > BarIn(cfg, db)
    ensures var b := ExpectedReply(cfg, db, run).bundle;
      b.status in {Accepted, Rejected}
      && GateScores(RowsOf(id, b.decisions, now), id).Keys <= {SELECTION}
      && (b.status == Rejected && SELECTION in GateScores(RowsOf(id, b.decisions, now), id) ==>
            GateScores(RowsOf(id, b.decisions, now), id)[SELECTION] <= BarIn(cfg, db))
  {
    hide Measure, Covers, Incumbent, TrialsIn;
    var d1 := DecisionOf(RUNS_CLEAN, RunnableVerdict(cfg, run).verdict);
    var d2 := DecisionOf(SELECTION, HardRuling(cfg, db, run));
    RowsScore(id, d1, d2, now);
    assert cfg.deflation * TrialsIn(db) as real >= 0.0;
  }

  // ------------------------------------------------------------------ the invariant over runs

  /** No recorded score of a submission exceeds the bar of the moment. */
  ghost predicate NoneAboveBar(cfg: FeConfig, db: Db) {
    forall id | id in db.artifacts && db.artifacts[id].atype == SUBMISSION && ScoreOf(db, SELECTION, id).Some? ::
      ScoreOf(db, SELECTION, id).value <= BarIn(cfg, db)
  }

  ghost predicate Improving(cfg: FeConfig) {
    !cfg.acceptAlways && cfg.margin >= 0.0 && cfg.deflation >= 0.0
  }

  /** `next` differs from `db` in no committed row, up to revision pointers. */
  ghost predicate SameReign(db: Db, next: Db) {
    && next.decisions == db.decisions
    && (forall id | id in db.artifacts ::
          id in next.artifacts && next.artifacts[id].(revisedBy := None) == db.artifacts[id].(revisedBy := None))
    && (forall id | id in next.artifacts && id !in db.artifacts :: next.artifacts[id].status == Proposed)
  }

  lemma FrameReads(db: Db, next: Db)
    requires SameReign(db, next)
    ensures forall id :: Reigned(next, SUBMISSION, id) == Reigned(db, SUBMISSION, id)
    ensures forall id :: IsAccepted(next, SUBMISSION, id) == IsAccepted(db, SUBMISSION, id)
    ensures forall gate, id :: ScoreOf(next, gate, id) == ScoreOf(db, gate, id)
    ensures forall id | Reigned(db, SUBMISSION, id) ::
      next.artifacts[id].status == db.artifacts[id].status
      && next.artifacts[id].supersededBy == db.artifacts[id].supersededBy
    ensures TrialsIn(next) == TrialsIn(db)
  {
    forall id | id in db.artifacts
      ensures next.artifacts[id].status == db.artifacts[id].status
      ensures next.artifacts[id].atype == db.artifacts[id].atype
      ensures next.artifacts[id].supersededBy == db.artifacts[id].supersededBy
    {
      var x, y := next.artifacts[id].(revisedBy := None), db.artifacts[id].(revisedBy := None);
      assert x == y;
      assert x.status == y.status && x.atype == y.atype && x.supersededBy == y.supersededBy;
    }
    assert Matching(next.artifacts, Some(SUBMISSION), Some(Rejected))
        == Matching(db.artifacts, Some(SUBMISSION), Some(Rejected));
  }

  lemma SameBase(db: Db, next: Db, margin: real)
    requires OneBest(db, SUBMISSION, SELECTION, margin)
    requires forall id :: IsAccepted(next, SUBMISSION, id) == IsAccepted(db, SUBMISSION, id)
    requires forall id | Reigned(db, SUBMISSION, id) :: ScoreOf(next, SELECTION, id) == ScoreOf(db, SELECTION, id)
    ensures Incumbent(next, SUBMISSION) == Incumbent(db, SUBMISSION)
    ensures Base(next, SUBMISSION, SELECTION) == Base(db, SUBMISSION, SELECTION)
  {
    if id :| IsAccepted(db, SUBMISSION, id) {
      IncumbentIs(db, SUBMISSION, SELECTION, margin, id);
      assert IsAccepted(next, SUBMISSION, id);
      assert Reigned(db, SUBMISSION, id);
    }
  }

  ghost predicate FullInv(cfg: FeConfig, w: World) {
    FeInv(cfg, w) && (Improving(cfg) ==> NoneAboveBar(cfg, w.db))
  }

  lemma FrameKeepsInv(cfg: FeConfig, w: World, next: Db)
    requires FullInv(cfg, w) && SameReign(w.db, next) && Keyed(next)
    ensures FullInv(cfg, w.(db := next))
  {
    FrameReads(w.db, next);
    assert DecisionsSettled(next) by {
      forall d | d in next.decisions
        ensures d.artifactId in next.artifacts && next.artifacts[d.artifactId].status != Proposed
      {
        var x := next.artifacts[d.artifactId].(revisedBy := None);
        assert x == w.db.artifacts[d.artifactId].(revisedBy := None);
        assert x.status == w.db.artifacts[d.artifactId].status;
      }
    }
    if !cfg.acceptAlways {
      FrameKeepsBest(cfg, w, next);
    }
  }

  lemma FrameKeepsBest(cfg: FeConfig, w: World, next: Db)
    requires FullInv(cfg, w) && SameReign(w.db, next) && !cfg.acceptAlways
    ensures OneBest(next, SUBMISSION, SELECTION, cfg.margin)
    ensures ScoresAreSelections(next) && LedgerHonest(next, w.gates)
    ensures Improving(cfg) ==> NoneAboveBar(cfg, next)
  {
    FrameReads(w.db, next);
    forall x | Reigned(next, SUBMISSION, x) && next.artifacts[x].status == Superseded
      ensures next.artifacts[x].supersededBy.Some?
        && Replaced(next, SUBMISSION, SELECTION, cfg.margin, x, next.artifacts[x].supersededBy.value)
    {
      assert Replaced(w.db, SUBMISSION, SELECTION, cfg.margin, x, w.db.artifacts[x].supersededBy.value);
    }
    SameBase(w.db, next, cfg.margin);
    if Improving(cfg) {
      forall id | id in next.artifacts && next.artifacts[id].atype == SUBMISSION && ScoreOf(next, SELECTION, id).Some?
        ensures ScoreOf(next, SELECTION, id).value <= BarIn(cfg, next)
      {
        ScoredIsStored(w.db, id);
        var x := next.artifacts[id].(revisedBy := None);
        assert x == w.db.artifacts[id].(revisedBy := None) && x.atype == w.db.artifacts[id].atype;
      }
    }
  }

  /** Only stored artifacts have scores. */
  lemma ScoredIsStored(db: Db, id: Id)
    requires DecisionsSettled(db)
    ensures ScoreOf(db, SELECTION, id).Some? ==> id in db.artifacts
  {
    if id !in db.artifacts {
      NoRowsNoScores(db.decisions, id);
    }
  }

  /** A landed verdict keeps the one best answer, the honest ledger and the bar. */
  lemma LandingKeepsBest(cfg: FeConfig, db: Db, next: Db, a: Artifact, run: Option<RunResult>, exhausted: bool,
                         now: Timestamp, g: GateState)
    requires FullInv(cfg, World(db, g)) && !cfg.acceptAlways && cfg.deflation >= 0.0
    requires UnderTest(db, a.id) && db.artifacts[a.id] == a
    requires Settles(db, next, a, ExpectedReply(cfg, db, run).bundle, exhausted, now)
    ensures OneBest(next, SUBMISSION, SELECTION, cfg.margin) && ScoresAreSelections(next)
    ensures var b := ExpectedReply(cfg, db, run).bundle;
      if b.status == Accepted
      then IsAccepted(next, SUBMISSION, a.id) && Measure(cfg, run).Some?
           && ScoreOf(next, SELECTION, a.id) == Some(Measure(cfg, run).value)
      else next.artifacts[a.id].status == Rejected
  {
    var b := ExpectedReply(cfg, db, run).bundle;
    AcceptImproves(cfg, db, run, a.id, now);
    CommitKeepsOneBest(db, next, a, b, exhausted, now, SUBMISSION, SELECTION, cfg.margin);
    ScoresAfter(db, next, a, b, exhausted, now);
    forall id | Reigned(next, SUBMISSION, id)
      ensures ScoreOf(next, SELECTION, id).Some?
      ensures GateScores(next.decisions, id) == map[SELECTION := ScoreOf(next, SELECTION, id).value]
    {
      ReignAfter(db, next, a, b, exhausted, now, SUBMISSION, id);
    }
  }

  lemma LandingKeepsLedger(cfg: FeConfig, db: Db, next: Db, a: Artifact, run: Option<RunResult>, exhausted: bool,
                           now: Timestamp, g: GateState, g2: GateState)
    requires FullInv(cfg, World(db, g)) && !cfg.acceptAlways && cfg.deflation >= 0.0
    requires UnderTest(db, a.id) && db.artifacts[a.id] == a
    requires Settles(db, next, a, ExpectedReply(cfg, db, run).bundle, exhausted, now)
    requires forall id | id != a.id :: id in g2.scores <==> id in g.scores
    requires forall id | id != a.id && id in g.scores :: g2.scores[id] == g.scores[id]
    requires ExpectedReply(cfg, db, run).bundle.status == Accepted && a.id in g2.scores ==>
      Measure(cfg, run) == Some(g2.scores[a.id])
    ensures LedgerHonest(next, g2)
  {
    var b := ExpectedReply(cfg, db, run).bundle;
    AcceptImproves(cfg, db, run, a.id, now);
    ScoresAfter(db, next, a, b, exhausted, now);
    forall id | IsAccepted(next, SUBMISSION, id) && id in g2.scores
      ensures ScoreOf(next, SELECTION, id) == Some(g2.scores[id])
    {
      assert Reigned(next, SUBMISSION, id);
      ReignAfter(db, next, a, b, exhausted, now, SUBMISSION, id);
      if id != a.id {
        OnlyOneAfter(db, next, a, b, exhausted, now, SUBMISSION, SELECTION, cfg.margin, id);
        assert IsAccepted(db, SUBMISSION, id);
      }
    }
  }

  /** The bar only rises, and the new score is under it. */
  lemma LandingKeepsBar(cfg: FeConfig, db: Db, next: Db, a: Artifact, run: Option<RunResult>, exhausted: bool,
                        now: Timestamp, g: GateState)
    requires FullInv(cfg, World(db, g)) && Improving(cfg)
    requires UnderTest(db, a.id) && db.artifacts[a.id] == a
    requires Settles(db, next, a, ExpectedReply(cfg, db, run).bundle, exhausted, now)
    ensures BarIn(cfg, db) <= BarIn(cfg, next)
    ensures NoneAboveBar(cfg, next)
  {
    var b := ExpectedReply(cfg, db, run).bundle;
    AcceptImproves(cfg, db, run, a.id, now);
    LandingKeepsBest(cfg, db, next, a, run, exhausted, now, g);
    ScoresAfter(db, next, a, b, exhausted, now);
    BarRises(cfg, db, next, a, run, exhausted, now, g);
    forall id | id in next.artifacts && next.artifacts[id].atype == SUBMISSION && ScoreOf(next, SELECTION, id).Some?
      ensures ScoreOf(next, SELECTION, id).value <= BarIn(cfg, next)
    {
      if id != a.id {
        ScoredIsStored(db, id);
        assert db.artifacts[id].atype == SUBMISSION by {
          if !(b.status == Accepted && b.supersedes == Some(id)) { assert next.artifacts[id] == db.artifacts[id]; }
        }
      }
    }
  }

  lemma BarRises(cfg: FeConfig, db: Db, next: Db, a: Artifact, run: Option<RunResult>, exhausted: bool,
                 now: Timestamp, g: GateState)
    requires FullInv(cfg, World(db, g)) && Improving(cfg)
    requires UnderTest(db, a.id) && db.artifacts[a.id] == a
    requires Settles(db, next, a, ExpectedReply(cfg, db, run).bundle, exhausted, now)
    ensures BarIn(cfg, db) <= BarIn(cfg, next)
    ensures ExpectedReply(cfg, db, run).bundle.status == Accepted ==>
      Measure(cfg, run).Some? && Measure(cfg, run).value <= BarIn(cfg, next)
  {
    hide Settles, ExpectedReply, GateScores, Consistent, Measure, Base;
    AcceptImproves(cfg, db, run, a.id, now);
    var b := ExpectedReply(cfg, db, run).bundle;
    LandingKeepsBest(cfg, db, next, a, run, exhausted, now, g);
    TrialsAfter(db, next, a, b, exhausted, now);
    Scaled(cfg.deflation, TrialsIn(db) as real, TrialsIn(next) as real);
    if b.status == Accepted {
      IncumbentIs(next, SUBMISSION, SELECTION, cfg.margin, a.id);
    } else {
      BaseStays(cfg, db, next, a, b, exhausted, now);
    }
  }

  lemma BaseStays(cfg: FeConfig, db: Db, next: Db, a: Artifact, b: VerdictBundle, exhausted: bool, now: Timestamp)
    requires OneBest(db, SUBMISSION, SELECTION, cfg.margin) && DecisionsSettled(db)
    requires UnderTest(db, a.id) && Settles(db, next, a, b, exhausted, now) && b.status != Accepted
    ensures Base(next, SUBMISSION, SELECTION) == Base(db, SUBMISSION, SELECTION)
  {
    ScoresAfter(db, next, a, b, exhausted, now);
    forall id ensures IsAccepted(next, SUBMISSION, id) == IsAccepted(db, SUBMISSION, id) {
      ReignAfter(db, next, a, b, exhausted, now, SUBMISSION, id);
    }
    assert forall id | Reigned(db, SUBMISSION, id) :: id != a.id;
    SameBase(db, next, cfg.margin);
  }

  lemma Scaled(d: real, x: real, y: real)
    requires d >= 0.0 && 0.0 <= x <= y
    ensures 0.0 <= d * x <= d * y
  {
    assert d * y - d * x == d * (y - x);
  }

  /** A rejection adds one trial; nothing takes one away. */
  lemma TrialsAfter(db: Db, next: Db, a: Artifact, b: VerdictBundle, exhausted: bool, now: Timestamp)
    requires Settles(db, next, a, b, exhausted, now) && UnderTest(db, a.id) && Keyed(db)
    ensures TrialsIn(next) == TrialsIn(db) + if next.artifacts[a.id].status == Rejected then 1 else 0
  {
    hide HasProvenance, Consistent, RowsOf, Keyed;
    var before := Matching(db.artifacts, Some(SUBMISSION), Some(Rejected));
    var after := Matching(next.artifacts, Some(SUBMISSION), Some(Rejected));
    forall id ensures id in after <==> id in before || (id == a.id && next.artifacts[a.id].status == Rejected) {
      if id in db.artifacts && id != a.id && !(b.status == Accepted && b.supersedes == Some(id)) {
        assert next.artifacts[id] == db.artifacts[id];
      }
    }
    if next.artifacts[a.id].status == Rejected {
      assert after == before + {a.id};
    } else {
      assert after == before;
    }
  }

  /** The landing itself, once the verdict is in. */
  lemma LandedKeepsInv(cfg: FeConfig, w: World, g: GateState, id: Id, run: Option<RunResult>,
                       gated: set<string>, identity: string, exhausted: bool, now: Timestamp, next: Db)
    requires FullInv(cfg, w) && UnderTest(w.db, id) && OneRunCached(g)
    requires !cfg.acceptAlways ==> cfg.deflation >= 0.0
    requires Committed(w.db, id, gated, identity, ExpectedReply(cfg, w.db, run), exhausted, now) == Ok(next)
    requires forall i | i != id :: i in g.scores <==> i in w.gates.scores
    requires forall i | i != id && i in w.gates.scores :: g.scores[i] == w.gates.scores[i]
    requires ExpectedReply(cfg, w.db, run).bundle.status == Accepted && id in g.scores ==>
      Measure(cfg, run) == Some(g.scores[id])
    ensures FullInv(cfg, World(next, g))
  {
    var a, reply := w.db.artifacts[id], ExpectedReply(cfg, w.db, run);
    CommittedSettles(w.db, id, gated, identity, reply, exhausted, now);
    SettledEvolves(w.db, next, a, reply.bundle, exhausted, now);
    CommitKeepsSettled(w.db, next, a, reply.bundle, exhausted, now);
    hide Settles, ExpectedReply, Committed, OneBest, ScoresAreSelections, LedgerHonest, NoneAboveBar, DecisionsSettled;
    if !cfg.acceptAlways {
      LandingKeepsBest(cfg, w.db, next, a, run, exhausted, now, w.gates);
      LandingKeepsLedger(cfg, w.db, next, a, run, exhausted, now, w.gates, g);
      if Improving(cfg) {
        LandingKeepsBar(cfg, w.db, next, a, run, exhausted, now, w.gates);
      }
    }
  }

  /** A dispatch whose reply never lands. */
  lemma AskedKeepsInv(k: Kernel, cfg: FeConfig, w: World, env: ProposalEnvelope, rejectedFirst: bool)
    requires IsFeTask(k) && FullInv(cfg, w) && UnderTest(w.db, env.artifact.id)
    ensures var req := RequestIn(k, w.db, env, rejectedFirst);
      FullInv(cfg, w.(gates := Runnable(cfg, w.gates, req).0))
      && FullInv(cfg, w.(gates := FeDispatch(cfg, w.gates, req).0))
  {
    hide NoneAboveBar, OneBest, ScoresAreSelections, DecisionsSettled, FeDispatch, Runnable, SharedRun, Measure;
    var req := RequestIn(k, w.db, env, rejectedFirst);
    RunsStayOne(cfg, w.gates, req.objects);
    SharedRunKeepsScores(cfg, w.gates, req.objects);
    GatesAfter(cfg, w.gates, req);
    LedgerFrame(cfg, w, FeDispatch(cfg, w.gates, req).0, env.artifact.id);
  }

  lemma VerdictKeepsInv(k: Kernel, cfg: FeConfig, w: World, env: ProposalEnvelope, rejectedFirst: bool,
                        exhausted: bool, now: Timestamp, next: Db)
    requires IsFeTask(k) && FullInv(cfg, w) && UnderTest(w.db, env.artifact.id)
    requires !cfg.acceptAlways ==> cfg.deflation >= 0.0
    requires var reply := FeDispatch(cfg, w.gates, RequestIn(k, w.db, env, rejectedFirst)).1;
      Committed(w.db, env.artifact.id, k.gated.Keys, k.identity, reply, exhausted, now) == Ok(next)
    ensures FullInv(cfg, World(next, FeDispatch(cfg, w.gates, RequestIn(k, w.db, env, rejectedFirst)).0))
  {
    hide FullInv, Committed, ExpectedReply, SharedRun, Measure;
    var req := RequestIn(k, w.db, env, rejectedFirst);
    FullHasParts(cfg, w);
    RunsStayOne(cfg, w.gates, req.objects);
    GatesAfter(cfg, w.gates, req);
    ReplyIsExpected(k, cfg, w, env, rejectedFirst);
    LandedKeepsInv(cfg, w, FeDispatch(cfg, w.gates, req).0, env.artifact.id, SharedRun(cfg, w.gates, req.objects).1,
      k.gated.Keys, k.identity, exhausted, now, next);
  }

  lemma FullHasParts(cfg: FeConfig, w: World)
    requires FullInv(cfg, w)
    ensures FeInv(cfg, w) && OneRunCached(w.gates)
  {
  }

  lemma AdmittedUnderTest(k: Kernel, db: Db, id: Id)
    requires IsFeTask(k) && id in db.artifacts && Admit(db, id, k.gated.Keys, k.identity).Ok?
    ensures UnderTest(db, id)
  {
  }

  lemma HandOffKeepsInv(k: Kernel, cfg: FeConfig, w: World, env: ProposalEnvelope, stage: Stage,
                        rejectedFirst: bool, now: Timestamp)
    requires IsFeTask(k) && FullInv(cfg, w) && env.artifact.id in w.db.artifacts
    requires !cfg.acceptAlways ==> cfg.deflation >= 0.0
    ensures FullInv(cfg, HandOff(k, cfg, w, env, stage, rejectedFirst, now).0)
  {
    hide FullInv, FeDispatch, Committed, RequestIn, Runnable, Exhausted, Admit, UnderTest, IsFeTask;
    if stage != LinkedOnly && Admit(w.db, env.artifact.id, k.gated.Keys, k.identity).Ok? {
      AdmittedUnderTest(k, w.db, env.artifact.id);
      AskedKeepsInv(k, cfg, w, env, rejectedFirst);
      var reply := FeDispatch(cfg, w.gates, RequestIn(k, w.db, env, rejectedFirst)).1;
      var exhausted := Exhausted(k, w.db, env.operation);
      var next := Committed(w.db, env.artifact.id, k.gated.Keys, k.identity, reply, exhausted, now);
      if next.Ok? {
        VerdictKeepsInv(k, cfg, w, env, rejectedFirst, exhausted, now, next.value);
      }
    }
  }

  /** A reply that never lands leaves an honest ledger: what it scored is not accepted. */
  lemma LedgerFrame(cfg: FeConfig, w: World, g: GateState, id: Id)
    requires FeInv(cfg, w) && UnderTest(w.db, id)
    requires forall i | i != id :: i in g.scores <==> i in w.gates.scores
    requires forall i | i != id && i in w.gates.scores :: g.scores[i] == w.gates.scores[i]
    ensures !cfg.acceptAlways ==> LedgerHonest(w.db, g)
  {
  }

  lemma ApproachKeepsInv(k: Kernel, cfg: FeConfig, w: World, env: ProposalEnvelope, stage: Stage, now: Timestamp)
    requires FullInv(cfg, w)
    ensures FullInv(cfg, w.(db := Approached(k, w.db, env, stage, now).db))
  {
    hide FullInv, ShapeError;
    if stage != Untouched && ShapeError(k, env).None? {
      var a, op := StampedArtifact(Taken(k, env), now), StampedOperation(env.operation, now);
      var d1 := ProposeRow(w.db, a, op);
      if d1.Ok? {
        ProposeKeepsInv(cfg, w, a, op, d1.value);
        var d2 := Linked(d1.value, env.operation, env.artifact.id);
        if d2.Ok? {
          LinkKeepsInv(cfg, w.(db := d1.value), env.operation, env.artifact.id, d2.value);
        }
      }
    }
  }

  lemma StepKeepsInv(k: Kernel, cfg: FeConfig, w: World, e: FeEvent)
    requires IsFeTask(k) && FullInv(cfg, w) && (!cfg.acceptAlways ==> cfg.deflation >= 0.0)
    ensures FullInv(cfg, FeStep(k, cfg, w, e).0)
  {
    hide FullInv, HandOff, Approached;
    match e
    case Restart =>
      RestartKeepsInv(cfg, w);
    case Seeded(a, op, stamp) =>
      var next := ProposeRow(w.db, StampedArtifact(a, stamp), StampedOperation(op, stamp));
      if next.Ok? { ProposeKeepsInv(cfg, w, StampedArtifact(a, stamp), StampedOperation(op, stamp), next.value); }
    case CycleLost(row) =>
      FailureKeepsInv(cfg, w, row);
    case Offer(env, stage, rejectedFirst, now) =>
      ApproachKeepsInv(k, cfg, w, env, stage, now);
      var reached := Approached(k, w.db, env, stage, now);
      if reached.AtGate? {
        HandOffKeepsInv(k, cfg, w.(db := reached.db), env, stage, rejectedFirst, now);
      }
  }

  lemma RestartKeepsInv(cfg: FeConfig, w: World)
    requires FullInv(cfg, w)
    ensures FullInv(cfg, w.(gates := FRESH))
  {
  }

  lemma FailureKeepsInv(cfg: FeConfig, w: World, row: CycleFailure)
    requires FullInv(cfg, w)
    ensures FullInv(cfg, w.(db := FailureRow(w.db, row)))
  {
    FrameKeepsInv(cfg, w, FailureRow(w.db, row));
  }

  lemma ProposeKeepsInv(cfg: FeConfig, w: World, a: Artifact, op: Operation, next: Db)
    requires FullInv(cfg, w) && ProposeRow(w.db, a, op) == Ok(next)
    ensures FullInv(cfg, w.(db := next))
  {
    ProposedEvolves(w.db, a, op, next);
    FrameKeepsInv(cfg, w, next);
  }

  lemma LinkKeepsInv(cfg: FeConfig, w: World, op: Operation, newId: Id, next: Db)
    requires FullInv(cfg, w) && Linked(w.db, op, newId) == Ok(next)
    ensures FullInv(cfg, w.(db := next))
  {
    if next != w.db {
      LinkedEvolves(w.db, op.parents[0], newId, next);
      FrameKeepsInv(cfg, w, next);
    }
  }

  lemma {:induction false} RunKeepsInv(k: Kernel, cfg: FeConfig, w: World, run: seq<FeEvent>)
    requires IsFeTask(k) && FullInv(cfg, w) && (!cfg.acceptAlways ==> cfg.deflation >= 0.0)
    ensures FullInv(cfg, FeRun(k, cfg, w, run))
    decreases |run|
  {
    if run != [] {
      StepKeepsInv(k, cfg, w, run[0]);
      RunKeepsInv(k, cfg, FeStep(k, cfg, w, run[0]).0, run[1..]);
    }
  }

  lemma StartInv(cfg: FeConfig)
    ensures FullInv(cfg, START)
  {
    assert forall id :: GateScores(EMPTY_DB.decisions, id) == map[];
  }

  // ------------------------------------------------------------------ the promises

  /** One best answer survives: after every run under the improving policy, restarts and failures
      included, at most one submission is accepted; and from every submission that was ever
      accepted a finite chain of replacements, each better by more than the margin, leads to it. */
  lemma OneBestAnswerSurvives(k: Kernel, cfg: FeConfig, run: seq<FeEvent>, id: Id) returns (path: seq<Id>)
    requires IsFeTask(k) && Improving(cfg)
    requires Reigned(FeRun(k, cfg, START, run).db, SUBMISSION, id)
    ensures var db := FeRun(k, cfg, START, run).db;
      && (forall x, y | IsAccepted(db, SUBMISSION, x) && IsAccepted(db, SUBMISSION, y) :: x == y)
      && IsReign(db, SUBMISSION, SELECTION, cfg.margin, path) && path[0] == id
      && IsAccepted(db, SUBMISSION, path[|path| - 1])
  {
    var db := FeRun(k, cfg, START, run).db;
    StartInv(cfg);
    RunKeepsInv(k, cfg, START, run);
    path := ChainsEndAtIncumbent(db, SUBMISSION, SELECTION, cfg.margin, id);
  }

  /** No score ever recorded exceeds the incumbent's by more than the margin and the deflation. */
  lemma NoPriorBeatsTheBar(k: Kernel, cfg: FeConfig, run: seq<FeEvent>, id: Id)
    requires IsFeTask(k) && Improving(cfg)
    requires var db := FeRun(k, cfg, START, run).db;
      id in db.artifacts && db.artifacts[id].atype == SUBMISSION && ScoreOf(db, SELECTION, id).Some?
    ensures var db := FeRun(k, cfg, START, run).db;
      ScoreOf(db, SELECTION, id).value
        <= Base(db, SUBMISSION, SELECTION) + cfg.margin + cfg.deflation * TrialsIn(db) as real
  {
    hide FeRun, FeInv, Base;
    StartInv(cfg);
    RunKeepsInv(k, cfg, START, run);
  }

  /** With neither margin nor deflation, the incumbent's score is the maximum of all scores ever
      recorded: "best accepted" and "best prior of any status" coincide. */
  lemma BestAcceptedIsBestPrior(k: Kernel, cfg: FeConfig, run: seq<FeEvent>, best: Id, id: Id)
    requires IsFeTask(k) && !cfg.acceptAlways && cfg.margin == 0.0 && cfg.deflation == 0.0
    requires var db := FeRun(k, cfg, START, run).db;
      IsAccepted(db, SUBMISSION, best)
      && id in db.artifacts && db.artifacts[id].atype == SUBMISSION && ScoreOf(db, SELECTION, id).Some?
    ensures var db := FeRun(k, cfg, START, run).db;
      ScoreOf(db, SELECTION, best).Some?
      && ScoreOf(db, SELECTION, id).value <= ScoreOf(db, SELECTION, best).value
  {
    var db := FeRun(k, cfg, START, run).db;
    NoPriorBeatsTheBar(k, cfg, run, id);
    StartInv(cfg);
    RunKeepsInv(k, cfg, START, run);
    IncumbentIs(db, SUBMISSION, SELECTION, cfg.margin, best);
  }
}
