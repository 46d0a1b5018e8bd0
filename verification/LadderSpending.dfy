/** When the ladder spends a submission: exactly when the attempt earned it. */
module LadderSpending {

  import opened Contracts
  import opened Pipeline
  import opened SubmissionGates
  import opened Leaderboard
  import opened KaggleLadder

  // ------------------------------------------------------------------ one dispatch

  /** A ladder climbed rung by rung: the first rung that does not clear has the last word, and the
      top rung names the incumbent. */
  ghost function Climb<S>(steps: seq<GateStep<S>>, s: S, req: VerifierRequest, ds: seq<GateDecision>): (S, Reply) {
    if steps == [] then (s, Verdict(VerdictBundle(Accepted, ds, None)))
    else
      var (next, answer) := steps[0].plugin(s, req);
      if !Clears(answer) then (next, Objection(ds, steps[0].gate, answer))
      else
        var more := if answer.Ruled? then ds + [DecisionOf(steps[0].gate, answer.verdict)] else ds;
        if |steps| > 1 then Climb(steps[1..], next, req, more)
        else (next, Verdict(VerdictBundle(Accepted, more, if answer.Ruled? then answer.verdict.supersedes else None)))
  }

  /** A check that rules or raises, and names no incumbent unless it is hard. */
  ghost predicate Decisive<S(!new)>(step: GateStep<S>) {
    forall s, req :: var answer := step.plugin(s, req).1;
      !answer.Deferred? && (answer.Ruled? && !step.isHard ==> answer.verdict.supersedes.None?)
  }

  lemma {:induction false} CheapClimb<S(!new)>(cheap: seq<GateStep<S>>, hard: GateStep<S>, s: S, req: VerifierRequest, t: Tally)
    requires forall c | c in cheap :: !c.isHard && Decisive(c)
    requires hard.isHard && Decisive(hard) && t.superseded == {}
    ensures var (s1, flow) := RunStage(cheap, s, req, t);
      if flow.Stop? then Climb(cheap + [hard], s, req, t.decisions) == (s1, flow.reply)
      else
        && flow.tally.superseded == {}
        && Climb(cheap + [hard], s, req, t.decisions) == Climb([hard], s1, req, flow.tally.decisions)
  {
    if cheap == [] {
      assert cheap + [hard] == [hard];
    } else {
      assert cheap[0] in cheap;
      var (next, answer) := cheap[0].plugin(s, req);
      assert (cheap + [hard])[1..] == cheap[1..] + [hard];
      if Clears(answer) {
        CheapClimb(cheap[1..], hard, next, req, Counted(t, cheap[0], answer.verdict));
      }
    }
  }

  lemma HardClimb<S(!new)>(hard: GateStep<S>, s: S, req: VerifierRequest, t: Tally)
    requires hard.isHard && Decisive(hard) && t.superseded == {}
    ensures var (s2, flow) := RunStage([hard], s, req, t.(ruled := 0));
      Climb([hard], s, req, t.decisions) == (s2, if flow.Stop? then flow.reply else Conclude(flow.tally, 1))
  {
    var (next, answer) := hard.plugin(s, req);
    assert [hard][1..] == [];
    if Clears(answer) {
      var done := Counted(t.(ruled := 0), hard, answer.verdict);
      ConcludeNames(done, 1);
      assert done.superseded == if answer.verdict.supersedes.Some? then {answer.verdict.supersedes.value} else {};
      if answer.verdict.supersedes.Some? { assert answer.verdict.supersedes.value in done.superseded; }
    }
  }

  /** A pipeline of decisive checks of which only the last is hard is a ladder. */
  lemma LadderRun<S(!new)>(cheap: seq<GateStep<S>>, hard: GateStep<S>, s: S, req: VerifierRequest)
    requires forall c | c in cheap :: !c.isHard && Decisive(c)
    requires hard.isHard && Decisive(hard)
    ensures RunPipeline(cheap + [hard], s, req) == Climb(cheap + [hard], s, req, [])
  {
    FilterAppend(cheap, [hard]);
    FilterFixed(cheap, false);
    FilterFixed([hard], true);
    assert cheap + [] == cheap && [] + [hard] == [hard];
    hide RunStage, Climb, Conclude, Decisive;
    var t := Tally([], {}, 0);
    CheapClimb(cheap, hard, s, req, t);
    var (s1, flow) := RunStage(cheap, s, req, t);
    if flow.Go? { HardClimb(hard, s1, req, flow.tally); }
  }

  lemma RunsCleanDecisive(cfg: LadderConfig)
    ensures Decisive(LadderSteps(cfg)[0])
  {
    hide RunAs, RunsCleanVerdict;
    forall s, req ensures var a := RunsClean(cfg, s, req).1; a.Ruled? && a.verdict.supersedes.None? {
      CleanOrNot(cfg, RunAs(cfg, s, req.objects, OnHoldout).1);
    }
  }

  lemma CleanOrNot(cfg: LadderConfig, run: Option<RunResult>)
    ensures RunsCleanVerdict(cfg, run).Ruled? && RunsCleanVerdict(cfg, run).verdict.supersedes.None?
  {
  }

  lemma ProxyDecisive(cfg: LadderConfig)
    ensures Decisive(LadderSteps(cfg)[1])
  {
    hide RunAs, ProxyOf, BestBy;
    forall s, req ensures var a := ProxyImproves(cfg, s, req).1; a.Ruled? && a.verdict.supersedes.None? {}
  }

  lemma CompetitiveDecisive(cfg: LadderConfig)
    ensures Decisive(LadderSteps(cfg)[2])
  {
    hide KnownProxy, ReadBoard, TopFractionThreshold, Estimate;
    forall s, req ensures var a := Competitive(cfg, s, req).1;
      !a.Deferred? && (a.Ruled? ==> a.verdict.supersedes.None?) {}
  }

  lemma KaggleDecisive(cfg: LadderConfig)
    ensures Decisive(LadderSteps(cfg)[3])
  {
    hide RunAs, AwaitBudget, SubmitAndScore, BestBy, Regenerated;
    forall s, req ensures !Kaggle(cfg, s, req).1.Deferred? {}
  }

  lemma RungsDecisive(cfg: LadderConfig)
    ensures forall step | step in LadderSteps(cfg) :: Decisive(step)
  {
    hide Decisive;
    RunsCleanDecisive(cfg);
    ProxyDecisive(cfg);
    CompetitiveDecisive(cfg);
    KaggleDecisive(cfg);
  }

  ghost function LadderDispatch(cfg: LadderConfig, s: LadderState, req: VerifierRequest): (LadderState, Reply) {
    Climb(LadderSteps(cfg), s, req, [])
  }

  /** The pipeline the domain declares is that ladder. */
  lemma LadderIsPipeline(cfg: LadderConfig, s: LadderState, req: VerifierRequest)
    ensures RunPipeline(LadderSteps(cfg), s, req) == LadderDispatch(cfg, s, req)
  {
    var steps := LadderSteps(cfg);
    assert steps == [steps[0], steps[1], steps[2]] + [steps[3]];
    RungsDecisive(cfg);
    hide Climb, RunPipeline, Decisive;
    forall c | c in [steps[0], steps[1], steps[2]] ensures !c.isHard && Decisive(c) { assert c in steps; }
    LadderRun([steps[0], steps[1], steps[2]], steps[3], s, req);
  }

  lemma OneRung<S>(step: GateStep<S>, rest: seq<GateStep<S>>, s: S, req: VerifierRequest, ds: seq<GateDecision>)
    requires !step.plugin(s, req).1.Deferred?
    ensures var (next, answer) := step.plugin(s, req);
      Climb([step] + rest, s, req, ds) ==
        if !Clears(answer) then (next, Objection(ds, step.gate, answer))
        else if rest != [] then Climb(rest, next, req, ds + [DecisionOf(step.gate, answer.verdict)])
        else (next, Verdict(VerdictBundle(Accepted, ds + [DecisionOf(step.gate, answer.verdict)], answer.verdict.supersedes)))
  {
    assert ([step] + rest)[1..] == rest;
  }

  /** The decision a rung that cleared leaves. */
  ghost function Passed(gate: string, a: Answer): GateDecision {
    if a.Ruled? then DecisionOf(gate, a.verdict) else GateDecision(gate, Accept, "", None, None)
  }

  /** The state a dispatch leaves (that of the last rung asked), and its reply. */
  lemma LadderLeaves(cfg: LadderConfig, s: LadderState, req: VerifierRequest)
    ensures var (s1, a1) := RunsClean(cfg, s, req);
      var (s2, a2) := ProxyImproves(cfg, s1, req);
      var (s3, a3) := Competitive(cfg, s2, req);
      var (s4, a4) := Kaggle(cfg, s3, req);
      var d1, d2, d3 := Passed(RUNS_CLEAN, a1), Passed(PROXY, a2), Passed(COMPETITIVE, a3);
      LadderDispatch(cfg, s, req) ==
        if !Clears(a1) then (s1, Objection([], RUNS_CLEAN, a1))
        else if !Clears(a2) then (s2, Objection([d1], PROXY, a2))
        else if !Clears(a3) then (s3, Objection([d1, d2], COMPETITIVE, a3))
        else if !Clears(a4) then (s4, Objection([d1, d2, d3], KAGGLE, a4))
        else (s4, Verdict(VerdictBundle(Accepted, [d1, d2, d3, Passed(KAGGLE, a4)],
                                        if a4.Ruled? then a4.verdict.supersedes else None)))
  {
    var steps := LadderSteps(cfg);
    assert steps == [steps[0]] + [steps[1], steps[2], steps[3]];
    assert [steps[1], steps[2], steps[3]] == [steps[1]] + [steps[2], steps[3]];
    assert [steps[2], steps[3]] == [steps[2]] + [steps[3]] && [steps[3]] == [steps[3]] + [];
    RungsDecisive(cfg);
    assert Decisive(steps[0]) && Decisive(steps[1]) && Decisive(steps[2]) && Decisive(steps[3]);
    var (s1, a1) := RunsClean(cfg, s, req);
    var (s2, a2) := ProxyImproves(cfg, s1, req);
    var (s3, a3) := Competitive(cfg, s2, req);
    var (s4, a4) := Kaggle(cfg, s3, req);
    var d1, d2, d3 := Passed(RUNS_CLEAN, a1), Passed(PROXY, a2), Passed(COMPETITIVE, a3);
    assert steps[0].plugin(s, req) == (s1, a1) && steps[1].plugin(s1, req) == (s2, a2);
    assert steps[2].plugin(s2, req) == (s3, a3) && steps[3].plugin(s3, req) == (s4, a4);
    assert [] + [d1] == [d1] && [d1] + [d2] == [d1, d2] && [d1, d2] + [d3] == [d1, d2, d3];
    hide RunsClean, ProxyImproves, Competitive, Kaggle, Climb, Objection, LadderSteps;
    OneRung(steps[0], [steps[1], steps[2], steps[3]], s, req, []);
    OneRung(steps[1], [steps[2], steps[3]], s1, req, [d1]);
    OneRung(steps[2], [steps[3]], s2, req, [d1, d2]);
    OneRung(steps[3], [], s3, req, [d1, d2, d3]);
    assert [d1, d2, d3] + [Passed(KAGGLE, a4)] == [d1, d2, d3, Passed(KAGGLE, a4)];
  }

  // ------------------------------------------------------------------ the budget

  ghost function Waits(cfg: LadderConfig, n: nat): real {
    n as real * cfg.interval
  }

  /** The budget frees at poll `n`: every earlier poll found none, within the deadline. */
  ghost predicate FreesAt(cfg: LadderConfig, budgets: seq<Option<int>>, waited: real, n: nat) {
    && n < |budgets| && budgets[n].Some? && budgets[n].value > 0
    && forall j | 0 <= j < n ::
         budgets[j].Some? && budgets[j].value <= 0 && waited + Waits(cfg, j) < cfg.deadline
  }

  ghost function Reads(budgets: seq<Option<int>>): seq<Call>
    requires forall b | b in budgets :: b.Some?
  {
    seq(|budgets|, i requires 0 <= i < |budgets| => assert budgets[i] in budgets; BudgetRead(budgets[i].value))
  }

  /** Waiting asks for nothing but the budget. */
  lemma {:induction false} AwaitAsks(cfg: LadderConfig, s: LadderState, waited: real)
    ensures var next := AwaitBudget(cfg, s, waited).0;
      && next == s.(feed := s.feed.(budgets := next.feed.budgets), calls := next.calls)
      && s.calls <= next.calls
      && (forall c | c in next.calls[|s.calls|..] :: c.BudgetRead?)
    decreases |s.feed.budgets|
  {
    var budgets := s.feed.budgets;
    if budgets != [] && budgets[0].Some? && budgets[0].value <= 0 && waited < cfg.deadline {
      AwaitAsks(cfg, Polled(s), waited + cfg.interval);
    }
  }

  ghost function Polled(s: LadderState): LadderState
    requires s.feed.budgets != [] && s.feed.budgets[0].Some?
  {
    s.(feed := s.feed.(budgets := s.feed.budgets[1..]), calls := s.calls + [BudgetRead(s.feed.budgets[0].value)])
  }

  /** The wait succeeds exactly when the budget frees in time. */
  lemma {:induction false} AwaitExactly(cfg: LadderConfig, s: LadderState, waited: real)
    ensures AwaitBudget(cfg, s, waited).1 <==> exists n: nat :: FreesAt(cfg, s.feed.budgets, waited, n)
    decreases |s.feed.budgets|
  {
    var budgets := s.feed.budgets;
    if budgets != [] && budgets[0].Some? {
      var next := Polled(s);
      if budgets[0].value > 0 {
        assert FreesAt(cfg, budgets, waited, 0);
      } else if waited < cfg.deadline {
        var later := waited + cfg.interval;
        AwaitExactly(cfg, next, later);
        if n: nat :| FreesAt(cfg, budgets, waited, n) {
          FreesLater(cfg, budgets, waited, n);
          assert FreesAt(cfg, next.feed.budgets, later, n - 1);
        }
        if m: nat :| FreesAt(cfg, next.feed.budgets, later, m) {
          FreesLater(cfg, budgets, waited, m + 1);
          assert FreesAt(cfg, budgets, waited, m + 1);
        }
      } else {
        forall n: nat ensures !FreesAt(cfg, budgets, waited, n) {
          assert n > 0 && FreesAt(cfg, budgets, waited, n) ==> waited + Waits(cfg, 0) < cfg.deadline;
        }
      }
    }
  }

  lemma ReadsStep(first: Option<int>, rest: seq<Option<int>>)
    requires first.Some? && forall b | b in rest :: b.Some?
    ensures Reads([]) == []
    ensures Reads([first] + rest) == [BudgetRead(first.value)] + Reads(rest)
  {
  }

  /** When it succeeds at poll `n`, exactly the readings up to `n` were taken. */
  lemma {:induction false} AwaitReads(cfg: LadderConfig, s: LadderState, waited: real, n: nat)
    requires FreesAt(cfg, s.feed.budgets, waited, n)
    ensures forall b | b in s.feed.budgets[..n + 1] :: b.Some?
    ensures AwaitBudget(cfg, s, waited).0.calls == s.calls + Reads(s.feed.budgets[..n + 1])
    decreases n
  {
    hide Reads;
    var budgets := s.feed.budgets;
    if n == 0 {
      assert budgets[..1] == [budgets[0]] + [];
      ReadsStep(budgets[0], []);
    } else {
      assert waited + Waits(cfg, 0) < cfg.deadline;
      FreesLater(cfg, budgets, waited, n);
      AwaitReads(cfg, Polled(s), waited + cfg.interval, n - 1);
      assert budgets[..n + 1] == [budgets[0]] + budgets[1..][..n];
      ReadsStep(budgets[0], budgets[1..][..n]);
    }
  }

  lemma FreesLater(cfg: LadderConfig, budgets: seq<Option<int>>, waited: real, n: nat)
    requires budgets != [] && budgets[0].Some? && budgets[0].value <= 0 && waited < cfg.deadline
    ensures FreesAt(cfg, budgets, waited, n) <==> n > 0 && FreesAt(cfg, budgets[1..], waited + cfg.interval, n - 1)
  {
    var later := waited + cfg.interval;
    if n > 0 {
      forall j: nat ensures waited + Waits(cfg, j + 1) == later + Waits(cfg, j) {}
      assert forall j: nat | j < |budgets| - 1 :: budgets[1..][j] == budgets[j + 1];
      if FreesAt(cfg, budgets[1..], later, n - 1) {
        forall j | 0 <= j < n
          ensures budgets[j].Some? && budgets[j].value <= 0 && waited + Waits(cfg, j) < cfg.deadline
        {
          if j > 0 { assert budgets[1..][j - 1] == budgets[j] && waited + Waits(cfg, j - 1 + 1) == later + Waits(cfg, j - 1); }
        }
      }
      if FreesAt(cfg, budgets, waited, n) {
        forall j | 0 <= j < n - 1
          ensures budgets[1..][j].Some? && budgets[1..][j].value <= 0 && later + Waits(cfg, j) < cfg.deadline
        {
          assert budgets[j + 1].Some? && waited + Waits(cfg, j + 1) < cfg.deadline;
        }
      }
    }
  }

  /** It never hangs: with a positive interval the number of polls is bounded by the deadline. */
  lemma {:induction false} WaitIsBounded(cfg: LadderConfig, s: LadderState, waited: real)
    requires cfg.interval > 0.0
    ensures var polls := |AwaitBudget(cfg, s, waited).0.calls| - |s.calls|;
      polls >= 2 ==> waited + (polls - 2) as real * cfg.interval < cfg.deadline
    decreases |s.feed.budgets|
  {
    var budgets := s.feed.budgets;
    if budgets != [] && budgets[0].Some? && budgets[0].value <= 0 && waited < cfg.deadline {
      var next := Polled(s);
      WaitIsBounded(cfg, next, waited + cfg.interval);
      var rest := |AwaitBudget(cfg, next, waited + cfg.interval).0.calls| - |next.calls|;
      assert (rest - 1) as real * cfg.interval == (rest - 2) as real * cfg.interval + cfg.interval;
    }
  }

  // ------------------------------------------------------------------ what earns a submission

  lemma KeysApart(a: Bytes, b: Bytes)
    ensures CacheKey(a, OnHoldout) != CacheKey(b, OnRealTest)
  {
    var x, y := CacheKey(a, OnHoldout), CacheKey(b, OnRealTest);
    assert x[|x| - 1] == 'y' && y[|y| - 1] == 'e';
  }

  ghost function HoldoutRun(cfg: LadderConfig, s: LadderState, req: VerifierRequest): Option<RunResult> {
    RunAs(cfg, s, req.objects, OnHoldout).1
  }

  ghost function RealRun(cfg: LadderConfig, s: LadderState, req: VerifierRequest): Option<RunResult> {
    RunAs(cfg, s, req.objects, OnRealTest).1
  }

  /** A clean run whose predictions cover every reserved row. */
  ghost predicate RunsThrough(cfg: LadderConfig, run: Option<RunResult>) {
    && run.Some? && !run.value.timedOut && run.value.exitCode == 0
    && ParsePredictions(run.value.output).Some?
    && forall row | row in cfg.truth :: row.0 in ParsePredictions(run.value.output).value
  }

  /** A clean run that leaves at least one prediction. */
  ghost predicate LeavesFile(run: RunResult) {
    && !run.timedOut && run.exitCode == 0 && run.output.Some?
    && exists i :: 0 <= i < |run.output.value| && run.output.value[i].0 != ""
  }

  lemma RunsThroughExactlyWhen(cfg: LadderConfig, run: Option<RunResult>)
    ensures Clears(RunsCleanVerdict(cfg, run)) <==> RunsThrough(cfg, run)
  {
    hide ParsePredictions;
    if run.Some? && ParsePredictions(run.value.output).Some? {
      var preds := ParsePredictions(run.value.output).value;
      if Covers(cfg.truth, preds) {
        forall row | row in cfg.truth ensures row.0 in preds {
          var i :| 0 <= i < |cfg.truth| && cfg.truth[i] == row;
        }
      }
      assert forall i | 0 <= i < |cfg.truth| :: cfg.truth[i] in cfg.truth;
    }
  }

  lemma RegeneratedExactlyWhen(run: RunResult)
    ensures Regenerated(run) <==> LeavesFile(run)
    ensures Regenerated(run) ==> run.output.Some?
  {
    ParsedExactlyWhen(run.output);
  }

  /** What was not run before is run now: the script, with its package list, in the role of the rung. */
  lemma RunsTheScript(cfg: LadderConfig, s: LadderState, req: VerifierRequest)
    requires ENTRYPOINT in req.objects
    ensures var code := req.objects["submission.py"];
      var list := if "requirements.txt" in req.objects then Some(req.objects["requirements.txt"]) else None;
      && (CacheKey(code, OnHoldout) !in s.runs ==> HoldoutRun(cfg, s, req) == Some(cfg.runner(code, list, OnHoldout)))
      && (CacheKey(code, OnRealTest) !in s.runs ==> RealRun(cfg, s, req) == Some(cfg.runner(code, list, OnRealTest)))
  {
  }

  /** Runs clean on the hold-out and beats the best accepted proxy by more than the margin. */
  ghost predicate BeatsLocally(cfg: LadderConfig, s: LadderState, req: VerifierRequest) {
    var run := HoldoutRun(cfg, s, req);
    && RunsThrough(cfg, run)
    && ProxyOf(cfg, run).Some?
    && ProxyOf(cfg, run).value > BestBy(s.proxies[req.proposal.id := ProxyOf(cfg, run).value], req, PROXY).1 + cfg.margin
  }

  /** The board is empty, or fewer entries than the bar has places are above the estimate. */
  ghost predicate AmongTheTop(cfg: LadderConfig, s: LadderState, req: VerifierRequest, proxy: real, board: seq<real>) {
    board == [] ||
      (var estimate := Estimate(cfg, s.proxies[req.proposal.id := proxy], s.reals, proxy);
       estimate.Some? && CountAbove(board, estimate.value) < Places(|board|, cfg.fraction))
  }

  ghost predicate ReachesBar(cfg: LadderConfig, s: LadderState, req: VerifierRequest) {
    && BeatsLocally(cfg, s, req)
    && s.feed.boards != [] && s.feed.boards[0].Some?
    && AmongTheTop(cfg, s, req, ProxyOf(cfg, HoldoutRun(cfg, s, req)).value, s.feed.boards[0].value)
  }

  ghost predicate Earned(cfg: LadderConfig, s: LadderState, req: VerifierRequest) {
    && ReachesBar(cfg, s, req)
    && RealRun(cfg, s, req).Some? && LeavesFile(RealRun(cfg, s, req).value)
    && exists n: nat :: FreesAt(cfg, s.feed.budgets, 0.0, n)
  }

  ghost predicate Spends(more: seq<Call>) {
    exists c :: c in more && c.Submitted?
  }

  /** The state in which the hard rung is entered. */
  ghost function AtHardRung(cfg: LadderConfig, s: LadderState, req: VerifierRequest): LadderState {
    Competitive(cfg, ProxyImproves(cfg, RunsClean(cfg, s, req).0, req).0, req).0
  }

  ghost predicate EntersHardRung(cfg: LadderConfig, s: LadderState, req: VerifierRequest) {
    var (s1, a1) := RunsClean(cfg, s, req);
    Clears(a1) &&
    var (s2, a2) := ProxyImproves(cfg, s1, req);
    Clears(a2) && Clears(Competitive(cfg, s2, req).1)
  }

  lemma HoldoutCached(cfg: LadderConfig, s: LadderState, req: VerifierRequest)
    ensures var s1 := RunsClean(cfg, s, req).0;
      && s1 == s.(runs := s1.runs)
      && RunAs(cfg, s1, req.objects, OnHoldout) == (s1, HoldoutRun(cfg, s, req))
      && RealRun(cfg, s1, req) == RealRun(cfg, s, req)
  {
    if ENTRYPOINT in req.objects {
      KeysApart(req.objects[ENTRYPOINT], req.objects[ENTRYPOINT]);
    }
  }

  lemma ProxyRung(cfg: LadderConfig, s: LadderState, req: VerifierRequest)
    ensures var s1 := RunsClean(cfg, s, req).0;
      var (s2, a2) := ProxyImproves(cfg, s1, req);
      var proxy := ProxyOf(cfg, HoldoutRun(cfg, s, req));
      && s2 == s1.(proxies := if proxy.Some? then s.proxies[req.proposal.id := proxy.value] else s.proxies)
      && (Clears(RunsClean(cfg, s, req).1) && Clears(a2) <==> BeatsLocally(cfg, s, req))
  {
    HoldoutCached(cfg, s, req);
  }

  /** The hard rung is entered exactly when the attempt reaches the bar, one board read later. */
  lemma HardRungExactlyWhen(cfg: LadderConfig, s: LadderState, req: VerifierRequest)
    ensures EntersHardRung(cfg, s, req) <==> ReachesBar(cfg, s, req)
    ensures ReachesBar(cfg, s, req) ==>
      var s3 := AtHardRung(cfg, s, req);
      && s3.calls == s.calls + [BoardRead(s.feed.boards[0].value)]
      && s3.feed.budgets == s.feed.budgets
      && RealRun(cfg, s3, req) == RealRun(cfg, s, req)
  {
    hide CountAbove, Places, Estimate, TopFractionThreshold, RunAs, ProxyOf, RunsCleanVerdict, ParsePredictions, AmongTheTop;
    HoldoutCached(cfg, s, req);
    ProxyRung(cfg, s, req);
    var s1 := RunsClean(cfg, s, req).0;
    var s2 := ProxyImproves(cfg, s1, req).0;
    if BeatsLocally(cfg, s, req) {
      var proxy := ProxyOf(cfg, HoldoutRun(cfg, s, req)).value;
      BarRung(cfg, s2, req, proxy);
      SameBar(cfg, s, s2, req, proxy, if s.feed.boards != [] && s.feed.boards[0].Some? then s.feed.boards[0].value else []);
      SameRuns(cfg, s1, s2, req);
      SameRuns(cfg, s2, Competitive(cfg, s2, req).0, req);
    }
  }

  lemma SameBar(cfg: LadderConfig, s: LadderState, t: LadderState, req: VerifierRequest, proxy: real, board: seq<real>)
    requires t.proxies == s.proxies[req.proposal.id := proxy] && t.reals == s.reals
    ensures AmongTheTop(cfg, t, req, proxy, board) == AmongTheTop(cfg, s, req, proxy, board)
  {
    assert t.proxies[req.proposal.id := proxy] == t.proxies;
  }

  lemma SameRuns(cfg: LadderConfig, s: LadderState, t: LadderState, req: VerifierRequest)
    requires s.runs == t.runs
    ensures RealRun(cfg, s, req) == RealRun(cfg, t, req)
  {
  }

  lemma BarRung(cfg: LadderConfig, s: LadderState, req: VerifierRequest, proxy: real)
    requires req.proposal.id in s.proxies && s.proxies[req.proposal.id] == proxy
    ensures var (s3, a3) := Competitive(cfg, s, req);
      && s3.runs == s.runs && s3.feed.budgets == s.feed.budgets
      && (Clears(a3) <==>
            (s.feed.boards != [] && s.feed.boards[0].Some? && AmongTheTop(cfg, s, req, proxy, s.feed.boards[0].value)))
      && (s.feed.boards != [] && s.feed.boards[0].Some? ==> s3.calls == s.calls + [BoardRead(s.feed.boards[0].value)])
  {
    hide CountAbove, Places, Estimate, TopFractionThreshold;
    assert s.proxies[req.proposal.id := proxy] == s.proxies;
    if s.feed.boards != [] && s.feed.boards[0].Some? && s.feed.boards[0].value != [] {
      var board := s.feed.boards[0].value;
      var estimate := Estimate(cfg, s.proxies, s.reals, proxy);
      if estimate.Some? { ClearsBarExactlyWhen(board, cfg.fraction, estimate.value); }
    }
  }

  /** What the hard rung asks of the port. */
  lemma HardRungCalls(cfg: LadderConfig, s: LadderState, req: VerifierRequest)
    ensures var next := Kaggle(cfg, s, req).0;
      && s.calls <= next.calls
      && (Spends(next.calls[|s.calls|..]) <==>
            (RealRun(cfg, s, req).Some? && LeavesFile(RealRun(cfg, s, req).value)
             && exists n: nat :: FreesAt(cfg, s.feed.budgets, 0.0, n)))
    ensures forall n: nat | FreesAt(cfg, s.feed.budgets, 0.0, n) && RealRun(cfg, s, req).Some?
        && LeavesFile(RealRun(cfg, s, req).value) ::
      (forall b | b in s.feed.budgets[..n + 1] :: b.Some?)
      && Kaggle(cfg, s, req).0.calls
        == s.calls + Reads(s.feed.budgets[..n + 1]) + [Submitted(RealRun(cfg, s, req).value.output.value)]
  {
    hide RunAs, AwaitBudget, BestBy, LeavesFile, Regenerated, ParsePredictions;
    var (ran, run) := RunAs(cfg, s, req.objects, OnRealTest);
    assert ran == s.(runs := ran.runs) by { RunsOnly(cfg, s, req.objects, OnRealTest); }
    var next := Kaggle(cfg, s, req).0;
    if run.Some? { RegeneratedExactlyWhen(run.value); }
    AwaitExactly(cfg, ran, 0.0);
    AwaitAsks(cfg, ran, 0.0);
    forall n: nat | FreesAt(cfg, s.feed.budgets, 0.0, n)
      ensures forall b | b in s.feed.budgets[..n + 1] :: b.Some?
      ensures AwaitBudget(cfg, ran, 0.0).0.calls == s.calls + Reads(s.feed.budgets[..n + 1])
    {
      AwaitReads(cfg, ran, 0.0, n);
    }
    if run.Some? && LeavesFile(run.value) {
      var (free, ok) := AwaitBudget(cfg, ran, 0.0);
      if ok {
        assert next.calls == free.calls + [Submitted(run.value.output.value)];
        assert next.calls[|next.calls| - 1] == Submitted(run.value.output.value);
      } else {
        assert next.calls == free.calls;
      }
    } else {
      assert next.calls == s.calls;
    }
  }

  lemma RunsOnly(cfg: LadderConfig, s: LadderState, objects: map<string, Bytes>, role: Role)
    ensures RunAs(cfg, s, objects, role).0 == s.(runs := RunAs(cfg, s, objects, role).0.runs)
  {
  }

  /** The cheap rungs spend nothing. */
  lemma CheapRungsSpendNothing(cfg: LadderConfig, s: LadderState, req: VerifierRequest)
    ensures var s1 := RunsClean(cfg, s, req).0;
      var s2 := ProxyImproves(cfg, s1, req).0;
      var s3 := Competitive(cfg, s2, req).0;
      && s1.calls == s.calls && s2.calls == s.calls
      && s.calls <= s3.calls && |s3.calls| <= |s.calls| + 1
      && (|s3.calls| == |s.calls| + 1 ==> s3.calls[|s.calls|].BoardRead?)
  {
    hide RunAs, ProxyOf, BestBy, RunsCleanVerdict, BarVerdict;
    var s1 := RunsClean(cfg, s, req).0;
    RunsOnly(cfg, s, req.objects, OnHoldout);
    RunsOnly(cfg, s1, req.objects, OnHoldout);
    RunsOnly(cfg, ProxyImproves(cfg, s1, req).0, req.objects, OnHoldout);
  }

  /** A submission is spent exactly when the attempt runs clean, beats the best accepted proxy by
      more than the margin, is among the top of the board (or the board is empty), regenerates on
      the real test, and the budget frees before the deadline. Then the port is asked, in this
      order: the board once, the budget until the first positive reading, and one submission, of
      exactly the output regenerated on the real test. */
  lemma SpendsExactlyWhenEarned(cfg: LadderConfig, s: LadderState, req: VerifierRequest)
    ensures s.calls <= LadderDispatch(cfg, s, req).0.calls
    ensures Spends(LadderDispatch(cfg, s, req).0.calls[|s.calls|..]) <==> Earned(cfg, s, req)
    ensures forall n: nat | Earned(cfg, s, req) && FreesAt(cfg, s.feed.budgets, 0.0, n) ::
      (forall b | b in s.feed.budgets[..n + 1] :: b.Some?)
      && LadderDispatch(cfg, s, req).0.calls == s.calls + [BoardRead(s.feed.boards[0].value)]
        + Reads(s.feed.budgets[..n + 1]) + [Submitted(RealRun(cfg, s, req).value.output.value)]
  {
    hide RunsClean, ProxyImproves, Competitive, Kaggle, ReachesBar, RealRun, FreesAt, Reads, LeavesFile;
    LadderLeaves(cfg, s, req);
    CheapRungsSpendNothing(cfg, s, req);
    HardRungExactlyWhen(cfg, s, req);
    var next := LadderDispatch(cfg, s, req).0;
    if EntersHardRung(cfg, s, req) {
      var s3 := AtHardRung(cfg, s, req);
      HardRungCalls(cfg, s3, req);
      assert next == Kaggle(cfg, s3, req).0;
      var more := next.calls[|s3.calls|..];
      assert s3.calls == s.calls + [s3.calls[|s.calls|]];
      assert next.calls[|s.calls|..] == [s3.calls[|s.calls|]] + more;
    } else {
      assert forall c | c in next.calls[|s.calls|..] :: c.BoardRead?;
    }
  }

  // ------------------------------------------------------------------ how many

  /** The submissions among some calls. */
  ghost function SpentIn(calls: seq<Call>): nat {
    if calls == [] then 0 else SpentIn(calls[..|calls| - 1]) + if calls[|calls| - 1].Submitted? then 1 else 0
  }

  lemma {:induction false} NoneSpent(calls: seq<Call>)
    requires forall c | c in calls :: !c.Submitted?
    ensures SpentIn(calls) == 0
  {
    if calls != [] {
      assert calls[|calls| - 1] in calls;
      NoneSpent(calls[..|calls| - 1]);
    }
  }

  lemma ReadsAreReads(budgets: seq<Option<int>>)
    requires forall b | b in budgets :: b.Some?
    ensures forall c | c in Reads(budgets) :: c.BudgetRead?
  {
  }

  /** A dispatch spends one submission when it is earned and none otherwise. */
  lemma SpendsOneExactlyWhenEarned(cfg: LadderConfig, s: LadderState, req: VerifierRequest)
    ensures s.calls <= LadderDispatch(cfg, s, req).0.calls
    ensures SpentIn(LadderDispatch(cfg, s, req).0.calls[|s.calls|..]) == if Earned(cfg, s, req) then 1 else 0
  {
    hide LadderDispatch, RealRun, BeatsLocally, AmongTheTop, Reads;
    SpendsExactlyWhenEarned(cfg, s, req);
    var more := LadderDispatch(cfg, s, req).0.calls[|s.calls|..];
    if Earned(cfg, s, req) {
      var n: nat :| FreesAt(cfg, s.feed.budgets, 0.0, n);
      var last := Submitted(RealRun(cfg, s, req).value.output.value);
      var asked := [BoardRead(s.feed.boards[0].value)] + Reads(s.feed.budgets[..n + 1]);
      assert more == asked + [last];
      assert more[..|more| - 1] == asked;
      forall c | c in asked ensures !c.Submitted? { ReadsAreReads(s.feed.budgets[..n + 1]); }
      NoneSpent(asked);
    } else {
      NoneSpent(more);
    }
  }

  /** A handoff that is cut before the hard rung spends nothing, however far it got. */
  lemma CutSpendsNothing(cfg: LadderConfig, s: LadderState, req: VerifierRequest, cut: nat)
    requires cut < 4
    ensures s.calls <= Climb(LadderSteps(cfg)[..cut], s, req, []).0.calls
    ensures SpentIn(Climb(LadderSteps(cfg)[..cut], s, req, []).0.calls[|s.calls|..]) == 0
  {
    var steps := LadderSteps(cfg)[..cut];
    forall step, x | step in steps ensures Quiet(x, step.plugin(x, req).0) {
      var i :| 0 <= i < cut && steps[i] == step;
      RungQuiet(cfg, x, req, i);
    }
    ClimbQuiet(steps, s, req, []);
    NoneSpent(Climb(steps, s, req, []).0.calls[|s.calls|..]);
  }

  /** Nothing is submitted between the two states. */
  ghost predicate Quiet(s: LadderState, t: LadderState) {
    s.calls <= t.calls && forall c | c in t.calls[|s.calls|..] :: !c.Submitted?
  }

  lemma RungQuiet(cfg: LadderConfig, s: LadderState, req: VerifierRequest, i: nat)
    requires i < 3
    ensures Quiet(s, LadderSteps(cfg)[i].plugin(s, req).0)
  {
    hide RunAs, ProxyOf, BestBy, RunsCleanVerdict, BarVerdict;
    RunsOnly(cfg, s, req.objects, OnHoldout);
    assert s.calls[|s.calls|..] == [];
  }

  lemma QuietTrans(s: LadderState, t: LadderState, u: LadderState)
    requires Quiet(s, t) && Quiet(t, u)
    ensures Quiet(s, u)
  {
    assert u.calls[|s.calls|..] == t.calls[|s.calls|..] + u.calls[|t.calls|..];
  }

  lemma {:induction false} ClimbQuiet(steps: seq<GateStep<LadderState>>, s: LadderState, req: VerifierRequest,
                                      ds: seq<GateDecision>)
    requires forall step | step in steps :: forall x :: Quiet(x, step.plugin(x, req).0)
    ensures Quiet(s, Climb(steps, s, req, ds).0)
    decreases |steps|
  {
    if steps != [] {
      assert steps[0] in steps;
      var (next, answer) := steps[0].plugin(s, req);
      if Clears(answer) && |steps| > 1 {
        var more := if answer.Ruled? then ds + [DecisionOf(steps[0].gate, answer.verdict)] else ds;
        ClimbQuiet(steps[1..], next, req, more);
        QuietTrans(s, next, Climb(steps[1..], next, req, more).0);
      }
    }
  }
}
