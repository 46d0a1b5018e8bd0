/** Restarting the verifier process in the middle of a run changes nothing that is ever decided. */
module RestartRuns {

  import opened Contracts
  import opened Tables
  import opened Commit
  import opened SubmissionGates
  import opened Intake
  import opened Slices
  import opened FeRuns

  /** The replies the verifier gave, in order. */
  function Replies(k: Kernel, cfg: FeConfig, w: World, run: seq<FeEvent>): seq<Reply>
    decreases |run|
  {
    if run == [] then []
    else
      var (next, reply) := FeStep(k, cfg, w, run[0]);
      (if reply.Some? then [reply.value] else []) + Replies(k, cfg, next, run[1..])
  }

  /** The run with its restarts taken out. */
  function Unrestarted(run: seq<FeEvent>): seq<FeEvent> {
    if run == [] then []
    else (if run[0].Restart? then [] else [run[0]]) + Unrestarted(run[1..])
  }

  // ------------------------------------------------------------------ the cached run

  /** A cached result is what the runner would return now. */
  predicate CacheFaithful(cfg: FeConfig, g: GateState, objects: map<string, Bytes>) {
    ENTRYPOINT in objects && Sha256(objects[ENTRYPOINT]) in g.runs ==>
      g.runs[Sha256(objects[ENTRYPOINT])] == FreshRun(cfg, objects)
  }

  function ListOf(objects: map<string, Bytes>): Option<Bytes> {
    if REQUIREMENTS in objects then Some(objects[REQUIREMENTS]) else None
  }

  /** The script that was run last, with the package list it was run with. A dispatch of the very
      script that was run last runs nothing, and neither does one without a script. */
  function LastRun(dispatches: seq<map<string, Bytes>>): Option<(Bytes, Option<Bytes>)> {
    if dispatches == [] then None
    else
      var n := |dispatches| - 1;
      var before, objects := LastRun(dispatches[..n]), dispatches[n];
      if ENTRYPOINT !in objects || (before.Some? && before.value.0 == objects[ENTRYPOINT]) then before
      else Some((objects[ENTRYPOINT], ListOf(objects)))
  }

  /** The dispatch carries another script than the one run last, or the package list it was run with. */
  predicate SameListAsLastRun(dispatches: seq<map<string, Bytes>>, objects: map<string, Bytes>) {
    var last := LastRun(dispatches);
    ENTRYPOINT in objects && last.Some? && last.value.0 == objects[ENTRYPOINT] ==> last.value.1 == ListOf(objects)
  }

  /** The process after some dispatches, from its start. */
  function RanThrough(cfg: FeConfig, dispatches: seq<map<string, Bytes>>): GateState {
    if dispatches == [] then FRESH
    else SharedRun(cfg, RanThrough(cfg, dispatches[..|dispatches| - 1]), dispatches[|dispatches| - 1]).0
  }

  /** The cache these dispatches leave. */
  function CacheOf(cfg: FeConfig, dispatches: seq<map<string, Bytes>>): map<string, RunResult> {
    var last := LastRun(dispatches);
    if last.None? then map[] else map[Sha256(last.value.0) := cfg.runner(last.value.0, last.value.1)]
  }

  lemma CacheStep(cfg: FeConfig, g: GateState, dispatches: seq<map<string, Bytes>>, objects: map<string, Bytes>)
    requires g.runs == CacheOf(cfg, dispatches)
    ensures SharedRun(cfg, g, objects).0.runs == CacheOf(cfg, dispatches + [objects])
    ensures SameListAsLastRun(dispatches, objects) ==> CacheFaithful(cfg, g, objects)
  {
    assert (dispatches + [objects])[..|dispatches|] == dispatches;
    var last := LastRun(dispatches);
    if ENTRYPOINT in objects && last.Some? && Sha256(last.value.0) == Sha256(objects[ENTRYPOINT]) {
      Sha256Injective(last.value.0, objects[ENTRYPOINT]);
    }
  }

  lemma {:induction false} CacheIs(cfg: FeConfig, dispatches: seq<map<string, Bytes>>)
    ensures RanThrough(cfg, dispatches).runs == CacheOf(cfg, dispatches)
  {
    if dispatches != [] {
      var n := |dispatches| - 1;
      CacheIs(cfg, dispatches[..n]);
      CacheStep(cfg, RanThrough(cfg, dispatches[..n]), dispatches[..n], dispatches[n]);
      assert dispatches == dispatches[..n] + [dispatches[n]];
    }
  }

  /** Whatever was dispatched before, a restart leaves the run the gates see unchanged, for every
      runner, exactly when the next dispatch does not bring the script run last with another package
      list. */
  lemma RestartKeepsRunExactlyWhen(dispatches: seq<map<string, Bytes>>, objects: map<string, Bytes>)
    ensures (forall cfg: FeConfig ::
        SharedRun(cfg, FRESH, objects).1 == SharedRun(cfg, RanThrough(cfg, dispatches), objects).1)
      <==> SameListAsLastRun(dispatches, objects)
  {
    if SameListAsLastRun(dispatches, objects) {
      forall cfg: FeConfig
        ensures SharedRun(cfg, FRESH, objects).1 == SharedRun(cfg, RanThrough(cfg, dispatches), objects).1
      {
        CacheIs(cfg, dispatches);
        CacheStep(cfg, RanThrough(cfg, dispatches), dispatches, objects);
      }
    } else {
      var last := LastRun(dispatches).value;
      var cfg := FeConfig([], 0.0, 0.0, false,
        (code, reqs) => RunResult(if reqs == last.1 then 0 else 1, false, "", None));
      CacheIs(cfg, dispatches);
      assert SharedRun(cfg, RanThrough(cfg, dispatches), objects).1.value.exitCode == 0;
      assert FreshRun(cfg, objects).exitCode == 1;
    }
  }

  /** A runner whose outcome depends on the package list. */
  function PickyRunner(good: Bytes): (Bytes, Option<Bytes>) -> RunResult {
    (code, reqs) => if reqs == Some(good) then RunResult(0, false, "", Some([("r", "x")]))
                    else RunResult(1, false, "", None)
  }

  /** The condition is needed: one script submitted twice with different package lists, where only
      the first list makes it run. The second submission passes on the first one's cached result,
      and is rejected after a restart. */
  lemma RestartCanShow(code: Bytes, good: Bytes, bad: Bytes)
    requires good != bad
    ensures var cfg := FeConfig([("r", "x")], 0.0, 0.0, false, PickyRunner(good));
      var g := SharedRun(cfg, FRESH, map[ENTRYPOINT := code, REQUIREMENTS := good]).0;
      var second := map[ENTRYPOINT := code, REQUIREMENTS := bad];
      && RunnableVerdict(cfg, SharedRun(cfg, g, second).1).verdict.kind == Accept
      && RunnableVerdict(cfg, SharedRun(cfg, FRESH, second).1).verdict.kind == Reject
  {
    var cfg := FeConfig([("r", "x")], 0.0, 0.0, false, PickyRunner(good));
    var first, second := map[ENTRYPOINT := code, REQUIREMENTS := good], map[ENTRYPOINT := code, REQUIREMENTS := bad];
    assert |ENTRYPOINT| == 13 && |REQUIREMENTS| == 16;
    assert first[ENTRYPOINT] == code == second[ENTRYPOINT];
    var fine := RunResult(0, false, "", Some([("r", "x")]));
    assert FreshRun(cfg, first) == fine;
    assert FreshRun(cfg, second) == RunResult(1, false, "", None);
    var g := SharedRun(cfg, FRESH, first).0;
    assert g.runs == map[Sha256(code) := fine];
    assert SharedRun(cfg, g, second).1 == Some(fine);
    var row := ("r", "x");
    assert [row][..0] == [];
    assert RowMap([row][..0]) == map[];
    assert RowMap([row]) == map["r" := "x"];
    assert ParsePredictions(fine.output) == Some(map["r" := "x"]) by { assert "r" in map["r" := "x"]; }
    assert Covers(cfg.truth, map["r" := "x"]);
  }

  /** The offer gets as far as the verifier. */
  ghost predicate Carries(k: Kernel, db: Db, e: FeEvent) {
    && e.Offer? && e.stage != LinkedOnly
    && var reached := Approached(k, db, e.env, e.stage, e.now);
       reached.AtGate? && Admit(reached.db, e.env.artifact.id, k.gated.Keys, k.identity).Ok?
  }

  ghost function Handed(k: Kernel, db: Db, e: FeEvent): seq<map<string, Bytes>> {
    if Carries(k, db, e) then [Harvested(k, e.env)] else []
  }

  /** What the verifier was handed along a run, dispatch by dispatch. */
  ghost function Dispatches(k: Kernel, cfg: FeConfig, w: World, run: seq<FeEvent>): seq<map<string, Bytes>>
    decreases |run|
  {
    if run == [] then []
    else Handed(k, w.db, run[0]) + Dispatches(k, cfg, FeStep(k, cfg, w, run[0]).0, run[1..])
  }

  /** A script that comes again right after its run comes with the package list of that run. */
  ghost predicate ListsAgree(dispatches: seq<map<string, Bytes>>) {
    forall j | 0 <= j < |dispatches| :: SameListAsLastRun(dispatches[..j], dispatches[j])
  }

  /** Along a run without restarts, every dispatch finds a faithful cache. */
  ghost predicate FaithfulRun(k: Kernel, cfg: FeConfig, w: World, run: seq<FeEvent>)
    decreases |run|
  {
    run != [] ==>
      && (Carries(k, w.db, run[0]) ==> CacheFaithful(cfg, w.gates, Harvested(k, run[0].env)))
      && FaithfulRun(k, cfg, FeStep(k, cfg, w, run[0]).0, run[1..])
  }

  lemma StepCaches(k: Kernel, cfg: FeConfig, w: World, e: FeEvent, dispatches: seq<map<string, Bytes>>)
    requires !e.Restart? && w.gates.runs == CacheOf(cfg, dispatches)
    ensures FeStep(k, cfg, w, e).0.gates.runs == CacheOf(cfg, dispatches + Handed(k, w.db, e))
  {
    hide FeDispatch, SharedRun, Committed, Runnable, CacheOf, Exhausted, RequestFor, Harvested, Admit, Approached;
    assert dispatches + [] == dispatches;
    if Carries(k, w.db, e) {
      var at := w.(db := Approached(k, w.db, e.env, e.stage, e.now).db);
      var req := RequestIn(k, at.db, e.env, e.rejectedFirst);
      RequestObjects(k, at.db, e.env, e.rejectedFirst);
      GatesAfter(cfg, w.gates, req);
      CacheStep(cfg, w.gates, dispatches, Harvested(k, e.env));
    }
  }

  /** Lists that agree make the run faithful, for every runner. */
  lemma {:induction false} AgreeingListsAreFaithful(k: Kernel, cfg: FeConfig, w: World, run: seq<FeEvent>,
                                                    before: seq<map<string, Bytes>>)
    requires forall e | e in run :: !e.Restart?
    requires w.gates.runs == CacheOf(cfg, before) && ListsAgree(before + Dispatches(k, cfg, w, run))
    ensures FaithfulRun(k, cfg, w, run)
    decreases |run|
  {
    hide FeStep, CacheOf, CacheFaithful, Approached, Admit, Harvested, LastRun;
    if run != [] {
      assert run[0] in run;
      var next := FeStep(k, cfg, w, run[0]).0;
      var now := Handed(k, w.db, run[0]);
      var all := before + Dispatches(k, cfg, w, run);
      assert all == before + now + Dispatches(k, cfg, next, run[1..]);
      if Carries(k, w.db, run[0]) {
        assert all[|before|] == Harvested(k, run[0].env) && all[..|before|] == before;
        CacheStep(cfg, w.gates, before, Harvested(k, run[0].env));
      }
      StepCaches(k, cfg, w, run[0], before);
      AgreeingListsAreFaithful(k, cfg, next, run[1..], before + now);
    }
  }

  lemma {:induction false} NoRestartsLeft(run: seq<FeEvent>)
    ensures forall e | e in Unrestarted(run) :: !e.Restart?
  {
    if run != [] { NoRestartsLeft(run[1..]); }
  }

  /** Runs whose runner looks at the code alone are faithful. */
  ghost predicate RunnerReadsCodeOnly(cfg: FeConfig) {
    forall code, a, b :: cfg.runner(code, a) == cfg.runner(code, b)
  }

  /** Everything in the cache came from the runner. */
  ghost predicate CacheFromRunner(cfg: FeConfig, g: GateState) {
    forall digest | digest in g.runs ::
      exists code, reqs :: digest == Sha256(code) && g.runs[digest] == cfg.runner(code, reqs)
  }

  lemma CodeOnlyIsFaithful(cfg: FeConfig, g: GateState, objects: map<string, Bytes>)
    requires RunnerReadsCodeOnly(cfg) && CacheFromRunner(cfg, g)
    ensures CacheFaithful(cfg, g, objects)
    ensures CacheFromRunner(cfg, SharedRun(cfg, g, objects).0)
  {
    if ENTRYPOINT in objects {
      var digest := Sha256(objects[ENTRYPOINT]);
      if digest in g.runs {
        var code, reqs :| digest == Sha256(code) && g.runs[digest] == cfg.runner(code, reqs);
        Sha256Injective(code, objects[ENTRYPOINT]);
      } else {
        var result := FreshRun(cfg, objects);
        var reqs := if REQUIREMENTS in objects then Some(objects[REQUIREMENTS]) else None;
        assert result == cfg.runner(objects[ENTRYPOINT], reqs);
      }
    }
  }

  lemma HandOffKeepsCacheOrigin(k: Kernel, cfg: FeConfig, w: World, env: ProposalEnvelope, stage: Stage,
                                rejectedFirst: bool, now: Timestamp)
    requires RunnerReadsCodeOnly(cfg) && CacheFromRunner(cfg, w.gates) && env.artifact.id in w.db.artifacts
    ensures CacheFromRunner(cfg, HandOff(k, cfg, w, env, stage, rejectedFirst, now).0.gates)
  {
    hide FeDispatch, SharedRun, Committed, Runnable, RequestIn, RunnerReadsCodeOnly;
    var req := RequestIn(k, w.db, env, rejectedFirst);
    CodeOnlyIsFaithful(cfg, w.gates, req.objects);
    GatesAfter(cfg, w.gates, req);
  }

  lemma StepKeepsCacheOrigin(k: Kernel, cfg: FeConfig, w: World, e: FeEvent)
    requires RunnerReadsCodeOnly(cfg) && CacheFromRunner(cfg, w.gates)
    ensures CacheFromRunner(cfg, FeStep(k, cfg, w, e).0.gates)
  {
    hide HandOff, Approached, RunnerReadsCodeOnly;
    if e.Offer? {
      var reached := Approached(k, w.db, e.env, e.stage, e.now);
      if reached.AtGate? {
        HandOffKeepsCacheOrigin(k, cfg, w.(db := reached.db), e.env, e.stage, e.rejectedFirst, e.now);
      }
    }
  }

  lemma {:induction false} CodeOnlyRunsAreFaithful(k: Kernel, cfg: FeConfig, w: World, run: seq<FeEvent>)
    requires RunnerReadsCodeOnly(cfg) && CacheFromRunner(cfg, w.gates)
    ensures FaithfulRun(k, cfg, w, run)
    decreases |run|
  {
    if run != [] {
      if Carries(k, w.db, run[0]) { CodeOnlyIsFaithful(cfg, w.gates, Harvested(k, run[0].env)); }
      StepKeepsCacheOrigin(k, cfg, w, run[0]);
      CodeOnlyRunsAreFaithful(k, cfg, FeStep(k, cfg, w, run[0]).0, run[1..]);
    }
  }

  // ------------------------------------------------------------------ two processes side by side

  /** `w` never restarted, `v` did at some point: same tables, and `v` has lost its run cache or has
      the same one. Their ledgers may differ. */
  ghost predicate Shadows(cfg: FeConfig, w: World, v: World) {
    && w.db == v.db
    && FeInv(cfg, w) && FeInv(cfg, v)
    && (v.gates.runs == map[] || v.gates.runs == w.gates.runs)
  }

  lemma SameRunSeen(cfg: FeConfig, w: World, v: World, objects: map<string, Bytes>)
    requires Shadows(cfg, w, v) && CacheFaithful(cfg, w.gates, objects)
    ensures SharedRun(cfg, v.gates, objects).1 == SharedRun(cfg, w.gates, objects).1
    ensures SharedRun(cfg, v.gates, objects).0.runs == map[]
      || SharedRun(cfg, v.gates, objects).0.runs == SharedRun(cfg, w.gates, objects).0.runs
  {
    if ENTRYPOINT in objects {
      var digest := Sha256(objects[ENTRYPOINT]);
      if digest in w.gates.runs && v.gates.runs == map[] {
        assert forall d | d in w.gates.runs :: d == digest;
        assert w.gates.runs == map[digest := FreshRun(cfg, objects)];
      }
    }
  }

  lemma HandOffShadows(k: Kernel, cfg: FeConfig, w: World, v: World, env: ProposalEnvelope, stage: Stage,
                       rejectedFirst: bool, now: Timestamp)
    requires IsFeTask(k) && Shadows(cfg, w, v) && env.artifact.id in w.db.artifacts
    requires stage != LinkedOnly && Admit(w.db, env.artifact.id, k.gated.Keys, k.identity).Ok? ==>
      CacheFaithful(cfg, w.gates, Harvested(k, env))
    ensures HandOff(k, cfg, v, env, stage, rejectedFirst, now).1 == HandOff(k, cfg, w, env, stage, rejectedFirst, now).1
    ensures HandOff(k, cfg, v, env, stage, rejectedFirst, now).0.db == HandOff(k, cfg, w, env, stage, rejectedFirst, now).0.db
    ensures var x, y := HandOff(k, cfg, w, env, stage, rejectedFirst, now).0.gates,
                        HandOff(k, cfg, v, env, stage, rejectedFirst, now).0.gates;
      y.runs == map[] || y.runs == x.runs
  {
    hide FeDispatch, Committed, Exhausted, Runnable, FeInv, SharedRun, CacheFaithful, RequestFor, Harvested;
    if stage != LinkedOnly && Admit(w.db, env.artifact.id, k.gated.Keys, k.identity).Ok? {
      AdmittedUnderTest(k, w.db, env.artifact.id);
      var req := RequestIn(k, w.db, env, rejectedFirst);
      assert req.objects == Harvested(k, env) by { RequestObjects(k, w.db, env, rejectedFirst); }
      SameRunSeen(cfg, w, v, req.objects);
      ReplyIsExpected(k, cfg, w, env, rejectedFirst);
      ReplyIsExpected(k, cfg, v, env, rejectedFirst);
      GatesAfter(cfg, w.gates, req);
      GatesAfter(cfg, v.gates, req);
    }
  }

  lemma RequestObjects(k: Kernel, db: Db, env: ProposalEnvelope, rejectedFirst: bool)
    requires env.artifact.id in db.artifacts
    ensures RequestIn(k, db, env, rejectedFirst).objects == Harvested(k, env)
  {
  }

  /** One step taken by both processes: same reply, same tables. */
  lemma StepShadows(k: Kernel, cfg: FeConfig, w: World, v: World, e: FeEvent)
    requires IsFeTask(k) && !e.Restart? && (!cfg.acceptAlways ==> cfg.deflation >= 0.0)
    requires Shadows(cfg, w, v) && FullInv(cfg, w) && FullInv(cfg, v)
    requires Carries(k, w.db, e) ==> CacheFaithful(cfg, w.gates, Harvested(k, e.env))
    ensures FeStep(k, cfg, v, e).1 == FeStep(k, cfg, w, e).1
    ensures Shadows(cfg, FeStep(k, cfg, w, e).0, FeStep(k, cfg, v, e).0)
    ensures FullInv(cfg, FeStep(k, cfg, w, e).0) && FullInv(cfg, FeStep(k, cfg, v, e).0)
  {
    hide FullInv, FeInv, HandOff, Approached, CacheFaithful, Harvested;
    StepKeepsInv(k, cfg, w, e);
    StepKeepsInv(k, cfg, v, e);
    FullHasParts(cfg, FeStep(k, cfg, w, e).0);
    FullHasParts(cfg, FeStep(k, cfg, v, e).0);
    if e.Offer? {
      var reached := Approached(k, w.db, e.env, e.stage, e.now);
      if reached.AtGate? {
        var w2, v2 := w.(db := reached.db), v.(db := reached.db);
        ApproachKeepsInv(k, cfg, w, e.env, e.stage, e.now);
        ApproachKeepsInv(k, cfg, v, e.env, e.stage, e.now);
        FullHasParts(cfg, w2);
        FullHasParts(cfg, v2);
        HandOffShadows(k, cfg, w2, v2, e.env, e.stage, e.rejectedFirst, e.now);
      }
    }
  }

  lemma {:induction false} RunShadows(k: Kernel, cfg: FeConfig, w: World, v: World, run: seq<FeEvent>)
    requires IsFeTask(k) && (!cfg.acceptAlways ==> cfg.deflation >= 0.0)
    requires Shadows(cfg, w, v) && FullInv(cfg, w) && FullInv(cfg, v)
    requires FaithfulRun(k, cfg, w, Unrestarted(run))
    ensures Replies(k, cfg, v, run) == Replies(k, cfg, w, Unrestarted(run))
    ensures FeRun(k, cfg, v, run).db == FeRun(k, cfg, w, Unrestarted(run)).db
    decreases |run|
  {
    hide FullInv, FeInv, FeStep, CacheFaithful;
    if run != [] {
      if run[0].Restart? {
        RestartShadows(k, cfg, w, v);
        assert Unrestarted(run) == Unrestarted(run[1..]);
        RunShadows(k, cfg, w, v.(gates := FRESH), run[1..]);
      } else {
        assert Unrestarted(run) == [run[0]] + Unrestarted(run[1..]);
        assert Unrestarted(run)[1..] == Unrestarted(run[1..]);
        StepShadows(k, cfg, w, v, run[0]);
        RunShadows(k, cfg, FeStep(k, cfg, w, run[0]).0, FeStep(k, cfg, v, run[0]).0, run[1..]);
      }
    }
  }

  lemma RestartShadows(k: Kernel, cfg: FeConfig, w: World, v: World)
    requires Shadows(cfg, w, v) && FullInv(cfg, v)
    ensures FeStep(k, cfg, v, Restart) == (v.(gates := FRESH), None)
    ensures Shadows(cfg, w, v.(gates := FRESH)) && FullInv(cfg, v.(gates := FRESH))
  {
  }

  lemma FaithfulRunsHideRestarts(k: Kernel, cfg: FeConfig, run: seq<FeEvent>)
    requires IsFeTask(k) && (!cfg.acceptAlways ==> cfg.deflation >= 0.0)
    requires FaithfulRun(k, cfg, START, Unrestarted(run))
    ensures Replies(k, cfg, START, run) == Replies(k, cfg, START, Unrestarted(run))
    ensures FeRun(k, cfg, START, run).db == FeRun(k, cfg, START, Unrestarted(run)).db
  {
    StartInv(cfg);
    RunShadows(k, cfg, START, START, run);
  }

  /** Restarts are invisible: with any runner, however many times and wherever in the run the verifier
      process is restarted, every later bundle and the final tables are those of the run without
      restarts, as long as no script comes again right after its run with another package list. */
  lemma RestartsAreInvisible(k: Kernel, cfg: FeConfig, run: seq<FeEvent>)
    requires IsFeTask(k) && (!cfg.acceptAlways ==> cfg.deflation >= 0.0)
    requires ListsAgree(Dispatches(k, cfg, START, Unrestarted(run)))
    ensures Replies(k, cfg, START, run) == Replies(k, cfg, START, Unrestarted(run))
    ensures FeRun(k, cfg, START, run).db == FeRun(k, cfg, START, Unrestarted(run)).db
  {
    NoRestartsLeft(run);
    var dispatches := Dispatches(k, cfg, START, Unrestarted(run));
    assert [] + dispatches == dispatches;
    AgreeingListsAreFaithful(k, cfg, START, Unrestarted(run), []);
    FaithfulRunsHideRestarts(k, cfg, run);
  }

  /** With a runner that reads the code alone, whatever the package lists are. */
  lemma RestartsAreInvisibleForCodeRunners(k: Kernel, cfg: FeConfig, run: seq<FeEvent>)
    requires IsFeTask(k) && (!cfg.acceptAlways ==> cfg.deflation >= 0.0) && RunnerReadsCodeOnly(cfg)
    ensures Replies(k, cfg, START, run) == Replies(k, cfg, START, Unrestarted(run))
    ensures FeRun(k, cfg, START, run).db == FeRun(k, cfg, START, Unrestarted(run)).db
  {
    CodeOnlyRunsAreFaithful(k, cfg, START, Unrestarted(run));
    FaithfulRunsHideRestarts(k, cfg, run);
  }

  // ------------------------------------------------------------------ a condition on the offers alone

  /** One script, one package list, throughout the run. */
  ghost predicate OneListPerScript(k: Kernel, run: seq<FeEvent>) {
    forall i, j | 0 <= i < |run| && 0 <= j < |run| && run[i].Offer? && run[j].Offer? ::
      SameListForScript(Harvested(k, run[i].env), Harvested(k, run[j].env))
  }

  predicate SameListForScript(a: map<string, Bytes>, b: map<string, Bytes>) {
    ENTRYPOINT in a && ENTRYPOINT in b && a[ENTRYPOINT] == b[ENTRYPOINT] ==> ListOf(a) == ListOf(b)
  }

  lemma {:induction false} DispatchesAreOffered(k: Kernel, cfg: FeConfig, w: World, run: seq<FeEvent>, objects: map<string, Bytes>)
    requires objects in Dispatches(k, cfg, w, run)
    ensures exists i :: 0 <= i < |run| && run[i].Offer? && objects == Harvested(k, run[i].env)
    decreases |run|
  {
    hide FeStep, Approached, Admit, Harvested;
    var now := Handed(k, w.db, run[0]);
    if objects !in now {
      DispatchesAreOffered(k, cfg, FeStep(k, cfg, w, run[0]).0, run[1..], objects);
      var i :| 0 <= i < |run[1..]| && run[1..][i].Offer? && objects == Harvested(k, run[1..][i].env);
      assert run[i + 1] == run[1..][i];
    }
  }

  predicate IsRunOf(objects: map<string, Bytes>, last: (Bytes, Option<Bytes>)) {
    ENTRYPOINT in objects && last == (objects[ENTRYPOINT], ListOf(objects))
  }

  lemma {:induction false} LastRunWas(dispatches: seq<map<string, Bytes>>)
    ensures LastRun(dispatches).Some? ==>
      exists objects :: objects in dispatches && IsRunOf(objects, LastRun(dispatches).value)
  {
    if dispatches != [] {
      var n := |dispatches| - 1;
      LastRunWas(dispatches[..n]);
      assert dispatches[n] in dispatches && forall o | o in dispatches[..n] :: o in dispatches;
    }
  }

  /** So restarts are invisible, with any runner, when every script comes with one package list. */
  lemma RestartsAreInvisibleForConsistentOffers(k: Kernel, cfg: FeConfig, run: seq<FeEvent>)
    requires IsFeTask(k) && (!cfg.acceptAlways ==> cfg.deflation >= 0.0)
    requires OneListPerScript(k, Unrestarted(run))
    ensures Replies(k, cfg, START, run) == Replies(k, cfg, START, Unrestarted(run))
    ensures FeRun(k, cfg, START, run).db == FeRun(k, cfg, START, Unrestarted(run)).db
  {
    hide LastRun, Dispatches, Harvested, SameListForScript;
    var offers := Unrestarted(run);
    var dispatches := Dispatches(k, cfg, START, offers);
    forall j | 0 <= j < |dispatches| ensures SameListAsLastRun(dispatches[..j], dispatches[j]) {
      LastRunWas(dispatches[..j]);
      if LastRun(dispatches[..j]).Some? {
        var objects :| objects in dispatches[..j] && IsRunOf(objects, LastRun(dispatches[..j]).value);
        assert objects in dispatches && dispatches[j] in dispatches;
        DispatchesAreOffered(k, cfg, START, offers, objects);
        DispatchesAreOffered(k, cfg, START, offers, dispatches[j]);
        assert SameListForScript(objects, dispatches[j]);
        OneListFor(objects, dispatches[j]);
      }
    }
    RestartsAreInvisible(k, cfg, run);
  }

  lemma OneListFor(a: map<string, Bytes>, b: map<string, Bytes>)
    requires SameListForScript(a, b)
    ensures ENTRYPOINT in a && ENTRYPOINT in b && a[ENTRYPOINT] == b[ENTRYPOINT] ==> ListOf(a) == ListOf(b)
  {
  }
}
