/** The leaderboard ladder: three cheap rungs and the one that spends a scarce submission.

    The leaderboard is reached through a port. `Feed` scripts what the port will answer, a failure
    being `None` (and the end of the script a failure as well); `calls` logs what was asked of it. */
module KaggleLadder {

  import opened Contracts
  import opened Ordering
  import opened Pipeline
  import opened Scoring
  import opened SubmissionGates
  import opened Leaderboard

  const PROXY := "proxy-improves"
  const COMPETITIVE := "competitive"
  const KAGGLE := "kaggle"

  datatype Role = OnHoldout | OnRealTest

  datatype LadderConfig = LadderConfig(
    truth: Truth,
    fraction: real,
    margin: real,
    minPoints: int,
    pessimism: real,
    deadline: real,
    interval: real,
    runner: (Bytes, Option<Bytes>, Role) -> RunResult)

  datatype Feed = Feed(budgets: seq<Option<int>>, boards: seq<Option<seq<real>>>, publics: seq<Option<real>>)

  datatype Call =
    | BoardRead(scores: seq<real>)
    | BudgetRead(left: int)
    | Submitted(output: seq<(string, string)>)

  /** The verifier process and the port it talks through. */
  datatype LadderState = LadderState(
    runs: map<string, RunResult>,
    proxies: map<Id, real>,
    reals: map<Id, real>,
    feed: Feed,
    calls: seq<Call>)

  function Unavailable(why: string): Answer {
    Raised(Exception("GateUnavailable", why))
  }

  // ------------------------------------------------------------------ runs

  function CacheKey(code: Bytes, role: Role): string {
    Sha256(code) + if role == OnHoldout then ":proxy" else ":kaggle"
  }

  function RoleRun(cfg: LadderConfig, code: Bytes, objects: map<string, Bytes>, role: Role): RunResult {
    cfg.runner(code, if REQUIREMENTS in objects then Some(objects[REQUIREMENTS]) else None, role)
  }

  /** The script run in one role, from the cache when there is an entry. */
  function RunAs(cfg: LadderConfig, s: LadderState, objects: map<string, Bytes>, role: Role)
    : (LadderState, Option<RunResult>)
  {
    if ENTRYPOINT !in objects then (s, None)
    else
      var key := CacheKey(objects[ENTRYPOINT], role);
      if key in s.runs then (s, Some(s.runs[key]))
      else
        var result := RoleRun(cfg, objects[ENTRYPOINT], objects, role);
        (s.(runs := s.runs[key := result]), Some(result))
  }

  /** The hold-out score of a run, if it left predictions. */
  function ProxyOf(cfg: LadderConfig, run: Option<RunResult>): Option<real> {
    if run.None? || ParsePredictions(run.value.output).None? then None
    else Some(Score(cfg.truth, ParsePredictions(run.value.output).value))
  }

  // ------------------------------------------------------------------ incumbents

  /** The accepted rows of the slice with a score of this gate: the process's ledger first, the
      durable record for what the ledger does not have. */
  function ScoredBy(slice: seq<Artifact>, ledger: map<Id, real>, recorded: map<Id, map<string, real>>, gate: string)
    : seq<(Id, real)>
  {
    if slice == [] then []
    else
      var n := |slice| - 1;
      var a := slice[n];
      ScoredBy(slice[..n], ledger, recorded, gate) +
        if a.status != Accepted then []
        else if a.id in ledger then [(a.id, ledger[a.id])]
        else if a.id in recorded && gate in recorded[a.id] then [(a.id, recorded[a.id][gate])]
        else []
  }

  function BestBy(ledger: map<Id, real>, req: VerifierRequest, gate: string): (Option<Id>, real) {
    BestPair(ScoredBy(req.storeSlice, ledger, req.scores, gate))
  }

  /** Of the record, what one gate recorded. */
  ghost function OnlyGate(recorded: map<Id, map<string, real>>, gate: string): map<Id, map<string, real>> {
    map id | id in recorded && gate in recorded[id] :: map[gate := recorded[id][gate]]
  }

  /** The best incumbent under a gate is the first accepted row of the slice with the greatest score known
      of it, from the ledger or else from what this gate put on record; 0 and nobody without any. */
  lemma BestByIs(ledger: map<Id, real>, req: VerifierRequest, gate: string)
    ensures ScanFinds(req.storeSlice, ledger, OnlyGate(req.scores, gate),
      BestBy(ledger, req, gate).0, BestBy(ledger, req, gate).1)
  {
    ScoredByIs(req.storeSlice, ledger, req.scores, gate);
    ScanIs(req.storeSlice, ledger, OnlyGate(req.scores, gate));
  }

  lemma {:induction false} ScoredByIs(slice: seq<Artifact>, ledger: map<Id, real>, recorded: map<Id, map<string, real>>, gate: string)
    ensures ScoredBy(slice, ledger, recorded, gate) == Scored(slice, ledger, OnlyGate(recorded, gate))
  {
    if slice != [] {
      var n := |slice| - 1;
      ScoredByIs(slice[..n], ledger, recorded, gate);
      OneGate(recorded, gate, slice[n].id);
    }
  }

  lemma OneGate(recorded: map<Id, map<string, real>>, gate: string, id: Id)
    ensures id in OnlyGate(recorded, gate) <==> id in recorded && gate in recorded[id]
    ensures id in OnlyGate(recorded, gate) ==>
      OnlyGate(recorded, gate)[id].Values != {} && MaxOf(OnlyGate(recorded, gate)[id].Values) == recorded[id][gate]
  {
    if id in recorded && gate in recorded[id] {
      var v := recorded[id][gate];
      assert gate in map[gate := v];
      assert map[gate := v].Values == {v};
    }
  }

  // ------------------------------------------------------------------ calibration

  function Offsets(proxies: map<Id, real>, reals: map<Id, real>, ids: seq<Id>): real
    requires forall id | id in ids :: id in proxies && id in reals
  {
    if ids == [] then 0.0
    else
      assert ids[|ids| - 1] in ids;
      Offsets(proxies, reals, ids[..|ids| - 1]) + (reals[ids[|ids| - 1]] - proxies[ids[|ids| - 1]])
  }

  function Measured(proxies: map<Id, real>, reals: map<Id, real>): seq<Id> {
    Ordered(map id | id in reals && id in proxies :: "", reals.Keys * proxies.Keys)
  }

  function Clamp(x: real): real {
    var low := if x < 1.0 then x else 1.0;
    if low > 0.0 then low else 0.0
  }

  /** The expected public score of a hold-out score; `None` is the division by zero of a calibration
      that asks for no points and has none. */
  function Estimate(cfg: LadderConfig, proxies: map<Id, real>, reals: map<Id, real>, proxy: real): Option<real> {
    var ids := Measured(proxies, reals);
    if |ids| < cfg.minPoints then Some(Clamp(proxy - cfg.pessimism))
    else if ids == [] then None
    else Some(Clamp(proxy + Offsets(proxies, reals, ids) / |ids| as real))
  }

  /** `v` is `x` brought into the range of a score. */
  ghost predicate IsClipped(x: real, v: real) {
    0.0 <= v <= 1.0 && (0.0 <= x <= 1.0 ==> v == x) && (x < 0.0 ==> v == 0.0) && (x > 1.0 ==> v == 1.0)
  }

  /** The estimate, for any listing of the submissions measured on both sides: with fewer than asked for
      the proxy less the pessimism, else the proxy plus the mean of public less hold-out score. */
  lemma EstimateIs(cfg: LadderConfig, proxies: map<Id, real>, reals: map<Id, real>, proxy: real, ids: seq<Id>)
    requires Distinct(ids) && forall id :: id in ids <==> id in proxies && id in reals
    ensures var estimate := Estimate(cfg, proxies, reals, proxy);
      if |ids| < cfg.minPoints then estimate.Some? && IsClipped(proxy - cfg.pessimism, estimate.value)
      else if ids == [] then estimate.None?
      else estimate.Some? && IsClipped(proxy + Offsets(proxies, reals, ids) / |ids| as real, estimate.value)
  {
    hide Offsets;
    var measured := Measured(proxies, reals);
    OrderedSorted(map id | id in reals && id in proxies :: "", reals.Keys * proxies.Keys);
    SameListing(ids, measured);
    OffsetsAnyOrder(proxies, reals, ids, measured);
    assert |multiset(ids)| == |ids| && |multiset(measured)| == |measured|;
  }

  /** The sum it takes the mean of: of nothing it is 0, and one pair more adds what the public score
      exceeds the hold-out score by. */
  lemma OffsetsAre(proxies: map<Id, real>, reals: map<Id, real>, ids: seq<Id>, id: Id)
    requires forall x | x in ids + [id] :: x in proxies && x in reals
    ensures Offsets(proxies, reals, []) == 0.0
    ensures id in ids + [id] && forall x | x in ids :: x in ids + [id]
    ensures Offsets(proxies, reals, ids + [id]) == Offsets(proxies, reals, ids) + (reals[id] - proxies[id])
  {
    assert (ids + [id])[|ids|] == id && (ids + [id])[..|ids|] == ids;
  }

  lemma SameListing(a: seq<Id>, b: seq<Id>)
    requires Distinct(a) && Distinct(b) && forall x :: x in a <==> x in b
    ensures multiset(a) == multiset(b)
  {
    forall x ensures multiset(a)[x] == multiset(b)[x] {
      CountedOnce(a, x);
      CountedOnce(b, x);
    }
  }

  lemma {:induction false} CountedOnce(a: seq<Id>, x: Id)
    requires Distinct(a)
    ensures multiset(a)[x] == if x in a then 1 else 0
  {
    if a != [] {
      var n := |a| - 1;
      CountedOnce(a[..n], x);
      assert a == a[..n] + [a[n]];
      assert forall i | 0 <= i < n :: a[..n][i] != a[n];
    }
  }

  /** The order in which the ledgers list the pairs does not matter. */
  lemma {:induction false} OffsetsAnyOrder(proxies: map<Id, real>, reals: map<Id, real>, a: seq<Id>, b: seq<Id>)
    requires multiset(a) == multiset(b)
    requires forall id | id in a :: id in proxies && id in reals
    requires forall id | id in b :: id in proxies && id in reals
    ensures Offsets(proxies, reals, a) == Offsets(proxies, reals, b)
    decreases |a|
  {
    if a == [] {
      assert |multiset(b)| == 0;
    } else {
      var n := |a| - 1;
      assert a == a[..n] + [a[n]];
      assert a[n] in multiset(b);
      var j :| 0 <= j < |b| && b[j] == a[n];
      var without := b[..j] + b[j + 1..];
      Without(a, b, j);
      OffsetsAnyOrder(proxies, reals, a[..n], without);
      OffsetsPull(proxies, reals, b[..j], b[j], b[j + 1..]);
    }
  }

  lemma Without(a: seq<Id>, b: seq<Id>, j: nat)
    requires a != [] && multiset(a) == multiset(b) && j < |b| && b[j] == a[|a| - 1]
    ensures multiset(a[..|a| - 1]) == multiset(b[..j] + b[j + 1..])
    ensures b == b[..j] + [b[j]] + b[j + 1..]
  {
    assert a == a[..|a| - 1] + [a[|a| - 1]];
    assert b == b[..j] + [b[j]] + b[j + 1..];
    var rest := b[..j] + b[j + 1..];
    assert multiset(a) == multiset(a[..|a| - 1]) + multiset{b[j]};
    assert multiset(b) == multiset(b[..j]) + multiset{b[j]} + multiset(b[j + 1..]);
    assert multiset(rest) == multiset(b[..j]) + multiset(b[j + 1..]);
    assert multiset(a[..|a| - 1]) == multiset(a) - multiset{b[j]};
    assert multiset(rest) == multiset(b) - multiset{b[j]};
  }

  lemma {:induction false} OffsetsPull(proxies: map<Id, real>, reals: map<Id, real>, a: seq<Id>, x: Id, b: seq<Id>)
    requires forall id | id in a + [x] + b :: id in proxies && id in reals
    ensures forall id | id in a + b :: id in a + [x] + b
    ensures x in a + [x] + b
    ensures Offsets(proxies, reals, a + [x] + b) == Offsets(proxies, reals, a + b) + (reals[x] - proxies[x])
  {
    assert x in a + [x] + b;
    if b == [] {
      assert a + [x] + b == a + [x] && a + b == a;
      assert (a + [x])[..|a|] == a;
    } else {
      var n := |b| - 1;
      assert (a + [x] + b)[..|a| + 1 + n] == a + [x] + b[..n];
      assert (a + b)[..|a| + n] == a + b[..n];
      assert forall id | id in a + [x] + b[..n] :: id in a + [x] + b;
      OffsetsPull(proxies, reals, a, x, b[..n]);
    }
  }

  // ------------------------------------------------------------------ the rungs on values

  function RunsCleanVerdict(cfg: LadderConfig, run: Option<RunResult>): Answer {
    if run.None? then Rejection("no attachment to run", None)
    else if run.value.timedOut then Rejection("submission timed out", None)
    else if run.value.exitCode != 0 then Rejection("submission exited", None)
    else if ParsePredictions(run.value.output).None? then Rejection("no well-formed predictions", None)
    else if !Covers(cfg.truth, ParsePredictions(run.value.output).value) then Rejection("rows missing", None)
    else Ruled(GateVerdict(Accept, "runs clean", None, None, None))
  }

  function RunsClean(cfg: LadderConfig, s: LadderState, req: VerifierRequest): (LadderState, Answer) {
    var (next, run) := RunAs(cfg, s, req.objects, OnHoldout);
    (next, RunsCleanVerdict(cfg, run))
  }

  function ProxyImproves(cfg: LadderConfig, s: LadderState, req: VerifierRequest): (LadderState, Answer) {
    var (ran, run) := RunAs(cfg, s, req.objects, OnHoldout);
    var proxy := ProxyOf(cfg, run);
    if proxy.None? then (ran, Rejection("no scorable predictions", None))
    else
      var next := ran.(proxies := ran.proxies[req.proposal.id := proxy.value]);
      if proxy.value <= BestBy(next.proxies, req, PROXY).1 + cfg.margin
      then (next, Rejection("no local improvement", proxy))
      else (next, Ruled(GateVerdict(Accept, "local improvement", None, proxy, None)))
  }

  function ReadBoard(s: LadderState): (LadderState, Option<seq<real>>) {
    if s.feed.boards == [] then (s, None)
    else
      var after := s.(feed := s.feed.(boards := s.feed.boards[1..]));
      if s.feed.boards[0].None? then (after, None)
      else (after.(calls := s.calls + [BoardRead(s.feed.boards[0].value)]), s.feed.boards[0])
  }

  /** The bar against one leaderboard. */
  function BarVerdict(cfg: LadderConfig, s: LadderState, proxy: real, scores: seq<real>): Answer {
    var target := TopFractionThreshold(scores, cfg.fraction);
    if target.None? then Ruled(GateVerdict(Accept, "leaderboard unavailable", None, None, None))
    else
      var estimate := Estimate(cfg, s.proxies, s.reals, proxy);
      if estimate.None? then Raised(Exception("ZeroDivisionError", "division by zero"))
      else if estimate.value < target.value
      then Ruled(GateVerdict(Refine, "below the bar", Some(["below the bar"]), estimate, None))
      else Ruled(GateVerdict(Accept, "clears the bar", None, estimate, None))
  }

  /** The proposal's hold-out score, measured anew if no earlier rung left it. */
  function KnownProxy(cfg: LadderConfig, s: LadderState, req: VerifierRequest): (LadderState, Option<real>) {
    if req.proposal.id in s.proxies then (s, Some(s.proxies[req.proposal.id]))
    else
      var (ran, run) := RunAs(cfg, s, req.objects, OnHoldout);
      var proxy := ProxyOf(cfg, run);
      if proxy.None? then (ran, None)
      else (ran.(proxies := ran.proxies[req.proposal.id := proxy.value]), proxy)
  }

  function Competitive(cfg: LadderConfig, s: LadderState, req: VerifierRequest): (LadderState, Answer) {
    var (known, proxy) := KnownProxy(cfg, s, req);
    if proxy.None? then (known, Rejection("no scorable predictions", None))
    else
      var (next, board) := ReadBoard(known);
      if board.None? then (next, Unavailable("leaderboard not readable"))
      else (next, BarVerdict(cfg, next, proxy.value, board.value))
  }

  /** Polls the budget until it is positive; false is a raise (deadline, or the port failed). */
  function AwaitBudget(cfg: LadderConfig, s: LadderState, waited: real): (LadderState, bool)
    decreases |s.feed.budgets|
  {
    if s.feed.budgets == [] then (s, false)
    else
      var polled := s.(feed := s.feed.(budgets := s.feed.budgets[1..]));
      if s.feed.budgets[0].None? then (polled, false)
      else
        var left := s.feed.budgets[0].value;
        var next := polled.(calls := s.calls + [BudgetRead(left)]);
        if left > 0 then (next, true)
        else if waited >= cfg.deadline then (next, false)
        else AwaitBudget(cfg, next, waited + cfg.interval)
  }

  function SubmitAndScore(s: LadderState, output: seq<(string, string)>): (LadderState, Option<real>) {
    var sent := s.(calls := s.calls + [Submitted(output)]);
    if s.feed.publics == [] then (sent, None)
    else (sent.(feed := s.feed.(publics := s.feed.publics[1..])), s.feed.publics[0])
  }

  predicate Regenerated(run: RunResult) {
    !run.timedOut && run.exitCode == 0 && ParsePredictions(run.output).Some?
  }

  function Kaggle(cfg: LadderConfig, s: LadderState, req: VerifierRequest): (LadderState, Answer) {
    var (ran, run) := RunAs(cfg, s, req.objects, OnRealTest);
    if run.None? then (ran, Rejection("no attachment to submit", None))
    else if !Regenerated(run.value) then (ran, Rejection("no valid file on the real test", None))
    else
      var (free, ok) := AwaitBudget(cfg, ran, 0.0);
      if !ok then (free, Unavailable("no submission budget"))
      else
        var (sent, public) := SubmitAndScore(free, run.value.output.value);
        if public.None? then (sent, Unavailable("submission not scored"))
        else
          var next := sent.(reals := sent.reals[req.proposal.id := public.value]);
          var (best, bestReal) := BestBy(next.reals, req, KAGGLE);
          if public.value > bestReal
          then (next, Ruled(GateVerdict(Accept, "improves on the leaderboard", None, public, best)))
          else (next, Rejection("no leaderboard improvement", public))
  }

  function LadderSteps(cfg: LadderConfig): seq<GateStep<LadderState>> {
    [GateStep(RUNS_CLEAN, (s, req) => RunsClean(cfg, s, req), false),
     GateStep(PROXY, (s, req) => ProxyImproves(cfg, s, req), false),
     GateStep(COMPETITIVE, (s, req) => Competitive(cfg, s, req), false),
     GateStep(KAGGLE, (s, req) => Kaggle(cfg, s, req), true)]
  }

  // ------------------------------------------------------------------ the rungs as they run

  class LadderGates {
    const cfg: LadderConfig
    var runs: map<string, RunResult>
    var proxies: map<Id, real>
    var reals: map<Id, real>
    var feed: Feed
    var calls: seq<Call>

    constructor (cfg: LadderConfig, feed: Feed)
      ensures this.cfg == cfg && State() == LadderState(map[], map[], map[], feed, [])
    {
      this.cfg, this.feed := cfg, feed;
      runs, proxies, reals, calls := map[], map[], map[], [];
    }

    ghost function State(): LadderState
      reads this
    {
      LadderState(runs, proxies, reals, feed, calls)
    }

    method Run(objects: map<string, Bytes>, role: Role) returns (result: Option<RunResult>)
      modifies `runs
      ensures (State(), result) == RunAs(cfg, old(State()), objects, role)
    {
      if ENTRYPOINT !in objects { return None; }
      var key := CacheKey(objects[ENTRYPOINT], role);
      if key in runs { return Some(runs[key]); }
      var ran := RoleRun(cfg, objects[ENTRYPOINT], objects, role);
      runs := runs[key := ran];
      result := Some(ran);
    }

    /** The scan over the slice for the best accepted incumbent under one gate's score. */
    method Best(ledger: map<Id, real>, req: VerifierRequest, gate: string) returns (best: Option<Id>, score: real)
      ensures (best, score) == BestBy(ledger, req, gate)
    {
      var slice := req.storeSlice;
      var scored: seq<(Id, real)> := [];
      for i := 0 to |slice|
        invariant scored == ScoredBy(slice[..i], ledger, req.scores, gate)
      {
        assert slice[..i + 1][..i] == slice[..i];
        var a := slice[i];
        if a.status == Accepted {
          if a.id in ledger {
            scored := scored + [(a.id, ledger[a.id])];
          } else if a.id in req.scores && gate in req.scores[a.id] {
            scored := scored + [(a.id, req.scores[a.id][gate])];
          }
        }
      }
      assert slice[..|slice|] == slice;
      var pair := BestPair(scored);
      best, score := pair.0, pair.1;
    }

    method RunsCleanGate(req: VerifierRequest) returns (answer: Answer)
      modifies this
      ensures (State(), answer) == RunsClean(cfg, old(State()), req)
      ensures answer.Ruled? && answer.verdict.kind in {Accept, Reject}
      ensures var run := RunAs(cfg, old(State()), req.objects, OnHoldout).1;
        answer.verdict.kind == Accept <==>
          (run.Some? && !run.value.timedOut && run.value.exitCode == 0
           && exists preds :: ParsePredictions(run.value.output) == Some(preds)
                && forall row | row in cfg.truth :: row.0 in preds)
    {
      var run := Run(req.objects, OnHoldout);
      answer := RunsCleanVerdict(cfg, run);
    }

    method ProxyGate(req: VerifierRequest) returns (answer: Answer)
      modifies this
      ensures (State(), answer) == ProxyImproves(cfg, old(State()), req)
    {
      var run := Run(req.objects, OnHoldout);
      if run.None? || ParsePredictions(run.value.output).None? {
        return Rejection("no scorable predictions", None);
      }
      var net := BalancedAccuracy(cfg.truth, ParsePredictions(run.value.output).value);
      proxies := proxies[req.proposal.id := net];
      var _, best := Best(proxies, req, PROXY);
      if net <= best + cfg.margin {
        answer := Rejection("no local improvement", Some(net));
      } else {
        answer := Ruled(GateVerdict(Accept, "local improvement", None, Some(net), None));
      }
    }

    /** The calibrated estimate, pair by pair over the ledgers. */
    method CalibratedEstimate(proxy: real) returns (estimate: Option<real>)
      ensures estimate == Estimate(cfg, proxies, reals, proxy)
    {
      var ids := Measured(proxies, reals);
      if |ids| < cfg.minPoints { return Some(Clamp(proxy - cfg.pessimism)); }
      if ids == [] { return None; }
      var sum := 0.0;
      for i := 0 to |ids|
        invariant forall id | id in ids[..i] :: id in ids
        invariant sum == Offsets(proxies, reals, ids[..i])
      {
        assert ids[..i + 1][..i] == ids[..i] && ids[i] in ids;
        sum := sum + (reals[ids[i]] - proxies[ids[i]]);
      }
      assert ids[..|ids|] == ids;
      estimate := Some(Clamp(proxy + sum / |ids| as real));
    }

    method CompetitiveGate(req: VerifierRequest) returns (answer: Answer)
      modifies this
      ensures (State(), answer) == Competitive(cfg, old(State()), req)
    {
      hide Score, Estimate, TopFractionThreshold;
      if req.proposal.id !in proxies {
        var run := Run(req.objects, OnHoldout);
        if run.None? || ParsePredictions(run.value.output).None? {
          return Rejection("no scorable predictions", None);
        }
        var measured := BalancedAccuracy(cfg.truth, ParsePredictions(run.value.output).value);
        proxies := proxies[req.proposal.id := measured];
      }
      var proxy := proxies[req.proposal.id];
      if feed.boards == [] { return Unavailable("leaderboard not readable"); }
      var board := feed.boards[0];
      feed := feed.(boards := feed.boards[1..]);
      if board.None? { return Unavailable("leaderboard not readable"); }
      calls := calls + [BoardRead(board.value)];
      var target := TopFractionThreshold(board.value, cfg.fraction);
      if target.None? { return Ruled(GateVerdict(Accept, "leaderboard unavailable", None, None, None)); }
      var estimate := CalibratedEstimate(proxy);
      if estimate.None? { return Raised(Exception("ZeroDivisionError", "division by zero")); }
      if estimate.value < target.value {
        answer := Ruled(GateVerdict(Refine, "below the bar", Some(["below the bar"]), estimate, None));
      } else {
        answer := Ruled(GateVerdict(Accept, "clears the bar", None, estimate, None));
      }
    }

    /** The polling loop. */
    method Await() returns (ok: bool)
      modifies `feed, `calls
      ensures (State(), ok) == AwaitBudget(cfg, old(State()), 0.0)
    {
      var waited := 0.0;
      while true
        invariant AwaitBudget(cfg, State(), waited) == AwaitBudget(cfg, old(State()), 0.0)
        decreases |feed.budgets|
      {
        if feed.budgets == [] { return false; }
        var reading := feed.budgets[0];
        feed := feed.(budgets := feed.budgets[1..]);
        if reading.None? { return false; }
        calls := calls + [BudgetRead(reading.value)];
        if reading.value > 0 { return true; }
        if waited >= cfg.deadline { return false; }
        waited := waited + cfg.interval;
      }
    }

    method KaggleGate(req: VerifierRequest) returns (answer: Answer)
      modifies this
      ensures (State(), answer) == Kaggle(cfg, old(State()), req)
    {
      var run := Run(req.objects, OnRealTest);
      if run.None? { return Rejection("no attachment to submit", None); }
      if run.value.timedOut || run.value.exitCode != 0 || ParsePredictions(run.value.output).None? {
        return Rejection("no valid file on the real test", None);
      }
      var ok := Await();
      if !ok { return Unavailable("no submission budget"); }
      calls := calls + [Submitted(run.value.output.value)];
      if feed.publics == [] { return Unavailable("submission not scored"); }
      var public := feed.publics[0];
      feed := feed.(publics := feed.publics[1..]);
      if public.None? { return Unavailable("submission not scored"); }
      reals := reals[req.proposal.id := public.value];
      var best, bestReal := Best(reals, req, KAGGLE);
      if public.value > bestReal {
        answer := Ruled(GateVerdict(Accept, "improves on the leaderboard", None, public, best));
      } else {
        answer := Rejection("no leaderboard improvement", public);
      }
    }
  }
}
