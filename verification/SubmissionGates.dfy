/** The two gates of the model-building domain over one shared, cached run of the submitted script.

    A code run is an arbitrary function from the script and its package list to a result; the
    result carries its predictions already split into rows. */
module SubmissionGates {

  import opened Contracts
  import opened Pipeline
  import opened Scoring

  const SUBMISSION := "Submission"
  const ENTRYPOINT := "submission.py"
  const REQUIREMENTS := "requirements.txt"
  const RUNS_CLEAN := "runs-clean"
  const SELECTION := "selection"
  const SCORE_AND_ACCEPT := "score-and-accept"

  datatype RunResult = RunResult(
    exitCode: int, timedOut: bool, stderr: string, output: Option<seq<(string, string)>>)

  datatype FeConfig = FeConfig(
    truth: Truth,
    margin: real,
    deflation: real,
    acceptAlways: bool,
    runner: (Bytes, Option<Bytes>) -> RunResult)

  /** What the verifier process keeps between dispatches: the most recent run, by code digest, and
      the score of every proposal it measured. */
  datatype GateState = GateState(runs: map<string, RunResult>, scores: map<Id, real>)

  const FRESH := GateState(map[], map[])

  // ------------------------------------------------------------------ reading a run

  function RowMap(rows: seq<(string, string)>): map<string, string> {
    if rows == [] then map[]
    else
      var last := rows[|rows| - 1];
      var before := RowMap(rows[..|rows| - 1]);
      if last.0 != "" then before[last.0 := last.1] else before
  }

  /** A prediction is the last row of its id; rows without an id are dropped. */
  lemma {:induction false} RowMapIs(rows: seq<(string, string)>, id: string)
    ensures id in RowMap(rows) <==> id != "" && exists i :: 0 <= i < |rows| && rows[i].0 == id
    ensures forall i | 0 <= i < |rows| && rows[i].0 == id && id != "" && (forall j | i < j < |rows| :: rows[j].0 != id) ::
      id in RowMap(rows) && RowMap(rows)[id] == rows[i].1
  {
    if rows != [] {
      var n := |rows| - 1;
      RowMapIs(rows[..n], id);
      assert forall i | 0 <= i < n :: rows[..n][i] == rows[i];
    }
  }

  /** Output without a single row that carries an id is no prediction at all. */
  lemma ParsedExactlyWhen(output: Option<seq<(string, string)>>)
    ensures ParsePredictions(output).Some? <==>
      output.Some? && exists i :: 0 <= i < |output.value| && output.value[i].0 != ""
  {
    if output.Some? {
      var rows := output.value;
      if i :| 0 <= i < |rows| && rows[i].0 != "" { RowMapIs(rows, rows[i].0); }
      if RowMap(rows) != map[] {
        var id :| id in RowMap(rows);
        RowMapIs(rows, id);
      }
    }
  }

  /** Predictions by id; none when there is no output or no row carries an id. */
  function ParsePredictions(output: Option<seq<(string, string)>>): Option<map<string, string>> {
    if output.None? || RowMap(output.value) == map[] then None else Some(RowMap(output.value))
  }

  predicate Covers(truth: Truth, preds: map<string, string>) {
    forall i | 0 <= i < |truth| :: truth[i].0 in preds
  }

  /** The measured score of a run, when it can be scored at all. */
  function Measure(cfg: FeConfig, run: Option<RunResult>): Option<real> {
    if run.None? then None
    else
      var preds := ParsePredictions(run.value.output);
      if preds.None? || !Covers(cfg.truth, preds.value) then None else Some(Score(cfg.truth, preds.value))
  }

  // ------------------------------------------------------------------ the gates on values

  function FreshRun(cfg: FeConfig, objects: map<string, Bytes>): RunResult
    requires ENTRYPOINT in objects
  {
    cfg.runner(objects[ENTRYPOINT], if REQUIREMENTS in objects then Some(objects[REQUIREMENTS]) else None)
  }

  /** One shared run: from the cache when the code was the last one run, else run anew. */
  function SharedRun(cfg: FeConfig, g: GateState, objects: map<string, Bytes>): (GateState, Option<RunResult>) {
    if ENTRYPOINT !in objects then (g, None)
    else
      var digest := Sha256(objects[ENTRYPOINT]);
      if digest in g.runs then (g, Some(g.runs[digest]))
      else
        var result := FreshRun(cfg, objects);
        (g.(runs := map[digest := result]), Some(result))
  }

  function Rejection(why: string, score: Option<real>): Answer {
    Ruled(GateVerdict(Reject, why, None, score, None))
  }

  function RunnableVerdict(cfg: FeConfig, run: Option<RunResult>): Answer {
    if run.None? then Rejection("no attachment to run", None)
    else if run.value.timedOut then Rejection("submission timed out", None)
    else if run.value.exitCode != 0 then Rejection("submission exited", None)
    else if ParsePredictions(run.value.output).None? then Rejection("no well-formed predictions", None)
    else if !Covers(cfg.truth, ParsePredictions(run.value.output).value) then Rejection("rows missing", None)
    else Ruled(GateVerdict(Accept, "runs clean", None, None, None))
  }

  function Runnable(cfg: FeConfig, g: GateState, req: VerifierRequest): (GateState, Answer) {
    var (next, run) := SharedRun(cfg, g, req.objects);
    (next, RunnableVerdict(cfg, run))
  }

  ghost function Member<T>(s: set<T>): (x: T)
    requires s != {}
    ensures x in s
  {
    var x :| x in s;
    x
  }

  lemma {:induction false} MaxExists(s: set<real>)
    requires s != {}
    ensures exists v :: v in s && forall w | w in s :: w <= v
    decreases |s|
  {
    var v := Member(s);
    var rest := s - {v};
    assert forall w | w in s :: w == v || w in rest;
    if rest == {} {
      assert v in s && forall w | w in s :: w <= v;
    } else {
      MaxExists(rest);
      var m: real :| m in rest && forall w | w in rest :: w <= m;
      var best := if m < v then v else m;
      assert best in s && forall w | w in s :: w <= best;
    }
  }

  function MaxOf(s: set<real>): (v: real)
    requires s != {}
    ensures v in s && forall w | w in s :: w <= v
  {
    MaxExists(s);
    var v :| v in s && forall w | w in s :: w <= v;
    v
  }

  /** The accepted rows of the slice with a known score, in slice order. The process's own ledger
      comes first; the durable record stands in for what the ledger does not have. */
  function Scored(slice: seq<Artifact>, ledger: map<Id, real>, recorded: map<Id, map<string, real>>): seq<(Id, real)> {
    if slice == [] then []
    else
      var n := |slice| - 1;
      var a := slice[n];
      Scored(slice[..n], ledger, recorded) +
        if a.status != Accepted then []
        else if a.id in ledger then [(a.id, ledger[a.id])]
        else if a.id in recorded && recorded[a.id].Values != {} then [(a.id, MaxOf(recorded[a.id].Values))]
        else []
  }

  /** The first pair with the greatest score. */
  function BestPair(pairs: seq<(Id, real)>): (best: (Option<Id>, real))
    ensures pairs == [] ==> best == (None, 0.0)
    ensures pairs != [] ==> best.0.Some? && (best.0.value, best.1) in pairs
    ensures forall p | p in pairs :: p.1 <= best.1
  {
    if pairs == [] then (None, 0.0)
    else
      var n := |pairs| - 1;
      var before := BestPair(pairs[..n]);
      assert pairs == pairs[..n] + [pairs[n]];
      if n == 0 || pairs[n].1 > before.1 then (Some(pairs[n].0), pairs[n].1) else before
  }

  function BestIncumbent(g: GateState, req: VerifierRequest): (Option<Id>, real) {
    BestPair(Scored(req.storeSlice, g.scores, req.scores))
  }

  function Trials(slice: seq<Artifact>): nat {
    if slice == [] then 0
    else Trials(slice[..|slice| - 1]) + if slice[|slice| - 1].status == Rejected then 1 else 0
  }

  function Bar(cfg: FeConfig, baseline: real, trials: nat): real {
    baseline + cfg.margin + cfg.deflation * trials as real
  }

  function Selection(cfg: FeConfig, g: GateState, req: VerifierRequest): (GateState, Answer) {
    var (ran, run) := SharedRun(cfg, g, req.objects);
    var measured := Measure(cfg, run);
    if measured.None? then (ran, Rejection("no scorable predictions", None))
    else
      var score := measured.value;
      var next := ran.(scores := ran.scores[req.proposal.id := score]);
      var (best, baseline) := BestIncumbent(next, req);
      if score > Bar(cfg, baseline, Trials(req.storeSlice))
      then (next, Ruled(GateVerdict(Accept, "improves", None, Some(score), best)))
      else (next, Rejection("does not improve", Some(score)))
  }

  function ScoreAndAccept(cfg: FeConfig, g: GateState, req: VerifierRequest): (GateState, Answer) {
    var (ran, run) := SharedRun(cfg, g, req.objects);
    var measured := Measure(cfg, run);
    if measured.None? then (ran, Rejection("no scorable predictions", None))
    else
      (ran.(scores := ran.scores[req.proposal.id := measured.value]),
       Ruled(GateVerdict(Accept, "score recorded", None, measured, None)))
  }

  /** The pipeline the domain declares for a submission. */
  function FePipeline(cfg: FeConfig): seq<GateStep<GateState>> {
    [GateStep(RUNS_CLEAN, (g, req) => Runnable(cfg, g, req), false),
     if cfg.acceptAlways
     then GateStep(SCORE_AND_ACCEPT, (g, req) => ScoreAndAccept(cfg, g, req), true)
     else GateStep(SELECTION, (g, req) => Selection(cfg, g, req), true)]
  }

  lemma NothingScored(ledger: map<Id, real>, recorded: map<Id, map<string, real>>)
    ensures Scored([], ledger, recorded) == [] && BestPair([]) == (None, 0.0)
  {
  }

  lemma ScoredStep(slice: seq<Artifact>, a: Artifact, ledger: map<Id, real>, recorded: map<Id, map<string, real>>)
    ensures Scored(slice + [a], ledger, recorded) ==
      if a.status == Accepted && a.id in ledger then Scored(slice, ledger, recorded) + [(a.id, ledger[a.id])]
      else if a.status == Accepted && a.id in recorded && recorded[a.id].Values != {}
      then Scored(slice, ledger, recorded) + [(a.id, MaxOf(recorded[a.id].Values))]
      else Scored(slice, ledger, recorded)
  {
    assert (slice + [a])[..|slice|] == slice;
    assert Scored(slice, ledger, recorded) + [] == Scored(slice, ledger, recorded);
  }

  lemma BestStep(pairs: seq<(Id, real)>, pair: (Id, real))
    ensures BestPair(pairs + [pair]) ==
      if pairs == [] || pair.1 > BestPair(pairs).1 then (Some(pair.0), pair.1) else BestPair(pairs)
  {
    assert (pairs + [pair])[..|pairs|] == pairs;
  }

  // ------------------------------------------------------------------ what the selection gate rules

  /** The run can be scored: its output reads as predictions that cover every reserved row. */
  ghost predicate Scorable(truth: Truth, run: Option<RunResult>, preds: map<string, string>) {
    && run.Some? && ParsePredictions(run.value.output) == Some(preds)
    && forall row | row in truth :: row.0 in preds
  }

  ghost function RejectedPlaces(slice: seq<Artifact>): set<nat> {
    set i: nat | i < |slice| && slice[i].status == Rejected
  }

  /** Row `i` of the slice is accepted and its score is known: from the ledger, or else the best one
      on record. */
  ghost predicate KnownAt(slice: seq<Artifact>, ledger: map<Id, real>, recorded: map<Id, map<string, real>>, i: nat, v: real) {
    && i < |slice| && slice[i].status == Accepted
    && if slice[i].id in ledger then v == ledger[slice[i].id]
       else
         && slice[i].id in recorded && (exists gate | gate in recorded[slice[i].id] :: recorded[slice[i].id][gate] == v)
         && forall gate | gate in recorded[slice[i].id] :: recorded[slice[i].id][gate] <= v
  }

  /** Better than every known score by more than `step`; than 0 when none is known. */
  ghost predicate BeatsKnown(slice: seq<Artifact>, ledger: map<Id, real>, recorded: map<Id, map<string, real>>, s: real, step: real) {
    && (forall i: nat, v: real | KnownAt(slice, ledger, recorded, i, v) :: s > v + step)
    && ((forall i: nat, v: real :: !KnownAt(slice, ledger, recorded, i, v)) ==> s > step)
  }

  /** Row `i` is the first with the greatest known score, `v`. */
  ghost predicate FirstBest(slice: seq<Artifact>, ledger: map<Id, real>, recorded: map<Id, map<string, real>>, i: nat, v: real) {
    && KnownAt(slice, ledger, recorded, i, v)
    && forall j: nat, w: real | KnownAt(slice, ledger, recorded, j, w) :: w <= v && (w == v ==> i <= j)
  }

  /** The first accepted row with the greatest known score, when any is known. */
  ghost predicate NamesBest(slice: seq<Artifact>, ledger: map<Id, real>, recorded: map<Id, map<string, real>>, best: Option<Id>) {
    if best.None? then forall i: nat, v: real :: !KnownAt(slice, ledger, recorded, i, v)
    else exists i: nat, v: real | i < |slice| && FirstBest(slice, ledger, recorded, i, v) :: slice[i].id == best.value
  }

  lemma {:induction false} TrialsAre(slice: seq<Artifact>)
    ensures Trials(slice) == |RejectedPlaces(slice)|
  {
    if slice != [] {
      var n := |slice| - 1;
      TrialsAre(slice[..n]);
      var before := RejectedPlaces(slice[..n]);
      assert RejectedPlaces(slice) == if slice[n].status == Rejected then before + {n} else before;
    }
  }

  lemma KnownOnce(slice: seq<Artifact>, ledger: map<Id, real>, recorded: map<Id, map<string, real>>, i: nat, v: real, w: real)
    requires KnownAt(slice, ledger, recorded, i, v) && KnownAt(slice, ledger, recorded, i, w)
    ensures v == w
  {
  }

  lemma KnownEarlier(slice: seq<Artifact>, ledger: map<Id, real>, recorded: map<Id, map<string, real>>, n: nat, i: nat, v: real)
    requires n <= |slice| && i < n
    ensures KnownAt(slice[..n], ledger, recorded, i, v) <==> KnownAt(slice, ledger, recorded, i, v)
  {
    assert slice[..n][i] == slice[i];
  }

  /** The score known of the last row, if any. */
  lemma LastKnown(slice: seq<Artifact>, ledger: map<Id, real>, recorded: map<Id, map<string, real>>)
    requires slice != []
    ensures var n := |slice| - 1;
      var before, all := Scored(slice[..n], ledger, recorded), Scored(slice, ledger, recorded);
      || (all == before && forall v :: !KnownAt(slice, ledger, recorded, n, v))
      || exists v :: KnownAt(slice, ledger, recorded, n, v) && all == before + [(slice[n].id, v)]
  {
    var n := |slice| - 1;
    var a := slice[n];
    assert Scored(slice[..n], ledger, recorded) + [] == Scored(slice[..n], ledger, recorded);
    if a.status == Accepted && a.id in ledger {
      assert KnownAt(slice, ledger, recorded, n, ledger[a.id]);
    } else if a.status == Accepted && a.id in recorded && recorded[a.id].Values != {} {
      var v := MaxOf(recorded[a.id].Values);
      assert forall gate | gate in recorded[a.id] :: recorded[a.id][gate] in recorded[a.id].Values;
      assert KnownAt(slice, ledger, recorded, n, v);
    } else if a.status == Accepted && a.id in recorded {
      assert forall gate | gate in recorded[a.id] :: recorded[a.id][gate] in recorded[a.id].Values;
    }
  }

  /** What the scan finds: the base is 0 without a known score, else the greatest one. */
  ghost predicate ScanFinds(slice: seq<Artifact>, ledger: map<Id, real>, recorded: map<Id, map<string, real>>,
                            best: Option<Id>, base: real) {
    if best.None? then base == 0.0 && forall i: nat, v: real :: !KnownAt(slice, ledger, recorded, i, v)
    else
      exists i: nat | i < |slice| && FirstBest(slice, ledger, recorded, i, base) :: slice[i].id == best.value
  }

  lemma {:induction false} ScanIs(slice: seq<Artifact>, ledger: map<Id, real>, recorded: map<Id, map<string, real>>)
    ensures Scored(slice, ledger, recorded) == [] <==> BestPair(Scored(slice, ledger, recorded)).0.None?
    ensures ScanFinds(slice, ledger, recorded,
      BestPair(Scored(slice, ledger, recorded)).0, BestPair(Scored(slice, ledger, recorded)).1)
  {
    hide KnownAt, Scored, FirstBest;
    if slice == [] {
      NothingScored(ledger, recorded);
      forall i: nat, v: real ensures !KnownAt(slice, ledger, recorded, i, v) { NothingKnown(ledger, recorded, i, v); }
    } else {
      var n := |slice| - 1;
      ScanIs(slice[..n], ledger, recorded);
      LastKnown(slice, ledger, recorded);
      hide ScanFinds, BestPair;
      var before, all := Scored(slice[..n], ledger, recorded), Scored(slice, ledger, recorded);
      var (best, base) := BestPair(before);
      if all == before && forall v: real :: !KnownAt(slice, ledger, recorded, n, v) {
        ScanSkips(slice, ledger, recorded, n, best, base);
      } else {
        var v :| KnownAt(slice, ledger, recorded, n, v) && all == before + [(slice[n].id, v)];
        BestStep(before, (slice[n].id, v));
        ScanTakes(slice, ledger, recorded, n, best, base, v);
      }
    }
  }

  lemma NothingKnown(ledger: map<Id, real>, recorded: map<Id, map<string, real>>, i: nat, v: real)
    ensures !KnownAt([], ledger, recorded, i, v)
  {
  }

  lemma KnownInRange(slice: seq<Artifact>, ledger: map<Id, real>, recorded: map<Id, map<string, real>>)
    ensures forall i: nat, v: real | KnownAt(slice, ledger, recorded, i, v) :: i < |slice|
  {
  }

  lemma KnownSplit(slice: seq<Artifact>, ledger: map<Id, real>, recorded: map<Id, map<string, real>>, n: nat)
    requires |slice| == n + 1
    ensures forall i: nat, v: real :: KnownAt(slice, ledger, recorded, i, v) <==>
      if i == n then KnownAt(slice, ledger, recorded, n, v) else KnownAt(slice[..n], ledger, recorded, i, v)
  {
    KnownInRange(slice, ledger, recorded);
    KnownInRange(slice[..n], ledger, recorded);
    hide KnownAt;
    forall i: nat, v: real | i < n ensures KnownAt(slice[..n], ledger, recorded, i, v) <==> KnownAt(slice, ledger, recorded, i, v) {
      KnownEarlier(slice, ledger, recorded, n, i, v);
    }
  }

  lemma StaysFirst(slice: seq<Artifact>, ledger: map<Id, real>, recorded: map<Id, map<string, real>>, n: nat, i: nat, base: real)
    requires |slice| == n + 1 && FirstBest(slice[..n], ledger, recorded, i, base)
    requires forall v: real | KnownAt(slice, ledger, recorded, n, v) :: v <= base
    ensures i < n && FirstBest(slice, ledger, recorded, i, base)
  {
    KnownInRange(slice[..n], ledger, recorded);
    KnownSplit(slice, ledger, recorded, n);
    hide KnownAt;
  }

  lemma TakesFirst(slice: seq<Artifact>, ledger: map<Id, real>, recorded: map<Id, map<string, real>>, n: nat, v: real)
    requires |slice| == n + 1 && KnownAt(slice, ledger, recorded, n, v)
    requires forall i: nat, w: real | KnownAt(slice[..n], ledger, recorded, i, w) :: w < v
    ensures FirstBest(slice, ledger, recorded, n, v)
  {
    KnownSplit(slice, ledger, recorded, n);
    forall w | KnownAt(slice, ledger, recorded, n, w) ensures w == v { KnownOnce(slice, ledger, recorded, n, v, w); }
    hide KnownAt;
  }

  /** The last row adds nothing. */
  lemma ScanSkips(slice: seq<Artifact>, ledger: map<Id, real>, recorded: map<Id, map<string, real>>, n: nat,
                  best: Option<Id>, base: real)
    requires |slice| == n + 1 && ScanFinds(slice[..n], ledger, recorded, best, base)
    requires forall v: real :: !KnownAt(slice, ledger, recorded, n, v)
    ensures ScanFinds(slice, ledger, recorded, best, base)
  {
    hide KnownAt, FirstBest;
    if best.None? {
      KnownSplit(slice, ledger, recorded, n);
    } else {
      var i: nat :| i < n && FirstBest(slice[..n], ledger, recorded, i, base) && slice[..n][i].id == best.value;
      StaysFirst(slice, ledger, recorded, n, i, base);
    }
  }

  /** The last row has a known score. */
  lemma ScanTakes(slice: seq<Artifact>, ledger: map<Id, real>, recorded: map<Id, map<string, real>>, n: nat,
                  best: Option<Id>, base: real, v: real)
    requires |slice| == n + 1 && ScanFinds(slice[..n], ledger, recorded, best, base)
    requires KnownAt(slice, ledger, recorded, n, v)
    ensures if best.None? || v > base then ScanFinds(slice, ledger, recorded, Some(slice[n].id), v)
      else ScanFinds(slice, ledger, recorded, best, base)
  {
    hide KnownAt;
    if best.None? {
      TakesFirst(slice, ledger, recorded, n, v);
    } else {
      var i: nat :| i < n && FirstBest(slice[..n], ledger, recorded, i, base) && slice[..n][i].id == best.value;
      forall w | KnownAt(slice, ledger, recorded, n, w) ensures w == v { KnownOnce(slice, ledger, recorded, n, v, w); }
      if v > base {
        TakesFirst(slice, ledger, recorded, n, v);
      } else {
        StaysFirst(slice, ledger, recorded, n, i, base);
      }
    }
  }

  /** What selection rules, in terms of the run and the slice: accepted exactly when the run can be
      scored and its score beats every known score by more than the margin plus the deflation for
      every rejected row; an accept then names the best row known. */
  lemma SelectionExactlyWhen(cfg: FeConfig, g: GateState, req: VerifierRequest, preds: map<string, string>)
    ensures var run := SharedRun(cfg, g, req.objects).1;
      var (next, answer) := Selection(cfg, g, req);
      && answer.Ruled? && answer.verdict.kind in {Accept, Reject}
      && ((forall p :: !Scorable(cfg.truth, run, p)) ==>
            answer.verdict.kind == Reject && answer.verdict.score.None? && next.scores == g.scores)
      && (Scorable(cfg.truth, run, preds) ==>
            var s := Score(cfg.truth, preds);
            && next.scores == g.scores[req.proposal.id := s] && answer.verdict.score == Some(s)
            && (answer.verdict.kind == Accept <==>
                  BeatsKnown(req.storeSlice, next.scores, req.scores, s,
                    cfg.margin + cfg.deflation * |RejectedPlaces(req.storeSlice)| as real))
            && (answer.verdict.kind == Accept ==>
                  NamesBest(req.storeSlice, next.scores, req.scores, answer.verdict.supersedes))
            && (answer.verdict.kind == Reject ==> answer.verdict.supersedes.None?))
  {
    hide Scored, BestPair, KnownAt, Trials, RejectedPlaces, ParsePredictions, Score;
    var (ran, run) := SharedRun(cfg, g, req.objects);
    ScoreOfRun(cfg, run, preds);
    SharedKeepsLedger(cfg, g, req.objects);
    hide SharedRun, Measure, Scorable;
    TrialsAre(req.storeSlice);
    if Measure(cfg, run).Some? {
      var ledger := ran.scores[req.proposal.id := Measure(cfg, run).value];
      ScanIs(req.storeSlice, ledger, req.scores);
      var (best, base) := BestPair(Scored(req.storeSlice, ledger, req.scores));
      BeatsExactlyWhen(req.storeSlice, ledger, req.scores, best, base, Measure(cfg, run).value,
        cfg.margin + cfg.deflation * |RejectedPlaces(req.storeSlice)| as real);
    }
  }

  /** The same as one equivalence over all predictions. */
  lemma SelectionRules(cfg: FeConfig, g: GateState, req: VerifierRequest)
    ensures var (next, answer) := Selection(cfg, g, req);
      && answer.Ruled? && answer.verdict.kind in {Accept, Reject}
      && (answer.verdict.kind == Accept <==>
            exists preds | Scorable(cfg.truth, SharedRun(cfg, g, req.objects).1, preds) ::
              BeatsKnown(req.storeSlice, next.scores, req.scores, Score(cfg.truth, preds),
                cfg.margin + cfg.deflation * |RejectedPlaces(req.storeSlice)| as real))
      && (answer.verdict.kind == Accept ==> NamesBest(req.storeSlice, next.scores, req.scores, answer.verdict.supersedes))
  {
    hide Selection, SharedRun, BeatsKnown, NamesBest, Scorable, RejectedPlaces;
    SelectionExactlyWhen(cfg, g, req, map[]);
    forall p ensures Scorable(cfg.truth, SharedRun(cfg, g, req.objects).1, p) ==>
      (var (next, answer) := Selection(cfg, g, req);
       && (answer.verdict.kind == Accept <==>
             BeatsKnown(req.storeSlice, next.scores, req.scores, Score(cfg.truth, p),
               cfg.margin + cfg.deflation * |RejectedPlaces(req.storeSlice)| as real))
       && (answer.verdict.kind == Accept ==> NamesBest(req.storeSlice, next.scores, req.scores, answer.verdict.supersedes)))
    {
      SelectionExactlyWhen(cfg, g, req, p);
    }
  }

  lemma SharedKeepsLedger(cfg: FeConfig, g: GateState, objects: map<string, Bytes>)
    ensures SharedRun(cfg, g, objects).0.scores == g.scores
  {
  }

  lemma ScoreOfRun(cfg: FeConfig, run: Option<RunResult>, preds: map<string, string>)
    ensures Scorable(cfg.truth, run, preds) ==> Measure(cfg, run) == Some(Score(cfg.truth, preds))
    ensures (forall p :: !Scorable(cfg.truth, run, p)) ==> Measure(cfg, run).None?
  {
    hide ParsePredictions, Score;
    if Measure(cfg, run).Some? {
      var p := ParsePredictions(run.value.output).value;
      forall row | row in cfg.truth ensures row.0 in p {
        var i :| 0 <= i < |cfg.truth| && cfg.truth[i] == row;
      }
      assert Scorable(cfg.truth, run, p);
    }
    if Scorable(cfg.truth, run, preds) {
      assert forall i | 0 <= i < |cfg.truth| :: cfg.truth[i] in cfg.truth;
    }
  }

  lemma BeatsExactlyWhen(slice: seq<Artifact>, ledger: map<Id, real>, recorded: map<Id, map<string, real>>,
                         best: Option<Id>, base: real, s: real, step: real)
    requires ScanFinds(slice, ledger, recorded, best, base)
    ensures BeatsKnown(slice, ledger, recorded, s, step) <==> s > base + step
    ensures NamesBest(slice, ledger, recorded, best)
  {
    hide KnownAt;
    if best.Some? {
      var i: nat :| i < |slice| && FirstBest(slice, ledger, recorded, i, base) && slice[i].id == best.value;
    }
  }

  // ------------------------------------------------------------------ the gates as they run

  class Gates {
    const cfg: FeConfig
    var runs: map<string, RunResult>
    var scores: map<Id, real>

    constructor (cfg: FeConfig)
      ensures this.cfg == cfg && State() == FRESH
    {
      this.cfg, runs, scores := cfg, map[], map[];
    }

    ghost function State(): GateState
      reads this
    {
      GateState(runs, scores)
    }

    method Run(objects: map<string, Bytes>) returns (result: Option<RunResult>)
      modifies `runs
      ensures (State(), result) == SharedRun(cfg, old(State()), objects)
    {
      if ENTRYPOINT !in objects { return None; }
      var digest := Sha256(objects[ENTRYPOINT]);
      if digest in runs { return Some(runs[digest]); }
      var ran := FreshRun(cfg, objects);
      runs := map[digest := ran];
      result := Some(ran);
    }

    method RunnableGate(req: VerifierRequest) returns (answer: Answer)
      modifies this
      ensures (State(), answer) == Runnable(cfg, old(State()), req)
      ensures answer.Ruled? && answer.verdict.kind in {Accept, Reject}
      ensures var run := SharedRun(cfg, old(State()), req.objects).1;
        answer.verdict.kind == Accept <==>
          (run.Some? && !run.value.timedOut && run.value.exitCode == 0
           && exists preds :: ParsePredictions(run.value.output) == Some(preds)
                && forall row | row in cfg.truth :: row.0 in preds)
    {
      var run := Run(req.objects);
      answer := RunnableVerdict(cfg, run);
    }

    /** The scan over the slice: the top-scoring currently accepted submission. */
    method FindBest(req: VerifierRequest) returns (best: Option<Id>, baseline: real)
      ensures (best, baseline) == BestIncumbent(State(), req)
    {
      hide Scored, BestPair;
      var slice := req.storeSlice;
      best, baseline := None, 0.0;
      NothingScored(scores, req.scores);
      for i := 0 to |slice|
        invariant (best, baseline) == BestPair(Scored(slice[..i], scores, req.scores))
        invariant best.None? <==> Scored(slice[..i], scores, req.scores) == []
      {
        assert slice[..i + 1] == slice[..i] + [slice[i]];
        ScoredStep(slice[..i], slice[i], scores, req.scores);
        var a := slice[i];
        if a.status == Accepted {
          var found: Option<real> := None;
          if a.id in scores {
            found := Some(scores[a.id]);
          } else if a.id in req.scores && req.scores[a.id].Values != {} {
            found := Some(MaxOf(req.scores[a.id].Values));
          }
          if found.Some? {
            BestStep(Scored(slice[..i], scores, req.scores), (a.id, found.value));
            if best.None? || found.value > baseline {
              best, baseline := Some(a.id), found.value;
            }
          }
        }
      }
      assert slice[..|slice|] == slice;
    }

    method SelectionGate(req: VerifierRequest) returns (answer: Answer)
      modifies this
      ensures (State(), answer) == Selection(cfg, old(State()), req)
      ensures answer.Ruled? && answer.verdict.kind in {Accept, Reject}
      ensures answer.verdict.kind == Accept <==>
        exists preds | Scorable(cfg.truth, SharedRun(cfg, old(State()), req.objects).1, preds) ::
          BeatsKnown(req.storeSlice, scores, req.scores, Score(cfg.truth, preds),
            cfg.margin + cfg.deflation * |RejectedPlaces(req.storeSlice)| as real)
      ensures answer.verdict.kind == Accept ==> NamesBest(req.storeSlice, scores, req.scores, answer.verdict.supersedes)
    {
      hide BeatsKnown, NamesBest, Scorable, RejectedPlaces, ParsePredictions, Score, Scored, BestPair;
      SelectionRules(cfg, State(), req);
      var run := Run(req.objects);
      if run.None? { return Rejection("no scorable predictions", None); }
      var preds := ParsePredictions(run.value.output);
      if preds.None? || !Covers(cfg.truth, preds.value) {
        return Rejection("no scorable predictions", None);
      }
      var score := BalancedAccuracy(cfg.truth, preds.value);
      scores := scores[req.proposal.id := score];
      var best, baseline := FindBest(req);
      var trials := 0;
      for i := 0 to |req.storeSlice|
        invariant trials == Trials(req.storeSlice[..i])
      {
        assert req.storeSlice[..i + 1][..i] == req.storeSlice[..i];
        if req.storeSlice[i].status == Rejected { trials := trials + 1; }
      }
      assert req.storeSlice[..|req.storeSlice|] == req.storeSlice;
      if score > Bar(cfg, baseline, trials) {
        answer := Ruled(GateVerdict(Accept, "improves", None, Some(score), best));
      } else {
        answer := Rejection("does not improve", Some(score));
      }
    }

    method ScoreAndAcceptGate(req: VerifierRequest) returns (answer: Answer)
      modifies this
      ensures (State(), answer) == ScoreAndAccept(cfg, old(State()), req)
    {
      var run := Run(req.objects);
      if run.None? { return Rejection("no scorable predictions", None); }
      var preds := ParsePredictions(run.value.output);
      if preds.None? || !Covers(cfg.truth, preds.value) {
        return Rejection("no scorable predictions", None);
      }
      var score := BalancedAccuracy(cfg.truth, preds.value);
      scores := scores[req.proposal.id := score];
      answer := Ruled(GateVerdict(Accept, "score recorded", None, Some(score), None));
    }
  }
}
