/** The opaque verifier: an ordered pipeline of cheap and hard checks that comes back as one bundle.

    A check may keep state of its own (a run cache, a score ledger), so a plugin is a function from
    that state and the request to the next state and an answer. */
module Pipeline {

  import opened Contracts
  import opened Lifecycle
  import Commit

  /** What calling one check comes back with: a ruling, `None` (left to a human), or a raise. */
  datatype Answer = Ruled(verdict: GateVerdict) | Deferred | Raised(exc: Exception)

  datatype GateStep<!S> = GateStep(
    gate: string,
    plugin: (S, VerifierRequest) -> (S, Answer),
    isHard: bool)

  function DecisionOf(gate: string, v: GateVerdict): GateDecision {
    GateDecision(gate, v.kind, v.rationale, v.defects, v.score)
  }

  function Cheap<S>(steps: seq<GateStep<S>>): (r: seq<GateStep<S>>)
    ensures forall s | s in r :: !s.isHard
  {
    if steps == [] then []
    else (if steps[0].isHard then [] else [steps[0]]) + Cheap(steps[1..])
  }

  function Hard<S>(steps: seq<GateStep<S>>): (r: seq<GateStep<S>>)
    ensures forall s | s in r :: s.isHard
  {
    if steps == [] then []
    else (if steps[0].isHard then [steps[0]] else []) + Hard(steps[1..])
  }

  /** Running totals of one pipeline run. */
  datatype Tally = Tally(decisions: seq<GateDecision>, superseded: set<Id>, ruled: nat)

  /** A stage either ends the run with a reply or hands its totals on. */
  datatype Flow = Stop(reply: Reply) | Go(tally: Tally)

  function Counted<S>(t: Tally, step: GateStep<S>, v: GateVerdict): Tally {
    Tally(
      t.decisions + [DecisionOf(step.gate, v)],
      if step.isHard && v.supersedes.Some? then t.superseded + {v.supersedes.value} else t.superseded,
      t.ruled + 1)
  }

  function RunStage<S>(stage: seq<GateStep<S>>, s: S, req: VerifierRequest, t: Tally): (S, Flow) {
    if stage == [] then (s, Go(t))
    else
      var (next, answer) := stage[0].plugin(s, req);
      match answer
      case Raised(exc) => (next, Stop(Raises(exc)))
      case Deferred => RunStage(stage[1..], next, req, t)
      case Ruled(v) =>
        var decisions := t.decisions + [DecisionOf(stage[0].gate, v)];
        match v.kind
        case Reject => (next, Stop(Verdict(VerdictBundle(Rejected, decisions, None))))
        case Refine => (next, Stop(Verdict(VerdictBundle(Revised, decisions, None))))
        case Accept => RunStage(stage[1..], next, req, Counted(t, stage[0], v))
  }

  lemma AtMostOne<T>(s: set<T>, a: T, b: T)
    requires |s| <= 1 && a in s && b in s
    ensures a == b
  {
    assert |s - {a}| == |s| - 1;
    assert s - {a} == {};
  }

  const AMBIGUOUS := Exception("VerifierError", "more than one incumbent to supersede")

  function Conclude(t: Tally, hard: nat): Reply {
    if t.ruled < hard then Verdict(VerdictBundle(Tentative, t.decisions, None))
    else if |t.superseded| > 1 then Raises(AMBIGUOUS)
    else if t.superseded == {} then Verdict(VerdictBundle(Accepted, t.decisions, None))
    else
      assert forall a, b | a in t.superseded && b in t.superseded :: a == b by {
        forall a, b | a in t.superseded && b in t.superseded ensures a == b {
          AtMostOne(t.superseded, a, b);
        }
      }
      var one :| one in t.superseded;
      Verdict(VerdictBundle(Accepted, t.decisions, Some(one)))
  }

  /** The reply of a whole pipeline, and the state its checks leave behind. */
  function RunPipeline<S>(steps: seq<GateStep<S>>, s: S, req: VerifierRequest): (S, Reply) {
    var (s1, cheap) := RunStage(Cheap(steps), s, req, Tally([], {}, 0));
    if cheap.Stop? then (s1, cheap.reply)
    else
      var (s2, hard) := RunStage(Hard(steps), s1, req, cheap.tally.(ruled := 0));
      if hard.Stop? then (s2, hard.reply)
      else (s2, Conclude(hard.tally, |Hard(steps)|))
  }

  const NO_PIPELINE := Exception("VerifierError", "no pipeline for this type")

  /** What a verifier with these pipelines answers, and the state it is left in. */
  function Dispatched<S>(pipelines: map<string, seq<GateStep<S>>>, s: S, req: VerifierRequest): (S, Reply) {
    if req.proposal.atype in pipelines then RunPipeline(pipelines[req.proposal.atype], s, req)
    else (s, Raises(NO_PIPELINE))
  }

  predicate HasHard<S>(steps: seq<GateStep<S>>) {
    exists i :: 0 <= i < |steps| && steps[i].isHard
  }

  class SdkVerifier<S> {
    const identity: string
    const pipelines: map<string, seq<GateStep<S>>>
    var state: S
    var requests: seq<VerifierRequest>

    /** No silent accept: every pipeline declares a hard check. */
    ghost predicate Valid() {
      forall t | t in pipelines :: HasHard(pipelines[t])
    }

    constructor Trusted(identity: string, pipelines: map<string, seq<GateStep<S>>>, state: S)
      requires forall t | t in pipelines :: HasHard(pipelines[t])
      ensures Valid() && this.identity == identity && this.pipelines == pipelines
      ensures this.state == state && requests == []
    {
      this.identity, this.pipelines, this.state, requests := identity, pipelines, state, [];
    }

    /** One stage, check by check. */
    method Stage(stage: seq<GateStep<S>>, req: VerifierRequest, t: Tally) returns (flow: Flow)
      modifies `state
      ensures (state, flow) == RunStage(stage, old(state), req, t)
    {
      var tally := t;
      for i := 0 to |stage|
        invariant RunStage(stage[i..], state, req, tally) == RunStage(stage, old(state), req, t)
      {
        assert stage[i..][0] == stage[i] && stage[i..][1..] == stage[i + 1..];
        var (next, answer) := stage[i].plugin(state, req);
        state := next;
        match answer {
          case Raised(exc) =>
            return Stop(Raises(exc));
          case Deferred =>
          case Ruled(v) =>
            if v.kind == Reject {
              return Stop(Verdict(VerdictBundle(Rejected, tally.decisions + [DecisionOf(stage[i].gate, v)], None)));
            }
            if v.kind == Refine {
              return Stop(Verdict(VerdictBundle(Revised, tally.decisions + [DecisionOf(stage[i].gate, v)], None)));
            }
            tally := Counted(tally, stage[i], v);
        }
      }
      flow := Go(tally);
    }

    /** The only path to a verdict. */
    method Dispatch(req: VerifierRequest) returns (reply: Reply)
      modifies this
      ensures requests == old(requests) + [req]
      ensures (state, reply) == Dispatched(pipelines, old(state), req)
    {
      requests := requests + [req];
      if req.proposal.atype !in pipelines {
        return Raises(NO_PIPELINE);
      }
      var steps := pipelines[req.proposal.atype];
      var flow := Stage(Cheap(steps), req, Tally([], {}, 0));
      if flow.Stop? { return flow.reply; }
      flow := Stage(Hard(steps), req, flow.tally.(ruled := 0));
      if flow.Stop? { return flow.reply; }
      reply := Conclude(flow.tally, |Hard(steps)|);
    }
  }

  /** Building a verifier: a pipeline without a hard check is refused, exactly. */
  method CreateVerifier<S>(identity: string, pipelines: map<string, seq<GateStep<S>>>, state: S)
    returns (v: Result<SdkVerifier<S>, Exception>)
    ensures v.Ok? <==> forall t | t in pipelines :: HasHard(pipelines[t])
    ensures v.Ok? ==> fresh(v.value) && v.value.Valid() && v.value.state == state
    ensures v.Ok? ==> v.value.pipelines == pipelines && v.value.identity == identity
  {
    if forall t | t in pipelines :: HasHard(pipelines[t]) {
      var made := new SdkVerifier<S>.Trusted(identity, pipelines, state);
      v := Ok(made);
    } else {
      v := Err(Exception("VerifierError", "a pipeline declares no hard gate"));
    }
  }

  // ------------------------------------------------------------------ what the answers decide

  /** The answers the checks give when they are asked one after the other. */
  ghost function Answers<S>(stage: seq<GateStep<S>>, s: S, req: VerifierRequest): (r: seq<Answer>)
    ensures |r| == |stage|
  {
    if stage == [] then []
    else
      var (next, answer) := stage[0].plugin(s, req);
      [answer] + Answers(stage[1..], next, req)
  }

  /** The order in which the checks are asked. */
  ghost function CallOrder<S>(steps: seq<GateStep<S>>): seq<GateStep<S>> {
    Cheap(steps) + Hard(steps)
  }

  ghost predicate Clears(a: Answer) {
    a.Deferred? || (a.Ruled? && a.verdict.kind == Accept)
  }

  ghost predicate AllClear(answers: seq<Answer>) {
    forall i | 0 <= i < |answers| :: Clears(answers[i])
  }

  ghost predicate IsFirstObjection(answers: seq<Answer>, i: nat) {
    && i < |answers|
    && !Clears(answers[i])
    && forall j | 0 <= j < i :: Clears(answers[j])
  }

  /** The rulings recorded by a run of `calls` that got `answers`, in order. */
  ghost function Rulings<S>(calls: seq<GateStep<S>>, answers: seq<Answer>): seq<GateDecision>
    requires |calls| == |answers|
  {
    if calls == [] then []
    else
      (if answers[0].Ruled? then [DecisionOf(calls[0].gate, answers[0].verdict)] else [])
      + Rulings(calls[1..], answers[1..])
  }

  /** Every check that ruled leaves one row, in call order, saying what it ruled; the others leave none. */
  lemma {:induction false} RulingsSay<S>(calls: seq<GateStep<S>>, answers: seq<Answer>, i: nat)
    requires |calls| == |answers| && i < |calls|
    ensures Rulings(calls, answers) == Rulings(calls[..i], answers[..i])
      + (if answers[i].Ruled?
         then [GateDecision(calls[i].gate, answers[i].verdict.kind, answers[i].verdict.rationale,
                            answers[i].verdict.defects, answers[i].verdict.score)]
         else [])
      + Rulings(calls[i + 1..], answers[i + 1..])
  {
    if i > 0 {
      assert calls[1..][..i - 1] == calls[..i][1..] && answers[1..][..i - 1] == answers[..i][1..];
      assert calls[1..][i - 1 + 1..] == calls[i + 1..] && answers[1..][i - 1 + 1..] == answers[i + 1..];
      RulingsSay(calls[1..], answers[1..], i - 1);
    }
  }

  /** The incumbents named by hard accepts. */
  ghost function Named<S>(calls: seq<GateStep<S>>, answers: seq<Answer>): set<Id>
    requires |calls| == |answers|
  {
    set i | 0 <= i < |calls| && calls[i].isHard && answers[i].Ruled? && answers[i].verdict.supersedes.Some?
      :: answers[i].verdict.supersedes.value
  }

  ghost function RuledCount(answers: seq<Answer>): nat {
    if answers == [] then 0 else (if answers[0].Ruled? then 1 else 0) + RuledCount(answers[1..])
  }

  lemma {:induction false} RuledCountFull(answers: seq<Answer>)
    ensures RuledCount(answers) <= |answers|
    ensures RuledCount(answers) == |answers| <==> forall i | 0 <= i < |answers| :: answers[i].Ruled?
  {
    if answers != [] {
      RuledCountFull(answers[1..]);
      assert forall i | 0 <= i < |answers[1..]| :: answers[1..][i] == answers[i + 1];
      if answers[0].Ruled? && forall i | 0 <= i < |answers[1..]| :: answers[1..][i].Ruled? {
        forall i | 0 <= i < |answers| ensures answers[i].Ruled? {
          if i > 0 { assert answers[i] == answers[1..][i - 1]; }
        }
      }
    }
  }

  /** A stage whose answers all clear hands on its totals. */
  lemma {:induction false} StageClears<S>(stage: seq<GateStep<S>>, s: S, req: VerifierRequest, t: Tally)
    requires AllClear(Answers(stage, s, req))
    ensures RunStage(stage, s, req, t).1 == Go(Tally(
      t.decisions + Rulings(stage, Answers(stage, s, req)),
      t.superseded + Named(stage, Answers(stage, s, req)),
      t.ruled + RuledCount(Answers(stage, s, req))))
  {
    hide Named, IsFirstObjection;
    var answers := Answers(stage, s, req);
    if stage == [] {
      NamedNothing<S>();
      assert t.decisions + [] == t.decisions;
    } else {
      var (next, answer) := stage[0].plugin(s, req);
      var rest := Answers(stage[1..], next, req);
      assert answers[1..] == rest && answers[0] == answer;
      assert AllClear(rest) by {
        forall i | 0 <= i < |rest| ensures Clears(rest[i]) { assert rest[i] == answers[i + 1]; }
      }
      assert Clears(answers[0]);
      var t1 := if answer.Ruled? then Counted(t, stage[0], answer.verdict) else t;
      StageClears(stage[1..], next, req, t1);
      NamedStep(stage, answers);
      assert t1.decisions + Rulings(stage[1..], rest) == t.decisions + Rulings(stage, answers);
      assert t1.superseded + Named(stage[1..], rest) == t.superseded + Named(stage, answers);
    }
  }

  lemma NamedNothing<S>()
    ensures Named<S>([], []) == {}
  {
  }

  lemma NamedStep<S>(calls: seq<GateStep<S>>, answers: seq<Answer>)
    requires |calls| == |answers| && calls != []
    ensures Named(calls, answers) == Named(calls[1..], answers[1..]) +
      if calls[0].isHard && answers[0].Ruled? && answers[0].verdict.supersedes.Some?
      then {answers[0].verdict.supersedes.value} else {}
  {
    var head := if calls[0].isHard && answers[0].Ruled? && answers[0].verdict.supersedes.Some?
      then {answers[0].verdict.supersedes.value} else {};
    forall x ensures x in Named(calls, answers) <==> x in Named(calls[1..], answers[1..]) + head {
      if x in Named(calls, answers) {
        var i :| 0 <= i < |calls| && calls[i].isHard && answers[i].Ruled?
          && answers[i].verdict.supersedes == Some(x);
        if i > 0 { assert calls[1..][i - 1] == calls[i] && answers[1..][i - 1] == answers[i]; }
      }
      if x in Named(calls[1..], answers[1..]) {
        var i :| 0 <= i < |calls[1..]| && calls[1..][i].isHard && answers[1..][i].Ruled?
          && answers[1..][i].verdict.supersedes == Some(x);
        assert calls[1..][i] == calls[i + 1] && answers[1..][i] == answers[i + 1];
      }
    }
  }

  /** The bundle (or raise) that an objecting answer ends the run with. */
  ghost function Objection(decisions: seq<GateDecision>, gate: string, a: Answer): Reply
    requires !Clears(a)
  {
    if a.Raised? then Raises(a.exc)
    else Verdict(VerdictBundle(
      if a.verdict.kind == Reject then Rejected else Revised,
      decisions + [DecisionOf(gate, a.verdict)], None))
  }

  /** A stage with an objection stops at the first one. */
  lemma {:induction false} StageStops<S>(stage: seq<GateStep<S>>, s: S, req: VerifierRequest, t: Tally, i: nat)
    requires IsFirstObjection(Answers(stage, s, req), i)
    ensures RunStage(stage, s, req, t).1 == Stop(Objection(
      t.decisions + Rulings(stage[..i], Answers(stage, s, req)[..i]),
      stage[i].gate, Answers(stage, s, req)[i]))
    decreases |stage|
  {
    var answers := Answers(stage, s, req);
    var (next, answer) := stage[0].plugin(s, req);
    var rest := Answers(stage[1..], next, req);
    assert answers[1..] == rest && answers[0] == answer;
    if i == 0 {
      assert t.decisions + [] == t.decisions;
    } else {
      assert Clears(answers[0]);
      assert answers[..i][1..] == rest[..i - 1] && stage[..i][1..] == stage[1..][..i - 1];
      forall j | 0 <= j < i - 1 ensures Clears(rest[j]) {
        assert answers[j + 1] == rest[j];
      }
      var t1 := if answer.Ruled? then Counted(t, stage[0], answer.verdict) else t;
      StageStops(stage[1..], next, req, t1, i - 1);
      assert t1.decisions + Rulings(stage[1..][..i - 1], rest[..i - 1])
          == t.decisions + Rulings(stage[..i], answers[..i]);
    }
  }

  /** The state after a stage whose checks were all asked. */
  ghost function AfterAll<S>(stage: seq<GateStep<S>>, s: S, req: VerifierRequest): S {
    if stage == [] then s else AfterAll(stage[1..], stage[0].plugin(s, req).0, req)
  }

  lemma {:induction false} AnswersAppend<S>(a: seq<GateStep<S>>, b: seq<GateStep<S>>, s: S, req: VerifierRequest)
    ensures Answers(a + b, s, req) == Answers(a, s, req) + Answers(b, AfterAll(a, s, req), req)
  {
    if a == [] {
      assert a + b == b;
    } else {
      assert (a + b)[1..] == a[1..] + b;
      AnswersAppend(a[1..], b, a[0].plugin(s, req).0, req);
    }
  }

  lemma {:induction false} StageState<S>(stage: seq<GateStep<S>>, s: S, req: VerifierRequest, t: Tally)
    requires AllClear(Answers(stage, s, req))
    ensures RunStage(stage, s, req, t).0 == AfterAll(stage, s, req)
  {
    if stage != [] {
      var (next, answer) := stage[0].plugin(s, req);
      var rest := Answers(stage[1..], next, req);
      assert Clears(Answers(stage, s, req)[0]);
      assert AllClear(rest) by {
        forall i | 0 <= i < |rest| ensures Clears(rest[i]) { assert rest[i] == Answers(stage, s, req)[i + 1]; }
      }
      StageState(stage[1..], next, req, if answer.Ruled? then Counted(t, stage[0], answer.verdict) else t);
    }
  }

  lemma {:induction false} RulingsAppend<S>(a: seq<GateStep<S>>, b: seq<GateStep<S>>,
                                            x: seq<Answer>, y: seq<Answer>)
    requires |a| == |x| && |b| == |y|
    ensures Rulings(a + b, x + y) == Rulings(a, x) + Rulings(b, y)
  {
    if a == [] {
      assert a + b == b && x + y == y;
    } else {
      assert (a + b)[1..] == a[1..] + b && (x + y)[1..] == x[1..] + y;
      assert (a + b)[0] == a[0] && (x + y)[0] == x[0];
      RulingsAppend(a[1..], b, x[1..], y);
      var head := if x[0].Ruled? then [DecisionOf(a[0].gate, x[0].verdict)] else [];
      assert Rulings(a + b, x + y) == head + (Rulings(a[1..], x[1..]) + Rulings(b, y));
      assert Rulings(a, x) == head + Rulings(a[1..], x[1..]);
    }
  }

  lemma FirstObjectionExists(answers: seq<Answer>) returns (i: nat)
    requires !AllClear(answers)
    ensures IsFirstObjection(answers, i)
  {
    i := 0;
    var w :| 0 <= w < |answers| && !Clears(answers[w]);
    while Clears(answers[i])
      invariant i <= w < |answers| && forall j | 0 <= j < i :: Clears(answers[j])
      decreases w - i
    {
      i := i + 1;
    }
  }

  /** What a run of the checks `calls` that answered `answers` must come back with: the first
      objection if there is one; otherwise `tentative` when a hard check left it to a human, a
      raise when two incumbents are named, and `accepted` with the one named incumbent. */
  ghost predicate Decides<S>(calls: seq<GateStep<S>>, answers: seq<Answer>, reply: Reply)
    requires |calls| == |answers|
  {
    if !AllClear(answers) then
      exists i: nat :: IsFirstObjection(answers, i)
        && reply == Objection(Rulings(calls[..i], answers[..i]), calls[i].gate, answers[i])
    else if exists i :: 0 <= i < |calls| && calls[i].isHard && answers[i].Deferred? then
      reply == Verdict(VerdictBundle(Tentative, Rulings(calls, answers), None))
    else if |Named(calls, answers)| > 1 then
      reply == Raises(AMBIGUOUS)
    else
      && reply.Verdict?
      && reply.bundle.status == Accepted
      && reply.bundle.decisions == Rulings(calls, answers)
      && Named(calls, answers) ==
         (if reply.bundle.supersedes.Some? then {reply.bundle.supersedes.value} else {})
  }

  lemma NamedOfParts<S>(cheap: seq<GateStep<S>>, hard: seq<GateStep<S>>, x: seq<Answer>, y: seq<Answer>)
    requires |cheap| == |x| && |hard| == |y|
    requires forall c | c in cheap :: !c.isHard
    ensures Named(cheap + hard, x + y) == Named(hard, y)
    ensures Named(cheap, x) == {}
  {
    var calls, answers := cheap + hard, x + y;
    assert Named(cheap, x) == {} by {
      forall i | 0 <= i < |cheap| ensures !cheap[i].isHard { assert cheap[i] in cheap; }
    }
    forall id ensures id in Named(calls, answers) <==> id in Named(hard, y) {
      if id in Named(calls, answers) {
        var i :| 0 <= i < |calls| && calls[i].isHard && answers[i].Ruled? && answers[i].verdict.supersedes == Some(id);
        assert forall j | 0 <= j < |cheap| :: calls[j] == cheap[j] && cheap[j] in cheap;
        assert hard[i - |cheap|] == calls[i] && y[i - |cheap|] == answers[i];
      }
      if id in Named(hard, y) {
        var i :| 0 <= i < |hard| && hard[i].isHard && y[i].Ruled? && y[i].verdict.supersedes == Some(id);
        assert calls[i + |cheap|] == hard[i] && answers[i + |cheap|] == y[i];
      }
    }
  }

  lemma CheapObjects<S>(steps: seq<GateStep<S>>, s: S, req: VerifierRequest)
    requires !AllClear(Answers(Cheap(steps), s, req))
    ensures Decides(CallOrder(steps), Answers(CallOrder(steps), s, req), RunPipeline(steps, s, req).1)
  {
    var cheap, hard := Cheap(steps), Hard(steps);
    var x := Answers(cheap, s, req);
    var answers := Answers(CallOrder(steps), s, req);
    AnswersAppend(cheap, hard, s, req);
    var i := FirstObjectionExists(x);
    StageStops(cheap, s, req, Tally([], {}, 0), i);
    assert answers[..i] == x[..i] && CallOrder(steps)[..i] == cheap[..i] && answers[i] == x[i];
    assert IsFirstObjection(answers, i);
    assert [] + Rulings(cheap[..i], x[..i]) == Rulings(cheap[..i], x[..i]);
  }

  lemma HardObjects<S>(steps: seq<GateStep<S>>, s: S, req: VerifierRequest)
    requires AllClear(Answers(Cheap(steps), s, req))
    requires !AllClear(Answers(Hard(steps), AfterAll(Cheap(steps), s, req), req))
    ensures Decides(CallOrder(steps), Answers(CallOrder(steps), s, req), RunPipeline(steps, s, req).1)
  {
    var cheap, hard, t0 := Cheap(steps), Hard(steps), Tally([], {}, 0);
    var x, mid := Answers(cheap, s, req), AfterAll(cheap, s, req);
    var y := Answers(hard, mid, req);
    AnswersAppend(cheap, hard, s, req);
    StageClears(cheap, s, req, t0);
    StageState(cheap, s, req, t0);
    var t1 := RunStage(cheap, s, req, t0).1.tally.(ruled := 0);
    var i := FirstObjectionExists(y);
    StageStops(hard, mid, req, t1, i);
    ObjectionInHardStage(cheap, hard, x, y, i);
    assert [] + Rulings(cheap, x) == Rulings(cheap, x);
  }

  lemma ConcludeNames(t: Tally, hard: nat)
    requires t.ruled >= hard
    ensures if |t.superseded| > 1 then Conclude(t, hard) == Raises(AMBIGUOUS)
      else
        && Conclude(t, hard).Verdict?
        && Conclude(t, hard).bundle.status == Accepted
        && Conclude(t, hard).bundle.decisions == t.decisions
        && t.superseded == (if Conclude(t, hard).bundle.supersedes.Some?
                            then {Conclude(t, hard).bundle.supersedes.value} else {})
  {
    if |t.superseded| <= 1 && t.superseded != {} {
      var one := Conclude(t, hard).bundle.supersedes.value;
      forall other | other in t.superseded ensures other == one { AtMostOne(t.superseded, one, other); }
    }
  }

  lemma ClearRun<S>(steps: seq<GateStep<S>>, s: S, req: VerifierRequest)
    requires AllClear(Answers(Cheap(steps), s, req))
    requires AllClear(Answers(Hard(steps), AfterAll(Cheap(steps), s, req), req))
    ensures var calls, answers := CallOrder(steps), Answers(CallOrder(steps), s, req);
      && AllClear(answers)
      && RunPipeline(steps, s, req).1 == Conclude(
           Tally(Rulings(calls, answers), Named(calls, answers),
                 RuledCount(Answers(Hard(steps), AfterAll(Cheap(steps), s, req), req))), |Hard(steps)|)
  {
    var cheap, hard, t0 := Cheap(steps), Hard(steps), Tally([], {}, 0);
    var x, mid := Answers(cheap, s, req), AfterAll(cheap, s, req);
    var y := Answers(hard, mid, req);
    AnswersAppend(cheap, hard, s, req);
    StageClears(cheap, s, req, t0);
    StageState(cheap, s, req, t0);
    NamedOfParts(cheap, hard, x, y);
    StageClears(hard, mid, req, RunStage(cheap, s, req, t0).1.tally.(ruled := 0));
    RulingsAppend(cheap, hard, x, y);
    assert [] + Rulings(cheap, x) == Rulings(cheap, x);
    assert {} + Named(cheap, x) + Named(hard, y) == Named(hard, y);
    forall i | 0 <= i < |x + y| ensures Clears((x + y)[i]) {
      assert (x + y)[i] == if i < |x| then x[i] else y[i - |x|];
    }
  }

  lemma NoneObjects<S>(steps: seq<GateStep<S>>, s: S, req: VerifierRequest)
    requires AllClear(Answers(Cheap(steps), s, req))
    requires AllClear(Answers(Hard(steps), AfterAll(Cheap(steps), s, req), req))
    ensures Decides(CallOrder(steps), Answers(CallOrder(steps), s, req), RunPipeline(steps, s, req).1)
  {
    var cheap, hard := Cheap(steps), Hard(steps);
    var x, y := Answers(cheap, s, req), Answers(hard, AfterAll(cheap, s, req), req);
    var calls, answers := CallOrder(steps), Answers(CallOrder(steps), s, req);
    AnswersAppend(cheap, hard, s, req);
    ClearRun(steps, s, req);
    RuledCountFull(y);
    HumanLeft(cheap, hard, x, y);
    var t := Tally(Rulings(calls, answers), Named(calls, answers), RuledCount(y));
    if RuledCount(y) == |y| {
      ConcludeNames(t, |hard|);
    }
  }

  /** The pipeline does what its answers decide, whatever the checks are and whatever state they
      keep. */
  lemma PipelineDecides<S>(steps: seq<GateStep<S>>, s: S, req: VerifierRequest)
    ensures Decides(CallOrder(steps), Answers(CallOrder(steps), s, req), RunPipeline(steps, s, req).1)
  {
    if !AllClear(Answers(Cheap(steps), s, req)) {
      CheapObjects(steps, s, req);
    } else if !AllClear(Answers(Hard(steps), AfterAll(Cheap(steps), s, req), req)) {
      HardObjects(steps, s, req);
    } else {
      NoneObjects(steps, s, req);
    }
  }

  lemma ObjectionInHardStage<S>(cheap: seq<GateStep<S>>, hard: seq<GateStep<S>>,
                                x: seq<Answer>, y: seq<Answer>, i: nat)
    requires |cheap| == |x| && |hard| == |y|
    requires AllClear(x) && IsFirstObjection(y, i)
    ensures IsFirstObjection(x + y, |x| + i)
    ensures (cheap + hard)[|x| + i] == hard[i] && (x + y)[|x| + i] == y[i]
    ensures Rulings((cheap + hard)[..|x| + i], (x + y)[..|x| + i])
      == Rulings(cheap, x) + Rulings(hard[..i], y[..i])
  {
    assert (cheap + hard)[..|x| + i] == cheap + hard[..i];
    assert (x + y)[..|x| + i] == x + y[..i];
    forall j | 0 <= j < |x| + i ensures Clears((x + y)[j]) {
      assert (x + y)[j] == if j < |x| then x[j] else y[j - |x|];
    }
    RulingsAppend(cheap, hard[..i], x, y[..i]);
  }

  lemma HumanLeft<S>(cheap: seq<GateStep<S>>, hard: seq<GateStep<S>>, x: seq<Answer>, y: seq<Answer>)
    requires |cheap| == |x| && |hard| == |y| && AllClear(y)
    requires forall c | c in cheap :: !c.isHard
    requires forall h | h in hard :: h.isHard
    ensures (exists i :: 0 <= i < |cheap + hard| && (cheap + hard)[i].isHard && (x + y)[i].Deferred?)
      <==> !(forall i | 0 <= i < |y| :: y[i].Ruled?)
  {
    if i :| 0 <= i < |y| && !y[i].Ruled? {
      assert Clears(y[i]);
      assert hard[i] in hard;
      assert (cheap + hard)[|x| + i] == hard[i] && (x + y)[|x| + i] == y[i];
    }
    if i :| 0 <= i < |cheap + hard| && (cheap + hard)[i].isHard && (x + y)[i].Deferred? {
      assert forall j | 0 <= j < |cheap| :: (cheap + hard)[j] == cheap[j] && cheap[j] in cheap;
      assert y[i - |x|] == (x + y)[i];
    }
  }

  /** `accepted` comes back exactly when every hard check ruled accept, no cheap check objected,
      and at most one incumbent was named. */
  lemma AcceptedExactlyWhen<S>(steps: seq<GateStep<S>>, s: S, req: VerifierRequest)
    ensures var calls, answers, reply :=
        CallOrder(steps), Answers(CallOrder(steps), s, req), RunPipeline(steps, s, req).1;
      (reply.Verdict? && reply.bundle.status == Accepted) <==>
        (&& (forall i | 0 <= i < |calls| && calls[i].isHard ::
              answers[i].Ruled? && answers[i].verdict.kind == Accept)
         && (forall i | 0 <= i < |calls| && !calls[i].isHard :: Clears(answers[i]))
         && |Named(calls, answers)| <= 1)
  {
    PipelineDecides(steps, s, req);
    var calls, answers := CallOrder(steps), Answers(CallOrder(steps), s, req);
    if AllClear(answers) {
      forall i | 0 <= i < |answers| ensures Clears(answers[i]) {}
    } else {
      var i :| 0 <= i < |answers| && !Clears(answers[i]);
    }
  }

  lemma {:induction false} RulingsKinds<S>(calls: seq<GateStep<S>>, answers: seq<Answer>)
    requires |calls| == |answers| && AllClear(answers)
    ensures forall d | d in Rulings(calls, answers) :: d.kind == Accept
  {
    if calls != [] {
      assert Clears(answers[0]);
      forall i | 0 <= i < |answers[1..]| ensures Clears(answers[1..][i]) { assert answers[1..][i] == answers[i + 1]; }
      RulingsKinds(calls[1..], answers[1..]);
    }
  }

  /** Every bundle a pipeline returns passes the commit path's consistency check and asks for a
      legal edge out of `proposed`, and only an accept names an incumbent. */
  lemma BundlesAreCommittable<S>(steps: seq<GateStep<S>>, s: S, req: VerifierRequest)
    ensures var reply := RunPipeline(steps, s, req).1;
      reply.Verdict? ==>
        && Commit.Consistent(reply.bundle)
        && IsLegalTransition(Proposed, reply.bundle.status)
        && (reply.bundle.supersedes.Some? ==> reply.bundle.status == Accepted)
  {
    PipelineDecides(steps, s, req);
    var calls, answers := CallOrder(steps), Answers(CallOrder(steps), s, req);
    var reply := RunPipeline(steps, s, req).1;
    if AllClear(answers) {
      RulingsKinds(calls, answers);
    } else {
      var i: nat :| IsFirstObjection(answers, i)
        && reply == Objection(Rulings(calls[..i], answers[..i]), calls[i].gate, answers[i]);
      RulingsKinds(calls[..i], answers[..i]);
    }
  }

  lemma {:induction false} FilterAppend<S>(a: seq<GateStep<S>>, b: seq<GateStep<S>>)
    ensures Cheap(a + b) == Cheap(a) + Cheap(b)
    ensures Hard(a + b) == Hard(a) + Hard(b)
  {
    if a == [] {
      assert a + b == b;
    } else {
      assert (a + b)[1..] == a[1..] + b;
      FilterAppend(a[1..], b);
    }
  }

  lemma {:induction false} FilterFixed<S>(a: seq<GateStep<S>>, hard: bool)
    requires forall s | s in a :: s.isHard == hard
    ensures Cheap(a) == if hard then [] else a
    ensures Hard(a) == if hard then a else []
  {
    if a != [] {
      assert a[0] in a;
      assert forall s | s in a[1..] :: s in a;
      FilterFixed(a[1..], hard);
      assert a == [a[0]] + a[1..];
    }
  }

  /** How cheap and hard checks are interleaved in the declaration does not matter: the pipeline
      is the one that declares its cheap checks first. */
  lemma InterleavingIrrelevant<S>(steps: seq<GateStep<S>>, s: S, req: VerifierRequest)
    ensures RunPipeline(steps, s, req) == RunPipeline(CallOrder(steps), s, req)
  {
    FilterAppend(Cheap(steps), Hard(steps));
    FilterFixed(Cheap(steps), false);
    FilterFixed(Hard(steps), true);
    assert Cheap(CallOrder(steps)) == Cheap(steps) + [] == Cheap(steps);
    assert Hard(CallOrder(steps)) == [] + Hard(steps) == Hard(steps);
  }
}
