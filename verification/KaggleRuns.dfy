/** Whole runs of the leaderboard task: one best answer under two scores at once, and every spent
    submission justified by the store. */
module KaggleRuns {

  import opened Contracts
  import opened Tables
  import opened Commit
  import opened Pipeline
  import opened SubmissionGates
  import opened Intake
  import opened Slices
  import opened KernelRuns
  import opened Incumbency
  import opened FeRuns
  import opened KaggleLadder
  import opened LadderSpending

  // ------------------------------------------------------------------ the machine

  datatype LadderWorld = LadderWorld(db: Db, ladder: LadderState)

  /** `Attempt` is a submission that got as far as `stage` before some collaborator raised; under
      `RanOnly` the handoff was cut after `cut` rungs. */
  datatype LadderEvent =
    | Attempt(env: ProposalEnvelope, stage: Stage, cut: nat, rejectedFirst: bool, now: Timestamp)
    | Restarted
    | SeedRow(artifact: Artifact, operation: Operation, stamp: Timestamp)
    | CycleDropped(row: CycleFailure)

  /** A new process: the ledgers and the cache are gone, the leaderboard is not. */
  ghost function Forget(s: LadderState): LadderState {
    s.(runs := map[], proxies := map[], reals := map[])
  }

  ghost function CutShort(cfg: LadderConfig, s: LadderState, req: VerifierRequest, cut: nat): LadderState {
    var steps := LadderSteps(cfg);
    Climb(if cut < |steps| then steps[..cut] else steps, s, req, []).0
  }

  ghost function LadderHandOff(k: Kernel, cfg: LadderConfig, w: LadderWorld, env: ProposalEnvelope, stage: Stage,
                               cut: nat, rejectedFirst: bool, now: Timestamp): LadderWorld
    requires env.artifact.id in w.db.artifacts
  {
    if stage == LinkedOnly || Admit(w.db, env.artifact.id, k.gated.Keys, k.identity).Err? then w
    else
      var req := RequestIn(k, w.db, env, rejectedFirst);
      if stage == RanOnly then w.(ladder := CutShort(cfg, w.ladder, req, cut))
      else
        var (s, reply) := LadderDispatch(cfg, w.ladder, req);
        if stage == Judged then w.(ladder := s)
        else
          match Committed(w.db, env.artifact.id, k.gated.Keys, k.identity, reply, Exhausted(k, w.db, env.operation), now)
          case Err(_) => LadderWorld(w.db, s)
          case Ok(next) => LadderWorld(next, s)
  }

  ghost function LadderStep(k: Kernel, cfg: LadderConfig, w: LadderWorld, e: LadderEvent): LadderWorld {
    match e
    case Restarted => w.(ladder := Forget(w.ladder))
    case SeedRow(a, op, stamp) =>
      (match ProposeRow(w.db, StampedArtifact(a, stamp), StampedOperation(op, stamp))
       case Err(_) => w
       case Ok(next) => w.(db := next))
    case CycleDropped(row) => w.(db := FailureRow(w.db, row))
    case Attempt(env, stage, cut, rejectedFirst, now) =>
      var reached := Approached(k, w.db, env, stage, now);
      if reached.Short? then w.(db := reached.db)
      else LadderHandOff(k, cfg, w.(db := reached.db), env, stage, cut, rejectedFirst, now)
  }

  ghost function LadderRunFrom(k: Kernel, cfg: LadderConfig, w: LadderWorld, run: seq<LadderEvent>): LadderWorld
    decreases |run|
  {
    if run == [] then w else LadderRunFrom(k, cfg, LadderStep(k, cfg, w, run[0]), run[1..])
  }

  ghost function Fresh(feed: Feed): LadderWorld {
    LadderWorld(EMPTY_DB, LadderState(map[], map[], map[], feed, []))
  }

  // ------------------------------------------------------------------ the invariant

  ghost predicate Honest(db: Db, ledger: map<Id, real>, gate: string) {
    forall id | IsAccepted(db, SUBMISSION, id) && id in ledger :: ScoreOf(db, gate, id) == Some(ledger[id])
  }

  ghost predicate Sound(db: Db, ledger: map<Id, real>, gate: string, margin: real) {
    OneBest(db, SUBMISSION, gate, margin) && Honest(db, ledger, gate)
  }

  ghost predicate LadderInv(cfg: LadderConfig, w: LadderWorld) {
    && Keyed(w.db)
    && DecisionsSettled(w.db)
    && Sound(w.db, w.ladder.proxies, PROXY, cfg.margin)
    && Sound(w.db, w.ladder.reals, KAGGLE, 0.0)
  }

  lemma FrameKeepsSound(db: Db, next: Db, ledger: map<Id, real>, gate: string, margin: real)
    requires Sound(db, ledger, gate, margin) && SameReign(db, next)
    ensures Sound(next, ledger, gate, margin)
  {
    FrameReads(db, next);
    forall x | Reigned(next, SUBMISSION, x) && next.artifacts[x].status == Superseded
      ensures next.artifacts[x].supersededBy.Some?
        && Replaced(next, SUBMISSION, gate, margin, x, next.artifacts[x].supersededBy.value)
    {
      assert Replaced(db, SUBMISSION, gate, margin, x, db.artifacts[x].supersededBy.value);
    }
  }

  lemma FrameKeepsSettled(db: Db, next: Db)
    requires DecisionsSettled(db) && SameReign(db, next)
    ensures DecisionsSettled(next)
  {
    forall d | d in next.decisions
      ensures d.artifactId in next.artifacts && next.artifacts[d.artifactId].status != Proposed
    {
      var x := next.artifacts[d.artifactId].(revisedBy := None);
      assert x == db.artifacts[d.artifactId].(revisedBy := None);
      assert x.status == db.artifacts[d.artifactId].status;
    }
  }

  lemma FrameKeeps(cfg: LadderConfig, w: LadderWorld, next: Db)
    requires LadderInv(cfg, w) && SameReign(w.db, next) && Keyed(next)
    ensures LadderInv(cfg, w.(db := next))
  {
    FrameKeepsSettled(w.db, next);
    FrameKeepsSound(w.db, next, w.ladder.proxies, PROXY, cfg.margin);
    FrameKeepsSound(w.db, next, w.ladder.reals, KAGGLE, 0.0);
  }

  // ------------------------------------------------------------------ what the rungs see

  lemma {:induction false} ScoredByAppend(a: seq<Artifact>, b: seq<Artifact>, ledger: map<Id, real>,
                                          recorded: map<Id, map<string, real>>, gate: string)
    ensures ScoredBy(a + b, ledger, recorded, gate)
      == ScoredBy(a, ledger, recorded, gate) + ScoredBy(b, ledger, recorded, gate)
  {
    if b == [] {
      assert a + b == a;
    } else {
      var n := |b| - 1;
      assert (a + b)[..|a| + n] == a + b[..n];
      ScoredByAppend(a, b[..n], ledger, recorded, gate);
    }
  }

  lemma {:induction false} NothingScored(a: seq<Artifact>, ledger: map<Id, real>,
                                         recorded: map<Id, map<string, real>>, gate: string)
    requires forall x | x in a :: x.status != Accepted
    ensures ScoredBy(a, ledger, recorded, gate) == []
  {
    if a != [] {
      assert a[|a| - 1] in a;
      NothingScored(a[..|a| - 1], ledger, recorded, gate);
    }
  }

  lemma IncumbentScored(db: Db, slice: seq<Artifact>, ledger: map<Id, real>, gate: string, margin: real)
    requires Keyed(db) && Sound(db, ledger, gate, margin)
    requires forall x | x in Query(db.artifacts, Some(SUBMISSION), Some(Accepted)) :: x in slice
    ensures BestPair(ScoredBy(Query(db.artifacts, Some(SUBMISSION), Some(Accepted)), ledger, RecordedScores(db, slice), gate))
      == (Incumbent(db, SUBMISSION), Base(db, SUBMISSION, gate))
  {
    var rows := Query(db.artifacts, Some(SUBMISSION), Some(Accepted));
    var keys := Matching(db.artifacts, Some(SUBMISSION), Some(Accepted));
    var recorded := RecordedScores(db, slice);
    AtMostOneRow(db, gate, margin);
    if rows != [] {
      var x := rows[0];
      assert x in rows;
      var key :| key in keys && db.artifacts[key] == x;
      assert IsAccepted(db, SUBMISSION, x.id) && Reigned(db, SUBMISSION, x.id);
      IncumbentIs(db, SUBMISSION, gate, margin, x.id);
      var s := ScoreOf(db, gate, x.id).value;
      RecordOf(db, slice, x, gate);
      assert [x][..0] == [] && ScoredBy([x][..0], ledger, recorded, gate) == [];
      assert rows == [x] && ScoredBy([x], ledger, recorded, gate) == [(x.id, s)];
      assert BestPair([(x.id, s)]) == (Some(x.id), s);
    } else {
      NoIncumbent(db);
    }
  }

  lemma RecordOf(db: Db, slice: seq<Artifact>, x: Artifact, gate: string)
    requires x in slice && ScoreOf(db, gate, x.id).Some?
    ensures x.id in RecordedScores(db, slice) && gate in RecordedScores(db, slice)[x.id]
    ensures RecordedScores(db, slice)[x.id][gate] == ScoreOf(db, gate, x.id).value
  {
    var i :| 0 <= i < |slice| && slice[i] == x;
    assert gate in GateScores(db.decisions, x.id);
  }

  lemma AtMostOneRow(db: Db, gate: string, margin: real)
    requires OneBest(db, SUBMISSION, gate, margin)
    ensures |Query(db.artifacts, Some(SUBMISSION), Some(Accepted))| <= 1
  {
    var keys := Matching(db.artifacts, Some(SUBMISSION), Some(Accepted));
    if keys != {} {
      var one :| one in keys;
      forall other | other in keys ensures other == one {
        assert IsAccepted(db, SUBMISSION, one) && IsAccepted(db, SUBMISSION, other);
      }
      assert keys == {one};
    }
  }

  lemma SliceShape(k: Kernel, db: Db, env: ProposalEnvelope, rejectedFirst: bool)
    requires IsFeTask(k) && UnderTest(db, env.artifact.id)
    ensures var a, req := db.artifacts[env.artifact.id], RequestIn(k, db, env, rejectedFirst);
      && req.storeSlice == (if rejectedFirst then Provided(db, a, RejectedLog) + Provided(db, a, Incumbents)
                            else Provided(db, a, Incumbents) + Provided(db, a, RejectedLog))
      && req.scores == RecordedScores(db, req.storeSlice)
      && Provided(db, a, Incumbents) == Query(db.artifacts, Some(SUBMISSION), Some(Accepted))
  {
    hide RecordedScores, Query;
  }

  lemma RejectsUnscored(db: Db, a: Artifact)
    requires Keyed(db)
    ensures forall x | x in Provided(db, a, RejectedLog) :: x.status != Accepted
  {
    forall x | x in Provided(db, a, RejectedLog) ensures x.status != Accepted { InProvided(db, a, RejectedLog, x); }
  }

  /** Whatever the ledger remembers, the best accepted incumbent a rung finds is the store's. */
  lemma BestIsIncumbent(k: Kernel, db: Db, env: ProposalEnvelope, rejectedFirst: bool, ledger: map<Id, real>,
                        gate: string, margin: real)
    requires IsFeTask(k) && Keyed(db) && Sound(db, ledger, gate, margin) && UnderTest(db, env.artifact.id)
    ensures BestBy(ledger, RequestIn(k, db, env, rejectedFirst), gate)
      == (Incumbent(db, SUBMISSION), Base(db, SUBMISSION, gate))
  {
    hide Query, RecordedScores, ScoredBy, BestPair, Sound, Keyed, RequestIn, Provided, Incumbent, Base;
    SliceShape(k, db, env, rejectedFirst);
    var a := db.artifacts[env.artifact.id];
    var incumbents, rejects := Provided(db, a, Incumbents), Provided(db, a, RejectedLog);
    var slice := RequestIn(k, db, env, rejectedFirst).storeSlice;
    var recorded := RecordedScores(db, slice);
    RejectsUnscored(db, a);
    IncumbentScored(db, slice, ledger, gate, margin);
    NothingScored(rejects, ledger, recorded, gate);
    ScoredByAppend(incumbents, rejects, ledger, recorded, gate);
    ScoredByAppend(rejects, incumbents, ledger, recorded, gate);
    var found := ScoredBy(incumbents, ledger, recorded, gate);
    assert [] + found == found && found + [] == found;
  }

  // ------------------------------------------------------------------ what a dispatch leaves

  /** Ledgers change at one id only. */
  ghost predicate OnlyAt(id: Id, before: map<Id, real>, after: map<Id, real>) {
    && (forall i | i != id :: i in before <==> i in after)
    && (forall i | i != id && i in before :: after[i] == before[i])
  }

  ghost predicate TouchesOnly(id: Id, s: LadderState, t: LadderState) {
    OnlyAt(id, s.proxies, t.proxies) && OnlyAt(id, s.reals, t.reals)
  }

  lemma CheapTouch(cfg: LadderConfig, s: LadderState, req: VerifierRequest)
    ensures TouchesOnly(req.proposal.id, s, RunsClean(cfg, s, req).0)
    ensures TouchesOnly(req.proposal.id, s, ProxyImproves(cfg, s, req).0)
    ensures TouchesOnly(req.proposal.id, s, Competitive(cfg, s, req).0)
  {
    hide RunAs, BestBy, ProxyOf, RunsCleanVerdict, BarVerdict;
    RunsOnly(cfg, s, req.objects, OnHoldout);
  }

  lemma KaggleTouch(cfg: LadderConfig, s: LadderState, req: VerifierRequest)
    ensures TouchesOnly(req.proposal.id, s, Kaggle(cfg, s, req).0)
  {
    hide RunAs, BestBy, AwaitBudget, Regenerated;
    RunsOnly(cfg, s, req.objects, OnRealTest);
    AwaitAsks(cfg, RunAs(cfg, s, req.objects, OnRealTest).0, 0.0);
  }

  lemma RungTouches(cfg: LadderConfig, s: LadderState, req: VerifierRequest, i: nat)
    requires i < 4
    ensures TouchesOnly(req.proposal.id, s, LadderSteps(cfg)[i].plugin(s, req).0)
  {
    hide RunsClean, ProxyImproves, Competitive, Kaggle, TouchesOnly;
    CheapTouch(cfg, s, req);
    KaggleTouch(cfg, s, req);
  }

  lemma {:induction false} ClimbTouches(steps: seq<GateStep<LadderState>>, s: LadderState, req: VerifierRequest,
                                        ds: seq<GateDecision>)
    requires forall step | step in steps :: forall x :: TouchesOnly(req.proposal.id, x, step.plugin(x, req).0)
    ensures TouchesOnly(req.proposal.id, s, Climb(steps, s, req, ds).0)
    decreases |steps|
  {
    if steps != [] {
      assert steps[0] in steps;
      var (next, answer) := steps[0].plugin(s, req);
      if Clears(answer) && |steps| > 1 {
        var more := if answer.Ruled? then ds + [DecisionOf(steps[0].gate, answer.verdict)] else ds;
        ClimbTouches(steps[1..], next, req, more);
      }
    }
  }

  /** However far it gets, a dispatch writes the ledgers at its own proposal only. */
  lemma DispatchTouches(cfg: LadderConfig, s: LadderState, req: VerifierRequest, cut: nat)
    ensures TouchesOnly(req.proposal.id, s, LadderDispatch(cfg, s, req).0)
    ensures TouchesOnly(req.proposal.id, s, CutShort(cfg, s, req, cut))
  {
    var steps := LadderSteps(cfg);
    forall step, x | step in steps ensures TouchesOnly(req.proposal.id, x, step.plugin(x, req).0) {
      var i :| 0 <= i < |steps| && steps[i] == step;
      RungTouches(cfg, x, req, i);
    }
    ClimbTouches(steps, s, req, []);
    ClimbTouches(if cut < |steps| then steps[..cut] else steps, s, req, []);
  }

  /** What an accepting dispatch has measured, left in the ledgers and put in its decisions. */
  lemma AcceptMeasures(cfg: LadderConfig, s: LadderState, req: VerifierRequest)
    ensures var (t, reply) := LadderDispatch(cfg, s, req);
      var id := req.proposal.id;
      reply.Verdict? && reply.bundle.status == Accepted ==>
        && id in t.proxies && id in t.reals
        && t.proxies[id] > BestBy(s.proxies[id := t.proxies[id]], req, PROXY).1 + cfg.margin
        && t.reals[id] > BestBy(s.reals[id := t.reals[id]], req, KAGGLE).1
        && reply.bundle.supersedes == BestBy(s.reals[id := t.reals[id]], req, KAGGLE).0
        && |reply.bundle.decisions| == 4
        && reply.bundle.decisions[0].score.None?
        && reply.bundle.decisions[1].gate == PROXY && reply.bundle.decisions[1].score == Some(t.proxies[id])
        && reply.bundle.decisions[2].gate == COMPETITIVE
        && reply.bundle.decisions[3].gate == KAGGLE && reply.bundle.decisions[3].score == Some(t.reals[id])
  {
    hide RunsClean, ProxyImproves, Competitive, Kaggle, BestBy, LadderDispatch;
    LadderLeaves(cfg, s, req);
    var (s1, a1) := RunsClean(cfg, s, req);
    var (s2, a2) := ProxyImproves(cfg, s1, req);
    var (s3, a3) := Competitive(cfg, s2, req);
    CleanMeasures(cfg, s, req);
    ProxyMeasures(cfg, s1, req);
    if Clears(a2) { BarMeasures(cfg, s2, req); }
    KaggleMeasures(cfg, s3, req);
  }

  lemma CleanMeasures(cfg: LadderConfig, s: LadderState, req: VerifierRequest)
    ensures var (t, a) := RunsClean(cfg, s, req);
      t.proxies == s.proxies && t.reals == s.reals && a.Ruled? && (Clears(a) ==> a.verdict.score.None?)
      && a.verdict.kind != Refine
  {
  }

  lemma ProxyMeasures(cfg: LadderConfig, s: LadderState, req: VerifierRequest)
    ensures var (t, a) := ProxyImproves(cfg, s, req);
      var id := req.proposal.id;
      && t.reals == s.reals && a.Ruled? && a.verdict.kind != Refine
      && (Clears(a) ==>
            && id in t.proxies && t.proxies == s.proxies[id := t.proxies[id]]
            && a.verdict.score == Some(t.proxies[id])
            && t.proxies[id] > BestBy(t.proxies, req, PROXY).1 + cfg.margin)
  {
    hide BestBy, ProxyOf;
  }

  lemma BarMeasures(cfg: LadderConfig, s: LadderState, req: VerifierRequest)
    requires req.proposal.id in s.proxies
    ensures var (t, a) := Competitive(cfg, s, req);
      t.proxies == s.proxies && t.reals == s.reals && !a.Deferred?
  {
    hide Estimate;
  }

  lemma KaggleMeasures(cfg: LadderConfig, s: LadderState, req: VerifierRequest)
    ensures var (t, a) := Kaggle(cfg, s, req);
      var id := req.proposal.id;
      && t.proxies == s.proxies
      && !a.Deferred? && (a.Ruled? ==> a.verdict.kind != Refine)
      && (Clears(a) ==>
            && id in t.reals && t.reals == s.reals[id := t.reals[id]]
            && a.verdict.score == Some(t.reals[id])
            && t.reals[id] > BestBy(t.reals, req, KAGGLE).1
            && a.verdict.supersedes == BestBy(t.reals, req, KAGGLE).0)
  {
    AwaitAsks(cfg, RunAs(cfg, s, req.objects, OnRealTest).0, 0.0);
    RunsOnly(cfg, s, req.objects, OnRealTest);
    hide BestBy, AwaitBudget, RunAs, Regenerated;
  }

  // ------------------------------------------------------------------ landing

  lemma FourScores(id: Id, ds: seq<GateDecision>, now: Timestamp, proxy: real, public: real)
    requires |ds| == 4 && ds[0].score.None?
    requires ds[1].gate == PROXY && ds[1].score == Some(proxy)
    requires ds[2].gate == COMPETITIVE
    requires ds[3].gate == KAGGLE && ds[3].score == Some(public)
    ensures var scores := GateScores(RowsOf(id, ds, now), id);
      PROXY in scores && scores[PROXY] == proxy && KAGGLE in scores && scores[KAGGLE] == public
  {
    var rows := RowsOf(id, ds, now);
    assert rows[..3][..2] == rows[..2] && rows[..2][..1] == rows[..1] && rows[..1][..0] == [];
    assert PROXY != COMPETITIVE && PROXY != KAGGLE && COMPETITIVE != KAGGLE by {
      assert PROXY[0] != COMPETITIVE[0] && PROXY[0] != KAGGLE[0] && COMPETITIVE[0] != KAGGLE[0];
    }
    assert GateScores(rows[..1], id) == map[];
    assert GateScores(rows[..2], id) == map[PROXY := proxy];
    assert PROXY in GateScores(rows[..3], id) && GateScores(rows[..3], id)[PROXY] == proxy;
  }

  lemma UntestedHonest(db: Db, ledger: map<Id, real>, after: map<Id, real>, gate: string, margin: real, id: Id)
    requires Sound(db, ledger, gate, margin) && UnderTest(db, id) && OnlyAt(id, ledger, after)
    ensures Sound(db, after, gate, margin)
  {
  }

  /** An accepting verdict improves on the incumbent under both scores. */
  lemma AcceptImprovesBoth(k: Kernel, cfg: LadderConfig, w: LadderWorld, env: ProposalEnvelope,
                           rejectedFirst: bool, now: Timestamp)
    requires IsFeTask(k) && LadderInv(cfg, w) && UnderTest(w.db, env.artifact.id)
    ensures var id := env.artifact.id;
      var (t, reply) := LadderDispatch(cfg, w.ladder, RequestIn(k, w.db, env, rejectedFirst));
      reply.Verdict? ==>
        && Improves(w.db, reply.bundle, SUBMISSION, PROXY, cfg.margin, id, now)
        && Improves(w.db, reply.bundle, SUBMISSION, KAGGLE, 0.0, id, now)
        && (reply.bundle.status == Accepted ==>
              var scores := GateScores(RowsOf(id, reply.bundle.decisions, now), id);
              && id in t.proxies && PROXY in scores && scores[PROXY] == t.proxies[id]
              && id in t.reals && KAGGLE in scores && scores[KAGGLE] == t.reals[id])
  {
    hide LadderDispatch, BestBy, Sound, GateScores, Base;
    var req, id := RequestIn(k, w.db, env, rejectedFirst), env.artifact.id;
    assert req.proposal.id == id by { assert w.db.artifacts[id].id == id; }
    var (t, reply) := LadderDispatch(cfg, w.ladder, req);
    AcceptMeasures(cfg, w.ladder, req);
    if reply.Verdict? && reply.bundle.status == Accepted {
      var proxies, reals := w.ladder.proxies[id := t.proxies[id]], w.ladder.reals[id := t.reals[id]];
      UntestedHonest(w.db, w.ladder.proxies, proxies, PROXY, cfg.margin, id);
      UntestedHonest(w.db, w.ladder.reals, reals, KAGGLE, 0.0, id);
      BestIsIncumbent(k, w.db, env, rejectedFirst, proxies, PROXY, cfg.margin);
      BestIsIncumbent(k, w.db, env, rejectedFirst, reals, KAGGLE, 0.0);
      FourScores(id, reply.bundle.decisions, now, t.proxies[id], t.reals[id]);
    }
  }

  lemma LandingKeepsSound(db: Db, next: Db, a: Artifact, b: VerdictBundle, exhausted: bool, now: Timestamp,
                          gate: string, margin: real, ledger: map<Id, real>, after: map<Id, real>)
    requires Sound(db, ledger, gate, margin) && DecisionsSettled(db)
    requires UnderTest(db, a.id) && Settles(db, next, a, b, exhausted, now)
    requires Improves(db, b, SUBMISSION, gate, margin, a.id, now)
    requires OnlyAt(a.id, ledger, after)
    requires b.status == Accepted ==>
      var scores := GateScores(RowsOf(a.id, b.decisions, now), a.id);
      a.id in after && gate in scores && scores[gate] == after[a.id]
    ensures Sound(next, after, gate, margin)
  {
    CommitKeepsOneBest(db, next, a, b, exhausted, now, SUBMISSION, gate, margin);
    ScoresAfter(db, next, a, b, exhausted, now);
    forall id | IsAccepted(next, SUBMISSION, id) && id in after
      ensures ScoreOf(next, gate, id) == Some(after[id])
    {
      assert Reigned(next, SUBMISSION, id);
      ReignAfter(db, next, a, b, exhausted, now, SUBMISSION, id);
      if id != a.id {
        OnlyOneAfter(db, next, a, b, exhausted, now, SUBMISSION, gate, margin, id);
        assert IsAccepted(db, SUBMISSION, id);
      }
    }
  }

  lemma LandedKeeps(k: Kernel, cfg: LadderConfig, w: LadderWorld, env: ProposalEnvelope, rejectedFirst: bool,
                    exhausted: bool, now: Timestamp, next: Db)
    requires IsFeTask(k) && LadderInv(cfg, w) && UnderTest(w.db, env.artifact.id)
    requires var reply := LadderDispatch(cfg, w.ladder, RequestIn(k, w.db, env, rejectedFirst)).1;
      Committed(w.db, env.artifact.id, k.gated.Keys, k.identity, reply, exhausted, now) == Ok(next)
    ensures LadderInv(cfg, LadderWorld(next, LadderDispatch(cfg, w.ladder, RequestIn(k, w.db, env, rejectedFirst)).0))
  {
    hide LadderDispatch, Sound, Committed, Settles, DecisionsSettled, Improves, GateScores, Evolves;
    var id, a := env.artifact.id, w.db.artifacts[env.artifact.id];
    var req := RequestIn(k, w.db, env, rejectedFirst);
    var (t, reply) := LadderDispatch(cfg, w.ladder, req);
    CommittedSettles(w.db, id, k.gated.Keys, k.identity, reply, exhausted, now);
    SettledEvolves(w.db, next, a, reply.bundle, exhausted, now);
    CommitKeepsSettled(w.db, next, a, reply.bundle, exhausted, now);
    AcceptImprovesBoth(k, cfg, w, env, rejectedFirst, now);
    DispatchTouches(cfg, w.ladder, req, 0);
    LandingKeepsSound(w.db, next, a, reply.bundle, exhausted, now, PROXY, cfg.margin, w.ladder.proxies, t.proxies);
    LandingKeepsSound(w.db, next, a, reply.bundle, exhausted, now, KAGGLE, 0.0, w.ladder.reals, t.reals);
  }

  lemma AskedKeeps(k: Kernel, cfg: LadderConfig, w: LadderWorld, env: ProposalEnvelope, cut: nat, rejectedFirst: bool)
    requires IsFeTask(k) && LadderInv(cfg, w) && UnderTest(w.db, env.artifact.id)
    ensures var req := RequestIn(k, w.db, env, rejectedFirst);
      LadderInv(cfg, w.(ladder := LadderDispatch(cfg, w.ladder, req).0))
      && LadderInv(cfg, w.(ladder := CutShort(cfg, w.ladder, req, cut)))
  {
    hide LadderDispatch, CutShort, Sound;
    var req := RequestIn(k, w.db, env, rejectedFirst);
    DispatchTouches(cfg, w.ladder, req, cut);
    var s, t := LadderDispatch(cfg, w.ladder, req).0, CutShort(cfg, w.ladder, req, cut);
    UntestedHonest(w.db, w.ladder.proxies, s.proxies, PROXY, cfg.margin, env.artifact.id);
    UntestedHonest(w.db, w.ladder.reals, s.reals, KAGGLE, 0.0, env.artifact.id);
    UntestedHonest(w.db, w.ladder.proxies, t.proxies, PROXY, cfg.margin, env.artifact.id);
    UntestedHonest(w.db, w.ladder.reals, t.reals, KAGGLE, 0.0, env.artifact.id);
  }

  lemma HandOffKeeps(k: Kernel, cfg: LadderConfig, w: LadderWorld, env: ProposalEnvelope, stage: Stage, cut: nat,
                     rejectedFirst: bool, now: Timestamp)
    requires IsFeTask(k) && LadderInv(cfg, w) && env.artifact.id in w.db.artifacts
    ensures LadderInv(cfg, LadderHandOff(k, cfg, w, env, stage, cut, rejectedFirst, now))
  {
    hide LadderInv, LadderDispatch, CutShort, Committed, RequestIn, Exhausted, Admit, UnderTest, IsFeTask;
    if stage != LinkedOnly && Admit(w.db, env.artifact.id, k.gated.Keys, k.identity).Ok? {
      AdmittedUnderTest(k, w.db, env.artifact.id);
      AskedKeeps(k, cfg, w, env, cut, rejectedFirst);
      var reply := LadderDispatch(cfg, w.ladder, RequestIn(k, w.db, env, rejectedFirst)).1;
      var exhausted := Exhausted(k, w.db, env.operation);
      var next := Committed(w.db, env.artifact.id, k.gated.Keys, k.identity, reply, exhausted, now);
      if next.Ok? { LandedKeeps(k, cfg, w, env, rejectedFirst, exhausted, now, next.value); }
    }
  }

  lemma ProposeKeeps(cfg: LadderConfig, w: LadderWorld, a: Artifact, op: Operation, next: Db)
    requires LadderInv(cfg, w) && ProposeRow(w.db, a, op) == Ok(next)
    ensures LadderInv(cfg, w.(db := next))
  {
    ProposedEvolves(w.db, a, op, next);
    FrameKeeps(cfg, w, next);
  }

  lemma ApproachKeeps(k: Kernel, cfg: LadderConfig, w: LadderWorld, env: ProposalEnvelope, stage: Stage, now: Timestamp)
    requires LadderInv(cfg, w)
    ensures LadderInv(cfg, w.(db := Approached(k, w.db, env, stage, now).db))
  {
    hide LadderInv, ShapeError, Taken;
    if stage != Untouched && ShapeError(k, env).None? {
      var a, op := StampedArtifact(Taken(k, env), now), StampedOperation(env.operation, now);
      var d1 := ProposeRow(w.db, a, op);
      if d1.Ok? {
        ProposeKeeps(cfg, w, a, op, d1.value);
        LinkKeeps(cfg, w.(db := d1.value), env.operation, env.artifact.id);
      }
    }
  }

  lemma LinkKeeps(cfg: LadderConfig, w: LadderWorld, op: Operation, newId: Id)
    requires LadderInv(cfg, w)
    ensures Linked(w.db, op, newId).Ok? ==> LadderInv(cfg, w.(db := Linked(w.db, op, newId).value))
  {
    var next := Linked(w.db, op, newId);
    if next.Ok? && next.value != w.db {
      LinkedEvolves(w.db, op.parents[0], newId, next.value);
      FrameKeeps(cfg, w, next.value);
    }
  }

  lemma RestartKeeps(cfg: LadderConfig, w: LadderWorld)
    requires LadderInv(cfg, w)
    ensures LadderInv(cfg, w.(ladder := Forget(w.ladder)))
  {
  }

  lemma FailureKeeps(cfg: LadderConfig, w: LadderWorld, row: CycleFailure)
    requires LadderInv(cfg, w)
    ensures LadderInv(cfg, w.(db := FailureRow(w.db, row)))
  {
    FrameKeeps(cfg, w, FailureRow(w.db, row));
  }

  lemma LadderStepKeeps(k: Kernel, cfg: LadderConfig, w: LadderWorld, e: LadderEvent)
    requires IsFeTask(k) && LadderInv(cfg, w)
    ensures LadderInv(cfg, LadderStep(k, cfg, w, e))
  {
    hide LadderInv, LadderHandOff, Approached;
    match e
    case Restarted =>
      RestartKeeps(cfg, w);
    case SeedRow(a, op, stamp) =>
      var next := ProposeRow(w.db, StampedArtifact(a, stamp), StampedOperation(op, stamp));
      if next.Ok? { ProposeKeeps(cfg, w, StampedArtifact(a, stamp), StampedOperation(op, stamp), next.value); }
    case CycleDropped(row) =>
      FailureKeeps(cfg, w, row);
    case Attempt(env, stage, cut, rejectedFirst, now) =>
      ApproachKeeps(k, cfg, w, env, stage, now);
      var reached := Approached(k, w.db, env, stage, now);
      if reached.AtGate? {
        HandOffKeeps(k, cfg, w.(db := reached.db), env, stage, cut, rejectedFirst, now);
      }
  }

  lemma {:induction false} LadderRunKeeps(k: Kernel, cfg: LadderConfig, w: LadderWorld, run: seq<LadderEvent>)
    requires IsFeTask(k) && LadderInv(cfg, w)
    ensures LadderInv(cfg, LadderRunFrom(k, cfg, w, run))
    decreases |run|
  {
    if run != [] {
      LadderStepKeeps(k, cfg, w, run[0]);
      LadderRunKeeps(k, cfg, LadderStep(k, cfg, w, run[0]), run[1..]);
    }
  }

  lemma FreshInv(cfg: LadderConfig, feed: Feed)
    ensures LadderInv(cfg, Fresh(feed))
  {
    assert forall id :: GateScores(EMPTY_DB.decisions, id) == map[];
  }

  // ------------------------------------------------------------------ the promises

  /** Along supersession both scores rise: after every run, restarts and failures included, at most
      one submission is accepted, and from every submission that was ever accepted one finite chain
      of replacements leads to it, the proxy rising by more than the margin and the public score
      strictly at every link. */
  lemma BothScoresRise(k: Kernel, cfg: LadderConfig, feed: Feed, run: seq<LadderEvent>, id: Id) returns (path: seq<Id>)
    requires IsFeTask(k) && cfg.margin >= 0.0
    requires Reigned(LadderRunFrom(k, cfg, Fresh(feed), run).db, SUBMISSION, id)
    ensures var db := LadderRunFrom(k, cfg, Fresh(feed), run).db;
      && (forall x, y | IsAccepted(db, SUBMISSION, x) && IsAccepted(db, SUBMISSION, y) :: x == y)
      && IsReign(db, SUBMISSION, KAGGLE, 0.0, path) && IsReign(db, SUBMISSION, PROXY, cfg.margin, path)
      && path[0] == id && IsAccepted(db, SUBMISSION, path[|path| - 1])
  {
    hide LadderRunFrom, OneBest, IsReign;
    FreshInv(cfg, feed);
    LadderRunKeeps(k, cfg, Fresh(feed), run);
    path := BothChains(LadderRunFrom(k, cfg, Fresh(feed), run).db, cfg.margin, id);
  }

  lemma BothChains(db: Db, margin: real, id: Id) returns (path: seq<Id>)
    requires OneBest(db, SUBMISSION, KAGGLE, 0.0) && OneBest(db, SUBMISSION, PROXY, margin)
    requires Reigned(db, SUBMISSION, id)
    ensures forall x, y | IsAccepted(db, SUBMISSION, x) && IsAccepted(db, SUBMISSION, y) :: x == y
    ensures IsReign(db, SUBMISSION, KAGGLE, 0.0, path) && IsReign(db, SUBMISSION, PROXY, margin, path)
    ensures path[0] == id && IsAccepted(db, SUBMISSION, path[|path| - 1])
  {
    path := ChainsEndAtIncumbent(db, SUBMISSION, KAGGLE, 0.0, id);
    forall i | 0 <= i < |path| - 1 ensures Replaced(db, SUBMISSION, PROXY, margin, path[i], path[i + 1]) {
      assert Replaced(db, SUBMISSION, KAGGLE, 0.0, path[i], path[i + 1]);
      ReignsRise(db, SUBMISSION, KAGGLE, 0.0, path, i, |path| - 1);
      assert Reigned(db, SUBMISSION, path[i]) && !IsAccepted(db, SUBMISSION, path[i]);
    }
  }

  /** The proposal reaches the board only by beating the store's own best: the proxy of the
      incumbent on record, or 0 while there is none. */
  ghost predicate BeatsStore(cfg: LadderConfig, w: LadderWorld, req: VerifierRequest) {
    var run := HoldoutRun(cfg, w.ladder, req);
    && RunsThrough(cfg, run)
    && ProxyOf(cfg, run).Some?
    && ProxyOf(cfg, run).value > Base(w.db, SUBMISSION, PROXY) + cfg.margin
  }

  lemma BeatsLocallyIsBeatsStore(k: Kernel, cfg: LadderConfig, w: LadderWorld, env: ProposalEnvelope, rejectedFirst: bool)
    requires IsFeTask(k) && LadderInv(cfg, w) && UnderTest(w.db, env.artifact.id)
    ensures var req := RequestIn(k, w.db, env, rejectedFirst);
      BeatsLocally(cfg, w.ladder, req) <==> BeatsStore(cfg, w, req)
  {
    hide BestBy, Sound, RequestIn, Base;
    var req, id := RequestIn(k, w.db, env, rejectedFirst), env.artifact.id;
    assert req.proposal.id == id by { RequestsProposal(k, w.db, env, rejectedFirst); }
    var proxy := ProxyOf(cfg, HoldoutRun(cfg, w.ladder, req));
    if proxy.Some? {
      var proxies := w.ladder.proxies[id := proxy.value];
      UntestedHonest(w.db, w.ladder.proxies, proxies, PROXY, cfg.margin, id);
      BestIsIncumbent(k, w.db, env, rejectedFirst, proxies, PROXY, cfg.margin);
    }
  }

  lemma RequestsProposal(k: Kernel, db: Db, env: ProposalEnvelope, rejectedFirst: bool)
    requires Keyed(db) && env.artifact.id in db.artifacts
    ensures RequestIn(k, db, env, rejectedFirst).proposal.id == env.artifact.id
  {
  }

  /** Earned against the record: the attempt runs clean, beats the incumbent on record by more than
      the margin, is among the top of the board, regenerates, and finds budget. */
  ghost predicate EarnedOnRecord(cfg: LadderConfig, w: LadderWorld, req: VerifierRequest) {
    var s := w.ladder;
    && BeatsStore(cfg, w, req)
    && s.feed.boards != [] && s.feed.boards[0].Some?
    && AmongTheTop(cfg, s, req, ProxyOf(cfg, HoldoutRun(cfg, s, req)).value, s.feed.boards[0].value)
    && RealRun(cfg, s, req).Some? && LeavesFile(RealRun(cfg, s, req).value)
    && exists n: nat :: FreesAt(cfg, s.feed.budgets, 0.0, n)
  }

  /** No submission is ever wasted: at any point of any run, whatever the process has forgotten, a
      handoff spends one submission when it is earned on the record and not cut before the hard rung,
      and none otherwise. */
  lemma EverySubmissionEarned(k: Kernel, cfg: LadderConfig, feed: Feed, run: seq<LadderEvent>, env: ProposalEnvelope,
                              stage: Stage, cut: nat, rejectedFirst: bool, now: Timestamp)
    requires IsFeTask(k) && stage in {RanOnly, Judged, Landed}
    requires Approached(k, LadderRunFrom(k, cfg, Fresh(feed), run).db, env, stage, now).AtGate?
    requires var w := LadderRunFrom(k, cfg, Fresh(feed), run);
      Admit(Approached(k, w.db, env, stage, now).db, env.artifact.id, k.gated.Keys, k.identity).Ok?
    ensures var w := LadderRunFrom(k, cfg, Fresh(feed), run);
      var at := w.(db := Approached(k, w.db, env, stage, now).db);
      var req := RequestIn(k, at.db, env, rejectedFirst);
      var after := LadderStep(k, cfg, w, Attempt(env, stage, cut, rejectedFirst, now));
      && w.ladder.calls <= after.ladder.calls
      && SpentIn(after.ladder.calls[|w.ladder.calls|..])
         == if (stage == RanOnly ==> cut >= 4) && EarnedOnRecord(cfg, at, req) then 1 else 0
  {
    hide LadderDispatch, RequestIn, LadderInv, EarnedOnRecord, Earned, Approached, Committed, Admit, SpentIn, CutShort;
    var w := LadderRunFrom(k, cfg, Fresh(feed), run);
    FreshInv(cfg, feed);
    LadderRunKeeps(k, cfg, Fresh(feed), run);
    ApproachKeeps(k, cfg, w, env, stage, now);
    var at := w.(db := Approached(k, w.db, env, stage, now).db);
    AdmittedUnderTest(k, at.db, env.artifact.id);
    var req := RequestIn(k, at.db, env, rejectedFirst);
    EarnedIsOnRecord(k, cfg, at, env, rejectedFirst);
    SpendsOneExactlyWhenEarned(cfg, at.ladder, req);
    var after := LadderStep(k, cfg, w, Attempt(env, stage, cut, rejectedFirst, now));
    assert after.ladder == if stage == RanOnly then CutShort(cfg, at.ladder, req, cut) else LadderDispatch(cfg, at.ladder, req).0;
    CutIs(cfg, at.ladder, req, cut);
    if cut < 4 { CutSpendsNothing(cfg, at.ladder, req, cut); }
  }

  lemma CutIs(cfg: LadderConfig, s: LadderState, req: VerifierRequest, cut: nat)
    ensures CutShort(cfg, s, req, cut) ==
      if cut < 4 then Climb(LadderSteps(cfg)[..cut], s, req, []).0 else LadderDispatch(cfg, s, req).0
  {
    hide Climb;
  }

  lemma EarnedIsOnRecord(k: Kernel, cfg: LadderConfig, w: LadderWorld, env: ProposalEnvelope, rejectedFirst: bool)
    requires IsFeTask(k) && LadderInv(cfg, w) && UnderTest(w.db, env.artifact.id)
    ensures var req := RequestIn(k, w.db, env, rejectedFirst);
      Earned(cfg, w.ladder, req) <==> EarnedOnRecord(cfg, w, req)
  {
    hide BeatsLocally, BeatsStore, AmongTheTop, FreesAt, RequestIn, LadderInv, UnderTest;
    BeatsLocallyIsBeatsStore(k, cfg, w, env, rejectedFirst);
  }

  // ------------------------------------------------------------------ what a restart forgets

  /** The mean offset of the measured pairs. */
  ghost function MeanOffset(s: LadderState): real
    requires Measured(s.proxies, s.reals) != []
  {
    var ids := Measured(s.proxies, s.reals);
    Offsets(s.proxies, s.reals, ids) / |ids| as real
  }

  /** The competitive rung, unlike the other two, is not restart transparent: its calibration lives
      in the process alone. A restart leaves the estimate of every proxy alone exactly when too few
      pairs had been measured to be used, or their mean offset is the pessimism anyway; with no pair
      asked for, exactly when none had been measured. */
  lemma RestartKeepsEstimateExactlyWhen(cfg: LadderConfig, s: LadderState)
    ensures var ids, t := Measured(s.proxies, s.reals), Forget(s);
      (forall proxy :: Estimate(cfg, t.proxies, t.reals, proxy) == Estimate(cfg, s.proxies, s.reals, proxy)) <==>
        if cfg.minPoints <= 0 then ids == []
        else |ids| < cfg.minPoints || MeanOffset(s) == -cfg.pessimism
  {
    var ids, t := Measured(s.proxies, s.reals), Forget(s);
    assert t.reals.Keys * t.proxies.Keys == {};
    assert Measured(t.proxies, t.reals) == [];
    if cfg.minPoints > 0 && |ids| >= cfg.minPoints {
      var proxy := 0.5 - MeanOffset(s);
      hide Measured, Offsets;
      assert Estimate(cfg, s.proxies, s.reals, proxy) == Some(Clamp(0.5));
      assert Estimate(cfg, t.proxies, t.reals, proxy) == Some(Clamp(proxy - cfg.pessimism));
      forall p | MeanOffset(s) == -cfg.pessimism
        ensures Estimate(cfg, t.proxies, t.reals, p) == Estimate(cfg, s.proxies, s.reals, p)
      {
        assert Estimate(cfg, s.proxies, s.reals, p) == Some(Clamp(p + MeanOffset(s)));
      }
    } else if cfg.minPoints <= 0 {
      assert Estimate(cfg, t.proxies, t.reals, 0.5).None?;
      if ids != [] { assert Estimate(cfg, s.proxies, s.reals, 0.5).Some?; }
    } else {
      forall p ensures Estimate(cfg, t.proxies, t.reals, p) == Estimate(cfg, s.proxies, s.reals, p) {}
    }
  }

  /** One measured pair is enough to show it. */
  lemma CalibrationIsForgotten(cfg: LadderConfig, s: LadderState)
    requires cfg.minPoints == 1 && cfg.pessimism == 0.0
    requires s.proxies == map["a" := 0.5] && s.reals == map["a" := 0.25]
    ensures Estimate(cfg, s.proxies, s.reals, 0.5) == Some(0.25)
    ensures Estimate(cfg, Forget(s).proxies, Forget(s).reals, 0.5) == Some(0.5)
  {
    assert s.reals.Keys * s.proxies.Keys == {"a"};
    var ids := Measured(s.proxies, s.reals);
    assert |ids| == 1 && ids[0] in ids;
    assert ids == ["a"] && ids[..0] == [];
    assert Offsets(s.proxies, s.reals, ids) == -0.25;
    assert Forget(s).reals.Keys * Forget(s).proxies.Keys == {};
    assert Measured(Forget(s).proxies, Forget(s).reals) == [];
  }
}
