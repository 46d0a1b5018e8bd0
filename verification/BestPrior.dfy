/** How far the claim "best accepted equals best prior of any status" goes, and that a run of the
    task is a run of the kernel. */
module BestPrior {

  import opened Contracts
  import opened Tables
  import opened Commit
  import opened Pipeline
  import opened Scoring
  import opened SubmissionGates
  import opened Intake
  import opened KernelRuns
  import opened Incumbency
  import opened FeRuns

  /** No submission of whatever status has a recorded score above the incumbent's (0 if none). */
  ghost predicate Coincides(db: Db) {
    forall id | id in db.artifacts && db.artifacts[id].atype == SUBMISSION && ScoreOf(db, SELECTION, id).Some? ::
      ScoreOf(db, SELECTION, id).value <= Base(db, SUBMISSION, SELECTION)
  }

  /** The score this run puts on record, if it gets as far as being scored. */
  ghost function Recorded(cfg: FeConfig, run: Option<RunResult>): Option<real> {
    if RunnableVerdict(cfg, run).verdict.kind == Reject then None else Measure(cfg, run)
  }

  lemma RecordedScore(cfg: FeConfig, db: Db, next: Db, a: Artifact, run: Option<RunResult>, exhausted: bool, now: Timestamp)
    requires !cfg.acceptAlways && DecisionsSettled(db) && UnderTest(db, a.id)
    requires Settles(db, next, a, ExpectedReply(cfg, db, run).bundle, exhausted, now)
    ensures ScoreOf(next, SELECTION, a.id) == Recorded(cfg, run)
  {
    hide Settles, GateScores, Measure, BarIn, OneBest, Incumbent;
    ScoresAfter(db, next, a, ExpectedReply(cfg, db, run).bundle, exhausted, now);
    RowsScore(a.id, DecisionOf(RUNS_CLEAN, RunnableVerdict(cfg, run).verdict),
      DecisionOf(SELECTION, HardRuling(cfg, db, run)), now);
  }

  /** After one landed verdict the two bests are one exactly when it was accepted, or they were one
      before and the new score, if any, is not above the incumbent. An accept brings them together
      whatever came before. */
  lemma CoincidesAfterExactlyWhen(cfg: FeConfig, db: Db, next: Db, a: Artifact, run: Option<RunResult>,
                                  exhausted: bool, now: Timestamp, g: GateState)
    requires FullInv(cfg, World(db, g)) && Improving(cfg)
    requires UnderTest(db, a.id) && db.artifacts[a.id] == a
    requires Settles(db, next, a, ExpectedReply(cfg, db, run).bundle, exhausted, now)
    ensures var score := Recorded(cfg, run);
      Coincides(next) <==>
        || (score.Some? && score.value > BarIn(cfg, db))
        || (Coincides(db) && !(score.Some? && Base(db, SUBMISSION, SELECTION) < score.value <= BarIn(cfg, db)))
  {
    hide Settles, ExpectedReply, Measure, RunnableVerdict, GateScores, FullInv;
    FullHasParts(cfg, World(db, g));
    RecordedScore(cfg, db, next, a, run, exhausted, now);
    AcceptImproves(cfg, db, run, a.id, now);
    LandingKeepsBest(cfg, db, next, a, run, exhausted, now, g);
    var b := ExpectedReply(cfg, db, run).bundle;
    RulingOf(cfg, db, run);
    ScoresAfter(db, next, a, b, exhausted, now);
    NewBase(cfg, db, next, a, run, exhausted, now, g);
    forall id | id != a.id
      ensures (id in next.artifacts && next.artifacts[id].atype == SUBMISSION && ScoreOf(next, SELECTION, id).Some?)
        <==> (id in db.artifacts && db.artifacts[id].atype == SUBMISSION && ScoreOf(db, SELECTION, id).Some?)
    {
      ScoredIsStored(db, id);
      if id in db.artifacts { SameType(db, next, a, b, exhausted, now, id); }
    }
    SameType(db, next, a, b, exhausted, now, a.id);
    UnscoredUnderTest(db, a.id);
    OldUnderBar(cfg, db, g);
    BaseUnderBar(cfg, db);
    if Coincides(next) && !(Recorded(cfg, run).Some? && Recorded(cfg, run).value > BarIn(cfg, db)) {
      forall id | id in db.artifacts && db.artifacts[id].atype == SUBMISSION && ScoreOf(db, SELECTION, id).Some?
        ensures ScoreOf(db, SELECTION, id).value <= Base(db, SUBMISSION, SELECTION)
      {
        assert id != a.id && ScoreOf(next, SELECTION, id) == ScoreOf(db, SELECTION, id);
      }
    }
  }

  lemma UnscoredUnderTest(db: Db, id: Id)
    requires DecisionsSettled(db) && UnderTest(db, id)
    ensures ScoreOf(db, SELECTION, id).None?
  {
    NoRowsNoScores(db.decisions, id);
  }

  lemma OldUnderBar(cfg: FeConfig, db: Db, g: GateState)
    requires FullInv(cfg, World(db, g)) && Improving(cfg)
    ensures NoneAboveBar(cfg, db)
  {
  }

  lemma SameType(db: Db, next: Db, a: Artifact, b: VerdictBundle, exhausted: bool, now: Timestamp, id: Id)
    requires Settles(db, next, a, b, exhausted, now) && id in db.artifacts
    ensures id in next.artifacts && next.artifacts[id].atype == db.artifacts[id].atype
  {
    if id != a.id && !(b.status == Accepted && b.supersedes == Some(id)) {
      assert next.artifacts[id] == db.artifacts[id];
    }
  }

  lemma BaseUnderBar(cfg: FeConfig, db: Db)
    requires Improving(cfg)
    ensures Base(db, SUBMISSION, SELECTION) <= BarIn(cfg, db)
  {
    assert cfg.deflation * TrialsIn(db) as real >= 0.0;
  }

  lemma RulingOf(cfg: FeConfig, db: Db, run: Option<RunResult>)
    requires !cfg.acceptAlways
    ensures ExpectedReply(cfg, db, run).Verdict?
    ensures ExpectedReply(cfg, db, run).bundle.status == Accepted <==>
      Recorded(cfg, run).Some? && Recorded(cfg, run).value > BarIn(cfg, db)
    ensures Recorded(cfg, run).Some? ==> Recorded(cfg, run) == Measure(cfg, run)
  {
  }

  lemma NewBase(cfg: FeConfig, db: Db, next: Db, a: Artifact, run: Option<RunResult>, exhausted: bool,
                now: Timestamp, g: GateState)
    requires FullInv(cfg, World(db, g)) && Improving(cfg)
    requires UnderTest(db, a.id) && db.artifacts[a.id] == a
    requires Settles(db, next, a, ExpectedReply(cfg, db, run).bundle, exhausted, now)
    ensures Base(next, SUBMISSION, SELECTION) ==
      if Recorded(cfg, run).Some? && Recorded(cfg, run).value > BarIn(cfg, db) then Recorded(cfg, run).value
      else Base(db, SUBMISSION, SELECTION)
  {
    hide Settles, Measure, RunnableVerdict, GateScores, ExpectedReply, Base, BarIn;
    RulingOf(cfg, db, run);
    LandingKeepsBest(cfg, db, next, a, run, exhausted, now, g);
    if ExpectedReply(cfg, db, run).bundle.status == Accepted {
      IncumbentIs(next, SUBMISSION, SELECTION, cfg.margin, a.id);
    } else {
      BaseStays(cfg, db, next, a, ExpectedReply(cfg, db, run).bundle, exhausted, now);
    }
  }

  /** A concrete miss: with a margin of one half, the first submission gets one of two classes
      right, scores one half, and is rejected, so the best prior score is above the best accepted. */
  lemma MarginSplitsTheBests(db: Db, runner: (Bytes, Option<Bytes>) -> RunResult)
    requires Incumbent(db, SUBMISSION).None?
    ensures var cfg := FeConfig(TWO, 0.5, 0.0, false, runner);
      var run := Some(RunResult(0, false, "", Some([("1", "x"), ("2", "x")])));
      && Recorded(cfg, run) == Some(0.5)
      && ExpectedReply(cfg, db, run).bundle.status == Rejected
      && 0.5 > Base(db, SUBMISSION, SELECTION)
  {
    hide RowMap, Labels, Score, Covers;
    TwoRows();
    HalfRight();
    assert "1" in BOTH_X && "2" in BOTH_X && BOTH_X != map[];
    assert Covers(TWO, BOTH_X) by { BothCovered(); }
  }

  const TWO: Truth := [("1", "x"), ("2", "y")]
  const BOTH_X: map<string, string> := map["1" := "x", "2" := "x"]

  lemma BothCovered()
    ensures Covers(TWO, BOTH_X)
  {
  }

  lemma TwoRows()
    ensures RowMap([("1", "x"), ("2", "x")]) == BOTH_X
  {
    var rows := [("1", "x"), ("2", "x")];
    assert rows[..1] == [("1", "x")] && rows[..1][..0] == [];
    assert RowMap(rows[..1][..0]) == map[] && RowMap(rows[..1]) == map["1" := "x"];
  }

  lemma TwoClasses()
    ensures Labels(TWO) == ["x", "y"]
  {
    assert TWO[..1] == [("1", "x")] && TWO[..1][..0] == [];
    assert Labels(TWO[..1][..0]) == [] && Labels(TWO[..1]) == ["x"];
    assert "y" !in ["x"] by { assert "y"[0] != "x"[0]; }
  }

  lemma TwoCounts()
    ensures Total(TWO, "x") == 1 && Total(TWO, "y") == 1
    ensures Correct(TWO, BOTH_X, "x") == 1 && Correct(TWO, BOTH_X, "y") == 0
  {
    assert "x" != "y" && "1" != "2" by { assert "y"[0] != "x"[0] && "1"[0] != "2"[0]; }
    assert TWO[..1] == [("1", "x")] && TWO[..1][..0] == [];
    assert Total(TWO[..1][..0], "x") == 0 && Total(TWO[..1], "x") == 1;
    assert Total(TWO[..1][..0], "y") == 0 && Total(TWO[..1], "y") == 0;
    assert Correct(TWO[..1][..0], BOTH_X, "x") == 0 && Correct(TWO[..1], BOTH_X, "x") == 1;
    assert Correct(TWO[..1][..0], BOTH_X, "y") == 0 && Correct(TWO[..1], BOTH_X, "y") == 0;
  }

  /** One of two classes right. */
  lemma HalfRight()
    ensures Score(TWO, BOTH_X) == 0.5
  {
    TwoClasses();
    TwoCounts();
    hide Labels, Total, Correct;
    assert "x" in Labels(TWO) && "y" in Labels(TWO);
    assert ["x", "y"][..1] == ["x"] && ["x"][..0] == [];
    assert RecallSum(TWO, BOTH_X, ["x"][..0]) == 0.0;
    assert RecallSum(TWO, BOTH_X, ["x"]) == 1.0;
    assert RecallSum(TWO, BOTH_X, ["x", "y"]) == 1.0;
  }

  // ------------------------------------------------------------------ the task is a kernel run

  /** The kernel event behind one event of the task: the submission with the verifier's reply, cut
      where the stage says it stopped. */
  ghost function KernelEvent(k: Kernel, cfg: FeConfig, w: World, e: FeEvent): Option<Event> {
    match e
    case Restart => None
    case Seeded(a, op, stamp) => Some(Seed(a, op, stamp))
    case CycleLost(row) => Some(CycleFailed(row))
    case Offer(env, stage, rejectedFirst, now) =>
      var reply := FeStep(k, cfg, w, e).1;
      var stop := match stage
        case Untouched => 0
        case RecordedOnly => 1
        case Landed => 3
        case _ => 2;
      Some(Submit(env, if reply.Some? then reply.value else NO_REPLY, [], now, stop))
  }

  /** Every step of the task is a step of the kernel on the tables, so everything proved of kernel
      runs (histories, the refine cap, the audit) holds of the task's runs too. */
  lemma TaskStepIsKernelStep(k: Kernel, cfg: FeConfig, w: World, e: FeEvent)
    ensures FeStep(k, cfg, w, e).0.db ==
      if KernelEvent(k, cfg, w, e).None? then w.db else After(k, w.db, KernelEvent(k, cfg, w, e).value)
  {
    hide FeDispatch, Committed, ShapeError, HarvestTrace, Exhausted, RequestIn, Runnable, Taken;
    if e.Offer? {
      OfferIsSubmit(k, cfg, w, e);
    }
  }

  lemma OfferIsSubmit(k: Kernel, cfg: FeConfig, w: World, e: FeEvent)
    requires e.Offer?
    ensures FeStep(k, cfg, w, e).0.db == After(k, w.db, KernelEvent(k, cfg, w, e).value)
  {
    hide FeDispatch, ShapeError, HarvestTrace, Exhausted, RequestIn, Runnable, Land;
    var event := KernelEvent(k, cfg, w, e).value;
    var full := SubmitTrace(k, w.db, e.env, event.reply, [], e.now);
    assert Taken(k, e.env).id == e.env.artifact.id;
    var reached := Approached(k, w.db, e.env, e.stage, e.now);
    if reached.AtGate? {
      var rest := CommitTrace(k, reached.db, Taken(k, e.env), e.env.operation, event.reply, [], e.now);
      assert full[2] == reached.db && full[3..] == rest && |full| == 3 + |rest|;
      assert rest != [] ==> full[3] == rest[0];
    }
  }
}
