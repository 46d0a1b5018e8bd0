/** Runs of one database connection, raised COMMITs included: what is durable and what the connection
    reads, after every unit of work, and what each of the two keeps. */
module Connections {

  import opened Contracts
  import opened Lifecycle
  import opened Tables
  import opened Store
  import opened Intake
  import opened KernelRuns
  import opened Audit

  /** The durable tables, and the tables this connection reads. */
  datatype Conn = Conn(committed: Db, working: Db)

  function ConnOf(store: SqliteStore): Conn
    reads store
  {
    Conn(store.committed, store.working)
  }

  /** A unit of work that lands, or whose COMMIT raises and leaves its writes pending. */
  ghost predicate Writes(k: Kernel, rule: Rule, s: Conn, t: Conn) {
    IsUnit(k, rule, s.working, t.working) && t.committed in {t.working, s.committed}
  }

  /** One thing that happens to the connection. A unit that raises before its COMMIT rolls back
      everything that is not durable, the writes an earlier COMMIT left pending included. */
  ghost predicate Step(k: Kernel, rule: Rule, s: Conn, t: Conn) {
    Writes(k, rule, s, t) || t == Conn(s.committed, s.committed)
  }

  ghost predicate ConnRun(k: Kernel, rule: Rule, states: seq<Conn>) {
    forall i | 0 <= i < |states| - 1 :: Step(k, rule, states[i], states[i + 1])
  }

  ghost predicate RunsFromTo(k: Kernel, rule: Rule, states: seq<Conn>, s: Conn, t: Conn) {
    states != [] && states[0] == s && states[|states| - 1] == t && ConnRun(k, rule, states)
  }

  /** Some run of units of work, raised COMMITs and rollbacks leads from `s` to `t`. */
  ghost predicate Reaches(k: Kernel, rule: Rule, s: Conn, t: Conn) {
    exists states :: RunsFromTo(k, rule, states, s, t)
  }

  lemma ReachesItself(k: Kernel, rule: Rule, s: Conn)
    ensures Reaches(k, rule, s, s)
  {
    assert RunsFromTo(k, rule, [s], s, s);
  }

  lemma StepReaches(k: Kernel, rule: Rule, s: Conn, t: Conn)
    requires Step(k, rule, s, t)
    ensures Reaches(k, rule, s, t)
  {
    assert RunsFromTo(k, rule, [s, t], s, t);
  }

  lemma ReachesOn(k: Kernel, rule: Rule, s: Conn, t: Conn, u: Conn)
    requires Reaches(k, rule, s, t) && Reaches(k, rule, t, u)
    ensures Reaches(k, rule, s, u)
  {
    hide Step;
    var a :| RunsFromTo(k, rule, a, s, t);
    var b :| RunsFromTo(k, rule, b, t, u);
    var all := a + b[1..];
    forall i | 0 <= i < |all| - 1 ensures Step(k, rule, all[i], all[i + 1]) {
      if i < |a| - 1 {
        assert Step(k, rule, a[i], a[i + 1]);
      } else {
        var j := i - |a| + 1;
        assert all[i] == b[j] && all[i + 1] == b[j + 1];
        assert Step(k, rule, b[j], b[j + 1]);
      }
    }
    assert RunsFromTo(k, rule, all, s, u);
  }

  /** What one transaction with effect `spec` leaves behind: its writes, durable or pending, or the
      durable tables, or nothing changed. */
  ghost predicate Leaves(spec: Result<Db, Failure>, s: Conn, t: Conn) {
    || t == s
    || t == Conn(s.committed, s.committed)
    || (spec == Ok(t.working) && t.committed in {t.working, s.committed})
  }

  lemma UnitReaches(k: Kernel, rule: Rule, u: Unit, spec: Result<Db, Failure>, s: Conn, t: Conn)
    requires Leaves(spec, s, t) && (spec.Ok? ==> Does(k, rule, s.working, u, spec.value))
    ensures Reaches(k, rule, s, t)
  {
    hide Does, Reaches;
    StepReaches(k, rule, s, t);
  }

  // ------------------------------------------------------------------ what only grows

  /** A path of the status table leads from one status to the other. */
  predicate Leads(from: Status, to: Status) {
    match from
    case Proposed => true
    case Tentative => to != Proposed
    case Accepted => to in {Accepted, Superseded}
    case _ => to == from
  }

  function LegalPath(from: Status, to: Status): seq<Status> {
    if from == to then [from]
    else if IsLegalTransition(from, to) then [from, to]
    else [from, Accepted, to]
  }

  lemma LeadsExactlyWhen(from: Status, to: Status)
    ensures Leads(from, to) <==> exists h :: h != [] && IsHistory(h) && h[0] == from && h[|h| - 1] == to
  {
    if Leads(from, to) {
      var h := LegalPath(from, to);
      assert IsHistory(h) && h[0] == from && h[|h| - 1] == to;
    }
    if h :| h != [] && IsHistory(h) && h[0] == from && h[|h| - 1] == to {
      HistoryLeads(h);
    }
  }

  lemma {:induction false} HistoryLeads(h: seq<Status>)
    requires h != [] && IsHistory(h)
    ensures Leads(h[0], h[|h| - 1])
  {
    if |h| > 1 {
      HistoryLeads(h[..|h| - 1]);
      assert h[|h| - 2] == h[|h| - 2 + 1] || IsLegalTransition(h[|h| - 2], h[|h| - 2 + 1]);
    }
  }

  predicate RowGrows(a: Artifact, b: Artifact) {
    && SameFixedColumns(a, b) && Leads(a.status, b.status)
    && (a.status == Superseded ==> b.supersededBy == a.supersededBy)
  }

  /** `next` has every row of `db`, each moved along the status table at most, and longer logs. */
  ghost predicate Grows(db: Db, next: Db) {
    && (forall id | id in db.artifacts :: id in next.artifacts && RowGrows(db.artifacts[id], next.artifacts[id]))
    && (forall o | o in db.operations :: o in next.operations && next.operations[o] == db.operations[o])
    && db.decisions <= next.decisions
    && db.failures <= next.failures
  }

  lemma EvolvesGrows(db: Db, next: Db)
    requires Evolves(db, next)
    ensures Grows(db, next)
  {
  }

  lemma GrowsOn(a: Db, b: Db, c: Db)
    requires Grows(a, b) && Grows(b, c)
    ensures Grows(a, c)
  {
    forall id | id in a.artifacts ensures id in c.artifacts && RowGrows(a.artifacts[id], c.artifacts[id]) {
      assert RowGrows(a.artifacts[id], b.artifacts[id]) && RowGrows(b.artifacts[id], c.artifacts[id]);
    }
  }

  /** What holds of a connection throughout: it reads everything durable. */
  ghost predicate Consistently(s: Conn) {
    Keyed(s.committed) && Keyed(s.working) && Grows(s.committed, s.working)
  }

  lemma GrowsItself(db: Db)
    ensures Grows(db, db)
  {
  }

  lemma UnitGrows(k: Kernel, rule: Rule, db: Db, next: Db)
    requires Keyed(db) && IsUnit(k, rule, db, next)
    ensures Keyed(next) && Grows(db, next)
  {
    hide Keyed, Evolves, Grows, IsUnit;
    UnitEvolves(k, rule, db, next);
    EvolvesGrows(db, next);
  }

  lemma StepGrows(k: Kernel, rule: Rule, s: Conn, t: Conn)
    requires Consistently(s) && Step(k, rule, s, t)
    ensures Consistently(t) && Grows(s.committed, t.committed)
  {
    hide Keyed, Grows, IsUnit;
    GrowsItself(s.committed);
    GrowsItself(t.committed);
    if Writes(k, rule, s, t) {
      UnitGrows(k, rule, s.working, t.working);
      GrowsOn(s.committed, s.working, t.working);
    }
  }

  lemma {:induction false} RunGrows(k: Kernel, rule: Rule, states: seq<Conn>, i: nat, j: nat)
    requires ConnRun(k, rule, states) && i <= j < |states| && Consistently(states[0])
    ensures Consistently(states[i]) && Consistently(states[j])
    ensures Grows(states[i].committed, states[j].committed)
    decreases j
  {
    hide Consistently, Grows, Step;
    if i < j {
      RunGrows(k, rule, states, i, j - 1);
      assert Step(k, rule, states[j - 1], states[j - 1 + 1]);
      StepGrows(k, rule, states[j - 1], states[j]);
      GrowsOn(states[i].committed, states[j - 1].committed, states[j].committed);
    } else {
      GrowsItself(states[i].committed);
      if i > 0 {
        RunGrows(k, rule, states, i - 1, i - 1);
        assert Step(k, rule, states[i - 1], states[i - 1 + 1]);
        StepGrows(k, rule, states[i - 1], states[i]);
      }
    }
  }

  /** Over every run of the connection, whatever raises, COMMITs included: what was once durable is
      durable in every later state with the same fixed columns, its status has moved along a path of
      the table, a terminal status is for ever, and the logs only grow. The connection itself always
      reads everything that is durable. */
  lemma DurableIsForEver(k: Kernel, states: seq<Conn>, i: nat, j: nat, id: Id)
    requires ConnRun(k, AnyProposal, states) && i <= j < |states| && states[0] == Conn(EMPTY_DB, EMPTY_DB)
    requires id in states[i].committed.artifacts
    ensures id in states[j].committed.artifacts && id in states[j].working.artifacts
    ensures SameFixedColumns(states[i].committed.artifacts[id], states[j].committed.artifacts[id])
    ensures exists h :: (h != [] && IsHistory(h) && h[0] == states[i].committed.artifacts[id].status
      && h[|h| - 1] == states[j].committed.artifacts[id].status)
    ensures IsTerminal(states[i].committed.artifacts[id].status) ==>
      states[j].committed.artifacts[id].status == states[i].committed.artifacts[id].status
    ensures states[i].committed.decisions <= states[j].committed.decisions
    ensures states[i].committed.failures <= states[j].committed.failures
  {
    hide Step;
    assert Consistently(states[0]);
    RunGrows(k, AnyProposal, states, i, j);
    var before, after := states[i].committed.artifacts[id], states[j].committed.artifacts[id];
    assert RowGrows(before, after);
    LeadsExactlyWhen(before.status, after.status);
  }

  // ------------------------------------------------------------------ what the connection itself reads

  /** The connection reads something an earlier COMMIT failed to make durable: a row, a status or a
      log entry. A pointer to a revision alone is not counted. */
  ghost predicate Pending(s: Conn) {
    || s.working.artifacts.Keys != s.committed.artifacts.Keys
    || (exists id | id in s.committed.artifacts ::
          id in s.working.artifacts && s.working.artifacts[id].status != s.committed.artifacts[id].status)
    || s.working.operations.Keys != s.committed.operations.Keys
    || |s.working.decisions| != |s.committed.decisions|
    || |s.working.failures| != |s.committed.failures|
  }

  lemma PendingExactlyWhen(s: Conn)
    requires Consistently(s)
    ensures Grows(s.working, s.committed) <==> !Pending(s)
  {
    var w, c := s.working, s.committed;
    if Grows(w, c) {
      assert forall id | id in c.artifacts :: RowGrows(c.artifacts[id], w.artifacts[id]) && RowGrows(w.artifacts[id], c.artifacts[id]);
    }
    if !Pending(s) {
      forall id | id in w.artifacts ensures id in c.artifacts && RowGrows(w.artifacts[id], c.artifacts[id]) {
        assert RowGrows(c.artifacts[id], w.artifacts[id]);
      }
      forall o | o in w.operations ensures o in c.operations && c.operations[o] == w.operations[o] {
        assert o in c.operations.Keys;
      }
      assert w.decisions == c.decisions && w.failures == c.failures;
    }
  }

  /** What the connection reads grows in every step but a rollback that takes pending writes with it. */
  lemma WorkingGrowsExactlyWhen(k: Kernel, rule: Rule, s: Conn, t: Conn)
    requires Consistently(s) && Step(k, rule, s, t)
    ensures Grows(s.working, t.working) <==> !(t.working == s.committed && Pending(s))
  {
    hide Pending, Grows, IsUnit, Keyed;
    PendingExactlyWhen(s);
    if Writes(k, rule, s, t) { UnitGrows(k, rule, s.working, t.working); }
  }

  /** Over a whole run, so do its working tables exactly when no rollback takes pending writes. */
  lemma WorkingOnlyGrowsExactlyWhen(k: Kernel, states: seq<Conn>)
    requires ConnRun(k, AnyProposal, states) && states != [] && states[0] == Conn(EMPTY_DB, EMPTY_DB)
    ensures (forall i | 0 <= i < |states| - 1 :: Grows(states[i].working, states[i + 1].working))
      <==> (forall i | 0 <= i < |states| - 1 ::
              !(states[i + 1].working == states[i].committed && Pending(states[i])))
  {
    hide Pending, Grows, Step, Consistently;
    EmptyIsConsistent();
    forall i | 0 <= i < |states| - 1
      ensures Grows(states[i].working, states[i + 1].working)
        <==> !(states[i + 1].working == states[i].committed && Pending(states[i]))
    {
      RunGrows(k, AnyProposal, states, i, i);
      assert Step(k, AnyProposal, states[i], states[i + 1]);
      WorkingGrowsExactlyWhen(k, AnyProposal, states[i], states[i + 1]);
    }
  }

  lemma EmptyIsConsistent()
    ensures Consistently(Conn(EMPTY_DB, EMPTY_DB))
  {
  }

  /** That happens: a proposal whose COMMIT raises is read by the connection as recorded, and the
      next unit that raises takes it away again, without a trace. */
  lemma PendingRowsVanish(k: Kernel, a: Artifact, op: Operation) returns (states: seq<Conn>)
    requires a.status == Proposed
    ensures ConnRun(k, AnyProposal, states) && |states| == 3
    ensures states[0] == states[2] == Conn(EMPTY_DB, EMPTY_DB)
    ensures a.id in states[1].working.artifacts && op.opId in states[1].working.operations
    ensures Pending(states[1]) && !Grows(states[1].working, states[2].working)
  {
    var next := ProposeRow(EMPTY_DB, a, op).value;
    states := [Conn(EMPTY_DB, EMPTY_DB), Conn(EMPTY_DB, next), Conn(EMPTY_DB, EMPTY_DB)];
    ProposeIsUnit(k, AnyProposal, EMPTY_DB, a, op, next);
  }

  // ------------------------------------------------------------------ invariants of the units

  /** What every unit of work keeps holds of both tables of a connection, whatever raises. */
  lemma {:induction false} UnitInvariantsSurvive(k: Kernel, rule: Rule, P: Db -> bool, states: seq<Conn>, i: nat)
    requires forall db, next | P(db) && IsUnit(k, rule, db, next) :: P(next)
    requires ConnRun(k, rule, states) && i < |states| && P(states[0].committed) && P(states[0].working)
    ensures P(states[i].committed) && P(states[i].working)
  {
    hide IsUnit;
    if i > 0 {
      UnitInvariantsSurvive(k, rule, P, states, i - 1);
      assert Step(k, rule, states[i - 1], states[i - 1 + 1]);
    }
  }

  /** Raised COMMITs and rollbacks do not make an audit report anything: with resolving presets both
      tables audit empty in every state. */
  lemma ConnectionsAuditEmpty(k: Kernel, states: seq<Conn>, i: nat)
    requires ConnRun(k, PresetResolves, states) && i < |states| && states[0] == Conn(EMPTY_DB, EMPTY_DB)
    ensures AuditsEmpty(states[i].committed) && AuditsEmpty(states[i].working)
  {
    hide IsUnit;
    var P := (db: Db) => Kept(db);
    forall db, next | P(db) && IsUnit(k, PresetResolves, db, next) ensures P(next) {
      UnitKeepsEmpty(k, db, next);
    }
    UnitInvariantsSurvive(k, PresetResolves, P, states, i);
  }

  /** Where no COMMIT raises, the states of a connection are the states of an event run. */
  lemma UnitsAreConnRuns(k: Kernel, rule: Rule, run: seq<Event>) returns (states: seq<Conn>)
    requires ObeyingRun(k, rule, EMPTY_DB, run)
    ensures var visited := Visited(k, EMPTY_DB, run);
      |states| == |visited| && forall i | 0 <= i < |states| :: states[i] == Conn(visited[i], visited[i])
    ensures ConnRun(k, rule, states)
  {
    hide IsUnit;
    var visited := Visited(k, EMPTY_DB, run);
    RunIsUnits(k, rule, EMPTY_DB, run);
    states := seq(|visited|, i requires 0 <= i < |visited| => Conn(visited[i], visited[i]));
    forall i | 0 <= i < |states| - 1 ensures Step(k, rule, states[i], states[i + 1]) {
      assert IsUnit(k, rule, visited[i], visited[i + 1]);
    }
  }
}
