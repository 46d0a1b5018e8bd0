/** Whose record a background run leaves, told from the order of submissions and starts. */
module RunRecords {

  import opened Contracts
  import opened RunIdentity

  /** No other run of the task is submitted strictly between the two steps. */
  ghost predicate Undisturbed(events: seq<Event>, task: Id, i: nat, k: nat) {
    forall m | i < m < k && m < |events| :: !(events[m].Submit? && events[m].task == task)
  }

  /** Step `k` starts a body. */
  ghost predicate Starts(states: seq<Service>, events: seq<Event>, k: nat) {
    && k < |events| && k < |states| && events[k].Begin?
    && states[k].lock.None? && states[k].waiting != []
  }

  ghost function StartedAt(states: seq<Service>, events: seq<Event>, k: nat): Id
    requires Starts(states, events, k)
  {
    states[k].waiting[0]
  }

  /** Run `r` has returned or was recorded as aborted under the id it ran under. */
  ghost predicate RecordedIt(s: Service, r: Id) {
    r in s.phases && s.phases[r].Over? && s.phases[r].how != Escapes
  }

  // ------------------------------------------------------------------ what stays as it is

  lemma PhaseStep(tenants: map<Id, string>, s: Service, e: Event, next: Service, r: Id)
    requires Inv(tenants, s) && Takes(tenants, s, e, next) && r in s.phases
    ensures r in next.phases && r in s.runTasks && r in next.runTasks && next.runTasks[r] == s.runTasks[r]
    ensures s.phases[r].Over? ==> next.phases[r] == s.phases[r]
    ensures s.phases[r].Running? ==> !next.phases[r].Waiting? && next.phases[r].captured == s.phases[r].captured
    ensures s.phases[r].Waiting? && !next.phases[r].Waiting? ==>
      && e.Begin? && s.lock.None? && s.waiting != [] && s.waiting[0] == r
      && s.runTasks[r] in s.cells && next.phases[r] == Running(s.cells[s.runTasks[r]])
  {
    hide JobsFollow, Captures, RecordsFollow, NoLater, Recorded;
    InFlight(s, r);
    if e.End? && s.lock.Some? { assert s.phases[s.lock.value].Running?; }
    if e.Begin? && s.waiting != [] {
      Head(s);
      PhaseAt(s, Started(s));
    }
  }

  /** A body keeps the id it started under. */
  lemma {:induction false} CapturedKept(tenants: map<Id, string>, states: seq<Service>, events: seq<Event>, k: nat, m: nat, r: Id)
    requires Executes(tenants, states, events) && states[0] == IDLE && k <= m < |states|
    requires r in states[k].phases && !states[k].phases[r].Waiting?
    ensures r in states[m].phases && !states[m].phases[r].Waiting?
    ensures states[m].phases[r].captured == states[k].phases[r].captured
    decreases m - k
  {
    hide Inv, Takes;
    if k < m {
      CapturedKept(tenants, states, events, k, m - 1, r);
      Reachable(tenants, states, events, m - 1);
      assert Takes(tenants, states[m - 1], events[m - 1], states[m - 1 + 1]);
      PhaseStep(tenants, states[m - 1], events[m - 1], states[m], r);
    }
  }

  /** Every body that has started did so at some step, under the id its cell held then. */
  lemma {:induction false} StartOf(tenants: map<Id, string>, states: seq<Service>, events: seq<Event>, m: nat, r: Id)
    returns (k: nat)
    requires Executes(tenants, states, events) && states[0] == IDLE && m < |states|
    requires r in states[m].phases && !states[m].phases[r].Waiting?
    ensures k < m && Starts(states, events, k) && StartedAt(states, events, k) == r
    ensures r in states[k].runTasks && states[k].runTasks[r] in states[k].cells
    ensures states[m].phases[r].captured == states[k].cells[states[k].runTasks[r]]
    decreases m
  {
    hide Inv, Takes;
    assert m > 0;
    Reachable(tenants, states, events, m - 1);
    assert Takes(tenants, states[m - 1], events[m - 1], states[m - 1 + 1]);
    NewPhase(tenants, states[m - 1], events[m - 1], states[m], r);
    PhaseStep(tenants, states[m - 1], events[m - 1], states[m], r);
    if states[m - 1].phases[r].Waiting? {
      k := m - 1;
    } else {
      k := StartOf(tenants, states, events, m - 1, r);
    }
  }

  lemma NewPhase(tenants: map<Id, string>, s: Service, e: Event, next: Service, r: Id)
    requires Inv(tenants, s) && Takes(tenants, s, e, next) && r in next.phases && !next.phases[r].Waiting?
    ensures r in s.phases
  {
    hide JobsFollow, Captures, RecordsFollow, NoLater, Recorded;
    if e.Begin? && s.waiting != [] { Head(s); }
  }

  // ------------------------------------------------------------------ what a body runs under

  /** The step that submits a run of `task`. */
  ghost predicate SubmitsRun(tenants: map<Id, string>, events: seq<Event>, i: nat) {
    i < |events| && events[i].Submit? && events[i].task in tenants
  }

  /** A body of the task runs under the id of a run exactly when it starts after the submission of
      that run and before the next one of the task. */
  lemma RunsUnderExactlyWhen(tenants: map<Id, string>, states: seq<Service>, events: seq<Event>, i: nat, k: nat)
    requires Executes(tenants, states, events) && states[0] == IDLE && SubmitsRun(tenants, events, i)
    requires Starts(states, events, k)
    requires var x := StartedAt(states, events, k);
      x in states[k].runTasks && states[k].runTasks[x] == events[i].task
    ensures var x, t := StartedAt(states, events, k), events[i].task;
      && t in states[k].cells
      && (states[k].cells[t] == events[i].runId <==> i < k && Undisturbed(events, t, i, k))
  {
    hide Inv, Takes;
    var x, t, r := StartedAt(states, events, k), events[i].task, events[i].runId;
    Reachable(tenants, states, events, k);
    Reachable(tenants, states, events, i);
    CellsNamed(tenants, states[k], x);
    assert Takes(tenants, states[i], events[i], states[i + 1]);
    SubmitSets(tenants, states[i], events[i], states[i + 1]);
    if i < k {
      if Undisturbed(events, t, i, k) {
        CellKept(tenants, states, events, i + 1, k, t);
      } else {
        var m :| i < m < k && m < |events| && events[m].Submit? && events[m].task == t;
        StaysInFlight(tenants, states, events, i + 1, m, r);
        CellMoved(tenants, states, events, m, k, t, r);
      }
    } else if states[k].cells[t] == r {
      StaysInFlight(tenants, states, events, k, i, r);
    }
  }

  lemma CellsNamed(tenants: map<Id, string>, s: Service, x: Id)
    requires Inv(tenants, s) && s.waiting != [] && s.waiting[0] == x
    ensures x in s.runTasks && s.runTasks[x] in s.cells && s.cells[s.runTasks[x]] in s.inflight
  {
    hide JobsFollow, Captures, RecordsFollow, NoLater;
    Head(s);
  }

  lemma SubmitSets(tenants: map<Id, string>, s: Service, e: Event, next: Service)
    requires Takes(tenants, s, e, next) && e.Submit? && e.task in tenants
    ensures e.runId !in s.inflight && e.runId in next.inflight
    ensures e.task in next.cells && next.cells[e.task] == e.runId
    ensures e.runId in next.runTasks && next.runTasks[e.runId] == e.task && e.runId in next.phases
  {
    hide JobQueue.ClaimNext;
  }

  lemma {:induction false} TaskKept(tenants: map<Id, string>, states: seq<Service>, events: seq<Event>, i: nat, m: nat, r: Id)
    requires Executes(tenants, states, events) && states[0] == IDLE && i <= m < |states| && r in states[i].phases
    ensures r in states[m].phases && r in states[m].runTasks && r in states[i].runTasks
    ensures states[m].runTasks[r] == states[i].runTasks[r]
    decreases m - i
  {
    hide Inv, Takes;
    Reachable(tenants, states, events, i);
    TaskOf(tenants, states[i], r);
    if i < m {
      TaskKept(tenants, states, events, i, m - 1, r);
      Reachable(tenants, states, events, m - 1);
      assert Takes(tenants, states[m - 1], events[m - 1], states[m - 1 + 1]);
      PhaseStep(tenants, states[m - 1], events[m - 1], states[m], r);
    }
  }

  lemma TaskOf(tenants: map<Id, string>, s: Service, r: Id)
    requires Inv(tenants, s) && r in s.phases
    ensures r in s.runTasks && s.runTasks[r] in tenants
  {
    hide JobsFollow, Captures, RecordsFollow, NoLater;
    InFlight(s, r);
  }

  // ------------------------------------------------------------------ whose record it is

  /** Step `k` starts a body of the task that has by now recorded its run under the id submitted at
      step `i`. */
  ghost predicate RecordsFor(states: seq<Service>, events: seq<Event>, i: nat, k: nat, m: nat)
    requires i < |events| && events[i].Submit? && m < |states|
  {
    && i < k < m && Starts(states, events, k) && Undisturbed(events, events[i].task, i, k)
    && StartedAt(states, events, k) in states[k].runTasks
    && states[k].runTasks[StartedAt(states, events, k)] == events[i].task
    && RecordedIt(states[m], StartedAt(states, events, k))
  }

  /** A finished run is without a record under its own id exactly when it returned, and no body of
      its task that has finished with a record started between its submission and the next one of
      the task. */
  lemma RecordLostExactlyWhen(tenants: map<Id, string>, states: seq<Service>, events: seq<Event>, i: nat, m: nat)
    requires Executes(tenants, states, events) && states[0] == IDLE && SubmitsRun(tenants, events, i)
    requires i < m < |states|
    requires events[i].runId in states[m].phases && states[m].phases[events[i].runId].Over?
    ensures var r, t, s := events[i].runId, events[i].task, states[m];
      (tenants[t], r) !in s.records <==>
        s.phases[r].how == Completes && forall k: nat :: !RecordsFor(states, events, i, k, m)
  {
    hide Inv, Takes, Executes, Starts, Undisturbed;
    var r, t, s := events[i].runId, events[i].task, states[m];
    OwnTask(tenants, states, events, i, m);
    RecordExactlyWhen(tenants, states, events, m, r);
    forall k: nat | RecordsFor(states, events, i, k, m)
      ensures RecordedIt(s, StartedAt(states, events, k)) && s.phases[StartedAt(states, events, k)].captured == r
    {
      StartedUnder(tenants, states, events, i, k, m);
    }
    if exists x :: RecordedIt(s, x) && s.phases[x].captured == r {
      var x :| RecordedIt(s, x) && s.phases[x].captured == r;
      var k := StartFor(tenants, states, events, i, m, x);
    }
  }

  lemma OwnTask(tenants: map<Id, string>, states: seq<Service>, events: seq<Event>, i: nat, m: nat)
    requires Executes(tenants, states, events) && states[0] == IDLE && SubmitsRun(tenants, events, i) && i < m < |states|
    ensures events[i].runId in states[m].runTasks && states[m].runTasks[events[i].runId] == events[i].task
  {
    hide Inv, Takes;
    assert Takes(tenants, states[i], events[i], states[i + 1]);
    SubmitSets(tenants, states[i], events[i], states[i + 1]);
    TaskKept(tenants, states, events, i + 1, m, events[i].runId);
  }

  lemma StartedUnder(tenants: map<Id, string>, states: seq<Service>, events: seq<Event>, i: nat, k: nat, m: nat)
    requires Executes(tenants, states, events) && states[0] == IDLE && SubmitsRun(tenants, events, i) && m < |states|
    requires RecordsFor(states, events, i, k, m)
    ensures states[m].phases[StartedAt(states, events, k)].captured == events[i].runId
  {
    hide Inv, Takes;
    var x := StartedAt(states, events, k);
    RunsUnderExactlyWhen(tenants, states, events, i, k);
    Reachable(tenants, states, events, k);
    WaitingHead(tenants, states[k]);
    assert Takes(tenants, states[k], events[k], states[k + 1]);
    BeginSets(tenants, states[k], states[k + 1]);
    CapturedKept(tenants, states, events, k + 1, m, x);
  }

  lemma WaitingHead(tenants: map<Id, string>, s: Service)
    requires Inv(tenants, s) && s.waiting != []
    ensures s.waiting[0] in s.phases && s.phases[s.waiting[0]].Waiting?
  {
    hide JobsFollow, Captures, RecordsFollow, Wired;
    Head(s);
    PhaseAt(s, Started(s));
  }

  lemma BeginSets(tenants: map<Id, string>, s: Service, next: Service)
    requires Takes(tenants, s, Begin, next) && s.lock.None? && s.waiting != []
    ensures s.waiting[0] in s.runTasks && s.runTasks[s.waiting[0]] in s.cells
    ensures s.waiting[0] in next.phases && next.phases[s.waiting[0]] == Running(s.cells[s.runTasks[s.waiting[0]]])
  {
  }

  lemma StartFor(tenants: map<Id, string>, states: seq<Service>, events: seq<Event>, i: nat, m: nat, x: Id)
    returns (k: nat)
    requires Executes(tenants, states, events) && states[0] == IDLE && SubmitsRun(tenants, events, i)
    requires i < m < |states| && RecordedIt(states[m], x) && states[m].phases[x].captured == events[i].runId
    ensures RecordsFor(states, events, i, k, m)
  {
    hide Inv, Takes;
    var r, t := events[i].runId, events[i].task;
    k := StartOf(tenants, states, events, m, x);
    Reachable(tenants, states, events, m);
    Reachable(tenants, states, events, k);
    WaitingHead(tenants, states[k]);
    TaskKept(tenants, states, events, k, m, x);
    OwnTask(tenants, states, events, i, m);
    SameTask(tenants, states[m], x);
    RunsUnderExactlyWhen(tenants, states, events, i, k);
  }

  lemma SameTask(tenants: map<Id, string>, s: Service, x: Id)
    requires Inv(tenants, s) && x in s.phases && !s.phases[x].Waiting?
    ensures x in s.runTasks && s.phases[x].captured in s.runTasks
    ensures s.runTasks[s.phases[x].captured] == s.runTasks[x]
  {
    hide JobsFollow, RecordsFollow, NoLater, Wired;
    InFlight(s, x);
  }

  /** In particular: when no other run of the task is submitted between the submission of a run and
      the start of its body, the run has a record once it is over, and the record is its own. */
  lemma UndisturbedRunsHaveTheirRecord(tenants: map<Id, string>, states: seq<Service>, events: seq<Event>,
                                       i: nat, k: nat, m: nat)
    requires Executes(tenants, states, events) && states[0] == IDLE && SubmitsRun(tenants, events, i)
    requires i < k < m < |states| && Starts(states, events, k) && StartedAt(states, events, k) == events[i].runId
    requires Undisturbed(events, events[i].task, i, k)
    requires events[i].runId in states[m].phases && states[m].phases[events[i].runId].Over?
    ensures var r, s := events[i].runId, states[m];
      && (tenants[events[i].task], r) in s.records
      && (s.phases[r].how != Escapes ==>
            s.records[(tenants[events[i].task], r)] == Entry(r, if s.phases[r].how == Completes then "complete" else "aborted"))
  {
    hide Inv, Takes, Executes, Starts, Undisturbed;
    var r := events[i].runId;
    OwnTask(tenants, states, events, i, m);
    OwnTask(tenants, states, events, i, k);
    RunsUnderExactlyWhen(tenants, states, events, i, k);
    UnderOwn(tenants, states, events, i, k, m);
    RecordExactlyWhen(tenants, states, events, m, r);
  }

  lemma UnderOwn(tenants: map<Id, string>, states: seq<Service>, events: seq<Event>, i: nat, k: nat, m: nat)
    requires Executes(tenants, states, events) && states[0] == IDLE && k < m < |states| && Starts(states, events, k)
    requires var x := StartedAt(states, events, k);
      x in states[k].runTasks && states[k].runTasks[x] in states[k].cells && states[k].cells[states[k].runTasks[x]] == x
    ensures var x := StartedAt(states, events, k);
      x in states[m].phases && !states[m].phases[x].Waiting? && states[m].phases[x].captured == x
  {
    hide Inv, Takes;
    Reachable(tenants, states, events, k);
    WaitingHead(tenants, states[k]);
    assert Takes(tenants, states[k], events[k], states[k + 1]);
    BeginSets(tenants, states[k], states[k + 1]);
    CapturedKept(tenants, states, events, k + 1, m, StartedAt(states, events, k));
  }
}
