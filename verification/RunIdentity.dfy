/** Background runs: one lock, one queue, and one run-id cell a task shared by its runs. */
module RunIdentity {

  import opened Contracts
  import opened Ordering
  import opened JobQueue

  /** How a run body ends: its own record written as complete, written as aborted and raised, or
      raised without one. */
  datatype How = Completes | Aborts | Escapes

  datatype Phase = Waiting | Running(captured: Id) | Over(captured: Id, how: How)

  datatype Entry = Entry(writer: Id, status: string)

  /** `waiting` are the bodies queued at the run lock, first come first served. */
  datatype Service = Service(
    queue: Queue,
    runJobs: map<Id, Id>,
    runTasks: map<Id, Id>,
    cells: map<Id, Id>,
    inflight: seq<Id>,
    waiting: seq<Id>,
    lock: Option<Id>,
    phases: map<Id, Phase>,
    records: map<(string, Id), Entry>)

  /** One scheduling step. Between two awaits nothing else happens, so a submission, the start of a
      body (which reads the cell first) and its end are each one step. */
  datatype Event = Submit(task: Id, runId: Id, jobId: Id) | Begin | End(how: How)

  const IDLE := Service(EMPTY_QUEUE, map[], map[], map[], [], [], None, map[], map[])

  function FinalStatus(how: How): JobStatus {
    if how == Completes then Done else Failed
  }

  function RecordStatus(how: How): string {
    if how == Completes then "complete" else "aborted"
  }

  /** The records after run `r`, which ran under the id `captured`, ended. */
  function Recorded(records: map<(string, Id), Entry>, tenant: string, r: Id, captured: Id, how: How)
    : map<(string, Id), Entry>
  {
    var own := if how == Escapes then records else records[(tenant, captured) := Entry(r, RecordStatus(how))];
    if how != Completes && (tenant, r) !in own then own[(tenant, r) := Entry(r, RecordStatus(how))] else own
  }

  function Submitted(tenants: map<Id, string>, s: Service, task: Id, runId: Id, jobId: Id): Service
    requires task in tenants
  {
    s.(queue := ClaimNext(Enqueued(s.queue, Job(jobId, tenants[task], runId))).0,
       runJobs := s.runJobs[runId := jobId],
       runTasks := s.runTasks[runId := task],
       cells := s.cells[task := runId],
       inflight := s.inflight + [runId],
       waiting := s.waiting + [runId],
       phases := s.phases[runId := Waiting])
  }

  function Begun(s: Service): Service
    requires forall r | r in s.waiting :: r in s.runTasks && s.runTasks[r] in s.cells
  {
    if s.lock.Some? || s.waiting == [] then s
    else
      var r := s.waiting[0];
      s.(lock := Some(r), waiting := s.waiting[1..], phases := s.phases[r := Running(s.cells[s.runTasks[r]])])
  }

  predicate CanEnd(tenants: map<Id, string>, s: Service, r: Id) {
    && r in s.phases && s.phases[r].Running?
    && r in s.runTasks && s.runTasks[r] in tenants
    && r in s.runJobs && s.runJobs[r] in s.queue.states
  }

  function Ended(tenants: map<Id, string>, s: Service, how: How): Service
    requires s.lock.Some? ==> CanEnd(tenants, s, s.lock.value)
  {
    if s.lock.None? then s
    else
      var r := s.lock.value;
      var captured := s.phases[r].captured;
      s.(queue := WithStatus(s.queue, s.runJobs[r], FinalStatus(how)),
         lock := None,
         phases := s.phases[r := Over(captured, how)],
         records := Recorded(s.records, tenants[s.runTasks[r]], r, captured, how))
  }

  // ------------------------------------------------------------------ the invariant

  ghost function Pos(xs: seq<Id>, x: Id): (i: nat)
    requires x in xs
    ensures i < |xs| && xs[i] == x
  {
    var i :| 0 <= i < |xs| && xs[i] == x;
    i
  }

  ghost function Started(s: Service): int {
    |s.inflight| - |s.waiting|
  }

  /** Bodies start in the order of their submission, and at most one is running: the one that holds
      the lock, the last that started. */
  ghost predicate InOrder(s: Service) {
    && Distinct(s.inflight)
    && |s.waiting| <= |s.inflight| && s.waiting == s.inflight[Started(s)..]
    && (forall r :: r in s.phases <==> r in s.inflight)
    && (forall i | 0 <= i < Started(s) ::
          s.phases[s.inflight[i]].Over?
          || (i == Started(s) - 1 && s.phases[s.inflight[i]].Running? && s.lock == Some(s.inflight[i])))
    && (forall i | Started(s) <= i < |s.inflight| :: s.phases[s.inflight[i]].Waiting?)
    && (s.lock.Some? ==>
          (Started(s) > 0 && s.lock.value == s.inflight[Started(s) - 1] && s.phases[s.lock.value].Running?))
  }

  /** No later run of its task than the one its cell names. */
  ghost predicate NoLater(s: Service, r: Id) {
    && r in s.inflight && r in s.runTasks && s.runTasks[r] in s.cells
    && s.cells[s.runTasks[r]] in s.inflight
    && Pos(s.inflight, s.cells[s.runTasks[r]]) >= Pos(s.inflight, r)
  }

  /** Every run belongs to a task, whose cell holds the id of its latest submission. */
  ghost predicate Wired(tenants: map<Id, string>, s: Service) {
    && (forall r | r in s.inflight ::
          && r in s.runTasks && s.runTasks[r] in tenants && s.runTasks[r] in s.cells)
    && (forall t | t in s.cells :: s.cells[t] in s.inflight && s.cells[t] in s.runTasks && s.runTasks[s.cells[t]] == t)
    && (forall r | r in s.inflight :: NoLater(s, r))
  }

  /** Every run has a job of its own, in the state its body has reached. */
  ghost predicate JobsFollow(s: Service) {
    && s.queue.pending == []
    && (forall r :: r in s.runJobs <==> r in s.inflight)
    && (forall r | r in s.inflight :: s.runJobs[r] in s.queue.states)
    && (forall a, b | a in s.inflight && b in s.inflight && s.runJobs[a] == s.runJobs[b] :: a == b)
    && (forall r | r in s.inflight && r in s.phases :: s.queue.states[s.runJobs[r]].status ==
          if s.phases[r].Over? then FinalStatus(s.phases[r].how) else Claimed)
  }

  /** A body runs under the id of a run of its own task, submitted no earlier than itself. */
  ghost predicate Captures(s: Service) {
    forall r | r in s.inflight && r in s.phases && !s.phases[r].Waiting? ::
      var c := s.phases[r].captured;
      && c in s.inflight && r in s.runTasks && c in s.runTasks && s.runTasks[c] == s.runTasks[r]
      && Pos(s.inflight, c) >= Pos(s.inflight, r)
  }

  /** Run `r` left a record under the id `c`. */
  ghost predicate Leaves(tenants: map<Id, string>, s: Service, r: Id, tenant: string, c: Id) {
    && r in s.phases && s.phases[r].Over? && r in s.runTasks && s.runTasks[r] in tenants
    && tenants[s.runTasks[r]] == tenant
    && ((s.phases[r].how != Escapes && s.phases[r].captured == c) || (s.phases[r].how != Completes && r == c))
  }

  /** The records are what the finished bodies left; and a body that ran under its own id is the one
      whose record stands. */
  ghost predicate RecordsFollow(tenants: map<Id, string>, s: Service) {
    && (forall tenant, c :: (tenant, c) in s.records <==> exists r :: Leaves(tenants, s, r, tenant, c))
    && (forall r | r in s.phases && s.phases[r].Over? && s.phases[r].captured == r && s.phases[r].how != Escapes
            && r in s.runTasks && s.runTasks[r] in tenants ::
          var key := (tenants[s.runTasks[r]], r);
          key in s.records && s.records[key] == Entry(r, RecordStatus(s.phases[r].how)))
  }

  ghost predicate Inv(tenants: map<Id, string>, s: Service) {
    InOrder(s) && Wired(tenants, s) && JobsFollow(s) && Captures(s) && RecordsFollow(tenants, s)
  }

  /** Ids come from sources that do not repeat. */
  ghost predicate FreshIds(s: Service, runId: Id, jobId: Id) {
    runId !in s.inflight && jobId !in s.queue.states && (forall r | r in s.runJobs :: s.runJobs[r] != jobId)
  }

  lemma PosKept(xs: seq<Id>, x: Id, y: Id)
    requires Distinct(xs + [y]) && x in xs
    ensures x in xs + [y] && Pos(xs + [y], x) == Pos(xs, x)
  {
    assert (xs + [y])[Pos(xs, x)] == x;
  }

  lemma PosAt(xs: seq<Id>, i: nat)
    requires Distinct(xs) && i < |xs|
    ensures Pos(xs, xs[i]) == i
  {
  }

  // ------------------------------------------------------------------ every step keeps it

  lemma SubmitOrder(tenants: map<Id, string>, s: Service, task: Id, runId: Id, jobId: Id)
    requires task in tenants && InOrder(s) && runId !in s.inflight
    ensures InOrder(Submitted(tenants, s, task, runId, jobId))
    ensures Started(Submitted(tenants, s, task, runId, jobId)) == Started(s)
  {
    hide ClaimNext, Enqueued, InOrder;
    OrderAppend(s, Submitted(tenants, s, task, runId, jobId), runId);
  }

  lemma OrderAppend(s: Service, next: Service, runId: Id)
    requires InOrder(s) && runId !in s.inflight && next.lock == s.lock
    requires next.inflight == s.inflight + [runId] && next.waiting == s.waiting + [runId]
    requires next.phases == s.phases[runId := Waiting]
    ensures InOrder(next) && Started(next) == Started(s)
  {
    hide Distinct;
    DistinctAppend(s.inflight, runId);
    var n, m := Started(s), |s.inflight|;
    assert next.waiting == next.inflight[n..];
    KeysAppend(s.phases, s.inflight, runId);
    forall i | 0 <= i <= m
      ensures i < m ==> next.inflight[i] == s.inflight[i] && next.phases[next.inflight[i]] == s.phases[s.inflight[i]]
      ensures i == m ==> next.inflight[i] == runId && next.phases[runId].Waiting?
    {
      if i < m { assert s.inflight[i] in s.inflight; }
    }
    assert n > 0 ==> s.inflight[n - 1] in s.inflight;
  }

  lemma KeysAppend(phases: map<Id, Phase>, xs: seq<Id>, x: Id)
    requires forall r :: r in phases <==> r in xs
    ensures forall r :: r in phases[x := Waiting] <==> r in xs + [x]
  {
  }

  lemma DistinctAppend(xs: seq<Id>, x: Id)
    requires Distinct(xs) && x !in xs
    ensures Distinct(xs + [x])
  {
  }

  lemma SubmitLatest(tenants: map<Id, string>, s: Service, task: Id, runId: Id, jobId: Id, r: Id)
    requires task in tenants && Distinct(s.inflight) && runId !in s.inflight
    requires r == runId || NoLater(s, r)
    ensures NoLater(Submitted(tenants, s, task, runId, jobId), r)
  {
    hide ClaimNext;
    var next := Submitted(tenants, s, task, runId, jobId);
    assert Distinct(next.inflight);
    PosAt(next.inflight, |s.inflight|);
    assert next.inflight[|s.inflight|] == runId && Pos(next.inflight, runId) == |s.inflight|;
    if r != runId {
      PosKept(s.inflight, r, runId);
      if s.runTasks[r] != task { PosKept(s.inflight, s.cells[s.runTasks[r]], runId); }
    }
  }

  lemma SubmitWired(tenants: map<Id, string>, s: Service, task: Id, runId: Id, jobId: Id)
    requires task in tenants && InOrder(s) && Wired(tenants, s) && runId !in s.inflight
    ensures Wired(tenants, Submitted(tenants, s, task, runId, jobId))
  {
    hide ClaimNext, NoLater;
    var next := Submitted(tenants, s, task, runId, jobId);
    forall r | r in next.inflight ensures NoLater(next, r) {
      assert r == runId || r in s.inflight;
      SubmitLatest(tenants, s, task, runId, jobId, r);
    }
  }

  lemma SubmitJobs(tenants: map<Id, string>, s: Service, task: Id, runId: Id, jobId: Id)
    requires task in tenants && InOrder(s) && JobsFollow(s) && FreshIds(s, runId, jobId)
    ensures JobsFollow(Submitted(tenants, s, task, runId, jobId))
    ensures ClaimNext(Enqueued(s.queue, Job(jobId, tenants[task], runId))).1 == Some(Job(jobId, tenants[task], runId))
  {
    hide ClaimNext, Enqueued, JobsFollow;
    var job := Job(jobId, tenants[task], runId);
    JobsPending(s);
    ClaimsOwn(s.queue, job);
    var next := Submitted(tenants, s, task, runId, jobId);
    hide InOrder;
    assert next.queue == Queue([], s.queue.states[jobId := JobState(job, Claimed)]);
    JobsAppend(s, next, runId, jobId, job);
  }

  lemma JobsPending(s: Service)
    requires JobsFollow(s)
    ensures s.queue.pending == []
  {
  }

  /** A new run with a claimed job of its own leaves the jobs of the others alone. */
  lemma JobsAppend(s: Service, next: Service, runId: Id, jobId: Id, job: Job)
    requires JobsFollow(s) && FreshIds(s, runId, jobId)
    requires next.queue == Queue([], s.queue.states[jobId := JobState(job, Claimed)])
    requires next.inflight == s.inflight + [runId] && next.runJobs == s.runJobs[runId := jobId]
    requires next.phases == s.phases[runId := Waiting]
    ensures JobsFollow(next)
  {
    assert forall r :: r in next.inflight <==> r in s.inflight || r == runId;
    assert forall r | r in next.inflight :: r == runId || (r in s.inflight && next.runJobs[r] == s.runJobs[r] != jobId);
    forall r | r in next.inflight && r in next.phases
      ensures next.queue.states[next.runJobs[r]].status == if next.phases[r].Over? then FinalStatus(next.phases[r].how) else Claimed
    {
      if r != runId { assert next.phases[r] == s.phases[r]; }
    }
  }

  lemma SubmitCaptures(tenants: map<Id, string>, s: Service, task: Id, runId: Id, jobId: Id)
    requires task in tenants && InOrder(s) && Wired(tenants, s) && Captures(s) && runId !in s.inflight
    ensures Captures(Submitted(tenants, s, task, runId, jobId))
  {
    hide ClaimNext;
    var next := Submitted(tenants, s, task, runId, jobId);
    SubmitOrder(tenants, s, task, runId, jobId);
    forall r | r in next.inflight && r in next.phases && !next.phases[r].Waiting?
      ensures next.phases[r].captured in next.inflight && r in next.runTasks && next.phases[r].captured in next.runTasks
        && next.runTasks[next.phases[r].captured] == next.runTasks[r]
        && Pos(next.inflight, next.phases[r].captured) >= Pos(next.inflight, r)
    {
      assert r in s.inflight;
      PosKept(s.inflight, r, runId);
      PosKept(s.inflight, s.phases[r].captured, runId);
    }
  }

  lemma SubmitRecords(tenants: map<Id, string>, s: Service, task: Id, runId: Id, jobId: Id)
    requires task in tenants && InOrder(s) && RecordsFollow(tenants, s) && runId !in s.inflight
    ensures RecordsFollow(tenants, Submitted(tenants, s, task, runId, jobId))
  {
    hide ClaimNext;
    var next := Submitted(tenants, s, task, runId, jobId);
    forall r, tenant, c ensures Leaves(tenants, next, r, tenant, c) <==> Leaves(tenants, s, r, tenant, c) {
    }
  }

  lemma SubmitKeeps(tenants: map<Id, string>, s: Service, task: Id, runId: Id, jobId: Id)
    requires Inv(tenants, s) && task in tenants && FreshIds(s, runId, jobId)
    ensures Inv(tenants, Submitted(tenants, s, task, runId, jobId))
  {
    hide InOrder, Wired, JobsFollow, Captures, RecordsFollow, Submitted;
    SubmitOrder(tenants, s, task, runId, jobId);
    SubmitWired(tenants, s, task, runId, jobId);
    SubmitJobs(tenants, s, task, runId, jobId);
    SubmitCaptures(tenants, s, task, runId, jobId);
    SubmitRecords(tenants, s, task, runId, jobId);
  }

  lemma CanStep(tenants: map<Id, string>, s: Service)
    requires Inv(tenants, s)
    ensures forall r | r in s.waiting :: r in s.runTasks && s.runTasks[r] in s.cells
    ensures s.lock.Some? ==> CanEnd(tenants, s, s.lock.value)
  {
    hide Captures, RecordsFollow, NoLater, Distinct;
    forall r | r in s.waiting ensures r in s.inflight {
      var i :| 0 <= i < |s.waiting| && s.waiting[i] == r;
      assert s.inflight[Started(s) + i] == r;
    }
  }

  lemma Head(s: Service)
    requires InOrder(s) && s.waiting != []
    ensures 0 <= Started(s) < |s.inflight| && s.waiting[0] == s.inflight[Started(s)]
    ensures s.waiting[1..] == s.inflight[Started(s) + 1..]
    ensures s.waiting[0] in s.inflight
    ensures forall i | 0 <= i < |s.inflight| && i != Started(s) :: s.inflight[i] != s.waiting[0]
  {
    var n := Started(s);
    assert s.waiting[0] == s.inflight[n..][0];
  }

  lemma PhaseAt(s: Service, i: nat)
    requires InOrder(s) && i < |s.inflight|
    ensures s.inflight[i] in s.phases
    ensures i >= Started(s) ==> s.phases[s.inflight[i]].Waiting?
    ensures i < Started(s) - 1 || (s.lock.None? && i < Started(s)) ==> s.phases[s.inflight[i]].Over?
    ensures s.lock.Some? && i == Started(s) - 1 ==> s.phases[s.inflight[i]].Running? && s.lock.value == s.inflight[i]
    ensures s.lock.Some? ==> Started(s) > 0
  {
    assert s.inflight[i] in s.inflight;
  }

  lemma BeginOrder(s: Service)
    requires InOrder(s) && s.lock.None? && s.waiting != []
    requires forall r | r in s.waiting :: r in s.runTasks && s.runTasks[r] in s.cells
    ensures s.waiting[0] == s.inflight[Started(s)]
    ensures InOrder(Begun(s)) && Started(Begun(s)) == Started(s) + 1
  {
    Head(s);
    var next, r, n := Begun(s), s.waiting[0], Started(s);
    assert Distinct(next.inflight) && Started(next) == n + 1;
    forall x ensures x in next.phases <==> x in next.inflight {}
    forall i | 0 <= i < |s.inflight|
      ensures i < n ==> next.phases[s.inflight[i]].Over?
      ensures i > n ==> next.phases[s.inflight[i]].Waiting?
    {
      PhaseAt(s, i);
    }
    assert next.phases[next.inflight[n]].Running?;
  }

  lemma EndOrder(tenants: map<Id, string>, s: Service, how: How)
    requires InOrder(s) && s.lock.Some? && CanEnd(tenants, s, s.lock.value)
    ensures InOrder(Ended(tenants, s, how)) && Started(Ended(tenants, s, how)) == Started(s)
  {
    hide Recorded;
    var next, n := Ended(tenants, s, how), Started(s);
    assert Distinct(next.inflight) && Started(next) == n;
    forall x ensures x in next.phases <==> x in next.inflight {}
    forall i | 0 <= i < |s.inflight|
      ensures i < n ==> next.phases[s.inflight[i]].Over?
      ensures i >= n ==> next.phases[s.inflight[i]].Waiting?
    {
      PhaseAt(s, i);
      if i != n - 1 { assert s.inflight[i] != s.inflight[n - 1]; }
    }
  }

  lemma BeginKeeps(tenants: map<Id, string>, s: Service)
    requires Inv(tenants, s) && s.lock.None? && s.waiting != []
    requires forall r | r in s.waiting :: r in s.runTasks && s.runTasks[r] in s.cells
    ensures Inv(tenants, Begun(s))
    ensures Begun(s).phases[s.waiting[0]] == Running(s.cells[s.runTasks[s.waiting[0]]])
  {
    hide InOrder, Wired, JobsFollow, Captures, RecordsFollow, Begun;
    BeginOrder(s);
    Head(s);
    PhaseAt(s, Started(s));
    BeginWired(tenants, s);
    BeginJobs(s);
    BeginCaptures(tenants, s);
    BeginRecords(tenants, s);
    assert Begun(s).phases[s.waiting[0]] == Running(s.cells[s.runTasks[s.waiting[0]]]) by { BeginRuns(s); }
  }

  lemma BeginRuns(s: Service)
    requires s.lock.None? && s.waiting != []
    requires forall r | r in s.waiting :: r in s.runTasks && s.runTasks[r] in s.cells
    ensures s.waiting[0] in Begun(s).phases
    ensures Begun(s).phases[s.waiting[0]] == Running(s.cells[s.runTasks[s.waiting[0]]])
  {
  }

  lemma BeginWired(tenants: map<Id, string>, s: Service)
    requires Wired(tenants, s) && s.lock.None? && s.waiting != []
    requires forall r | r in s.waiting :: r in s.runTasks && s.runTasks[r] in s.cells
    ensures Wired(tenants, Begun(s))
  {
    hide NoLater;
    forall x | x in s.inflight ensures NoLater(Begun(s), x) { LatestKept(s, Begun(s), x); }
  }

  lemma BeginJobs(s: Service)
    requires JobsFollow(s) && s.lock.None? && s.waiting != []
    requires s.waiting[0] in s.phases && s.phases[s.waiting[0]].Waiting?
    requires forall r | r in s.waiting :: r in s.runTasks && s.runTasks[r] in s.cells
    ensures JobsFollow(Begun(s))
  {
  }

  lemma BeginRecords(tenants: map<Id, string>, s: Service)
    requires RecordsFollow(tenants, s) && s.lock.None? && s.waiting != []
    requires s.waiting[0] in s.phases && s.phases[s.waiting[0]].Waiting?
    requires forall r | r in s.waiting :: r in s.runTasks && s.runTasks[r] in s.cells
    ensures RecordsFollow(tenants, Begun(s))
  {
    forall x, tenant, c ensures Leaves(tenants, Begun(s), x, tenant, c) <==> Leaves(tenants, s, x, tenant, c) {}
  }

  lemma LatestKept(s: Service, next: Service, r: Id)
    requires NoLater(s, r) && next.inflight == s.inflight && next.cells == s.cells && next.runTasks == s.runTasks
    ensures NoLater(next, r)
  {
  }

  lemma BeginCaptures(tenants: map<Id, string>, s: Service)
    requires Wired(tenants, s) && Captures(s) && s.lock.None? && s.waiting != []
    requires s.waiting[0] in s.inflight
    requires forall r | r in s.waiting :: r in s.runTasks && s.runTasks[r] in s.cells
    ensures Captures(Begun(s))
  {
    var next, r := Begun(s), s.waiting[0];
    assert NoLater(s, r);
    forall x | x in next.inflight && x in next.phases && !next.phases[x].Waiting?
      ensures next.phases[x].captured in next.inflight && x in next.runTasks && next.phases[x].captured in next.runTasks
        && next.runTasks[next.phases[x].captured] == next.runTasks[x]
        && Pos(next.inflight, next.phases[x].captured) >= Pos(next.inflight, x)
    {
      if x != r { assert next.phases[x] == s.phases[x]; }
    }
  }

  // ------------------------------------------------------------------ the end of a body

  /** Only bodies that started no later than run `r` can write under its id. */
  lemma LastWriter(s: Service, r: Id)
    requires InOrder(s) && Captures(s) && s.lock.Some?
    requires r in s.phases && s.phases[r].Over? && s.phases[r].captured == r
    ensures s.lock.value in s.phases && s.phases[s.lock.value].Running?
    ensures s.phases[s.lock.value].captured != r && s.lock.value != r
  {
    var b, n := s.lock.value, Started(s);
    PhaseAt(s, n - 1);
    PosAt(s.inflight, n - 1);
    var i := Pos(s.inflight, r);
    assert r in s.inflight;
    PhaseAt(s, i);
    assert i < n - 1;
  }

  lemma EndRecords(tenants: map<Id, string>, s: Service, how: How)
    requires InOrder(s) && Captures(s) && RecordsFollow(tenants, s)
    requires s.lock.Some? && CanEnd(tenants, s, s.lock.value)
    requires forall r | r in s.inflight :: r in s.runTasks && s.runTasks[r] in tenants
    ensures RecordsFollow(tenants, Ended(tenants, s, how))
  {
    hide InOrder, Captures, Distinct;
    var next, b := Ended(tenants, s, how), s.lock.value;
    var ten, c := tenants[s.runTasks[b]], s.phases[b].captured;
    forall tenant, x
      ensures (tenant, x) in next.records <==> exists r :: Leaves(tenants, next, r, tenant, x)
    {
      EndKeys(tenants, s, how, tenant, x);
    }
    forall r | r in next.phases && next.phases[r].Over? && next.phases[r].captured == r && next.phases[r].how != Escapes
        && r in next.runTasks && next.runTasks[r] in tenants
      ensures (tenants[next.runTasks[r]], r) in next.records
      ensures next.records[(tenants[next.runTasks[r]], r)] == Entry(r, RecordStatus(next.phases[r].how))
    {
      if r != b { LastWriter(s, r); }
    }
  }

  lemma EndKeys(tenants: map<Id, string>, s: Service, how: How, tenant: string, x: Id)
    requires RecordsFollow(tenants, s)
    requires s.lock.Some? && CanEnd(tenants, s, s.lock.value)
    ensures (tenant, x) in Ended(tenants, s, how).records
      <==> exists r :: Leaves(tenants, Ended(tenants, s, how), r, tenant, x)
  {
    var next, b := Ended(tenants, s, how), s.lock.value;
    forall r | r != b ensures Leaves(tenants, next, r, tenant, x) <==> Leaves(tenants, s, r, tenant, x) {}
    assert !Leaves(tenants, s, b, tenant, x);
    var added := (tenant, x) in next.records && (tenant, x) !in s.records;
    assert (tenant, x) in next.records <==> (tenant, x) in s.records || Leaves(tenants, next, b, tenant, x);
    if (tenant, x) in s.records {
      var r :| Leaves(tenants, s, r, tenant, x);
      assert Leaves(tenants, next, r, tenant, x);
    }
    if r :| Leaves(tenants, next, r, tenant, x) {
      if r != b { assert Leaves(tenants, s, r, tenant, x); }
    }
  }

  lemma EndKeeps(tenants: map<Id, string>, s: Service, how: How)
    requires Inv(tenants, s) && s.lock.Some? && CanEnd(tenants, s, s.lock.value)
    ensures Inv(tenants, Ended(tenants, s, how))
  {
    hide InOrder, Wired, JobsFollow, Captures, RecordsFollow, Recorded, Ended;
    InFlight(s, s.lock.value);
    EndOrder(tenants, s, how);
    WiredTasks(tenants, s);
    EndRecords(tenants, s, how);
    EndWired(tenants, s, how);
    EndJobs(tenants, s, how);
    EndCaptures(tenants, s, how);
  }

  lemma WiredTasks(tenants: map<Id, string>, s: Service)
    requires Wired(tenants, s)
    ensures forall r | r in s.inflight :: r in s.runTasks && s.runTasks[r] in tenants
  {
    hide NoLater;
  }

  lemma EndWired(tenants: map<Id, string>, s: Service, how: How)
    requires Wired(tenants, s) && s.lock.Some? && CanEnd(tenants, s, s.lock.value)
    ensures Wired(tenants, Ended(tenants, s, how))
  {
    hide NoLater, Recorded;
    var next := Ended(tenants, s, how);
    forall x | x in next.inflight ensures NoLater(next, x) { LatestKept(s, next, x); }
  }

  lemma EndJobs(tenants: map<Id, string>, s: Service, how: How)
    requires JobsFollow(s) && s.lock.Some? && CanEnd(tenants, s, s.lock.value) && s.lock.value in s.inflight
    ensures JobsFollow(Ended(tenants, s, how))
  {
    hide Recorded;
  }

  lemma EndCaptures(tenants: map<Id, string>, s: Service, how: How)
    requires Captures(s) && s.lock.Some? && CanEnd(tenants, s, s.lock.value) && s.lock.value in s.inflight
    ensures Captures(Ended(tenants, s, how))
  {
    hide Recorded, Pos;
  }

  lemma InFlight(s: Service, r: Id)
    requires InOrder(s) && r in s.phases
    ensures r in s.inflight
  {
  }

  // ------------------------------------------------------------------ whole executions

  ghost predicate Takes(tenants: map<Id, string>, s: Service, e: Event, next: Service) {
    match e
    case Submit(task, runId, jobId) =>
      if task in tenants then FreshIds(s, runId, jobId) && next == Submitted(tenants, s, task, runId, jobId)
      else next == s
    case Begin =>
      && (forall r | r in s.waiting :: r in s.runTasks && s.runTasks[r] in s.cells)
      && next == Begun(s)
    case End(how) =>
      && (s.lock.Some? ==> CanEnd(tenants, s, s.lock.value))
      && next == Ended(tenants, s, how)
  }

  ghost predicate Executes(tenants: map<Id, string>, states: seq<Service>, events: seq<Event>) {
    && |states| == |events| + 1
    && forall i | 0 <= i < |events| :: Takes(tenants, states[i], events[i], states[i + 1])
  }

  lemma StepKeeps(tenants: map<Id, string>, s: Service, e: Event, next: Service)
    requires Inv(tenants, s) && Takes(tenants, s, e, next)
    ensures Inv(tenants, next)
  {
    hide Inv, Submitted, Begun, Ended;
    match e
    case Submit(task, runId, jobId) =>
      if task in tenants { SubmitKeeps(tenants, s, task, runId, jobId); }
    case Begin =>
      if s.lock.None? && s.waiting != [] { BeginKeeps(tenants, s); } else { NothingToBegin(s); }
    case End(how) =>
      if s.lock.Some? { EndKeeps(tenants, s, how); } else { NothingToEnd(tenants, s, how); }
  }

  lemma NothingToBegin(s: Service)
    requires s.lock.Some? || s.waiting == []
    requires forall r | r in s.waiting :: r in s.runTasks && s.runTasks[r] in s.cells
    ensures Begun(s) == s
  {
  }

  lemma NothingToEnd(tenants: map<Id, string>, s: Service, how: How)
    requires s.lock.None?
    ensures Ended(tenants, s, how) == s
  {
  }

  lemma IdleInv(tenants: map<Id, string>)
    ensures Inv(tenants, IDLE)
  {
  }

  lemma {:induction false} Reachable(tenants: map<Id, string>, states: seq<Service>, events: seq<Event>, i: nat)
    requires Executes(tenants, states, events) && states[0] == IDLE && i < |states|
    ensures Inv(tenants, states[i])
  {
    if i == 0 {
      IdleInv(tenants);
    } else {
      Reachable(tenants, states, events, i - 1);
      StepKeeps(tenants, states[i - 1], events[i - 1], states[i - 1 + 1]);
    }
  }

  /** Run bodies never overlap, and they start in the order in which the runs were submitted. */
  lemma BodiesNeverOverlap(tenants: map<Id, string>, states: seq<Service>, events: seq<Event>, i: nat, a: Id, b: Id)
    requires Executes(tenants, states, events) && states[0] == IDLE && i < |states|
    requires a in states[i].phases && b in states[i].phases
    ensures states[i].phases[a].Running? && states[i].phases[b].Running? ==> a == b
    ensures a in states[i].inflight && b in states[i].inflight
    ensures Pos(states[i].inflight, a) < Pos(states[i].inflight, b) && !states[i].phases[b].Waiting? ==>
      !states[i].phases[a].Waiting? && (states[i].phases[a].Over? || a == b)
  {
    hide JobsFollow, Wired, Captures, RecordsFollow;
    Reachable(tenants, states, events, i);
    var s := states[i];
    InFlight(s, a);
    InFlight(s, b);
    PhaseAt(s, Pos(s.inflight, a));
    PhaseAt(s, Pos(s.inflight, b));
  }

  /** Nothing is submitted any more. */
  ghost predicate OnlyBodies(events: seq<Event>) {
    forall e | e in events :: e.Begin? || e.End?
  }

  /** What was over in `s` is as it was, and every other body ended as `hows` says of its place. */
  ghost predicate EndsAs(s: Service, t: Service, hows: nat -> How, i: nat)
    requires i < |s.inflight|
  {
    var r := s.inflight[i];
    && r in s.phases && r in t.phases && t.phases[r].Over?
    && (s.phases[r].Over? ==> t.phases[r] == s.phases[r])
    && (!s.phases[r].Over? ==> t.phases[r].how == hows(i))
    && (s.phases[r].Running? ==> t.phases[r].captured == s.phases[r].captured)
  }

  ghost predicate AllEnd(s: Service, t: Service, hows: nat -> How) {
    t.inflight == s.inflight && forall i: nat | i < |s.inflight| :: EndsAs(s, t, hows, i)
  }

  /** The job of a run that is over is done or failed: done exactly when the run returned. */
  ghost predicate JobSettled(s: Service, r: Id) {
    && r in s.phases && s.phases[r].Over?
    && r in s.runJobs && s.runJobs[r] in s.queue.states
    && s.queue.states[s.runJobs[r]].status == if s.phases[r].how == Completes then Done else Failed
  }

  ghost predicate AtRest(s: Service) {
    s.waiting == [] && s.lock.None?
  }

  lemma BeganEndsAs(s: Service, t: Service, hows: nat -> How)
    requires InOrder(s) && s.lock.None? && s.waiting != []
    requires forall r | r in s.waiting :: r in s.runTasks && s.runTasks[r] in s.cells
    requires AllEnd(Begun(s), t, hows)
    ensures AllEnd(s, t, hows)
  {
    var next := Begun(s);
    Head(s);
    PhaseAt(s, Started(s));
    forall i: nat | i < |s.inflight| ensures EndsAs(s, t, hows, i) {
      assert EndsAs(next, t, hows, i);
      PhaseAt(s, i);
    }
  }

  lemma EndedEndsAs(tenants: map<Id, string>, s: Service, t: Service, hows: nat -> How)
    requires InOrder(s) && s.lock.Some? && CanEnd(tenants, s, s.lock.value) && Started(s) > 0
    requires AllEnd(Ended(tenants, s, hows(Started(s) - 1)), t, hows)
    ensures AllEnd(s, t, hows)
  {
    hide Recorded;
    var n := Started(s) - 1;
    var next := Ended(tenants, s, hows(n));
    PhaseAt(s, n);
    forall i: nat | i < |s.inflight| ensures EndsAs(s, t, hows, i) {
      assert EndsAs(next, t, hows, i);
      PhaseAt(s, i);
    }
  }

  lemma RestEndsAs(s: Service, hows: nat -> How)
    requires InOrder(s) && AtRest(s)
    ensures AllEnd(s, s, hows)
  {
    forall i: nat | i < |s.inflight| ensures EndsAs(s, s, hows, i) { PhaseAt(s, i); }
  }

  lemma ExecutesFrom(tenants: map<Id, string>, s: Service, e: Event, states: seq<Service>, events: seq<Event>)
    requires Executes(tenants, states, events) && Takes(tenants, s, e, states[0])
    ensures Executes(tenants, [s] + states, [e] + events)
  {
    hide Takes;
    var longer, more := [s] + states, [e] + events;
    forall i | 0 <= i < |more| ensures Takes(tenants, longer[i], more[i], longer[i + 1]) {
      if i > 0 { assert Takes(tenants, states[i - 1], events[i - 1], states[i - 1 + 1]); }
    }
  }

  lemma OrderOf(tenants: map<Id, string>, s: Service)
    requires Inv(tenants, s)
    ensures InOrder(s) && (s.lock.Some? ==> Started(s) > 0)
  {
  }

  /** From every state of an execution the service comes to rest by starting and ending bodies alone,
      however each of them ends; then every job is settled: done exactly when its run returned. */
  lemma {:induction false} ComesToRest(tenants: map<Id, string>, s: Service, hows: nat -> How)
    returns (states: seq<Service>, events: seq<Event>)
    requires Inv(tenants, s)
    ensures Executes(tenants, states, events) && states[0] == s && OnlyBodies(events)
    ensures var t := states[|states| - 1];
      && Inv(tenants, t) && AtRest(t) && AllEnd(s, t, hows)
      && forall r | r in s.inflight :: JobSettled(t, r)
    decreases |s.waiting|, s.lock.Some?
  {
    hide Inv, AllEnd, Takes, EndsAs, JobSettled, Recorded;
    CanStep(tenants, s);
    OrderOf(tenants, s);
    if s.lock.Some? {
      var how := hows(Started(s) - 1);
      EndKeeps(tenants, s, how);
      var next := Ended(tenants, s, how);
      states, events := ComesToRest(tenants, next, hows);
      assert Takes(tenants, s, End(how), next) by { TakesEnd(tenants, s, how); }
      ExecutesFrom(tenants, s, End(how), states, events);
      EndedEndsAs(tenants, s, states[|states| - 1], hows);
      states, events := [s] + states, [End(how)] + events;
    } else if s.waiting != [] {
      BeginKeeps(tenants, s);
      states, events := ComesToRest(tenants, Begun(s), hows);
      assert Takes(tenants, s, Begin, Begun(s)) by { TakesBegin(tenants, s); }
      ExecutesFrom(tenants, s, Begin, states, events);
      BeganEndsAs(s, states[|states| - 1], hows);
      states, events := [s] + states, [Begin] + events;
    } else {
      RestEndsAs(s, hows);
      states, events := [s], [];
      forall r | r in s.inflight ensures JobSettled(s, r) { EveryJobEnds(tenants, s, r); }
    }
  }

  lemma TakesEnd(tenants: map<Id, string>, s: Service, how: How)
    requires s.lock.Some? && CanEnd(tenants, s, s.lock.value)
    ensures Takes(tenants, s, End(how), Ended(tenants, s, how))
  {
  }

  lemma TakesBegin(tenants: map<Id, string>, s: Service)
    requires forall r | r in s.waiting :: r in s.runTasks && s.runTasks[r] in s.cells
    ensures Takes(tenants, s, Begin, Begun(s))
  {
  }

  /** How many steps are left until rest. */
  ghost function StepsLeft(s: Service): nat {
    2 * |s.waiting| + if s.lock.Some? then 1 else 0
  }

  /** And it cannot fail to: whatever order the bodies' steps come in, each that does anything brings
      rest one step closer, and none does anything only at rest. */
  lemma {:induction false} RestIsInevitable(tenants: map<Id, string>, states: seq<Service>, events: seq<Event>)
    requires Executes(tenants, states, events) && OnlyBodies(events) && Inv(tenants, states[0])
    requires forall i | 0 <= i < |events| :: states[i + 1] != states[i]
    ensures |events| + StepsLeft(states[|states| - 1]) == StepsLeft(states[0])
    ensures |events| == StepsLeft(states[0]) <==> AtRest(states[|states| - 1])
    decreases |events|
  {
    hide Inv, Takes;
    if events != [] {
      assert Takes(tenants, states[0], events[0], states[0 + 1]) && states[0 + 1] != states[0];
      assert events[0] in events;
      StepKeeps(tenants, states[0], events[0], states[1]);
      OneStepCloser(tenants, states[0], events[0], states[1]);
      var later, rest := states[1..], events[1..];
      forall i | 0 <= i < |rest| ensures Takes(tenants, later[i], rest[i], later[i + 1]) && later[i + 1] != later[i] {
        assert Takes(tenants, states[i + 1], events[i + 1], states[i + 1 + 1]) && states[i + 1 + 1] != states[i + 1];
      }
      RestIsInevitable(tenants, later, rest);
    }
  }

  lemma OneStepCloser(tenants: map<Id, string>, s: Service, e: Event, next: Service)
    requires Takes(tenants, s, e, next) && (e.Begin? || e.End?) && next != s
    ensures StepsLeft(next) + 1 == StepsLeft(s)
  {
    hide Recorded, CanEnd;
  }

  /** At rest every submitted job is done or failed: done exactly when its run returned. */
  lemma EveryJobEnds(tenants: map<Id, string>, s: Service, r: Id)
    requires Inv(tenants, s) && s.waiting == [] && s.lock.None? && r in s.inflight
    ensures JobSettled(s, r)
  {
    hide Captures, RecordsFollow, Wired, Distinct;
    PhaseAt(s, Pos(s.inflight, r));
  }

  // ------------------------------------------------------------------ whose record it is

  lemma {:induction false} CellKept(tenants: map<Id, string>, states: seq<Service>, events: seq<Event>, i: nat, k: nat, t: Id)
    requires Executes(tenants, states, events) && i <= k < |states| && t in states[i].cells && t in tenants
    requires forall m | i <= m < k :: !(events[m].Submit? && events[m].task == t)
    ensures t in states[k].cells && states[k].cells[t] == states[i].cells[t]
    decreases k - i
  {
    if i < k {
      CellKept(tenants, states, events, i, k - 1, t);
      assert Takes(tenants, states[k - 1], events[k - 1], states[k - 1 + 1]);
      hide ClaimNext, Recorded;
    }
  }

  lemma {:induction false} CellMoved(tenants: map<Id, string>, states: seq<Service>, events: seq<Event>, m: nat, k: nat, t: Id, r: Id)
    requires Executes(tenants, states, events) && m < k < |states| && t in tenants
    requires events[m].Submit? && events[m].task == t && r in states[m].inflight
    ensures t in states[k].cells && states[k].cells[t] != r && r in states[k].inflight
    decreases k - m
  {
    hide ClaimNext, Recorded;
    assert Takes(tenants, states[k - 1], events[k - 1], states[k - 1 + 1]);
    if m + 1 < k {
      CellMoved(tenants, states, events, m, k - 1, t, r);
      if events[k - 1].Submit? && events[k - 1].task == t {
        assert events[k - 1].runId !in states[k - 1].inflight;
      }
    }
  }

  /** A run executes under its own id exactly when no other run of its task is submitted between its
      own submission and the start of its body. */
  lemma OwnIdExactlyWhen(tenants: map<Id, string>, states: seq<Service>, events: seq<Event>, i: nat, k: nat)
    requires Executes(tenants, states, events) && i < k < |events|
    requires events[i].Submit? && events[i].task in tenants
    requires events[k].Begin? && states[k].lock.None? && states[k].waiting != []
    requires states[k].waiting[0] == events[i].runId
    requires events[i].runId in states[k].runTasks && states[k].runTasks[events[i].runId] == events[i].task
    ensures var r := events[i].runId;
      && r in states[k + 1].phases && states[k + 1].phases[r].Running?
      && (states[k + 1].phases[r].captured == r <==>
            forall m | i < m < k :: !(events[m].Submit? && events[m].task == events[i].task))
  {
    hide ClaimNext, Recorded;
    var r, t := events[i].runId, events[i].task;
    assert Takes(tenants, states[i], events[i], states[i + 1]);
    assert Takes(tenants, states[k], events[k], states[k + 1]);
    assert states[i + 1].cells[t] == r && r in states[i + 1].inflight;
    if forall m | i < m < k :: !(events[m].Submit? && events[m].task == t) {
      CellKept(tenants, states, events, i + 1, k, t);
    } else {
      var m :| i < m < k && events[m].Submit? && events[m].task == t;
      StaysInFlight(tenants, states, events, i + 1, m, r);
      CellMoved(tenants, states, events, m, k, t, r);
    }
  }

  lemma {:induction false} StaysInFlight(tenants: map<Id, string>, states: seq<Service>, events: seq<Event>, i: nat, k: nat, r: Id)
    requires Executes(tenants, states, events) && i <= k < |states| && r in states[i].inflight
    ensures r in states[k].inflight
    decreases k - i
  {
    if i < k {
      hide ClaimNext, Recorded;
      StaysInFlight(tenants, states, events, i, k - 1, r);
      assert Takes(tenants, states[k - 1], events[k - 1], states[k - 1 + 1]);
    }
  }

  /** A finished run has a record under its own id exactly when it failed, or some finished run of
      the service ran under that id; in particular whenever it ran under its own id, and then the
      record is the one it wrote itself. */
  lemma RecordExactlyWhen(tenants: map<Id, string>, states: seq<Service>, events: seq<Event>, i: nat, r: Id)
    requires Executes(tenants, states, events) && states[0] == IDLE && i < |states|
    requires r in states[i].phases && states[i].phases[r].Over?
    ensures var s := states[i];
      && r in s.runTasks && s.runTasks[r] in tenants
      && ((tenants[s.runTasks[r]], r) in s.records <==>
            (s.phases[r].how != Completes
             || exists x :: x in s.phases && s.phases[x].Over? && s.phases[x].captured == r && s.phases[x].how != Escapes))
      && (s.phases[r].captured == r ==> (tenants[s.runTasks[r]], r) in s.records)
      && (s.phases[r].captured == r && s.phases[r].how != Escapes ==>
            s.records[(tenants[s.runTasks[r]], r)] == Entry(r, if s.phases[r].how == Completes then "complete" else "aborted"))
  {
    hide Inv, Executes;
    Reachable(tenants, states, events, i);
    RecordIff(tenants, states[i], r);
  }

  lemma RecordIff(tenants: map<Id, string>, s: Service, r: Id)
    requires Inv(tenants, s) && r in s.phases && s.phases[r].Over?
    ensures r in s.runTasks && s.runTasks[r] in tenants
    ensures (tenants[s.runTasks[r]], r) in s.records <==>
      (s.phases[r].how != Completes
       || exists x :: x in s.phases && s.phases[x].Over? && s.phases[x].captured == r && s.phases[x].how != Escapes)
    ensures s.phases[r].captured == r ==> (tenants[s.runTasks[r]], r) in s.records
    ensures s.phases[r].captured == r && s.phases[r].how != Escapes ==>
      s.records[(tenants[s.runTasks[r]], r)] == Entry(r, RecordStatus(s.phases[r].how))
  {
    hide InOrder, JobsFollow, NoLater, Pos;
    InFlight(s, r);
    var ten := tenants[s.runTasks[r]];
    if s.phases[r].how != Completes {
      assert Leaves(tenants, s, r, ten, r);
    }
    if x :| x in s.phases && s.phases[x].Over? && s.phases[x].captured == r && s.phases[x].how != Escapes {
      InFlight(s, x);
      assert Leaves(tenants, s, x, ten, r);
    }
    if (ten, r) in s.records {
      var x :| Leaves(tenants, s, x, ten, r);
    }
  }

  /** The condition is needed: two runs of one task submitted before either starts. The first body
      runs under the second id, and the first run is done without a record. */
  lemma SharedCellLosesARecord() returns (states: seq<Service>, events: seq<Event>)
    ensures Executes(ONE_TASK, states, events) && states[0] == IDLE
    ensures var s := states[|states| - 1];
      && "r1" in s.phases && s.phases["r1"] == Over("r2", Completes)
      && "r1" in s.runJobs && s.runJobs["r1"] in s.queue.states && s.queue.states[s.runJobs["r1"]].status == Done
      && ("default", "r1") !in s.records
      && ("default", "r2") in s.records && s.records[("default", "r2")].writer == "r1"
  {
    hide Takes, Submitted, Begun, Ended;
    FirstSubmit();
    SecondSubmit();
    FirstBegin();
    FirstEnd();
    states := [IDLE, ONE_WAITS, TWO_WAIT, ONE_RUNS, ONE_DONE];
    events := [Submit("t", "r1", "j1"), Submit("t", "r2", "j2"), Begin, End(Completes)];
    assert Takes(ONE_TASK, states[0], events[0], states[1]) && Takes(ONE_TASK, states[1], events[1], states[2]);
    assert Takes(ONE_TASK, states[2], events[2], states[3]) && Takes(ONE_TASK, states[3], events[3], states[4]);
    NamesDiffer();
  }

  const ONE_TASK: map<Id, string> := map["t" := "default"]
  const JOB_ONE := JobState(Job("j1", "default", "r1"), Claimed)
  const JOB_TWO := JobState(Job("j2", "default", "r2"), Claimed)

  const ONE_WAITS := Service(Queue([], map["j1" := JOB_ONE]), map["r1" := "j1"], map["r1" := "t"], map["t" := "r1"],
    ["r1"], ["r1"], None, map["r1" := Waiting], map[])

  const TWO_WAIT := Service(Queue([], map["j1" := JOB_ONE, "j2" := JOB_TWO]), map["r1" := "j1", "r2" := "j2"],
    map["r1" := "t", "r2" := "t"], map["t" := "r2"], ["r1", "r2"], ["r1", "r2"], None,
    map["r1" := Waiting, "r2" := Waiting], map[])

  const ONE_RUNS := TWO_WAIT.(waiting := ["r2"], lock := Some("r1"), phases := map["r1" := Running("r2"), "r2" := Waiting])

  const ONE_DONE := ONE_RUNS.(
    queue := Queue([], map["j1" := JOB_ONE.(status := Done), "j2" := JOB_TWO]),
    lock := None,
    phases := map["r1" := Over("r2", Completes), "r2" := Waiting],
    records := map[("default", "r2") := Entry("r1", "complete")])

  lemma NamesDiffer()
    ensures "r1" != "r2" && "j1" != "j2"
  {
    assert "r1"[1] != "r2"[1] && "j1"[1] != "j2"[1];
  }

  lemma FirstSubmit()
    ensures Takes(ONE_TASK, IDLE, Submit("t", "r1", "j1"), ONE_WAITS)
  {
    hide ClaimNext, Enqueued;
    ClaimsOwn(IDLE.queue, Job("j1", "default", "r1"));
    assert [] + ["r1"] == ["r1"];
    assert Submitted(ONE_TASK, IDLE, "t", "r1", "j1") == ONE_WAITS;
  }

  lemma SecondSubmit()
    ensures Takes(ONE_TASK, ONE_WAITS, Submit("t", "r2", "j2"), TWO_WAIT)
  {
    hide ClaimNext, Enqueued;
    NamesDiffer();
    ClaimsOwn(ONE_WAITS.queue, Job("j2", "default", "r2"));
    assert ["r1"] + ["r2"] == ["r1", "r2"];
    assert Submitted(ONE_TASK, ONE_WAITS, "t", "r2", "j2") == TWO_WAIT;
  }

  lemma FirstBegin()
    ensures Takes(ONE_TASK, TWO_WAIT, Begin, ONE_RUNS)
  {
    NamesDiffer();
    assert ["r1", "r2"][1..] == ["r2"];
  }

  lemma FirstEnd()
    ensures Takes(ONE_TASK, ONE_RUNS, End(Completes), ONE_DONE)
  {
    NamesDiffer();
    assert ONE_RUNS.queue.states["j1" := JOB_ONE.(status := Done)] == ONE_DONE.queue.states;
    assert ONE_RUNS.phases["r1" := Over("r2", Completes)] == ONE_DONE.phases;
  }

  lemma ClaimsOwn(q: Queue, job: Job)
    requires q.pending == []
    ensures ClaimNext(Enqueued(q, job)) == (Queue([], q.states[job.jobId := JobState(job, Claimed)]), Some(job))
  {
    var line := Enqueued(q, job);
    assert line.pending == [job.jobId] && IsQueued(line, job.jobId);
    assert ClaimNext(line).0.states == q.states[job.jobId := JobState(job, Claimed)];
    assert ClaimNext(line).0.pending == [];
  }

  // ------------------------------------------------------------------ the service as it runs

  class ControlService {
    const tenants: map<Id, string>
    const queue: InProcessJobQueue
    var runJobs: map<Id, Id>
    var runTasks: map<Id, Id>
    var cells: map<Id, Id>
    var inflight: seq<Id>
    var waiting: seq<Id>
    var runLock: Option<Id>
    var phases: map<Id, Phase>
    var records: map<(string, Id), Entry>

    constructor (tenants: map<Id, string>)
      ensures Valid() && this.tenants == tenants && State() == IDLE && fresh(queue)
    {
      this.tenants := tenants;
      queue := new InProcessJobQueue();
      runJobs, runTasks, cells, inflight, waiting, runLock, phases, records := map[], map[], map[], [], [], None, map[], map[];
      new;
      IdleInv(tenants);
    }

    ghost function State(): Service
      reads this, queue
    {
      Service(queue.Value(), runJobs, runTasks, cells, inflight, waiting, runLock, phases, records)
    }

    ghost predicate Valid()
      reads this, queue
    {
      Inv(tenants, State())
    }

    /** Returns at once; an unknown task is refused and leaves no trace. */
    method SubmitRun(task: Id, runId: Id, jobId: Id) returns (run: Option<Id>)
      requires Valid() && FreshIds(State(), runId, jobId)
      modifies this, queue
      ensures Valid() && Takes(tenants, old(State()), Submit(task, runId, jobId), State())
      ensures run == if task in tenants then Some(runId) else None
    {
      hide Inv;
      ghost var was := State();
      if task !in tenants { return None; }
      cells := cells[task := runId];
      var job := Job(jobId, tenants[task], runId);
      var _ := queue.Enqueue(job);
      var _ := queue.Claim();
      runJobs, runTasks := runJobs[runId := jobId], runTasks[runId := task];
      inflight, waiting, phases := inflight + [runId], waiting + [runId], phases[runId := Waiting];
      run := Some(runId);
      assert State() == Submitted(tenants, was, task, runId, jobId);
      SubmitKeeps(tenants, was, task, runId, jobId);
    }

    /** The next body takes the lock, if it is free, and reads the cell. */
    method BeginBody()
      requires Valid()
      modifies this
      ensures Valid() && Takes(tenants, old(State()), Begin, State())
    {
      hide Inv;
      ghost var was := State();
      CanStep(tenants, was);
      if runLock.None? && waiting != [] {
        var r := waiting[0];
        assert r in waiting;
        runLock, waiting, phases := Some(r), waiting[1..], phases[r := Running(cells[runTasks[r]])];
      }
      assert State() == Begun(was);
      StepKeeps(tenants, was, Begin, State());
    }

    /** The running body ends: its run has recorded itself (or not), the service fills the gap, and
        the job is settled. */
    method EndBody(how: How)
      requires Valid()
      modifies this, queue
      ensures Valid() && Takes(tenants, old(State()), End(how), State())
    {
      hide Inv;
      ghost var was := State();
      CanStep(tenants, was);
      if runLock.Some? {
        var r := runLock.value;
        var tenant, captured := tenants[runTasks[r]], phases[r].captured;
        if how != Escapes { records := records[(tenant, captured) := Entry(r, RecordStatus(how))]; }
        if how != Completes && (tenant, r) !in records { records := records[(tenant, r) := Entry(r, "aborted")]; }
        var _ := queue.Finish(runJobs[r], FinalStatus(how));
        phases, runLock := phases[r := Over(captured, how)], None;
      }
      assert State() == Ended(tenants, was, how);
      StepKeeps(tenants, was, End(how), State());
    }

    /** The scheduling status of a run; reading it takes no lock. */
    method Status(runId: Id) returns (status: Option<JobStatus>)
      requires Valid()
      ensures status.Some? <==> runId in inflight
      ensures status.Some? && runId in phases ==>
        (status.value == Claimed <==> !phases[runId].Over?)
        && (status.value == Done <==> phases[runId].Over? && phases[runId].how == Completes)
    {
      if runId in runJobs {
        status := queue.StatusOf(runJobs[runId]);
      } else {
        status := None;
      }
    }
  }
}
