/** The in-process job queue: a line of job ids and a state for each. */
module JobQueue {

  import opened Contracts

  datatype JobStatus = Queued | Claimed | Done | Failed

  datatype Job = Job(jobId: Id, tenant: string, runId: Id)

  datatype JobState = JobState(job: Job, status: JobStatus)

  datatype Queue = Queue(pending: seq<Id>, states: map<Id, JobState>)

  const EMPTY_QUEUE := Queue([], map[])

  function Enqueued(q: Queue, job: Job): Queue {
    Queue(q.pending + [job.jobId], q.states[job.jobId := JobState(job, Queued)])
  }

  predicate IsQueued(q: Queue, id: Id) {
    id in q.states && q.states[id].status == Queued
  }

  function WithStatus(q: Queue, id: Id, status: JobStatus): Queue
    requires id in q.states
  {
    q.(states := q.states[id := q.states[id].(status := status)])
  }

  /** A worker takes the first job in line that still waits; whatever stands before it is dropped. */
  function ClaimNext(q: Queue): (Queue, Option<Job>)
    decreases |q.pending|
  {
    if q.pending == [] then (q, None)
    else
      var id, rest := q.pending[0], q.(pending := q.pending[1..]);
      if IsQueued(q, id) then (WithStatus(rest, id, Claimed), Some(q.states[id].job))
      else ClaimNext(rest)
  }

  /** How far a claim looks: past everything that is not queued. */
  lemma {:induction false} ClaimLooks(q: Queue) returns (i: nat)
    ensures i <= |q.pending| && (i < |q.pending| ==> IsQueued(q, q.pending[i]))
    ensures forall j | 0 <= j < i :: !IsQueued(q, q.pending[j])
    ensures i == |q.pending| ==> ClaimNext(q) == (q.(pending := []), None)
    ensures i < |q.pending| ==>
      ClaimNext(q) == (WithStatus(q, q.pending[i], Claimed).(pending := q.pending[i + 1..]), Some(q.states[q.pending[i]].job))
    decreases |q.pending|
  {
    if q.pending == [] || IsQueued(q, q.pending[0]) {
      i := 0;
    } else {
      var rest := q.(pending := q.pending[1..]);
      var k := ClaimLooks(rest);
      i := k + 1;
      assert forall j | 0 < j < |q.pending| :: rest.pending[j - 1] == q.pending[j];
      assert i < |q.pending| ==> q.pending[i + 1..] == rest.pending[k + 1..];
    }
  }

  /** First come, first served: a claim finds a job exactly when one in line is queued, it is the
      first such, and nothing changes but its status and the line in front of it. */
  lemma ClaimIsFirstQueued(q: Queue)
    ensures var (next, job) := ClaimNext(q);
      && (job.None? <==> forall i | 0 <= i < |q.pending| :: !IsQueued(q, q.pending[i]))
      && (job.None? ==> next == q.(pending := []))
      && (job.Some? ==> exists i ::
            && 0 <= i < |q.pending| && IsQueued(q, q.pending[i])
            && (forall j | 0 <= j < i :: !IsQueued(q, q.pending[j]))
            && job.value == q.states[q.pending[i]].job
            && next == WithStatus(q, q.pending[i], Claimed).(pending := q.pending[i + 1..]))
  {
    hide ClaimNext;
    var i := ClaimLooks(q);
  }

  class InProcessJobQueue {
    var pending: seq<Id>
    var states: map<Id, JobState>

    constructor ()
      ensures Value() == EMPTY_QUEUE
    {
      pending, states := [], map[];
    }

    ghost function Value(): Queue
      reads this
    {
      Queue(pending, states)
    }

    method Enqueue(job: Job) returns (id: Id)
      modifies this
      ensures Value() == Enqueued(old(Value()), job) && id == job.jobId
      ensures pending == old(pending) + [job.jobId] && states == old(states)[job.jobId := JobState(job, Queued)]
    {
      states := states[job.jobId := JobState(job, Queued)];
      pending := pending + [job.jobId];
      id := job.jobId;
    }

    method Claim() returns (job: Option<Job>)
      modifies this
      ensures (Value(), job) == ClaimNext(old(Value()))
    {
      while pending != []
        invariant ClaimNext(Value()) == ClaimNext(old(Value()))
        decreases |pending|
      {
        var id := pending[0];
        pending := pending[1..];
        if id in states && states[id].status == Queued {
          job := Some(states[id].job);
          states := states[id := states[id].(status := Claimed)];
          return;
        }
      }
      job := None;
    }

    /** Ends a job, one way or the other; an unknown job is refused and nothing changes. */
    method Finish(id: Id, status: JobStatus) returns (ok: bool)
      modifies this
      ensures ok <==> id in old(states)
      ensures Value() == if ok then WithStatus(old(Value()), id, status) else old(Value())
      ensures pending == old(pending)
      ensures states == if ok then old(states)[id := JobState(old(states)[id].job, status)] else old(states)
    {
      ok := id in states;
      if ok { states := states[id := states[id].(status := status)]; }
    }

    method StatusOf(id: Id) returns (status: Option<JobStatus>)
      ensures status == if id in states then Some(states[id].status) else None
    {
      status := if id in states then Some(states[id].status) else None;
    }
  }
}
