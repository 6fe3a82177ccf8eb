/** The Go backend's side: the job store, the queue client and the handlers for
    creating, cancelling and reading a job. */
module Backend {
  import opened Wrappers
  import opened Store
  import opened Clients
  import opened Protocol
  import Effect = Store

  // -------------------------------------------------------- the store

  class JobStore {
    const world: World

    constructor (world: World)
      ensures this.world == world
    {
      this.world := world;
    }

    /** INSERT ... RETURNING; `id` is the fresh UUID the database picks. */
    method Create(id: JobId, model: string, path: string) returns (job: Row)
      requires id !in world.rows
      modifies world`rows
      ensures world.St() == Insert(old(world.St()), id, model, path)
      ensures job == world.rows[id]
      ensures job.status == Queued && job.baseModel == model && job.datasetPath == path
      ensures job.checkpoint == None && job.error == None && job.createdAt == job.updatedAt == world.now
      ensures world.rows == old(world.rows)[id := job]
    {
      job := Row(Queued, model, path, None, None, world.now, world.now);
      world.rows := world.rows[id := job];
    }

    method GetByID(id: JobId) returns (job: Option<Row>)
      ensures job == if id in world.rows then Some(world.rows[id]) else None
    {
      job := if id in world.rows then Some(world.rows[id]) else None;
    }

    /** COALESCE every column; with a status, read it under the row lock and
        check the transition first. */
    method Update(id: JobId, f: Fields) returns (r: Result<Row, UpdateError>)
      modifies world`rows
      ensures (world.St(), r) == Effect.Update(old(world.St()), id, f)
      ensures r == Err(NotFound) <==> id !in old(world.rows)
      ensures id in old(world.rows) ==>
                var from := old(world.rows)[id].status;
                (r.Err? <==> f.status.Some? && !((from == Queued && (f.status.value == Running || f.status.value == Cancelled))
                                                 || (from == Running && (f.status.value == Completed || f.status.value == Failed
                                                                         || f.status.value == Cancelled))))
                && (r.Err? ==> r.error == InvalidTransition(from, f.status.value))
      ensures r.Err? ==> world.rows == old(world.rows)
      ensures r.Ok? ==>
                && world.rows == old(world.rows)[id := r.value]
                && var was := old(world.rows)[id];
                   && r.value == was.(status := r.value.status, checkpoint := r.value.checkpoint,
                                      error := r.value.error, updatedAt := world.now)
                   && r.value.status == (if f.status.Some? then f.status.value else was.status)
                   && r.value.checkpoint == (if f.checkpoint.Some? then f.checkpoint else was.checkpoint)
                   && r.value.error == (if f.error.Some? then f.error else was.error)
    {
      if id !in world.rows {
        return Err(NotFound);
      }
      var row := world.rows[id];
      if f.status.Some? {
        if !ValidTransition(row.status, f.status.value) {
          return Err(InvalidTransition(row.status, f.status.value));
        }
        row := row.(status := f.status.value);
      }
      if f.checkpoint.Some? { row := row.(checkpoint := f.checkpoint); }
      if f.error.Some? { row := row.(error := f.error); }
      row := row.(updatedAt := world.now);
      world.rows := world.rows[id := row];
      return Ok(row);
    }
  }

  /** The backend's queue client. */
  class JobQueue {
    const world: World

    constructor (world: World)
      ensures this.world == world
    {
      this.world := world;
    }

    method Enqueue(id: JobId)
      modifies world`queue
      ensures world.St() == Effect.Enqueue(old(world.St()), id)
      ensures world.queue == [JobRef(id)] + old(world.queue)
    {
      world.queue := [JobRef(id)] + world.queue;
    }

    method Dequeue(id: JobId)
      modifies world`queue
      ensures world.St() == Effect.Dequeue(old(world.St()), id)
      ensures multiset(world.queue) == multiset(old(world.queue))[JobRef(id) := 0]
    {
      RemoveAllCounts(world.queue, JobRef(id));
      world.queue := RemoveAll(world.queue, JobRef(id));
    }

    /** HGETALL: an absent or expired key reads as not found. */
    method GetJobStatus(id: JobId) returns (live: Option<Live>)
      ensures live == if Visible(world.St(), id) then Some(world.hash[id]) else None
    {
      live := if Visible(world.St(), id) then Some(world.hash[id]) else None;
    }
  }

  // -------------------------------------------------------- the handlers

  /** Which statements of a CreateJob request raise: the INSERT, the LPUSH, the
      Update after a failed LPUSH. */
  datatype CreateFaults = CreateFaults(insert: Option<Fault>, push: Option<Fault>, fallback: Option<Fault>)

  function AfterPush(st: Store, id: JobId, x: CreateFaults): Store {
    var tried := Attempt(x.push, st, Effect.Enqueue(st, id));
    if x.push.None? then tried
    else Attempt(x.fallback, tried, FailFromBackend(tried, id, EnqueueFailed(x.push.value.text)))
  }

  function AfterCreate(st: Store, id: JobId, model: string, path: string, x: CreateFaults): Store {
    var made := Attempt(x.insert, st, Insert(st, id, model, path));
    if x.insert.Some? then made else AfterPush(made, id, x)
  }

  predicate IsActive(s: Status) {
    s == Queued || s == Running
  }

  /** What GET /jobs/{id} answers when it has read the row `job` and then looks at the hash. */
  function Answer(job: Row, st: Store, id: JobId): Row {
    if IsActive(job.status) && Visible(st, id) && st.hash[id].updatedAt > job.updatedAt
    then job.(status := st.hash[id].status, updatedAt := st.hash[id].updatedAt)
    else job
  }

  /** The answer when nothing happens between the two reads. */
  function View(st: Store, id: JobId): Row
    requires id in st.rows
  {
    Answer(st.rows[id], st, id)
  }

  datatype CancelError = Refused(why: UpdateError) | Broken

  function AfterCancel(st: Store, id: JobId, update: Option<Fault>, dequeue: Option<Fault>): Store {
    var c := Attempt(update, st, Cancel(st, id));
    if update.Some? || id !in st.rows || !IsActive(st.rows[id].status) then c
    else Attempt(dequeue, c, Effect.Dequeue(c, id))
  }

  class JobHandler {
    const world: World
    const jobs: JobStore
    const queue: JobQueue

    constructor (world: World)
      ensures this.world == world && Wired()
    {
      this.world := world;
      this.jobs := new JobStore(world);
      this.queue := new JobQueue(world);
    }

    ghost predicate Wired() {
      jobs.world == world && queue.world == world
    }

    method CreateJob(id: JobId, model: string, path: string, x: CreateFaults) returns (r: Result<Row, string>)
      requires Wired() && id !in world.rows
      modifies world`rows, world`queue
      ensures world.St() == AfterCreate(old(world.St()), id, model, path, x)
      ensures r.Ok? <==> x.insert.None? && x.push.None?
      ensures r.Ok? ==> r.value.status == Queued && r.value.baseModel == model && r.value.datasetPath == path
      ensures Takes(x.insert) ==> world.rows == old(world.rows)[id := Row(Queued, model, path, None, None, world.now, world.now)]
      ensures !Takes(x.insert) ==> world.rows == old(world.rows)
      ensures world.queue == if x.insert.None? && Takes(x.push) then [JobRef(id)] + old(world.queue) else old(world.queue)
      ensures r == Err("failed to create job") <==> x.insert.Some?
    {
      if x.insert.Some? {
        if x.insert.value.landed { var _ := jobs.Create(id, model, path); }
        return Err("failed to create job");
      }
      var job := jobs.Create(id, model, path);
      if Takes(x.push) {
        queue.Enqueue(id);
      }
      if x.push.Some? {
        if Takes(x.fallback) {
          var _ := jobs.Update(id, Fields(Some(Failed), None, Some(EnqueueFailed(x.push.value.text))));
        }
        return Err("job created but could not be enqueued");
      }
      return Ok(job);
    }

    /** A Redis error degrades to the row. */
    method GetJob(id: JobId, redisOk: bool) returns (r: Option<Row>)
      requires Wired()
      ensures r == if id !in world.rows then None
                   else Some(if redisOk then View(world.St(), id) else world.rows[id])
      ensures r.Some? ==> r.value == world.rows[id].(status := r.value.status, updatedAt := r.value.updatedAt)
      ensures r.Some? ==>
                if redisOk && IsActive(world.rows[id].status) && Visible(world.St(), id)
                   && world.hash[id].updatedAt > world.rows[id].updatedAt
                then r.value.status == world.hash[id].status && r.value.updatedAt == world.hash[id].updatedAt
                else r.value == world.rows[id]
    {
      var job := jobs.GetByID(id);
      if job.None? { return None; }
      var row := job.value;
      if IsActive(row.status) && redisOk {
        var live := queue.GetJobStatus(id);
        if live.Some? && live.value.updatedAt > row.updatedAt {
          row := row.(status := live.value.status, updatedAt := live.value.updatedAt);
        }
      }
      return Some(row);
    }

    /** UpdateJob: cancel under the lock, then take the id off jobs:queue; an error
        of the latter is only logged. */
    method CancelJob(id: JobId, update: Option<Fault>, dequeue: Option<Fault>) returns (r: Result<Row, CancelError>)
      requires Wired()
      modifies world`rows, world`queue
      ensures world.St() == AfterCancel(old(world.St()), id, update, dequeue)
      ensures var was := old(world.St());
              && (r.Ok? <==> update.None? && id in was.rows && IsActive(was.rows[id].status))
              && (r.Err? && r.error.Refused? ==> world.St() == was)
              && (r.Ok? ==> r.value == was.rows[id].(status := Cancelled, updatedAt := was.now))
              && (r.Ok? ==> world.rows == was.rows[id := r.value])
              && (r.Ok? ==> world.queue == if Takes(dequeue) then RemoveAll(was.queue, JobRef(id)) else was.queue)
      ensures r.Err? && r.error.Refused? ==>
                r.error.why == if id !in old(world.rows) then NotFound
                               else InvalidTransition(old(world.rows)[id].status, Cancelled)
      ensures r == Err(Broken) <==> update.Some?
    {
      if update.Some? {
        if update.value.landed { var _ := jobs.Update(id, Fields(Some(Cancelled), None, None)); }
        return Err(Broken);
      }
      var u := jobs.Update(id, Fields(Some(Cancelled), None, None));
      if u.Err? { return Err(Refused(u.error)); }
      if Takes(dequeue) {
        queue.Dequeue(id);
      }
      return Ok(u.value);
    }
  }

  // -------------------------------------------------------- as runs

  function Did(b: BackendEvent): Action {
    Protocol.Backend(b)
  }

  function CreateTrace(id: JobId, model: string, path: string, x: CreateFaults): seq<Action> {
    if x.insert.Some? then
      if x.insert.value.landed then [Did(Create(id, model, path)), Did(DropCall(id))] else []
    else if x.push.None? then
      [Did(Create(id, model, path)), Did(EnqueueOk(id))]
    else
      [Did(Create(id, model, path)), Did(EnqueueRaises(id, x.push.value.landed, EnqueueFailed(x.push.value.text))),
       Did(if Takes(x.fallback) then FailCreated(id) else DropCall(id))]
  }

  /** The code's CreateJob, whichever statements raise, is a run of the protocol. */
  lemma CreateJobIsARun(s: State, id: JobId, model: string, path: string, x: CreateFaults)
    requires id !in s.st.rows && id !in s.calls
    ensures Exec(s, CreateTrace(id, model, path, x)) == s.(st := AfterCreate(s.st, id, model, path, x))
  {
    assert s.calls[id := MustEnqueue] - {id} == s.calls;
    if x.insert.Some? {
      if x.insert.value.landed { ExecTwo(s, Did(Create(id, model, path)), Did(DropCall(id))); }
    } else if x.push.None? {
      ExecTwo(s, Did(Create(id, model, path)), Did(EnqueueOk(id)));
    } else {
      PushRaises(s, id, model, path, x);
    }
  }

  /** The system between the INSERT and the LPUSH of a request. */
  function Created(s: State, id: JobId, model: string, path: string): State {
    s.(st := Insert(s.st, id, model, path), calls := s.calls[id := MustEnqueue])
  }

  lemma PushRaises(s: State, id: JobId, model: string, path: string, x: CreateFaults)
    requires id !in s.st.rows && id !in s.calls && x.insert.None? && x.push.Some?
    ensures Exec(s, CreateTrace(id, model, path, x)) == s.(st := AfterCreate(s.st, id, model, path, x))
  {
    var why := EnqueueFailed(x.push.value.text);
    var s1 := Created(s, id, model, path);
    var failed := EnqueueRaises(id, x.push.value.landed, why);
    var s2 := s1.(st := Attempt(x.push, s1.st, Effect.Enqueue(s1.st, id)), calls := s.calls[id := MustFail(why)]);
    ExecThree(s, Did(Create(id, model, path)), Did(failed), Did(if Takes(x.fallback) then FailCreated(id) else DropCall(id)));
    FailedPushRuns(s, s1, id, x.push, why);
    FallbackRuns(s, s2, id, why, x);
  }

  lemma FailedPushRuns(s: State, s1: State, id: JobId, push: Option<Fault>, why: Reason)
    requires push.Some? && s1 == s.(st := s1.st, calls := s.calls[id := MustEnqueue])
    ensures Apply(s1, Did(EnqueueRaises(id, push.value.landed, why)))
            == s1.(st := Attempt(push, s1.st, Effect.Enqueue(s1.st, id)), calls := s.calls[id := MustFail(why)])
  {
    assert s1.calls[id := MustFail(why)] == s.calls[id := MustFail(why)];
  }

  lemma FallbackRuns(s: State, s2: State, id: JobId, why: Reason, x: CreateFaults)
    requires id !in s.calls && s2 == s.(st := s2.st, calls := s.calls[id := MustFail(why)])
    ensures Apply(s2, Did(if Takes(x.fallback) then FailCreated(id) else DropCall(id)))
            == s.(st := Attempt(x.fallback, s2.st, FailFromBackend(s2.st, id, why)))
  {
    assert s2.calls - {id} == s.calls;
  }

  function CancelTrace(id: JobId, update: Option<Fault>, dequeue: Option<Fault>): seq<Action> {
    if !Takes(update) then []
    else [Did(CancelJob(id)), Did(if update.None? && Takes(dequeue) then DequeueCancelled(id) else DropDequeue(id))]
  }

  /** So is a cancel of an active job. */
  lemma CancelJobIsARun(s: State, id: JobId, update: Option<Fault>, dequeue: Option<Fault>)
    requires id in s.st.rows && IsActive(s.st.rows[id].status) && id !in s.dequeues
    ensures Exec(s, CancelTrace(id, update, dequeue)) == s.(st := AfterCancel(s.st, id, update, dequeue))
  {
    if Takes(update) {
      var t := CancelTrace(id, update, dequeue);
      ExecTwo(s, t[0], t[1]);
      assert s.dequeues + {id} - {id} == s.dequeues;
    }
  }

  // ------------------------------------- the fallback after a failed enqueue

  /** The request is answered with an error, but queued -> failed is not a valid
      transition: the new row stays queued, whether or not the fallback write
      itself goes through, and if the push was not sent the job is in neither list. */
  lemma FailedEnqueueLeavesQueued(st: Store, id: JobId, model: string, path: string, x: CreateFaults)
    requires id !in st.rows && x.insert.None? && x.push.Some?
    ensures var r := AfterCreate(st, id, model, path, x);
            && r.rows == Insert(st, id, model, path).rows
            && Has(r, id, Queued)
            && r.processing == st.processing
            && r.queue == if Takes(x.push) then [JobRef(id)] + st.queue else st.queue
  {}

  /** In any reachable or unreachable state the fallback write takes effect
      exactly when a worker has started the job in the meantime. */
  lemma FallbackFailsOnlyRunning(s: State, id: JobId)
    requires id in s.calls && s.calls[id].MustFail?
    ensures var e := Apply(s, Protocol.Backend(FailCreated(id)));
            && (e.st == s.st <==> !Has(s.st, id, Running))
            && (Has(s.st, id, Running) ==> Has(e.st, id, Failed) && e.st.rows[id].error == Some(s.calls[id].why))
  {
    if Has(s.st, id, Running) {
      var e := Apply(s, Protocol.Backend(FailCreated(id)));
      assert Has(e.st, id, Failed);
    }
  }
}
