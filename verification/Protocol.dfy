/** The job protocol as a state machine: any number of worker processes (each
    also runs the reconciler), backend calls in progress, a clock and an
    environment that may crash processes or flush Redis.

    `Apply` performs one labelled step; a step that is not enabled leaves the
    state as it is, so that every sequence of actions is a run and a theorem
    about all of `Exec(s, acts)` covers every interleaving. */
module Protocol {
  import opened Store

  type Proc = nat

  /** Where a worker process is between two statements. */
  datatype Pc =
    | Idle
      // JobProcessor.process
    | Claimed(entry: Entry)                       // claimed; get_job next
    | Fetched(id: JobId)                          // get_job gave a non-terminal job; mark_running next
    | Started(id: JobId)                          // mark_running returned; publish next
    | Executing(id: JobId)                        // validation, guardrail, executor and heartbeats
    | Finished(id: JobId)                         // executor returned; mark_completed next
    | Failing(id: JobId, why: Reason)             // in _fail; mark_failed next
    | Publishing(id: JobId, status: Status)       // result written; terminal publish next
    | Acking(entry: Entry)                        // ack next
      // Reconciler.reconcile
    | Resetting(todo: seq<JobId>)                 // reset_to_queued(todo[0]) next, or find_orphan_queued
    | Announcing(todo: seq<JobId>)                // publish queued for todo[0] next
    | Requeueing(todo: seq<JobId>)                // requeue(todo[0]) next
    | ReadingQueue(candidates: seq<JobId>)        // LRANGE jobs:queue next
    | ReadingProcessing(candidates: seq<JobId>, live: set<Entry>)  // LRANGE jobs:processing next
    | Recovering(candidates: seq<JobId>, live: set<Entry>)         // the re-enqueue loop

  /** A CreateJob request between its INSERT and its end. */
  datatype Call = MustEnqueue | MustFail(why: Reason)

  datatype Config = Config(visibility: nat, grace: nat)

  datatype State = State(
    st: Store,
    pcs: map<Proc, Pc>,
    calls: map<JobId, Call>,
    dequeues: set<JobId>,
    cfg: Config)

  datatype BackendEvent =
    | Create(id: JobId, model: string, path: string)
    | EnqueueOk(id: JobId)
    | EnqueueRaises(id: JobId, landed: bool, why: Reason)
    | FailCreated(id: JobId)                      // the Update after a failed enqueue
    | DropCall(id: JobId)                         // the request dies
    | CancelJob(id: JobId)
    | DequeueCancelled(id: JobId)
    | DropDequeue(id: JobId)

  datatype WorkerEvent =
    | TakeJob
    | ReadJob
    | MarkOk
    | MarkRaises(applied: bool, why: Reason)
    | AnnounceOk
    | AnnounceRaises(applied: bool, why: Reason)
    | Beat
    | BeatPublish
    | ExecutorReturns
    | ExecutorRaises(why: Reason)                 // rejection, guardrail or executor failure
    | CompleteOk
    | CompleteRaises(applied: bool, why: Reason)
    | FailOk
    | ResultPublished
    | ResultPublishRaises(applied: bool, why: Reason)
    | AckJob

  datatype ReconcilerEvent =
    | FindStale(ids: seq<JobId>)
    | ResetOne
    | AnnounceOne
    | RequeueOne
    | FindOrphans(ids: seq<JobId>)
    | ReadQueue
    | ReadProcessing
    | RecoverOne

  datatype Action =
    | Backend(b: BackendEvent)
    | Work(p: Proc, w: WorkerEvent)
    | Sweep(p: Proc, r: ReconcilerEvent)
    | Start(p: Proc)
    | Stop(p: Proc)                               // graceful: the loop exits between jobs
    | Crash(p: Proc)
    | Tick(d: nat)
    | Flush
    | ForeignPush(text: string)                   // some other client pushes text that is no id

  function Goto(s: State, p: Proc, pc: Pc): State {
    s.(pcs := s.pcs[p := pc])
  }

  function Become(s: State, st: Store, p: Proc, pc: Pc): State {
    s.(st := st, pcs := s.pcs[p := pc])
  }

  function BackendStep(s: State, b: BackendEvent): State {
    match b
    case Create(id, model, path) =>
      if id in s.st.rows then s
      else s.(st := Insert(s.st, id, model, path), calls := s.calls[id := MustEnqueue])
    case EnqueueOk(id) =>
      if id in s.calls && s.calls[id].MustEnqueue?
      then s.(st := Enqueue(s.st, id), calls := s.calls - {id}) else s
    case EnqueueRaises(id, landed, why) =>
      if id in s.calls && s.calls[id].MustEnqueue?
      then s.(st := if landed then Enqueue(s.st, id) else s.st, calls := s.calls[id := MustFail(why)]) else s
    case FailCreated(id) =>
      if id in s.calls && s.calls[id].MustFail?
      then s.(st := FailFromBackend(s.st, id, s.calls[id].why), calls := s.calls - {id}) else s
    case DropCall(id) => s.(calls := s.calls - {id})
    case CancelJob(id) =>
      if id in s.st.rows && !Terminal(s.st.rows[id].status)
      then s.(st := Cancel(s.st, id), dequeues := s.dequeues + {id}) else s
    case DequeueCancelled(id) =>
      if id in s.dequeues then s.(st := Dequeue(s.st, id), dequeues := s.dequeues - {id}) else s
    case DropDequeue(id) => s.(dequeues := s.dequeues - {id})
  }

  // What a process does in one step depends on the store and on its own place only.

  function ReadLocal(st: Store, e: Entry): Pc {
    if e.JobRef? && e.id in st.rows && !Terminal(st.rows[e.id].status) then Fetched(e.id) else Acking(e)
  }

  function WorkerLocal(st: Store, pc: Pc, w: WorkerEvent): (Store, Pc) {
    match w
    case TakeJob => if pc.Idle? && st.queue != [] then (Claim(st), Claimed(Next(st))) else (st, pc)
    case ReadJob => if pc.Claimed? then (st, ReadLocal(st, pc.entry)) else (st, pc)
    case AckJob => if pc.Acking? then (Ack(st, pc.entry), Idle) else (st, pc)
    case _ => RunLocal(st, pc, w)
  }

  /** _run and _fail: everything between get_job and the ack. */
  function RunLocal(st: Store, pc: Pc, w: WorkerEvent): (Store, Pc) {
    match w
    case MarkOk => if pc.Fetched? then (MarkRunning(st, pc.id), Started(pc.id)) else (st, pc)
    case MarkRaises(applied, why) =>
      if pc.Fetched? then (if applied then MarkRunning(st, pc.id) else st, Failing(pc.id, why)) else (st, pc)
    case AnnounceOk =>
      if pc.Started? then (Publish(st, pc.id, Running, false), Executing(pc.id)) else (st, pc)
    case AnnounceRaises(applied, why) =>
      if pc.Started?
      then (if applied then Publish(st, pc.id, Running, false) else st, Failing(pc.id, why)) else (st, pc)
    case Beat => if pc.Executing? then (Heartbeat(st, pc.id), pc) else (st, pc)
    case BeatPublish => if pc.Executing? then (Publish(st, pc.id, Running, false), pc) else (st, pc)
    case ExecutorReturns => if pc.Executing? then (st, Finished(pc.id)) else (st, pc)
    case ExecutorRaises(why) => if pc.Executing? then (st, Failing(pc.id, why)) else (st, pc)
    case CompleteOk =>
      if pc.Finished?
      then (MarkCompleted(st, pc.id, CheckpointPrefix(pc.id)), Publishing(pc.id, Completed)) else (st, pc)
    case CompleteRaises(applied, why) =>
      if pc.Finished?
      then (if applied then MarkCompleted(st, pc.id, CheckpointPrefix(pc.id)) else st, Failing(pc.id, why)) else (st, pc)
    case FailOk =>
      if pc.Failing? then (MarkFailed(st, pc.id, pc.why), Publishing(pc.id, Failed)) else (st, pc)
    case ResultPublished =>
      if pc.Publishing? then (Publish(st, pc.id, pc.status, true), Acking(JobRef(pc.id))) else (st, pc)
    case ResultPublishRaises(applied, why) =>
      // Raised inside _run it is caught; raised inside _fail it ends the process (a Crash).
      if pc.Publishing? && pc.status == Completed
      then (if applied then Publish(st, pc.id, pc.status, true) else st, Failing(pc.id, why)) else (st, pc)
    case _ => (st, pc)
  }

  function SweepLocal(st: Store, cfg: Config, pc: Pc, r: ReconcilerEvent): (Store, Pc) {
    match r
    case FindStale(ids) =>
      if pc.Idle? && Enumerates(ids, StaleRunning(st, cfg.visibility)) then (st, Resetting(ids)) else (st, pc)
    case ResetOne =>
      if pc.Resetting? && pc.todo != [] then (ResetToQueued(st, pc.todo[0]), Announcing(pc.todo)) else (st, pc)
    case AnnounceOne =>
      if pc.Announcing? && pc.todo != []
      then (Publish(st, pc.todo[0], Queued, false), Requeueing(pc.todo)) else (st, pc)
    case RequeueOne =>
      if pc.Requeueing? && pc.todo != [] then (Requeue(st, pc.todo[0]), Resetting(pc.todo[1..])) else (st, pc)
    case _ => OrphanLocal(st, cfg, pc, r)
  }

  /** _recover_orphaned_queued. */
  function OrphanLocal(st: Store, cfg: Config, pc: Pc, r: ReconcilerEvent): (Store, Pc) {
    match r
    case FindOrphans(ids) =>
      if pc.Resetting? && pc.todo == [] && Enumerates(ids, OrphanQueued(st, cfg.grace))
      then (st, if ids == [] then Idle else ReadingQueue(ids)) else (st, pc)
    case ReadQueue =>
      if pc.ReadingQueue? then (st, ReadingProcessing(pc.candidates, Members(st.queue))) else (st, pc)
    case ReadProcessing =>
      if pc.ReadingProcessing? then (st, Recovering(pc.candidates, pc.live + Members(st.processing))) else (st, pc)
    case RecoverOne =>
      if !pc.Recovering? then (st, pc)
      else if pc.candidates == [] then (st, Idle)
      else (if JobRef(pc.candidates[0]) in pc.live then st else Requeue(st, pc.candidates[0]),
            Recovering(pc.candidates[1..], pc.live))
    case _ => (st, pc)
  }

  function Move(s: State, p: Proc, to: (Store, Pc)): State {
    Become(s, to.0, p, to.1)
  }

  function WorkerStep(s: State, p: Proc, pc: Pc, w: WorkerEvent): State {
    Move(s, p, WorkerLocal(s.st, pc, w))
  }

  function RunStep(s: State, p: Proc, pc: Pc, w: WorkerEvent): State {
    Move(s, p, RunLocal(s.st, pc, w))
  }

  function ReconcilerStep(s: State, p: Proc, pc: Pc, r: ReconcilerEvent): State {
    Move(s, p, SweepLocal(s.st, s.cfg, pc, r))
  }

  function OrphanStep(s: State, p: Proc, pc: Pc, r: ReconcilerEvent): State {
    Move(s, p, OrphanLocal(s.st, s.cfg, pc, r))
  }

  function Apply(s: State, a: Action): State {
    match a
    case Backend(b) => BackendStep(s, b)
    case Work(p, w) => if p in s.pcs then WorkerStep(s, p, s.pcs[p], w) else s
    case Sweep(p, r) => if p in s.pcs then ReconcilerStep(s, p, s.pcs[p], r) else s
    case Start(p) => if p in s.pcs then s else Goto(s, p, Idle)
    case Stop(p) => if p in s.pcs && s.pcs[p].Idle? then s.(pcs := s.pcs - {p}) else s
    case Crash(p) => s.(pcs := s.pcs - {p})
    case Tick(d) => s.(st := Advance(s.st, d))
    case Flush => s.(st := FlushRedis(s.st))
    case ForeignPush(text) => s.(st := s.st.(queue := [Junk(text)] + s.st.queue))
  }

  function Exec(s: State, acts: seq<Action>): State
    decreases |acts|
  {
    if acts == [] then s else Exec(Apply(s, acts[0]), acts[1..])
  }

  function Init(cfg: Config, now: int): State {
    State(Store(map[], [], [], map[], now), map[], map[], {}, cfg)
  }

  lemma {:induction false} ExecConcat(s: State, a: seq<Action>, b: seq<Action>)
    ensures Exec(s, a + b) == Exec(Exec(s, a), b)
    decreases |a|
  {
    if a == [] {
      assert a + b == b;
    } else {
      assert (a + b)[1..] == a[1..] + b;
      ExecConcat(Apply(s, a[0]), a[1..], b);
    }
  }

  lemma ExecOne(s: State, a: Action)
    ensures Exec(s, [a]) == Apply(s, a)
  {
    assert [a][1..] == [];
  }

  lemma ExecTwo(s: State, a: Action, b: Action)
    ensures Exec(s, [a, b]) == Apply(Apply(s, a), b)
  {
    assert [a, b][1..] == [b];
    ExecOne(Apply(s, a), b);
  }

  lemma ExecThree(s: State, a: Action, b: Action, c: Action)
    ensures Exec(s, [a, b, c]) == Apply(Apply(Apply(s, a), b), c)
  {
    assert [a, b, c][1..] == [b, c];
    ExecTwo(Apply(s, a), b, c);
  }
}
