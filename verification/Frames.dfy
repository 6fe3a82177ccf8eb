/** Which job a process is attending, and what the steps inside _run leave alone. */
module Frames {
  import opened Store
  import opened Protocol

  /** The worker is handling this queue entry, from claim to ack. */
  predicate Holds(pc: Pc, id: JobId) {
    match pc
    case Claimed(e) => e == JobRef(id)
    case Acking(e) => e == JobRef(id)
    case Fetched(i) => i == id
    case Started(i) => i == id
    case Executing(i) => i == id
    case Finished(i) => i == id
    case Failing(i, _) => i == id
    case Publishing(i, _) => i == id
    case _ => false
  }

  /** A reconcile pass is between reset_to_queued and requeue for this job. */
  predicate Between(pc: Pc, id: JobId) {
    (pc.Announcing? || pc.Requeueing?) && pc.todo != [] && pc.todo[0] == id
  }

  /** The reconcile pass has already decided to push this id. */
  predicate WillPush(pc: Pc, id: JobId) {
    match pc
    case Resetting(todo) => id in todo
    case Announcing(todo) => id in todo
    case Requeueing(todo) => id in todo
    case Recovering(c, live) => id in c && JobRef(id) !in live
    case _ => false
  }

  /** The process is inside a reconcile pass. */
  predicate Sweeping(pc: Pc) {
    pc.Resetting? || pc.Announcing? || pc.Requeueing? || pc.ReadingQueue? || pc.ReadingProcessing? || pc.Recovering?
  }

  /** The process is inside _run or _fail. */
  predicate InRun(pc: Pc) {
    pc.Fetched? || pc.Started? || pc.Executing? || pc.Finished? || pc.Failing? || pc.Publishing?
  }

  predicate InPhaseOne(r: ReconcilerEvent) {
    r.FindStale? || r.ResetOne? || r.AnnounceOne? || r.RequeueOne?
  }

  /** Inside _run and _fail only the job's own row and hash change, and the
      process goes on holding the same job. */
  ghost predicate RunFrame(s: State, p: Proc, s': State)
    requires p in s.pcs
  {
    && p in s'.pcs
    && s' == s.(st := s'.st, pcs := s.pcs[p := s'.pcs[p]])
    && s'.st == s.st.(rows := s'.st.rows, hash := s'.st.hash)
    && s'.st.rows.Keys == s.st.rows.Keys
    && (s'.pcs[p] == s.pcs[p] || (InRun(s.pcs[p]) && (InRun(s'.pcs[p]) || s'.pcs[p].Acking?)))
    && (forall id :: Holds(s'.pcs[p], id) <==> Holds(s.pcs[p], id))
    && (forall id :: id in s.st.rows && !Holds(s.pcs[p], id) ==> s'.st.rows[id] == s.st.rows[id])
  }

  lemma RunStepFrame(s: State, p: Proc, w: WorkerEvent)
    requires p in s.pcs
    ensures RunFrame(s, p, RunStep(s, p, s.pcs[p], w))
  {}
}
