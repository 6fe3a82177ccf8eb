/** Mutual exclusion over whole runs: under the timing assumptions the
    deployment makes, a job is never in two hands at once. */
module Exclusion {
  import opened Store
  import opened Protocol
  import opened Frames
  import opened Stranding

  /** A CreateJob request still has to push this id. */
  predicate Pending(s: State, id: JobId) {
    id in s.calls && s.calls[id].MustEnqueue?
  }

  function Holders(s: State, id: JobId): set<Proc> {
    set p | p in s.pcs && Holds(s.pcs[p], id)
  }

  /** The chances the job still has of being executed, or is getting. */
  function Tokens(s: State, id: JobId): nat {
    (if Pending(s, id) then 1 else 0) + multiset(s.st.queue)[JobRef(id)] + |Holders(s, id)|
  }

  /** The assumptions, each about the steps that rely on it: Redis is not flushed;
      passes do not overlap; when a pass selects stale jobs, no live worker holding
      a running job is late with its heartbeat; when it selects orphans, no request
      is still short of its push after the grace window. */
  datatype Premise = NoFlush | OnePassAtATime | HeartbeatsInTime | PushesInTime

  ghost predicate Meets(s: State, a: Action, pr: Premise) {
    match pr
    case NoFlush => a != Flush
    case OnePassAtATime => a.Sweep? && a.r.FindStale? ==> forall q :: q in s.pcs ==> !Sweeping(s.pcs[q])
    case HeartbeatsInTime =>
      a.Sweep? && a.r.FindStale? ==>
        forall q, id :: q in s.pcs && Holds(s.pcs[q], id) && Has(s.st, id, Running)
          ==> s.st.rows[id].updatedAt >= s.st.now - s.cfg.visibility
    case PushesInTime =>
      a.Sweep? && a.r.FindOrphans? ==>
        forall id :: Pending(s, id) && id in s.st.rows ==> s.st.rows[id].createdAt >= s.st.now - s.cfg.grace
  }

  ghost predicate Timely(s: State, a: Action) {
    Meets(s, a, NoFlush) && Meets(s, a, OnePassAtATime) && Meets(s, a, HeartbeatsInTime) && Meets(s, a, PushesInTime)
  }

  ghost predicate TimelyRun(s: State, acts: seq<Action>)
    decreases |acts|
  {
    acts == [] || (Timely(s, acts[0]) && TimelyRun(Apply(s, acts[0]), acts[1..]))
  }

  // ------------------------------------------------------ the invariant

  predicate ListDistinct(pc: Pc) {
    match pc
    case Resetting(todo) => Distinct(todo)
    case Announcing(todo) => Distinct(todo)
    case Requeueing(todo) => Distinct(todo)
    case ReadingQueue(c) => Distinct(c)
    case ReadingProcessing(c, _) => Distinct(c)
    case Recovering(c, _) => Distinct(c)
    case _ => true
  }

  /** Neither about to be pushed by the backend nor in jobs:queue. */
  predicate Unqueued(s: State, id: JobId) {
    !Pending(s, id) && JobRef(id) !in s.st.queue
  }

  /** The row cannot be running any more once its worker is past the result. */
  predicate PastResult(pc: Pc) {
    pc.Publishing? || pc.Acking?
  }

  /** Everything one process's place in its code says about one job. */
  ghost predicate PcGood(s: State, p: Proc, id: JobId)
    requires p in s.pcs
  {
    var pc := s.pcs[p];
    && (Holds(pc, id) ==> Unqueued(s, id) && JobRef(id) in s.st.processing)
    && (Holds(pc, id) && PastResult(pc) ==> !Has(s.st, id, Running))
    && (WillPush(pc, id) ==> Unqueued(s, id) && (forall q :: q in s.pcs ==> !Holds(s.pcs[q], id)))
    && ((pc.Recovering? && WillPush(pc, id)) || Between(pc, id) ==> !Has(s.st, id, Running))
    && (pc.ReadingQueue? && id in pc.candidates ==> !Pending(s, id))
    && (pc.ReadingProcessing? && id in pc.candidates && JobRef(id) !in pc.live ==> Unqueued(s, id))
  }

  ghost predicate Good(s: State, id: JobId) {
    && (forall p, q :: p in s.pcs && q in s.pcs && Holds(s.pcs[p], id) && Holds(s.pcs[q], id) ==> p == q)
    && (Pending(s, id) ==> JobRef(id) !in s.st.queue)
    && multiset(s.st.queue)[JobRef(id)] <= 1
    && (Has(s.st, id, Running) ==> Unqueued(s, id) && JobRef(id) in s.st.processing)
    && (forall p :: p in s.pcs ==> PcGood(s, p, id))
  }

  ghost predicate OnePass(s: State) {
    && (forall p, q :: p in s.pcs && q in s.pcs && Sweeping(s.pcs[p]) && Sweeping(s.pcs[q]) ==> p == q)
    && (forall p :: p in s.pcs ==> ListDistinct(s.pcs[p]))
  }

  ghost predicate Inv(s: State) {
    Known(s) && OnePass(s) && forall id :: Good(s, id)
  }

  // -------------------------------------------------- preservation

  lemma OnePassStep(s: State, a: Action)
    requires OnePass(s) && Timely(s, a)
    ensures OnePass(Apply(s, a))
  {
    match a
    case Work(p, w) => if p in s.pcs { OnePassWorker(s, p, w); }
    case Sweep(p, r) => if p in s.pcs { OnePassReconciler(s, p, r); }
    case _ =>
  }

  lemma OnePassWorker(s: State, p: Proc, w: WorkerEvent)
    requires OnePass(s) && p in s.pcs
    ensures OnePass(WorkerStep(s, p, s.pcs[p], w))
  {
    var s' := WorkerStep(s, p, s.pcs[p], w);
    if !w.TakeJob? && !w.ReadJob? && !w.AckJob? { RunStepFrame(s, p, w); }
    OnePassMoved(s, p, s');
  }

  lemma OnePassMoved(s: State, p: Proc, s': State)
    requires OnePass(s) && p in s.pcs && p in s'.pcs && s'.pcs == s.pcs[p := s'.pcs[p]]
    requires s'.pcs[p] == s.pcs[p] || !Sweeping(s'.pcs[p])
    ensures OnePass(s')
  {
    assert forall q :: q in s'.pcs && q != p ==> q in s.pcs && s'.pcs[q] == s.pcs[q];
  }

  lemma OnePassReconciler(s: State, p: Proc, r: ReconcilerEvent)
    requires OnePass(s) && p in s.pcs && Timely(s, Sweep(p, r))
    ensures OnePass(ReconcilerStep(s, p, s.pcs[p], r))
  {
    var s' := ReconcilerStep(s, p, s.pcs[p], r);
    SweepKeepsDistinct(s.st, s.cfg, s.pcs[p], r);
    assert forall q :: q in s'.pcs && q != p ==> q in s.pcs && s'.pcs[q] == s.pcs[q];
  }

  /** A pass begins only from Idle, with a list without duplicates. */
  lemma SweepKeepsDistinct(st: Store, cfg: Config, pc: Pc, r: ReconcilerEvent)
    requires ListDistinct(pc)
    ensures var pc' := SweepLocal(st, cfg, pc, r).1;
            ListDistinct(pc') && (Sweeping(pc') ==> Sweeping(pc) || r.FindStale?)
  {}

  lemma GoodBackend(s: State, b: BackendEvent, id: JobId)
    requires Known(s) && Good(s, id)
    ensures Good(BackendStep(s, b), id)
  {
    var s' := BackendStep(s, b);
    assert s'.pcs == s.pcs;
    if b.Create? {
      if b.id == id && id !in s.st.rows {
        FreshIsNowhere(s, id);
      }
    } else {
      BackendGoodFor(s, b, id);
      forall q | q in s'.pcs ensures PcGood(s', q, id) {
        assert PcGood(s, q, id);
      }
    }
  }

  /** An existing job is never made running or newly pending by the backend,
      and is pushed only if it was pending. */
  lemma BackendGoodFor(s: State, b: BackendEvent, id: JobId)
    requires !b.Create? && Good(s, id)
    ensures var s' := BackendStep(s, b);
            && s'.st.processing == s.st.processing
            && (Has(s'.st, id, Running) ==> Has(s.st, id, Running))
            && (Pending(s', id) ==> Pending(s, id) && JobRef(id) !in s'.st.queue)
            && (JobRef(id) in s'.st.queue ==> JobRef(id) in s.st.queue || Pending(s, id))
            && multiset(s'.st.queue)[JobRef(id)] <= 1
  {
    if b.EnqueueOk? || b.EnqueueRaises? {
      assert multiset(Enqueue(s.st, b.id).queue) == multiset{JobRef(b.id)} + multiset(s.st.queue);
    } else if b.DequeueCancelled? {
      RemoveAllCounts(s.st.queue, JobRef(b.id));
    }
  }

  lemma FreshIsNowhere(s: State, id: JobId)
    requires Known(s) && id !in s.st.rows
    ensures forall p :: p in s.pcs ==> !Holds(s.pcs[p], id) && !WillPush(s.pcs[p], id)
    ensures forall p :: p in s.pcs && s.pcs[p].ReadingQueue? ==> id !in s.pcs[p].candidates
    ensures forall p :: p in s.pcs && s.pcs[p].ReadingProcessing? ==> id !in s.pcs[p].candidates
  {
    forall p | p in s.pcs ensures !Holds(s.pcs[p], id) && !WillPush(s.pcs[p], id) {
      assert PcKnown(s.pcs[p], s.st.rows.Keys);
    }
  }

  lemma GoodWorker(s: State, p: Proc, w: WorkerEvent, id: JobId)
    requires Good(s, id) && p in s.pcs
    ensures Good(WorkerStep(s, p, s.pcs[p], w), id)
  {
    match w
    case TakeJob => if s.pcs[p].Idle? && s.st.queue != [] { GoodTake(s, p, id); }
    case ReadJob => if s.pcs[p].Claimed? { GoodRead(s, p, id); }
    case AckJob => if s.pcs[p].Acking? { GoodAck(s, p, id); }
    case _ => GoodRun(s, p, w, id);
  }

  lemma GoodTake(s: State, p: Proc, id: JobId)
    requires Good(s, id) && p in s.pcs && s.pcs[p].Idle? && s.st.queue != []
    ensures Good(Become(s, Claim(s.st), p, Claimed(Next(s.st))), id)
  {
    var s' := Become(s, Claim(s.st), p, Claimed(Next(s.st)));
    ClaimFacts(s.st);
    assert PcGood(s, p, id);
    forall q | q in s'.pcs ensures PcGood(s', q, id) {
      if q != p { assert PcGood(s, q, id); }
    }
  }

  lemma GoodRead(s: State, p: Proc, id: JobId)
    requires Good(s, id) && p in s.pcs && s.pcs[p].Claimed?
    ensures Good(Goto(s, p, ReadLocal(s.st, s.pcs[p].entry)), id)
  {
    var s' := Goto(s, p, ReadLocal(s.st, s.pcs[p].entry));
    forall q | q in s'.pcs ensures PcGood(s', q, id) {
      assert PcGood(s, q, id);
      assert Holds(s'.pcs[q], id) ==> Holds(s.pcs[q], id);
    }
  }

  lemma GoodAck(s: State, p: Proc, id: JobId)
    requires Good(s, id) && p in s.pcs && s.pcs[p].Acking?
    ensures Good(Become(s, Ack(s.st, s.pcs[p].entry), p, Idle), id)
  {
    var s' := Become(s, Ack(s.st, s.pcs[p].entry), p, Idle);
    assert PcGood(s, p, id);
    forall q | q in s'.pcs ensures PcGood(s', q, id) {
      assert PcGood(s, q, id);
    }
  }

  lemma GoodRun(s: State, p: Proc, w: WorkerEvent, id: JobId)
    requires Good(s, id) && p in s.pcs
    ensures Good(RunStep(s, p, s.pcs[p], w), id)
  {
    var s' := RunStep(s, p, s.pcs[p], w);
    RunStepFrame(s, p, w);
    RunStatus(s, p, w, id);
    assert PcGood(s, p, id);
    GoodRunFrame(s, p, s', id);
  }

  /** Only mark_running makes a row running, and no row is running once its result is written. */
  lemma RunStatus(s: State, p: Proc, w: WorkerEvent, id: JobId)
    requires p in s.pcs && PcGood(s, p, id)
    ensures var s' := RunStep(s, p, s.pcs[p], w);
            && (Has(s'.st, id, Running) ==> Has(s.st, id, Running) || Holds(s.pcs[p], id))
            && (Holds(s'.pcs[p], id) && PastResult(s'.pcs[p]) ==> !Has(s'.st, id, Running))
  {}

  lemma GoodRunFrame(s: State, p: Proc, s': State, id: JobId)
    requires p in s.pcs && Good(s, id) && RunFrame(s, p, s')
    requires Has(s'.st, id, Running) ==> Has(s.st, id, Running) || Holds(s.pcs[p], id)
    requires Holds(s'.pcs[p], id) && PastResult(s'.pcs[p]) ==> !Has(s'.st, id, Running)
    ensures Good(s', id)
  {
    assert PcGood(s, p, id);
    forall q | q in s'.pcs ensures PcGood(s', q, id) {
      assert PcGood(s, q, id);
      assert q != p ==> s'.pcs[q] == s.pcs[q];
    }
  }

  lemma GoodReconciler(s: State, p: Proc, r: ReconcilerEvent, id: JobId)
    requires Inv(s) && p in s.pcs && Timely(s, Sweep(p, r))
    ensures Good(ReconcilerStep(s, p, s.pcs[p], r), id)
  {
    if InPhaseOne(r) { GoodPhaseOne(s, p, r, id); } else { GoodPhaseTwo(s, p, r, id); }
  }

  lemma GoodPhaseOne(s: State, p: Proc, r: ReconcilerEvent, id: JobId)
    requires Inv(s) && p in s.pcs && Timely(s, Sweep(p, r)) && InPhaseOne(r)
    ensures Good(Move(s, p, SweepLocal(s.st, s.cfg, s.pcs[p], r)), id)
  {
    var pc := s.pcs[p];
    assert Good(s, id);
    if SweepLocal(s.st, s.cfg, pc, r) == (s.st, pc) {
      GoodStay(s, p, id);
    } else {
      match r
      case FindStale(ids) => GoodFindStale(s, p, ids, id);
      case ResetOne => GoodReset(s, p, id);
      case AnnounceOne => GoodAnnounce(s, p, id);
      case RequeueOne => GoodRequeue(s, p, id);
    }
  }

  lemma GoodPhaseTwo(s: State, p: Proc, r: ReconcilerEvent, id: JobId)
    requires Inv(s) && p in s.pcs && Timely(s, Sweep(p, r)) && !InPhaseOne(r)
    ensures Good(Move(s, p, OrphanLocal(s.st, s.cfg, s.pcs[p], r)), id)
  {
    var pc := s.pcs[p];
    assert Good(s, id);
    if OrphanLocal(s.st, s.cfg, pc, r) == (s.st, pc) {
      GoodStay(s, p, id);
    } else {
      match r
      case FindOrphans(ids) => GoodFindOrphans(s, p, ids, id);
      case ReadQueue => GoodReadQueue(s, p, id);
      case ReadProcessing => GoodReadProcessing(s, p, id);
      case RecoverOne => if pc.candidates == [] { GoodGoto(s, p, Idle, id); } else { GoodRecover(s, p, id); }
    }
  }

  lemma GoodStay(s: State, p: Proc, id: JobId)
    requires Good(s, id) && p in s.pcs
    ensures Good(Become(s, s.st, p, s.pcs[p]), id)
  {
    assert s.pcs[p := s.pcs[p]] == s.pcs;
  }

  /** A step that only moves one process: the others keep what they had. */
  lemma GoodGoto(s: State, p: Proc, pc: Pc, id: JobId)
    requires Good(s, id) && p in s.pcs
    requires Holds(pc, id) ==> Holds(s.pcs[p], id)
    requires PcGood(Goto(s, p, pc), p, id)
    ensures Good(Goto(s, p, pc), id)
  {
    var s' := Goto(s, p, pc);
    forall q | q in s'.pcs ensures PcGood(s', q, id) {
      if q != p { assert PcGood(s, q, id); }
    }
  }

  lemma GoodFindStale(s: State, p: Proc, ids: seq<JobId>, id: JobId)
    requires Good(s, id) && p in s.pcs && Timely(s, Sweep(p, FindStale(ids)))
    requires s.pcs[p].Idle? && Enumerates(ids, StaleRunning(s.st, s.cfg.visibility))
    ensures Good(Goto(s, p, Resetting(ids)), id)
  {
    assert id in ids ==> id in StaleRunning(s.st, s.cfg.visibility);
    GoodGoto(s, p, Resetting(ids), id);
  }

  lemma GoodReset(s: State, p: Proc, id: JobId)
    requires Good(s, id) && p in s.pcs && s.pcs[p].Resetting? && s.pcs[p].todo != []
    ensures Good(Become(s, ResetToQueued(s.st, s.pcs[p].todo[0]), p, Announcing(s.pcs[p].todo)), id)
  {
    var s' := Become(s, ResetToQueued(s.st, s.pcs[p].todo[0]), p, Announcing(s.pcs[p].todo));
    forall q | q in s'.pcs ensures PcGood(s', q, id) {
      assert PcGood(s, q, id);
      assert q != p ==> s'.pcs[q] == s.pcs[q];
    }
  }

  lemma GoodAnnounce(s: State, p: Proc, id: JobId)
    requires Good(s, id) && p in s.pcs && s.pcs[p].Announcing? && s.pcs[p].todo != []
    ensures Good(Become(s, Publish(s.st, s.pcs[p].todo[0], Queued, false), p, Requeueing(s.pcs[p].todo)), id)
  {
    var s' := Become(s, Publish(s.st, s.pcs[p].todo[0], Queued, false), p, Requeueing(s.pcs[p].todo));
    forall q | q in s'.pcs ensures PcGood(s', q, id) {
      assert PcGood(s, q, id);
      assert q != p ==> s'.pcs[q] == s.pcs[q];
    }
  }

  /** Pushing an id that nothing else has a claim on. */
  lemma GoodPush(s: State, p: Proc, x: JobId, pc: Pc, id: JobId)
    requires Good(s, id) && OnePass(s) && p in s.pcs && Sweeping(s.pcs[p]) && (Sweeping(pc) || pc.Idle?)
    requires WillPush(s.pcs[p], x) && !Has(s.st, x, Running) && !WillPush(pc, x)
    requires WillPush(pc, id) ==> WillPush(s.pcs[p], id)
    requires pc.Recovering? ==> s.pcs[p].Recovering?
    requires pc.Resetting? || pc.Recovering?
    ensures Good(Become(s, Requeue(s.st, x), p, pc), id)
  {
    var s' := Become(s, Requeue(s.st, x), p, pc);
    assert PcGood(s, p, id);
    assert multiset(s'.st.queue) == multiset{JobRef(x)} + multiset(s.st.queue);
    forall q | q in s'.pcs ensures PcGood(s', q, id) {
      assert PcGood(s, q, id);
      assert q != p ==> s'.pcs[q] == s.pcs[q] && !Sweeping(s.pcs[q]);
      assert !Sweeping(s.pcs[q]) ==> !WillPush(s.pcs[q], id) && !Between(s.pcs[q], id);
    }
  }

  lemma GoodRequeue(s: State, p: Proc, id: JobId)
    requires Inv(s) && p in s.pcs && s.pcs[p].Requeueing? && s.pcs[p].todo != []
    ensures Good(Become(s, Requeue(s.st, s.pcs[p].todo[0]), p, Resetting(s.pcs[p].todo[1..])), id)
  {
    var x := s.pcs[p].todo[0];
    assert Good(s, x) && Good(s, id) && PcGood(s, p, x);
    assert ListDistinct(s.pcs[p]);
    assert x !in s.pcs[p].todo[1..];
    GoodPush(s, p, x, Resetting(s.pcs[p].todo[1..]), id);
  }

  lemma GoodFindOrphans(s: State, p: Proc, ids: seq<JobId>, id: JobId)
    requires Good(s, id) && p in s.pcs && Timely(s, Sweep(p, FindOrphans(ids)))
    requires s.pcs[p].Resetting? && Enumerates(ids, OrphanQueued(s.st, s.cfg.grace))
    ensures Good(Goto(s, p, if ids == [] then Idle else ReadingQueue(ids)), id)
  {
    assert id in ids ==> id in OrphanQueued(s.st, s.cfg.grace);
    GoodGoto(s, p, if ids == [] then Idle else ReadingQueue(ids), id);
  }

  lemma GoodReadQueue(s: State, p: Proc, id: JobId)
    requires Good(s, id) && p in s.pcs && s.pcs[p].ReadingQueue?
    ensures Good(Goto(s, p, ReadingProcessing(s.pcs[p].candidates, Members(s.st.queue))), id)
  {
    assert PcGood(s, p, id);
    GoodGoto(s, p, ReadingProcessing(s.pcs[p].candidates, Members(s.st.queue)), id);
  }

  /** After both reads an id in neither snapshot has no holder: the queue was
      read first, so a claim in between shows up in the second read. */
  lemma GoodReadProcessing(s: State, p: Proc, id: JobId)
    requires Good(s, id) && p in s.pcs && s.pcs[p].ReadingProcessing?
    ensures Good(Goto(s, p, Recovering(s.pcs[p].candidates, s.pcs[p].live + Members(s.st.processing))), id)
  {
    var live := s.pcs[p].live + Members(s.st.processing);
    assert PcGood(s, p, id);
    if id in s.pcs[p].candidates && JobRef(id) !in live {
      assert JobRef(id) !in s.st.processing;
      forall q | q in s.pcs ensures !Holds(s.pcs[q], id) {
        assert PcGood(s, q, id);
      }
    }
    GoodGoto(s, p, Recovering(s.pcs[p].candidates, live), id);
  }

  lemma GoodRecover(s: State, p: Proc, id: JobId)
    requires Inv(s) && p in s.pcs && s.pcs[p].Recovering? && s.pcs[p].candidates != []
    ensures var pc := s.pcs[p];
            var st := if JobRef(pc.candidates[0]) in pc.live then s.st else Requeue(s.st, pc.candidates[0]);
            Good(Become(s, st, p, Recovering(pc.candidates[1..], pc.live)), id)
  {
    var pc := s.pcs[p];
    var x := pc.candidates[0];
    var pc' := Recovering(pc.candidates[1..], pc.live);
    assert Good(s, id) && PcGood(s, p, id);
    assert Good(s, x) && PcGood(s, p, x);
    if JobRef(x) in pc.live {
      GoodGoto(s, p, pc', id);
      assert Become(s, s.st, p, pc') == Goto(s, p, pc');
    } else {
      assert ListDistinct(pc);
      assert x !in pc'.candidates;
      GoodPush(s, p, x, pc', id);
    }
  }

  lemma GoodEnvironment(s: State, a: Action, id: JobId)
    requires Good(s, id) && a != Flush && !a.Backend? && !a.Work? && !a.Sweep?
    ensures Good(Apply(s, a), id)
  {
    var s' := Apply(s, a);
    forall q | q in s'.pcs ensures PcGood(s', q, id) {
      assert q in s.pcs ==> s'.pcs[q] == s.pcs[q] && PcGood(s, q, id);
    }
  }

  lemma InvStep(s: State, a: Action)
    requires Inv(s) && Timely(s, a)
    ensures Inv(Apply(s, a))
  {
    KnownStep(s, a);
    OnePassStep(s, a);
    forall id ensures Good(Apply(s, a), id) {
      assert Good(s, id);
      match a
      case Backend(b) => GoodBackend(s, b, id);
      case Work(p, w) => if p in s.pcs { GoodWorker(s, p, w, id); }
      case Sweep(p, r) => if p in s.pcs { GoodReconciler(s, p, r, id); }
      case _ => GoodEnvironment(s, a, id);
    }
  }

  lemma {:induction false} InvKept(s: State, acts: seq<Action>)
    requires Inv(s) && TimelyRun(s, acts)
    ensures Inv(Exec(s, acts))
    decreases |acts|
  {
    if acts != [] {
      InvStep(s, acts[0]);
      InvKept(Apply(s, acts[0]), acts[1..]);
    }
  }

  lemma GoodMeansOneToken(s: State, id: JobId)
    requires Good(s, id)
    ensures Tokens(s, id) <= 1
  {
    var h := Holders(s, id);
    if p :| p in h {
      assert PcGood(s, p, id);
      assert forall q :: q in h ==> q == p;
      assert h == {p};
    }
  }

  /** Any number of workers, any interleaving within the timing assumptions:
      for every job, the pushes still owed, the queue entries and the live
      workers holding it together number at most one. */
  lemma MutualExclusion(cfg: Config, now: int, acts: seq<Action>, id: JobId)
    requires TimelyRun(Init(cfg, now), acts)
    ensures Tokens(Exec(Init(cfg, now), acts), id) <= 1
  {
    InvKept(Init(cfg, now), acts);
    GoodMeansOneToken(Exec(Init(cfg, now), acts), id);
  }
}
