/** When a poll reports a terminal status for a job that is still active: exactly
    what one call, and one publish, must meet for it, and that it takes a lost
    mark_running or a broken timing assumption. */
module Reports {
  import opened Wrappers
  import opened Store
  import opened Validation
  import opened Protocol
  import opened LocalRuns
  import opened Frames
  import opened RowSafety
  import opened Stranding
  import opened Exclusion
  import opened Backend
  import opened Polling
  import opened Processor

  /** A poll answers with a terminal status while the row is active. */
  predicate Misreports(st: Store, id: JobId) {
    id in st.rows && !Terminal(st.rows[id].status) && Terminal(View(st, id).status)
  }

  // -------------------------------------------------------- one publish

  /** A worker's terminal publish makes polls misreport exactly when the row is not
      terminal and was last written in an earlier second. */
  lemma PublishMisreportsExactly(s: State, p: Proc, id: JobId, status: Status)
    requires p in s.pcs && s.pcs[p] == Publishing(id, status) && Terminal(status) && id in s.st.rows
    ensures Misreports(Apply(s, Work(p, ResultPublished)).st, id)
            <==> !Terminal(s.st.rows[id].status) && s.st.rows[id].updatedAt < FloorToSecond(s.st.now)
  {
    var st := Publish(s.st, id, status, true);
    assert Apply(s, Work(p, ResultPublished)).st == st;
    assert Visible(st, id) && st.hash[id] == Live(status, FloorToSecond(s.st.now), Some(s.st.now + TERMINAL_TTL));
  }

  function Finish(): seq<LocalAct> {
    [Do(ExecutorReturns), Do(CompleteOk), Do(ResultPublished)]
  }

  /** Without any infrastructure fault: a worker whose job was reset under it
      because its heartbeat was late publishes completed for a queued row. */
  lemma LateWorkerMisreports(s: State, p: Proc, id: JobId)
    requires p in s.pcs && s.pcs[p] == Executing(id)
    requires Has(s.st, id, Queued) && s.st.rows[id].updatedAt < FloorToSecond(s.st.now)
    ensures var e := Exec(s, Lift(p, Finish()));
            Has(e.st, id, Queued) && View(e.st, id).status == Completed
  {
    LiftRuns(s, p, Finish());
    FinishSteps(s.cfg, s.st, id);
    PublishedOverQueued(s.st, id);
  }

  lemma FinishSteps(cfg: Config, st: Store, id: JobId)
    ensures Steps(cfg, Place(st, Executing(id)), Finish()).st
            == Publish(MarkCompleted(st, id, CheckpointPrefix(id)), id, Completed, true)
  {
    Steps3(cfg, Place(st, Executing(id)), Do(ExecutorReturns), Do(CompleteOk), Do(ResultPublished));
  }

  lemma PublishedOverQueued(st: Store, id: JobId)
    requires Has(st, id, Queued) && st.rows[id].updatedAt < FloorToSecond(st.now)
    ensures var r := Publish(MarkCompleted(st, id, CheckpointPrefix(id)), id, Completed, true);
            Has(r, id, Queued) && View(r, id).status == Completed
  {}

  // -------------------------------------------------------- one call

  ghost predicate StampedHash(st: Store, id: JobId) {
    id in st.hash ==> st.hash[id].updatedAt <= FloorToSecond(st.now)
  }

  predicate SaysRunning(st: Store, id: JobId) {
    id in st.rows && id in st.hash && st.hash[id].status == Running
  }

  lemma ExecutedSaysRunning(st: Store, id: JobId, x: ExecScript)
    requires SaysRunning(st, id)
    ensures SaysRunning(Executed(st, id, x), id)
  {
    ExecutedFacts(st, id, x);
  }

  lemma RunExecutedIsHonest(st: Store, id: JobId, x: Script)
    requires Has(st, id, Running) && SaysRunning(st, id)
    ensures var r := RunExecuted(st, id, x).0;
            id in r.rows && (Terminal(r.rows[id].status) || SaysRunning(r, id))
  {}

  /** Once the running publish has gone through, the run itself leaves a hash that
      says running, or a terminal row. */
  lemma AnnouncedIsHonest(st: Store, models: seq<Model>, id: JobId, row: Row, x: Script)
    requires Has(st, id, Running) && SaysRunning(st, id)
    ensures var r := RunAnnounced(st, models, id, row, x).0;
            id in r.rows && (Terminal(r.rows[id].status) || SaysRunning(r, id))
  {
    if Checks(models, row, x).None? {
      ExecutedSaysRunning(st, id, x.exec);
      ExecutedFacts(st, id, x.exec);
      RunExecutedIsHonest(Executed(st, id, x.exec), id, x);
    }
  }

  lemma RunIsHonest(st: Store, models: seq<Model>, id: JobId, row: Row, x: Script)
    requires id in st.rows && !Terminal(st.rows[id].status)
    requires StampedHash(st, id) && !Misreports(st, id)
    ensures !Misreports(Run(st, models, id, row, x).0, id)
  {
    var marked := Attempt(x.mark, st, MarkRunning(st, id));
    FloorFacts(st.now, st.now);
    if x.mark.None? && x.announce.None? {
      AnnouncedIsHonest(Publish(marked, id, Running, false), models, id, row, x);
    }
  }

  /** One uninterrupted call, whatever raises: it makes polls misreport exactly when
      the job was queued, last written in an earlier second, mark_running raised
      without effect, and _fail got as far as its publish. */
  lemma ProcessMisreportsExactly(st: Store, models: seq<Model>, id: JobId, x: Script)
    requires Runnable(st, JobRef(id)) && StampedHash(st, id) && !Misreports(st, id)
    ensures Misreports(Process(st, models, JobRef(id), x), id)
            <==> && Has(st, id, Queued) && st.rows[id].updatedAt < FloorToSecond(st.now)
                 && x.getError.None? && !Takes(x.mark)
                 && x.fail.None? && Takes(x.failResult)
  {
    if x.getError.None? {
      var (r, end) := Run(st, models, id, st.rows[id], x);
      RunIsHonest(st, models, id, st.rows[id], x);
      RunFacts(st, models, id, st.rows[id], x);
      if end.Raised? {
        FailMisreportsExactly(r, id, end.why, x);
      }
    }
  }

  lemma FailMisreportsExactly(st: Store, id: JobId, why: Reason, x: Script)
    requires id in st.rows && !Misreports(st, id)
    ensures Misreports(Fail(st, id, why, x).0, id)
            <==> && Has(st, id, Queued) && st.rows[id].updatedAt < FloorToSecond(st.now)
                 && x.fail.None? && Takes(x.failResult)
  {}

  // -------------------------------------------------------- whole runs

  /** What a place in the code says about the row, if reports are to be true. */
  predicate HonestPc(st: Store, pc: Pc) {
    && (pc.Started? || pc.Executing? || pc.Finished? || pc.Failing? ==>
          pc.id in st.rows && st.rows[pc.id].status != Queued)
    && (pc.Publishing? ==> pc.id in st.rows && Terminal(st.rows[pc.id].status))
  }

  ghost predicate HonestHash(st: Store) {
    forall id :: id in st.hash && Terminal(st.hash[id].status) ==> id in st.rows && Terminal(st.rows[id].status)
  }

  ghost predicate Honest(s: State) {
    HonestHash(s.st) && forall p :: p in s.pcs ==> HonestPc(s.st, s.pcs[p])
  }

  predicate LosesMark(a: Action) {
    a.Work? && a.w.MarkRaises? && !a.w.applied
  }

  /** No write but a reset makes a row queued again, and no write revives one. */
  ghost predicate Onward(st: Store, st': Store) {
    forall id :: id in st.rows ==>
      && id in st'.rows
      && (Terminal(st.rows[id].status) ==> Terminal(st'.rows[id].status))
      && (st.rows[id].status != Queued ==> st'.rows[id].status != Queued)
  }

  lemma OnwardKeepsPc(st: Store, st': Store, pc: Pc)
    requires Onward(st, st') && HonestPc(st, pc)
    ensures HonestPc(st', pc)
  {}

  lemma WorkerGoesOnward(st: Store, pc: Pc, w: WorkerEvent)
    ensures Onward(st, WorkerLocal(st, pc, w).0)
  {}

  lemma WorkerPlaceIsHonest(st: Store, pc: Pc, w: WorkerEvent)
    requires HonestPc(st, pc)
    requires pc.Fetched? ==> pc.id in st.rows
    requires w.MarkRaises? ==> w.applied
    ensures var (st', pc') := WorkerLocal(st, pc, w); HonestPc(st', pc')
  {}

  /** A worker publishes nothing, that the job is running, or a result it has written. */
  lemma WorkerPublishes(st: Store, pc: Pc, w: WorkerEvent)
    requires HonestPc(st, pc)
    ensures var st' := WorkerLocal(st, pc, w).0;
            forall id :: id in st'.hash && Terminal(st'.hash[id].status) ==>
              (id in st.hash && Terminal(st.hash[id].status)) || (id in st.rows && Terminal(st.rows[id].status))
  {}

  lemma WorkerIsHonest(st: Store, pc: Pc, w: WorkerEvent)
    requires HonestHash(st) && HonestPc(st, pc)
    requires pc.Fetched? ==> pc.id in st.rows
    requires w.MarkRaises? ==> w.applied
    ensures var (st', pc') := WorkerLocal(st, pc, w);
            Onward(st, st') && HonestHash(st') && HonestPc(st', pc')
  {
    WorkerGoesOnward(st, pc, w);
    WorkerPlaceIsHonest(st, pc, w);
    WorkerPublishes(st, pc, w);
  }

  lemma BackendIsHonest(s: State, b: BackendEvent)
    requires HonestHash(s.st)
    ensures var s' := BackendStep(s, b);
            Onward(s.st, s'.st) && HonestHash(s'.st) && s'.pcs == s.pcs
  {}

  /** A reset never hits a job that a live worker holds. */
  lemma ResetIsHonest(s: State, p: Proc)
    requires Inv(s) && Honest(s) && p in s.pcs && s.pcs[p].Resetting? && s.pcs[p].todo != []
    ensures Honest(Apply(s, Sweep(p, ResetOne)))
  {
    var id := s.pcs[p].todo[0];
    var s' := Apply(s, Sweep(p, ResetOne));
    assert s'.st == ResetToQueued(s.st, id);
    assert Good(s, id) && PcGood(s, p, id) && WillPush(s.pcs[p], id);
    forall q | q in s'.pcs ensures HonestPc(s'.st, s'.pcs[q]) {
      if q != p {
        assert !Holds(s.pcs[q], id);
        assert HonestPc(s.st, s.pcs[q]);
      }
    }
  }

  lemma SweepIsHonest(st: Store, cfg: Config, pc: Pc, r: ReconcilerEvent)
    requires HonestHash(st) && HonestPc(st, pc) && !r.ResetOne?
    ensures var (st', pc') := SweepLocal(st, cfg, pc, r);
            Onward(st, st') && HonestHash(st') && HonestPc(st', pc')
  {}

  lemma HonestMove(s: State, p: Proc, st': Store, pc': Pc)
    requires Honest(s) && p in s.pcs
    requires Onward(s.st, st') && HonestHash(st') && HonestPc(st', pc')
    ensures Honest(Become(s, st', p, pc'))
  {
    forall q | q in s.pcs && q != p ensures HonestPc(st', s.pcs[q]) {
      OnwardKeepsPc(s.st, st', s.pcs[q]);
    }
  }

  lemma HonestStep(s: State, a: Action)
    requires Inv(s) && Honest(s) && Timely(s, a) && !LosesMark(a)
    ensures Honest(Apply(s, a))
  {
    match a
    case Backend(b) => HonestBackend(s, b);
    case Work(p, w) =>
      if p in s.pcs {
        assert PcKnown(s.pcs[p], s.st.rows.Keys);
        WorkerIsHonest(s.st, s.pcs[p], w);
        var to := WorkerLocal(s.st, s.pcs[p], w);
        HonestMove(s, p, to.0, to.1);
      }
    case Sweep(p, r) => if p in s.pcs { HonestSweep(s, p, r); }
    case _ =>
  }

  lemma HonestBackend(s: State, b: BackendEvent)
    requires Honest(s)
    ensures Honest(BackendStep(s, b))
  {
    BackendIsHonest(s, b);
    var s' := BackendStep(s, b);
    forall q | q in s'.pcs ensures HonestPc(s'.st, s'.pcs[q]) {
      OnwardKeepsPc(s.st, s'.st, s.pcs[q]);
    }
  }

  lemma HonestSweep(s: State, p: Proc, r: ReconcilerEvent)
    requires Inv(s) && Honest(s) && p in s.pcs
    ensures Honest(ReconcilerStep(s, p, s.pcs[p], r))
  {
    if r.ResetOne? && s.pcs[p].Resetting? && s.pcs[p].todo != [] {
      ResetIsHonest(s, p);
    } else {
      var to := SweepLocal(s.st, s.cfg, s.pcs[p], r);
      if r.ResetOne? {
        assert to == (s.st, s.pcs[p]);
      } else {
        SweepIsHonest(s.st, s.cfg, s.pcs[p], r);
      }
      HonestMove(s, p, to.0, to.1);
    }
  }

  lemma {:induction false} HonestKept(s: State, acts: seq<Action>)
    requires Inv(s) && Honest(s) && TimelyRun(s, acts)
    requires forall a :: a in acts ==> !LosesMark(a)
    ensures Honest(Exec(s, acts))
    decreases |acts|
  {
    if acts != [] {
      assert acts[0] in acts;
      InvStep(s, acts[0]);
      HonestStep(s, acts[0]);
      HonestKept(Apply(s, acts[0]), acts[1..]);
    }
  }

  /** Any number of workers, any timely run in which no mark_running raises without
      effect: a poll, whatever runs between its reads, answers with a terminal
      status only if the row is terminal by then. */
  lemma TerminalAnswersAreTrue(cfg: Config, now: int, acts: seq<Action>, during: seq<Action>, id: JobId)
    requires TimelyRun(Init(cfg, now), acts + during)
    requires forall a :: a in acts + during ==> !LosesMark(a)
    ensures var s := Exec(Init(cfg, now), acts);
            var t := Exec(s, during);
            id in s.st.rows && Terminal(Answer(s.st.rows[id], t.st, id).status) ==>
              id in t.st.rows && Terminal(t.st.rows[id].status)
  {
    var s := Exec(Init(cfg, now), acts);
    ExecConcat(Init(cfg, now), acts, during);
    HonestKept(Init(cfg, now), acts + during);
    if id in s.st.rows && Terminal(s.st.rows[id].status) { TerminalIsFinal(s, during, id); }
  }

  /** In particular no poll ever misreports. */
  lemma NoMisreports(cfg: Config, now: int, acts: seq<Action>, id: JobId)
    requires TimelyRun(Init(cfg, now), acts)
    requires forall a :: a in acts ==> !LosesMark(a)
    ensures !Misreports(Exec(Init(cfg, now), acts).st, id)
  {
    assert acts + [] == acts;
    TerminalAnswersAreTrue(cfg, now, acts, [], id);
  }
}
