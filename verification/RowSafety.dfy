/** What every interleaving keeps about a single row of the jobs table:
    terminal statuses are final, results are coupled to statuses, a cancel is
    authoritative, and starts balance resets. */
module RowSafety {
  import opened Wrappers
  import opened Store
  import opened Protocol

  /** No write, or one of the six that statements in either language can make to a row. */
  ghost predicate RowStep(id: JobId, r: Row, r': Row, now: int) {
    || r' == r
    || (r.status == Queued && r' == r.(status := Running, updatedAt := now))
    || (r.status == Running && r' == r.(updatedAt := now))
    || (r.status == Running && r' == r.(status := Completed, checkpoint := Some(CheckpointPrefix(id)), updatedAt := now))
    || (r.status == Running && r'.error.Some? && r' == r.(status := Failed, error := r'.error, updatedAt := now))
    || (r.status == Running && r' == r.(status := Queued, updatedAt := now))
    || (!Terminal(r.status) && r' == r.(status := Cancelled, updatedAt := now))
  }

  ghost predicate FreshRow(r: Row, now: int) {
    r.status == Queued && r.checkpoint == None && r.error == None && r.createdAt == r.updatedAt == now
  }

  /** The frame and the row writes of one step, for all rows at once. */
  ghost predicate RowsStep(s: State, s': State) {
    && s.st.now <= s'.st.now
    && s.st.rows.Keys <= s'.st.rows.Keys
    && (forall id :: id in s.st.rows ==> RowStep(id, s.st.rows[id], s'.st.rows[id], s.st.now))
    && (forall id :: id in s'.st.rows && id !in s.st.rows ==> FreshRow(s'.st.rows[id], s.st.now))
  }

  lemma ApplyWritesRows(s: State, a: Action)
    ensures RowsStep(s, Apply(s, a))
  {
    match a
    case Backend(b) => BackendWritesRows(s, b);
    case Work(p, w) => if p in s.pcs { WorkerWritesRows(s, p, s.pcs[p], w); }
    case Sweep(p, r) => if p in s.pcs { ReconcilerWritesRows(s, p, s.pcs[p], r); }
    case _ =>
  }

  lemma BackendWritesRows(s: State, b: BackendEvent)
    ensures RowsStep(s, BackendStep(s, b))
  {}

  lemma WorkerWritesRows(s: State, p: Proc, pc: Pc, w: WorkerEvent)
    ensures RowsStep(s, WorkerStep(s, p, pc, w))
  {
    if w.TakeJob? || w.ReadJob? || w.AckJob? {
      ListsWriteNoRows(s, p, pc, w);
    } else {
      RunWritesRows(s, p, pc, w);
    }
  }

  lemma ListsWriteNoRows(s: State, p: Proc, pc: Pc, w: WorkerEvent)
    requires w.TakeJob? || w.ReadJob? || w.AckJob?
    ensures RowsStep(s, WorkerStep(s, p, pc, w))
  {}

  lemma RunWritesRows(s: State, p: Proc, pc: Pc, w: WorkerEvent)
    ensures RowsStep(s, RunStep(s, p, pc, w))
  {}

  lemma ReconcilerWritesRows(s: State, p: Proc, pc: Pc, r: ReconcilerEvent)
    ensures RowsStep(s, ReconcilerStep(s, p, pc, r))
  {}

  // ------------------------------------------------- terminal is final

  /** From any state whatever, a terminal row is never written again. */
  lemma {:induction false} TerminalIsFinal(s: State, acts: seq<Action>, id: JobId)
    requires id in s.st.rows && Terminal(s.st.rows[id].status)
    ensures id in Exec(s, acts).st.rows && Exec(s, acts).st.rows[id] == s.st.rows[id]
    decreases |acts|
  {
    if acts != [] {
      ApplyWritesRows(s, acts[0]);
      TerminalIsFinal(Apply(s, acts[0]), acts[1..], id);
    }
  }

  /** What CreateJob wrote stays: over every run the row keeps the base model, the
      dataset path and the creation time of its Create. */
  lemma CreatedRowKeepsItsInput(s: State, id: JobId, model: string, path: string, acts: seq<Action>)
    requires id !in s.st.rows
    ensures var e := Exec(Apply(s, Backend(Create(id, model, path))), acts);
            && id in e.st.rows
            && e.st.rows[id].baseModel == model && e.st.rows[id].datasetPath == path
            && e.st.rows[id].createdAt == s.st.now
  {
    InputStays(Apply(s, Backend(Create(id, model, path))), acts, id);
  }

  lemma {:induction false} InputStays(s: State, acts: seq<Action>, id: JobId)
    requires id in s.st.rows
    ensures var e := Exec(s, acts);
            && id in e.st.rows
            && e.st.rows[id].baseModel == s.st.rows[id].baseModel && e.st.rows[id].datasetPath == s.st.rows[id].datasetPath
            && e.st.rows[id].createdAt == s.st.rows[id].createdAt
    decreases |acts|
  {
    if acts != [] {
      ApplyWritesRows(s, acts[0]);
      assert RowStep(id, s.st.rows[id], Apply(s, acts[0]).st.rows[id], s.st.now);
      InputStays(Apply(s, acts[0]), acts[1..], id);
    }
  }

  /** The whole transition table. */
  lemma TransitionsExactly(from: Status, to: Status)
    ensures ValidTransition(from, to)
            <==> (from, to) in {(Queued, Running), (Queued, Cancelled),
                                (Running, Completed), (Running, Failed), (Running, Cancelled)}
  {}

  function StatusOf(s: State, id: JobId): Option<Status> {
    if id in s.st.rows then Some(s.st.rows[id].status) else None
  }

  /** How many steps of a run take the job's status from `f` to `t`. */
  function Moves(s: State, acts: seq<Action>, id: JobId, f: Option<Status>, t: Status): nat
    decreases |acts|
  {
    if acts == [] then 0
    else
      var s' := Apply(s, acts[0]);
      (if StatusOf(s, id) == f && StatusOf(s', id) == Some(t) && f != Some(t) then 1 else 0)
        + Moves(s', acts[1..], id, f, t)
  }

  /** Every status change of every run is in the backend's table, is the
      creation of a queued row, or is the reconciler's running -> queued. */
  lemma {:induction false} StatusWritesAreLegal(s: State, acts: seq<Action>, id: JobId, f: Option<Status>, t: Status)
    requires Moves(s, acts, id, f, t) > 0
    ensures match f
            case None => t == Queued
            case Some(from) => ValidTransition(from, t) || (from == Running && t == Queued)
    decreases |acts|
  {
    ApplyWritesRows(s, acts[0]);
    if Moves(Apply(s, acts[0]), acts[1..], id, f, t) > 0 {
      StatusWritesAreLegal(Apply(s, acts[0]), acts[1..], id, f, t);
    }
  }

  /** Steps of a run that write a terminal status. */
  function TerminalWrites(s: State, acts: seq<Action>, id: JobId): nat {
    Moves(s, acts, id, Some(Queued), Cancelled) + Moves(s, acts, id, Some(Running), Cancelled)
    + Moves(s, acts, id, Some(Running), Completed) + Moves(s, acts, id, Some(Running), Failed)
  }

  function Starts(s: State, acts: seq<Action>, id: JobId): nat {
    Moves(s, acts, id, Some(Queued), Running)
  }

  function Resets(s: State, acts: seq<Action>, id: JobId): nat {
    Moves(s, acts, id, Some(Running), Queued)
  }

  function One(b: bool): nat {
    if b then 1 else 0
  }

  /** Whether one step moves the job's status from `f` to `t`. */
  function Moved(s: State, s': State, id: JobId, f: Status, t: Status): nat {
    One(StatusOf(s, id) == Some(f) && StatusOf(s', id) == Some(t) && f != t)
  }

  lemma StepBalance(s: State, s': State, id: JobId)
    requires RowsStep(s, s')
    ensures One(StatusOf(s, id) == Some(Running)) + Moved(s, s', id, Queued, Running)
            == Moved(s, s', id, Running, Queued) + Moved(s, s', id, Running, Cancelled)
               + Moved(s, s', id, Running, Completed) + Moved(s, s', id, Running, Failed)
               + One(StatusOf(s', id) == Some(Running))
    ensures One(StatusOf(s, id) == Some(Completed)) + Moved(s, s', id, Running, Completed)
            == One(StatusOf(s', id) == Some(Completed))
    ensures One(StatusOf(s, id) == Some(Failed)) + Moved(s, s', id, Running, Failed)
            == One(StatusOf(s', id) == Some(Failed))
    ensures One(StatusOf(s, id) == Some(Cancelled)) + Moved(s, s', id, Running, Cancelled)
            + Moved(s, s', id, Queued, Cancelled) == One(StatusOf(s', id) == Some(Cancelled))
  {
    if id in s.st.rows {
      assert RowStep(id, s.st.rows[id], s'.st.rows[id], s.st.now);
    }
  }

  lemma MovesUnfold(s: State, acts: seq<Action>, id: JobId, f: Status, t: Status)
    requires acts != []
    ensures Moves(s, acts, id, Some(f), t)
            == Moved(s, Apply(s, acts[0]), id, f, t) + Moves(Apply(s, acts[0]), acts[1..], id, Some(f), t)
  {}

  /** Conservation of status tokens over any run from any state. */
  lemma {:induction false} MovesBalance(s: State, acts: seq<Action>, id: JobId)
    ensures var e := Exec(s, acts);
            && One(StatusOf(s, id) == Some(Running)) + Starts(s, acts, id)
               == Resets(s, acts, id) + Moves(s, acts, id, Some(Running), Cancelled)
                  + Moves(s, acts, id, Some(Running), Completed) + Moves(s, acts, id, Some(Running), Failed)
                  + One(StatusOf(e, id) == Some(Running))
            && One(StatusOf(s, id) == Some(Completed)) + Moves(s, acts, id, Some(Running), Completed)
               == One(StatusOf(e, id) == Some(Completed))
            && One(StatusOf(s, id) == Some(Failed)) + Moves(s, acts, id, Some(Running), Failed)
               == One(StatusOf(e, id) == Some(Failed))
            && One(StatusOf(s, id) == Some(Cancelled)) + Moves(s, acts, id, Some(Running), Cancelled)
               + Moves(s, acts, id, Some(Queued), Cancelled) == One(StatusOf(e, id) == Some(Cancelled))
    decreases |acts|
  {
    if acts != [] {
      ApplyWritesRows(s, acts[0]);
      StepBalance(s, Apply(s, acts[0]), id);
      MovesUnfold(s, acts, id, Queued, Running);
      MovesUnfold(s, acts, id, Running, Queued);
      MovesUnfold(s, acts, id, Running, Cancelled);
      MovesUnfold(s, acts, id, Running, Completed);
      MovesUnfold(s, acts, id, Running, Failed);
      MovesUnfold(s, acts, id, Queued, Cancelled);
      MovesBalance(Apply(s, acts[0]), acts[1..], id);
    }
  }

  /** A job gets exactly one terminal write if it ends terminal and none if it does not. */
  lemma TerminalWrittenOnce(cfg: Config, now: int, acts: seq<Action>, id: JobId)
    ensures var e := Exec(Init(cfg, now), acts);
            TerminalWrites(Init(cfg, now), acts, id) == One(id in e.st.rows && Terminal(e.st.rows[id].status))
  {
    MovesBalance(Init(cfg, now), acts, id);
  }

  /** Starts minus resets, in every reachable state: one while running and after
      a result, none while queued, and for a cancelled job one exactly when the
      cancel found it running. */
  lemma StartsBalanceResets(cfg: Config, now: int, acts: seq<Action>, id: JobId)
    ensures var s := Init(cfg, now);
            var e := Exec(s, acts);
            id in e.st.rows ==>
              Starts(s, acts, id) - Resets(s, acts, id) ==
                match e.st.rows[id].status
                case Queued => 0
                case Cancelled => Moves(s, acts, id, Some(Running), Cancelled)
                case _ => 1
  {
    MovesBalance(Init(cfg, now), acts, id);
  }

  // ------------------------------------------------- result coupling

  /** checkpoint_path goes with completed, error_message with failed. */
  ghost predicate Coupled(id: JobId, r: Row) {
    && r.checkpoint == (if r.status == Completed then Some(CheckpointPrefix(id)) else None)
    && (r.error.Some? <==> r.status == Failed)
  }

  ghost predicate AllCoupled(s: State) {
    forall id :: id in s.st.rows ==> Coupled(id, s.st.rows[id])
  }

  lemma CouplingStep(s: State, a: Action)
    requires AllCoupled(s)
    ensures AllCoupled(Apply(s, a))
  {
    var s' := Apply(s, a);
    ApplyWritesRows(s, a);
    forall id | id in s'.st.rows ensures Coupled(id, s'.st.rows[id]) {
      if id in s.st.rows {
        assert RowStep(id, s.st.rows[id], s'.st.rows[id], s.st.now);
      }
    }
  }

  lemma {:induction false} CouplingKept(s: State, acts: seq<Action>)
    requires AllCoupled(s)
    ensures AllCoupled(Exec(s, acts))
    decreases |acts|
  {
    if acts != [] {
      CouplingStep(s, acts[0]);
      CouplingKept(Apply(s, acts[0]), acts[1..]);
    }
  }

  lemma ResultCoupling(cfg: Config, now: int, acts: seq<Action>, id: JobId)
    ensures var e := Exec(Init(cfg, now), acts); id in e.st.rows ==> Coupled(id, e.st.rows[id])
  {
    CouplingKept(Init(cfg, now), acts);
  }

  // ------------------------------------------------- cancel

  /** The worker has read the job and may still reach, or is in, the executor. */
  predicate PastRead(pc: Pc, id: JobId) {
    (pc.Fetched? || pc.Started? || pc.Executing?) && pc.id == id
  }

  ghost function Readers(s: State, id: JobId): set<Proc> {
    set p | p in s.pcs && PastRead(s.pcs[p], id)
  }

  lemma NoNewReaders(s: State, a: Action, id: JobId)
    requires id in s.st.rows && Terminal(s.st.rows[id].status)
    ensures Readers(Apply(s, a), id) <= Readers(s, id)
  {
    match a
    case Work(p, w) =>
    case Sweep(p, r) =>
    case _ =>
  }

  /** A successful cancel, in every reachable state and every continuation: the
      row stays exactly as the cancel wrote it, with no result columns, and no
      process that had not already read the job ever comes near the executor
      with it. */
  lemma {:induction false} CancelIsAuthoritative(cfg: Config, now: int, before: seq<Action>, id: JobId, after: seq<Action>)
    requires var s := Exec(Init(cfg, now), before);
             id in s.st.rows && !Terminal(s.st.rows[id].status)
    ensures var s := Exec(Init(cfg, now), before);
            var c := Apply(s, Backend(CancelJob(id)));
            var e := Exec(c, after);
            && id in e.st.rows && e.st.rows[id] == c.st.rows[id]
            && e.st.rows[id].status == Cancelled && e.st.rows[id].checkpoint == None && e.st.rows[id].error == None
            && Readers(e, id) <= Readers(s, id)
  {
    var s := Exec(Init(cfg, now), before);
    var c := Apply(s, Backend(CancelJob(id)));
    ResultCoupling(cfg, now, before, id);
    TerminalIsFinal(c, after, id);
    NoNewReadersEver(c, after, id);
    assert Readers(c, id) == Readers(s, id);
  }

  lemma {:induction false} NoNewReadersEver(s: State, acts: seq<Action>, id: JobId)
    requires id in s.st.rows && Terminal(s.st.rows[id].status)
    ensures Readers(Exec(s, acts), id) <= Readers(s, id)
    decreases |acts|
  {
    if acts != [] {
      NoNewReaders(s, acts[0], id);
      ApplyWritesRows(s, acts[0]);
      NoNewReadersEver(Apply(s, acts[0]), acts[1..], id);
    }
  }

  /** mark_running does not say whether it changed a row, so a job cancelled
      between get_job and mark_running still runs; only its result is refused. */
  lemma CancelledJobStillExecutes(s: State, p: Proc, id: JobId)
    requires p in s.pcs && s.pcs[p] == Fetched(id) && Has(s.st, id, Cancelled)
    ensures var e := Exec(s, [Work(p, MarkOk), Work(p, AnnounceOk)]);
            && p in e.pcs && e.pcs[p] == Executing(id)
            && e.st.rows == s.st.rows
            && Exec(e, [Work(p, ExecutorReturns), Work(p, CompleteOk)]).st.rows == s.st.rows
  {
    var e := Apply(Apply(s, Work(p, MarkOk)), Work(p, AnnounceOk));
    ExecTwo(s, Work(p, MarkOk), Work(p, AnnounceOk));
    assert e.pcs[p] == Executing(id) && e.st.rows == s.st.rows;
    RefusedResult(e, p, id);
  }

  lemma RefusedWrite(e: State, p: Proc, id: JobId)
    requires p in e.pcs && e.pcs[p] == Finished(id) && Has(e.st, id, Cancelled)
    ensures Apply(e, Work(p, CompleteOk)).st.rows == e.st.rows
  {}

  lemma RefusedResult(e: State, p: Proc, id: JobId)
    requires p in e.pcs && e.pcs[p] == Executing(id) && Has(e.st, id, Cancelled)
    ensures Exec(e, [Work(p, ExecutorReturns), Work(p, CompleteOk)]).st.rows == e.st.rows
  {
    ExecTwo(e, Work(p, ExecutorReturns), Work(p, CompleteOk));
    RefusedWrite(Apply(e, Work(p, ExecutorReturns)), p, id);
  }

  ghost predicate Reaches(s: State, acts: seq<Action>, p: Proc, id: JobId) {
    p in Exec(s, acts).pcs && Exec(s, acts).pcs[p] == Executing(id)
  }

  /** The steps from where a worker has read its job to the executor. */
  function ToExecutor(p: Proc, pc: Pc): seq<Action> {
    match pc
    case Fetched(_) => [Work(p, MarkOk), Work(p, AnnounceOk)]
    case Started(_) => [Work(p, AnnounceOk)]
    case _ => []
  }

  lemma ReaderReachesExecutor(s: State, p: Proc, id: JobId)
    requires p in s.pcs && PastRead(s.pcs[p], id)
    ensures Reaches(s, ToExecutor(p, s.pcs[p]), p, id)
  {
    match s.pcs[p]
    case Fetched(_) => ExecTwo(s, Work(p, MarkOk), Work(p, AnnounceOk));
    case Started(_) => ExecOne(s, Work(p, AnnounceOk));
    case _ =>
  }

  /** Who can still be found executing a job that has become terminal, by a cancel
      or otherwise: exactly the workers that had read it before. */
  lemma StillExecuteExactly(s: State, p: Proc, id: JobId)
    requires id in s.st.rows && Terminal(s.st.rows[id].status)
    ensures (exists acts :: Reaches(s, acts, p, id)) <==> p in Readers(s, id)
  {
    if p in Readers(s, id) {
      ReaderReachesExecutor(s, p, id);
    }
    forall acts | Reaches(s, acts, p, id) ensures p in Readers(s, id) {
      NoNewReadersEver(s, acts, id);
      assert p in Readers(Exec(s, acts), id);
    }
  }
}
