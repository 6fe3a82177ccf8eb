/** Jobs that no part of the system will ever pick up again.

    A queued row whose id lies in jobs:processing while no live process is
    working on it is stranded: the reconciler takes the in-flight entry as a
    sign of life.  Only a process crash makes one, at most one each, whatever
    the timing; and once made it stays until Redis is flushed or the job is
    cancelled. */
module Stranding {
  import opened Store
  import opened Protocol
  import opened Frames

  predicate Attended(s: State, id: JobId) {
    exists p :: p in s.pcs && (Holds(s.pcs[p], id) || Between(s.pcs[p], id))
  }

  predicate IsStranded(s: State, id: JobId) {
    Has(s.st, id, Queued) && JobRef(id) in s.st.processing && !Attended(s, id)
  }

  function Stranded(s: State): set<JobId> {
    set id | id in s.st.rows && IsStranded(s, id)
  }

  // --------------------------------------- ids in Redis and in hands exist

  predicate PcKnown(pc: Pc, rows: set<JobId>) {
    match pc
    case Claimed(e) => e.JobRef? ==> e.id in rows
    case Acking(e) => e.JobRef? ==> e.id in rows
    case Resetting(todo) => forall i | i in todo :: i in rows
    case Announcing(todo) => forall i | i in todo :: i in rows
    case Requeueing(todo) => forall i | i in todo :: i in rows
    case ReadingQueue(c) => forall i | i in c :: i in rows
    case ReadingProcessing(c, _) => forall i | i in c :: i in rows
    case Recovering(c, _) => forall i | i in c :: i in rows
    case Idle => true
    case _ => pc.id in rows
  }

  ghost predicate Known(s: State) {
    && (forall id :: JobRef(id) in s.st.queue ==> id in s.st.rows)
    && (forall id :: JobRef(id) in s.st.processing ==> id in s.st.rows)
    && (forall id :: id in s.calls ==> id in s.st.rows)
    && (forall p :: p in s.pcs ==> PcKnown(s.pcs[p], s.st.rows.Keys))
  }

  lemma KnownStep(s: State, a: Action)
    requires Known(s)
    ensures Known(Apply(s, a))
  {
    match a
    case Backend(b) => KnownBackend(s, b);
    case Work(p, w) => if p in s.pcs { KnownWorker(s, p, w); }
    case Sweep(p, r) => if p in s.pcs { KnownReconciler(s, p, r); }
    case _ =>
  }

  lemma KnownBackend(s: State, b: BackendEvent)
    requires Known(s)
    ensures Known(BackendStep(s, b))
  {}

  lemma KnownWorker(s: State, p: Proc, w: WorkerEvent)
    requires Known(s) && p in s.pcs
    ensures Known(WorkerStep(s, p, s.pcs[p], w))
  {
    match w
    case TakeJob => if s.st.queue != [] { ClaimFacts(s.st); }
    case ReadJob =>
    case AckJob =>
    case _ =>
      RunStepFrame(s, p, w);
      KnownRun(s, p, RunStep(s, p, s.pcs[p], w));
  }

  lemma KnownRun(s: State, p: Proc, s': State)
    requires Known(s) && p in s.pcs && RunFrame(s, p, s')
    ensures Known(s')
  {
    var pc := s'.pcs[p];
    if InRun(pc) {
      assert Holds(pc, pc.id) && Holds(s.pcs[p], pc.id);
    } else if pc.Acking? && pc.entry.JobRef? {
      assert Holds(pc, pc.entry.id) && Holds(s.pcs[p], pc.entry.id);
    }
    assert forall q :: q in s'.pcs && q != p ==> q in s.pcs && s'.pcs[q] == s.pcs[q];
  }

  lemma KnownReconciler(s: State, p: Proc, r: ReconcilerEvent)
    requires Known(s) && p in s.pcs
    ensures Known(ReconcilerStep(s, p, s.pcs[p], r))
  {
    if !InPhaseOne(r) {
      KnownOrphans(s, p, r);
    }
  }

  lemma KnownOrphans(s: State, p: Proc, r: ReconcilerEvent)
    requires Known(s) && p in s.pcs
    ensures Known(OrphanStep(s, p, s.pcs[p], r))
  {}

  // ------------------------------------------------------ the bound

  /** What a crash of `p` can strand: the one job it was attending. */
  function Casualties(s: State, a: Action): set<JobId> {
    if a.Crash? && a.p in s.pcs
    then set id | id in s.st.rows && (Holds(s.pcs[a.p], id) || Between(s.pcs[a.p], id))
    else {}
  }

  lemma AtMostOneCasualty(s: State, a: Action)
    ensures |Casualties(s, a)| <= if a.Crash? && a.p in s.pcs then 1 else 0
  {
    var c := Casualties(s, a);
    if x :| x in c {
      assert forall y :: y in c ==> y == x;
      assert c == {x};
    }
  }

  lemma StrandedStep(s: State, a: Action)
    requires Known(s)
    ensures Stranded(Apply(s, a)) <= Stranded(s) + Casualties(s, a)
  {
    forall id | id in Stranded(Apply(s, a)) ensures id in Stranded(s) + Casualties(s, a) {
      match a
      case Backend(b) => BackendDoesNotStrand(s, b, id);
      case Work(p, w) => if p in s.pcs { WorkerDoesNotStrand(s, p, w, id); }
      case Sweep(p, r) => if p in s.pcs { ReconcilerDoesNotStrand(s, p, r, id); }
      case _ => EnvironmentStrands(s, a, id);
    }
  }

  lemma BackendDoesNotStrand(s: State, b: BackendEvent, id: JobId)
    requires Known(s) && IsStranded(BackendStep(s, b), id)
    ensures IsStranded(s, id)
  {
    assert BackendStep(s, b).pcs == s.pcs;
    assert !Attended(s, id);
  }

  lemma WorkerDoesNotStrand(s: State, p: Proc, w: WorkerEvent, id: JobId)
    requires p in s.pcs && IsStranded(WorkerStep(s, p, s.pcs[p], w), id)
    ensures IsStranded(s, id)
  {
    var s' := WorkerStep(s, p, s.pcs[p], w);
    match w
    case TakeJob =>
      if s.st.queue != [] { ClaimFacts(s.st); }
      UnattendedBefore(s, p, s', id);
    case ReadJob => UnattendedBefore(s, p, s', id);
    case AckJob => UnattendedBefore(s, p, s', id);
    case _ =>
      RunStepFrame(s, p, w);
      RunDoesNotStrand(s, p, s', id);
  }

  lemma UnattendedBefore(s: State, p: Proc, s': State, id: JobId)
    requires p in s.pcs && p in s'.pcs && s'.pcs == s.pcs[p := s'.pcs[p]]
    requires !Attended(s', id)
    requires (Holds(s.pcs[p], id) || Between(s.pcs[p], id)) ==> (Holds(s'.pcs[p], id) || Between(s'.pcs[p], id))
    ensures !Attended(s, id)
  {
    assert forall q :: q in s.pcs && q != p ==> q in s'.pcs && s'.pcs[q] == s.pcs[q];
  }

  lemma RunDoesNotStrand(s: State, p: Proc, s': State, id: JobId)
    requires p in s.pcs && RunFrame(s, p, s') && IsStranded(s', id)
    ensures IsStranded(s, id)
  {
    UnattendedBefore(s, p, s', id);
  }

  lemma ReconcilerDoesNotStrand(s: State, p: Proc, r: ReconcilerEvent, id: JobId)
    requires p in s.pcs && IsStranded(ReconcilerStep(s, p, s.pcs[p], r), id)
    ensures IsStranded(s, id)
  {
    var s' := ReconcilerStep(s, p, s.pcs[p], r);
    assert p in s'.pcs && !Holds(s'.pcs[p], id) && !Between(s'.pcs[p], id);
    assert forall q :: q in s.pcs && q != p ==> q in s'.pcs && s'.pcs[q] == s.pcs[q];
    assert !Holds(s.pcs[p], id) && !Between(s.pcs[p], id);
  }

  lemma EnvironmentStrands(s: State, a: Action, id: JobId)
    requires !a.Backend? && !a.Work? && !a.Sweep?
    requires IsStranded(Apply(s, a), id)
    ensures IsStranded(s, id) || id in Casualties(s, a)
  {
    var s' := Apply(s, a);
    if a.Crash? && a.p in s.pcs && (Holds(s.pcs[a.p], id) || Between(s.pcs[a.p], id)) {
      assert id in Casualties(s, a);
    } else {
      assert forall q :: q in s.pcs && a != Crash(q) && (Holds(s.pcs[q], id) || Between(s.pcs[q], id))
                         ==> q in s'.pcs && s'.pcs[q] == s.pcs[q];
    }
  }

  /** Crashes of live processes in a run. */
  function Crashes(s: State, acts: seq<Action>): nat
    decreases |acts|
  {
    if acts == [] then 0
    else (if acts[0].Crash? && acts[0].p in s.pcs then 1 else 0) + Crashes(Apply(s, acts[0]), acts[1..])
  }

  lemma {:induction false} StrandedGrowth(s: State, acts: seq<Action>)
    requires Known(s)
    ensures |Stranded(Exec(s, acts))| <= |Stranded(s)| + Crashes(s, acts)
    decreases |acts|
  {
    if acts != [] {
      var s' := Apply(s, acts[0]);
      KnownStep(s, acts[0]);
      StrandedStep(s, acts[0]);
      AtMostOneCasualty(s, acts[0]);
      CardinalityOfSubset(Stranded(s'), Stranded(s) + Casualties(s, acts[0]));
      StrandedGrowth(s', acts[1..]);
    }
  }

  lemma {:induction false} CardinalityOfSubset<T>(a: set<T>, b: set<T>)
    requires a <= b
    ensures |a| <= |b|
  {
    assert b == a + (b - a);
  }

  /** No timing premise, any number of workers and overlapping reconcilers,
      cancels, flushes: k crashes strand at most k jobs. */
  lemma StrandingBound(cfg: Config, now: int, acts: seq<Action>)
    ensures |Stranded(Exec(Init(cfg, now), acts))| <= Crashes(Init(cfg, now), acts)
  {
    StrandedGrowth(Init(cfg, now), acts);
    assert Stranded(Init(cfg, now)) == {};
  }

  /** The bound is reached: a worker that dies after its claim and before
      mark_running strands its job. */
  lemma CrashAfterClaimStrands(s: State, p: Proc, id: JobId)
    requires p in s.pcs && s.pcs[p] == Idle && s.st.queue != [] && Next(s.st) == JobRef(id)
    requires Has(s.st, id, Queued) && !Attended(s, id)
    ensures IsStranded(Apply(Apply(s, Work(p, TakeJob)), Crash(p)), id)
  {
    ClaimFacts(s.st);
    var s' := Apply(Apply(s, Work(p, TakeJob)), Crash(p));
    assert forall q :: q in s'.pcs ==> q in s.pcs && s'.pcs[q] == s.pcs[q];
  }

  /** So does a pass that dies after its reset and before its requeue. */
  lemma CrashAfterResetStrands(s: State, p: Proc, id: JobId)
    requires p in s.pcs && s.pcs[p].Resetting? && s.pcs[p].todo != [] && s.pcs[p].todo[0] == id
    requires Has(s.st, id, Running) && JobRef(id) in s.st.processing && !Attended(s, id)
    ensures IsStranded(Apply(Apply(s, Sweep(p, ResetOne)), Crash(p)), id)
  {
    var s' := Apply(Apply(s, Sweep(p, ResetOne)), Crash(p));
    assert forall q :: q in s'.pcs ==> q in s.pcs && s'.pcs[q] == s.pcs[q];
  }

  /** What a crash strands, exactly: a queued job with an in-flight entry that no
      other process is attending. */
  lemma CrashStrandsExactly(s: State, p: Proc, id: JobId)
    requires p in s.pcs && !IsStranded(s, id)
    ensures IsStranded(Apply(s, Crash(p)), id)
            <==> && Has(s.st, id, Queued) && JobRef(id) in s.st.processing
                 && forall q :: q in s.pcs && q != p ==> !Holds(s.pcs[q], id) && !Between(s.pcs[q], id)
  {
    var s' := Apply(s, Crash(p));
    assert forall q :: q in s'.pcs <==> q in s.pcs && q != p;
    if q :| q in s.pcs && q != p && (Holds(s.pcs[q], id) || Between(s.pcs[q], id)) {
      assert q in s'.pcs && s'.pcs[q] == s.pcs[q];
    }
  }

  // ------------------------------------------------------ for good

  /** Nothing in flight refers to the job any more, except its entry in jobs:processing. */
  ghost predicate Abandoned(s: State, id: JobId) {
    && IsStranded(s, id)
    && JobRef(id) !in s.st.queue
    && (id in s.calls ==> s.calls[id].MustFail?)
    && (forall p :: p in s.pcs ==> !WillPush(s.pcs[p], id))
  }

  lemma AbandonedStep(s: State, a: Action, id: JobId)
    requires Abandoned(s, id)
    requires a != Flush && a != Backend(CancelJob(id))
    ensures Abandoned(Apply(s, a), id)
  {
    match a
    case Backend(b) => AbandonedBackend(s, b, id);
    case Work(p, w) => if p in s.pcs { AbandonedWorker(s, p, w, id); }
    case Sweep(p, r) => if p in s.pcs { AbandonedReconciler(s, p, r, id); }
    case Flush => assert false;
    case _ => AbandonedEnvironment(s, a, id);
  }

  lemma AbandonedBackend(s: State, b: BackendEvent, id: JobId)
    requires Abandoned(s, id) && b != CancelJob(id)
    ensures Abandoned(BackendStep(s, b), id)
  {
    assert BackendStep(s, b).pcs == s.pcs;
    assert !Attended(BackendStep(s, b), id);
  }

  lemma AbandonedEnvironment(s: State, a: Action, id: JobId)
    requires Abandoned(s, id) && !a.Backend? && !a.Work? && !a.Sweep? && !a.Flush?
    ensures Abandoned(Apply(s, a), id)
  {
    var s' := Apply(s, a);
    assert forall q :: q in s'.pcs ==> s'.pcs[q] == Idle || (q in s.pcs && s'.pcs[q] == s.pcs[q]);
    assert !Attended(s', id);
  }

  lemma AbandonedWorker(s: State, p: Proc, w: WorkerEvent, id: JobId)
    requires Abandoned(s, id) && p in s.pcs
    ensures Abandoned(WorkerStep(s, p, s.pcs[p], w), id)
  {
    var s' := WorkerStep(s, p, s.pcs[p], w);
    match w
    case TakeJob =>
      if s.st.queue != [] { ClaimFacts(s.st); }
      UnattendedAfter(s, p, s', id);
    case ReadJob => UnattendedAfter(s, p, s', id);
    case AckJob => UnattendedAfter(s, p, s', id);
    case _ =>
      RunStepFrame(s, p, w);
      AbandonedRun(s, p, s', id);
  }

  lemma UnattendedAfter(s: State, p: Proc, s': State, id: JobId)
    requires p in s.pcs && p in s'.pcs && s'.pcs == s.pcs[p := s'.pcs[p]]
    requires !Attended(s, id)
    requires !Holds(s'.pcs[p], id) && !Between(s'.pcs[p], id)
    ensures !Attended(s', id)
  {
    assert forall q :: q in s'.pcs && q != p ==> q in s.pcs && s'.pcs[q] == s.pcs[q];
  }

  lemma AbandonedRun(s: State, p: Proc, s': State, id: JobId)
    requires p in s.pcs && Abandoned(s, id) && RunFrame(s, p, s')
    ensures Abandoned(s', id)
  {
    assert !Holds(s.pcs[p], id);
    UnattendedAfter(s, p, s', id);
  }

  lemma AbandonedReconciler(s: State, p: Proc, r: ReconcilerEvent, id: JobId)
    requires Abandoned(s, id) && p in s.pcs
    ensures Abandoned(ReconcilerStep(s, p, s.pcs[p], r), id)
  {
    if InPhaseOne(r) {
      assert !WillPush(s.pcs[p], id);
      UnattendedAfter(s, p, ReconcilerStep(s, p, s.pcs[p], r), id);
    } else {
      AbandonedOrphans(s, p, r, id);
    }
  }

  lemma AbandonedOrphans(s: State, p: Proc, r: ReconcilerEvent, id: JobId)
    requires Abandoned(s, id) && p in s.pcs
    ensures Abandoned(OrphanStep(s, p, s.pcs[p], r), id)
  {
    assert !WillPush(s.pcs[p], id);
    UnattendedAfter(s, p, OrphanStep(s, p, s.pcs[p], r), id);
  }

  /** What ends it, in one step: a flush, or its cancel, and nothing else. */
  lemma AbandonmentEndsExactly(s: State, a: Action, id: JobId)
    requires Abandoned(s, id)
    ensures Abandoned(Apply(s, a), id) <==> a != Flush && a != Backend(CancelJob(id))
  {
    if a != Flush && a != Backend(CancelJob(id)) { AbandonedStep(s, a, id); }
  }

  /** No number of reconcile passes, restarts or clock ticks recovers an
      abandoned job: only a flush of Redis or a cancel changes its fate. */
  lemma {:induction false} AbandonedForGood(s: State, acts: seq<Action>, id: JobId)
    requires Abandoned(s, id)
    requires Flush !in acts && Backend(CancelJob(id)) !in acts
    ensures Abandoned(Exec(s, acts), id)
    decreases |acts|
  {
    if acts != [] {
      AbandonedStep(s, acts[0], id);
      AbandonedForGood(Apply(s, acts[0]), acts[1..], id);
    }
  }
}
