/** The reconciler's two list reads, and what overlapping passes can do. */
module Races {
  import opened Store
  import opened Protocol
  import opened Frames
  import opened LocalRuns
  import opened Stranding
  import opened Exclusion
  import opened Reconciling

  /** The step takes the entry off jobs:processing: an ack, a re-enqueue, or a flush. */
  predicate Unlists(s: State, a: Action, e: Entry) {
    match a
    case Flush => true
    case Work(p, w) => p in s.pcs && w.AckJob? && s.pcs[p] == Acking(e)
    case Sweep(p, r) =>
      && p in s.pcs && e.JobRef?
      && (|| (r.RequeueOne? && Between(s.pcs[p], e.id))
          || (r.RecoverOne? && s.pcs[p].Recovering? && s.pcs[p].candidates != [] && s.pcs[p].candidates[0] == e.id))
    case _ => false
  }

  ghost predicate NeverUnlists(s: State, acts: seq<Action>, e: Entry)
    decreases |acts|
  {
    acts == [] || (!Unlists(s, acts[0], e) && NeverUnlists(Apply(s, acts[0]), acts[1..], e))
  }

  lemma {:induction false} StaysListed(s: State, acts: seq<Action>, e: Entry)
    requires NeverUnlists(s, acts, e) && e in s.st.processing
    ensures e in Exec(s, acts).st.processing
    decreases |acts|
  {
    if acts != [] {
      ListedStep(s, acts[0], e);
      StaysListed(Apply(s, acts[0]), acts[1..], e);
    }
  }

  lemma ListedStep(s: State, a: Action, e: Entry)
    requires !Unlists(s, a, e) && e in s.st.processing
    ensures e in Apply(s, a).st.processing
  {
    match a
    case Work(p, w) => if p in s.pcs { ListedWorker(s, p, w, e); }
    case _ =>
  }

  lemma ListedWorker(s: State, p: Proc, w: WorkerEvent, e: Entry)
    requires p in s.pcs && !Unlists(s, Work(p, w), e) && e in s.st.processing
    ensures e in WorkerStep(s, p, s.pcs[p], w).st.processing
  {
    if !w.TakeJob? && !w.ReadJob? && !w.AckJob? { RunStepFrame(s, p, w); }
  }

  /** The queue is read first.  Whatever else runs between the two reads, an id
      that was in Redis at the first read and leaves it only by a claim is seen
      by one of them, so this pass does not push it. */
  lemma TwoReadsSeeEveryClaim(s: State, p: Proc, acts: seq<Action>, id: JobId)
    requires p in s.pcs && s.pcs[p].ReadingQueue?
    requires JobRef(id) in s.st.queue || JobRef(id) in s.st.processing
    requires var s1 := Apply(s, Sweep(p, ReadQueue));
             var s2 := Exec(s1, acts);
             NeverUnlists(s1, acts, JobRef(id)) && p in s2.pcs && s2.pcs[p] == s1.pcs[p]
    ensures var s2 := Exec(Apply(s, Sweep(p, ReadQueue)), acts);
            var s3 := Apply(s2, Sweep(p, ReadProcessing));
            && p in s3.pcs && s3.pcs[p].Recovering?
            && JobRef(id) in s3.pcs[p].live && !WillPush(s3.pcs[p], id)
  {
    var s1 := Apply(s, Sweep(p, ReadQueue));
    assert s1.pcs[p] == ReadingProcessing(s.pcs[p].candidates, Members(s.st.queue));
    if JobRef(id) in s.st.processing { StaysListed(s1, acts, JobRef(id)); }
  }

  /** Read the other way round, a claim between the reads hides a job from both. */
  lemma ReversedReadsMissAClaim(s: State, q: Proc, id: JobId)
    requires q in s.pcs && s.pcs[q] == Idle && s.st.queue != [] && Next(s.st) == JobRef(id)
    requires multiset(s.st.queue)[JobRef(id)] == 1 && JobRef(id) !in s.st.processing
    ensures var s' := Apply(s, Work(q, TakeJob));
            JobRef(id) !in Members(s.st.processing) + Members(s'.st.queue)
  {
    ClaimFacts(s.st);
  }

  /** requeue leaves its id exactly once in the queue exactly when it was not there:
      it clears jobs:processing only. */
  lemma RequeueAddsOnceExactly(st: Store, id: JobId)
    ensures multiset(Requeue(st, id).queue)[JobRef(id)] == 1 <==> JobRef(id) !in st.queue
    ensures JobRef(id) !in Requeue(st, id).processing
  {
    assert multiset(Requeue(st, id).queue) == multiset{JobRef(id)} + multiset(st.queue);
  }

  /** A pass that found nothing stale and one orphan, up to its decision to push it. */
  function Deciding(id: JobId): seq<LocalAct> {
    [See(FindStale([]))] + [See(FindOrphans([id])), See(ReadQueue), See(ReadProcessing)]
  }

  /** Nothing is stale, and this job is the one orphan, in neither list. */
  ghost predicate LoneOrphan(st: Store, cfg: Config, id: JobId) {
    && StaleRunning(st, cfg.visibility) == {} && OrphanQueued(st, cfg.grace) == {id}
    && JobRef(id) !in st.queue && JobRef(id) !in st.processing
  }

  lemma DecidesToPush(cfg: Config, st: Store, id: JobId)
    requires LoneOrphan(st, cfg, id)
    ensures Steps(cfg, Place(st, Idle), Deciding(id))
            == Place(st, Recovering([id], Members(st.queue) + Members(st.processing)))
  {
    var rest := [See(FindOrphans([id])), See(ReadQueue), See(ReadProcessing)];
    StepsConcat(cfg, Place(st, Idle), [See(FindStale([]))], rest);
    Steps1(cfg, Place(st, Idle), See(FindStale([])));
    Steps3(cfg, Place(st, Resetting([])), See(FindOrphans([id])), See(ReadQueue), See(ReadProcessing));
  }

  /** Where that leaves the system. */
  function Decided(s: State, q: Proc, id: JobId): State {
    At(s, q, Place(s.st, Recovering([id], Members(s.st.queue) + Members(s.st.processing))))
  }

  lemma DecidingRuns(s: State, q: Proc, id: JobId)
    requires q in s.pcs && s.pcs[q] == Idle && LoneOrphan(s.st, s.cfg, id)
    ensures Exec(s, Lift(q, Deciding(id))) == Decided(s, q, id)
  {
    DecidesToPush(s.cfg, s.st, id);
    LiftRuns(s, q, Deciding(id));
  }

  /** Two passes that overlap, both past their decision when the first one pushes. */
  function Overlapping(p: Proc, q: Proc, id: JobId): seq<Action> {
    Lift(p, Deciding(id)) + Lift(q, Deciding(id)) + [Sweep(p, RecoverOne), Sweep(q, RecoverOne)]
  }

  lemma OverlappingRuns(s: State, p: Proc, q: Proc, id: JobId)
    requires p != q && p in s.pcs && q in s.pcs && s.pcs[p] == Idle && s.pcs[q] == Idle
    requires LoneOrphan(s.st, s.cfg, id)
    ensures Exec(s, Overlapping(p, q, id))
            == Apply(Apply(Decided(Decided(s, p, id), q, id), Sweep(p, RecoverOne)), Sweep(q, RecoverOne))
  {
    var both := [Sweep(p, RecoverOne), Sweep(q, RecoverOne)];
    var s1 := Decided(s, p, id);
    DecidingRuns(s, p, id);
    DecidingRuns(s1, q, id);
    ExecConcat(s, Lift(p, Deciding(id)), Lift(q, Deciding(id)));
    ExecConcat(s, Lift(p, Deciding(id)) + Lift(q, Deciding(id)), both);
    ExecTwo(Decided(s1, q, id), both[0], both[1]);
  }

  /** Two passes that overlap push the same orphan twice. */
  lemma OverlappingPassesPushTwice(s: State, p: Proc, q: Proc, id: JobId)
    requires p != q && p in s.pcs && q in s.pcs && s.pcs[p] == Idle && s.pcs[q] == Idle
    requires LoneOrphan(s.st, s.cfg, id)
    ensures Tokens(Exec(s, Overlapping(p, q, id)), id) >= 2
  {
    OverlappingRuns(s, p, q, id);
    PushesTwice(Decided(Decided(s, p, id), q, id), p, q, id);
  }

  lemma PushesTwice(s: State, p: Proc, q: Proc, id: JobId)
    requires p != q && p in s.pcs && q in s.pcs
    requires s.pcs[p].Recovering? && s.pcs[p].candidates == [id] && JobRef(id) !in s.pcs[p].live
    requires s.pcs[q].Recovering? && s.pcs[q].candidates == [id] && JobRef(id) !in s.pcs[q].live
    ensures Tokens(Apply(Apply(s, Sweep(p, RecoverOne)), Sweep(q, RecoverOne)), id) >= 2
  {
    var e := Apply(Apply(s, Sweep(p, RecoverOne)), Sweep(q, RecoverOne));
    assert e.st.queue == [JobRef(id)] + ([JobRef(id)] + s.st.queue);
    assert multiset(e.st.queue) == multiset{JobRef(id), JobRef(id)} + multiset(s.st.queue);
  }

  /** One whole pass over a lone orphan. */
  function Recovers(q: Proc, id: JobId): seq<Action> {
    Lift(q, Deciding(id)) + [Sweep(q, RecoverOne)]
  }

  lemma PushesDecided(s: State, q: Proc, id: JobId)
    requires q in s.pcs && JobRef(id) !in s.st.queue && JobRef(id) !in s.st.processing
    ensures var e := Apply(Decided(s, q, id), Sweep(q, RecoverOne));
            && e.st == Requeue(s.st, id) && e.calls == s.calls && e.cfg == s.cfg
            && q in e.pcs && e.pcs[q].Recovering? && e.pcs[q].candidates == []
            && e.pcs == s.pcs[q := e.pcs[q]]
  {}

  lemma RecoversPushes(s: State, q: Proc, id: JobId)
    requires q in s.pcs && s.pcs[q] == Idle && LoneOrphan(s.st, s.cfg, id)
    ensures var e := Exec(s, Recovers(q, id));
            && e.st == Requeue(s.st, id) && e.calls == s.calls && e.cfg == s.cfg
            && q in e.pcs && e.pcs[q].Recovering? && e.pcs[q].candidates == []
            && e.pcs == s.pcs[q := e.pcs[q]]
  {
    DecidingRuns(s, q, id);
    ExecConcat(s, Lift(q, Deciding(id)), [Sweep(q, RecoverOne)]);
    ExecOne(Decided(s, q, id), Sweep(q, RecoverOne));
    PushesDecided(s, q, id);
  }

  lemma HeldAndQueued(s: State, p: Proc, id: JobId)
    requires p in s.pcs && Holds(s.pcs[p], id) && JobRef(id) in s.st.queue
    ensures Tokens(s, id) >= 2
  {
    assert {p} <= Holders(s, id);
    CardinalityOfSubset({p}, Holders(s, id));
  }

  /** A flush takes the sign of life of a claimed job away, and the next pass pushes it again. */
  lemma FlushPushesTwice(s: State, p: Proc, q: Proc, id: JobId)
    requires p != q && p in s.pcs && q in s.pcs && s.pcs[q] == Idle && Holds(s.pcs[p], id)
    requires LoneOrphan(FlushRedis(s.st), s.cfg, id)
    ensures Tokens(Exec(s, [Flush] + Recovers(q, id)), id) >= 2
  {
    ExecConcat(s, [Flush], Recovers(q, id));
    ExecOne(s, Flush);
    RecoversPushes(Apply(s, Flush), q, id);
    HeldAndQueued(Exec(s, [Flush] + Recovers(q, id)), p, id);
  }

  /** A pass over one stale job. */
  function Resets(id: JobId): seq<LocalAct> {
    [See(FindStale([id]))] + [See(ResetOne), See(AnnounceOne), See(RequeueOne)]
  }

  /** A worker late with its heartbeat has its job pushed under it. */
  lemma LateHeartbeatPushesTwice(s: State, p: Proc, q: Proc, id: JobId)
    requires p != q && p in s.pcs && q in s.pcs && s.pcs[q] == Idle && Holds(s.pcs[p], id)
    requires StaleRunning(s.st, s.cfg.visibility) == {id}
    ensures Tokens(Exec(s, Lift(q, Resets(id))), id) >= 2
  {
    LiftRuns(s, q, Resets(id));
    StepsConcat(s.cfg, Place(s.st, Idle), [See(FindStale([id]))], [See(ResetOne), See(AnnounceOne), See(RequeueOne)]);
    Steps1(s.cfg, Place(s.st, Idle), See(FindStale([id])));
    ResetJobSteps(s.cfg, s.st, [id]);
    HeldAndQueued(Exec(s, Lift(q, Resets(id))), p, id);
  }

  /** A request that pushes only after the grace window pushes what a pass has pushed already. */
  lemma LatePushPushesTwice(s: State, q: Proc, id: JobId)
    requires q in s.pcs && s.pcs[q] == Idle && Pending(s, id) && LoneOrphan(s.st, s.cfg, id)
    ensures Tokens(Exec(s, Recovers(q, id)), id) >= 2
  {
    RecoversPushes(s, q, id);
  }
}
