/** Each assumption of mutual exclusion is needed: without it, and with the other
    three kept at every step, a run from the empty system puts a job in two hands. */
module Premises {
  import opened Wrappers
  import opened Store
  import opened Protocol
  import opened LocalRuns
  import opened Frames
  import opened Exclusion
  import opened Races

  ghost predicate RunMeets(s: State, acts: seq<Action>, pr: Premise)
    decreases |acts|
  {
    acts == [] || (Meets(s, acts[0], pr) && RunMeets(Apply(s, acts[0]), acts[1..], pr))
  }

  /** The timely runs are those that meet all four. */
  lemma {:induction false} TimelyMeetsAll(s: State, acts: seq<Action>)
    ensures TimelyRun(s, acts)
            <==> && RunMeets(s, acts, NoFlush) && RunMeets(s, acts, OnePassAtATime)
                 && RunMeets(s, acts, HeartbeatsInTime) && RunMeets(s, acts, PushesInTime)
    decreases |acts|
  {
    if acts != [] { TimelyMeetsAll(Apply(s, acts[0]), acts[1..]); }
  }

  lemma {:induction false} MeetsConcat(s: State, a: seq<Action>, b: seq<Action>, pr: Premise)
    requires RunMeets(s, a, pr) && RunMeets(Exec(s, a), b, pr)
    ensures RunMeets(s, a + b, pr)
    decreases |a|
  {
    if a == [] {
      assert a + b == b;
    } else {
      assert (a + b)[1..] == a[1..] + b;
      MeetsConcat(Apply(s, a[0]), a[1..], b, pr);
    }
  }

  /** No assumption is about this step. */
  predicate Quiet(a: Action) {
    a != Flush && (a.Sweep? ==> !a.r.FindStale? && !a.r.FindOrphans?)
  }

  lemma {:induction false} QuietMeets(s: State, acts: seq<Action>, pr: Premise)
    requires forall a :: a in acts ==> Quiet(a)
    ensures RunMeets(s, acts, pr)
    decreases |acts|
  {
    if acts != [] {
      assert acts[0] in acts;
      QuietMeets(Apply(s, acts[0]), acts[1..], pr);
    }
  }

  ghost predicate NobodySweeps(s: State) {
    forall q :: q in s.pcs ==> !Sweeping(s.pcs[q])
  }

  ghost predicate NobodyPending(s: State) {
    forall id :: !Pending(s, id)
  }

  lemma DecidingMeets(s: State, q: Proc, id: JobId, pr: Premise)
    requires q in s.pcs && s.pcs[q] == Idle && StaleRunning(s.st, s.cfg.visibility) == {}
    requires pr.OnePassAtATime? ==> NobodySweeps(s)
    requires pr.PushesInTime? ==> NobodyPending(s)
    ensures RunMeets(s, Lift(q, Deciding(id)), pr)
  {
    var t := Lift(q, Deciding(id));
    assert t[0] == Sweep(q, FindStale([]));
    assert t[1..] == [Sweep(q, FindOrphans([id])), Sweep(q, ReadQueue), Sweep(q, ReadProcessing)];
    var s1 := Apply(s, t[0]);
    assert s1.calls == s.calls;
    if pr.HeartbeatsInTime? {
      forall p, i | p in s.pcs && Holds(s.pcs[p], i) && Has(s.st, i, Running)
        ensures s.st.rows[i].updatedAt >= s.st.now - s.cfg.visibility
      {
        assert i !in StaleRunning(s.st, s.cfg.visibility);
      }
    }
    if pr.PushesInTime? {
      forall i ensures !Pending(s1, i) { assert !Pending(s, i); }
    }
    assert Meets(s, t[0], pr);
    assert Meets(s1, t[1], pr);
    assert t[1..][1..] == [Sweep(q, ReadQueue), Sweep(q, ReadProcessing)];
    QuietMeets(Apply(s1, t[1]), t[1..][1..], pr);
  }

  lemma RecoversMeets(s: State, q: Proc, id: JobId, pr: Premise)
    requires q in s.pcs && s.pcs[q] == Idle && StaleRunning(s.st, s.cfg.visibility) == {}
    requires pr.OnePassAtATime? ==> NobodySweeps(s)
    requires pr.PushesInTime? ==> NobodyPending(s)
    ensures RunMeets(s, Recovers(q, id), pr)
  {
    DecidingMeets(s, q, id, pr);
    QuietMeets(Exec(s, Lift(q, Deciding(id))), [Sweep(q, RecoverOne)], pr);
    MeetsConcat(s, Lift(q, Deciding(id)), [Sweep(q, RecoverOne)], pr);
  }

  lemma ResetsMeets(s: State, q: Proc, id: JobId, pr: Premise)
    requires q in s.pcs && !pr.HeartbeatsInTime? && NobodySweeps(s)
    ensures RunMeets(s, Lift(q, Resets(id)), pr)
  {
    var t := Lift(q, Resets(id));
    assert t[0] == Sweep(q, FindStale([id]));
    assert t[1..] == [Sweep(q, ResetOne), Sweep(q, AnnounceOne), Sweep(q, RequeueOne)];
    assert Meets(s, t[0], pr);
    QuietMeets(Apply(s, t[0]), t[1..], pr);
  }

  // -------------------------------------------------------- the runs

  /** A job is created, and two workers start. */
  function Opening(): seq<Action> {
    [Backend(Create(0, [], [])), Start(0), Start(1)]
  }

  function Opened(cfg: Config, now: int): State {
    State(Store(map[0 := Row(Queued, [], [], None, None, now, now)], [], [], map[], now),
          map[0 := Idle, 1 := Idle], map[0 := MustEnqueue], {}, cfg)
  }

  lemma OpeningRuns(cfg: Config, now: int)
    ensures Exec(Init(cfg, now), Opening()) == Opened(cfg, now)
  {
    ExecThree(Init(cfg, now), Backend(Create(0, [], [])), Start(0), Start(1));
  }

  /** The job is pushed, and worker 0 claims and reads it. */
  function Taking(): seq<Action> {
    [Backend(EnqueueOk(0)), Work(0, TakeJob), Work(0, ReadJob)]
  }

  function Taken(cfg: Config, now: int): State {
    var s := Opened(cfg, now);
    s.(st := s.st.(processing := [JobRef(0)]), pcs := map[0 := Fetched(0), 1 := Idle], calls := map[])
  }

  lemma TakingRuns(cfg: Config, now: int)
    ensures Exec(Opened(cfg, now), Taking()) == Taken(cfg, now)
  {
    var s := Opened(cfg, now);
    var s1 := s.(st := Enqueue(s.st, 0), calls := map[]);
    assert Apply(s, Backend(EnqueueOk(0))) == s1;
    var s2 := s1.(st := Claim(s1.st), pcs := map[0 := Claimed(JobRef(0)), 1 := Idle]);
    assert Apply(s1, Work(0, TakeJob)) == s2;
    assert s2.st.queue == [] && s2.st.processing == [JobRef(0)];
    assert Apply(s2, Work(0, ReadJob)) == Taken(cfg, now);
    ExecThree(s, Backend(EnqueueOk(0)), Work(0, TakeJob), Work(0, ReadJob));
  }

  /** A run that breaks mutual exclusion and one premise only. */
  ghost predicate Breaks(cfg: Config, now: int, acts: seq<Action>, pr: Premise) {
    && Tokens(Exec(Init(cfg, now), acts), 0) >= 2
    && forall other :: other != pr ==> RunMeets(Init(cfg, now), acts, other)
  }

  /** This quiet run from the empty system ends in `s`. */
  ghost predicate Reached(cfg: Config, now: int, quiet: seq<Action>, s: State) {
    s == Exec(Init(cfg, now), quiet) && forall a :: a in quiet ==> Quiet(a)
  }

  /** A quiet beginning and a run that breaks one premise from there. */
  lemma Joined(cfg: Config, now: int, quiet: seq<Action>, s: State, acts: seq<Action>, pr: Premise)
    requires Reached(cfg, now, quiet, s) && Tokens(Exec(s, acts), 0) >= 2
    requires forall other :: other != pr ==> RunMeets(s, acts, other)
    ensures Breaks(cfg, now, quiet + acts, pr)
  {
    ExecConcat(Init(cfg, now), quiet, acts);
    forall other | other != pr ensures RunMeets(Init(cfg, now), quiet + acts, other) {
      QuietMeets(Init(cfg, now), quiet, other);
      MeetsConcat(Init(cfg, now), quiet, acts, other);
    }
  }

  /** An old queued row that nothing else concerns is the lone orphan. */
  lemma OldRowIsLone(st: Store, cfg: Config)
    requires st.rows == map[0 := Row(Queued, [], [], None, None, st.now - cfg.grace - 1, st.now - cfg.grace - 1)]
    requires st.queue == [] && st.processing == []
    ensures LoneOrphan(st, cfg, 0)
  {
    assert OrphanQueued(st, cfg.grace) == {0};
    assert StaleRunning(st, cfg.visibility) == {};
  }

  function Later(s: State, d: nat): State {
    s.(st := Advance(s.st, d))
  }

  lemma OpenedLater(cfg: Config, now: int, d: nat)
    ensures Reached(cfg, now, Opening() + [Tick(d)], Later(Opened(cfg, now), d))
  {
    OpeningRuns(cfg, now);
    ExecConcat(Init(cfg, now), Opening(), [Tick(d)]);
    ExecOne(Opened(cfg, now), Tick(d));
  }

  lemma OldPushIsTwice(cfg: Config, now: int, quiet: seq<Action>, s: State)
    requires Reached(cfg, now, quiet, s) && 1 in s.pcs && s.pcs[1] == Idle && NobodySweeps(s)
    requires Pending(s, 0) && LoneOrphan(s.st, s.cfg, 0)
    ensures Breaks(cfg, now, quiet + Recovers(1, 0), PushesInTime)
  {
    LatePushPushesTwice(s, 1, 0);
    forall other: Premise | other != PushesInTime ensures RunMeets(s, Recovers(1, 0), other) {
      RecoversMeets(s, 1, 0, other);
    }
    Joined(cfg, now, quiet, s, Recovers(1, 0), PushesInTime);
  }

  lemma LatePushBreaks(cfg: Config, now: int)
    ensures exists acts :: Breaks(cfg, now, acts, PushesInTime)
  {
    var s := Later(Opened(cfg, now), cfg.grace + 1);
    OpenedLater(cfg, now, cfg.grace + 1);
    OldRowIsLone(s.st, cfg);
    OldPushIsTwice(cfg, now, Opening() + [Tick(cfg.grace + 1)], s);
  }

  /** The request dies before its push. */
  function Dropped(s: State): State {
    s.(calls := map[])
  }

  lemma DroppedLater(cfg: Config, now: int, d: nat)
    ensures Reached(cfg, now, Opening() + [Tick(d)] + [Backend(DropCall(0))], Dropped(Later(Opened(cfg, now), d)))
  {
    OpenedLater(cfg, now, d);
    ExecConcat(Init(cfg, now), Opening() + [Tick(d)], [Backend(DropCall(0))]);
    ExecOne(Later(Opened(cfg, now), d), Backend(DropCall(0)));
    assert Opened(cfg, now).calls - {0} == map[];
  }

  /** Both passes decide, then both push. */
  function Overlap(id: JobId): seq<Action> {
    Overlapping(0, 1, id)
  }

  lemma OverlapMeets(s: State, pr: Premise)
    requires 0 in s.pcs && 1 in s.pcs && s.pcs[0] == Idle && s.pcs[1] == Idle
    requires LoneOrphan(s.st, s.cfg, 0) && NobodyPending(s) && !pr.OnePassAtATime?
    ensures RunMeets(s, Overlap(0), pr)
  {
    var a, b, c := Lift(0, Deciding(0)), Lift(1, Deciding(0)), [Sweep(0, RecoverOne), Sweep(1, RecoverOne)];
    DecidingRuns(s, 0, 0);
    DecidingMeets(s, 0, 0, pr);
    DecidedMeets(Decided(s, 0, 0), s, pr);
    MeetsConcat(s, a, b, pr);
    QuietMeets(Exec(s, a + b), c, pr);
    MeetsConcat(s, a + b, c, pr);
  }

  lemma DecidedMeets(s1: State, s: State, pr: Premise)
    requires s1 == Decided(s, 0, 0) && 1 in s.pcs && s.pcs[1] == Idle
    requires LoneOrphan(s.st, s.cfg, 0) && NobodyPending(s) && !pr.OnePassAtATime?
    ensures RunMeets(s1, Lift(1, Deciding(0)), pr)
  {
    forall i ensures !Pending(s1, i) { assert !Pending(s, i); }
    DecidingMeets(s1, 1, 0, pr);
  }

  /** Two idle workers, and an orphan that nobody is going to push. */
  ghost predicate Forgotten(s: State) {
    && 0 in s.pcs && 1 in s.pcs && s.pcs[0] == Idle && s.pcs[1] == Idle
    && LoneOrphan(s.st, s.cfg, 0) && NobodyPending(s)
  }

  lemma DroppedIsForgotten(cfg: Config, now: int)
    ensures Forgotten(Dropped(Later(Opened(cfg, now), cfg.grace + 1)))
  {
    OldRowIsLone(Later(Opened(cfg, now), cfg.grace + 1).st, cfg);
  }

  lemma ForgottenIsPushedTwice(cfg: Config, now: int, quiet: seq<Action>, s: State)
    requires Reached(cfg, now, quiet, s) && Forgotten(s)
    ensures Breaks(cfg, now, quiet + Overlap(0), OnePassAtATime)
  {
    OverlappingPassesPushTwice(s, 0, 1, 0);
    forall other: Premise | other != OnePassAtATime ensures RunMeets(s, Overlap(0), other) {
      OverlapMeets(s, other);
    }
    Joined(cfg, now, quiet, s, Overlap(0), OnePassAtATime);
  }

  lemma OverlapBreaks(cfg: Config, now: int)
    ensures exists acts :: Breaks(cfg, now, acts, OnePassAtATime)
  {
    DroppedLater(cfg, now, cfg.grace + 1);
    DroppedIsForgotten(cfg, now);
    ForgottenIsPushedTwice(cfg, now, Opening() + [Tick(cfg.grace + 1)] + [Backend(DropCall(0))],
                           Dropped(Later(Opened(cfg, now), cfg.grace + 1)));
  }

  lemma TakenLater(cfg: Config, now: int, d: nat)
    ensures Reached(cfg, now, Opening() + Taking() + [Tick(d)], Later(Taken(cfg, now), d))
  {
    OpeningRuns(cfg, now);
    TakingRuns(cfg, now);
    ExecConcat(Init(cfg, now), Opening(), Taking());
    ExecConcat(Init(cfg, now), Opening() + Taking(), [Tick(d)]);
    ExecOne(Taken(cfg, now), Tick(d));
  }

  lemma FlushMeets(s: State, q: Proc, id: JobId, pr: Premise)
    requires !pr.NoFlush? && q in s.pcs && s.pcs[q] == Idle && NobodySweeps(s) && NobodyPending(s)
    requires StaleRunning(s.st, s.cfg.visibility) == {}
    ensures RunMeets(s, [Flush] + Recovers(q, id), pr)
  {
    var f := Apply(s, Flush);
    forall i ensures !Pending(f, i) { assert !Pending(s, i); }
    assert StaleRunning(f.st, f.cfg.visibility) == StaleRunning(s.st, s.cfg.visibility);
    RecoversMeets(f, q, id, pr);
    assert ([Flush] + Recovers(q, id))[1..] == Recovers(q, id);
  }

  /** Worker 0 holds the job, and only its in-flight entry keeps a pass of worker 1 off it. */
  ghost predicate OnlyInFlight(s: State) {
    && 0 in s.pcs && 1 in s.pcs && Holds(s.pcs[0], 0) && s.pcs[1] == Idle && NobodySweeps(s) && NobodyPending(s)
    && LoneOrphan(FlushRedis(s.st), s.cfg, 0)
  }

  lemma TakenIsOnlyInFlight(cfg: Config, now: int)
    ensures OnlyInFlight(Later(Taken(cfg, now), cfg.grace + 1))
  {
    OldRowIsLone(FlushRedis(Later(Taken(cfg, now), cfg.grace + 1).st), cfg);
  }

  lemma FlushedIsPushedTwice(cfg: Config, now: int, quiet: seq<Action>, s: State)
    requires Reached(cfg, now, quiet, s) && OnlyInFlight(s)
    ensures Breaks(cfg, now, quiet + ([Flush] + Recovers(1, 0)), NoFlush)
  {
    FlushPushesTwice(s, 0, 1, 0);
    assert StaleRunning(FlushRedis(s.st), s.cfg.visibility) == StaleRunning(s.st, s.cfg.visibility);
    forall other: Premise | other != NoFlush ensures RunMeets(s, [Flush] + Recovers(1, 0), other) {
      FlushMeets(s, 1, 0, other);
    }
    Joined(cfg, now, quiet, s, [Flush] + Recovers(1, 0), NoFlush);
  }

  lemma FlushBreaks(cfg: Config, now: int)
    ensures exists acts :: Breaks(cfg, now, acts, NoFlush)
  {
    TakenLater(cfg, now, cfg.grace + 1);
    TakenIsOnlyInFlight(cfg, now);
    FlushedIsPushedTwice(cfg, now, Opening() + Taking() + [Tick(cfg.grace + 1)], Later(Taken(cfg, now), cfg.grace + 1));
  }

  /** Worker 0 has the job running. */
  function Marked(cfg: Config, now: int): State {
    var s := Taken(cfg, now);
    s.(st := MarkRunning(s.st, 0), pcs := map[0 := Started(0), 1 := Idle])
  }

  lemma MarkedLater(cfg: Config, now: int, d: nat)
    ensures Reached(cfg, now, Opening() + Taking() + [Tick(0)] + [Work(0, MarkOk), Tick(d)], Later(Marked(cfg, now), d))
  {
    TakenLater(cfg, now, 0);
    assert Later(Taken(cfg, now), 0) == Taken(cfg, now);
    ExecConcat(Init(cfg, now), Opening() + Taking() + [Tick(0)], [Work(0, MarkOk), Tick(d)]);
    ExecTwo(Taken(cfg, now), Work(0, MarkOk), Tick(d));
    assert Apply(Taken(cfg, now), Work(0, MarkOk)) == Marked(cfg, now);
  }

  /** Worker 0 holds the one stale job, worker 1 is idle. */
  ghost predicate FallenSilent(s: State) {
    && 0 in s.pcs && 1 in s.pcs && Holds(s.pcs[0], 0) && s.pcs[1] == Idle && NobodySweeps(s)
    && StaleRunning(s.st, s.cfg.visibility) == {0}
  }

  lemma MarkedFallsSilent(cfg: Config, now: int)
    ensures FallenSilent(Later(Marked(cfg, now), cfg.visibility + 1))
  {}

  lemma SilentIsPushedTwice(cfg: Config, now: int, quiet: seq<Action>, s: State)
    requires Reached(cfg, now, quiet, s) && FallenSilent(s)
    ensures Breaks(cfg, now, quiet + Lift(1, Resets(0)), HeartbeatsInTime)
  {
    LateHeartbeatPushesTwice(s, 0, 1, 0);
    forall other: Premise | other != HeartbeatsInTime ensures RunMeets(s, Lift(1, Resets(0)), other) {
      ResetsMeets(s, 1, 0, other);
    }
    Joined(cfg, now, quiet, s, Lift(1, Resets(0)), HeartbeatsInTime);
  }

  lemma LateHeartbeatBreaks(cfg: Config, now: int)
    ensures exists acts :: Breaks(cfg, now, acts, HeartbeatsInTime)
  {
    MarkedLater(cfg, now, cfg.visibility + 1);
    MarkedFallsSilent(cfg, now);
    SilentIsPushedTwice(cfg, now, Opening() + Taking() + [Tick(0)] + [Work(0, MarkOk), Tick(cfg.visibility + 1)],
                        Later(Marked(cfg, now), cfg.visibility + 1));
  }

  /** Whatever the timeouts, dropping any one of the four premises lets some run
      from the empty system put a job in two hands. */
  lemma EveryPremiseIsNeeded(cfg: Config, now: int, pr: Premise)
    ensures exists acts :: Breaks(cfg, now, acts, pr)
  {
    match pr
    case NoFlush => FlushBreaks(cfg, now);
    case OnePassAtATime => OverlapBreaks(cfg, now);
    case HeartbeatsInTime => LateHeartbeatBreaks(cfg, now);
    case PushesInTime => LatePushBreaks(cfg, now);
  }
}
