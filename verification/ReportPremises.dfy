/** Each assumption of true reports is needed: without it, and with the others kept
    at every step, a run from the empty system makes a poll report a terminal status
    for a job that is still active. */
module ReportPremises {
  import opened Wrappers
  import opened Store
  import opened Protocol
  import opened LocalRuns
  import opened Frames
  import opened Exclusion
  import opened Races
  import opened Premises
  import opened Reports

  /** What true reports rest on: the premises of mutual exclusion, and that no
      mark_running raises without effect. */
  datatype Need = Timing(pr: Premise) | MarksLand

  ghost predicate NoLostMark(acts: seq<Action>) {
    forall a :: a in acts ==> !LosesMark(a)
  }

  /** A run that makes a poll misreport and breaks one of the needs only. */
  ghost predicate Misleads(cfg: Config, now: int, acts: seq<Action>, need: Need) {
    && Misreports(Exec(Init(cfg, now), acts).st, 0)
    && (forall pr :: need != Timing(pr) ==> RunMeets(Init(cfg, now), acts, pr))
    && (need != MarksLand ==> NoLostMark(acts))
  }

  // ------------------------------------------ a queued copy of a running job

  /** Workers 0 and 1 and the one job: what all the states below share. */
  ghost predicate Stage(s: State) {
    && s.pcs.Keys == {0, 1} && s.st.rows.Keys == {0} && s.st.rows[0].updatedAt <= s.st.now
  }

  /** Worker 0 holds the running job, and a second copy of its id is queued. */
  ghost predicate Doubled(s: State) {
    Stage(s) && s.pcs[1] == Idle && Has(s.st, 0, Running) && s.st.queue == [JobRef(0)]
  }

  /** Worker 0 dies; a pass of worker 1 selects the stale job; before its reset
      worker 2 claims the copy. */
  function Selecting(cfg: Config): seq<Action> {
    [Crash(0), Tick(cfg.visibility + 1), Sweep(1, FindStale([0]))]
  }

  function Rerunning(): seq<LocalAct> {
    [Do(TakeJob), Do(ReadJob)] + [Do(MarkOk), Do(AnnounceOk)]
  }

  function Copying(): seq<Action> {
    [Start(2)] + Lift(2, Rerunning())
  }

  function Cutting(): seq<Action> {
    [Sweep(1, ResetOne), Tick(SECOND)]
  }

  function Tail(cfg: Config): seq<Action> {
    Selecting(cfg) + Copying() + Cutting() + Lift(2, Finish())
  }

  ghost predicate Selected(s: State) {
    && 1 in s.pcs && s.pcs[1] == Resetting([0]) && 2 !in s.pcs
    && Has(s.st, 0, Running) && s.st.queue == [JobRef(0)]
  }

  lemma SelectingRuns(s: State)
    requires Doubled(s)
    ensures Selected(Exec(s, Selecting(s.cfg)))
    ensures forall pr :: RunMeets(s, Selecting(s.cfg), pr)
  {
    var a, b, c := Crash(0), Tick(s.cfg.visibility + 1), Sweep(1, FindStale([0]));
    var s1 := Apply(s, a);
    var s2 := Apply(s1, b);
    ExecThree(s, a, b, c);
    assert s2.pcs.Keys == {1} && s2.pcs[1] == Idle;
    assert StaleRunning(s2.st, s2.cfg.visibility) == {0};
    forall pr ensures RunMeets(s, Selecting(s.cfg), pr) {
      SelectingMeets(s, s2, pr);
    }
  }

  lemma SelectingMeets(s: State, s2: State, pr: Premise)
    requires s2 == Apply(Apply(s, Crash(0)), Tick(s.cfg.visibility + 1))
    requires s2.pcs.Keys == {1} && s2.pcs[1] == Idle
    ensures RunMeets(s, Selecting(s.cfg), pr)
  {
    var quiet := [Crash(0), Tick(s.cfg.visibility + 1)];
    var find := [Sweep(1, FindStale([0]))];
    ExecTwo(s, quiet[0], quiet[1]);
    QuietMeets(s, quiet, pr);
    assert Meets(s2, find[0], pr);
    assert RunMeets(Apply(s2, find[0]), find[1..], pr);
    MeetsConcat(s, quiet, find, pr);
    assert quiet + find == Selecting(s.cfg);
  }

  ghost predicate Rerun(s: State) {
    && 1 in s.pcs && s.pcs[1] == Resetting([0]) && 2 in s.pcs && s.pcs[2] == Executing(0)
    && Has(s.st, 0, Running)
  }

  lemma RerunSteps(cfg: Config, st: Store)
    requires Has(st, 0, Running) && st.queue == [JobRef(0)]
    ensures Steps(cfg, Place(st, Idle), Rerunning()) == Place(Publish(Claim(st), 0, Running, false), Executing(0))
  {
    StepsConcat(cfg, Place(st, Idle), [Do(TakeJob), Do(ReadJob)], [Do(MarkOk), Do(AnnounceOk)]);
    Steps2(cfg, Place(st, Idle), Do(TakeJob), Do(ReadJob));
    Steps2(cfg, Place(Claim(st), Fetched(0)), Do(MarkOk), Do(AnnounceOk));
  }

  lemma RerunRuns(s: State)
    requires Selected(s)
    ensures Rerun(Exec(s, Copying()))
  {
    var s1 := Goto(s, 2, Idle);
    ExecConcat(s, [Start(2)], Lift(2, Rerunning()));
    ExecOne(s, Start(2));
    RerunSteps(s.cfg, s.st);
    LiftRuns(s1, 2, Rerunning());
  }

  ghost predicate Undercut(s: State) {
    2 in s.pcs && s.pcs[2] == Executing(0) && Has(s.st, 0, Queued) && s.st.rows[0].updatedAt < FloorToSecond(s.st.now)
  }

  lemma CuttingRuns(s: State)
    requires Rerun(s)
    ensures Undercut(Exec(s, Cutting()))
  {
    ExecTwo(s, Sweep(1, ResetOne), Tick(SECOND));
  }

  lemma InFourParts(s: State, a: seq<Action>, b: seq<Action>, c: seq<Action>, d: seq<Action>)
    ensures Exec(s, a + b + c + d) == Exec(Exec(Exec(Exec(s, a), b), c), d)
  {
    ExecConcat(s, a, b);
    ExecConcat(s, a + b, c);
    ExecConcat(s, a + b + c, d);
  }

  lemma TailMisleads(s: State)
    requires Doubled(s)
    ensures Misreports(Exec(s, Tail(s.cfg)).st, 0)
  {
    SelectingRuns(s);
    RerunRuns(Exec(s, Selecting(s.cfg)));
    RerunMisleads(Exec(Exec(s, Selecting(s.cfg)), Copying()));
    InFourParts(s, Selecting(s.cfg), Copying(), Cutting(), Lift(2, Finish()));
  }

  lemma RerunMisleads(s: State)
    requires Rerun(s)
    ensures Misreports(Exec(Exec(s, Cutting()), Lift(2, Finish())).st, 0)
  {
    CuttingRuns(s);
    LateWorkerMisreports(Exec(s, Cutting()), 2, 0);
  }

  /** What comes after the selection is about no premise, and loses no mark. */
  lemma TailIsQuiet(cfg: Config)
    ensures forall a :: a in Copying() + Cutting() + Lift(2, Finish()) ==> Quiet(a)
    ensures NoLostMark(Tail(cfg))
  {}

  lemma TailMeets(s: State, pr: Premise)
    requires Doubled(s)
    ensures RunMeets(s, Tail(s.cfg), pr)
  {
    var rest := Copying() + Cutting() + Lift(2, Finish());
    SelectingRuns(s);
    TailIsQuiet(s.cfg);
    QuietMeets(Exec(s, Selecting(s.cfg)), rest, pr);
    MeetsConcat(s, Selecting(s.cfg), rest, pr);
    assert Tail(s.cfg) == Selecting(s.cfg) + rest;
  }

  // ------------------------------------------ reaching it

  /** Worker 0 has read the job, a copy is queued, and worker 1 is at the end of a pass. */
  ghost predicate Copied(s: State) {
    && Stage(s) && s.pcs[0] == Fetched(0) && s.pcs[1].Recovering? && s.pcs[1].candidates == []
    && Has(s.st, 0, Queued) && s.st.queue == [JobRef(0)]
  }

  function Marking(): seq<Action> {
    [Sweep(1, RecoverOne), Work(0, MarkOk)]
  }

  lemma MarkingRuns(s: State)
    requires Copied(s)
    ensures Doubled(Exec(s, Marking()))
  {
    ExecTwo(s, Sweep(1, RecoverOne), Work(0, MarkOk));
  }

  /** Two copies are queued, and worker 0 is idle. */
  ghost predicate TwoCopies(s: State) {
    && Stage(s) && s.pcs[0] == Idle && s.pcs[1].Recovering? && s.pcs[1].candidates == []
    && Has(s.st, 0, Queued) && s.st.queue == [JobRef(0), JobRef(0)]
  }

  function Claiming(): seq<Action> {
    [Work(0, TakeJob), Work(0, ReadJob)]
  }

  lemma ClaimingRuns(s: State)
    requires TwoCopies(s)
    ensures Copied(Exec(s, Claiming()))
  {
    ExecTwo(s, Work(0, TakeJob), Work(0, ReadJob));
  }

  /** The run leads to this state, keeps every premise but one, and loses no mark. */
  ghost predicate Leads(cfg: Config, now: int, acts: seq<Action>, s: State, pr: Premise) {
    && s == Exec(Init(cfg, now), acts) && NoLostMark(acts)
    && forall other :: other != pr ==> RunMeets(Init(cfg, now), acts, other)
  }

  lemma LeadsOn(cfg: Config, now: int, acts: seq<Action>, s: State, more: seq<Action>, pr: Premise)
    requires Leads(cfg, now, acts, s, pr) && NoLostMark(more)
    requires forall other :: other != pr ==> RunMeets(s, more, other)
    ensures Leads(cfg, now, acts + more, Exec(s, more), pr)
  {
    ExecConcat(Init(cfg, now), acts, more);
    forall other: Premise | other != pr ensures RunMeets(Init(cfg, now), acts + more, other) {
      MeetsConcat(Init(cfg, now), acts, more, other);
    }
  }

  lemma LeadsQuietly(cfg: Config, now: int, acts: seq<Action>, s: State, more: seq<Action>, pr: Premise)
    requires Leads(cfg, now, acts, s, pr) && NoLostMark(more) && forall a :: a in more ==> Quiet(a)
    ensures Leads(cfg, now, acts + more, Exec(s, more), pr)
  {
    forall other: Premise | other != pr ensures RunMeets(s, more, other) {
      QuietMeets(s, more, other);
    }
    LeadsOn(cfg, now, acts, s, more, pr);
  }

  lemma MisreportMisleads(cfg: Config, now: int, acts: seq<Action>, s: State, pr: Premise)
    requires Leads(cfg, now, acts, s, pr) && Misreports(s.st, 0)
    ensures exists all :: Misleads(cfg, now, all, Timing(pr))
  {
    assert forall other: Premise :: Timing(pr) != Timing(other) ==> other != pr;
    assert Misleads(cfg, now, acts, Timing(pr));
  }

  lemma DoubledMisleads(cfg: Config, now: int, acts: seq<Action>, s: State, pr: Premise)
    requires Leads(cfg, now, acts, s, pr) && Doubled(s)
    ensures exists all :: Misleads(cfg, now, all, Timing(pr))
  {
    CfgStays(Init(cfg, now), acts);
    TailMisleads(s);
    TailIsQuiet(cfg);
    forall other: Premise | other != pr ensures RunMeets(s, Tail(cfg), other) {
      TailMeets(s, other);
    }
    LeadsOn(cfg, now, acts, s, Tail(cfg), pr);
    MisreportMisleads(cfg, now, acts + Tail(cfg), Exec(s, Tail(cfg)), pr);
  }

  lemma CopiedMisleads(cfg: Config, now: int, acts: seq<Action>, s: State, pr: Premise)
    requires Leads(cfg, now, acts, s, pr) && Copied(s)
    ensures exists all :: Misleads(cfg, now, all, Timing(pr))
  {
    MarkingRuns(s);
    LeadsQuietly(cfg, now, acts, s, Marking(), pr);
    DoubledMisleads(cfg, now, acts + Marking(), Exec(s, Marking()), pr);
  }

  lemma TwoCopiesMislead(cfg: Config, now: int, acts: seq<Action>, s: State, pr: Premise)
    requires Leads(cfg, now, acts, s, pr) && TwoCopies(s)
    ensures exists all :: Misleads(cfg, now, all, Timing(pr))
  {
    ClaimingRuns(s);
    LeadsQuietly(cfg, now, acts, s, Claiming(), pr);
    CopiedMisleads(cfg, now, acts + Claiming(), Exec(s, Claiming()), pr);
  }

  lemma {:induction false} CfgStays(s: State, acts: seq<Action>)
    ensures Exec(s, acts).cfg == s.cfg
    decreases |acts|
  {
    if acts != [] {
      CfgStep(s, acts[0]);
      CfgStays(Apply(s, acts[0]), acts[1..]);
    }
  }

  lemma CfgStep(s: State, a: Action)
    ensures Apply(s, a).cfg == s.cfg
  {}

  // ------------------------------------------ premise by premise

  lemma FlushedIsCopied(s: State)
    requires OnlyInFlight(s) && Stage(s) && s.pcs[0] == Fetched(0)
    ensures Copied(Exec(s, [Flush] + Recovers(1, 0)))
  {
    var f := Apply(s, Flush);
    ExecConcat(s, [Flush], Recovers(1, 0));
    ExecOne(s, Flush);
    assert 0 in OrphanQueued(f.st, f.cfg.grace);
    RecoversPushes(f, 1, 0);
    var e := Exec(f, Recovers(1, 0));
    assert e.pcs[0] == s.pcs[0];
    assert e.st.queue == [JobRef(0)];
  }

  lemma ReachedLeads(cfg: Config, now: int, quiet: seq<Action>, s: State, pr: Premise)
    requires Reached(cfg, now, quiet, s) && NoLostMark(quiet)
    ensures Leads(cfg, now, quiet, s, pr)
  {
    forall other: Premise | other != pr ensures RunMeets(Init(cfg, now), quiet, other) {
      QuietMeets(Init(cfg, now), quiet, other);
    }
  }

  /** Nothing a pass does is a mark. */
  lemma PassLosesNoMark(q: Proc, vs: seq<LocalAct>)
    requires forall v :: v in vs ==> !v.Do?
    ensures NoLostMark(Lift(q, vs))
  {}

  lemma RecoversLosesNoMark(q: Proc)
    ensures NoLostMark(Recovers(q, 0))
  {
    PassLosesNoMark(q, Deciding(0));
  }

  lemma OverlapLosesNoMark()
    ensures NoLostMark(Overlap(0))
  {
    PassLosesNoMark(0, Deciding(0));
    PassLosesNoMark(1, Deciding(0));
  }

  lemma FlushMisleads(cfg: Config, now: int, quiet: seq<Action>, s: State)
    requires Reached(cfg, now, quiet, s) && NoLostMark(quiet)
    requires OnlyInFlight(s) && Stage(s) && s.pcs[0] == Fetched(0)
    ensures exists acts :: Misleads(cfg, now, acts, Timing(NoFlush))
  {
    ReachedLeads(cfg, now, quiet, s, NoFlush);
    FlushRunMeets(s);
    RecoversLosesNoMark(1);
    FlushedIsCopied(s);
    LeadsOn(cfg, now, quiet, s, [Flush] + Recovers(1, 0), NoFlush);
    CopiedMisleads(cfg, now, quiet + ([Flush] + Recovers(1, 0)), Exec(s, [Flush] + Recovers(1, 0)), NoFlush);
  }

  lemma FlushRunMeets(s: State)
    requires OnlyInFlight(s)
    ensures forall other :: other != NoFlush ==> RunMeets(s, [Flush] + Recovers(1, 0), other)
  {
    assert StaleRunning(FlushRedis(s.st), s.cfg.visibility) == StaleRunning(s.st, s.cfg.visibility);
    forall other: Premise | other != NoFlush ensures RunMeets(s, [Flush] + Recovers(1, 0), other) {
      FlushMeets(s, 1, 0, other);
    }
  }

  lemma BothPush(s: State)
    requires Stage(s) && Has(s.st, 0, Queued) && s.st.queue == []
    requires s.pcs[0].Recovering? && s.pcs[0].candidates == [0] && JobRef(0) !in s.pcs[0].live
    requires s.pcs[1].Recovering? && s.pcs[1].candidates == [0] && JobRef(0) !in s.pcs[1].live
    ensures var e := Apply(Apply(s, Sweep(0, RecoverOne)), Sweep(1, RecoverOne));
            && e.st.queue == [JobRef(0), JobRef(0)] && e.st.rows == s.st.rows && e.st.now == s.st.now
            && e.pcs.Keys == s.pcs.Keys
            && e.pcs[0].Recovering? && e.pcs[0].candidates == [] && e.pcs[1].Recovering? && e.pcs[1].candidates == []
  {}

  /** Worker 0 is at the end of its pass too. */
  ghost predicate BothPushed(s: State) {
    && Stage(s) && Has(s.st, 0, Queued) && s.st.queue == [JobRef(0), JobRef(0)]
    && s.pcs[0].Recovering? && s.pcs[0].candidates == [] && s.pcs[1].Recovering? && s.pcs[1].candidates == []
  }

  lemma OverlapLeavesCopies(s: State)
    requires Forgotten(s) && Stage(s) && s.st.queue == []
    ensures BothPushed(Exec(s, Overlap(0)))
  {
    OverlappingRuns(s, 0, 1, 0);
    assert 0 in OrphanQueued(s.st, s.cfg.grace);
    BothPush(Decided(Decided(s, 0, 0), 1, 0));
  }

  lemma PassEnds(s: State)
    requires BothPushed(s)
    ensures TwoCopies(Exec(s, [Sweep(0, RecoverOne)]))
  {
    ExecOne(s, Sweep(0, RecoverOne));
  }

  lemma OverlapMisleads(cfg: Config, now: int, quiet: seq<Action>, s: State)
    requires Reached(cfg, now, quiet, s) && NoLostMark(quiet)
    requires Forgotten(s) && Stage(s) && s.st.queue == []
    ensures exists acts :: Misleads(cfg, now, acts, Timing(OnePassAtATime))
  {
    ReachedLeads(cfg, now, quiet, s, OnePassAtATime);
    OverlapLosesNoMark();
    forall other: Premise | other != OnePassAtATime ensures RunMeets(s, Overlap(0), other) {
      OverlapMeets(s, other);
    }
    LeadsOn(cfg, now, quiet, s, Overlap(0), OnePassAtATime);
    OverlapLeavesCopies(s);
    BothPushedMislead(cfg, now, quiet + Overlap(0), Exec(s, Overlap(0)));
  }

  lemma BothPushedMislead(cfg: Config, now: int, acts: seq<Action>, s: State)
    requires Leads(cfg, now, acts, s, OnePassAtATime) && BothPushed(s)
    ensures exists all :: Misleads(cfg, now, all, Timing(OnePassAtATime))
  {
    PassEnds(s);
    LeadsQuietly(cfg, now, acts, s, [Sweep(0, RecoverOne)], OnePassAtATime);
    TwoCopiesMislead(cfg, now, acts + [Sweep(0, RecoverOne)], Exec(s, [Sweep(0, RecoverOne)]), OnePassAtATime);
  }

  /** A pass has pushed the job, and its request is still to push it. */
  ghost predicate PushedEarly(s: State) {
    && Stage(s) && Has(s.st, 0, Queued) && s.st.queue == [JobRef(0)] && Pending(s, 0)
    && s.pcs[0] == Idle && s.pcs[1].Recovering? && s.pcs[1].candidates == []
  }

  lemma EarlyPush(s: State)
    requires Stage(s) && s.pcs[0] == Idle && s.pcs[1] == Idle && Pending(s, 0) && s.st.queue == []
    requires LoneOrphan(s.st, s.cfg, 0)
    ensures PushedEarly(Exec(s, Recovers(1, 0)))
  {
    RecoversPushes(s, 1, 0);
    assert 0 in OrphanQueued(s.st, s.cfg.grace);
    assert Exec(s, Recovers(1, 0)).pcs[0] == s.pcs[0];
  }

  lemma RequestPushes(s: State)
    requires PushedEarly(s)
    ensures TwoCopies(Exec(s, [Backend(EnqueueOk(0))]))
  {
    ExecOne(s, Backend(EnqueueOk(0)));
  }

  lemma PushedEarlyMisleads(cfg: Config, now: int, acts: seq<Action>, s: State)
    requires Leads(cfg, now, acts, s, PushesInTime) && PushedEarly(s)
    ensures exists all :: Misleads(cfg, now, all, Timing(PushesInTime))
  {
    RequestPushes(s);
    LeadsQuietly(cfg, now, acts, s, [Backend(EnqueueOk(0))], PushesInTime);
    TwoCopiesMislead(cfg, now, acts + [Backend(EnqueueOk(0))], Exec(s, [Backend(EnqueueOk(0))]), PushesInTime);
  }

  lemma LatePushMisleads(cfg: Config, now: int, quiet: seq<Action>, s: State)
    requires Reached(cfg, now, quiet, s) && NoLostMark(quiet) && NobodySweeps(s)
    requires Stage(s) && s.pcs[0] == Idle && s.pcs[1] == Idle && Pending(s, 0) && s.st.queue == []
    requires LoneOrphan(s.st, s.cfg, 0)
    ensures exists acts :: Misleads(cfg, now, acts, Timing(PushesInTime))
  {
    ReachedLeads(cfg, now, quiet, s, PushesInTime);
    RecoversLosesNoMark(1);
    forall other: Premise | other != PushesInTime ensures RunMeets(s, Recovers(1, 0), other) {
      RecoversMeets(s, 1, 0, other);
    }
    LeadsOn(cfg, now, quiet, s, Recovers(1, 0), PushesInTime);
    EarlyPush(s);
    PushedEarlyMisleads(cfg, now, quiet + Recovers(1, 0), Exec(s, Recovers(1, 0)));
  }

  // ------------------------------------------ a late heartbeat, a lost mark

  /** Worker 1 resets the job under worker 0, which goes on to finish it. */
  function Undercutting(): seq<Action> {
    [Sweep(1, FindStale([0])), Sweep(1, ResetOne)] + [Work(0, AnnounceOk), Tick(SECOND)]
  }

  ghost predicate LateAndMarked(s: State) {
    FallenSilent(s) && Stage(s) && s.pcs[0] == Started(0)
  }

  lemma UndercuttingRuns(s: State)
    requires LateAndMarked(s)
    ensures var e := Exec(s, Undercutting());
            && 0 in e.pcs && e.pcs[0] == Executing(0)
            && Has(e.st, 0, Queued) && e.st.rows[0].updatedAt < FloorToSecond(e.st.now)
  {
    assert 0 in StaleRunning(s.st, s.cfg.visibility);
    ExecConcat(s, [Sweep(1, FindStale([0])), Sweep(1, ResetOne)], [Work(0, AnnounceOk), Tick(SECOND)]);
    ExecTwo(s, Sweep(1, FindStale([0])), Sweep(1, ResetOne));
    var m := Apply(Apply(s, Sweep(1, FindStale([0]))), Sweep(1, ResetOne));
    ExecTwo(m, Work(0, AnnounceOk), Tick(SECOND));
  }

  lemma UndercuttingMeets(s: State, pr: Premise)
    requires LateAndMarked(s) && pr != HeartbeatsInTime
    ensures RunMeets(s, Undercutting(), pr)
  {
    var t := Undercutting();
    assert Meets(s, t[0], pr);
    assert t[1..] == [Sweep(1, ResetOne), Work(0, AnnounceOk), Tick(SECOND)];
    QuietMeets(Apply(s, t[0]), t[1..], pr);
  }

  lemma FinishIsQuiet()
    ensures NoLostMark(Lift(0, Finish())) && forall a :: a in Lift(0, Finish()) ==> Quiet(a)
  {}

  lemma LateHeartbeatMisleads(cfg: Config, now: int, quiet: seq<Action>, s: State)
    requires Reached(cfg, now, quiet, s) && NoLostMark(quiet) && LateAndMarked(s)
    ensures exists acts :: Misleads(cfg, now, acts, Timing(HeartbeatsInTime))
  {
    ReachedLeads(cfg, now, quiet, s, HeartbeatsInTime);
    forall other: Premise | other != HeartbeatsInTime ensures RunMeets(s, Undercutting(), other) {
      UndercuttingMeets(s, other);
    }
    LeadsOn(cfg, now, quiet, s, Undercutting(), HeartbeatsInTime);
    UndercuttingRuns(s);
    UndercutMisleads(cfg, now, quiet + Undercutting(), Exec(s, Undercutting()));
  }

  lemma UndercutMisleads(cfg: Config, now: int, acts: seq<Action>, s: State)
    requires Leads(cfg, now, acts, s, HeartbeatsInTime) && 0 in s.pcs && s.pcs[0] == Executing(0)
    requires Has(s.st, 0, Queued) && s.st.rows[0].updatedAt < FloorToSecond(s.st.now)
    ensures exists all :: Misleads(cfg, now, all, Timing(HeartbeatsInTime))
  {
    FinishIsQuiet();
    LeadsQuietly(cfg, now, acts, s, Lift(0, Finish()), HeartbeatsInTime);
    LateWorkerMisreports(s, 0, 0);
    MisreportMisleads(cfg, now, acts + Lift(0, Finish()), Exec(s, Lift(0, Finish())), HeartbeatsInTime);
  }

  /** mark_running raises without effect, and _fail announces the failure. */
  function Losing(why: Reason): seq<LocalAct> {
    [Do(MarkRaises(false, why)), Do(FailOk), Do(ResultPublished)]
  }

  lemma LosingSteps(cfg: Config, st: Store, why: Reason)
    requires Has(st, 0, Queued) && st.rows[0].updatedAt < FloorToSecond(st.now)
    ensures Misreports(Steps(cfg, Place(st, Fetched(0)), Losing(why)).st, 0)
  {
    Steps3(cfg, Place(st, Fetched(0)), Do(MarkRaises(false, why)), Do(FailOk), Do(ResultPublished));
  }

  lemma LostMarkMisleads(cfg: Config, now: int, quiet: seq<Action>, s: State, why: Reason)
    requires Reached(cfg, now, quiet, s) && 0 in s.pcs && s.pcs[0] == Fetched(0)
    requires Has(s.st, 0, Queued) && s.st.rows[0].updatedAt < FloorToSecond(s.st.now)
    ensures exists acts :: Misleads(cfg, now, acts, MarksLand)
  {
    var i := Init(cfg, now);
    var lost := Lift(0, Losing(why));
    LiftRuns(s, 0, Losing(why));
    LosingSteps(s.cfg, s.st, why);
    ExecConcat(i, quiet, lost);
    forall pr ensures RunMeets(i, quiet + lost, pr) {
      QuietMeets(i, quiet + lost, pr);
    }
    assert Misleads(cfg, now, quiet + lost, MarksLand);
  }

  // ------------------------------------------ from the empty system

  lemma FromTaken(cfg: Config, now: int, d: nat)
    ensures Stage(Later(Taken(cfg, now), d)) && NoLostMark(Opening() + Taking() + [Tick(d)])
  {}

  lemma FromOpened(cfg: Config, now: int, d: nat)
    ensures var s := Later(Opened(cfg, now), d);
            Stage(s) && NobodySweeps(s) && NoLostMark(Opening() + [Tick(d)])
  {}

  lemma FlushCase(cfg: Config, now: int)
    ensures exists acts :: Misleads(cfg, now, acts, Timing(NoFlush))
  {
    var d := cfg.grace + 1;
    TakenLater(cfg, now, d);
    TakenIsOnlyInFlight(cfg, now);
    FromTaken(cfg, now, d);
    FlushMisleads(cfg, now, Opening() + Taking() + [Tick(d)], Later(Taken(cfg, now), d));
  }

  lemma OverlapCase(cfg: Config, now: int)
    ensures exists acts :: Misleads(cfg, now, acts, Timing(OnePassAtATime))
  {
    var d := cfg.grace + 1;
    DroppedLater(cfg, now, d);
    DroppedIsForgotten(cfg, now);
    FromOpened(cfg, now, d);
    OverlapMisleads(cfg, now, Opening() + [Tick(d)] + [Backend(DropCall(0))], Dropped(Later(Opened(cfg, now), d)));
  }

  lemma LatePushCase(cfg: Config, now: int)
    ensures exists acts :: Misleads(cfg, now, acts, Timing(PushesInTime))
  {
    var d := cfg.grace + 1;
    var s := Later(Opened(cfg, now), d);
    OpenedLater(cfg, now, d);
    OldRowIsLone(s.st, cfg);
    FromOpened(cfg, now, d);
    LatePushMisleads(cfg, now, Opening() + [Tick(d)], s);
  }

  lemma MarkedFacts(cfg: Config, now: int)
    ensures LateAndMarked(Later(Marked(cfg, now), cfg.visibility + 1))
    ensures NoLostMark(Opening() + Taking() + [Tick(0)] + [Work(0, MarkOk), Tick(cfg.visibility + 1)])
  {
    MarkedFallsSilent(cfg, now);
  }

  lemma LateHeartbeatCase(cfg: Config, now: int)
    ensures exists acts :: Misleads(cfg, now, acts, Timing(HeartbeatsInTime))
  {
    var d := cfg.visibility + 1;
    MarkedLater(cfg, now, d);
    MarkedFacts(cfg, now);
    LateHeartbeatMisleads(cfg, now, Opening() + Taking() + [Tick(0)] + [Work(0, MarkOk), Tick(d)], Later(Marked(cfg, now), d));
  }

  lemma LostMarkCase(cfg: Config, now: int)
    ensures exists acts :: Misleads(cfg, now, acts, MarksLand)
  {
    TakenLater(cfg, now, SECOND);
    LostMarkMisleads(cfg, now, Opening() + Taking() + [Tick(SECOND)], Later(Taken(cfg, now), SECOND), WorkerError([]));
  }

  /** Whatever the timeouts, dropping any one of the five needs lets some run from
      the empty system make a poll report a terminal status for an active job. */
  lemma EveryReportPremiseIsNeeded(cfg: Config, now: int, need: Need)
    ensures exists acts :: Misleads(cfg, now, acts, need)
  {
    match need
    case MarksLand => LostMarkCase(cfg, now);
    case Timing(pr) =>
      match pr
      case NoFlush => FlushCase(cfg, now);
      case OnePassAtATime => OverlapCase(cfg, now);
      case HeartbeatsInTime => LateHeartbeatCase(cfg, now);
      case PushesInTime => LatePushCase(cfg, now);
  }
}
