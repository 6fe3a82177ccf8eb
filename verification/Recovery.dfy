/** Draining the queue, recovering after a crash, and convergence over rounds
    of crash and recovery: a single worker, restarted after every crash. */
module Recovery {
  import opened Wrappers
  import opened Store
  import opened Validation
  import opened Protocol
  import opened Frames
  import opened LocalRuns
  import opened Processor
  import opened Reconciling

  // -------------------------------------------------------- drain

  /** Claim and process: one turn of the worker loop that finds a job. */
  function Turn(st: Store, models: seq<Model>, x: Script): Store
    requires st.queue != []
  {
    Process(Claim(st), models, Next(st), x)
  }

  predicate TurnReturns(st: Store, models: seq<Model>, x: Script)
    requires st.queue != []
  {
    Returns(Claim(st), models, Next(st), x)
  }

  predicate TurnAcked(st: Store, models: seq<Model>, x: Script)
    requires st.queue != []
  {
    Acked(Claim(st), models, Next(st), x)
  }

  /** Turns until the scripts or the queue run out, or an exception ends the loop. */
  function Drain(st: Store, models: seq<Model>, xs: seq<Script>): Store
    decreases |xs|
  {
    if xs == [] || st.queue == [] then st
    else if !TurnReturns(st, models, xs[0]) then Turn(st, models, xs[0])
    else Drain(Turn(st, models, xs[0]), models, xs[1..])
  }

  predicate FaultFree(xs: seq<Script>) {
    forall x :: x in xs ==> NoFault(x)
  }

  lemma FaultFreeTurn(st: Store, models: seq<Model>, x: Script)
    requires st.queue != [] && NoFault(x)
    ensures TurnReturns(st, models, x) && TurnAcked(st, models, x)
  {}

  /** Whatever raises, a turn takes its entry off jobs:queue, leaves every other row
      and every terminal row as it was, and either clears the entry from
      jobs:processing or leaves it there in flight. */
  lemma TurnFacts(st: Store, models: seq<Model>, x: Script)
    requires st.queue != []
    ensures var r := Turn(st, models, x);
            var e := Next(st);
            && r.queue == st.queue[..|st.queue| - 1]
            && r.processing == (if TurnAcked(st, models, x) then Without(st.processing, {e}) else [e] + st.processing)
            && (TurnReturns(st, models, x) ==> TurnAcked(st, models, x))
            && r.rows.Keys == st.rows.Keys
            && (forall id :: id in st.rows && e != JobRef(id) ==> r.rows[id] == st.rows[id])
            && (forall id :: id in st.rows && Terminal(st.rows[id].status) ==> r.rows[id] == st.rows[id])
  {
    var e := Next(st);
    ProcessFrame(Claim(st), models, e, x);
    ClaimedThenRemoved(st.processing, e);
  }

  lemma ClaimedThenRemoved(s: seq<Entry>, e: Entry)
    ensures RemoveAll([e] + s, e) == Without(s, {e})
  {
    RemoveIsWithout([e] + s, e);
    WithoutCons(e, s, {e});
  }

  lemma TurnFinishes(st: Store, models: seq<Model>, x: Script)
    requires st.queue != [] && NoFault(x)
    requires Next(st).JobRef? && Next(st).id in st.rows
    ensures Next(st).id in Turn(st, models, x).rows
    ensures Terminal(Turn(st, models, x).rows[Next(st).id].status)
  {
    var e := Next(st);
    ProcessFrame(Claim(st), models, e, x);
    if Runnable(Claim(st), e) { ProcessOutcome(Claim(st), models, e.id, x); }
  }

  /** Draining without faults or interference: the queue empties, every job that
      was queued ends terminal, every other row is as it was, and jobs:processing
      loses exactly the claimed entries. */
  lemma {:induction false} DrainFacts(st: Store, models: seq<Model>, xs: seq<Script>)
    requires |xs| == |st.queue| && FaultFree(xs)
    ensures var r := Drain(st, models, xs);
            && r.queue == []
            && r.processing == Without(st.processing, Members(st.queue))
            && r.rows.Keys == st.rows.Keys
            && (forall id :: id in st.rows && JobRef(id) in st.queue ==> Terminal(r.rows[id].status))
            && (forall id :: id in st.rows && (JobRef(id) !in st.queue || Terminal(st.rows[id].status))
                  ==> r.rows[id] == st.rows[id])
    decreases |xs|
  {
    if xs == [] {
      WithoutNothing(st.processing);
      assert Members(st.queue) == {};
    } else {
      var e := Next(st);
      var t := Turn(st, models, xs[0]);
      TurnFacts(st, models, xs[0]);
      FaultFreeTurn(st, models, xs[0]);
      if e.JobRef? && e.id in st.rows { TurnFinishes(st, models, xs[0]); }
      DrainFacts(t, models, xs[1..]);
      ClaimFacts(st);
      WithoutTwice(st.processing, {e}, Members(t.queue));
      assert {e} + Members(t.queue) == Members(st.queue);
    }
  }

  // -------------------------------------------------------- recovery

  /** A queued row with an in-flight entry and no queue entry: what no reconcile pass pushes. */
  predicate Stuck(st: Store, id: JobId) {
    Has(st, id, Queued) && JobRef(id) in st.processing && JobRef(id) !in st.queue
  }

  /** Every timeout has passed for every row. */
  ghost predicate AllElapsed(st: Store, cfg: Config) {
    forall id :: id in st.rows ==>
      && st.rows[id].updatedAt < st.now - cfg.visibility
      && st.rows[id].updatedAt < st.now - cfg.grace
      && st.rows[id].createdAt < st.now - cfg.grace
  }

  /** After a pass with all timeouts elapsed, a job that is not terminal is back
      in the queue exactly when it was not stuck. */
  lemma PassRequeues(st: Store, cfg: Config, stale: seq<JobId>, gap: nat, orphans: seq<JobId>, id: JobId)
    requires Inputs(st, cfg, stale, gap, orphans) && AllElapsed(st, cfg)
    requires id in st.rows && !Terminal(st.rows[id].status)
    ensures var r := Pass(st, stale, gap, orphans);
            && Has(r, id, Queued)
            && (JobRef(id) in r.queue <==> !Stuck(st, id))
            && (Stuck(st, id) ==> Stuck(r, id))
  {
    PassRows(st, cfg, stale, gap, orphans);
    PassPushesOnce(st, cfg, stale, gap, orphans);
    InPushed(stale + Lost(orphans, InRedis(AfterReset(st, stale, gap))));
    if st.rows[id].status == Running {
      assert id in StaleRunning(st, cfg.visibility);
    } else {
      QueuedIsLost(st, cfg, stale, gap, orphans, id);
      InRefs(stale);
      InWithout(st.processing, Refs(stale));
    }
  }

  lemma QueuedIsLost(st: Store, cfg: Config, stale: seq<JobId>, gap: nat, orphans: seq<JobId>, id: JobId)
    requires Inputs(st, cfg, stale, gap, orphans) && AllElapsed(st, cfg)
    requires Has(st, id, Queued)
    ensures id !in stale
    ensures id in Lost(orphans, InRedis(AfterReset(st, stale, gap)))
            <==> JobRef(id) !in st.queue && JobRef(id) !in st.processing
  {
    var m := AfterReset(st, stale, gap);
    ResetAllRows(st, stale);
    ResetAllLists(st, stale);
    InLost(orphans, InRedis(m));
    InPushed(stale);
    InRefs(stale);
    InWithout(st.processing, Refs(stale));
    assert id !in StaleRunning(st, cfg.visibility);
    assert id in OrphanQueued(m, cfg.grace);
    assert JobRef(id) in InRedis(m) <==> JobRef(id) in st.queue || JobRef(id) in st.processing;
  }

  /** No live worker, every timeout elapsed: one reconcile pass and a fault-free
      drain make every job terminal except exactly the stuck ones. */
  lemma ExactRecovery(st: Store, cfg: Config, models: seq<Model>,
                      stale: seq<JobId>, gap: nat, orphans: seq<JobId>, xs: seq<Script>, id: JobId)
    requires Inputs(st, cfg, stale, gap, orphans) && AllElapsed(st, cfg)
    requires |xs| == |Pass(st, stale, gap, orphans).queue| && FaultFree(xs)
    requires id in st.rows
    ensures var r := Drain(Pass(st, stale, gap, orphans), models, xs);
            && id in r.rows
            && (Terminal(r.rows[id].status) <==> !Stuck(st, id))
            && (Stuck(st, id) ==> Stuck(r, id))
  {
    var m := Pass(st, stale, gap, orphans);
    PassRows(st, cfg, stale, gap, orphans);
    DrainFacts(m, models, xs);
    InWithout(m.processing, Members(m.queue));
    if !Terminal(st.rows[id].status) {
      PassRequeues(st, cfg, stale, gap, orphans, id);
    } else {
      assert id !in StaleRunning(st, cfg.visibility) && id !in stale;
    }
  }

  // -------------------------------------------------------- convergence

  /** How a round ends: the queue is empty, or a crash came in the pass of the
      restart, between two turns, or in a turn after mark_running had taken effect. */
  datatype Stop = Drained | InPass(f: PassFault) | BetweenTurns | InTurn(steps: seq<LocalAct>)

  /** The pass is not cut between a reset and the requeue of the same job. */
  predicate Clean(f: PassFault) {
    f.InReset? ==> f.n % 3 == 0
  }

  /** Steps of a worker that does not claim again, and time passing. */
  predicate WorksOn(vs: seq<LocalAct>) {
    forall v :: v in vs ==> v.Wait? || (v.Do? && !v.w.TakeJob?)
  }

  /** A claim whose worker marks the job running and dies after any steps; an entry
      that is not run may stay unacked. */
  function Dies(st: Store, cfg: Config, vs: seq<LocalAct>): Store
    requires st.queue != []
  {
    var e := Next(st);
    var s := Claim(st);
    if Runnable(s, e) then Steps(cfg, Place(MarkRunning(s, e.id), Started(e.id)), vs).st else s
  }

  /** One round: wait past the timeouts, restart (a reconcile pass), work through
      the queue, and perhaps crash on the way. */
  datatype Round = Round(
    wait: nat, stale: seq<JobId>, gap: nat, orphans: seq<JobId>,
    xs: seq<Script>, stop: Stop)

  function CutOf(r: Round): Option<PassFault> {
    if r.stop.InPass? then Some(r.stop.f) else None
  }

  function Restarted(st: Store, r: Round): Store {
    PassUpTo(Advance(st, r.wait), r.stale, r.gap, r.orphans, CutOf(r))
  }

  function RunRound(st: Store, cfg: Config, models: seq<Model>, r: Round): Store {
    var m := Restarted(st, r);
    if r.stop.InPass? then m
    else
      var d := Drain(m, models, r.xs);
      if r.stop.InTurn? && d.queue != [] then Dies(d, cfg, r.stop.steps) else d
  }

  ghost predicate ValidRound(st: Store, cfg: Config, r: Round) {
    && AllElapsed(Advance(st, r.wait), cfg)
    && InputsUpTo(Advance(st, r.wait), cfg, r.stale, r.gap, r.orphans, CutOf(r))
    && FaultFree(r.xs)
    && match r.stop
       case Drained => |r.xs| == |Restarted(st, r).queue|
       case InPass(f) => Clean(f)
       case BetweenTurns => true
       case InTurn(vs) => WorksOn(vs)
  }

  function RunRounds(st: Store, cfg: Config, models: seq<Model>, rs: seq<Round>): Store
    decreases |rs|
  {
    if rs == [] then st else RunRounds(RunRound(st, cfg, models, rs[0]), cfg, models, rs[1..])
  }

  ghost predicate ValidRounds(st: Store, cfg: Config, models: seq<Model>, rs: seq<Round>)
    decreases |rs|
  {
    rs == [] || (ValidRound(st, cfg, rs[0]) && ValidRounds(RunRound(st, cfg, models, rs[0]), cfg, models, rs[1..]))
  }

  function CrashCount(rs: seq<Round>): nat {
    if rs == [] then 0 else (if rs[0].stop.Drained? then 0 else 1) + CrashCount(rs[1..])
  }

  /** Whether a job is stuck, and whether it is terminal, across any part of a round. */
  ghost predicate Keeps(st: Store, r: Store, id: JobId) {
    && id in st.rows && id in r.rows
    && (Stuck(st, id) <==> Stuck(r, id))
    && (Terminal(st.rows[id].status) ==> Terminal(r.rows[id].status))
  }

  lemma {:induction false} DrainKeeps(st: Store, models: seq<Model>, xs: seq<Script>, id: JobId)
    requires FaultFree(xs) && id in st.rows
    ensures Keeps(st, Drain(st, models, xs), id)
    decreases |xs|
  {
    if xs != [] && st.queue != [] {
      var t := Turn(st, models, xs[0]);
      TurnFacts(st, models, xs[0]);
      FaultFreeTurn(st, models, xs[0]);
      ClaimFacts(st);
      InWithout(st.processing, {Next(st)});
      if Next(st) == JobRef(id) { TurnFinishes(st, models, xs[0]); }
      assert Keeps(st, t, id);
      DrainKeeps(t, models, xs[1..], id);
    }
  }

  /** Wherever a worker that has marked its job is, only that job's row and entry
      have moved, and the row is not queued. */
  ghost predicate PastMark(s: Store, id: JobId, c: Place) {
    && c.st.queue == s.queue && id in s.rows && c.st.rows.Keys == s.rows.Keys
    && (forall i :: i in s.rows && i != id ==> c.st.rows[i] == s.rows[i])
    && c.st.rows[id].status != Queued
    && (forall x :: x != JobRef(id) ==> (x in c.st.processing <==> x in s.processing))
    && (c.pc == Idle || (Holds(c.pc, id) && !c.pc.Claimed? && !c.pc.Fetched?))
  }

  lemma PastMarkRun(s: Store, id: JobId, c: Place, w: WorkerEvent)
    requires PastMark(s, id, c) && c.pc != Idle && !c.pc.Acking?
    ensures var (st, pc) := RunLocal(c.st, c.pc, w);
            && st.queue == c.st.queue && st.processing == c.st.processing && st.rows.Keys == c.st.rows.Keys
            && (forall i :: i in s.rows && i != id ==> st.rows[i] == c.st.rows[i])
            && id in st.rows && st.rows[id].status != Queued
            && Holds(pc, id) && !pc.Claimed? && !pc.Fetched?
  {}

  lemma PastMarkStep(cfg: Config, s: Store, id: JobId, c: Place, v: LocalAct)
    requires PastMark(s, id, c) && (v.Wait? || (v.Do? && !v.w.TakeJob?))
    ensures PastMark(s, id, Step(cfg, c, v))
  {
    if v.Do? {
      if c.pc == Idle {
        assert Step(cfg, c, v) == c;
      } else if c.pc.Acking? {
        assert Step(cfg, c, v) == if v.w.AckJob? then Place(Ack(c.st, c.pc.entry), Idle) else c;
      } else {
        PastMarkRun(s, id, c, v.w);
      }
    }
  }

  lemma {:induction false} PastMarkSteps(cfg: Config, s: Store, id: JobId, c: Place, vs: seq<LocalAct>)
    requires PastMark(s, id, c) && WorksOn(vs)
    ensures PastMark(s, id, Steps(cfg, c, vs))
    decreases |vs|
  {
    if vs != [] {
      assert vs[0] in vs;
      PastMarkStep(cfg, s, id, c, vs[0]);
      PastMarkSteps(cfg, s, id, Step(cfg, c, vs[0]), vs[1..]);
    }
  }

  /** A worker that dies after mark_running, wherever, leaves nothing stuck. */
  lemma DiesKeeps(st: Store, cfg: Config, vs: seq<LocalAct>, id: JobId)
    requires st.queue != [] && WorksOn(vs) && id in st.rows
    ensures Keeps(st, Dies(st, cfg, vs), id)
  {
    var e := Next(st);
    var s := Claim(st);
    ClaimFacts(st);
    if Runnable(s, e) {
      PastMarkSteps(cfg, s, e.id, Place(MarkRunning(s, e.id), Started(e.id)), vs);
    }
  }

  lemma {:induction false} ResetSomeIsPrefix(st: Store, ids: seq<JobId>, k: nat)
    requires k <= |ids|
    ensures ResetSome(st, ids, 3 * k) == ResetAll(st, ids[..k])
    decreases k
  {
    if k > 0 {
      ResetSomeIsPrefix(ResetJob(st, ids[0]), ids[1..], k - 1);
      assert ids[..k][1..] == ids[1..][..k - 1];
    }
  }

  lemma {:induction false} RecoverSomeIsPrefix(st: Store, ids: seq<JobId>, live: set<Entry>, n: nat) returns (k: nat)
    ensures k <= |ids| && RecoverSome(st, ids, live, n) == RecoverAll(st, ids[..k], live)
    decreases |ids|
  {
    if ids == [] || n == 0 {
      k := 0;
    } else {
      var j := RecoverSomeIsPrefix(RecoverJob(st, ids[0], live), ids[1..], live, if JobRef(ids[0]) in live then n else n - 1);
      k := j + 1;
      assert ids[..k][1..] == ids[1..][..j];
    }
  }

  lemma ResetsKeep(st: Store, ids: seq<JobId>, id: JobId)
    requires id in st.rows && forall i :: i in ids ==> Has(st, i, Running)
    ensures Keeps(st, ResetAll(st, ids), id)
  {
    ResetAllRows(st, ids);
    ResetAllLists(st, ids);
    InPushed(ids);
    InRefs(ids);
    InWithout(st.processing, Refs(ids));
  }

  lemma RecoversKeep(st: Store, ids: seq<JobId>, id: JobId)
    requires id in st.rows
    ensures Keeps(st, RecoverAll(st, ids, InRedis(st)), id)
  {
    var lost := Lost(ids, InRedis(st));
    RecoverAllFacts(st, ids, InRedis(st));
    InLost(ids, InRedis(st));
    InPushed(lost);
    InRefs(lost);
    InWithout(st.processing, Refs(lost));
  }

  /** A pass cut anywhere but between a reset and its requeue leaves nothing stuck. */
  lemma CutPassKeeps(st: Store, cfg: Config, stale: seq<JobId>, gap: nat, orphans: seq<JobId>, f: PassFault, id: JobId)
    requires InputsUpTo(st, cfg, stale, gap, orphans, Some(f)) && AllElapsed(st, cfg) && Clean(f) && id in st.rows
    ensures Keeps(st, PassUpTo(st, stale, gap, orphans, Some(f)), id)
  {
    var m := AfterReset(st, stale, gap);
    if CutInReset(stale, Some(f)) {
      ResetSomeIsPrefix(st, stale, f.n / 3);
      assert forall i :: i in stale[..f.n / 3] ==> i in stale;
      ResetsKeep(st, stale[..f.n / 3], id);
    } else if CutInRecover(st, stale, gap, orphans, Some(f)) {
      ResetsKeep(st, stale, id);
      var k := RecoverSomeIsPrefix(m, orphans, InRedis(m), f.n);
      RecoversKeep(m, orphans[..k], id);
    } else {
      PassKeeps(st, cfg, stale, gap, orphans, id);
    }
  }

  lemma PassKeeps(st: Store, cfg: Config, stale: seq<JobId>, gap: nat, orphans: seq<JobId>, id: JobId)
    requires Inputs(st, cfg, stale, gap, orphans) && AllElapsed(st, cfg) && id in st.rows
    ensures Keeps(st, Pass(st, stale, gap, orphans), id)
  {
    PassRows(st, cfg, stale, gap, orphans);
    if Terminal(st.rows[id].status) {
      assert id !in StaleRunning(st, cfg.visibility) && id !in stale;
    } else {
      PassRequeues(st, cfg, stale, gap, orphans, id);
    }
  }

  lemma RoundKeeps(st: Store, cfg: Config, models: seq<Model>, r: Round, id: JobId)
    requires ValidRound(st, cfg, r) && id in st.rows
    ensures Keeps(st, RunRound(st, cfg, models, r), id)
  {
    var a := Advance(st, r.wait);
    var m := Restarted(st, r);
    if r.stop.InPass? {
      CutPassKeeps(a, cfg, r.stale, r.gap, r.orphans, r.stop.f, id);
    } else {
      var d := Drain(m, models, r.xs);
      PassKeeps(a, cfg, r.stale, r.gap, r.orphans, id);
      DrainKeeps(m, models, r.xs, id);
      if r.stop.InTurn? && d.queue != [] { DiesKeeps(d, cfg, r.stop.steps, id); }
    }
  }

  /** With finitely many crashes, none of them between a claim and mark_running or
      between a reset and its requeue, recovery converges: over any sequence of
      more rounds than crashes, the jobs that end terminal are exactly those that
      were not stuck at the start. */
  lemma {:induction false} Convergence(st: Store, cfg: Config, models: seq<Model>, rs: seq<Round>, id: JobId)
    requires ValidRounds(st, cfg, models, rs) && CrashCount(rs) < |rs|
    requires id in st.rows
    ensures var e := RunRounds(st, cfg, models, rs);
            id in e.rows && (Terminal(e.rows[id].status) <==> !Stuck(st, id))
    decreases |rs|
  {
    var n := RunRound(st, cfg, models, rs[0]);
    RoundKeeps(st, cfg, models, rs[0], id);
    if rs[0].stop.Drained? {
      var a := Advance(st, rs[0].wait);
      ExactRecovery(a, cfg, models, rs[0].stale, rs[0].gap, rs[0].orphans, rs[0].xs, id);
      RoundsKeep(n, cfg, models, rs[1..], id);
    } else {
      Convergence(n, cfg, models, rs[1..], id);
    }
  }

  lemma {:induction false} RoundsKeep(st: Store, cfg: Config, models: seq<Model>, rs: seq<Round>, id: JobId)
    requires ValidRounds(st, cfg, models, rs) && id in st.rows
    ensures Keeps(st, RunRounds(st, cfg, models, rs), id)
    decreases |rs|
  {
    if rs != [] {
      RoundKeeps(st, cfg, models, rs[0], id);
      RoundsKeep(RunRound(st, cfg, models, rs[0]), cfg, models, rs[1..], id);
    }
  }
}
