/** The per-GPU worker loop: reconcile, then claim, process and periodically reconcile. */
module WorkerLoop {
  import opened Wrappers
  import opened Store
  import opened Validation
  import opened Clients
  import opened Protocol
  import opened LocalRuns
  import opened Processor
  import opened ProcessorCode
  import opened Reconciling
  import opened Recovery

  /** One turn as its environment shapes it: whether the claim raises, the claimed
      job's script, the time spent beside it, the time between the phases of a pass
      that is due, and whether that raises. */
  datatype LoopTurn = LoopTurn(claim: Option<Fault>, x: Script, idle: nat, gap: nat, pass: Option<PassFault>)

  /** The query results of a pass, in the order the database gave them. */
  datatype PassInput = PassInput(stale: seq<JobId>, gap: nat, orphans: seq<JobId>)

  function Passed(st: Store, pi: PassInput, f: Option<PassFault>): Store {
    PassUpTo(st, pi.stale, pi.gap, pi.orphans, f)
  }

  predicate PassReturns(st: Store, pi: PassInput, f: Option<PassFault>) {
    !PassRaises(st, pi.stale, pi.gap, pi.orphans, f)
  }

  ghost predicate FreshInput(st: Store, cfg: Config, pi: PassInput, f: Option<PassFault>) {
    InputsUpTo(st, cfg, pi.stale, pi.gap, pi.orphans, f)
  }

  /** Claim and process return. */
  predicate Handled(st: Store, models: seq<Model>, t: LoopTurn) {
    t.claim.None? && (st.queue == [] || TurnReturns(st, models, t.x))
  }

  /** A turn up to its pass. */
  function Worked(st: Store, models: seq<Model>, t: LoopTurn): Store {
    var w :=
      if st.queue == [] || !Takes(t.claim) then st
      else if t.claim.Some? then Claim(st)
      else Turn(st, models, t.x);
    if Handled(st, models, t) then Advance(w, t.idle) else w
  }

  predicate Due(st: Store, last: int, interval: int) {
    st.now - last >= interval
  }

  datatype LoopState = LoopState(st: Store, last: int)

  function LoopStep(c: LoopState, models: seq<Model>, interval: int, t: LoopTurn, pi: PassInput): LoopState {
    var m := Worked(c.st, models, t);
    if Handled(c.st, models, t) && Due(m, c.last, interval) then AfterPass(m, c.last, pi, t.pass)
    else LoopState(m, c.last)
  }

  function AfterPass(st: Store, last: int, pi: PassInput, f: Option<PassFault>): LoopState {
    var r := Passed(st, pi, f);
    LoopState(r, if PassReturns(st, pi, f) then r.now else last)
  }

  /** No exception ends the loop in this turn. */
  predicate Survives(c: LoopState, models: seq<Model>, interval: int, t: LoopTurn, pi: PassInput) {
    var m := Worked(c.st, models, t);
    Handled(c.st, models, t) && (Due(m, c.last, interval) ==> PassReturns(m, pi, t.pass))
  }

  // ------------------------------------------ due passes take place

  /** A turn that leaves the loop running has made a pass if one was due: the last
      one is never an interval ago. */
  lemma NeverOverdue(c: LoopState, models: seq<Model>, interval: int, t: LoopTurn, pi: PassInput)
    requires interval > 0 && Survives(c, models, interval, t, pi)
    ensures var r := LoopStep(c, models, interval, t, pi); r.st.now - r.last < interval
  {}

  /** A running job past the visibility timeout, or a queued one past the grace window
      that is not in flight. */
  predicate Overdue(st: Store, cfg: Config, id: JobId) {
    && id in st.rows
    && (|| (st.rows[id].status == Running && st.rows[id].updatedAt < st.now - cfg.visibility)
        || (st.rows[id].status == Queued && JobRef(id) !in st.processing
            && st.rows[id].createdAt < st.now - cfg.grace && st.rows[id].updatedAt < st.now - cfg.grace))
  }

  /** What that pass is for: once the interval has passed, whatever else is queued,
      every job that is overdue then ends the turn queued, with its id in jobs:queue. */
  lemma DuePassRecovers(c: LoopState, cfg: Config, models: seq<Model>, interval: int, t: LoopTurn, pi: PassInput, id: JobId)
    requires Survives(c, models, interval, t, pi) && ValidTurn(c, cfg, models, interval, t, pi)
    requires Worked(c.st, models, t).now - c.last >= interval
    ensures var m := Worked(c.st, models, t);
            var r := LoopStep(c, models, interval, t, pi).st;
            Overdue(m, cfg, id) ==> Has(r, id, Queued) && JobRef(id) in r.queue
  {
    var m := Worked(c.st, models, t);
    assert LoopStep(c, models, interval, t, pi).st == Passed(m, pi, t.pass);
    PassRecovers(m, cfg, pi, t.pass, id);
  }

  lemma PassRecovers(m: Store, cfg: Config, pi: PassInput, f: Option<PassFault>, id: JobId)
    requires FreshInput(m, cfg, pi, f) && PassReturns(m, pi, f)
    ensures var r := Passed(m, pi, f);
            Overdue(m, cfg, id) ==> Has(r, id, Queued) && JobRef(id) in r.queue
  {
    var lost := Lost(pi.orphans, InRedis(AfterReset(m, pi.stale, pi.gap)));
    PassRows(m, cfg, pi.stale, pi.gap, pi.orphans);
    PassPushesOnce(m, cfg, pi.stale, pi.gap, pi.orphans);
    InPushed(pi.stale + lost);
    StaleIsOverdue(m, cfg, pi.stale, pi.gap, pi.orphans, id);
    LostIsOld(m, cfg, pi.stale, pi.gap, pi.orphans, id);
  }

  /** The loop over a sequence of turns. */
  function Loop(c: LoopState, models: seq<Model>, interval: int, ts: seq<LoopTurn>, ps: seq<PassInput>): LoopState
    requires |ps| == |ts|
  {
    if ts == [] then c
    else
      var n := |ts| - 1;
      LoopStep(Loop(c, models, interval, ts[..n], ps[..n]), models, interval, ts[n], ps[n])
  }

  /** The last turn did not end the loop. */
  predicate Alive(c: LoopState, models: seq<Model>, interval: int, ts: seq<LoopTurn>, ps: seq<PassInput>)
    requires |ps| == |ts|
  {
    ts == [] ||
    (var n := |ts| - 1;
     Survives(Loop(c, models, interval, ts[..n], ps[..n]), models, interval, ts[n], ps[n]))
  }

  /** Only the last turn may have ended the loop, and every pass that was due got
      the query results of that moment. */
  ghost predicate ValidLoop(c: LoopState, cfg: Config, models: seq<Model>, interval: int,
                            ts: seq<LoopTurn>, ps: seq<PassInput>)
    requires |ps| == |ts|
  {
    ts == [] ||
    (var n := |ts| - 1;
     var b := Loop(c, models, interval, ts[..n], ps[..n]);
     && ValidLoop(c, cfg, models, interval, ts[..n], ps[..n])
     && Alive(c, models, interval, ts[..n], ps[..n])
     && ValidTurn(b, cfg, models, interval, ts[n], ps[n]))
  }

  ghost predicate ValidTurn(c: LoopState, cfg: Config, models: seq<Model>, interval: int, t: LoopTurn, pi: PassInput) {
    var m := Worked(c.st, models, t);
    Handled(c.st, models, t) && Due(m, c.last, interval) ==> FreshInput(m, cfg, pi, t.pass)
  }

  class Worker {
    const world: World
    const queue: RedisQueue
    const processor: JobProcessor
    const reconciler: Reconciler
    const interval: int

    constructor (world: World, cfg: Config, interval: int)
      ensures this.world == world && this.interval == interval && reconciler.cfg == cfg && Wired()
    {
      this.world := world;
      this.queue := new RedisQueue(world);
      this.processor := new JobProcessor(world);
      this.reconciler := new Reconciler(world, cfg);
      this.interval := interval;
    }

    ghost predicate Wired() {
      && queue.world == world
      && processor.world == world && processor.Wired()
      && reconciler.world == world && reconciler.Wired()
    }

    /** run, until the stop signal or an exception: `turns` is how far it would get,
        `done` how far it gets, `ok` whether no exception ended it. */
    method Run(firstGap: nat, firstFault: Option<PassFault>, turns: seq<LoopTurn>)
      returns (ok: bool, done: nat, ghost first: PassInput, ghost passes: seq<PassInput>)
      requires Wired()
      modifies world
      ensures FreshInput(old(world.St()), reconciler.cfg, first, firstFault)
      ensures done <= |turns| && |passes| == done && (ok ==> done == |turns|)
      ensures var start := AfterPass(old(world.St()), 0, first, firstFault);
              && (!PassReturns(old(world.St()), first, firstFault) ==> !ok && done == 0)
              && ValidLoop(start, reconciler.cfg, world.models, interval, turns[..done], passes)
              && (PassReturns(old(world.St()), first, firstFault) ==>
                    (ok <==> Alive(start, world.models, interval, turns[..done], passes)))
              && world.St() == Loop(start, world.models, interval, turns[..done], passes).st
    {
      var stats, stale, orphans := reconciler.Reconcile(firstGap, firstFault);
      first := PassInput(stale, firstGap, orphans);
      if stats.None? {
        ok, done, passes := false, 0, [];
        return;
      }
      ok, done, passes := TakeTurns(world.now, turns);
    }

    /** The while loop. */
    method TakeTurns(last: int, turns: seq<LoopTurn>) returns (ok: bool, done: nat, ghost passes: seq<PassInput>)
      requires Wired()
      modifies world
      ensures done <= |turns| && |passes| == done && (ok ==> done == |turns|)
      ensures var start := LoopState(old(world.St()), last);
              && ValidLoop(start, reconciler.cfg, world.models, interval, turns[..done], passes)
              && (ok <==> Alive(start, world.models, interval, turns[..done], passes))
              && world.St() == Loop(start, world.models, interval, turns[..done], passes).st
    {
      ghost var start := LoopState(world.St(), last);
      var lastReconcile := last;
      passes := [];
      for i := 0 to |turns|
        invariant |passes| == i
        invariant ValidLoop(start, reconciler.cfg, world.models, interval, turns[..i], passes)
        invariant Alive(start, world.models, interval, turns[..i], passes)
        invariant LoopState(world.St(), lastReconcile) == Loop(start, world.models, interval, turns[..i], passes)
      {
        ghost var pi;
        ok, lastReconcile, pi := TakeTurn(turns[i], lastReconcile);
        assert turns[..i + 1][..i] == turns[..i] && (passes + [pi])[..i] == passes;
        passes := passes + [pi];
        if !ok {
          done := i + 1;
          return;
        }
      }
      assert turns[..|turns|] == turns;
      ok, done := true, |turns|;
    }

    /** The body of the loop; an exception of its claim, of `process` or of a pass leaves it. */
    method TakeTurn(t: LoopTurn, last: int) returns (ok: bool, last': int, ghost pi: PassInput)
      requires Wired()
      modifies world
      ensures LoopState(world.St(), last') == LoopStep(LoopState(old(world.St()), last), world.models, interval, t, pi)
      ensures ok <==> Survives(LoopState(old(world.St()), last), world.models, interval, t, pi)
      ensures ValidTurn(LoopState(old(world.St()), last), reconciler.cfg, world.models, interval, t, pi)
      ensures ok && interval > 0 ==> world.now - last' < interval
      ensures t.claim.Some? ==> !ok
    {
      ok, last', pi := false, last, PassInput([], 0, []);
      if t.claim.Some? {
        if t.claim.value.landed { var _ := queue.Claim(); }
        return;
      }
      var e := queue.Claim();
      if e.Some? {
        var error := processor.Process(e.value, t.x);
        if error.Some? { return; }
      }
      world.Wait(t.idle);
      if world.now - last >= interval {
        var stats, stale, orphans := reconciler.Reconcile(t.gap, t.pass);
        pi := PassInput(stale, t.gap, orphans);
        if stats.None? { return; }
        last' := world.now;
      }
      ok := true;
    }
  }

  // -------------------------------------------- between two passes the loop drains

  function Scripts(ts: seq<LoopTurn>): seq<Script> {
    seq(|ts|, i requires 0 <= i < |ts| => ts[i].x)
  }

  function Advanced(st: Store, models: seq<Model>, x: Script): Store {
    if st.queue == [] then st else Turn(st, models, x)
  }

  /** No script of a drain ends it early. */
  predicate Outlives(st: Store, models: seq<Model>, xs: seq<Script>)
    decreases |xs|
  {
    xs == [] || st.queue == []
    || (TurnReturns(st, models, xs[0]) && Outlives(Turn(st, models, xs[0]), models, xs[1..]))
  }

  lemma {:induction false} DrainSnoc(st: Store, models: seq<Model>, xs: seq<Script>, x: Script)
    requires Outlives(st, models, xs)
    ensures Drain(st, models, xs + [x]) == Advanced(Drain(st, models, xs), models, x)
    decreases |xs|
  {
    if xs == [] {
      assert [] + [x] == [x] && [x][1..] == [];
    } else if st.queue != [] {
      assert (xs + [x])[1..] == xs[1..] + [x];
      DrainSnoc(Turn(st, models, xs[0]), models, xs[1..], x);
    }
  }

  lemma {:induction false} OutlivesPrefix(st: Store, models: seq<Model>, xs: seq<Script>, x: Script)
    requires Outlives(st, models, xs + [x])
    ensures Outlives(st, models, xs)
    decreases |xs|
  {
    if xs != [] && st.queue != [] {
      assert (xs + [x])[1..] == xs[1..] + [x];
      OutlivesPrefix(Turn(st, models, xs[0]), models, xs[1..], x);
    }
  }

  lemma AdvancedNow(st: Store, models: seq<Model>, x: Script)
    ensures st.now <= Advanced(st, models, x).now
  {
    if st.queue != [] { ProcessFrame(Claim(st), models, Next(st), x); }
  }

  lemma StepWithoutPass(b: LoopState, models: seq<Model>, interval: int, t: LoopTurn, pi: PassInput)
    requires t.claim.None? && t.idle == 0 && !Due(Advanced(b.st, models, t.x), b.last, interval)
    ensures LoopStep(b, models, interval, t, pi) == LoopState(Advanced(b.st, models, t.x), b.last)
  {
    var m := Advanced(b.st, models, t.x);
    assert Advance(m, 0) == m;
  }

  lemma OutlivesEarlier(st: Store, models: seq<Model>, ts: seq<LoopTurn>)
    requires ts != [] && Outlives(st, models, Scripts(ts))
    ensures Outlives(st, models, Scripts(ts[..|ts| - 1]))
  {
    var n := |ts| - 1;
    assert Scripts(ts) == Scripts(ts[..n]) + [ts[n].x];
    OutlivesPrefix(st, models, Scripts(ts[..n]), ts[n].x);
  }

  lemma DrainTurns(st: Store, models: seq<Model>, ts: seq<LoopTurn>)
    requires ts != [] && Outlives(st, models, Scripts(ts[..|ts| - 1]))
    ensures var d := Drain(st, models, Scripts(ts[..|ts| - 1]));
            Drain(st, models, Scripts(ts)) == Advanced(d, models, ts[|ts| - 1].x) && d.now <= Drain(st, models, Scripts(ts)).now
  {
    var n := |ts| - 1;
    assert Scripts(ts) == Scripts(ts[..n]) + [ts[n].x];
    DrainSnoc(st, models, Scripts(ts[..n]), ts[n].x);
    AdvancedNow(Drain(st, models, Scripts(ts[..n])), models, ts[n].x);
  }

  /** While no pass falls due the loop, with nothing to wait for, is the drain. */
  lemma {:induction false} LoopIsDrain(c: LoopState, models: seq<Model>, interval: int, ts: seq<LoopTurn>, ps: seq<PassInput>)
    requires |ps| == |ts| && forall t :: t in ts ==> t.claim.None? && t.idle == 0
    requires ts != [] ==> Outlives(c.st, models, Scripts(ts[..|ts| - 1]))
    requires !Due(Drain(c.st, models, Scripts(ts)), c.last, interval)
    ensures Loop(c, models, interval, ts, ps) == LoopState(Drain(c.st, models, Scripts(ts)), c.last)
  {
    if ts != [] {
      var n := |ts| - 1;
      DrainTurns(c.st, models, ts);
      if n > 0 { OutlivesEarlier(c.st, models, ts[..n]); }
      LoopIsDrain(c, models, interval, ts[..n], ps[..n]);
      assert ts[n] in ts;
      StepWithoutPass(LoopState(Drain(c.st, models, Scripts(ts[..n])), c.last), models, interval, ts[n], ps[n]);
    }
  }

  // -------------------------------------------- the whole loop as a run

  function TurnTrace(st: Store, models: seq<Model>, t: LoopTurn): seq<LocalAct> {
    (if st.queue == [] || !Takes(t.claim) then []
     else if t.claim.Some? then [Do(TakeJob)]
     else [Do(TakeJob)] + ProcessTrace(Claim(st), models, Next(st), t.x))
    + if Handled(st, models, t) then [Wait(t.idle)] else []
  }

  function InputTrace(st: Store, pi: PassInput, f: Option<PassFault>): seq<LocalAct> {
    PassUpToTrace(st, pi.stale, pi.gap, pi.orphans, f)
  }

  function StepTrace(c: LoopState, models: seq<Model>, interval: int, t: LoopTurn, pi: PassInput): seq<LocalAct> {
    var m := Worked(c.st, models, t);
    TurnTrace(c.st, models, t)
    + if Handled(c.st, models, t) && Due(m, c.last, interval) then InputTrace(m, pi, t.pass) else []
  }

  function LoopTrace(c: LoopState, models: seq<Model>, interval: int, ts: seq<LoopTurn>, ps: seq<PassInput>): seq<LocalAct>
    requires |ps| == |ts|
  {
    if ts == [] then []
    else
      var n := |ts| - 1;
      LoopTrace(c, models, interval, ts[..n], ps[..n])
      + StepTrace(Loop(c, models, interval, ts[..n], ps[..n]), models, interval, ts[n], ps[n])
  }

  lemma ClaimTraceSteps(cfg: Config, st: Store, models: seq<Model>, x: Script)
    requires st.queue != []
    ensures var t := [Do(TakeJob)] + ProcessTrace(Claim(st), models, Next(st), x);
            var c := Steps(cfg, Place(st, Idle), t);
            c.st == Turn(st, models, x) && (TurnReturns(st, models, x) ==> c.pc == Idle)
  {
    var body := ProcessTrace(Claim(st), models, Next(st), x);
    StepsConcat(cfg, Place(st, Idle), [Do(TakeJob)], body);
    Steps1(cfg, Place(st, Idle), Do(TakeJob));
    ProcessTraceSteps(cfg, Claim(st), models, Next(st), x);
  }

  lemma TurnTraceSteps(cfg: Config, st: Store, models: seq<Model>, t: LoopTurn)
    ensures var c := Steps(cfg, Place(st, Idle), TurnTrace(st, models, t));
            c.st == Worked(st, models, t) && (Handled(st, models, t) ==> c.pc == Idle)
  {
    var c := Place(st, Idle);
    if st.queue == [] || !Takes(t.claim) {
      assert [] + [Wait(t.idle)] == [Wait(t.idle)];
      Steps1(cfg, c, Wait(t.idle));
    } else if t.claim.Some? {
      assert [Do(TakeJob)] + [] == [Do(TakeJob)];
      Steps1(cfg, c, Do(TakeJob));
    } else {
      var body := [Do(TakeJob)] + ProcessTrace(Claim(st), models, Next(st), t.x);
      ClaimTraceSteps(cfg, st, models, t.x);
      if Handled(st, models, t) {
        StepsConcat(cfg, c, body, [Wait(t.idle)]);
        Steps1(cfg, Place(Turn(st, models, t.x), Idle), Wait(t.idle));
      } else {
        assert body + [] == body;
      }
    }
  }

  lemma StepTraceSteps(cfg: Config, c: LoopState, models: seq<Model>, interval: int, t: LoopTurn, pi: PassInput)
    requires ValidTurn(c, cfg, models, interval, t, pi)
    ensures var e := Steps(cfg, Place(c.st, Idle), StepTrace(c, models, interval, t, pi));
            && e.st == LoopStep(c, models, interval, t, pi).st
            && (Survives(c, models, interval, t, pi) ==> e.pc == Idle)
  {
    var m := Worked(c.st, models, t);
    TurnTraceSteps(cfg, c.st, models, t);
    if Handled(c.st, models, t) && Due(m, c.last, interval) {
      StepsConcat(cfg, Place(c.st, Idle), TurnTrace(c.st, models, t), InputTrace(m, pi, t.pass));
      PassUpToSteps(cfg, m, pi.stale, pi.gap, pi.orphans, t.pass);
    } else {
      assert TurnTrace(c.st, models, t) + [] == TurnTrace(c.st, models, t);
    }
  }

  lemma {:induction false} LoopTraceSteps(cfg: Config, c: LoopState, models: seq<Model>, interval: int,
                                          ts: seq<LoopTurn>, ps: seq<PassInput>)
    requires |ps| == |ts| && ValidLoop(c, cfg, models, interval, ts, ps)
    ensures var e := Steps(cfg, Place(c.st, Idle), LoopTrace(c, models, interval, ts, ps));
            && e.st == Loop(c, models, interval, ts, ps).st
            && (Alive(c, models, interval, ts, ps) ==> e.pc == Idle)
  {
    if ts != [] {
      var n := |ts| - 1;
      var b := Loop(c, models, interval, ts[..n], ps[..n]);
      LoopTraceSteps(cfg, c, models, interval, ts[..n], ps[..n]);
      StepsConcat(cfg, Place(c.st, Idle), LoopTrace(c, models, interval, ts[..n], ps[..n]),
                  StepTrace(b, models, interval, ts[n], ps[n]));
      StepTraceSteps(cfg, b, models, interval, ts[n], ps[n]);
    }
  }

  /** The run of a worker: its first pass, and if that returns its turns. */
  function LifeTrace(st: Store, models: seq<Model>, interval: int, first: PassInput, f: Option<PassFault>,
                     ts: seq<LoopTurn>, ps: seq<PassInput>): seq<LocalAct>
    requires |ps| == |ts|
  {
    InputTrace(st, first, f)
    + if PassReturns(st, first, f) then LoopTrace(AfterPass(st, 0, first, f), models, interval, ts, ps) else []
  }

  /** A worker's whole life, from its first reconcile pass through any number of
      turns, up to the exception of a claim, a job or a pass that ends it if there
      is one, is a run of the protocol: every theorem about runs is about it. */
  lemma LoopIsARun(s: State, p: Proc, models: seq<Model>, interval: int, first: PassInput, f: Option<PassFault>,
                   ts: seq<LoopTurn>, ps: seq<PassInput>)
    requires p in s.pcs && s.pcs[p] == Idle && |ps| == |ts|
    requires FreshInput(s.st, s.cfg, first, f) && (!PassReturns(s.st, first, f) ==> ts == [])
    requires ValidLoop(AfterPass(s.st, 0, first, f), s.cfg, models, interval, ts, ps)
    ensures var start := AfterPass(s.st, 0, first, f);
            var alive := PassReturns(s.st, first, f) && Alive(start, models, interval, ts, ps);
            Exec(s, Lift(p, LifeTrace(s.st, models, interval, first, f, ts, ps)) + Exit(p, alive))
            == After(s, p, Loop(start, models, interval, ts, ps).st, alive)
  {
    var start := AfterPass(s.st, 0, first, f);
    var t := LifeTrace(s.st, models, interval, first, f, ts, ps);
    var alive := PassReturns(s.st, first, f) && Alive(start, models, interval, ts, ps);
    LiftRuns(s, p, t);
    PassUpToSteps(s.cfg, s.st, first.stale, first.gap, first.orphans, f);
    if PassReturns(s.st, first, f) {
      StepsConcat(s.cfg, Place(s.st, Idle), InputTrace(s.st, first, f), LoopTrace(start, models, interval, ts, ps));
      LoopTraceSteps(s.cfg, start, models, interval, ts, ps);
    } else {
      assert InputTrace(s.st, first, f) + [] == InputTrace(s.st, first, f);
    }
    ExecConcat(s, Lift(p, t), Exit(p, alive));
    ExitRuns(s, p, Steps(s.cfg, Place(s.st, Idle), t), alive);
  }
}
