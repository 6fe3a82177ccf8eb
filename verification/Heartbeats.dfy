/** Workers that beat in time make a timely run: the premise that no live holder of
    a running job is late, drawn from when its worker last stamped it. */
module Heartbeats {
  import opened Store
  import opened Protocol
  import opened Frames
  import opened RowSafety
  import opened Stranding
  import opened Exclusion

  /** When each worker last marked or beat the job it holds. */
  type Beats = map<Proc, int>

  /** The worker's step stamps its job: mark_running, or a heartbeat. */
  predicate StampsJob(s: State, p: Proc, w: WorkerEvent) {
    p in s.pcs && (((w.MarkOk? || w.MarkRaises?) && s.pcs[p].Fetched?) || (w.Beat? && s.pcs[p].Executing?))
  }

  function LastBeats(s: State, a: Action, bs: Beats): Beats {
    if a.Work? && StampsJob(s, a.p, a.w) then bs[a.p := s.st.now] else bs
  }

  /** Past mark_running and not yet at the ack. */
  predicate InHand(pc: Pc) {
    InRun(pc) && !pc.Fetched?
  }

  /** When a pass selects stale jobs, every worker with a job in hand has stamped it
      within the visibility timeout. */
  ghost predicate BeatsInTime(s: State, a: Action, bs: Beats) {
    a.Sweep? && a.r.FindStale? ==>
      forall q :: q in s.pcs && InHand(s.pcs[q]) ==> q in bs && s.st.now - bs[q] <= s.cfg.visibility
  }

  ghost predicate Punctual(s: State, acts: seq<Action>, bs: Beats)
    decreases |acts|
  {
    acts == [] ||
    (&& Meets(s, acts[0], NoFlush) && Meets(s, acts[0], OnePassAtATime) && Meets(s, acts[0], PushesInTime)
     && BeatsInTime(s, acts[0], bs)
     && Punctual(Apply(s, acts[0]), acts[1..], LastBeats(s, acts[0], bs)))
  }

  /** The row is stamped no earlier than its worker's last beat, and not running
      before the worker has marked it. */
  ghost predicate PcBeaten(st: Store, pc: Pc, p: Proc, bs: Beats) {
    && (pc.Claimed? && pc.entry.JobRef? ==> !Has(st, pc.entry.id, Running))
    && (pc.Fetched? ==> !Has(st, pc.id, Running))
    && (InHand(pc) ==> p in bs && bs[p] <= st.now && (Has(st, pc.id, Running) ==> st.rows[pc.id].updatedAt >= bs[p]))
  }

  ghost predicate Beaten(s: State, bs: Beats) {
    forall q :: q in s.pcs ==> PcBeaten(s.st, s.pcs[q], q, bs)
  }

  lemma BeatenIsInTime(s: State, a: Action, bs: Beats)
    requires Inv(s) && Beaten(s, bs) && BeatsInTime(s, a, bs)
    ensures Meets(s, a, HeartbeatsInTime)
  {
    if a.Sweep? && a.r.FindStale? {
      forall q, id | q in s.pcs && Holds(s.pcs[q], id) && Has(s.st, id, Running)
        ensures s.st.rows[id].updatedAt >= s.st.now - s.cfg.visibility
      {
        assert Good(s, id) && PcGood(s, q, id) && PcBeaten(s.st, s.pcs[q], q, bs);
      }
    }
  }

  /** Inside _run and _fail; a job about to be announced is not running. */
  lemma RunStaysBeaten(s: State, p: Proc, w: WorkerEvent, bs: Beats)
    requires p in s.pcs && PcBeaten(s.st, s.pcs[p], p, bs)
    requires !w.TakeJob? && !w.ReadJob? && !w.AckJob?
    requires s.pcs[p].Publishing? ==> !Has(s.st, s.pcs[p].id, Running)
    ensures var (st, pc) := RunLocal(s.st, s.pcs[p], w);
            PcBeaten(st, pc, p, LastBeats(s, Work(p, w), bs))
  {}

  /** The worker that acts. */
  lemma ActorStaysBeaten(s: State, p: Proc, w: WorkerEvent, bs: Beats)
    requires Inv(s) && p in s.pcs && PcBeaten(s.st, s.pcs[p], p, bs)
    ensures var (st, pc) := WorkerLocal(s.st, s.pcs[p], w);
            PcBeaten(st, pc, p, LastBeats(s, Work(p, w), bs))
  {
    var pc := s.pcs[p];
    if w.TakeJob? {
      if pc.Idle? && s.st.queue != [] { TakenIsNotRunning(s); }
    } else if !w.ReadJob? && !w.AckJob? {
      if pc.Publishing? { assert Good(s, pc.id) && PcGood(s, p, pc.id); }
      RunStaysBeaten(s, p, w, bs);
    }
  }

  lemma TakenIsNotRunning(s: State)
    requires Inv(s) && s.st.queue != []
    ensures Next(s.st).JobRef? ==> !Has(s.st, Next(s.st).id, Running)
  {
    ClaimFacts(s.st);
    if Next(s.st).JobRef? { assert Good(s, Next(s.st).id); }
  }

  /** A row that is running after a step was so before, stamped no later than now, or
      is one that the acting worker holds. */
  lemma RunningBefore(s: State, a: Action, id: JobId)
    requires id in s.st.rows && Has(Apply(s, a).st, id, Running)
    requires a.Work? && a.p in s.pcs ==> !Holds(s.pcs[a.p], id)
    ensures Has(s.st, id, Running)
    ensures Apply(s, a).st.rows[id].updatedAt >= s.st.rows[id].updatedAt || Apply(s, a).st.rows[id].updatedAt == s.st.now
  {
    match a
    case Work(p, w) =>
      if p in s.pcs && !w.TakeJob? && !w.ReadJob? && !w.AckJob? { RunStepFrame(s, p, w); }
    case Sweep(p, r) =>
    case Backend(b) =>
    case _ =>
  }

  lemma OtherStaysBeaten(s: State, a: Action, q: Proc, bs: Beats)
    requires Inv(s) && q in s.pcs && PcBeaten(s.st, s.pcs[q], q, bs) && (a.Work? ==> a.p != q)
    ensures PcBeaten(Apply(s, a).st, s.pcs[q], q, bs)
  {
    var pc := s.pcs[q];
    ApplyWritesRows(s, a);
    assert PcKnown(pc, s.st.rows.Keys);
    if InRun(pc) || (pc.Claimed? && pc.entry.JobRef?) {
      var id := if pc.Claimed? then pc.entry.id else pc.id;
      assert Holds(pc, id) && Good(s, id);
      if Has(Apply(s, a).st, id, Running) { RunningBefore(s, a, id); }
    }
  }

  lemma BeatenStep(s: State, a: Action, bs: Beats)
    requires Inv(s) && Beaten(s, bs)
    ensures Beaten(Apply(s, a), LastBeats(s, a, bs))
  {
    var s' := Apply(s, a);
    var bs' := LastBeats(s, a, bs);
    forall q | q in s'.pcs ensures PcBeaten(s'.st, s'.pcs[q], q, bs') {
      if a.Work? && a.p == q {
        ActorStaysBeaten(s, q, a.w, bs);
      } else if q in s.pcs && s'.pcs[q] == s.pcs[q] {
        OtherStaysBeaten(s, a, q, bs);
      } else {
        Sweeps(s, a, q);
      }
    }
  }

  /** Any other process that moves is in a pass or starts idle, with no job in hand. */
  lemma Sweeps(s: State, a: Action, q: Proc)
    requires q in Apply(s, a).pcs && !(a.Work? && a.p == q)
    requires q !in s.pcs || Apply(s, a).pcs[q] != s.pcs[q]
    ensures Apply(s, a).pcs[q] == Idle || Sweeping(Apply(s, a).pcs[q])
  {}

  /** Any punctual run is timely. */
  lemma {:induction false} PunctualIsTimely(s: State, acts: seq<Action>, bs: Beats)
    requires Inv(s) && Beaten(s, bs) && Punctual(s, acts, bs)
    ensures TimelyRun(s, acts)
    decreases |acts|
  {
    if acts != [] {
      BeatenIsInTime(s, acts[0], bs);
      InvStep(s, acts[0]);
      BeatenStep(s, acts[0], bs);
      PunctualIsTimely(Apply(s, acts[0]), acts[1..], LastBeats(s, acts[0], bs));
    }
  }

  /** Mutual exclusion for workers that beat in time. */
  lemma PunctualWorkersExclude(cfg: Config, now: int, acts: seq<Action>, id: JobId)
    requires Punctual(Init(cfg, now), acts, map[])
    ensures Tokens(Exec(Init(cfg, now), acts), id) <= 1
  {
    PunctualIsTimely(Init(cfg, now), acts, map[]);
    MutualExclusion(cfg, now, acts, id);
  }
}
