/** One reconcile pass: the effect of a pass nobody interferes with, the class
    that performs it, and what it promises. */
module Reconciling {
  import opened Wrappers
  import opened Store
  import opened Clients
  import opened Protocol
  import opened LocalRuns

  // -------------------------------------------------------- effect

  function ResetJob(st: Store, id: JobId): Store {
    Requeue(Publish(ResetToQueued(st, id), id, Queued, false), id)
  }

  function ResetAll(st: Store, ids: seq<JobId>): Store
    decreases |ids|
  {
    if ids == [] then st else ResetAll(ResetJob(st, ids[0]), ids[1..])
  }

  function RecoverJob(st: Store, id: JobId, live: set<Entry>): Store {
    if JobRef(id) in live then st else Requeue(st, id)
  }

  function RecoverAll(st: Store, ids: seq<JobId>, live: set<Entry>): Store
    decreases |ids|
  {
    if ids == [] then st else RecoverAll(RecoverJob(st, ids[0], live), ids[1..], live)
  }

  /** The candidates that neither snapshot shows. */
  function Lost(ids: seq<JobId>, live: set<Entry>): seq<JobId> {
    if ids == [] then []
    else (if JobRef(ids[0]) in live then [] else [ids[0]]) + Lost(ids[1..], live)
  }

  function InRedis(st: Store): set<Entry> {
    Members(st.queue) + Members(st.processing)
  }

  /** The whole pass.  `stale` and `orphans` are the two query results in the
      order the database returned them; `gap` is the time between the phases. */
  function AfterReset(st: Store, stale: seq<JobId>, gap: nat): Store {
    Advance(ResetAll(st, stale), gap)
  }

  function Pass(st: Store, stale: seq<JobId>, gap: nat, orphans: seq<JobId>): Store {
    var m := AfterReset(st, stale, gap);
    RecoverAll(m, orphans, InRedis(m))
  }

  ghost predicate Inputs(st: Store, cfg: Config, stale: seq<JobId>, gap: nat, orphans: seq<JobId>) {
    && Enumerates(stale, StaleRunning(st, cfg.visibility))
    && Enumerates(orphans, OrphanQueued(AfterReset(st, stale, gap), cfg.grace))
  }

  // ------------------------------------------ a pass cut by an exception

  /** A statement of the first or the second phase raises when so many of the
      phase's writes have taken effect, three for each reset and one for each push. */
  datatype PassFault = InReset(n: nat) | InRecover(n: nat)

  function ResetPart(st: Store, id: JobId, n: nat): Store {
    if n == 0 then st
    else if n == 1 then ResetToQueued(st, id)
    else Publish(ResetToQueued(st, id), id, Queued, false)
  }

  function ResetSome(st: Store, ids: seq<JobId>, n: nat): Store
    decreases |ids|
  {
    if ids == [] then st
    else if n < 3 then ResetPart(st, ids[0], n)
    else ResetSome(ResetJob(st, ids[0]), ids[1..], n - 3)
  }

  function RecoverSome(st: Store, ids: seq<JobId>, live: set<Entry>, n: nat): Store
    decreases |ids|
  {
    if ids == [] || n == 0 then st
    else if JobRef(ids[0]) in live then RecoverSome(st, ids[1..], live, n)
    else RecoverSome(Requeue(st, ids[0]), ids[1..], live, n - 1)
  }

  /** The fault strikes in the first phase, or in the second. */
  predicate CutInReset(stale: seq<JobId>, f: Option<PassFault>) {
    f.Some? && f.value.InReset? && f.value.n <= 3 * |stale|
  }

  predicate CutInRecover(st: Store, stale: seq<JobId>, gap: nat, orphans: seq<JobId>, f: Option<PassFault>) {
    f.Some? && f.value.InRecover? && f.value.n <= |Lost(orphans, InRedis(AfterReset(st, stale, gap)))|
  }

  predicate PassRaises(st: Store, stale: seq<JobId>, gap: nat, orphans: seq<JobId>, f: Option<PassFault>) {
    CutInReset(stale, f) || CutInRecover(st, stale, gap, orphans, f)
  }

  function PassUpTo(st: Store, stale: seq<JobId>, gap: nat, orphans: seq<JobId>, f: Option<PassFault>): Store {
    if CutInReset(stale, f) then ResetSome(st, stale, f.value.n)
    else
      var m := AfterReset(st, stale, gap);
      if CutInRecover(st, stale, gap, orphans, f) then RecoverSome(m, orphans, InRedis(m), f.value.n)
      else Pass(st, stale, gap, orphans)
  }

  /** The query results, as far as the pass got. */
  ghost predicate InputsUpTo(st: Store, cfg: Config, stale: seq<JobId>, gap: nat, orphans: seq<JobId>, f: Option<PassFault>) {
    && Enumerates(stale, StaleRunning(st, cfg.visibility))
    && (!CutInReset(stale, f) ==> Enumerates(orphans, OrphanQueued(AfterReset(st, stale, gap), cfg.grace)))
  }

  datatype Stats = Stats(abandonedRunning: nat, orphanedQueued: nat)

  // -------------------------------------------------------- the class

  class Reconciler {
    const world: World
    const repo: JobRepository
    const queue: RedisQueue
    const status: StatusPublisher
    const cfg: Config

    constructor (world: World, cfg: Config)
      ensures this.world == world && this.cfg == cfg && Wired()
    {
      this.world := world;
      this.repo := new JobRepository(world);
      this.queue := new RedisQueue(world);
      this.status := new StatusPublisher(world);
      this.cfg := cfg;
    }

    ghost predicate Wired() {
      repo.world == world && queue.world == world && status.world == world
    }

    /** reconcile; no statistics if an exception leaves it. */
    method Reconcile(gap: nat, f: Option<PassFault>)
      returns (stats: Option<Stats>, ghost stale: seq<JobId>, ghost orphans: seq<JobId>)
      requires Wired()
      modifies world
      ensures InputsUpTo(old(world.St()), cfg, stale, gap, orphans, f)
      ensures world.St() == PassUpTo(old(world.St()), stale, gap, orphans, f)
      ensures stats.None? <==> PassRaises(old(world.St()), stale, gap, orphans, f)
      ensures stats.Some? ==>
                && stats.value.abandonedRunning == |stale|
                && stats.value.orphanedQueued == |Lost(orphans, InRedis(AfterReset(old(world.St()), stale, gap)))|
    {
      orphans := [];
      var abandoned, orphaned;
      abandoned, stale := RecoverAbandonedRunning(if f.Some? && f.value.InReset? then Some(f.value.n) else None);
      if abandoned.None? { return None, stale, orphans; }
      world.Wait(gap);
      orphaned, orphans := RecoverOrphanedQueued(if f.Some? && f.value.InRecover? then Some(f.value.n) else None);
      if orphaned.None? { return None, stale, orphans; }
      return Some(Stats(abandoned.value, orphaned.value)), stale, orphans;
    }

    /** `cut`: the number of writes after which a statement raises. */
    method RecoverAbandonedRunning(cut: Option<nat>) returns (n: Option<nat>, ghost found: seq<JobId>)
      requires Wired()
      modifies world`rows, world`hash, world`queue, world`processing
      ensures Enumerates(found, StaleRunning(old(world.St()), cfg.visibility))
      ensures n == if cut.Some? && cut.value <= 3 * |found| then None else Some(|found|)
      ensures world.St() == if n.None? then ResetSome(old(world.St()), found, cut.value) else ResetAll(old(world.St()), found)
    {
      var stale := repo.FindStaleRunning(cfg.visibility);
      found := stale;
      for i := 0 to |stale|
        invariant cut.Some? ==> cut.value >= 3 * i
        invariant ResetAll(world.St(), stale[i..]) == ResetAll(old(world.St()), stale)
        invariant cut.Some? ==> ResetSome(world.St(), stale[i..], cut.value - 3 * i) == ResetSome(old(world.St()), stale, cut.value)
      {
        assert stale[i..][1..] == stale[i + 1..];
        var ok := ResetOneJob(stale[i], if cut.Some? then Some(cut.value - 3 * i) else None);
        if !ok { return None, stale; }
      }
      if cut == Some(3 * |stale|) { return None, stale; }
      return Some(|stale|), stale;
    }

    /** The body of the loop; `left`: the writes that are left to it. */
    method ResetOneJob(id: JobId, left: Option<nat>) returns (ok: bool)
      requires Wired()
      modifies world`rows, world`hash, world`queue, world`processing
      ensures ok <==> (left.Some? ==> left.value >= 3)
      ensures world.St() == if ok then ResetJob(old(world.St()), id) else ResetPart(old(world.St()), id, left.value)
    {
      if left == Some(0) { return false; }
      repo.ResetToQueued(id);
      if left == Some(1) { return false; }
      status.Publish(id, Queued, false);
      if left == Some(2) { return false; }
      queue.Requeue(id);
      return true;
    }

    method RecoverOrphanedQueued(cut: Option<nat>) returns (n: Option<nat>, ghost found: seq<JobId>)
      requires Wired()
      modifies world`queue, world`processing
      ensures Enumerates(found, OrphanQueued(old(world.St()), cfg.grace))
      ensures var live := InRedis(old(world.St()));
              var lost := |Lost(found, live)|;
              && n == (if cut.Some? && cut.value <= lost then None else Some(lost))
              && world.St() == if n.None? then RecoverSome(old(world.St()), found, live, cut.value)
                               else RecoverAll(old(world.St()), found, live)
    {
      var candidates := repo.FindOrphanQueued(cfg.grace);
      found := candidates;
      if cut == Some(0) { return None, found; }
      if candidates == [] {
        return Some(0), found;
      }
      var queued := queue.QueuedIds();
      var inFlight := queue.InFlightIds();
      n := PushLost(candidates, queued + inFlight, cut);
    }

    /** The loop over the candidates; `cut`: the number of pushes after which one raises. */
    method PushLost(candidates: seq<JobId>, live: set<Entry>, cut: Option<nat>) returns (n: Option<nat>)
      requires Wired()
      modifies world`queue, world`processing
      ensures var lost := |Lost(candidates, live)|;
              && n == (if cut.Some? && cut.value <= lost then None else Some(lost))
              && world.St() == if n.None? then RecoverSome(old(world.St()), candidates, live, cut.value)
                               else RecoverAll(old(world.St()), candidates, live)
    {
      var recovered := 0;
      for i := 0 to |candidates|
        invariant cut.Some? ==> cut.value >= recovered
        invariant RecoverAll(world.St(), candidates[i..], live) == RecoverAll(old(world.St()), candidates, live)
        invariant cut.Some? ==> RecoverSome(world.St(), candidates[i..], live, cut.value - recovered)
                                == RecoverSome(old(world.St()), candidates, live, cut.value)
        invariant recovered + |Lost(candidates[i..], live)| == |Lost(candidates, live)|
      {
        assert candidates[i..][1..] == candidates[i + 1..];
        if JobRef(candidates[i]) !in live {
          if cut == Some(recovered) { return None; }
          queue.Requeue(candidates[i]);
          recovered := recovered + 1;
        }
      }
      if cut == Some(recovered) { return None; }
      return Some(recovered);
    }
  }

  // -------------------------------------------------------- what a pass does

  /** Repeated LPUSH leaves the last id leftmost. */
  function Pushed(ids: seq<JobId>): seq<Entry> {
    if ids == [] then [] else Pushed(ids[1..]) + [JobRef(ids[0])]
  }

  lemma {:induction false} InPushed(ids: seq<JobId>)
    ensures forall e :: e in Pushed(ids) <==> e.JobRef? && e.id in ids
  {
    if ids != [] { InPushed(ids[1..]); }
  }

  function Refs(ids: seq<JobId>): set<Entry> {
    if ids == [] then {} else {JobRef(ids[0])} + Refs(ids[1..])
  }

  lemma {:induction false} InRefs(ids: seq<JobId>)
    ensures forall e :: e in Refs(ids) <==> e.JobRef? && e.id in ids
  {
    if ids != [] { InRefs(ids[1..]); }
  }

  lemma {:induction false} ResetAllRows(st: Store, ids: seq<JobId>)
    ensures var r := ResetAll(st, ids);
            && r.now == st.now
            && r.rows.Keys == st.rows.Keys
            && (forall id :: id in st.rows ==>
                  r.rows[id] == if id in ids && st.rows[id].status == Running
                                then st.rows[id].(status := Queued, updatedAt := st.now) else st.rows[id])
    decreases |ids|
  {
    if ids != [] {
      ResetAllRows(ResetJob(st, ids[0]), ids[1..]);
      assert forall id :: id in ids <==> id == ids[0] || id in ids[1..];
    }
  }

  lemma {:induction false} ResetAllLists(st: Store, ids: seq<JobId>)
    ensures ResetAll(st, ids).queue == Pushed(ids) + st.queue
    ensures ResetAll(st, ids).processing == Without(st.processing, Refs(ids))
    decreases |ids|
  {
    if ids == [] {
      WithoutNothing(st.processing);
    } else {
      ResetAllLists(ResetJob(st, ids[0]), ids[1..]);
      PushOne(st, ids);
    }
  }

  lemma Associative(a: seq<Entry>, b: seq<Entry>, c: seq<Entry>)
    ensures a + (b + c) == (a + b) + c
  {}

  /** LREM and LPUSH of the first id, then of the rest. */
  lemma PushOne(st: Store, ids: seq<JobId>)
    requires ids != []
    ensures Pushed(ids[1..]) + ([JobRef(ids[0])] + st.queue) == Pushed(ids) + st.queue
    ensures Without(RemoveAll(st.processing, JobRef(ids[0])), Refs(ids[1..])) == Without(st.processing, Refs(ids))
  {
    Associative(Pushed(ids[1..]), [JobRef(ids[0])], st.queue);
    WithoutOneMore(st.processing, JobRef(ids[0]), Refs(ids[1..]));
  }

  lemma WithoutOneMore(s: seq<Entry>, e: Entry, gone: set<Entry>)
    ensures Without(RemoveAll(s, e), gone) == Without(s, {e} + gone)
  {
    RemoveIsWithout(s, e);
    WithoutTwice(s, {e}, gone);
  }

  lemma {:induction false} RecoverAllFacts(st: Store, ids: seq<JobId>, live: set<Entry>)
    ensures var r := RecoverAll(st, ids, live);
            && r == st.(queue := r.queue, processing := r.processing)
            && r.queue == Pushed(Lost(ids, live)) + st.queue
            && r.processing == Without(st.processing, Refs(Lost(ids, live)))
    decreases |ids|
  {
    if ids == [] {
      WithoutNothing(st.processing);
    } else {
      RecoverAllFacts(RecoverJob(st, ids[0], live), ids[1..], live);
      var rest := Lost(ids[1..], live);
      if JobRef(ids[0]) in live {
        assert Lost(ids, live) == rest;
      } else {
        var lost := [ids[0]] + rest;
        assert Lost(ids, live) == lost;
        assert lost[1..] == rest;
        PushOne(st, lost);
      }
    }
  }

  lemma {:induction false} InLost(ids: seq<JobId>, live: set<Entry>)
    ensures forall id :: id in Lost(ids, live) <==> id in ids && JobRef(id) !in live
  {
    if ids != [] { InLost(ids[1..], live); }
  }

  lemma {:induction false} LostDistinct(ids: seq<JobId>, live: set<Entry>)
    requires Distinct(ids)
    ensures Distinct(Lost(ids, live))
  {
    if ids != [] {
      LostDistinct(ids[1..], live);
      InLost(ids[1..], live);
      assert ids[0] !in ids[1..];
    }
  }

  /** What the second phase pushes was queued, in neither list, and not just reset. */
  lemma LostWasNowhere(st: Store, cfg: Config, stale: seq<JobId>, gap: nat, orphans: seq<JobId>, id: JobId)
    requires Inputs(st, cfg, stale, gap, orphans)
    requires var m := AfterReset(st, stale, gap); id in Lost(orphans, InRedis(m))
    ensures id !in stale && Has(st, id, Queued) && JobRef(id) !in st.queue && JobRef(id) !in st.processing
  {
    var m := AfterReset(st, stale, gap);
    ResetAllRows(st, stale);
    ResetAllLists(st, stale);
    InLost(orphans, InRedis(m));
    assert id in OrphanQueued(m, cfg.grace);
    assert JobRef(id) !in m.queue && JobRef(id) !in m.processing;
    InPushed(stale);
    InRefs(stale);
    InWithout(st.processing, Refs(stale));
    assert JobRef(id) !in Pushed(stale);
  }

  /** Who is reset: exactly the running jobs past the visibility timeout.  And what
      phase two pushes has been queued, and unwritten, for longer than the grace
      window: no job that another pass or request is still handling. */
  lemma StaleIsOverdue(st: Store, cfg: Config, stale: seq<JobId>, gap: nat, orphans: seq<JobId>, id: JobId)
    requires Inputs(st, cfg, stale, gap, orphans)
    ensures id in stale <==> id in st.rows && st.rows[id].status == Running && st.rows[id].updatedAt < st.now - cfg.visibility
  {}

  lemma LostIsOld(st: Store, cfg: Config, stale: seq<JobId>, gap: nat, orphans: seq<JobId>, id: JobId)
    requires Inputs(st, cfg, stale, gap, orphans)
    ensures id in Lost(orphans, InRedis(AfterReset(st, stale, gap)))
            <==> && id !in stale && id in st.rows && st.rows[id].status == Queued
                 && st.rows[id].createdAt < st.now + gap - cfg.grace && st.rows[id].updatedAt < st.now + gap - cfg.grace
                 && JobRef(id) !in st.queue && JobRef(id) !in st.processing
  {
    var m := AfterReset(st, stale, gap);
    InLost(orphans, InRedis(m));
    ResetAllRows(st, stale);
    ResetAllLists(st, stale);
    InPushed(stale);
    InRefs(stale);
    InWithout(st.processing, Refs(stale));
    assert id in orphans <==> id in OrphanQueued(m, cfg.grace);
    if id in stale { assert JobRef(id) in Pushed(stale) && JobRef(id) in m.queue; }
  }

  /** The pass announces every reset as queued, at the current second, and no other hash moves. */
  lemma PassAnnounces(st: Store, cfg: Config, stale: seq<JobId>, gap: nat, orphans: seq<JobId>, id: JobId)
    requires Inputs(st, cfg, stale, gap, orphans)
    ensures var r := Pass(st, stale, gap, orphans);
            if id in stale then id in r.hash && r.hash[id].status == Queued && r.hash[id].updatedAt == FloorToSecond(st.now)
            else (id in r.hash <==> id in st.hash) && (id in st.hash ==> r.hash[id] == st.hash[id])
  {
    var m := AfterReset(st, stale, gap);
    ResetAllHashes(st, stale, id);
    RecoverAllFacts(m, orphans, InRedis(m));
  }

  lemma {:induction false} ResetAllHashes(st: Store, ids: seq<JobId>, id: JobId)
    requires Distinct(ids)
    ensures var r := ResetAll(st, ids);
            if id in ids then id in r.hash && r.hash[id].status == Queued && r.hash[id].updatedAt == FloorToSecond(st.now)
            else (id in r.hash <==> id in st.hash) && (id in st.hash ==> r.hash[id] == st.hash[id])
    decreases |ids|
  {
    if ids != [] {
      ResetAllHashes(ResetJob(st, ids[0]), ids[1..], id);
      assert ids[0] !in ids[1..];
    }
  }

  /** An isolated pass: the ids it pushes are the stale running jobs and the
      queued jobs past the grace window that were in neither list, each exactly
      once; nothing already in jobs:queue is touched. */
  lemma PassPushesOnce(st: Store, cfg: Config, stale: seq<JobId>, gap: nat, orphans: seq<JobId>)
    requires Inputs(st, cfg, stale, gap, orphans)
    ensures var lost := Lost(orphans, InRedis(AfterReset(st, stale, gap)));
            var r := Pass(st, stale, gap, orphans);
            && Distinct(stale + lost)
            && r.queue == Pushed(stale + lost) + st.queue
            && r.processing == Without(st.processing, Refs(stale))
            && (forall id :: id in lost ==> Has(st, id, Queued) && JobRef(id) !in st.queue && JobRef(id) !in st.processing)
  {
    var m := AfterReset(st, stale, gap);
    var lost := Lost(orphans, InRedis(m));
    ResetAllLists(st, stale);
    RecoverAllFacts(m, orphans, InRedis(m));
    forall id | id in lost
      ensures id !in stale && Has(st, id, Queued) && JobRef(id) !in st.queue && JobRef(id) !in st.processing
    {
      LostWasNowhere(st, cfg, stale, gap, orphans, id);
    }
    PushedConcat(stale, lost);
    Associative(Pushed(lost), Pushed(stale), st.queue);
    NoneInProcessing(st, stale, lost);
    LostDistinct(orphans, InRedis(m));
    DistinctConcat(stale, lost);
  }

  lemma DistinctConcat(a: seq<JobId>, b: seq<JobId>)
    requires Distinct(a) && Distinct(b) && forall id :: id in b ==> id !in a
    ensures Distinct(a + b)
  {
    forall i, j | 0 <= i < j < |a + b| ensures (a + b)[i] != (a + b)[j] {
      if i < |a| <= j {
        assert a[i] in a && b[j - |a|] in b;
      }
    }
  }

  lemma NoneInProcessing(st: Store, stale: seq<JobId>, lost: seq<JobId>)
    requires forall id :: id in lost ==> JobRef(id) !in st.processing
    ensures Without(Without(st.processing, Refs(stale)), Refs(lost)) == Without(st.processing, Refs(stale))
  {
    InWithout(st.processing, Refs(stale));
    InRefs(lost);
    NothingToRemove(Without(st.processing, Refs(stale)), Refs(lost));
  }

  lemma PassRows(st: Store, cfg: Config, stale: seq<JobId>, gap: nat, orphans: seq<JobId>)
    requires Inputs(st, cfg, stale, gap, orphans)
    ensures var r := Pass(st, stale, gap, orphans);
            && r.now == st.now + gap
            && r.rows.Keys == st.rows.Keys
            && (forall id :: id in st.rows ==>
                  r.rows[id] == if id in stale then st.rows[id].(status := Queued, updatedAt := st.now) else st.rows[id])
  {
    var m := AfterReset(st, stale, gap);
    ResetAllRows(st, stale);
    RecoverAllFacts(m, orphans, InRedis(m));
  }

  lemma {:induction false} PushedConcat(a: seq<JobId>, b: seq<JobId>)
    ensures Pushed(a + b) == Pushed(b) + Pushed(a)
    decreases |a|
  {
    if a == [] {
      assert a + b == b;
    } else {
      assert (a + b)[1..] == a[1..] + b;
      PushedConcat(a[1..], b);
    }
  }

  lemma {:induction false} NothingToRemove(s: seq<Entry>, gone: set<Entry>)
    requires forall e :: e in s ==> e !in gone
    ensures Without(s, gone) == s
  {
    if s != [] { NothingToRemove(s[1..], gone); }
  }

  /** At the same clock a second pass finds nothing to do. */
  lemma SecondPassIsIdle(st: Store, cfg: Config, stale: seq<JobId>, orphans: seq<JobId>, stale2: seq<JobId>, orphans2: seq<JobId>)
    requires Inputs(st, cfg, stale, 0, orphans)
    requires Inputs(Pass(st, stale, 0, orphans), cfg, stale2, 0, orphans2)
    ensures Pass(Pass(st, stale, 0, orphans), stale2, 0, orphans2) == Pass(st, stale, 0, orphans)
  {
    var r := Pass(st, stale, 0, orphans);
    NothingStale(st, cfg, stale, orphans);
    EnumeratesNothing(stale2, StaleRunning(r, cfg.visibility));
    forall id | id in orphans2 ensures JobRef(id) in InRedis(r) {
      assert id in OrphanQueued(r, cfg.grace);
      OrphansAreBack(st, cfg, stale, orphans, id);
    }
    AllLive(r, orphans2, InRedis(r));
  }

  lemma NothingStale(st: Store, cfg: Config, stale: seq<JobId>, orphans: seq<JobId>)
    requires Inputs(st, cfg, stale, 0, orphans)
    ensures StaleRunning(Pass(st, stale, 0, orphans), cfg.visibility) == {}
  {
    PassRows(st, cfg, stale, 0, orphans);
    var r := Pass(st, stale, 0, orphans);
    forall id | id in r.rows ensures id !in StaleRunning(r, cfg.visibility) {
      assert id in StaleRunning(r, cfg.visibility) ==> id in StaleRunning(st, cfg.visibility);
    }
  }

  /** Every job a second pass would take for an orphan is in Redis by now. */
  lemma OrphansAreBack(st: Store, cfg: Config, stale: seq<JobId>, orphans: seq<JobId>, id: JobId)
    requires Inputs(st, cfg, stale, 0, orphans)
    requires id in OrphanQueued(Pass(st, stale, 0, orphans), cfg.grace)
    ensures JobRef(id) in InRedis(Pass(st, stale, 0, orphans))
  {
    var m := AfterReset(st, stale, 0);
    var lost := Lost(orphans, InRedis(m));
    RecoverAllFacts(m, orphans, InRedis(m));
    assert id in OrphanQueued(m, cfg.grace);
    InLost(orphans, InRedis(m));
    InPushed(lost);
    InRefs(lost);
    InWithout(m.processing, Refs(lost));
  }

  lemma EnumeratesNothing(ids: seq<JobId>, s: set<JobId>)
    requires Enumerates(ids, s)
    ensures ids == [] <==> s == {}
  {
    if ids != [] {
      assert ids[0] in s;
    }
  }

  lemma {:induction false} AllLive(st: Store, ids: seq<JobId>, live: set<Entry>)
    requires forall id :: id in ids ==> JobRef(id) in live
    ensures RecoverAll(st, ids, live) == st
    decreases |ids|
  {
    if ids != [] { AllLive(st, ids[1..], live); }
  }

  // -------------------------------------------------------- as a run

  function ResetTrace(n: nat): seq<LocalAct> {
    if n == 0 then [] else [See(ResetOne), See(AnnounceOne), See(RequeueOne)] + ResetTrace(n - 1)
  }

  function RecoverTrace(n: nat): seq<LocalAct> {
    if n == 0 then [See(RecoverOne)] else [See(RecoverOne)] + RecoverTrace(n - 1)
  }

  function OrphanTrace(orphans: seq<JobId>): seq<LocalAct> {
    [See(FindOrphans(orphans))]
    + if orphans == [] then [] else [See(ReadQueue), See(ReadProcessing)] + RecoverTrace(|orphans|)
  }

  function PassTrace(stale: seq<JobId>, gap: nat, orphans: seq<JobId>): seq<LocalAct> {
    ResettingTrace(stale, gap) + OrphanTrace(orphans)
  }

  lemma {:induction false} ResetTraceSteps(cfg: Config, st: Store, ids: seq<JobId>)
    ensures Steps(cfg, Place(st, Resetting(ids)), ResetTrace(|ids|)) == Place(ResetAll(st, ids), Resetting([]))
    decreases |ids|
  {
    if ids != [] {
      var three := [See(ResetOne), See(AnnounceOne), See(RequeueOne)];
      StepsConcat(cfg, Place(st, Resetting(ids)), three, ResetTrace(|ids| - 1));
      ResetJobSteps(cfg, st, ids);
      ResetTraceSteps(cfg, ResetJob(st, ids[0]), ids[1..]);
    }
  }

  lemma ResetJobSteps(cfg: Config, st: Store, ids: seq<JobId>)
    requires ids != []
    ensures Steps(cfg, Place(st, Resetting(ids)), [See(ResetOne), See(AnnounceOne), See(RequeueOne)])
            == Place(ResetJob(st, ids[0]), Resetting(ids[1..]))
  {
    Steps3(cfg, Place(st, Resetting(ids)), See(ResetOne), See(AnnounceOne), See(RequeueOne));
  }

  lemma {:induction false} RecoverTraceSteps(cfg: Config, st: Store, ids: seq<JobId>, live: set<Entry>)
    ensures Steps(cfg, Place(st, Recovering(ids, live)), RecoverTrace(|ids|)) == Place(RecoverAll(st, ids, live), Idle)
    decreases |ids|
  {
    Steps1(cfg, Place(st, Recovering(ids, live)), See(RecoverOne));
    if ids != [] {
      StepsConcat(cfg, Place(st, Recovering(ids, live)), [See(RecoverOne)], RecoverTrace(|ids| - 1));
      RecoverTraceSteps(cfg, RecoverJob(st, ids[0], live), ids[1..], live);
    }
  }

  lemma OrphanTraceSteps(cfg: Config, st: Store, orphans: seq<JobId>)
    requires Enumerates(orphans, OrphanQueued(st, cfg.grace))
    ensures Steps(cfg, Place(st, Resetting([])), OrphanTrace(orphans))
            == Place(RecoverAll(st, orphans, InRedis(st)), Idle)
  {
    var c := Place(st, Resetting([]));
    Steps1(cfg, c, See(FindOrphans(orphans)));
    if orphans != [] {
      StepsConcat(cfg, c, [See(FindOrphans(orphans))], [See(ReadQueue), See(ReadProcessing)] + RecoverTrace(|orphans|));
      ReadsThen(cfg, st, orphans, RecoverTrace(|orphans|));
      RecoverTraceSteps(cfg, st, orphans, InRedis(st));
    }
  }

  lemma ReadsThen(cfg: Config, st: Store, orphans: seq<JobId>, t: seq<LocalAct>)
    ensures Steps(cfg, Place(st, ReadingQueue(orphans)), [See(ReadQueue), See(ReadProcessing)] + t)
            == Steps(cfg, Place(st, Recovering(orphans, InRedis(st))), t)
  {
    StepsConcat(cfg, Place(st, ReadingQueue(orphans)), [See(ReadQueue), See(ReadProcessing)], t);
    Steps2(cfg, Place(st, ReadingQueue(orphans)), See(ReadQueue), See(ReadProcessing));
  }

  function ResetSomeTrace(k: nat, n: nat): seq<LocalAct> {
    if k == 0 || n == 0 then []
    else if n == 1 then [See(ResetOne)]
    else if n == 2 then [See(ResetOne), See(AnnounceOne)]
    else [See(ResetOne), See(AnnounceOne), See(RequeueOne)] + ResetSomeTrace(k - 1, n - 3)
  }

  function RecoverSomeTrace(ids: seq<JobId>, live: set<Entry>, n: nat): seq<LocalAct> {
    if ids == [] || n == 0 then []
    else [See(RecoverOne)] + RecoverSomeTrace(ids[1..], live, if JobRef(ids[0]) in live then n else n - 1)
  }

  /** The steps of a pass, as far as it gets. */
  function PassUpToTrace(st: Store, stale: seq<JobId>, gap: nat, orphans: seq<JobId>, f: Option<PassFault>): seq<LocalAct> {
    if CutInReset(stale, f) then [See(FindStale(stale))] + ResetSomeTrace(|stale|, f.value.n)
    else if CutInRecover(st, stale, gap, orphans, f) then
      ResettingTrace(stale, gap) + OrphanSomeTrace(orphans, InRedis(AfterReset(st, stale, gap)), f.value.n)
    else PassTrace(stale, gap, orphans)
  }

  function ResettingTrace(stale: seq<JobId>, gap: nat): seq<LocalAct> {
    [See(FindStale(stale))] + ResetTrace(|stale|) + [Wait(gap)]
  }

  function OrphanSomeTrace(orphans: seq<JobId>, live: set<Entry>, n: nat): seq<LocalAct> {
    [See(FindOrphans(orphans))]
    + if orphans == [] then [] else [See(ReadQueue), See(ReadProcessing)] + RecoverSomeTrace(orphans, live, n)
  }

  lemma {:induction false} ResetSomeSteps(cfg: Config, st: Store, ids: seq<JobId>, n: nat)
    ensures Steps(cfg, Place(st, Resetting(ids)), ResetSomeTrace(|ids|, n)).st == ResetSome(st, ids, n)
    decreases |ids|
  {
    var c := Place(st, Resetting(ids));
    if ids != [] && n == 1 {
      Steps1(cfg, c, See(ResetOne));
    } else if ids != [] && n == 2 {
      Steps2(cfg, c, See(ResetOne), See(AnnounceOne));
    } else if ids != [] && n > 2 {
      var three := [See(ResetOne), See(AnnounceOne), See(RequeueOne)];
      StepsConcat(cfg, c, three, ResetSomeTrace(|ids| - 1, n - 3));
      ResetJobSteps(cfg, st, ids);
      ResetSomeSteps(cfg, ResetJob(st, ids[0]), ids[1..], n - 3);
    }
  }

  lemma {:induction false} RecoverSomeSteps(cfg: Config, st: Store, ids: seq<JobId>, live: set<Entry>, n: nat)
    ensures Steps(cfg, Place(st, Recovering(ids, live)), RecoverSomeTrace(ids, live, n)).st == RecoverSome(st, ids, live, n)
    decreases |ids|
  {
    if ids != [] && n > 0 {
      var m := if JobRef(ids[0]) in live then n else n - 1;
      Steps1(cfg, Place(st, Recovering(ids, live)), See(RecoverOne));
      StepsConcat(cfg, Place(st, Recovering(ids, live)), [See(RecoverOne)], RecoverSomeTrace(ids[1..], live, m));
      RecoverSomeSteps(cfg, RecoverJob(st, ids[0], live), ids[1..], live, m);
    }
  }

  lemma OrphanSomeSteps(cfg: Config, st: Store, orphans: seq<JobId>, n: nat)
    requires Enumerates(orphans, OrphanQueued(st, cfg.grace))
    ensures Steps(cfg, Place(st, Resetting([])), OrphanSomeTrace(orphans, InRedis(st), n)).st
            == RecoverSome(st, orphans, InRedis(st), n)
  {
    var c := Place(st, Resetting([]));
    var rest := RecoverSomeTrace(orphans, InRedis(st), n);
    Steps1(cfg, c, See(FindOrphans(orphans)));
    if orphans != [] {
      StepsConcat(cfg, c, [See(FindOrphans(orphans))], [See(ReadQueue), See(ReadProcessing)] + rest);
      ReadsThen(cfg, st, orphans, rest);
      RecoverSomeSteps(cfg, st, orphans, InRedis(st), n);
    }
  }

  lemma ResettingSteps(cfg: Config, st: Store, stale: seq<JobId>, gap: nat)
    requires Enumerates(stale, StaleRunning(st, cfg.visibility))
    ensures Steps(cfg, Place(st, Idle), ResettingTrace(stale, gap)) == Place(AfterReset(st, stale, gap), Resetting([]))
  {
    var c := Place(st, Idle);
    StepsConcat(cfg, c, [See(FindStale(stale))] + ResetTrace(|stale|), [Wait(gap)]);
    StepsConcat(cfg, c, [See(FindStale(stale))], ResetTrace(|stale|));
    Steps1(cfg, c, See(FindStale(stale)));
    ResetTraceSteps(cfg, st, stale);
    Steps1(cfg, Place(ResetAll(st, stale), Resetting([])), Wait(gap));
  }

  lemma PassTraceSteps(cfg: Config, st: Store, stale: seq<JobId>, gap: nat, orphans: seq<JobId>)
    requires Inputs(st, cfg, stale, gap, orphans)
    ensures Steps(cfg, Place(st, Idle), PassTrace(stale, gap, orphans)) == Place(Pass(st, stale, gap, orphans), Idle)
  {
    StepsConcat(cfg, Place(st, Idle), ResettingTrace(stale, gap), OrphanTrace(orphans));
    ResettingSteps(cfg, st, stale, gap);
    OrphanTraceSteps(cfg, AfterReset(st, stale, gap), orphans);
  }

  lemma PassUpToSteps(cfg: Config, st: Store, stale: seq<JobId>, gap: nat, orphans: seq<JobId>, f: Option<PassFault>)
    requires InputsUpTo(st, cfg, stale, gap, orphans, f)
    ensures var c := Steps(cfg, Place(st, Idle), PassUpToTrace(st, stale, gap, orphans, f));
            && c.st == PassUpTo(st, stale, gap, orphans, f)
            && (!PassRaises(st, stale, gap, orphans, f) ==> c.pc == Idle)
  {
    var m := AfterReset(st, stale, gap);
    if CutInReset(stale, f) {
      StepsConcat(cfg, Place(st, Idle), [See(FindStale(stale))], ResetSomeTrace(|stale|, f.value.n));
      Steps1(cfg, Place(st, Idle), See(FindStale(stale)));
      ResetSomeSteps(cfg, st, stale, f.value.n);
    } else if CutInRecover(st, stale, gap, orphans, f) {
      StepsConcat(cfg, Place(st, Idle), ResettingTrace(stale, gap), OrphanSomeTrace(orphans, InRedis(m), f.value.n));
      ResettingSteps(cfg, st, stale, gap);
      OrphanSomeSteps(cfg, m, orphans, f.value.n);
    } else {
      PassTraceSteps(cfg, st, stale, gap, orphans);
    }
  }

  /** The code's `reconcile` is a run of the protocol, ending in a crash if an
      exception leaves it, wherever that strikes. */
  lemma ReconcileIsARun(s: State, p: Proc, stale: seq<JobId>, gap: nat, orphans: seq<JobId>, f: Option<PassFault>)
    requires p in s.pcs && s.pcs[p] == Idle && InputsUpTo(s.st, s.cfg, stale, gap, orphans, f)
    ensures var ok := !PassRaises(s.st, stale, gap, orphans, f);
            Exec(s, Lift(p, PassUpToTrace(s.st, stale, gap, orphans, f)) + Exit(p, ok))
            == After(s, p, PassUpTo(s.st, stale, gap, orphans, f), ok)
  {
    var ok := !PassRaises(s.st, stale, gap, orphans, f);
    var t := PassUpToTrace(s.st, stale, gap, orphans, f);
    LiftRuns(s, p, t);
    PassUpToSteps(s.cfg, s.st, stale, gap, orphans, f);
    ExecConcat(s, Lift(p, t), Exit(p, ok));
    ExitRuns(s, p, Steps(s.cfg, Place(s.st, Idle), t), ok);
  }
}
