/** What a client sees by polling GET /jobs/{id} while everything else moves:
    one clock, publishes that are atomic, and no flush.  A poll reads the row and
    then the hash. */
module Polling {
  import opened Store
  import opened Protocol
  import opened LocalRuns
  import opened RowSafety
  import opened Backend

  /** Nothing is stamped later than now. */
  ghost predicate Stamped(s: State) {
    && (forall id :: id in s.st.rows ==> s.st.rows[id].updatedAt <= s.st.now)
    && (forall id :: id in s.st.hash ==> s.st.hash[id].updatedAt <= FloorToSecond(s.st.now))
  }

  lemma FloorFacts(a: int, b: int)
    requires a <= b
    ensures FloorToSecond(a) <= FloorToSecond(b) && a - SECOND < FloorToSecond(a) <= a
  {}

  /** What a step does to the hashes, Flush apart: a hash may be overwritten by
      one stamped with the current second, and none disappears. */
  ghost predicate HashStep(st: Store, st': Store) {
    && (forall id :: id in st.hash ==> id in st'.hash)
    && (forall id :: id in st'.hash ==>
          (id in st.hash && st'.hash[id] == st.hash[id]) || st'.hash[id].updatedAt == FloorToSecond(st.now))
  }

  lemma ApplyHash(s: State, a: Action)
    requires a != Flush
    ensures HashStep(s.st, Apply(s, a).st)
  {
    match a
    case Work(p, w) => if p in s.pcs { HashWorker(s.st, s.pcs[p], w); }
    case Sweep(p, r) => if p in s.pcs { HashReconciler(s.st, s.cfg, s.pcs[p], r); }
    case _ =>
  }

  lemma HashWorker(st: Store, pc: Pc, w: WorkerEvent)
    ensures HashStep(st, WorkerLocal(st, pc, w).0)
  {}

  lemma HashReconciler(st: Store, cfg: Config, pc: Pc, r: ReconcilerEvent)
    ensures HashStep(st, SweepLocal(st, cfg, pc, r).0)
  {}

  lemma StampedStep(s: State, a: Action)
    requires Stamped(s)
    ensures Stamped(Apply(s, a))
  {
    var s' := Apply(s, a);
    ApplyWritesRows(s, a);
    FloorFacts(s.st.now, s'.st.now);
    forall id | id in s'.st.rows ensures s'.st.rows[id].updatedAt <= s'.st.now {
      if id in s.st.rows { assert RowStep(id, s.st.rows[id], s'.st.rows[id], s.st.now); }
    }
    if a != Flush { ApplyHash(s, a); }
  }

  lemma {:induction false} StampedKept(s: State, acts: seq<Action>)
    requires Stamped(s)
    ensures Stamped(Exec(s, acts))
    decreases |acts|
  {
    if acts != [] {
      StampedStep(s, acts[0]);
      StampedKept(Apply(s, acts[0]), acts[1..]);
    }
  }

  /** A row is as it was, or carries a stamp no older than the moment it was looked at. */
  lemma {:induction false} RowAges(s: State, acts: seq<Action>, id: JobId)
    ensures var e := Exec(s, acts);
            && s.st.now <= e.st.now
            && (id in s.st.rows ==> id in e.st.rows)
            && (id in e.st.rows ==>
                  (id in s.st.rows && e.st.rows[id] == s.st.rows[id]) || e.st.rows[id].updatedAt >= s.st.now)
    decreases |acts|
  {
    if acts != [] {
      var s' := Apply(s, acts[0]);
      ApplyWritesRows(s, acts[0]);
      if id in s.st.rows { assert RowStep(id, s.st.rows[id], s'.st.rows[id], s.st.now); }
      RowAges(s', acts[1..], id);
    }
  }

  lemma {:induction false} HashAges(s: State, acts: seq<Action>, id: JobId)
    requires Flush !in acts && id in s.st.hash && Stamped(s)
    ensures var e := Exec(s, acts); id in e.st.hash && s.st.hash[id].updatedAt <= e.st.hash[id].updatedAt
    decreases |acts|
  {
    if acts != [] {
      ApplyHash(s, acts[0]);
      StampedStep(s, acts[0]);
      HashAges(Apply(s, acts[0]), acts[1..], id);
    }
  }

  /** A later row is no older, nor older than the moment of the earlier one if it differs. */
  lemma RowNoOlder(s: State, acts: seq<Action>, id: JobId)
    requires Stamped(s) && id in s.st.rows
    ensures id in Exec(s, acts).st.rows && s.st.rows[id].updatedAt <= Exec(s, acts).st.rows[id].updatedAt
  {
    RowAges(s, acts, id);
  }

  /** A terminal write fell between the poll's two reads, and the hash was
      published in a later second. */
  predicate Straddles(row: Row, t: Store, id: JobId) {
    && IsActive(row.status)
    && id in t.rows && Terminal(t.rows[id].status)
    && Visible(t, id) && t.hash[id].updatedAt > t.rows[id].updatedAt
  }

  /** GetJob reads the row first and the hash later.  Whatever runs between the
      reads of a poll, and between two polls, updated_at goes back from the first
      poll to the second exactly when a terminal write falls between the first
      poll's reads and the hash it then reads carries a later second. */
  lemma PollsGoBackExactly(s: State, d1: seq<Action>, gap: seq<Action>, d2: seq<Action>, id: JobId)
    requires Stamped(s) && id in s.st.rows
    requires Flush !in d1 && Flush !in gap && Flush !in d2
    requires var t := Exec(s, d1);
             var v := Exec(Exec(t, gap), d2);
             Visible(t.st, id) ==> Visible(v.st, id)
    ensures var t := Exec(s, d1);
            var u := Exec(t, gap);
            var v := Exec(u, d2);
            id in u.st.rows &&
            (Answer(s.st.rows[id], t.st, id).updatedAt <= Answer(u.st.rows[id], v.st, id).updatedAt
             <==> !Straddles(s.st.rows[id], t.st, id))
  {
    var t := Exec(s, d1);
    var u := Exec(t, gap);
    StampedKept(s, d1);
    StampedKept(t, gap);
    RowNoOlder(s, d1, id);
    RowNoOlder(t, gap, id);
    if Terminal(t.st.rows[id].status) {
      TerminalIsFinal(t, gap, id);
      if Terminal(s.st.rows[id].status) { TerminalIsFinal(s, d1, id); }
    } else {
      ActiveAtHashRead(s, d1, gap, d2, id);
    }
  }

  /** If the row is still active when the first poll reads the hash, nothing goes back. */
  lemma ActiveAtHashRead(s: State, d1: seq<Action>, gap: seq<Action>, d2: seq<Action>, id: JobId)
    requires Stamped(s) && id in s.st.rows
    requires Flush !in d1 && Flush !in gap && Flush !in d2
    requires var t := Exec(s, d1);
             var v := Exec(Exec(t, gap), d2);
             && id in t.st.rows && !Terminal(t.st.rows[id].status)
             && (Visible(t.st, id) ==> Visible(v.st, id))
    ensures var t := Exec(s, d1);
            var u := Exec(t, gap);
            id in u.st.rows &&
            Answer(s.st.rows[id], t.st, id).updatedAt <= Answer(u.st.rows[id], Exec(u, d2).st, id).updatedAt
  {
    var t := Exec(s, d1);
    var u := Exec(t, gap);
    StampedKept(s, d1);
    StampedKept(t, gap);
    RowNoOlder(s, d1, id);
    RowNoOlder(t, gap, id);
    FloorFacts(t.st.now, t.st.now);
    RowAges(t, gap, id);
    if id in t.st.hash {
      HashAges(t, gap, id);
      HashAges(u, d2, id);
    }
  }

  /** Polls that nothing interrupts never go back, in any run without a flush, if
      the hash, once visible, has not expired by the second poll. */
  lemma PollsNeverGoBack(cfg: Config, now: int, before: seq<Action>, between: seq<Action>, id: JobId)
    requires Flush !in between
    requires var s := Exec(Init(cfg, now), before);
             id in s.st.rows && (Visible(s.st, id) ==> Visible(Exec(s, between).st, id))
    ensures var s := Exec(Init(cfg, now), before);
            var e := Exec(s, between);
            id in e.st.rows && View(s.st, id).updatedAt <= View(e.st, id).updatedAt
  {
    var s := Exec(Init(cfg, now), before);
    StampedKept(Init(cfg, now), before);
    PollsGoBackExactly(s, [], between, [], id);
  }

  /** A worker writes its result, and publishes it a second later. */
  function SlowFinish(): seq<LocalAct> {
    [Do(CompleteOk), Wait(SECOND), Do(ResultPublished)]
  }

  lemma SlowFinishSteps(cfg: Config, st: Store, id: JobId)
    ensures Steps(cfg, Place(st, Finished(id)), SlowFinish()).st
            == Publish(Advance(MarkCompleted(st, id, CheckpointPrefix(id)), SECOND), id, Completed, true)
  {
    Steps3(cfg, Place(st, Finished(id)), Do(CompleteOk), Wait(SECOND), Do(ResultPublished));
  }

  /** It happens: a poll reads the row just before a worker completes it, and the
      hash just after the publish. */
  lemma PollCanGoBack(s: State, p: Proc, id: JobId)
    requires p in s.pcs && s.pcs[p] == Finished(id) && Has(s.st, id, Running)
    ensures Straddles(s.st.rows[id], Exec(s, Lift(p, SlowFinish())).st, id)
  {
    LiftRuns(s, p, SlowFinish());
    SlowFinishSteps(s.cfg, s.st, id);
    PublishedLater(s.st, id);
  }

  lemma PublishedLater(st: Store, id: JobId)
    requires Has(st, id, Running)
    ensures Straddles(st.rows[id], Publish(Advance(MarkCompleted(st, id, CheckpointPrefix(id)), SECOND), id, Completed, true), id)
  {
    FloorFacts(st.now + SECOND, st.now + SECOND);
  }

  /** The poll that has read this row lets the hash override it. */
  predicate Overlays(row: Row, st: Store, id: JobId) {
    IsActive(row.status) && Visible(st, id) && st.hash[id].updatedAt > row.updatedAt
  }

  /** Step k of the run published the hash that is there now. */
  ghost predicate StampedAt(s: State, acts: seq<Action>, id: JobId, k: int) {
    && 0 <= k < |acts|
    && id in Exec(s, acts).st.hash
    && Exec(s, acts).st.hash[id].updatedAt == FloorToSecond(Exec(s, acts[..k]).st.now)
  }

  lemma {:induction false} HashWasStamped(s: State, acts: seq<Action>, id: JobId)
    requires id in Exec(s, acts).st.hash && id !in s.st.hash
    ensures exists k :: StampedAt(s, acts, id, k)
    decreases |acts|
  {
    assert acts != [];
    var n := |acts| - 1;
    var b := Exec(s, acts[..n]);
    var e := Exec(s, acts);
    assert acts[..n] + [acts[n]] == acts;
    ExecConcat(s, acts[..n], [acts[n]]);
    ExecOne(b, acts[n]);
    if acts[n] != Flush { ApplyHash(b, acts[n]); }
    if id in b.st.hash && e.st.hash[id] == b.st.hash[id] {
      HashWasStamped(s, acts[..n], id);
      var k :| StampedAt(s, acts[..n], id, k);
      assert acts[..n][..k] == acts[..k];
      assert StampedAt(s, acts, id, k);
    } else {
      assert StampedAt(s, acts, id, n);
    }
  }

  /** The hash was published after the last write of the row that the poll read, and
      if before the poll read it, the row was not written in between. */
  ghost predicate NewerThanRow(i: State, acts: seq<Action>, during: seq<Action>, id: JobId, k: int)
    requires id in Exec(i, acts).st.rows
  {
    var row := Exec(i, acts).st.rows[id];
    && StampedAt(i, acts + during, id, k)
    && var s := Exec(i, (acts + during)[..k]);
       row.updatedAt < s.st.now && (k <= |acts| ==> id in s.st.rows && s.st.rows[id] == row)
  }

  /** Whenever a poll, its row read after `acts` and its hash after `during` more,
      lets the hash override the row, the hash was published at some step of the
      run, strictly after the last write of that row: the cut to whole seconds
      never brings an older status forward. */
  lemma OverlayIsNewer(cfg: Config, now: int, acts: seq<Action>, during: seq<Action>, id: JobId)
    requires id in Exec(Init(cfg, now), acts).st.rows
    requires Overlays(Exec(Init(cfg, now), acts).st.rows[id], Exec(Init(cfg, now), acts + during).st, id)
    ensures exists k :: NewerThanRow(Init(cfg, now), acts, during, id, k)
  {
    var i := Init(cfg, now);
    HashWasStamped(i, acts + during, id);
    var k :| StampedAt(i, acts + during, id, k);
    var s := Exec(i, (acts + during)[..k]);
    FloorFacts(s.st.now, s.st.now);
    if k <= |acts| {
      assert (acts + during)[..k] == acts[..k];
      assert acts[..k] + acts[k..] == acts;
      ExecConcat(i, acts[..k], acts[k..]);
      RowAges(s, acts[k..], id);
    }
    assert NewerThanRow(i, acts, during, id, k);
  }

  /** Once the row is terminal every later poll answers with that row, whatever the
      hash says and whenever it is read. */
  lemma TerminalPollsAgree(s: State, acts: seq<Action>, during: seq<Action>, id: JobId)
    requires id in s.st.rows && Terminal(s.st.rows[id].status)
    ensures var u := Exec(s, acts);
            id in u.st.rows && Answer(u.st.rows[id], Exec(u, during).st, id) == s.st.rows[id]
  {
    TerminalIsFinal(s, acts, id);
  }
}
