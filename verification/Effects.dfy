/** What the atomic effects are for: timeouts, stamps, expiry and checkpoint keys,
    each said in other terms than the effect itself. */
module Effects {
  import opened Wrappers
  import opened Store
  import opened ObjectStore
  import opened DatasetLayout
  import opened Processor

  // -------------------------------------------------------- stamps and expiry

  /** The published stamp is the whole second that the moment falls in. */
  lemma FloorExactly(t: int)
    ensures FloorToSecond(t) % 1_000_000 == 0 && FloorToSecond(t) <= t < FloorToSecond(t) + 1_000_000
  {}

  /** A terminal status stays visible for exactly 24 hours. */
  lemma TerminalHashExpires(st: Store, id: JobId, status: Status, d: nat)
    ensures Visible(Advance(Publish(st, id, status, true), d), id) <==> d < 24 * 60 * 60 * 1_000_000
  {}

  /** Any other publish neither extends nor cancels an expiry that is still running. */
  lemma PublishKeepsExpiry(st: Store, id: JobId, status: Status, d: nat)
    requires Visible(st, id)
    ensures Visible(Advance(Publish(st, id, status, false), d), id) <==> Visible(Advance(st, d), id)
  {}

  lemma FlushEmptiesRedis(st: Store, id: JobId)
    ensures var r := FlushRedis(st);
            r.queue == [] && r.processing == [] && !Visible(r, id) && r.rows == st.rows && r.now == st.now
  {}

  // -------------------------------------------------------- heartbeats

  /** A heartbeat starts the visibility timeout anew. */
  lemma BeatRestartsTheTimeout(st: Store, id: JobId, d: nat, e: nat, visibility: nat)
    requires Has(st, id, Running)
    ensures id in StaleRunning(Advance(Beat(st, id, d), e), visibility) <==> e > visibility
  {}

  /** And it announces the job as running, at the second of the heartbeat. */
  lemma BeatAnnounces(st: Store, id: JobId, d: nat)
    ensures var r := Beat(st, id, d);
            && r.now == st.now + d && Visible(r, id)
            && r.hash[id].status == Running && r.hash[id].updatedAt == FloorToSecond(st.now + d)
  {}

  function Sum(ds: seq<nat>): nat {
    if ds == [] then 0 else Sum(ds[..|ds| - 1]) + ds[|ds| - 1]
  }

  lemma {:induction false} BeatAllTime(st: Store, id: JobId, ds: seq<nat>)
    ensures BeatAll(st, id, ds).now == st.now + Sum(ds)
  {
    if ds != [] { BeatAllTime(st, id, ds[..|ds| - 1]); }
  }

  lemma {:induction false} SumConcat(a: seq<nat>, b: seq<nat>)
    ensures Sum(a + b) == Sum(a) + Sum(b)
    decreases |b|
  {
    if b == [] {
      assert a + b == a;
    } else {
      assert (a + b)[..|a + b| - 1] == a + b[..|b| - 1];
      SumConcat(a, b[..|b| - 1]);
    }
  }

  /** The executor takes the time of the stages it got through. */
  lemma ExecutorTakesItsTime(st: Store, id: JobId, x: ExecScript)
    ensures Executed(st, id, x).now == st.now
              + (if x.cacheError.Some? then 0
                 else x.cacheTime + (if x.downloadError.Some? then 0 else x.downloadTime + Sum(x.trainBeats)))
              + (if StageFails(x) && x.torn.Some? then x.torn.value else 0)
  {
    BeatAllTime(st, id, Beats(x));
    assert [x.cacheTime][..0] == [] && [x.cacheTime, x.downloadTime][..1] == [x.cacheTime];
    assert Sum([x.cacheTime]) == x.cacheTime;
    assert Sum([x.cacheTime, x.downloadTime]) == x.cacheTime + x.downloadTime;
    SumConcat([x.cacheTime, x.downloadTime], x.trainBeats);
  }

  lemma {:induction false} BeatsKeepFresh(st: Store, id: JobId, ds: seq<nat>, visibility: nat)
    requires Has(st, id, Running) && st.rows[id].updatedAt == st.now
    ensures Has(BeatAll(st, id, ds), id, Running) && BeatAll(st, id, ds).rows[id].updatedAt == BeatAll(st, id, ds).now
  {
    if ds != [] { BeatsKeepFresh(st, id, ds[..|ds| - 1], visibility); }
  }

  /** While the executor runs, its job is never stale, if the cache, the download and
      the gaps between the trainer's heartbeats each keep within the timeout: not
      after any number of heartbeats and any part of the wait for the next. */
  lemma NeverStaleWhileExecuting(st: Store, id: JobId, x: ExecScript, k: nat, e: nat, visibility: nat)
    requires Has(st, id, Running) && st.rows[id].updatedAt == st.now
    requires x.cacheTime <= visibility && x.downloadTime <= visibility && forall d :: d in x.trainBeats ==> d <= visibility
    requires k < |Beats(x)| && e <= Beats(x)[k]
    ensures id !in StaleRunning(Advance(BeatAll(st, id, Beats(x)[..k]), e), visibility)
  {
    BeatsKeepFresh(st, id, Beats(x)[..k], visibility);
    assert k >= 2 ==> Beats(x)[k] == x.trainBeats[k - 2] && x.trainBeats[k - 2] in x.trainBeats;
  }

  // -------------------------------------------------------- checkpoint keys

  lemma {:induction false} DigitsAreNoSlashes(n: nat)
    ensures Digits(n) != [] && '/' !in Digits(n)
  {
    if n >= 10 { DigitsAreNoSlashes(n / 10); }
  }

  lemma {:induction false} DigitsTell(a: nat, b: nat)
    requires Digits(a) == Digits(b)
    ensures a == b
  {
    DigitsAreNoSlashes(a / 10);
    DigitsAreNoSlashes(b / 10);
    var da, db := Digits(a), Digits(b);
    assert da[|da| - 1] == ('0' as int + a % 10) as char && db[|db| - 1] == ('0' as int + b % 10) as char;
    assert a % 10 == b % 10;
    if a >= 10 && b >= 10 {
      assert da[..|da| - 1] == Digits(a / 10) && db[..|db| - 1] == Digits(b / 10);
      DigitsTell(a / 10, b / 10);
    }
  }

  /** No two jobs ever write the same checkpoint object. */
  lemma CheckpointsDoNotCollide(i: JobId, a: string, j: JobId, b: string)
    requires CheckpointPrefix(i) + a == CheckpointPrefix(j) + b
    ensures i == j && a == b
  {
    DigitsAreNoSlashes(i);
    DigitsAreNoSlashes(j);
    assert CheckpointPrefix(i) + a == "checkpoints/" + (Digits(i) + ['/'] + a);
    assert CheckpointPrefix(j) + b == "checkpoints/" + (Digits(j) + ['/'] + b);
    DropHead("checkpoints/", Digits(i) + ['/'] + a, Digits(j) + ['/'] + b);
    SplitAt('/', Digits(i), a, Digits(j), b);
    DigitsTell(i, j);
  }

  /** A job's upload leaves the checkpoints of every other job alone. */
  lemma {:induction false} UploadsDoNotMeet(objects: Objects, i: JobId, files: seq<File>, j: JobId, path: string)
    requires i != j
    ensures var o := PutAll(objects, CheckpointPrefix(i), files);
            var k := CheckpointPrefix(j) + path;
            (k in o <==> k in objects) && (k in objects ==> o[k] == objects[k])
  {
    if files != [] {
      UploadsDoNotMeet(objects, i, files[..|files| - 1], j, path);
      if CheckpointPrefix(i) + files[|files| - 1].path == CheckpointPrefix(j) + path {
        CheckpointsDoNotCollide(i, files[|files| - 1].path, j, path);
      }
    }
  }
}
