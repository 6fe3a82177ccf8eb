/** One claimed entry, from claim to ack: what a call of JobProcessor.process that
    nobody interferes with does to the store, and how it leaves its job, with the
    executor and the failing statements as a script of what the environment does. */
module Processor {
  import opened Wrappers
  import opened Store
  import opened Validation
  import opened ObjectStore
  import opened Clients
  import opened Protocol

  // -------------------------------------------------------- scripts

  /** What happens inside the executor: which stage raises (its own heartbeat
      included), how long passes before each heartbeat that goes through, and
      after which delay, if any, a stage ends in a heartbeat whose row write landed
      while its publish did not. */
  datatype ExecScript = ExecScript(
    cacheTime: nat, cacheError: Option<string>,
    downloadTime: nat, downloadError: Option<string>,
    trainBeats: seq<nat>, trainError: Option<string>,
    torn: Option<nat>,
    output: seq<File>, uploadFault: Option<nat>)

  /** Which infrastructure calls of one `process` raise, in the order they are made. */
  datatype Script = Script(
    getError: Option<string>,
    mark: Option<Fault>, announce: Option<Fault>, metaError: Option<string>,
    exec: ExecScript,
    complete: Option<Fault>, result: Option<Fault>,
    fail: Option<Fault>, failResult: Option<Fault>,
    ack: Option<Fault>)

  /** The delays before the executor's heartbeats: one after the cache, one
      after the download, then the trainer's own. */
  function Beats(x: ExecScript): seq<nat> {
    if x.cacheError.Some? then []
    else if x.downloadError.Some? then [x.cacheTime]
    else [x.cacheTime, x.downloadTime] + x.trainBeats
  }

  /** A stage before the upload raised. */
  predicate StageFails(x: ExecScript) {
    x.cacheError.Some? || x.downloadError.Some? || x.trainError.Some?
  }

  /** The exception that leaves the executor, if one does. */
  function ExecError(x: ExecScript, id: JobId): Option<string> {
    if x.cacheError.Some? then x.cacheError
    else if x.downloadError.Some? then x.downloadError
    else if x.trainError.Some? then x.trainError
    else UploadError(id, x.output, x.uploadFault)
  }

  // -------------------------------------------------------- effects

  function Beat(st: Store, id: JobId, d: nat): Store {
    Publish(Heartbeat(Advance(st, d), id), id, Running, false)
  }

  function BeatAll(st: Store, id: JobId, ds: seq<nat>): Store {
    if ds == [] then st else Beat(BeatAll(st, id, ds[..|ds| - 1]), id, ds[|ds| - 1])
  }

  function Tear(st: Store, id: JobId, torn: Option<nat>): Store {
    if torn.Some? then Heartbeat(Advance(st, torn.value), id) else st
  }

  /** The executor's effect on the store. */
  function Executed(st: Store, id: JobId, x: ExecScript): Store {
    Tear(BeatAll(st, id, Beats(x)), id, if StageFails(x) then x.torn else None)
  }

  /** How _run ends: normally, or with the exception that `process` hands to _fail. */
  datatype Ending = Done | Raised(why: Reason)

  function Failure(text: string): Ending {
    Raised(WorkerError(text))
  }

  /** The checks between the running publish and the executor, in order. */
  function Checks(models: seq<Model>, row: Row, x: Script): Option<Reason> {
    if ValidateFormat(row.datasetPath).Ok? && x.metaError.Some? then Some(WorkerError(x.metaError.value))
    else Refusal(models, row)
  }

  /** _run, as far as its effect on the store and how it ends. */
  function Run(st: Store, models: seq<Model>, id: JobId, row: Row, x: Script): (Store, Ending) {
    var marked := Attempt(x.mark, st, MarkRunning(st, id));
    if x.mark.Some? then (marked, Failure(x.mark.value.text))
    else
      var announced := Attempt(x.announce, marked, Publish(marked, id, Running, false));
      if x.announce.Some? then (announced, Failure(x.announce.value.text))
      else RunAnnounced(announced, models, id, row, x)
  }

  function RunAnnounced(st: Store, models: seq<Model>, id: JobId, row: Row, x: Script): (Store, Ending) {
    RunChecked(st, id, Checks(models, row, x), x)
  }

  function RunChecked(st: Store, id: JobId, refusal: Option<Reason>, x: Script): (Store, Ending) {
    match refusal
    case Some(why) => (st, Raised(why))
    case None => RunExecuted(Executed(st, id, x.exec), id, x)
  }

  function RunExecuted(st: Store, id: JobId, x: Script): (Store, Ending) {
    if ExecError(x.exec, id).Some? then (st, Failure(ExecError(x.exec, id).value))
    else
      var completed := Attempt(x.complete, st, MarkCompleted(st, id, CheckpointPrefix(id)));
      if x.complete.Some? then (completed, Failure(x.complete.value.text))
      else
        (Attempt(x.result, completed, Publish(completed, id, Completed, true)),
         if x.result.Some? then Failure(x.result.value.text) else Done)
  }

  /** _fail up to the ack, and whether it gets there. */
  function Fail(st: Store, id: JobId, why: Reason, x: Script): (Store, bool) {
    var failed := Attempt(x.fail, st, MarkFailed(st, id, why));
    if x.fail.Some? then (failed, false)
    else (Attempt(x.failResult, failed, Publish(failed, id, Failed, true)), x.failResult.None?)
  }

  /** The entry names a job that may still run. */
  predicate Runnable(st: Store, e: Entry) {
    e.JobRef? && e.id in st.rows && !Terminal(st.rows[e.id].status)
  }

  /** process up to the ack, and whether it gets there. */
  function Handle(st: Store, models: seq<Model>, e: Entry, x: Script): (Store, bool) {
    if e.Junk? then (st, true)
    else if x.getError.Some? then (st, false)
    else if !Runnable(st, e) then (st, true)
    else
      var r := Run(st, models, e.id, st.rows[e.id], x);
      if r.1.Done? then (r.0, true) else Fail(r.0, e.id, r.1.why, x)
  }

  function Process(st: Store, models: seq<Model>, e: Entry, x: Script): Store {
    var h := Handle(st, models, e, x);
    if h.1 then Attempt(x.ack, h.0, Ack(h.0, e)) else h.0
  }

  /** `process` returns; otherwise an exception leaves it, and with it the worker's loop. */
  predicate Returns(st: Store, models: seq<Model>, e: Entry, x: Script) {
    Handle(st, models, e, x).1 && x.ack.None?
  }

  /** The ack takes effect. */
  predicate Acked(st: Store, models: seq<Model>, e: Entry, x: Script) {
    Handle(st, models, e, x).1 && Takes(x.ack)
  }

  // -------------------------------------------------------- outcome

  /** Only the job's own row, its hash and the clock moved. */
  ghost predicate Touches(st: Store, id: JobId, r: Store) {
    && r.queue == st.queue && r.processing == st.processing
    && r.rows.Keys == st.rows.Keys
    && (forall i :: i in st.rows && i != id ==> r.rows[i] == st.rows[i])
    && st.now <= r.now
  }

  /** The row is the same but for its heartbeat. */
  ghost predicate SameButBeat(r: Row, r': Row) {
    r' == r.(updatedAt := r'.updatedAt)
  }

  lemma {:induction false} BeatAllFacts(st: Store, id: JobId, ds: seq<nat>)
    ensures Touches(st, id, BeatAll(st, id, ds))
    ensures id in st.rows ==> SameButBeat(st.rows[id], BeatAll(st, id, ds).rows[id])
    ensures id in st.rows && st.rows[id].status != Running ==> BeatAll(st, id, ds).rows[id] == st.rows[id]
  {
    if ds != [] {
      BeatAllFacts(st, id, ds[..|ds| - 1]);
    }
  }

  lemma ExecutedFacts(st: Store, id: JobId, x: ExecScript)
    ensures Touches(st, id, Executed(st, id, x))
    ensures id in st.rows ==> SameButBeat(st.rows[id], Executed(st, id, x).rows[id])
  {
    BeatAllFacts(st, id, Beats(x));
  }

  /** mark_completed is reached and takes effect. */
  predicate Completes(models: seq<Model>, id: JobId, row: Row, x: Script) {
    && x.getError.None? && x.mark.None? && x.announce.None? && x.metaError.None?
    && Accepts(models, row) && ExecError(x.exec, id).None?
    && Takes(x.complete)
  }

  /** How a run on `row` ends: either its result is in the row, or the row is
      as mark_running left it. */
  ghost predicate RunResult(row: Row, id: JobId, completes: bool, r: Row, e: Ending) {
    && (e.Done? ==> completes)
    && (if completes
        then r == row.(status := Completed, checkpoint := Some(CheckpointPrefix(id)), updatedAt := r.updatedAt)
        else r == row.(status := r.status, updatedAt := r.updatedAt) && !Terminal(r.status))
  }

  lemma RunExecutedFacts(st: Store, id: JobId, x: Script)
    requires Has(st, id, Running)
    ensures var (r, e) := RunExecuted(st, id, x);
            && Touches(st, id, r)
            && RunResult(st.rows[id], id, ExecError(x.exec, id).None? && Takes(x.complete), r.rows[id], e)
            && (r.rows[id].status == Running || r.rows[id].status == Completed)
  {}

  lemma RunAnnouncedFacts(st: Store, models: seq<Model>, id: JobId, row: Row, x: Script)
    requires Has(st, id, Running) && x.getError.None? && x.mark.None? && x.announce.None?
    ensures var (r, e) := RunAnnounced(st, models, id, row, x);
            && Touches(st, id, r)
            && RunResult(st.rows[id], id, Completes(models, id, row, x), r.rows[id], e)
            && (r.rows[id].status == Running || r.rows[id].status == Completed)
  {
    if Checks(models, row, x).None? {
      ExecutedFacts(st, id, x.exec);
      RunExecutedFacts(Executed(st, id, x.exec), id, x);
    }
  }

  lemma RunFacts(st: Store, models: seq<Model>, id: JobId, row: Row, x: Script)
    requires id in st.rows && !Terminal(st.rows[id].status) && x.getError.None?
    ensures var (r, e) := Run(st, models, id, row, x);
            && Touches(st, id, r)
            && RunResult(st.rows[id], id, Completes(models, id, row, x), r.rows[id], e)
            && (r.rows[id].status == Queued <==> st.rows[id].status == Queued && !Takes(x.mark))
  {
    if x.mark.None? && x.announce.None? {
      RunAnnouncedFacts(Publish(MarkRunning(st, id), id, Running, false), models, id, row, x);
    }
  }

  /** How `process` leaves the row of a job that may run, whatever raises. */
  ghost predicate Outcome(was: Row, models: seq<Model>, id: JobId, x: Script, r: Row) {
    && (r.status == Completed <==> Completes(models, id, was, x))
    && (r.status == Queued <==> was.status == Queued && (x.getError.Some? || !Takes(x.mark)))
    && (r.status == Running <==> r.status != Completed && r.status != Queued && (x.getError.Some? || !Takes(x.fail)))
    && r.status != Cancelled
    && (r.status == Completed ==> r.checkpoint == Some(CheckpointPrefix(id)) && r.error == was.error)
    && (r.status == Failed ==> r.error.Some?)
  }

  lemma HandleFacts(st: Store, models: seq<Model>, e: Entry, x: Script)
    requires Runnable(st, e)
    ensures Touches(st, e.id, Handle(st, models, e, x).0)
    ensures Outcome(st.rows[e.id], models, e.id, x, Handle(st, models, e, x).0.rows[e.id])
  {
    if x.getError.None? {
      RunFacts(st, models, e.id, st.rows[e.id], x);
      var r := Run(st, models, e.id, st.rows[e.id], x);
      if r.1.Raised? { FailFacts(r.0, e.id, r.1.why, x); }
    }
  }

  lemma FailFacts(st: Store, id: JobId, why: Reason, x: Script)
    requires id in st.rows
    ensures Touches(st, id, Fail(st, id, why, x).0)
    ensures var r := Fail(st, id, why, x).0.rows[id];
            if st.rows[id].status == Running && Takes(x.fail) then r.status == Failed && r.error == Some(why)
            else r == st.rows[id]
  {}

  /** Whatever raises, an uninterrupted call touches one row and the entry it was
      given: nothing else moves.  If it returns, every copy of the entry has left
      jobs:processing; if an exception leaves it, the list is as it was, unless it
      was the ack itself that took effect and then raised. */
  lemma ProcessFrame(st: Store, models: seq<Model>, e: Entry, x: Script)
    ensures var r := Process(st, models, e, x);
            && r.queue == st.queue
            && r.processing == (if Acked(st, models, e, x) then RemoveAll(st.processing, e) else st.processing)
            && (Returns(st, models, e, x) ==> e !in r.processing)
            && r.rows.Keys == st.rows.Keys
            && (forall id :: id in st.rows && e != JobRef(id) ==> r.rows[id] == st.rows[id])
            && (!Runnable(st, e) ==> r.rows == st.rows)
            && st.now <= r.now
  {
    if Runnable(st, e) { HandleFacts(st, models, e, x); }
  }

  /** When an exception leaves `process`: get_job, the failure write or its publish
      raised where it was reached, or the ack did. */
  lemma EscapesExactly(st: Store, models: seq<Model>, e: Entry, x: Script)
    ensures Returns(st, models, e, x)
            <==> && x.ack.None?
                 && (e.JobRef? ==> x.getError.None?)
                 && ((Runnable(st, e) && Run(st, models, e.id, st.rows[e.id], x).1.Raised?)
                     ==> (x.fail.None? && x.failResult.None?))
  {}

  /** The row after a call, for every job claimed while queued or running and
      whatever raises, before or after taking effect: completed exactly when
      nothing before mark_completed raised, the dataset format is accepted, the
      model is on the allow-list and fits, the executor returned, and mark_completed
      took effect; still queued exactly when it was queued and get_job raised or
      mark_running did without effect; left running exactly when it would have been
      failed but get_job raised or the failure write did without effect; failed
      with a reason in every other case. */
  lemma ProcessOutcome(st: Store, models: seq<Model>, id: JobId, x: Script)
    requires Runnable(st, JobRef(id))
    ensures id in Process(st, models, JobRef(id), x).rows
    ensures Outcome(st.rows[id], models, id, x, Process(st, models, JobRef(id), x).rows[id])
  {
    HandleFacts(st, models, JobRef(id), x);
  }

  /** What a completed job had: every stage of the executor returned, and there was
      output, all of it uploaded. */
  lemma CompletedHasOutput(st: Store, models: seq<Model>, id: JobId, x: Script)
    requires Runnable(st, JobRef(id)) && id in Process(st, models, JobRef(id), x).rows
    ensures Process(st, models, JobRef(id), x).rows[id].status == Completed ==>
              && x.exec.cacheError.None? && x.exec.downloadError.None? && x.exec.trainError.None?
              && x.exec.output != [] && !(x.exec.uploadFault.Some? && x.exec.uploadFault.value < |x.exec.output|)
  {
    ProcessOutcome(st, models, id, x);
  }

  predicate NoFault(x: Script) {
    && x.getError.None? && x.mark.None? && x.announce.None? && x.metaError.None?
    && x.complete.None? && x.result.None? && x.fail.None? && x.failResult.None? && x.ack.None?
  }

  /** Without infrastructure faults the call returns, and the recorded reason is the
      preflight refusal, or else the executor's error. */
  lemma FaultFreeReason(st: Store, models: seq<Model>, id: JobId, x: Script)
    requires Runnable(st, JobRef(id)) && NoFault(x)
    ensures Returns(st, models, JobRef(id), x)
    ensures id in Process(st, models, JobRef(id), x).rows
    ensures var was := st.rows[id];
            var r := Process(st, models, JobRef(id), x).rows[id];
            match Refusal(models, was)
            case Some(why) => r.status == Failed && r.error == Some(why)
            case None =>
              match ExecError(x.exec, id)
              case Some(text) => r.status == Failed && r.error == Some(WorkerError(text))
              case None => r.status == Completed
  {
    RunFacts(st, models, id, st.rows[id], x);
    FaultFreeEnding(st, models, id, x);
  }

  lemma FaultFreeEnding(st: Store, models: seq<Model>, id: JobId, x: Script)
    requires Runnable(st, JobRef(id)) && NoFault(x)
    ensures var (r, e) := Run(st, models, id, st.rows[id], x);
            e == match Refusal(models, st.rows[id])
                 case Some(why) => Raised(why)
                 case None => if ExecError(x.exec, id).Some? then Failure(ExecError(x.exec, id).value) else Done
  {}

  /** The hash says what the row says, as of now, for a day. */
  predicate Announced(st: Store, id: JobId) {
    && id in st.rows && Terminal(st.rows[id].status)
    && id in st.hash && st.hash[id] == Live(st.rows[id].status, FloorToSecond(st.now), Some(st.now + 86_400 * 1_000_000))
  }

  lemma ExecutedIsAnnounced(st: Store, id: JobId, x: Script)
    requires NoFault(x) && Has(st, id, Running) && RunExecuted(st, id, x).1.Done?
    ensures Announced(RunExecuted(st, id, x).0, id)
  {}

  lemma DoneIsAnnounced(st: Store, models: seq<Model>, id: JobId, row: Row, x: Script)
    requires NoFault(x) && Has(st, id, Running) && RunAnnounced(st, models, id, row, x).1.Done?
    ensures Announced(RunAnnounced(st, models, id, row, x).0, id)
  {
    if Checks(models, row, x).None? {
      BeatAllFacts(st, id, Beats(x.exec));
      ExecutedIsAnnounced(Executed(st, id, x.exec), id, x);
    }
  }

  lemma FailureIsAnnounced(st: Store, id: JobId, why: Reason, x: Script)
    requires NoFault(x) && Has(st, id, Running)
    ensures Announced(Fail(st, id, why, x).0, id) && Fail(st, id, why, x).1
  {}

  /** A run without infrastructure faults raises only with the job still running. */
  lemma RaisedIsRunning(st: Store, models: seq<Model>, id: JobId, row: Row, x: Script)
    requires NoFault(x) && Has(st, id, Running) && RunAnnounced(st, models, id, row, x).1.Raised?
    ensures Has(RunAnnounced(st, models, id, row, x).0, id, Running)
  {
    if Checks(models, row, x).None? { BeatAllFacts(st, id, Beats(x.exec)); }
  }

  /** Without infrastructure faults the hash ends with the status of the row, at the
      second the call ended, and expires a day later. */
  lemma ResultIsAnnounced(st: Store, models: seq<Model>, id: JobId, x: Script)
    requires Runnable(st, JobRef(id)) && NoFault(x)
    ensures Announced(Process(st, models, JobRef(id), x), id)
  {
    var row := st.rows[id];
    var started := Publish(MarkRunning(st, id), id, Running, false);
    var (r, e) := RunAnnounced(started, models, id, row, x);
    assert Run(st, models, id, row, x) == (r, e);
    if e.Done? {
      DoneIsAnnounced(started, models, id, row, x);
      assert Process(st, models, JobRef(id), x) == Ack(r, JobRef(id));
    } else {
      RaisedIsRunning(started, models, id, row, x);
      FailureIsAnnounced(r, id, e.why, x);
      assert Process(st, models, JobRef(id), x) == Ack(Fail(r, id, e.why, x).0, JobRef(id));
    }
  }

  /** When mark_running raises without effect on a queued job, _fail's write is
      refused: no row changes, and if the call returns the job is acked and
      announced as failed while its row is still queued. */
  lemma MarkRunningRaises(st: Store, models: seq<Model>, id: JobId, x: Script)
    requires Has(st, id, Queued) && !Takes(x.mark)
    ensures var r := Process(st, models, JobRef(id), x);
            && r.rows == st.rows
            && (Returns(st, models, JobRef(id), x) ==>
                  JobRef(id) !in r.processing && id in r.hash && r.hash[id].status == Failed)
  {}
}
