/** CachingExecutor and JobProcessor statement by statement, and the run of the
    protocol that one call of `process` is. */
module ProcessorCode {
  import opened Wrappers
  import opened Store
  import Effect = Store
  import opened Validation
  import opened ObjectStore
  import opened Clients
  import opened Protocol
  import opened LocalRuns
  import opened Processor

  // -------------------------------------------------------- the classes

  class CachingExecutor {
    const world: World
    const repo: JobRepository
    const status: StatusPublisher
    const store: CheckpointStore

    constructor (world: World)
      ensures this.world == world && Wired()
    {
      this.world := world;
      this.repo := new JobRepository(world);
      this.status := new StatusPublisher(world);
      this.store := new CheckpointStore(world);
    }

    ghost predicate Wired() {
      repo.world == world && status.world == world && store.world == world
    }

    /** The closure the processor hands to the executor. */
    method BeatAfter(id: JobId, d: nat)
      requires Wired()
      modifies world`rows, world`hash, world`now
      ensures world.St() == Processor.Beat(old(world.St()), id, d)
    {
      world.Wait(d);
      repo.Heartbeat(id);
      status.Publish(id, Running, false);
    }

    method Train(id: JobId, x: ExecScript) returns (error: Option<string>)
      requires Wired()
      modifies world`rows, world`hash, world`now
      ensures world.St() == BeatAll(old(world.St()), id, x.trainBeats)
      ensures error == x.trainError
    {
      for i := 0 to |x.trainBeats|
        invariant world.St() == BeatAll(old(world.St()), id, x.trainBeats[..i])
      {
        BeatAfter(id, x.trainBeats[i]);
        assert x.trainBeats[..i + 1][..i] == x.trainBeats[..i];
      }
      assert x.trainBeats[..|x.trainBeats|] == x.trainBeats;
      return x.trainError;
    }

    /** A heartbeat whose row write landed and whose publish did not. */
    method TornBeat(id: JobId, torn: Option<nat>)
      requires Wired()
      modifies world`rows, world`now
      ensures world.St() == Tear(old(world.St()), id, torn)
    {
      if torn.Some? {
        world.Wait(torn.value);
        repo.Heartbeat(id);
      }
    }

    /** Cache, heartbeat, download, heartbeat, train, upload. */
    method Run(id: JobId, x: ExecScript) returns (r: Result<string, string>)
      requires Wired()
      modifies world`rows, world`hash, world`now, world`objects
      ensures world.St() == Executed(old(world.St()), id, x)
      ensures match ExecError(x, id)
              case None => r == Ok(CheckpointPrefix(id))
              case Some(text) => r == Err(text)
      ensures ExecError(x, id).None? ==> world.objects == PutAll(old(world.objects), CheckpointPrefix(id), x.output)
      ensures StageFails(x) ==> world.objects == old(world.objects)
      ensures !StageFails(x) ==>
                world.objects == PutAll(old(world.objects), CheckpointPrefix(id),
                                        if x.uploadFault.Some? && x.uploadFault.value < |x.output|
                                        then x.output[..x.uploadFault.value] else x.output)
      ensures r.Ok? <==> && x.cacheError.None? && x.downloadError.None? && x.trainError.None?
                         && x.output != [] && !(x.uploadFault.Some? && x.uploadFault.value < |x.output|)
      ensures x.cacheError.Some? ==> r == Err(x.cacheError.value)
      ensures x.cacheError.None? && x.downloadError.Some? ==> r == Err(x.downloadError.value)
      ensures x.cacheError.None? && x.downloadError.None? && x.trainError.Some? ==> r == Err(x.trainError.value)
    {
      if x.cacheError.Some? {
        TornBeat(id, x.torn);
        return Err(x.cacheError.value);
      }
      BeatAfter(id, x.cacheTime);
      assert [x.cacheTime][..0] == [];
      assert world.St() == BeatAll(old(world.St()), id, [x.cacheTime]);
      if x.downloadError.Some? {
        TornBeat(id, x.torn);
        return Err(x.downloadError.value);
      }
      BeatAfter(id, x.downloadTime);
      assert [x.cacheTime, x.downloadTime][..1] == [x.cacheTime];
      assert world.St() == BeatAll(old(world.St()), id, [x.cacheTime, x.downloadTime]);
      var error := Train(id, x);
      BeatAllConcat(old(world.St()), id, [x.cacheTime, x.downloadTime], x.trainBeats);
      if error.Some? {
        TornBeat(id, x.torn);
        return Err(error.value);
      }
      r := store.Upload(id, x.output, x.uploadFault);
    }
  }

  lemma {:induction false} BeatAllConcat(st: Store, id: JobId, a: seq<nat>, b: seq<nat>)
    ensures BeatAll(st, id, a + b) == BeatAll(BeatAll(st, id, a), id, b)
    decreases |b|
  {
    if b == [] {
      assert a + b == a;
    } else {
      assert (a + b)[..|a + b| - 1] == a + b[..|b| - 1];
      BeatAllConcat(st, id, a, b[..|b| - 1]);
    }
  }

  class JobProcessor {
    const world: World
    const repo: JobRepository
    const queue: RedisQueue
    const status: StatusPublisher
    const executor: CachingExecutor

    constructor (world: World)
      ensures this.world == world && Wired()
    {
      this.world := world;
      this.repo := new JobRepository(world);
      this.queue := new RedisQueue(world);
      this.status := new StatusPublisher(world);
      this.executor := new CachingExecutor(world);
    }

    ghost predicate Wired() {
      && repo.world == world && queue.world == world && status.world == world
      && executor.world == world && executor.Wired()
    }

    /** process; `error` is the exception that leaves it, if one does. */
    method Process(e: Entry, x: Script) returns (error: Option<string>)
      requires Wired()
      modifies world
      ensures world.St() == Processor.Process(old(world.St()), world.models, e, x)
      ensures error.None? <==> Returns(old(world.St()), world.models, e, x)
    {
      if e.Junk? {
        error := Ack(e, x);
        return;
      }
      if x.getError.Some? { return x.getError; }
      var job := repo.GetJob(e.id);
      if job.None? {
        error := Ack(e, x);
        return;
      }
      if Terminal(job.value.status) {
        error := Ack(e, x);
        return;
      }
      var ending := Run(e.id, job.value, x);
      if ending.Raised? {
        error := FailJob(e, e.id, ending.why, x);
      } else {
        error := Ack(e, x);
      }
    }

    method Ack(e: Entry, x: Script) returns (error: Option<string>)
      requires Wired()
      modifies world`processing
      ensures world.St() == Attempt(x.ack, old(world.St()), Effect.Ack(old(world.St()), e))
      ensures error.None? <==> x.ack.None?
    {
      if Takes(x.ack) { queue.Ack(e); }
      return if x.ack.Some? then Some(x.ack.value.text) else None;
    }

    /** _run, with the exception that leaves it as a result. */
    method Run(id: JobId, job: Row, x: Script) returns (e: Ending)
      requires Wired()
      modifies world
      ensures (world.St(), e) == Processor.Run(old(world.St()), world.models, id, job, x)
    {
      if Takes(x.mark) { repo.MarkRunning(id); }
      if x.mark.Some? { return Failure(x.mark.value.text); }
      if Takes(x.announce) { status.Publish(id, Running, false); }
      if x.announce.Some? { return Failure(x.announce.value.text); }

      var format := ValidateFormat(job.datasetPath);
      if format.Err? { return Raised(format.error); }

      if x.metaError.Some? { return Failure(x.metaError.value); }
      var model := repo.GetModelMeta(job.baseModel);
      if model.None? { return Raised(NotInAllowList(job.baseModel)); }
      var oversized := CheckModelFits(model.value.paramCount, model.value.vramHint);
      if oversized.Some? { return Raised(oversized.value); }

      var result := executor.Run(id, x.exec);
      if result.Err? { return Failure(result.error); }

      if Takes(x.complete) { repo.MarkCompleted(id, result.value); }
      if x.complete.Some? { return Failure(x.complete.value.text); }
      if Takes(x.result) { status.Publish(id, Completed, true); }
      return if x.result.Some? then Failure(x.result.value.text) else Done;
    }

    /** _fail. */
    method FailJob(e: Entry, id: JobId, why: Reason, x: Script) returns (error: Option<string>)
      requires Wired()
      modifies world`rows, world`hash, world`processing
      ensures var f := Fail(old(world.St()), id, why, x);
              && world.St() == (if f.1 then Attempt(x.ack, f.0, Effect.Ack(f.0, e)) else f.0)
              && (error.None? <==> f.1 && x.ack.None?)
    {
      if Takes(x.fail) { repo.MarkFailed(id, why); }
      if x.fail.Some? { return Some(x.fail.value.text); }
      if Takes(x.failResult) { status.Publish(id, Failed, true); }
      if x.failResult.Some? { return Some(x.failResult.value.text); }
      error := Ack(e, x);
    }
  }

  // -------------------------------------------------------- as a run

  function BeatTrace(ds: seq<nat>): seq<LocalAct> {
    if ds == [] then []
    else BeatTrace(ds[..|ds| - 1]) + [Wait(ds[|ds| - 1]), Do(WorkerEvent.Beat), Do(BeatPublish)]
  }

  function TornTrace(torn: Option<nat>): seq<LocalAct> {
    if torn.Some? then [Wait(torn.value), Do(WorkerEvent.Beat)] else []
  }

  function ExecTrace(x: ExecScript): seq<LocalAct> {
    BeatTrace(Beats(x)) + TornTrace(if StageFails(x) then x.torn else None)
  }

  /** A statement that raises is a step only if it took effect. */
  function Landed(f: Fault, w: WorkerEvent): seq<LocalAct> {
    if f.landed then [Do(w)] else []
  }

  function ExecutedTrace(id: JobId, x: Script): seq<LocalAct> {
    if ExecError(x.exec, id).Some? then [Do(ExecutorRaises(WorkerError(ExecError(x.exec, id).value)))]
    else if x.complete.Some?
    then [Do(ExecutorReturns), Do(CompleteRaises(x.complete.value.landed, WorkerError(x.complete.value.text)))]
    else if x.result.Some?
    then [Do(ExecutorReturns), Do(CompleteOk),
          Do(ResultPublishRaises(x.result.value.landed, WorkerError(x.result.value.text)))]
    else [Do(ExecutorReturns), Do(CompleteOk), Do(ResultPublished)]
  }

  function AnnouncedTrace(models: seq<Model>, id: JobId, row: Row, x: Script): seq<LocalAct> {
    CheckedTrace(id, Checks(models, row, x), x)
  }

  function CheckedTrace(id: JobId, refusal: Option<Reason>, x: Script): seq<LocalAct> {
    match refusal
    case Some(why) => [Do(ExecutorRaises(why))]
    case None => ExecTrace(x.exec) + ExecutedTrace(id, x)
  }

  function RunTrace(models: seq<Model>, id: JobId, row: Row, x: Script): seq<LocalAct> {
    if x.mark.Some? then [Do(MarkRaises(x.mark.value.landed, WorkerError(x.mark.value.text)))]
    else if x.announce.Some?
    then [Do(MarkOk), Do(AnnounceRaises(x.announce.value.landed, WorkerError(x.announce.value.text)))]
    else [Do(MarkOk), Do(AnnounceOk)] + AnnouncedTrace(models, id, row, x)
  }

  function AckTrace(x: Script): seq<LocalAct> {
    if x.ack.Some? then Landed(x.ack.value, AckJob) else [Do(AckJob)]
  }

  /** From where a run ended to where `process` does. */
  function EndTrace(e: Ending, x: Script): seq<LocalAct> {
    if e.Done? then AckTrace(x)
    else if x.fail.Some? then Landed(x.fail.value, FailOk)
    else if x.failResult.Some? then [Do(FailOk)] + Landed(x.failResult.value, ResultPublished)
    else [Do(FailOk), Do(ResultPublished)] + AckTrace(x)
  }

  /** The steps of the protocol that one uninterrupted call of `process` takes. */
  function ProcessTrace(st: Store, models: seq<Model>, e: Entry, x: Script): seq<LocalAct> {
    if e.JobRef? && x.getError.Some? then []
    else if !Runnable(st, e) then [Do(ReadJob)] + AckTrace(x)
    else
      [Do(ReadJob)] + RunTrace(models, e.id, st.rows[e.id], x)
      + EndTrace(Processor.Run(st, models, e.id, st.rows[e.id], x).1, x)
  }

  /** Where a run leaves the worker: about to ack, or in _fail. */
  function Landing(id: JobId, r: (Store, Ending)): Place {
    Place(r.0, match r.1 case Done => Acking(JobRef(id)) case Raised(why) => Failing(id, why))
  }

  lemma {:induction false} BeatTraceSteps(cfg: Config, st: Store, id: JobId, ds: seq<nat>)
    ensures Steps(cfg, Place(st, Executing(id)), BeatTrace(ds)) == Place(BeatAll(st, id, ds), Executing(id))
  {
    if ds != [] {
      var rest := ds[..|ds| - 1];
      var d := ds[|ds| - 1];
      BeatTraceSteps(cfg, st, id, rest);
      StepsConcat(cfg, Place(st, Executing(id)), BeatTrace(rest), [Wait(d), Do(WorkerEvent.Beat), Do(BeatPublish)]);
      Steps3(cfg, Place(BeatAll(st, id, rest), Executing(id)), Wait(d), Do(WorkerEvent.Beat), Do(BeatPublish));
    }
  }

  lemma ExecTraceSteps(cfg: Config, st: Store, id: JobId, x: ExecScript)
    ensures Steps(cfg, Place(st, Executing(id)), ExecTrace(x)) == Place(Executed(st, id, x), Executing(id))
  {
    var torn := if StageFails(x) then x.torn else None;
    var beaten := BeatAll(st, id, Beats(x));
    BeatTraceSteps(cfg, st, id, Beats(x));
    StepsConcat(cfg, Place(st, Executing(id)), BeatTrace(Beats(x)), TornTrace(torn));
    if torn.Some? {
      Steps2(cfg, Place(beaten, Executing(id)), Wait(torn.value), Do(WorkerEvent.Beat));
    }
  }

  lemma CompleteTraceSteps(cfg: Config, st: Store, id: JobId)
    ensures var done := MarkCompleted(st, id, CheckpointPrefix(id));
            Steps(cfg, Place(st, Executing(id)), [Do(ExecutorReturns), Do(CompleteOk)])
            == Place(done, Publishing(id, Completed))
  {
    Steps2(cfg, Place(st, Executing(id)), Do(ExecutorReturns), Do(CompleteOk));
  }

  lemma ResultTraceSteps(cfg: Config, st: Store, id: JobId, w: WorkerEvent)
    ensures var done := MarkCompleted(st, id, CheckpointPrefix(id));
            Steps(cfg, Place(st, Executing(id)), [Do(ExecutorReturns), Do(CompleteOk), Do(w)])
            == Step(cfg, Place(done, Publishing(id, Completed)), Do(w))
  {
    CompleteTraceSteps(cfg, st, id);
    StepsConcat(cfg, Place(st, Executing(id)), [Do(ExecutorReturns), Do(CompleteOk)], [Do(w)]);
    assert [Do(ExecutorReturns), Do(CompleteOk)] + [Do(w)] == [Do(ExecutorReturns), Do(CompleteOk), Do(w)];
    Steps1(cfg, Place(MarkCompleted(st, id, CheckpointPrefix(id)), Publishing(id, Completed)), Do(w));
  }

  lemma FailedWriteSteps(cfg: Config, st: Store, id: JobId, f: Fault)
    ensures Steps(cfg, Place(st, Executing(id)), [Do(ExecutorReturns), Do(CompleteRaises(f.landed, WorkerError(f.text)))])
            == Place(Attempt(Some(f), st, MarkCompleted(st, id, CheckpointPrefix(id))), Failing(id, WorkerError(f.text)))
  {
    Steps2(cfg, Place(st, Executing(id)), Do(ExecutorReturns), Do(CompleteRaises(f.landed, WorkerError(f.text))));
  }

  lemma ExecutedTraceSteps(cfg: Config, st: Store, id: JobId, x: Script)
    ensures Steps(cfg, Place(st, Executing(id)), ExecutedTrace(id, x)) == Landing(id, RunExecuted(st, id, x))
  {
    if ExecError(x.exec, id).Some? {
      Steps1(cfg, Place(st, Executing(id)), Do(ExecutorRaises(WorkerError(ExecError(x.exec, id).value))));
    } else if x.complete.Some? {
      FailedWriteSteps(cfg, st, id, x.complete.value);
    } else if x.result.Some? {
      ResultTraceSteps(cfg, st, id, ResultPublishRaises(x.result.value.landed, WorkerError(x.result.value.text)));
    } else {
      ResultTraceSteps(cfg, st, id, ResultPublished);
    }
  }

  lemma AcceptedTraceSteps(cfg: Config, st: Store, id: JobId, x: Script)
    ensures Steps(cfg, Place(st, Executing(id)), ExecTrace(x.exec) + ExecutedTrace(id, x))
            == Landing(id, RunExecuted(Executed(st, id, x.exec), id, x))
  {
    ExecTraceSteps(cfg, st, id, x.exec);
    StepsConcat(cfg, Place(st, Executing(id)), ExecTrace(x.exec), ExecutedTrace(id, x));
    ExecutedTraceSteps(cfg, Executed(st, id, x.exec), id, x);
  }

  lemma CheckedTraceSteps(cfg: Config, st: Store, id: JobId, refusal: Option<Reason>, x: Script)
    ensures Steps(cfg, Place(st, Executing(id)), CheckedTrace(id, refusal, x)) == Landing(id, RunChecked(st, id, refusal, x))
  {
    match refusal
    case Some(why) => Steps1(cfg, Place(st, Executing(id)), Do(ExecutorRaises(why)));
    case None => AcceptedTraceSteps(cfg, st, id, x);
  }

  lemma AnnouncedTraceSteps(cfg: Config, st: Store, models: seq<Model>, id: JobId, row: Row, x: Script)
    ensures Steps(cfg, Place(st, Executing(id)), AnnouncedTrace(models, id, row, x))
            == Landing(id, RunAnnounced(st, models, id, row, x))
  {
    CheckedTraceSteps(cfg, st, id, Checks(models, row, x), x);
  }

  lemma MarkedThen(cfg: Config, st: Store, id: JobId, t: seq<LocalAct>)
    ensures Steps(cfg, Place(st, Fetched(id)), [Do(MarkOk), Do(AnnounceOk)] + t)
            == Steps(cfg, Place(Publish(MarkRunning(st, id), id, Running, false), Executing(id)), t)
  {
    StepsConcat(cfg, Place(st, Fetched(id)), [Do(MarkOk), Do(AnnounceOk)], t);
    Steps2(cfg, Place(st, Fetched(id)), Do(MarkOk), Do(AnnounceOk));
  }

  lemma RunTraceSteps(cfg: Config, st: Store, models: seq<Model>, id: JobId, row: Row, x: Script)
    ensures Steps(cfg, Place(st, Fetched(id)), RunTrace(models, id, row, x))
            == Landing(id, Processor.Run(st, models, id, row, x))
  {
    var c := Place(st, Fetched(id));
    if x.mark.Some? {
      Steps1(cfg, c, Do(MarkRaises(x.mark.value.landed, WorkerError(x.mark.value.text))));
    } else if x.announce.Some? {
      Steps2(cfg, c, Do(MarkOk), Do(AnnounceRaises(x.announce.value.landed, WorkerError(x.announce.value.text))));
    } else {
      var announced := Publish(MarkRunning(st, id), id, Running, false);
      MarkedThen(cfg, st, id, AnnouncedTrace(models, id, row, x));
      AnnouncedTraceSteps(cfg, announced, models, id, row, x);
    }
  }

  lemma ReadThen(cfg: Config, st: Store, e: Entry, t: seq<LocalAct>, u: seq<LocalAct>)
    requires Runnable(st, e)
    ensures Steps(cfg, Place(st, Claimed(e)), [Do(ReadJob)] + t + u)
            == Steps(cfg, Steps(cfg, Place(st, Fetched(e.id)), t), u)
  {
    StepsConcat(cfg, Place(st, Claimed(e)), [Do(ReadJob)] + t, u);
    StepsConcat(cfg, Place(st, Claimed(e)), [Do(ReadJob)], t);
    Steps1(cfg, Place(st, Claimed(e)), Do(ReadJob));
  }

  lemma AckTraceSteps(cfg: Config, st: Store, e: Entry, x: Script)
    ensures var c := Steps(cfg, Place(st, Acking(e)), AckTrace(x));
            && c.st == Attempt(x.ack, st, Effect.Ack(st, e))
            && (x.ack.None? ==> c.pc == Idle)
  {
    if AckTrace(x) != [] { Steps1(cfg, Place(st, Acking(e)), Do(AckJob)); }
  }

  lemma FailTraceSteps(cfg: Config, st: Store, id: JobId, why: Reason, x: Script)
    requires x.fail.Some? || x.failResult.Some?
    ensures Steps(cfg, Place(st, Failing(id, why)), EndTrace(Raised(why), x)).st == Fail(st, id, why, x).0
  {
    var c := Place(st, Failing(id, why));
    if x.fail.Some? {
      if x.fail.value.landed { Steps1(cfg, c, Do(FailOk)); }
    } else if x.failResult.value.landed {
      assert [Do(FailOk)] + [Do(ResultPublished)] == [Do(FailOk), Do(ResultPublished)];
      Steps2(cfg, c, Do(FailOk), Do(ResultPublished));
    } else {
      assert [Do(FailOk)] + [] == [Do(FailOk)];
      Steps1(cfg, c, Do(FailOk));
    }
  }

  function Ended(r: (Store, Ending), id: JobId, x: Script): (Store, bool) {
    if r.1.Done? then (r.0, true) else Fail(r.0, id, r.1.why, x)
  }

  lemma EndTraceSteps(cfg: Config, id: JobId, r: (Store, Ending), x: Script)
    ensures var c := Steps(cfg, Landing(id, r), EndTrace(r.1, x));
            var h := Ended(r, id, x);
            && c.st == (if h.1 then Attempt(x.ack, h.0, Effect.Ack(h.0, JobRef(id))) else h.0)
            && (h.1 && x.ack.None? ==> c.pc == Idle)
  {
    if r.1.Done? {
      AckTraceSteps(cfg, r.0, JobRef(id), x);
    } else if x.fail.Some? || x.failResult.Some? {
      FailTraceSteps(cfg, r.0, id, r.1.why, x);
    } else {
      StepsConcat(cfg, Landing(id, r), [Do(FailOk), Do(ResultPublished)], AckTrace(x));
      Steps2(cfg, Landing(id, r), Do(FailOk), Do(ResultPublished));
      AckTraceSteps(cfg, Fail(r.0, id, r.1.why, x).0, JobRef(id), x);
    }
  }

  lemma ProcessTraceSteps(cfg: Config, st: Store, models: seq<Model>, e: Entry, x: Script)
    ensures var c := Steps(cfg, Place(st, Claimed(e)), ProcessTrace(st, models, e, x));
            && c.st == Processor.Process(st, models, e, x)
            && (Returns(st, models, e, x) ==> c.pc == Idle)
  {
    if !Runnable(st, e) && (e.JobRef? ==> x.getError.None?) {
      StepsConcat(cfg, Place(st, Claimed(e)), [Do(ReadJob)], AckTrace(x));
      Steps1(cfg, Place(st, Claimed(e)), Do(ReadJob));
      AckTraceSteps(cfg, st, e, x);
    } else if x.getError.None? {
      var row := st.rows[e.id];
      var r := Processor.Run(st, models, e.id, row, x);
      ReadThen(cfg, st, e, RunTrace(models, e.id, row, x), EndTrace(r.1, x));
      RunTraceSteps(cfg, st, models, e.id, row, x);
      EndTraceSteps(cfg, e.id, r, x);
    }
  }

  /** The code's `process`, whatever raises, is a run of the protocol, ending in a
      crash if an exception leaves it: what every interleaving keeps holds of it
      in particular. */
  lemma ProcessIsARun(s: State, p: Proc, models: seq<Model>, e: Entry, x: Script)
    requires p in s.pcs && s.pcs[p] == Claimed(e)
    ensures Exec(s, Lift(p, ProcessTrace(s.st, models, e, x)) + Exit(p, Returns(s.st, models, e, x)))
            == After(s, p, Processor.Process(s.st, models, e, x), Returns(s.st, models, e, x))
  {
    var t := ProcessTrace(s.st, models, e, x);
    var ok := Returns(s.st, models, e, x);
    LiftRuns(s, p, t);
    ProcessTraceSteps(s.cfg, s.st, models, e, x);
    ExecConcat(s, Lift(p, t), Exit(p, ok));
    ExitRuns(s, p, Steps(s.cfg, Place(s.st, Claimed(e)), t), ok);
  }
}
