# The Crucible job protocol, modelled and proved in Dafny

Crucible fine-tunes models for its clients. A Go backend accepts a job, inserts
a row in Postgres and pushes the id on a Redis list; any number of Python
workers claim ids, run the jobs and record the results; a reconciler inside
every worker puts back what crashes and lost messages left behind; a Redis hash
carries a live status that the backend lays over the row when a client polls.
No two of these steps are atomic together. This project models the rows, the
two lists, the hashes and the clock, proves what every interleaving keeps, and
proves the classes of the worker and the backend against the same effects. A
second part does the same for dataset registration: reserve a row, upload,
activate or compensate, and download again in a worker.

Check it with `dafny verify dfyconfig.toml` (Dafny 4.11).

## How it is put together

| module | what it holds |
|---|---|
| `Store` | rows, lists, hashes, clock; the atomic effect of every SQL statement and Redis command |
| `Effects` | what those effects are for: timeouts, stamps, expiry, checkpoint keys |
| `Protocol` | processes, requests and the environment as a step relation; `Exec` runs any sequence of labelled steps, a step that is not enabled being a stutter |
| `Frames`, `RowSafety`, `Stranding`, `Exclusion`, `Heartbeats`, `Races`, `Premises`, `Fifo`, `Polling`, `Reports`, `ReportPremises` | theorems over all runs |
| `Clients`, `ProcessorCode`, `Reconciling`, `WorkerLoop`, `Backend` | the classes, statement by statement, each method tied to an effect on the store; lemmas named `...IsARun` show the effects to be runs of `Protocol` |
| `Processor`, `Recovery` | what a call of `process`, a drain, and rounds of crash and recovery achieve |
| `Paths`, `Validation`, `ObjectStore`, `DatasetLayout`, `DatasetStore`, `Registration`, `RegistrationScript`, `RegistryRoundTrip` | preflight checks and the life of a dataset |

The class `World` stands for the servers and the clock that all clients share.
All times are microseconds on one clock. Infrastructure failures and what
happens inside the executor are parameters (`Script`, `ExecScript`, `LoopTurn`,
`PassFault`, `CreateFaults`, `S3Fault`, `RunFaults`): which statements raise, and
whether they took effect first. The theorems hold for all of them.

`Exclusion.Timely` states the assumptions of mutual exclusion, each at the one
step that relies on it: no flush, no overlapping passes, no holder of a running
job late with its heartbeat when a pass selects stale jobs, no request short of
its push after the grace window when a pass selects orphans.
`Premises.EveryPremiseIsNeeded` shows that none of the four can be dropped, and
`Heartbeats.PunctualIsTimely` draws the third from when each worker last marked
or beat its job. Everything in `RowSafety`, `Stranding` and `Fifo` holds without
any timing assumption.

## Where the code does not do what it says

The model follows the code. These are theorems here.

- The comment on the CreateJob fallback says that the job is marked failed when
  the push fails. `queued` to `failed` is not an allowed transition, so the row
  stays queued (`FailedEnqueueLeavesQueued`); the write takes effect exactly
  when a worker is already running the job (`FallbackFailsOnlyRunning`). The
  reconciler later picks the row up as an orphan.
- A queued row whose id is in jobs:processing is never re-enqueued. A crash
  between claim and `mark_running` makes one (`CrashAfterClaimStrands`), a pass
  that dies between a reset and its requeue another (`CrashAfterResetStrands`);
  `CrashStrandsExactly` is the condition. No later pass recovers such a job
  (`AbandonedForGood`); `ExactRecovery` says that these are exactly the jobs
  recovery misses.
- A cancelled job can still be executed, if the cancel falls between `get_job`
  and `mark_running` (`CancelledJobStillExecutes`). Its result is refused.
  `StillExecuteExactly` says who can: the workers that had read it before.
- A poll can report a terminal status for an active row. When `mark_running`
  raises, the job is acked and published as failed while its row stays queued
  (`MarkRunningRaises`); a worker late with its heartbeat publishes completed
  for a job that was reset under it (`LateWorkerMisreports`).
  `ProcessMisreportsExactly` and `PublishMisreportsExactly` say exactly when one
  call and one publish do it, and `TerminalAnswersAreTrue` that in timely runs
  without such a `mark_running` it does not happen; none of these premises can be
  dropped (`EveryReportPremiseIsNeeded`).
- GetJob reads the row and then the hash. If the job ends between the two reads,
  the answer can carry a later updated_at than every poll after it
  (`PollCanGoBack`); `PollsGoBackExactly` shows that this is the only way.
- `requeue` is described as adding the job exactly once. It does so exactly when
  the id is not in jobs:queue already (`RequeueAddsOnceExactly`); two overlapping
  passes push it twice (`OverlappingPassesPushTwice`).
- A single file without a suffix is uploaded under a key that the worker takes
  for a prefix, and an empty directory is registered but cannot be downloaded
  (`FileRoundTrip`, `DirectoryRoundTrip`).
- The directory checksum promises to tell layouts of the same contents apart, but
  its feed has no separators (`DirectoryVersionsCanCoincide`). Equal feeds come
  from equal directories exactly when the listings have the same shape
  (`EqualFeedsExactly`), and that is when the content addressing assumed by the
  registration theorems holds for directories
  (`DirectoriesAreContentAddressedExactly`).
- `reserve_dataset_row` speaks of removing a pending row; it removes any row
  that is not ready. A run whose row is removed this way by a second run still
  returns its id (`OvertakenRunReturnsDeadId`, `OvertakenRunStillReturns`);
  `ReturnedIdIsReadyExactly` says that nothing else makes a returned id bad.
- Its comment also says that the same name and version mean the exact same
  content. The bytes are the same, the suffix or the kind need not be: the second
  caller is given the row of the first and uploads nothing (`SameFormExactly`);
  `PrintedIdDeliversExactly` says when the download is the caller's dataset.

## Model

| member | source | states |
|---|---|---|
| `RowSafety.ApplyWritesRows` | ml-platform/worker/crucible_worker/db.py:98-131 | In any state, any step of any process leaves every existing row as it was or makes one of seven writes (start, heartbeat, complete, fail with a reason, reset, cancel, create), stamped with the current time; rows never disappear |
| `RowSafety.TerminalIsFinal` | ml-platform/backend/internal/db/jobs.go:65-70 | From any state, over every run, a completed, failed or cancelled row is never written again |
| `RowSafety.StatusWritesAreLegal` | ml-platform/backend/internal/db/jobs.go:282-293 | Every status change of every run, by either language, is an entry of `validTransitions`, the creation of a queued row, or the reset from running to queued |
| `RowSafety.TransitionsExactly` | ml-platform/backend/internal/db/jobs.go:65-70 | The five allowed transitions, and no other |
| `RowSafety.CreatedRowKeepsItsInput` | ml-platform/backend/internal/db/jobs.go:114-132 | Over every run the row of a job keeps the base model, the dataset path and the creation time that its CreateJob gave it |
| `RowSafety.MovesBalance` | ml-platform/worker/crucible_worker/db.py:98-131 | Conservation over any run from any state: starts, resets and terminal writes of a job add up with whether it is running, completed, failed or cancelled before and after |
| `RowSafety.TerminalWrittenOnce` | ml-platform/worker/crucible_worker/db.py:112-124 | From the empty system, any run makes exactly one terminal write to a job that ends terminal and none to one that does not |
| `RowSafety.StartsBalanceResets` | ml-platform/worker/crucible_worker/db.py:98-103 | In every reachable state starts minus resets is 0 while queued, 1 while running and for each completed or failed job, and for a cancelled job 1 exactly when the cancel found it running |
| `RowSafety.ResultCoupling` | ml-platform/worker/crucible_worker/db.py:112-124 | In every reachable state checkpoint_path is set exactly on completed rows, and is `checkpoints/{id}/`; error_message is set exactly on failed rows, also those failed by the backend |
| `RowSafety.CancelIsAuthoritative` | ml-platform/backend/internal/handler/jobs.go:168-190 | A successful cancel in any reachable state: in every continuation the row stays as the cancel wrote it, with no result columns, and only workers that had already read the job can still reach the executor with it |
| `RowSafety.NoNewReadersEver` | ml-platform/worker/crucible_worker/processor.py:60-70 | Over any run, no worker whose `get_job` comes after the row became terminal gets past the status check |
| `RowSafety.CancelledJobStillExecutes` | ml-platform/worker/crucible_worker/processor.py:82-101 | `mark_running` does not report a refused write: a job cancelled between `get_job` and `mark_running` goes on to the executor, and its result is refused |
| `RowSafety.RefusedResult` | ml-platform/worker/crucible_worker/db.py:112-117 | `mark_completed` on a job cancelled while it executed changes no row |
| `RowSafety.ReaderReachesExecutor` | ml-platform/worker/crucible_worker/processor.py:82-99 | From every place between `get_job` and the executor, a worker can go on to execute the job, whatever has become of the row |
| `RowSafety.StillExecuteExactly` | ml-platform/worker/crucible_worker/processor.py:60-99 | Who can still be found executing a job whose row is terminal, in some continuation: exactly the workers that had read it while it was active |
| `Stranding.KnownStep` | ml-platform/backend/internal/handler/jobs.go:58-67 | Every step keeps: each job id in Redis, in a pending request or in a process has a row |
| `Stranding.StrandedStep` | ml-platform/worker/crucible_worker/reconciler.py:66-77 | One step strands at most the jobs that a crashing process was attending; no other step of worker, reconciler, backend, clock or flush strands a job |
| `Stranding.AtMostOneCasualty` | ml-platform/worker/crucible_worker/processor.py:52-80 | A crash strands at most one job, since a process attends one job at a time |
| `Stranding.StrandedGrowth` | ml-platform/worker/crucible_worker/processor.py:52-109 | From any well-formed state, k crashes of live processes add at most k stranded jobs |
| `Stranding.StrandingBound` | ml-platform/worker/crucible_worker/processor.py:52-109 | From the empty system, whatever the interleaving and timing, after k crashes at most k jobs are stranded |
| `Stranding.CrashAfterClaimStrands` | ml-platform/worker/crucible_worker/redis_queue.py:26-34 | The bound is reached: a crash between claim and `mark_running` strands the job |
| `Stranding.CrashAfterResetStrands` | ml-platform/worker/crucible_worker/reconciler.py:60-63 | So does a crash of a pass between `reset_to_queued` and `requeue` |
| `Stranding.CrashStrandsExactly` | ml-platform/worker/crucible_worker/processor.py:52-109 | A job not stranded before a crash is stranded after it if and only if it is queued, its id is in jobs:processing, and no other process attends it |
| `Stranding.AbandonedStep` | ml-platform/worker/crucible_worker/reconciler.py:71-76 | An unattended queued job with an in-flight entry and no pending push stays so under every step but a flush or its own cancel |
| `Stranding.AbandonmentEndsExactly` | ml-platform/worker/crucible_worker/reconciler.py:71-76 | One step ends that state of a job if and only if it is a flush or the cancel of the job |
| `Stranding.AbandonedForGood` | ml-platform/worker/crucible_worker/reconciler.py:71-76 | Over any run without a flush or its cancel such a job is never recovered, however many passes run: the in-flight entry is taken as a sign of life |
| `Exclusion.InvStep` | ml-platform/worker/crucible_worker/reconciler.py:58-77 | Under the timing assumptions every step keeps the invariant: running implies not queued in Redis and no pending push; a live holder implies an in-flight entry; what a pass is about to push nobody holds or will push |
| `Exclusion.InvKept` | ml-platform/worker/crucible_worker/reconciler.py:58-77 | The invariant holds along every timely run |
| `Exclusion.GoodReadProcessing` | ml-platform/worker/crucible_worker/reconciler.py:71-71 | When the second list has been read, an id in neither snapshot has no live holder |
| `Exclusion.GoodMeansOneToken` | ml-platform/worker/crucible_worker/redis_queue.py:40-50 | The invariant bounds the pending push, the queue entries and the live holders of a job to one in all |
| `Exclusion.MutualExclusion` | ml-platform/worker/crucible_worker/reconciler.py:58-77 | Any number of workers, any timely run from the empty system: pending enqueues plus entries in jobs:queue plus live workers holding the job is at most one |
| `Heartbeats.BeatenStep` | ml-platform/worker/crucible_worker/db.py:98-110 | Every step keeps: a running job in the hands of a live worker is stamped no earlier than the last mark or heartbeat of that worker, and a job claimed and not yet marked is not running |
| `Heartbeats.PunctualIsTimely` | ml-platform/worker/crucible_worker/processor.py:95-97 | A run in which every worker with a job in hand has marked or beat it within the visibility timeout whenever a pass selects stale jobs meets the heartbeat premise of mutual exclusion at every step |
| `Heartbeats.PunctualWorkersExclude` | ml-platform/worker/crucible_worker/reconciler.py:58-77 | So workers that beat in time exclude each other: at most one pending push, queue entry or live holder per job |
| `Races.TwoReadsSeeEveryClaim` | ml-platform/worker/crucible_worker/reconciler.py:71-76 | Because jobs:queue is read before jobs:processing, an id in Redis at the first read that is not taken off jobs:processing in between is in the combined snapshot, whatever other steps run between the reads, and this pass does not push it |
| `Races.ReversedReadsMissAClaim` | ml-platform/worker/crucible_worker/reconciler.py:71-71 | With the reads in the other order a claim between them hides the id from both |
| `Races.OverlappingPassesPushTwice` | ml-platform/worker/crucible_worker/reconciler.py:66-77 | Two overlapping passes push the same orphan twice |
| `Races.RequeueAddsOnceExactly` | ml-platform/worker/crucible_worker/redis_queue.py:40-50 | `requeue` leaves its id exactly once in jobs:queue if and only if it was not there before; jobs:processing is always cleared of it |
| `Races.FlushPushesTwice` | ml-platform/worker/crucible_worker/reconciler.py:71-76 | After a flush a pass pushes a queued job that a live worker holds |
| `Races.LateHeartbeatPushesTwice` | ml-platform/worker/crucible_worker/reconciler.py:58-64 | A pass pushes the job of a live worker that is late with its heartbeat |
| `Races.LatePushPushesTwice` | ml-platform/backend/internal/handler/jobs.go:58-67 | A request that has not pushed within the grace window will push what a pass has pushed already |
| `Premises.TimelyMeetsAll` | ml-platform/worker/crucible_worker/reconciler.py:58-77 | The timely runs are those that meet the four premises at every step |
| `Premises.EveryPremiseIsNeeded` | ml-platform/worker/crucible_worker/reconciler.py:58-77 | For any timeouts and each of the four premises of mutual exclusion there is a run from the empty system that meets the other three at every step and puts a job in two hands |
| `Fifo.StepOfIsRight` | ml-platform/worker/crucible_worker/redis_queue.py:26-50 | Every step but a flush changes jobs:queue by nothing, one push on the left, one pop on the right, or the removal of one id |
| `Fifo.LedgerTracksQueue` | ml-platform/backend/internal/queue/redis.go:44-52 | The abstract FIFO that replays those pushes, pops and removals holds, after any flush-free run, what jobs:queue holds |
| `Fifo.LedgerIsOrderly` | ml-platform/worker/crucible_worker/redis_queue.py:26-34 | Order and accounting of the abstract FIFO are kept along any run from any orderly ledger |
| `Fifo.QueueIsFifoWithRemovals` | ml-platform/worker/crucible_worker/redis_queue.py:26-50 | Over every flush-free run, claims followed by the reversed jobs:queue are a subsequence of the pushes in push order, and the missing pushes are, with multiplicity, those a cancelling Dequeue removed |
| `Fifo.NoRemovalsIsExact` | ml-platform/backend/internal/queue/redis.go:79-89 | Without a Dequeue, claims followed by the reversed queue are exactly the pushes |
| `LocalRuns.LiftRuns` | ml-platform/worker/crucible_worker/main.py:52-63 | What one process does alone, with the clock, is a run of the whole system and leaves all other processes and requests as they were |
| `ProcessorCode.ProcessIsARun` | ml-platform/worker/crucible_worker/processor.py:52-80 | One call of `process`, whichever statements raise, before or after taking effect, is one explicit run of the protocol from its claim back to idle, or to a crash if an exception leaves the call |
| `Reconciling.ReconcileIsARun` | ml-platform/worker/crucible_worker/reconciler.py:47-77 | The effect of one call of `reconcile`, wherever an exception cuts it, is that of one explicit run of the protocol, ending in a crash if it is cut |
| `WorkerLoop.LoopIsARun` | ml-platform/worker/crucible_worker/main.py:52-63 | A worker, from its first pass through any number of turns, up to the exception of a claim, a job or a pass that ends it if there is one, is a run of the protocol |
| `Backend.CreateJobIsARun` | ml-platform/backend/internal/handler/jobs.go:46-83 | A CreateJob request, whichever of its INSERT, push and fallback write raise, before or after taking effect, is a run of the protocol |
| `Backend.CancelJobIsARun` | ml-platform/backend/internal/handler/jobs.go:168-190 | A cancel of an active job, whichever of its Update and Dequeue raise, is a run of the protocol |
| `Processor.ProcessFrame` | ml-platform/worker/crucible_worker/processor.py:52-109 | Whichever statements raise, an uninterrupted `process` leaves jobs:queue alone and changes at most the row of the job it names, and none if that is missing, malformed or terminal; every occurrence of its entry leaves jobs:processing if the ack takes effect, in particular if the call returns, and otherwise the list is as it was |
| `Processor.ProcessOutcome` | ml-platform/worker/crucible_worker/processor.py:52-109 | The row after `process` on a queued or running job, whichever statements raise: completed if and only if nothing before `mark_completed` raised, the format is accepted, the model is allowed and fits, the executor returned and `mark_completed` took effect; queued if and only if it was and `get_job`, or `mark_running` without effect, raised; running if and only if it is neither and `get_job`, or the failure write without effect, raised; otherwise failed with a reason |
| `Processor.CompletedHasOutput` | ml-platform/worker/crucible_worker/checkpoint_store.py:54-71 | A job that `process` leaves completed had every stage of the executor return and a non-empty output, all of it uploaded |
| `Processor.EscapesExactly` | ml-platform/worker/crucible_worker/processor.py:72-80 | An exception leaves `process` exactly when `get_job` raises, the ack raises, or the failure write or its publish raises after a run that raised |
| `Processor.HandleFacts` | ml-platform/worker/crucible_worker/processor.py:60-109 | The same up to the ack: one row, its hash and the clock move, and the row ends as the outcome says |
| `Processor.RunFacts` | ml-platform/worker/crucible_worker/processor.py:82-103 | `_run` ends normally only with the result in the row; if it raises, at whatever statement, before or after taking effect, the row holds the result already or is as `mark_running` and the heartbeats left it |
| `Processor.FaultFreeReason` | ml-platform/worker/crucible_worker/processor.py:72-93 | Without infrastructure faults the call returns, and the recorded reason is the preflight refusal, else the executor error; with neither the job is completed |
| `Processor.ResultIsAnnounced` | ml-platform/worker/crucible_worker/processor.py:101-109 | Without infrastructure faults the job ends terminal and the hash says exactly its status, at the second the call ended, expiring 24 hours later |
| `Processor.MarkRunningRaises` | ml-platform/worker/crucible_worker/processor.py:105-109 | If `mark_running` raises without effect on a queued job, no row changes, and if the call returns the id is acked and published as failed |
| `ProcessorCode.CachingExecutor.BeatAfter` | ml-platform/worker/crucible_worker/processor.py:95-97 | The heartbeat closure has the effect of one heartbeat write and one running publish at that time; `Effects.BeatRestartsTheTimeout` and `Effects.BeatAnnounces` say what that achieves |
| `Effects.BeatRestartsTheTimeout` | ml-platform/worker/crucible_worker/db.py:105-110 | After a heartbeat of a running job it is selected as stale exactly when more than the visibility timeout has passed since |
| `Effects.BeatAnnounces` | ml-platform/worker/crucible_worker/processor.py:95-97 | After a heartbeat the hash says running, at the second of the heartbeat, and is visible |
| `Effects.NeverStaleWhileExecuting` | ml-platform/worker/crucible_worker/executor.py:93-107 | If the cache, the download and the gaps between the heartbeats of the trainer each keep within the visibility timeout, the job is stale at no moment up to the last heartbeat |
| `Effects.ExecutorTakesItsTime` | ml-platform/worker/crucible_worker/executor.py:93-107 | The executor takes exactly the time of the stages it got through |
| `ProcessorCode.CachingExecutor.Train` | ml-platform/worker/crucible_worker/executor.py:107-107 | Training, seen from the platform: its heartbeats in order, then a return or an exception |
| `ProcessorCode.CachingExecutor.Run` | ml-platform/worker/crucible_worker/executor.py:90-110 | Cache, heartbeat, download, heartbeat, train, upload: the exact heartbeats for each point of failure, a torn one included; the checkpoint path if and only if no stage raised and there was output, all of it uploaded, else the error of the first stage that failed; the bucket holds what was uploaded before a failure and is unchanged if a stage before the upload failed |
| `ProcessorCode.JobProcessor.Process` | ml-platform/worker/crucible_worker/processor.py:52-80 | The method in place has exactly the effect of the function that the outcome theorems are about, on every branch, and an exception leaves it exactly when they say |
| `ProcessorCode.JobProcessor.Run` | ml-platform/worker/crucible_worker/processor.py:82-103 | `_run` statement by statement has exactly that effect and ends in exactly that exception, for every point of failure |
| `ProcessorCode.JobProcessor.FailJob` | ml-platform/worker/crucible_worker/processor.py:105-109 | `_fail`: failure write, terminal publish, ack, each of which may raise |
| `Reconciling.Reconciler.Reconcile` | ml-platform/worker/crucible_worker/reconciler.py:47-56 | A pass in place has the effect of the pass function on the rows each query returned, up to the statement that raises if one does; its two statistics equal the number of pushes of each phase |
| `Reconciling.Reconciler.RecoverAbandonedRunning` | ml-platform/worker/crucible_worker/reconciler.py:58-64 | Phase one resets, announces and re-enqueues every stale running job and counts them, or stops after exactly so many writes |
| `Reconciling.Reconciler.RecoverOrphanedQueued` | ml-platform/worker/crucible_worker/reconciler.py:66-77 | Phase two re-enqueues exactly the candidates that neither list snapshot shows and counts them, or stops after exactly so many pushes |
| `Reconciling.PassPushesOnce` | ml-platform/worker/crucible_worker/reconciler.py:47-77 | An isolated pass pushes the stale running jobs and the lost queued ones, each exactly once, in front of the old queue; jobs:processing loses exactly the reset ids |
| `Reconciling.LostWasNowhere` | ml-platform/worker/crucible_worker/reconciler.py:71-76 | What phase two pushes was queued, in neither list, and not reset by phase one of the same pass |
| `Reconciling.LostIsOld` | ml-platform/worker/crucible_worker/db.py:140-146 | Phase two pushes a job if and only if it is queued, not just reset, created and last written longer ago than the grace window, and in neither list |
| `Reconciling.StaleIsOverdue` | ml-platform/worker/crucible_worker/db.py:133-138 | Phase one resets a job if and only if it is running and was last written longer ago than the visibility timeout |
| `Reconciling.PassAnnounces` | ml-platform/worker/crucible_worker/reconciler.py:60-63 | A pass publishes queued, at the current second, for exactly the jobs it resets, and moves no other hash |
| `Reconciling.PassRows` | ml-platform/worker/crucible_worker/reconciler.py:58-64 | A pass changes exactly the stale rows, to queued, and touches no other row, terminal ones included |
| `Reconciling.SecondPassIsIdle` | ml-platform/worker/crucible_worker/reconciler.py:47-77 | At the same clock a second pass changes neither rows, lists nor hashes, in whatever order the queries answer |
| `Recovery.TurnFacts` | ml-platform/worker/crucible_worker/main.py:57-59 | One claim and process, whichever statements raise, takes the right end off the queue and changes no other row and no terminal row; every copy of the entry leaves jobs:processing if the ack takes effect, otherwise the claimed copy stays there in flight |
| `Recovery.TurnFinishes` | ml-platform/worker/crucible_worker/main.py:57-59 | Without infrastructure faults the claimed job ends terminal |
| `Recovery.DrainFacts` | ml-platform/worker/crucible_worker/main.py:56-59 | Draining without faults empties jobs:queue, makes every job that was queued in it terminal, leaves every other row as it was, and takes exactly the claimed entries off jobs:processing |
| `Recovery.PassRequeues` | ml-platform/worker/crucible_worker/reconciler.py:47-77 | With all timeouts elapsed, after a pass a non-terminal job is in jobs:queue if and only if it was not a queued row with an in-flight entry and no queue entry |
| `Recovery.ExactRecovery` | ml-platform/worker/crucible_worker/reconciler.py:47-77 | No live worker, all timeouts elapsed: one pass and a fault-free drain make a job terminal if and only if it was not queued with its id in jobs:processing and not in jobs:queue |
| `Recovery.RoundKeeps` | ml-platform/worker/crucible_worker/main.py:52-63 | A round of wait, restart, drain and perhaps a crash neither creates nor frees a stuck job and undoes no terminal status, wherever the crash comes in a turn after `mark_running`, between two turns, or in the pass but not between a reset and its requeue |
| `Recovery.DiesKeeps` | ml-platform/worker/crucible_worker/processor.py:84-109 | A worker that dies after `mark_running`, after any steps of `_run` and `_fail` whatever raises, leaves nothing stuck |
| `Recovery.CutPassKeeps` | ml-platform/worker/crucible_worker/reconciler.py:47-77 | So does a pass cut anywhere but between a reset and its requeue |
| `Recovery.Convergence` | ml-platform/worker/crucible_worker/main.py:52-63 | A single worker restarted after each crash, none of them between a claim and `mark_running` or between a reset and its requeue: over any sequence of more rounds than crashes the jobs that end terminal are exactly those not stuck at the start |
| `WorkerLoop.Worker.Run` | ml-platform/worker/crucible_worker/main.py:52-63 | The loop in place equals the loop function: a first pass, then claim, process and a pass whenever the interval has elapsed since the last one, up to the exception of a pass, a claim or a job that ends it, if and only if there is one |
| `WorkerLoop.Worker.TakeTurn` | ml-platform/worker/crucible_worker/main.py:56-63 | One turn: claim, process what was claimed, and, if no exception left those, a pass with fresh query results if and only if one is due; it ends the loop if and only if an exception leaves one of the three; after any other turn the last pass is less than an interval ago |
| `WorkerLoop.NeverOverdue` | ml-platform/worker/crucible_worker/main.py:61-63 | After a turn that leaves the loop running the last pass is less than an interval ago, whatever is queued |
| `WorkerLoop.DuePassRecovers` | ml-platform/worker/crucible_worker/main.py:61-63 | Once the interval has passed, a turn that leaves the loop running ends with every overdue job, running past the visibility timeout or queued past the grace window and not in flight, queued with its id in jobs:queue |
| `WorkerLoop.LoopIsDrain` | ml-platform/worker/crucible_worker/main.py:56-63 | While no pass falls due and no exception ends it earlier, the loop is the drain that the recovery theorems speak of |
| `Clients.JobRepository.MarkRunning` | ml-platform/worker/crucible_worker/db.py:98-103 | queued to running, or no change, unreported |
| `Clients.JobRepository.Heartbeat` | ml-platform/worker/crucible_worker/db.py:105-110 | Stamps a running row with the current time and changes no other column and no other row; otherwise no change |
| `Clients.JobRepository.MarkCompleted` | ml-platform/worker/crucible_worker/db.py:112-117 | running to completed with the path, otherwise no change |
| `Clients.JobRepository.MarkFailed` | ml-platform/worker/crucible_worker/db.py:119-124 | running to failed with the reason, otherwise no change |
| `Clients.JobRepository.ResetToQueued` | ml-platform/worker/crucible_worker/db.py:126-131 | running to queued, otherwise no change |
| `Clients.JobRepository.FindStaleRunning` | ml-platform/worker/crucible_worker/db.py:133-138 | Every running row older than the visibility timeout, once, in some order |
| `Clients.JobRepository.FindOrphanQueued` | ml-platform/worker/crucible_worker/db.py:140-146 | Exactly the queued rows whose creation and last write are both older than the grace window, each once, in some order |
| `Clients.RedisQueue.Claim` | ml-platform/worker/crucible_worker/redis_queue.py:26-34 | Moves the right end of jobs:queue to the left end of jobs:processing and returns it; nothing on an empty queue |
| `Clients.RedisQueue.Ack` | ml-platform/worker/crucible_worker/redis_queue.py:36-38 | Removes every occurrence from jobs:processing |
| `Clients.RedisQueue.Requeue` | ml-platform/worker/crucible_worker/redis_queue.py:40-50 | In one step removes every occurrence from jobs:processing and pushes one on jobs:queue |
| `Clients.StatusPublisher.Publish` | ml-platform/worker/crucible_worker/status.py:28-35 | Writes status and the whole second of the current time; a terminal publish sets the expiry to 24 hours, another keeps an expiry that is still running; no other hash moves |
| `Effects.FloorExactly` | ml-platform/worker/crucible_worker/status.py:20-21 | The published stamp is the whole second the moment falls in |
| `Effects.TerminalHashExpires` | ml-platform/worker/crucible_worker/status.py:33-34 | A terminal status stays visible for exactly 24 hours |
| `Effects.PublishKeepsExpiry` | ml-platform/worker/crucible_worker/status.py:32-32 | Any other publish neither extends nor cancels a running expiry |
| `Clients.CheckpointStore.Upload` | ml-platform/worker/crucible_worker/checkpoint_store.py:54-76 | Returns the prefix `checkpoints/{id}/` if and only if there were files and none failed; the files before the first failure, and no others, are in the bucket |
| `Effects.CheckpointsDoNotCollide` | ml-platform/worker/crucible_worker/executor.py:70-72 | No two jobs write the same checkpoint object |
| `Effects.UploadsDoNotMeet` | ml-platform/worker/crucible_worker/checkpoint_store.py:62-67 | The upload of one job leaves the checkpoints of every other job alone |
| `Backend.JobStore.Create` | ml-platform/backend/internal/db/jobs.go:114-132 | Adds one row: queued, with the given base model and dataset path each in its column, no results, both times now |
| `Backend.JobStore.Update` | ml-platform/backend/internal/db/jobs.go:212-293 | Not found if and only if there is no row; a refused transition, named with both statuses, changes nothing; otherwise the given columns are overwritten and the others kept |
| `Backend.JobQueue.Enqueue` | ml-platform/backend/internal/queue/redis.go:44-52 | Pushes on the left end of jobs:queue |
| `Backend.JobQueue.Dequeue` | ml-platform/backend/internal/queue/redis.go:79-89 | Removes every occurrence from jobs:queue and none from jobs:processing |
| `Backend.JobHandler.CreateJob` | ml-platform/backend/internal/handler/jobs.go:46-83 | Insert, push, and the fallback write when the push fails, each of which may raise; succeeds if and only if insert and push were acknowledged, and answers the row with the base model and dataset path of the request |
| `Backend.JobHandler.GetJob` | ml-platform/backend/internal/handler/jobs.go:85-116 | Answers the row, overlaid by a visible and strictly newer hash while the row is active; a Redis error degrades to the row |
| `Backend.JobHandler.CancelJob` | ml-platform/backend/internal/handler/jobs.go:150-193 | Succeeds if and only if the job exists and is active and the Update was acknowledged; refused as not found exactly when there is no row, else as an invalid transition from its status to cancelled, and then nothing changes; an error of the Dequeue is not reported |
| `Backend.FailedEnqueueLeavesQueued` | ml-platform/backend/internal/handler/jobs.go:67-80 | After a failed push the fallback is refused or does not go through: the new row stays queued, and its id is in jobs:queue only if the push had landed |
| `Backend.FallbackFailsOnlyRunning` | ml-platform/backend/internal/db/jobs.go:282-293 | The fallback write changes the state if and only if a worker has the job running by then, and then fails it with the reason |
| `Polling.PollsGoBackExactly` | ml-platform/backend/internal/handler/jobs.go:91-113 | With anything running between the two reads of each poll and between the polls, short of a flush, and the hash, if visible, not expired by the second: updated_at goes back if and only if a terminal write falls between the first poll's reads and the hash it then reads carries a later second |
| `Polling.PollCanGoBack` | ml-platform/backend/internal/handler/jobs.go:104-113 | That case arises whenever a poll reads the row just before `mark_completed` and the hash after a publish a second later |
| `Polling.PollsNeverGoBack` | ml-platform/backend/internal/handler/jobs.go:104-113 | Polls that nothing interrupts never see updated_at decrease, in any run without a flush between them, provided the hash, if visible, has not expired by the second |
| `Polling.HashWasStamped` | ml-platform/worker/crucible_worker/status.py:20-21 | Every hash present after a run carries the floored time of one of its steps |
| `Polling.OverlayIsNewer` | ml-platform/backend/internal/handler/jobs.go:91-113 | In every run, whatever falls between the two reads of a poll: a hash that overlays carries the floored time of a step strictly after the last write of the row that the poll read |
| `Polling.TerminalPollsAgree` | ml-platform/backend/internal/handler/jobs.go:104-104 | Once a row is terminal, every later poll of every run answers the row itself, whenever it reads the hash |
| `Reports.ProcessMisreportsExactly` | ml-platform/worker/crucible_worker/processor.py:72-109 | One uninterrupted `process`, whichever statements raise, makes polls report a terminal status for an active row if and only if the job was queued and last written in an earlier second, `mark_running` raised without effect, and `_fail` got as far as its publish |
| `Reports.PublishMisreportsExactly` | ml-platform/worker/crucible_worker/status.py:28-35 | In any state a terminal publish makes polls misreport if and only if the row is not terminal and was last written in an earlier second |
| `Reports.LateWorkerMisreports` | ml-platform/worker/crucible_worker/processor.py:99-102 | Without any fault: a worker whose job was reset under it makes polls answer completed for a queued row |
| `Reports.TerminalAnswersAreTrue` | ml-platform/backend/internal/handler/jobs.go:91-113 | Any number of workers, every timely run in which no `mark_running` raises without effect, whatever falls between the reads of a poll: it answers with a terminal status only if the row is terminal by then |
| `Reports.NoMisreports` | ml-platform/backend/internal/handler/jobs.go:104-113 | In such a run no poll reports a terminal status for an active row |
| `Reports.HonestKept` | ml-platform/worker/crucible_worker/processor.py:82-109 | The invariant behind it: a terminal hash means a terminal row, a worker past `mark_running` holds no queued job, one about to publish a result has it in the row |
| `ReportPremises.EveryReportPremiseIsNeeded` | ml-platform/worker/crucible_worker/reconciler.py:58-77 | For any timeouts and each of the five premises of true reports, the four timing premises and that no `mark_running` raises without effect, there is a run from the empty system that keeps the other four and makes a poll report a terminal status for an active job |
| `Validation.ValidateFormat` | ml-platform/worker/crucible_worker/validation.py:42-54 | Accepts if and only if the key has no extension or a supported one |
| `Paths.ExtensionExactly` | ml-platform/worker/crucible_worker/validation.py:32-39 | The format of a file is the lower case of what follows the last dot of its name |
| `Validation.ModelMeta` | ml-platform/worker/crucible_worker/db.py:72-96 | Finds a ready row of the repository if there is one, and a default one if there is a ready default |
| `Validation.CheckModelFits` | ml-platform/worker/crucible_worker/guardrail.py:28-43 | Refuses if and only if the hint is unsupported or the known parameter count exceeds the limit |
| `Validation.AcceptsExactly` | ml-platform/worker/crucible_worker/processor.py:86-93 | What lets a job through to the executor, as one condition on its path and the allow-list |
| `Validation.RefusalExactly` | ml-platform/worker/crucible_worker/processor.py:86-93 | The recorded refusal: an unsupported format first, then a model not on the allow-list, then its size |
| `Validation.LoadSpec` | ml-platform/worker/crucible_worker/trainer.py:72-105 | Answers a format if and only if there are files and one known format loads all of them; unknown extensions are reported before mixed formats |
| `Validation.LoaderFormatExactly` | ml-platform/worker/crucible_worker/trainer.py:50-55 | Every accepted format has its loader, and jsonl is read as json |
| `ObjectStore.PutAllFacts` | ml-platform/worker/crucible_worker/checkpoint_store.py:62-67 | After uploading files with distinct paths each is under its key with its content, and every other object is as it was |
| `DatasetLayout.KeysDoNotCollide` | ml-platform/scripts/register_dataset.py:95-113 | Two valid datasets that write the same object key agree in name, version, kind and suffix, and it is the same relative path of both |
| `DatasetLayout.BelowPrefixIsOwn` | ml-platform/scripts/register_dataset.py:106-116 | Whoever writes an object below the prefix of a directory has its name and version and is a directory with that relative path |
| `DatasetLayout.EveryFileIsValid` | ml-platform/scripts/register_dataset.py:95-97 | The suffix of every local file is one the layout theorems cover |
| `DatasetLayout.KeyDeterminesContent` | ml-platform/scripts/register_dataset.py:229-245 | If versions determine contents, every key has one content, whichever dataset writes it |
| `DatasetLayout.DirectoryVersionsCanCoincide` | ml-platform/scripts/register_dataset.py:62-74 | Two layouts of the same contents feed the same text to the checksum, against its promise |
| `DatasetLayout.EqualFeedsExactly` | ml-platform/scripts/register_dataset.py:69-74 | Directories that feed the checksum the same text are equal if and only if they have as many files, with paths and contents of the same lengths |
| `DatasetLayout.DirectoriesAreContentAddressedExactly` | ml-platform/scripts/register_dataset.py:143-148 | With a collision-free hash, versions of directories determine contents if and only if no two of different shape feed the hash the same text |
| `DatasetStore.GarageDatasetStore.Download` | ml-platform/worker/crucible_worker/dataset_store.py:54-58 | A path with a suffix is fetched as one object, any other as the tree of all objects below it; error if there is none, or if the listing or a fetch it makes raises |
| `DatasetStore.GarageDatasetStore.DownloadPrefix` | ml-platform/worker/crucible_worker/dataset_store.py:71-91 | Exactly the objects below the prefix, by relative path, each with its content; error if and only if there is none or an S3 call it makes raises |
| `DatasetStore.GarageDatasetStore.ListKeys` | ml-platform/worker/crucible_worker/dataset_store.py:93-106 | Every key below the prefix that does not end in a slash, and no other; error if and only if the listing raises |
| `DatasetStore.MarkersAreSkipped` | ml-platform/worker/crucible_worker/dataset_store.py:97-101 | Objects whose keys end in a slash make no difference to a prefix download |
| `DatasetStore.DirectoryRoundTrip` | ml-platform/worker/crucible_worker/dataset_store.py:71-91 | Downloading the storage path of an uploaded directory gives back exactly its relative paths and contents, or an error if it has no files, if and only if nothing foreign lay below its prefix |
| `DatasetStore.StoredDirectoryComesBack` | ml-platform/worker/crucible_worker/dataset_store.py:71-91 | The same for any bucket that holds the objects of the directory |
| `DatasetStore.StoredFileComesBack` | ml-platform/worker/crucible_worker/dataset_store.py:38-69 | A single file held by the bucket comes back if and only if it has a suffix |
| `RegistryRoundTrip.ForeignStaysOut` | ml-platform/scripts/register_dataset.py:83-128 | No registration ever writes a foreign object below the prefix of another |
| `RegistryRoundTrip.ReadyDatasetsComeBack` | ml-platform/worker/crucible_worker/dataset_store.py:54-91 | From a bucket with nothing foreign below the prefixes, after any interleaving of registrations cut off anywhere, downloading any ready dataset gives back exactly its files |
| `RegistryRoundTrip.SameFormExactly` | ml-platform/scripts/register_dataset.py:143-148 | Under one name and version two datasets are the same if and only if both are directories or both single files with the same suffix |
| `RegistryRoundTrip.GivenRowDeliversExactly` | ml-platform/scripts/register_dataset.py:154-162 | A caller given the ready row of another registration of that name and version gets its own dataset back on download if and only if both have the same form and are not a file without suffix, or such a file stands in for a directory whose objects are there |
| `RegistryRoundTrip.PrintedIdDeliversExactly` | ml-platform/scripts/register_dataset.py:239-284 | From a call of the script to a download of the row whose id it printed: the same condition |
| `DatasetStore.FileRoundTrip` | ml-platform/worker/crucible_worker/dataset_store.py:38-69 | Downloading an uploaded single file gives back its content under version and suffix, if and only if it has a suffix |
| `DatasetStore.FilePathIsFile` | ml-platform/worker/crucible_worker/dataset_store.py:38-40 | The storage path of a single file is recognised as one if and only if the suffix is not empty |
| `DatasetStore.AcceptedFileIsLoaded` | ml-platform/worker/crucible_worker/trainer.py:90-105 | A single file whose declared format was accepted is loaded in that same format after download |
| `Registration.InvKept` | ml-platform/scripts/register_dataset.py:131-205 | Any interleaving of registrations cut off anywhere keeps: one row per name and version, every ready row has its objects, every run has stored what it counts as uploaded |
| `Registration.RegistrySafety` | ml-platform/scripts/register_dataset.py:131-281 | From an empty table and any bucket, over every run of the saga: at most one row per name and version, and every ready row has all its objects with their contents |
| `Registration.ReadyIsStable` | ml-platform/scripts/register_dataset.py:150-177 | A ready row is neither removed nor changed by any later step |
| `Registration.LaterRunsReturnTheSameId` | ml-platform/scripts/register_dataset.py:154-162 | Once ready, every later registration of that name and version returns the same id at its reserve step and changes nothing |
| `Registration.VerifyExactly` | ml-platform/scripts/register_dataset.py:118-126 | The verification lets a run through exactly when every object it uploaded is in the bucket |
| `Registration.DeadIdsStayDead` | ml-platform/scripts/register_dataset.py:163-176 | An id whose row has been deleted never gets a row again |
| `Registration.OvertakenRunReturnsDeadId` | ml-platform/scripts/register_dataset.py:163-164 | When a second run reserves the same name and version, the first run's row is deleted and no row ever has its id again, in any continuation |
| `Registration.OvertakenRunStillReturns` | ml-platform/scripts/register_dataset.py:272-284 | The first run, its files uploaded, still passes the verification, activates nothing, and returns that id |
| `Registration.ActivationExactly` | ml-platform/scripts/register_dataset.py:181-191 | An activation leaves its row ready if and only if the row is still there |
| `Registration.RowGoesExactly` | ml-platform/scripts/register_dataset.py:159-164 | A step removes a row if and only if it reserves its name and version while it is not ready, or is the compensation of the run that owns it |
| `Registration.OwnedRowLasts` | ml-platform/scripts/register_dataset.py:239-281 | The row a run has reserved is there at its activation if and only if no step in between reserved that name and version |
| `Registration.ReachableIsGood` | ml-platform/scripts/register_dataset.py:131-205 | Every reachable state meets the invariant, with one owner for each reserved id |
| `Registration.ReturnedIdIsReadyExactly` | ml-platform/scripts/register_dataset.py:272-284 | The id a run returns after an upload is that of a ready row, for good, if and only if no other run reserved that name and version between its reservation and its activation |
| `RegistrationScript.RegisterDataset.ReserveRow` | ml-platform/scripts/register_dataset.py:131-178 | Returns a ready row, or replaces any other by a fresh pending one |
| `RegistrationScript.RegisterDataset.ActivateRow` | ml-platform/scripts/register_dataset.py:181-191 | Makes the row ready if it exists, silently nothing otherwise |
| `RegistrationScript.RegisterDataset.DeleteRow` | ml-platform/scripts/register_dataset.py:194-205 | Deletes the row only while it is pending |
| `RegistrationScript.RegisterDataset.Upload` | ml-platform/scripts/register_dataset.py:83-128 | Uploads file by file up to the one that raises; succeeds if and only if none does and the verification does not raise, and then what it uploaded is present |
| `RegistrationScript.RegisterDataset.Register` | ml-platform/scripts/register_dataset.py:239-284 | The script in place equals the sequential function: reserve, upload, then activate or compensate, each of which may raise before or after taking effect |
| `RegistrationScript.RegisterIsIdempotent` | ml-platform/scripts/register_dataset.py:239-284 | Run alone, whatever raises: a printed id is that of a ready row under that name and version, which is the dataset of the caller if and only if no other was ready there; a repeat changes nothing and prints the same id unless its reservation raises; without an id a row is left exactly when the reservation took effect or found one, the activation raised, or the compensation did not take effect; other rows are untouched |
| `RegistrationScript.PrintsExactly` | ml-platform/scripts/register_dataset.py:259-284 | An id is printed if and only if the reservation returned and either the version was ready or every upload, the verification and the activation returned |
| `RegistrationScript.RegisterIsARun` | ml-platform/scripts/register_dataset.py:239-284 | One call of the script, whatever raises, is one explicit run of the saga |
| `RegistrationScript.RegisterKeepsRows` | ml-platform/scripts/register_dataset.py:239-284 | So it keeps one row per name and version and every ready row complete |
| `RegistrationScript.RegisterStoresTheDataset` | ml-platform/scripts/register_dataset.py:272-284 | A first registration that succeeds adds exactly one ready row and stores every object of the dataset with its content |

## Left out

- GPU training, the model cache and the Hugging Face download: the executor returns or raises after any number of heartbeats.
- HTTP, JSON, middleware, list and pagination, health probes, request validation other than the status of a cancel.
- The real Postgres, Redis and S3 clients: each statement, transaction or pipeline is one atomic step, and a call that raises did or did not take effect. Isolation anomalies below that are not modelled; `reserve_dataset_row` is one step.
- Several clocks and skew between Postgres and the workers; RFC 3339 text (a time is an integer, floored to a second on publish), and the malformed hash timestamps that `GetJobStatus` tolerates, which no publisher writes.
- UUID text: a list entry is the canonical text of an id or text that `UUID(...)` refuses; other spellings of one UUID are not modelled.
- The text of error messages: a reason is a value with the parts that would be rendered.
- SHA-256: a version is an opaque id, assumed to determine content among files and among directories (`ContentAddressed`); for directories that is the case exactly as `DirectoriesAreContentAddressedExactly` says. Text stands for its bytes.
- Process supervision, signals and environment configuration: a graceful stop ends the loop between jobs; timeouts are natural numbers.
- An archiving operation for datasets: archived occurs only as a status that reserve may meet.
- The allow-list registration script, VRAM labels, log output, temporary directories, multipart settings, and the mirrored schema in other languages.
- Unicode: case folding is ASCII, and a file-name suffix follows the rule of Python before 3.14.
- Polling.PollsNeverGoBack: assumes that a hash visible at the first poll has not expired at the second, that Redis answers and is not flushed between (otherwise the older row shows through again), and that nothing falls between the two reads of a poll; `PollsGoBackExactly` drops the last premise and says what then goes wrong.
- Exclusion.MutualExclusion: holds under `Timely`, of which `EveryPremiseIsNeeded` shows each part to be needed.
- Registration.RegistrySafety: objects already in the bucket are never deleted by anyone.
- RegistryRoundTrip.ReadyDatasetsComeBack: assumes that what was in the bucket before any registration is not below a directory's prefix, unless it is one of its keys; `StoredDirectoryComesBack` shows that this is needed.
- Plain reads (`GetJob` and `GetModelMeta` of the worker, `GetByID`, `GetJobStatus`, `QueuedIds`, `InFlightIds`, `DownloadFile`) are methods without a row in the table: they return what they look at.
- Recovery.Convergence: rounds are those of one worker with no interference; turns before the crash are free of infrastructure faults, and crashes between a claim and `mark_running` or between a reset and its requeue are the subject of `Stranding`.
