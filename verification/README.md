# AgentBenchX: verified models

AgentBenchX evaluates coding agents. A control plane (FastAPI and PostgreSQL) queues jobs and
leases them to Mac workers; a worker runs an agent and then a verifier in Docker containers and
reports the result. This project models the parts of the repository that have to be right when
requests are delayed, workers crash and leases expire, and proves what they promise.

`dafny verify dfyconfig.toml` checks the whole project.

## How it is organised

| files | what they model |
|---|---|
| `Records`, `Server` | table rows, and every transaction of the job service as one step on the tables |
| `ServerInvariant`, `ServerRuns`, `ServerProgress`, `ServerReplies` | what the steps keep, and what follows for whole runs: attempt chain, ownership, bounded work, finality; and who is answered what, told in the columns of the rows |
| `Manager` | the service class, statement by statement, proved equal to the steps |
| `RowLocks`, `RowLockSafety`, `RowLockProgress` | the same transactions interleaved under explicit row locks, refined to the atomic steps, and always able to go on |
| `LeaseRules`, `LeaseKeeper` | the client's lease: its rules as a value, and the class with its retry loop, renewal thread and watchdog |
| `Cluster`, `ClusterInvariant`, `ClusterSafety`, `ClusterLimits`, `ClusterProgress` | service, workers, disks, a lossy network and drifting clocks as one state machine, its safety, exactly where safety ends, and what can always still happen |
| `Sandbox`, `Evaluator`, `Verdicts` | containers of a job, one evaluation, and what its report and its ending say about what happened |
| `RunLoop`, `RunLoopSafety`, `ResultFiles` | the worker's loop, exactly when claims are clean through crashes and restarts, and what becomes of result files |
| `Storage`, `Deliveries` | write-once objects, stored artifacts and agent versions; and results as a whole, tables and store in one run |
| `Scheduling`, `Simulation` | the idle scheduler, the jobless run loop on it, and the virtual-time capacity model |
| `Dashboard`, `Scoring`, `Patch`, `Sync` | summary counts, scores, patch counting, synchronisation of problem sources |

Everything that the code does not decide is given from outside: clock readings, what a query
skipped because it was locked, whether a commit, a file write or a Docker command succeeded. In the
class models such outcomes are read from a record (a "luck"), so that each method is equal to a
function of the state and that record, and the theorems about the function hold for every record.
In the scheduler and the lease client they are left open, and the contracts hold for every choice.

Assumptions, beyond those written as preconditions:

- `max_attempts` is at least 1. The configuration does not check this (`config.py:49`).
- Clock readings of one server never go back; lease tokens are never issued twice.
- When `docker inspect` answers, it tells the truth, and a container that `docker rm` reports
  removed or missing is gone. A command whose effect is unclear may have had it or not. A command may
  also fail to run at all, which raises an ordinary exception or one that ends the process.
- In `Cluster` a worker process stops its sandbox within `grace` seconds of its deadline. Whether it
  also removes the sandbox before it leaves the lease is a parameter (`cleans`), because
  `RunLoopSafety` shows when it does not. Containers that outlive a dead process are not counted until
  a process of that worker restarts.

## What turned out false, and what holds instead

- *Any clock ratio up to 4/3 is safe.* True when sandboxes stop at the deadline and are removed. In
  general no run of a cluster executes a submission twice at once if and only if the lease share of 0.75
  plus the stopping time, stretched by the drift, fits into the lease and no process goes on beside a
  sandbox it has left, or jobs are never retried (`ClusterLimits.SafeIff`).
- *Two workers are never inside the lease body of one submission.* True if and only if jobs are never
  retried (`ClusterLimits.DisjointLeaseBodiesIff`): the first may have reported an infrastructure failure
  and wait for its reply. Overlaps without such a report occur if and only if clocks differ by more than
  4/3 and jobs are retried (`ClusterLimits.OverlapsAreReportedIff`).
- *The worker is clean at every claim.* True of a life if and only if no process asks for a job after an
  evaluation of its own left a container and an ordinary exception cut its clean-up short
  (`RunLoopSafety.CleanBeforeClaimIff`). There are two such exceptions: the result cannot be saved, which
  skips the clean-up and hides the failure that should stop the worker, or a Docker command of the clean-up
  cannot be run, which `destroy` does not turn into a clean-up failure. One life shows each
  (`RunLoopSafety.LostResultHidesFailedCleanup`, `RunLoopSafety.UnrunnableCommandsHideLeftover`).
- *COMPLETED means that agent and verifier ran.* True unless the start of a container failed and Docker
  records code 0 for it, and then false (`Evaluators.CompletedRanUnless`,
  `Evaluators.UnstartedAgentCompletes`).
- *A jobless window T holds at most T / min + 1 polls.* True of windows without a refused or failed claim;
  in general true if and only if the interval slept after an exception is no shorter than the minimum
  (`Scheduling.FewPollsIff`, `Scheduling.RefusedTwice`).
- *The simulator executes every job and publishes 2·workers·days + 11J commands.* The first holds if and
  only if jobs arrive no faster than one a minute (`Simulation.CompleteIff`), the second if and only if
  there is at least one day, or no worker (`Simulation.RedisTotalIff`).
- *A patch is counted exactly.* The scan splits lines wherever `str.splitlines` does, so that a piece of a
  line may pass for a change or a file header, and changes after such a header are missed. The file total is
  exact if and only if every such header is one of the patch's own, each line total if and only if as many
  lines are missed as are taken for changes (`PatchCounting.TotalsOfRenderedPatch`,
  `PatchCounting.FormFeedMiscounts`, `PatchCounting.StrayHeaderMiscounts`).
- *A worker that has reported DRAINING, ERROR or OFFLINE is granted nothing until it reports otherwise.* True
  of a draining worker. One that has reported ERROR or OFFLINE, or was marked so, is also put back by an
  accepted result of its own, and by nothing else (`ServerReplies.SidelinedUnless`,
  `ServerReplies.SidelinedGetsNothing`, `ServerReplies.GrantedAfterError`).
- *A worker marked OFFLINE holds no unexpired lease.* True in all runs if and only if leases are no longer
  than the offline interval (`Dashboard.OfflineIff`).

## Model

| member | source | states |
|---|---|---|
| Manager.EvaluationManager.Submit | apps/api/agentbenchx/services.py:154-172 | one submission and one queued first attempt for each distinct selected problem in order of first mention; unknown versions are refused with 404, problems that are not ready with 409, and a refusal changes nothing |
| Manager.EvaluationManager.Register | apps/api/agentbenchx/services.py:174-180 | a registration adds one online worker and touches nothing else |
| Manager.EvaluationManager.WorkerHeartbeat | apps/api/agentbenchx/services.py:182-194 | the status heartbeat performs exactly the atomic step, BUSY included, with the active job found by its own query |
| Manager.EvaluationManager.ActiveJob | apps/api/agentbenchx/services.py:183-187 | the active-job query finds a job if and only if the worker has a claimed or running one |
| Manager.EvaluationManager.NextQueued | apps/api/agentbenchx/services.py:241-247 | the claim query returns a queued unlocked row that no other such row precedes, and none only if there is none |
| Manager.EvaluationManager.Claim | apps/api/agentbenchx/services.py:231-268 | a claim performs exactly the atomic step on the rows it finds and keeps the invariant: it is granted if and only if the worker is online or busy, has no active job, and an unlocked job is queued, and then the one queued first |
| ServerReplies.ClaimGrantedIff | apps/api/agentbenchx/services.py:231-262 | who is granted a job and who is answered 409, written in the columns; the job granted has the least queue time, then id, and its row, a fresh token and the worker's row are all that changes |
| ServerReplies.SidelinedUnless | apps/api/agentbenchx/services.py:232-233 | a worker that is draining, in error or offline is put back by exactly its own report that it is online or busy, or, unless draining, its own accepted result |
| ServerReplies.SidelinedGetsNothing | apps/api/agentbenchx/services.py:232-233 | in every run without such a transaction a sidelined worker gains no job |
| ServerReplies.GrantedAfterError | apps/api/agentbenchx/services.py:350-351 | a worker that has reported ERROR and nothing since is granted a job once it has delivered the one it had |
| ServerReplies.StatusIsNoted | apps/api/agentbenchx/services.py:182-194 | a status heartbeat is always noted with its time, as reported except that an online worker with a job is busy |
| ServerReplies.StatusAfterRequest | apps/api/agentbenchx/services.py:182-194 | the status of a worker after each of its requests |
| ServerReplies.HeartbeatAnswers | apps/api/agentbenchx/services.py:270-291 | a job heartbeat is refused with 403 without the job's own token and with 409 without a running lease, and otherwise renews it, with the start of the first heartbeat kept |
| ServerReplies.ResultAnswers | apps/api/agentbenchx/services.py:293-322 | a result is answered with 403, the one receipt, 409, 503 or a new receipt, and which of them, written in the columns |
| ServerReplies.SubmissionAdds | apps/api/agentbenchx/services.py:159-168 | a submission adds exactly its agent's rows and their queued first attempts, in order, and always succeeds |
| ServerReplies.SilentAreMarked | apps/api/agentbenchx/services.py:212-221 | the reaper marks exactly the online or busy workers silent for longer than the offline interval that nobody has locked |
| ServerReplies.StepKeepsHistory | apps/api/agentbenchx/services.py:196-291 | every transaction keeps the columns consistent, and never replaces a start time |
| ServerReplies.HistoryEver | apps/api/agentbenchx/services.py:196-211 | in every run: a queued row is as inserted, a finish time is set exactly when a job has ended, a lease lasts its length from the last heartbeat, a running job has started and a claimed one has not, a reaped job timed out if attempts are left and failed otherwise, and an online worker has no job |
| Manager.EvaluationManager.Heartbeat | apps/api/agentbenchx/services.py:270-291 | a job heartbeat performs exactly the atomic step: who is refused with 403 or 409, and which fields an accepted one sets |
| Manager.EvaluationManager.Result | apps/api/agentbenchx/services.py:293-366 | a result performs exactly the atomic step: idempotent receipt, both lease checks, storage failure, and the retry of an infrastructure failure |
| Manager.EvaluationManager.Reap | apps/api/agentbenchx/services.py:196-229 | the reaper ends exactly the expired unlocked jobs, retries those below the limit, and then marks exactly the silent unlocked workers |
| Manager.FirstOccurrences | apps/api/agentbenchx/services.py:156-156 | selected problems are deduplicated: the same elements, none twice |
| Manager.OneEvaluation | apps/api/agentbenchx/services.py:295-297 | the evaluation that the idempotent branch returns is the only one of its job, and the job has ended |
| ServerInvariant.EndingKeepsChain | apps/api/agentbenchx/services.py:203-210 | ending an attempt and inserting its retry keeps the chain of attempts and never meets the unique index |
| ServerInvariant.ReapAllKeepsInv | apps/api/agentbenchx/services.py:196-211 | the reaper's first transaction never fails and keeps the invariant, whatever rows it got |
| ServerInvariant.ResultKeepsInv | apps/api/agentbenchx/services.py:332-356 | an accepted result never collides and keeps the invariant |
| ServerInvariant.StepKeepsInv | apps/api/agentbenchx/services.py:144-149 | every transaction keeps the chain of attempts, exclusive ownership, one evaluation per reported job, and the bound on leases |
| ServerRuns.AttemptChain | apps/api/agentbenchx/services.py:203-211 | the jobs of a submission are exactly attempts 1..k with k at most the limit, all but the last are terminal, COMPLETED is last, and no attempt has two rows |
| ServerRuns.SuccessorIff | apps/api/agentbenchx/services.py:348-356 | attempt a+1 exists if and only if a is below the limit and was reaped or reported an infrastructure failure |
| ServerRuns.OneUnfinishedAttempt | apps/api/agentbenchx/services.py:203-211 | a submission never has two unfinished jobs |
| ServerRuns.StepExtends | apps/api/agentbenchx/services.py:231-268 | no transaction returns a job to the queue, changes a finished job or another owner's token, or drops a row |
| ServerRuns.RequestIsLocal | apps/api/agentbenchx/services.py:270-278 | a request by one worker changes no other worker's row or job |
| ServerRuns.OwnershipSafety | apps/api/agentbenchx/services.py:231-258 | in every run from empty tables: active jobs have one owner, token and expiry, a worker has at most one, and evaluations exist only for terminal jobs, one each, with the same status |
| ServerRuns.StepUsesWork | apps/api/agentbenchx/services.py:231-258 | a measure strictly decreases with every claim, accepted result and reaping, and a renewal leaves it unchanged |
| ServerRuns.BoundedWork | apps/api/agentbenchx/services.py:162-168 | any run makes at most max_attempts claims for each of its submissions |
| ServerProgress.StepIsLater | apps/api/agentbenchx/services.py:280-291 | lease expiries and lock releases never move back, and nothing is recorded as reaped before its expiry |
| ServerProgress.StepKeepsDead | apps/api/agentbenchx/services.py:270-278 | a job whose owner can no longer deliver a result stays that way through every transaction |
| ServerProgress.RefusalIsFinal | apps/api/agentbenchx/services.py:293-299 | the owner of a job is refused only with 409 or 503, a 409 means that no result of the job will ever be accepted, and a receipt names the job's own evaluation |
| ServerProgress.NoNewEvaluation | apps/api/agentbenchx/services.py:293-320 | nothing but the owner's result under a live lease adds an evaluation |
| RowLockSafety.NoDeadlock | apps/api/agentbenchx/services.py:145-149 | no chain of transactions waiting for each other's rows closes, or is longer than two waits |
| RowLockSafety.ClaimCheckStays | apps/api/agentbenchx/services.py:234-247 | the check that the worker has no active job stays true until the claim commits, as does the picked row |
| RowLockSafety.StepRefines | apps/api/agentbenchx/main.py:101-108 | each step of an interleaving leaves the tables alone or performs one legal atomic transaction on them |
| RowLockSafety.StepKeepsInv | apps/api/agentbenchx/services.py:270-271 | the lock tables stay exact and everything a transaction read under its locks stays true until it ends |
| RowLockSafety.RunRefines | apps/api/agentbenchx/services.py:196-222 | any interleaving does to the tables what its commits do one after another in the atomic protocol |
| RowLockSafety.InterleavingsAreSafe | apps/api/agentbenchx/services.py:144-149 | from empty tables, with any number of transactions, there is no deadlock and no claim beside an active job |
| RowLockProgress.WaitsOrGoesOn | apps/api/agentbenchx/services.py:144-149 | every open transaction waits for a lock that another holds, or can take its next step |
| RowLockProgress.AllComeToEnd | apps/api/agentbenchx/services.py:144-149 | from every state of every interleaving all open transactions can come to their ends by their own steps, none of them aborted |
| LeaseKeeping.LeaseKeeper.constructor | workers/evaluator/lease.py:10-18 | the first deadline is 0.75 of the lease from now and the interval at most a quarter of it |
| LeaseKeeping.LeaseKeeper.Renew | workers/evaluator/lease.py:20-48 | renewal ends and its outcome is decided by the last call, all earlier ones having failed transiently; every failure is followed by one wait, of two seconds or of what is left of the window; an acknowledgment in time counts from sending, no failure extends the deadline, every handled one cancels, and a cancelled lease is never revived |
| LeaseKeeping.LeaseKeeper.RenewUndisturbed | workers/evaluator/lease.py:20-48 | of a renewal that nothing disturbs, whose calls take no time and whose waits are kept: every call but the last failed and was followed by one such wait, and nothing else took time |
| LeaseKeeping.RetriesFindServer | workers/evaluator/lease.py:39-42 | for all k: with calls that take no time and waits that are kept, k transient failures and a server that is back end in a renewal after k + 1 calls, whenever 2k is below the window |
| LeaseKeeping.WindowIsUsed | workers/evaluator/lease.py:26-42 | a renewal that gives up at its deadline has made at least one call for every two seconds of its window |
| LeaseKeeping.LeaseKeeper.Enter | workers/evaluator/lease.py:50-51 | work starts only under a deadline that the server acknowledged |
| LeaseKeeping.LeaseKeeper.RenewalRound | workers/evaluator/lease.py:53-60 | the renewal thread goes on only after an acknowledgment and cancels after anything else, which has one of four causes |
| LeaseKeeping.LeaseKeeper.WatchdogRound | workers/evaluator/lease.py:62-66 | the watchdog cancels if and only if the deadline has come |
| LeaseKeeping.CallsBound | workers/evaluator/lease.py:26-42 | at most floor(window / 2) + 1 heartbeats are sent in one renewal |
| LeaseKeeping.PromptRepliesKeepLease | workers/evaluator/lease.py:12-15 | if every reply takes less than a quarter of the lease, no number of rounds loses it |
| LeaseKeeping.SlowRepliesLoseLease | workers/evaluator/lease.py:43-45 | two replies that take a quarter of the lease each lose it at the capped interval |
| ClusterInvariant.StepKeepsInv | workers/evaluator/lease.py:20-71 | every delivery, loss, repetition, tick, move, crash and restart keeps the invariant that ties tables, messages, disks and deadlines together |
| ClusterSafety.NoDoubleExecutionEver | workers/evaluator/lease.py:20-71 | in every reachable state at most one worker executes a submission, counting sandboxes that a live process has left behind, when workers stop in time and clean up or jobs are never retried |
| ClusterSafety.SafeClockRatios | workers/evaluator/lease.py:12-15 | the 0.75 factor: a clock ratio of 4/3 is the limit without stopping time, a quarter lease of stopping time with equal clocks |
| ClusterSafety.DeadlineIsSound | workers/evaluator/lease.py:27-46 | from the first acknowledgment on, the client's remaining time plus a quarter lease is within the server's at equal rates, and never outlasts it up to a ratio of 4/3 |
| ClusterSafety.ExecutionFollowsRenewal | workers/evaluator/lease.py:50-51 | the constructor's deadline never governs execution: a lease is entered only by an acknowledged renewal |
| ClusterSafety.LeaseMovesOnward | workers/evaluator/lease.py:43-47 | within one lease the deadline never decreases and a cancelled lease is never revived |
| ClusterSafety.LeaseMovesIff | workers/evaluator/lease.py:20-66 | what cancels a lease and what moves its deadline, if and only if, for every move of a worker |
| ClusterSafety.CallsRespectLease | workers/evaluator/lease.py:23-31 | heartbeats are sent only under a running lease, results only while it is not cancelled or by a replay, and claims only with nothing pending |
| ClusterSafety.ExactlyOnceEver | workers/evaluator/main.py:67-79 | across crashes at any point: at most one evaluation per job, equal to the job's result file; an accepted file implies the evaluation and the saved receipt; a rejected one was never committed |
| ClusterSafety.RejectionIsFinal | workers/evaluator/main.py:73-76 | a rejected result is never committed later, and its file stays |
| ClusterSafety.WorkspaceIsNew | workers/evaluator/evaluator.py:18-18 | a claimed job never finds a workspace of its own in place |
| ClusterLimits.LateStopRun | workers/evaluator/lease.py:46-46 | when workers may stop too late, an explicit run executes a submission twice at once |
| ClusterLimits.LeftoverRun | workers/evaluator/main.py:152-157 | when a process goes on beside a sandbox it has left, an explicit run executes a submission twice at once, however early workers stop |
| ClusterLimits.SafeIff | workers/evaluator/lease.py:46-46 | no run executes a submission twice at once if and only if workers stop in time and clean up, or jobs are never retried |
| ClusterLimits.LeaseBodiesOverlap | workers/evaluator/main.py:125-143 | a run in which two workers are inside the lease body of one submission, the first waiting for its reply |
| ClusterLimits.DisjointLeaseBodiesIff | apps/api/agentbenchx/services.py:348-356 | in all runs the lease bodies of one submission are disjoint if and only if jobs are never retried |
| ClusterLimits.OverlapMeansReported | workers/evaluator/main.py:125-143 | with clocks within 4/3, of two overlapping lease bodies of one submission one has been reported, and a reported job is not being executed where workers stop in time and clean up |
| ClusterLimits.OverlapsAreReportedIff | workers/evaluator/lease.py:12-15 | overlapping lease bodies always mean such a report if and only if clocks are within 4/3 or jobs are never retried |
| ClusterProgress.ReplayRun | workers/evaluator/main.py:67-79 | an idle worker can settle any pending result at once: accepted, with the receipt saved before, if and only if the job has an evaluation then, and otherwise rejected |
| ClusterProgress.WorkerComesBack | workers/evaluator/main.py:101-116 | from every reachable state every worker can be restarted, settle every result on its disk without losing or changing any, and ask for a job |
| ClusterProgress.LostCallsAreRepeated | workers/evaluator/lease.py:39-42 | in every reachable state a lost renewal or upload can be sent again while its lease allows it |
| ClusterProgress.CrashKeepsDisk | workers/evaluator/main.py:57-64 | a crash loses nothing on disk and leaves running what ran |
| ClusterProgress.DeliveredRun | workers/evaluator/main.py:113-143 | for every report there is a run from an empty system in which it is evaluated, delivered, and filed as accepted |
| Sandboxes.DockerSandbox.Create | workers/evaluator/docker_sandbox.py:58-62 | only a job whose checks have passed has an image to remove later |
| Sandboxes.DockerSandbox.Stop | workers/evaluator/docker_sandbox.py:160-165 | stopping succeeds only if inspection answers and the container no longer runs; a command that cannot be run raises what it raises, and anything else is a clean-up failure |
| Sandboxes.DockerSandbox.Execute | workers/evaluator/docker_sandbox.py:97-158 | what one phase leaves of its container, what is tracked, and which outcome or exception it ends with, commands that cannot be run included |
| Sandboxes.DockerSandbox.Destroy | workers/evaluator/docker_sandbox.py:207-216 | tracked containers are removed in turn until a command cannot be run, whose exception ends it at once; else any unclear removal is a clean-up failure, and then the image is removed |
| Sandboxes.PhaseIsLocal | workers/evaluator/docker_sandbox.py:103-104 | a phase touches no container but its own, and two run together only if one was running already |
| Sandboxes.PhaseStops | workers/evaluator/docker_sandbox.py:151-158 | a phase that returns an outcome has stopped its container; so has one that ends in an ordinary exception, unless it came from the start or the stop of the container |
| Verdicts.OutcomeIff | workers/evaluator/docker_sandbox.py:150-158 | a phase returns an outcome if and only if its container was created, its command came back, it is known to have stopped and its state could be read; code and reasons are those recorded |
| Verdicts.PhaseRaisesIff | workers/evaluator/docker_sandbox.py:97-165 | which failure of a phase raises what |
| Verdicts.SweepIff | workers/evaluator/docker_sandbox.py:207-216 | which containers a clean-up gets rid of and how it ends, for both containers in either order |
| Verdicts.SweepOneIff | workers/evaluator/docker_sandbox.py:207-216 | the same for one container |
| Evaluators.Attempt | workers/evaluator/evaluator.py:39-95 | what the try block raises and how far the result has come by then, for every point at which it can fail |
| Evaluators.Conclude | workers/evaluator/evaluator.py:96-111 | what the handlers let escape, and the result with its metrics |
| Evaluators.Preserve | workers/evaluator/evaluator.py:112-115 | the result is saved before the containers are destroyed, and a failed save skips the rest |
| Evaluators.Evaluate | workers/evaluator/evaluator.py:16-116 | containers, result file and returned result or exception of a whole evaluation, for every combination of failures |
| Evaluators.ResultsAreValid | apps/api/agentbenchx/schemas.py:97-107 | every result passes the server's consistency check, and is COMPLETED if and only if code 0 is recorded in time for the agent's and the verifier's container, there is a test, none failed and the reward is not 0 |
| Verdicts.FailureTypeIff | workers/evaluator/evaluator.py:57-93 | each failure type if and only if its cause: rejected inputs, a phase out of time, the agent's code, the verifier's evidence against the patch, and INFRASTRUCTURE_FAILURE if and only if nothing can be said of the agent |
| Verdicts.ReportHolds | workers/evaluator/evaluator.py:52-74 | patch, tests and logs of a report, and its counts of files, insertions and deletions, are those of what was collected |
| Verdicts.RetriedIff | apps/api/agentbenchx/services.py:354-356 | from the worker's run to the service: an accepted result is followed by another attempt if and only if nothing could be said of the agent and the limit allows one |
| Verdicts.EndingIff | workers/evaluator/evaluator.py:96-116 | how an evaluation ends, if and only if which of its steps failed |
| Verdicts.TrackedIff | workers/evaluator/docker_sandbox.py:103-104 | the clean-up is told of exactly the containers whose creation was tried |
| Verdicts.FiledIff | workers/evaluator/evaluator.py:112-114 | what is on disk after an evaluation: nothing, a torn file, or the report, whatever is raised afterwards |
| Verdicts.StripZero | workers/evaluator/evaluator.py:89-89 | the reward counts as 0 if and only if it is a zero between blanks |
| Evaluators.CompletedRanUnless | workers/evaluator/docker_sandbox.py:150-158 | in a completed evaluation a phase was started, unless its start command failed and code 0 is recorded for its container, and then it was not |
| Evaluators.UnstartedAgentCompletes | workers/evaluator/docker_sandbox.py:150-158 | evaluations whose agent's container never started and that are COMPLETED |
| Evaluators.ReturnedIsSaved | workers/evaluator/evaluator.py:112-116 | a returned result is the saved one, and nothing is destroyed before it is saved |
| Evaluators.LateLossKeepsVerdict | workers/evaluator/evaluator.py:94-95 | losing the lease after the verdict does not change the result |
| Evaluators.PhasesInTurn | workers/evaluator/evaluator.py:51-71 | an evaluation makes only containers of its own job, all tracked, and starts the verifier only after the agent has stopped: the two never run together, whatever raises |
| Evaluators.OthersStay | workers/evaluator/docker_sandbox.py:207-212 | an evaluation and its clean-up leave every container of other jobs as it was and add only its own |
| Evaluators.SavedAndConfirmed | workers/evaluator/evaluator.py:112-116 | after a saved result and a clean-up that raises nothing, nothing of the job is left |
| Evaluators.LeftoverIff | workers/evaluator/evaluator.py:108-115 | the worker goes on beside a container of the evaluation if and only if one is left and an ordinary exception of the save or of a clean-up command cut the clean-up short; otherwise it goes on with the containers of before |
| RunLoop.Worker.ReplayPending | workers/evaluator/main.py:67-79 | pending results are settled one after another, and the first failure of any kind stops the replay |
| RunLoop.Worker.RecoverSandboxes | workers/evaluator/main.py:57-64 | the containers of every job with a workspace are removed, until one removal is unclear |
| RunLoop.Worker.Upload | workers/evaluator/main.py:132-143 | a result is uploaded at most three times; receipt, rename and workspace go in this order, and running out of tries stops the worker |
| RunLoop.Worker.RunJob | workers/evaluator/main.py:125-151 | what a claimed job leaves of disk and containers, and when it stops the worker |
| RunLoop.Worker.TakeTurn | workers/evaluator/main.py:106-157 | one pass of the loop: replay, heartbeat, poll, claim, evaluation and upload, with every exception handled as the source does |
| RunLoop.Worker.Run | workers/evaluator/main.py:82-164 | a whole process, from recovery to its end |
| ResultFiles.ReplayIff | workers/evaluator/main.py:67-79 | a replay files a pending result as accepted if and only if it came to it and got a receipt it could save and file, as refused if and only if it was answered by 403, 404 or 409; every other file is as it was and no report changes |
| ResultFiles.UploadIff | workers/evaluator/main.py:132-143 | an upload files its result if and only if some try, after failures in transport only, got a receipt; when the workspace goes; and that the worker stops exactly when every try failed in transport |
| ResultFiles.UnfinishedJobStopsIff | workers/evaluator/main.py:148-157 | a job without a result stops the worker if and only if it ended in anything but an ordinary exception |
| ResultFiles.UploadedJobStopsIff | workers/evaluator/main.py:132-143 | a job with a result stops the worker if and only if no try of its upload got through |
| ResultFiles.TurnIff | workers/evaluator/main.py:106-127 | nothing is claimed unless the replay ended well, a due heartbeat got through and the poll is due, and nothing evaluated without a granted claim and an entered lease |
| ResultFiles.FilesTellTheirHistory | workers/evaluator/main.py:67-79 | in every life: a file holds the report of an evaluation of its own job, is accepted only if an upload or replay of it got a receipt, and refused only if a replay of it was refused |
| RunLoopSafety.ReplaySettles | workers/evaluator/main.py:67-79 | a replay that ends leaves nothing pending, and never makes anything pending |
| RunLoopSafety.RestartCleans | workers/evaluator/main.py:57-64 | a restart whose recovery succeeds has removed every container of every earlier process and settled every result |
| RunLoopSafety.SettledBeforeClaim | workers/evaluator/main.py:101-116 | in every life of a worker, whatever fails, at every claim nothing is pending, at most one result ever is, and leftover containers belong to workspaces that recovery visits |
| RunLoopSafety.CleanBeforeClaimIff | workers/evaluator/main.py:101-157 | through any failures, crashes and restarts, every claim of a life meets no container of an earlier job if and only if no process asks for a job after its own evaluation left one and its clean-up was cut short by an ordinary exception; then no two containers ever run together |
| RunLoopSafety.CleanBeforeClaim | workers/evaluator/main.py:101-116 | if every result is saved and every command of a clean-up can be run, no claim meets a container of an earlier job and no two containers ever run together |
| RunLoopSafety.CleanUpFailureStopsIff | workers/evaluator/main.py:148-151 | a clean-up failure stops the worker if and only if the result was saved and no command of the clean-up raised another exception in its place |
| RunLoopSafety.LostResultHidesFailedCleanup | workers/evaluator/evaluator.py:112-115 | a concrete life in which a failed save hides a failed clean-up, the worker claims beside a running container, and two run together |
| RunLoopSafety.UnrunnableCommandsHideLeftover | workers/evaluator/docker_sandbox.py:207-212 | a concrete life in which every result is saved and delivered, but Docker commands cannot be run, the worker claims beside a running container, and two run together |
| Storage.JoinSplit | apps/api/agentbenchx/storage.py:14-18 | splitting a key loses nothing |
| Storage.KeysStayInside | apps/api/agentbenchx/storage.py:14-18 | an accepted key stays below any root, and two accepted keys never name the same place |
| Storage.KeysAreJoined | apps/api/agentbenchx/storage.py:14-18 | the accepted keys are exactly the joins of plain components |
| Storage.KeysTellTheirOwner | apps/api/agentbenchx/services.py:130-130 | keys of different evaluations or agent versions never meet: the identifier can be told from the key |
| Storage.StorageBackend.Put | apps/api/agentbenchx/storage.py:38-42 | a put never changes what is stored, succeeds only with the content in place under a key that was free, and refuses bad and taken keys without effect |
| Storage.Service.CollectArtifacts | apps/api/agentbenchx/services.py:127-141 | the six artifacts of a report are put one after another below one prefix until one fails |
| Storage.Service.Result | apps/api/agentbenchx/services.py:302-346 | the evaluation row is committed only after all artifacts are stored and the lease was found live again |
| Storage.Service.Upload | apps/api/agentbenchx/services.py:50-79 | unknown agents are refused with 404 and unfit files with 422, without effect; the agent file is stored before its row, which gets the agent's next version number |
| Storage.UploadAnswers | apps/api/agentbenchx/services.py:50-79 | which upload is answered with 404, 422, the next version number or an error, and what each leaves |
| Storage.PutsKeepAndHold | apps/api/agentbenchx/storage.py:81-107 | puts change nothing that is stored, and puts that all succeed leave every item in place |
| Storage.StoredByName | apps/api/agentbenchx/services.py:131-138 | the six artifacts name by name, with the part of the report that each holds |
| Storage.ReferencesHold | apps/api/agentbenchx/services.py:302-356 | over any sequence of stores and failures, every committed row's objects hold what was accepted, and stored bytes never change |
| Storage.NoDanglingReferences | apps/api/agentbenchx/services.py:127-141 | from an empty store, no committed evaluation or agent version ever refers to a missing or different object, or to an agent that does not exist |
| Storage.VersionsInSequence | apps/api/agentbenchx/services.py:61-64 | an agent's versions are 1, 2, 3, ... in the order of their uploads, whatever uploads fail |
| Deliveries.EvaluationsAfter | apps/api/agentbenchx/services.py:293-332 | the tables gain an evaluation if and only if it passes the checks, everything is stored and committed, and the lease is live at the second check; otherwise a result changes no job |
| Deliveries.ActKeeps | apps/api/agentbenchx/services.py:302-346 | every transaction and upload keeps the evaluations of the tables and of the store the same, row by row, and every row's objects in place |
| Deliveries.ReportedJobsAreFiled | apps/api/agentbenchx/services.py:302-356 | in every run from nothing, whatever puts, commits and leases fail, a job that ended otherwise than by the reaper has exactly one evaluation, with its status and with all six artifacts of that report in the store |
| Deliveries.FiledForGood | apps/api/agentbenchx/services.py:293-297 | an evaluation and its artifacts stay as they are through everything that follows |
| Deliveries.FailedDeliveryLeavesNoRow | apps/api/agentbenchx/services.py:318-321 | a result whose storing or commit failed, or whose lease ran out meanwhile, changes no job and leaves no row |
| Deliveries.FreshDeliveryIsAccepted | apps/api/agentbenchx/services.py:302-321 | what failed deliveries left in the write-once store hinders none: under an identifier that no earlier delivery or upload was given, with storage working, a result is filed if and only if its lease is still live |
| Deliveries.FreshUploadIsAccepted | apps/api/agentbenchx/services.py:50-79 | under such an identifier a fitting file of a known agent becomes its next version, stored below its own path, and anything else changes nothing |
| Deliveries.RunAccountsForKeys | apps/api/agentbenchx/services.py:127-141 | in every run each stored key was made for an identifier that the run has given |
| Deliveries.FiledByName | apps/api/agentbenchx/services.py:130-138 | the object under evaluations/<id>/<problem>/stdout.log is the accepted report's stdout, and so for the other five |
| Scheduling.PollingIsOrdered | workers/evaluator/config.py:28-35 | only an explicit maximum below the minimum is rejected, and accepted bounds are in order, with the legacy interval and at least 30 seconds where none is given |
| Scheduling.BackoffIsCapped | workers/evaluator/scheduling.py:27-30 | repeated doubling under a cap is the capped power of two times the minimum |
| Scheduling.DelayIsCappedPower | workers/evaluator/scheduling.py:27-34 | after k empty claims the schedule's delay is min(max, min * 2^k) |
| Scheduling.DoubledIsPower | workers/evaluator/scheduling.py:30-30 | doubling k times is multiplying by 2 to the k |
| Scheduling.IdleSchedule.StartupDelay | workers/evaluator/scheduling.py:15-16 | the first delay lies between 0 and the smaller of the minimum and five seconds |
| Scheduling.IdleSchedule.HeartbeatSent | workers/evaluator/scheduling.py:24-25 | the next heartbeat is due after 0.9 to 1 of its interval |
| Scheduling.IdleSchedule.Empty | workers/evaluator/scheduling.py:27-30 | the next poll lies between the minimum and the maximum from now, within the jitter of the delay, which doubles up to the cap |
| Scheduling.IdleSchedule.Found | workers/evaluator/scheduling.py:32-34 | a job makes the next poll due at once and resets the backoff |
| Scheduling.WaitIsExact | workers/evaluator/scheduling.py:36-37 | after the wait a poll or heartbeat is due, and not before |
| Scheduling.IdleWorker.OnePass | workers/evaluator/main.py:106-122 | one jobless pass of the run loop: it polls if and only if the poll is due and no due heartbeat failed; polls stay the minimum apart after an empty claim and the interval after a refused one |
| Scheduling.IdleWorker.Idle | workers/evaluator/main.py:106-157 | in any number of passes, whatever the jitter and the failures, windows T without a refused claim, or with an interval no shorter than the minimum, hold at most T / min + 1 polls |
| Scheduling.WindowBound | workers/evaluator/scheduling.py:27-30 | the bound itself, for any polls that are that far apart |
| Scheduling.FewPollsIff | workers/evaluator/main.py:152-157 | with refused claims the bound holds in general if and only if the interval is no shorter than the minimum |
| Scheduling.RefusedTwice | workers/evaluator/main.py:152-157 | for every interval below the minimum, a run of the loop with two polls where the bound allows one |
| Simulation.Claim | scripts/simulate_worker_load.py:43-63 | one claim of the simulated worker: its cost, when it finds a job, how long it takes, and that the next claim stays in time for the next job |
| Simulation.Day | scripts/simulate_worker_load.py:29-64 | the day's loop ends for every jitter, its counts follow from its calls, up to one job a minute every job is done, and an idle day makes 3600 claims before the change and 600 to 753 after it |
| Simulation.Simulate | scripts/simulate_worker_load.py:17-71 | for all workers, days, rates, jitter and both modes, every counter is the bill of registrations, heartbeats, empty claims, jobs and renewals |
| Simulation.WaitingProgresses | scripts/simulate_worker_load.py:40-42 | the termination measure falls when the loop sleeps |
| Simulation.ClaimingProgresses | scripts/simulate_worker_load.py:43-63 | the termination measure falls when the loop claims |
| Simulation.CompleteIff | scripts/simulate_worker_load.py:43-43 | all 5 * rate jobs of every worker-day are done if and only if rate is at most 60, or there is nobody |
| Simulation.RedisTotalIff | scripts/simulate_worker_load.py:64-70 | with producers, 2 * workers * days + 11J commands are published if and only if there is a day, or no worker |
| Simulation.DocumentedCosts | docs/communication-optimization.md:115-115 | the documented totals of requests and statements are those of the simulation |
| Simulation.DocumentedRequests | docs/communication-optimization.md:71-76 | the documented statements and commits of every kind of request, before and after the change |
| Simulation.DocumentedIdleMonth | docs/communication-optimization.md:109-112 | the published figures of the idle month: before the change all four to the unit, whatever the jitter; after it the published 240 commands, and at most a sixth of the requests |
| Dashboard.LatestRows | apps/api/agentbenchx/main.py:365-369 | the loop keeps one row for each submission, of its latest attempt |
| Dashboard.Summarize | apps/api/agentbenchx/main.py:371-408 | the summary's counts and success rate are those of the latest rows |
| Dashboard.SupersededHasFailed | apps/api/agentbenchx/main.py:366-369 | a job that is not of the latest attempt has failed or timed out |
| Dashboard.DashboardAgrees | apps/api/agentbenchx/main.py:365-408 | in every reachable state the four counts partition the submissions, and completed, running and queued equal the counts over all jobs ever created |
| Dashboard.OfflineHoldsNoLease | apps/api/agentbenchx/services.py:212-221 | with leases no longer than the offline interval, a worker marked offline holds no unexpired lease |
| Dashboard.LongLeaseOutlivesOffline | apps/api/agentbenchx/config.py:17-18 | with longer leases, some run has a worker marked OFFLINE by the reaper while its lease runs |
| Dashboard.OfflineIff | apps/api/agentbenchx/services.py:212-221 | some run marks a worker OFFLINE while its lease runs if and only if leases are longer than the offline interval |
| Scoring.ScoreMeaning | apps/api/agentbenchx/services.py:84-102 | counts add up, the score is in [0, 1], 1 if and only if something passed and nothing failed, 0 if and only if nothing passed |
| Scoring.TotalsIff | apps/api/agentbenchx/services.py:88-94 | the sums of tokens and costs are known if and only if both parts are |
| Scoring.ScoreOfCompleted | workers/evaluator/evaluator.py:82-93 | a completed evaluation scores 1 if any test passed and otherwise 0 |
| PatchCounting.PatchMetrics | workers/evaluator/results.py:34-47 | the loop's totals are those of the scan of the patch's lines |
| PatchCounting.BreaksAre | workers/evaluator/results.py:38-38 | which characters end a line |
| PatchCounting.CountsAddUp | workers/evaluator/results.py:38-46 | for any texts, counts of a patch followed by another that starts with a file header add up |
| PatchCounting.TotalsOfRenderedPatch | workers/evaluator/results.py:34-47 | for every patch git renders with distinct headers: the files are its own and the stray headers, the lines those written plus the stray ones less those missed after a stray header, and exactly when each total is exact |
| PatchCounting.ScanCounts | workers/evaluator/results.py:38-46 | for any lines, the scan's files are the header lines, and its totals the lines that start with + or - less those it misses because no hunk is open |
| PatchCounting.ExactTotals | workers/evaluator/results.py:34-47 | without breaks inside lines all three totals are exact |
| PatchCounting.FormFeedMiscounts | workers/evaluator/results.py:38-38 | a form feed in an added line adds a deletion that is not there |
| PatchCounting.StrayHeaderMiscounts | workers/evaluator/results.py:38-41 | a form feed before what looks like a file header adds a file that is not there |
| Sync.Discover | apps/api/agentbenchx/git_sources.py:200-266 | every task folder ends up in exactly one of the two lists, in order and with what its reading says, unless one reading stops discovery |
| Sync.ProblemSourceManager.Sync | apps/api/agentbenchx/git_sources.py:283-346 | a synchronisation records problems, versions, status and report together or rolls back and only says that it failed |
| Sync.TasksRecordExactly | apps/api/agentbenchx/git_sources.py:299-332 | recording tasks leaves exactly one version of each, linked to the problem of its source and path, and adds no other |
| Sync.SuccessSays | apps/api/agentbenchx/git_sources.py:283-339 | what a successful synchronisation says of its source, and that every new version holds its task and branch |
| Sync.VersionsAreDiscoveries | apps/api/agentbenchx/git_sources.py:283-346 | over any sequence of synchronisations a version exists if and only if it existed before or was discovered by a successful one, and never twice |
| Sync.ResyncCreatesNothing | apps/api/agentbenchx/git_sources.py:312-332 | synchronising again at the same commit creates nothing and reports 0 created |
| Sync.FailureChangesStatusOnly | apps/api/agentbenchx/git_sources.py:340-345 | a failed synchronisation changes the source's status and report and nothing else |

## Left out

- HTTP routing, bearer and administrator checks, response schemas, CORS and the event WebSocket; of `worker_auth` only the Worker row lock is modelled.
- Redis: notifications and events are advisory; publishing is not modelled and cannot affect the tables.
- PostgreSQL, SQLAlchemy and migrations: tables are sequences of rows, and row identifiers are positions in them.
- Within one transaction all writes use one clock reading (`writeAt`); the source reads the clock again for each column.
- A worker's row lock is summarised by the time of its last release (`freeAt`), which is not a column.
- RowLocks: requests that name a job that does not exist are not among the interleaved ones; they lock nothing and change nothing.
- Network calls are modelled in `Cluster`, Docker and file failures in `RunLoop`; the two models share the lease rules but are not composed into one state machine.
- ClusterSafety.NoDoubleExecutionEver: containers of a worker process that died are counted only once a process of that worker has restarted and recovered, which removes them; the theorem is about live processes.
- In `Cluster` a process whose clean-up failure stops it is one that crashes; that it stops, and when it does not, is `RunLoopSafety`.
- LeaseKeeping.LeaseKeeper.Renew: the reply that is not JSON ends the renewal without cancelling, as in the source; what its callers do then is modelled in `RenewalRound` and `Evaluators`.
- The three threads of `LeaseKeeper` are interleaved at their clock readings and waits, where another may cancel, and not between any two statements.
- Evaluators.Evaluate: the captured logs (stdout, stderr, agent output), their truncation and their replacement by build logs are taken as given.
- `run_worker --once`, identity files, registration of a worker, the workspace lock and the platform preflight.
- Reading files from containers, tar streams, process groups and timeouts of commands: each command has an outcome or raises an exception.
- Deliveries: of what the rows hold, the report and the artifact path; the rows for single tests, logs, patch and score, and the metrics, are functions of the report.
- Scheduling.IdleWorker.Idle: the bound is for one process; a restarted process polls anew after its start-up delay.
- Storage: object contents are text, so that encoding errors are put failures; symbolic links below the storage root are not modelled; delete is an internal operation that nothing calls.
- Storage: of the S3 backend the conditional write, the check after it and their failures are modelled, not the SDK's retries and headers.
- Scoring: the total cost is not rounded to eight digits, and numbers are exact reals.
- Simulation: times are exact reals instead of floating point, and `rate` is a whole number.
- Simulation.Day: the bound of one job a minute is proved for the default settings, which the script uses.
- Dashboard.Summarize: run times, costs, tokens, the average score and the rows of the job table are not summarised.
- PatchCounting.TotalsOfRenderedPatch: file names in headers and preambles hold no line break, because git quotes such names; patches with the same header twice, which git does not make, are not considered.
- Sync.Discover: what makes a task.toml valid, unfit or unexpectedly malformed (TOML, categories, tags, required files) is given as a function of its folder.
- Sync: the second commit, which records a failure, is taken to succeed; git itself is not modelled.
- URL and branch validation, JUnit and TOML parsing, syntax checks and digests are given outcomes or leave no trace.
- The web console, deployment files, seed data, schema export and the validation harness.
