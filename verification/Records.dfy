/** The rows of the control plane's tables and the payload a worker reports. */
module Records {

  datatype Option<+T> = None | Some(value: T)

  /** All row numbers of a table of `n` rows. */
  function Below(n: nat): (r: set<nat>)
    ensures |r| == n && forall i: nat :: i in r <==> i < n
  {
    if n == 0 then {} else Below(n - 1) + {n - 1}
  }

  datatype JobStatus = QUEUED | CLAIMED | RUNNING | COMPLETED | FAILED | TIMEOUT {
    predicate Active() { CLAIMED? || RUNNING? }
    predicate Terminal() { COMPLETED? || FAILED? || TIMEOUT? }
  }

  datatype WorkerStatus = ONLINE | BUSY | DRAINING | ERROR | OFFLINE

  datatype FailureType =
    | INFRASTRUCTURE_FAILURE
    | AGENT_FAILURE
    | TEST_FAILURE
    | TIMED_OUT
    | SECURITY_FAILURE

  datatype TestStatus = PASSED | TEST_FAILED | SKIPPED

  datatype Metrics = Metrics(
    runtime: real,
    inputTokens: Option<nat>, outputTokens: Option<nat>,
    llmCost: Option<real>, computeCost: Option<real>,
    filesChanged: nat, insertions: nat, deletions: nat)

  /** What a worker sends as a result, without the lease token that authorises it. */
  datatype Report = Report(
    status: JobStatus,
    failure: Option<FailureType>,
    tests: seq<TestStatus>,
    metrics: Metrics,
    stdout: string, stderr: string, agentOutput: string, patch: string)

  /** `ResultInput.consistent_status`, including the literal type of `status`. */
  predicate ConsistentStatus(r: Report) {
    && r.status.Terminal()
    && (r.status.COMPLETED? ==> r.failure.None? && TEST_FAILED !in r.tests)
    && (!r.status.COMPLETED? ==> r.failure.Some?)
    && (r.status.TIMEOUT? ==> r.failure == Some(TIMED_OUT))
  }

  /** `RunnerJob.error_message`. */
  datatype ErrorMessage = LeaseExpired | Reported(failure: FailureType)

  /** What the database supplies when a job row is inserted: its queue time and
      its UUID, of which only the order matters (the tie-break of a claim). */
  datatype Stamp = Stamp(queuedAt: real, uuid: int)

  datatype Event = JobStarted | AgentStarted | AgentFinished | TestStarted | TestProgress | TestFinished

  datatype Job = Job(
    submission: nat,
    attempt: nat,
    stamp: Stamp,
    status: JobStatus,
    worker: Option<nat>,
    token: Option<nat>,
    expires: Option<real>,
    heartbeatAt: Option<real>,
    startedAt: Option<real>,
    finishedAt: Option<real>,
    lastEvent: Option<Event>,
    error: Option<ErrorMessage>)

  /** `freeAt` is not a column: it is the time at which the row lock taken by
      `worker_auth` was last released, so that two requests of one worker do not overlap. */
  datatype Worker = Worker(status: WorkerStatus, lastHeartbeat: real, freeAt: real)

  datatype Submission = Submission(agent: nat, problem: nat)

  datatype Evaluation = Evaluation(job: nat, submission: nat, worker: nat, report: Report)
}
