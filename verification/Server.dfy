/** The control plane's transactions, each as one step on the tables
    (`EvaluationManager` in services.py). Row identifiers are positions in the tables. */
module Server {
  import opened Records

  datatype Config = Config(maxAttempts: nat, leaseSeconds: real, offlineSeconds: real)

  /** The bounds of `Settings`, plus `max_attempts >= 1`, which the service relies on. */
  predicate ValidConfig(c: Config) {
    c.maxAttempts >= 1 && c.leaseSeconds >= 30.0 && c.offlineSeconds >= 120.0
  }

  /** `attempts` is the unique index on (submission_id, attempt). */
  datatype Tables = Tables(
    submissions: seq<Submission>,
    jobs: seq<Job>,
    attempts: map<(nat, nat), nat>,
    workers: seq<Worker>,
    evaluations: seq<Evaluation>,
    tokens: nat)

  const EMPTY := Tables([], [], map[], [], [], 0)

  /** A transaction either commits new tables or leaves with an HTTP error. */
  datatype Outcome<+T> = Done(value: T) | Refused(code: nat) {
    predicate IsFailure() { Refused? }
    function PropagateFailure<U>(): Outcome<U> requires Refused? { Refused(code) }
    function Extract(): T requires Done? { value }
  }

  // ---------------------------------------------------------------- rows

  function QueuedJob(submission: nat, attempt: nat, stamp: Stamp): Job {
    Job(submission, attempt, stamp, QUEUED, None, None, None, None, None, None, None, None)
  }

  /** Insert a queued job; the unique index refuses a second row for an attempt. */
  function InsertJob(t: Tables, submission: nat, attempt: nat, stamp: Stamp): Outcome<Tables> {
    if (submission, attempt) in t.attempts then Refused(409)
    else Done(t.(jobs := t.jobs + [QueuedJob(submission, attempt, stamp)],
                 attempts := t.attempts[(submission, attempt) := |t.jobs|]))
  }

  predicate Owns(j: Job, w: nat) { j.worker == Some(w) && j.status.Active() }

  ghost predicate HasActiveJob(t: Tables, w: nat) {
    exists i :: 0 <= i < |t.jobs| && Owns(t.jobs[i], w)
  }

  function SetWorker(t: Tables, w: nat, row: Worker): Tables
    requires w < |t.workers|
  {
    t.(workers := t.workers[w := row])
  }

  /** The end of a worker's transaction: `worker_auth`'s row lock is released. */
  function Release(t: Tables, w: nat, now: real): Tables
    requires w < |t.workers|
  {
    SetWorker(t, w, t.workers[w].(freeAt := now))
  }

  // ---------------------------------------------------------------- submit, register

  /** One submission with its first attempt for each selected problem. */
  function SubmitAll(t: Tables, agent: nat, problems: seq<nat>, stamps: seq<Stamp>): Outcome<Tables>
    requires |problems| == |stamps|
    decreases |problems|
  {
    if problems == [] then Done(t)
    else
      var t1 :- InsertJob(t.(submissions := t.submissions + [Submission(agent, problems[0])]),
                          |t.submissions|, 1, stamps[0]);
      SubmitAll(t1, agent, problems[1..], stamps[1..])
  }

  function Register(t: Tables, now: real): Tables {
    t.(workers := t.workers + [Worker(ONLINE, now, now)])
  }

  // ---------------------------------------------------------------- worker requests

  datatype Request =
    | StatusBeat(worker: nat, status: WorkerStatus)
    | ClaimJob(worker: nat)
    | JobBeat(worker: nat, job: nat, token: nat, event: Event)
    | SendResult(worker: nat, job: nat, token: nat, report: Report)

  datatype Reply =
    | Noted
    | Nothing
    | Granted(job: nat, token: nat)
    | Renewed
    | Receipt(evaluation: nat)
    | Error(code: nat)

  /** Choices that are not the service's: when the transaction read its clock for
      its checks (`at`) and for its writes (`writeAt`), which queued rows were
      locked by others (`skipped`) and so which row the claim query returned,
      whether the query for the worker's active job found one (`busy`), the stamp of
      an inserted row, and whether storage and commit succeeded. */
  datatype Env = Env(at: real, writeAt: real, skipped: set<nat>, pick: Option<nat>,
                     busy: bool, stamp: Stamp, stored: bool)

  /** The claim query's order: `queued_at`, then id. */
  predicate Before(a: Stamp, b: Stamp) {
    a.queuedAt < b.queuedAt || (a.queuedAt == b.queuedAt && a.uuid <= b.uuid)
  }

  predicate Available(jobs: seq<Job>, skipped: set<nat>, i: nat) {
    i < |jobs| && jobs[i].status.QUEUED? && i !in skipped
  }

  /** The row `SELECT ... SKIP LOCKED LIMIT 1` may return. */
  ghost predicate Picks(jobs: seq<Job>, skipped: set<nat>, pick: Option<nat>) {
    match pick
    case None => forall i: nat :: !Available(jobs, skipped, i)
    case Some(p) =>
      && Available(jobs, skipped, p)
      && forall i: nat :: Available(jobs, skipped, i) ==> Before(jobs[p].stamp, jobs[i].stamp)
  }

  ghost predicate LegalEnv(t: Tables, w: nat, env: Env, now: real) {
    && env.at <= env.writeAt <= now
    && (w < |t.workers| ==> t.workers[w].freeAt <= env.at)
    && Picks(t.jobs, env.skipped, env.pick)
    // An active job is never missed; one that was seen may have been reaped since.
    && (HasActiveJob(t, w) ==> env.busy)
  }

  function AfterStatusBeat(t: Tables, w: nat, status: WorkerStatus, env: Env): Tables
    requires w < |t.workers|
  {
    var reported := if env.busy && status.ONLINE? then BUSY else status;
    SetWorker(t, w, t.workers[w].(status := reported, lastHeartbeat := env.writeAt))
  }

  predicate MayClaim(row: Worker, busy: bool) {
    row.status !in {DRAINING, ERROR, OFFLINE} && !busy
  }

  function AfterClaim(c: Config, t: Tables, w: nat, j: nat, env: Env): Tables
    requires w < |t.workers| && j < |t.jobs|
  {
    var row := t.jobs[j].(worker := Some(w), status := CLAIMED, token := Some(t.tokens),
                          heartbeatAt := Some(env.writeAt),
                          expires := Some(env.writeAt + c.leaseSeconds));
    SetWorker(t.(jobs := t.jobs[j := row], tokens := t.tokens + 1), w,
              t.workers[w].(status := BUSY, lastHeartbeat := env.writeAt))
  }

  /** The identity half of `owned_job`; an unclaimed row belongs to nobody. */
  predicate Presents(t: Tables, w: nat, j: nat, token: nat) {
    j < |t.jobs| && t.jobs[j].worker == Some(w) && t.jobs[j].token == Some(token)
  }

  predicate LeaseLive(j: Job, at: real) {
    j.status.Active() && j.expires.Some? && at < j.expires.value
  }

  function AfterJobBeat(c: Config, t: Tables, w: nat, j: nat, event: Event, env: Env): Tables
    requires w < |t.workers| && j < |t.jobs|
  {
    var prior := t.jobs[j];
    var row := prior.(lastEvent := Some(event), status := RUNNING,
                    heartbeatAt := Some(env.writeAt),
                    startedAt := if prior.startedAt.Some? then prior.startedAt else Some(env.writeAt),
                    expires := Some(env.writeAt + c.leaseSeconds));
    SetWorker(t.(jobs := t.jobs[j := row]), w, t.workers[w].(lastHeartbeat := env.writeAt))
  }

  predicate EvaluationOf(t: Tables, e: nat, j: nat) {
    e < |t.evaluations| && t.evaluations[e].job == j
  }

  ghost predicate Evaluated(t: Tables, j: nat) { exists e: nat :: EvaluationOf(t, e, j) }

  /** The writes of an accepted result, with a retry after an infrastructure failure. */
  function AfterResult(c: Config, t: Tables, w: nat, j: nat, report: Report, env: Env): Outcome<Tables>
    requires w < |t.workers| && j < |t.jobs|
  {
    var prior := t.jobs[j];
    var row := prior.(status := report.status, finishedAt := Some(env.writeAt),
                    error := if report.failure.Some? then Some(Reported(report.failure.value)) else None);
    var worker := t.workers[w].(status := if t.workers[w].status.DRAINING? then DRAINING else ONLINE,
                                lastHeartbeat := env.writeAt);
    var t1 := SetWorker(t.(jobs := t.jobs[j := row],
                           evaluations := t.evaluations + [Evaluation(j, prior.submission, w, report)]),
                        w, worker);
    if report.failure == Some(INFRASTRUCTURE_FAILURE) && prior.attempt < c.maxAttempts
    then InsertJob(t1, prior.submission, prior.attempt + 1, env.stamp)
    else Done(t1)
  }

  /** What one worker request does before its row lock is released, and its reply.
      A refused request changes nothing. */
  ghost function Answer(c: Config, t: Tables, q: Request, env: Env): (Tables, Reply)
    requires q.worker < |t.workers|
    requires Picks(t.jobs, env.skipped, env.pick)
  {
    var w := q.worker;
    match q
    case StatusBeat(_, status) => (AfterStatusBeat(t, w, status, env), Noted)
    case ClaimJob(_) =>
      if !MayClaim(t.workers[w], env.busy) then (t, Error(409))
      else if env.pick.None? then (t, Nothing)
      else (AfterClaim(c, t, w, env.pick.value, env), Granted(env.pick.value, t.tokens))
    case JobBeat(_, j, token, event) =>
      if !Presents(t, w, j, token) then (t, Error(403))
      else if !LeaseLive(t.jobs[j], env.at) then (t, Error(409))
      else (AfterJobBeat(c, t, w, j, event, env), Renewed)
    case SendResult(_, j, token, report) =>
      if !Presents(t, w, j, token) then (t, Error(403))
      else if Evaluated(t, j) then
        if LeaseLive(t.jobs[j], env.at) || t.jobs[j].status.Terminal() then
          (t, Receipt(var e: nat :| EvaluationOf(t, e, j); e))
        else (t, Error(409))
      // The lease is checked again after the artifacts are stored.
      else if !LeaseLive(t.jobs[j], env.at) then (t, Error(409))
      else if !env.stored then (t, Error(503))
      else if !LeaseLive(t.jobs[j], env.writeAt) then (t, Error(409))
      else match AfterResult(c, t, w, j, report, env)
           case Done(t') => (t', Receipt(|t.evaluations|))
           case Refused(code) => (t, Error(code))
  }

  ghost function Handle(c: Config, t: Tables, q: Request, env: Env, now: real): (Tables, Reply)
    requires Picks(t.jobs, env.skipped, env.pick)
  {
    if q.worker >= |t.workers| then (t, Error(404))
    else
      var (t', reply) := Answer(c, t, q, env);
      (Release(t', q.worker, now), reply)
  }

  // ---------------------------------------------------------------- reaper

  predicate Expired(t: Tables, i: nat, at: real) {
    && i < |t.jobs|
    && t.jobs[i].status.Active()
    && t.jobs[i].expires.Some?
    && t.jobs[i].expires.value < at
  }

  /** Distinct expired rows: what the reaper's query returns, rows locked by others left out. */
  ghost predicate ReapSelection(t: Tables, expired: seq<nat>, at: real) {
    && (forall k :: 0 <= k < |expired| ==> Expired(t, expired[k], at))
    && (forall k, l :: 0 <= k < l < |expired| ==> expired[k] != expired[l])
  }

  function ReapOne(c: Config, t: Tables, j: nat, writeAt: real, stamp: Stamp): Outcome<Tables>
    requires j < |t.jobs|
  {
    var prior := t.jobs[j];
    var row := prior.(status := if prior.attempt >= c.maxAttempts then FAILED else TIMEOUT,
                    finishedAt := Some(writeAt), error := Some(LeaseExpired));
    var t1 := t.(jobs := t.jobs[j := row]);
    if prior.attempt < c.maxAttempts then InsertJob(t1, prior.submission, prior.attempt + 1, stamp)
    else Done(t1)
  }

  /** The reaper's first transaction. */
  function ReapAll(c: Config, t: Tables, expired: seq<nat>, writeAt: real, stamps: seq<Stamp>): Outcome<Tables>
    requires |expired| == |stamps|
    requires forall k :: 0 <= k < |expired| ==> expired[k] < |t.jobs|
    decreases |expired|
  {
    if expired == [] then Done(t)
    else
      var t1 :- ReapOne(c, t, expired[0], writeAt, stamps[0]);
      ReapAll(c, t1, expired[1..], writeAt, stamps[1..])
  }

  predicate Silent(c: Config, t: Tables, w: nat, at: real) {
    && w < |t.workers|
    && t.workers[w].lastHeartbeat < at - c.offlineSeconds
    && t.workers[w].status in {ONLINE, BUSY}
  }

  /** The reaper's second transaction. */
  function MarkOffline(t: Tables, offline: set<nat>, now: real): Tables {
    t.(workers := seq(|t.workers|, i requires 0 <= i < |t.workers| =>
         if i in offline then t.workers[i].(status := OFFLINE, freeAt := now) else t.workers[i]))
  }

  // ---------------------------------------------------------------- runs

  datatype Op =
    | OpSubmit(agent: nat, problems: seq<nat>, stamps: seq<Stamp>)
    | OpRegister
    | OpRequest(request: Request, env: Env)
    | OpReap(expired: seq<nat>, at: real, writeAt: real, jobStamps: seq<Stamp>)
    | OpOffline(offline: set<nat>, at: real)

  ghost predicate Legal(c: Config, t: Tables, op: Op, now: real) {
    match op
    case OpSubmit(_, problems, stamps) => |problems| == |stamps|
    case OpRegister => true
    case OpRequest(q, env) =>
      && LegalEnv(t, q.worker, env, now)
      && (q.SendResult? ==> ConsistentStatus(q.report))
    case OpReap(expired, at, writeAt, stamps) =>
      |expired| == |stamps| && at <= writeAt <= now && ReapSelection(t, expired, at)
    case OpOffline(offline, at) =>
      at <= now && forall w :: w in offline ==> Silent(c, t, w, at) && t.workers[w].freeAt <= at
  }

  function Commit(t: Tables, r: Outcome<Tables>): Tables {
    match r case Done(t') => t' case Refused(_) => t
  }

  ghost function Apply(c: Config, t: Tables, op: Op, now: real): Tables
    requires Legal(c, t, op, now)
  {
    match op
    case OpSubmit(agent, problems, stamps) => Commit(t, SubmitAll(t, agent, problems, stamps))
    case OpRegister => Register(t, now)
    case OpRequest(q, env) => Handle(c, t, q, env, now).0
    case OpReap(expired, _, writeAt, stamps) => Commit(t, ReapAll(c, t, expired, writeAt, stamps))
    case OpOffline(offline, _) => MarkOffline(t, offline, now)
  }
}
