/** The service's transactions as they interleave in the database: row locks taken one
    at a time, rows read under a lock and written from those readings at commit. */
module RowLocks {
  import opened Records
  import opened Server

  /** How far a transaction has come. Rows it has locked are carried as it read them.
      A worker request locks its Worker row first (`worker_auth`) and its job second;
      the reaper locks jobs, commits, and then locks workers. */
  datatype Txn =
    | WantWorker(q: Request)
    | HasWorker(q: Request, wr: Worker)
    | Seen(q: Request, wr: Worker, at: real, busy: bool)
    | Picked(q: Request, wr: Worker, at: real, job: nat, row: Job)
    | Empty(q: Request, wr: Worker, at: real)
    | WantJob(q: Request, wr: Worker)
    | HasJob(q: Request, wr: Worker, row: Job, at: real, previous: Option<nat>)
    | Stored(q: Request, wr: Worker, row: Job, at: real, storedAt: real, stored: bool)
    | Reaping(expired: seq<nat>, rows: seq<Job>, reapAt: real)
    | Marking(offline: set<nat>, markAt: real)

  datatype State = State(
    db: Tables,
    clock: real,
    workerLocks: map<nat, nat>,
    jobLocks: map<nat, nat>,
    txs: map<nat, Txn>)

  datatype Action =
    | Begin(x: nat, q: Request)
    | TakeWorker(x: nat)                  // blocking
    | Look(x: nat)                        // the active-job query
    | Pick(x: nat, pick: Option<nat>)     // SKIP LOCKED
    | AskJob(x: nat)
    | TakeJob(x: nat)                     // blocking
    | Store(x: nat, ok: bool)
    | Finish(x: nat, writeAt: real, stamp: Stamp)
    | Abort(x: nat)
    | BeginReap(x: nat, expired: seq<nat>)        // SKIP LOCKED
    | FinishReap(x: nat, writeAt: real, stamps: seq<Stamp>)
    | BeginMark(x: nat, offline: set<nat>)        // SKIP LOCKED
    | FinishMark(x: nat)
    | Insert(op: Op)                      // a submission or a registration: new rows only
    | Pass(dt: real)

  // ---------------------------------------------------------------- reading and writing

  /** Requests that lock a job row. */
  predicate NamesJob(q: Request) { q.JobBeat? || q.SendResult? }

  predicate Matches(q: Request, row: Job)
    requires NamesJob(q)
  {
    row.worker == Some(q.worker) && row.token == Some(q.token)
  }

  /** A result that still has to store its artifacts before it can be committed. */
  predicate NeedsStorage(tx: Txn)
    requires tx.HasJob?
  {
    tx.q.SendResult? && Matches(tx.q, tx.row) && tx.previous.None? && LeaseLive(tx.row, tx.at)
  }

  predicate CanFinish(tx: Txn, writeAt: real, clock: real) {
    match tx
    case Seen(q, wr, at, busy) => (q.StatusBeat? || !MayClaim(wr, busy)) && at <= writeAt <= clock
    case Picked(_, _, at, _, _) => at <= writeAt <= clock
    case Empty(_, _, at) => at <= writeAt <= clock
    case HasJob(_, _, _, at, _) => !NeedsStorage(tx) && at <= writeAt <= clock
    case Stored(_, _, _, _, storedAt, _) => writeAt == storedAt
    case _ => false
  }

  function PutWorker(db: Tables, w: nat, row: Worker, now: real): Tables
    requires w < |db.workers|
  {
    db.(workers := db.workers[w := row.(freeAt := now)])
  }

  /** What a request writes when it commits, computed from the rows it read. */
  function Written(c: Config, db: Tables, tx: Txn, writeAt: real, stamp: Stamp, now: real): Tables
    requires CanFinish(tx, writeAt, now) && tx.q.worker < |db.workers|
  {
    var w := tx.q.worker;
    match tx
    case Seen(q, wr, _, busy) =>
      if q.StatusBeat? then
        PutWorker(db, w, wr.(status := if busy && q.status.ONLINE? then BUSY else q.status,
                             lastHeartbeat := writeAt), now)
      else PutWorker(db, w, wr, now)
    case Empty(_, wr, _) => PutWorker(db, w, wr, now)
    case Picked(_, wr, _, j, row) =>
      if j >= |db.jobs| then db
      else
        var claimed := row.(worker := Some(w), status := CLAIMED, token := Some(db.tokens),
                            heartbeatAt := Some(writeAt), expires := Some(writeAt + c.leaseSeconds));
        PutWorker(db.(jobs := db.jobs[j := claimed], tokens := db.tokens + 1), w,
                  wr.(status := BUSY, lastHeartbeat := writeAt), now)
    case HasJob(q, wr, row, at, _) =>
      if q.JobBeat? && Matches(q, row) && LeaseLive(row, at) && q.job < |db.jobs| then
        var beaten := row.(lastEvent := Some(q.event), status := RUNNING, heartbeatAt := Some(writeAt),
                           startedAt := if row.startedAt.Some? then row.startedAt else Some(writeAt),
                           expires := Some(writeAt + c.leaseSeconds));
        PutWorker(db.(jobs := db.jobs[q.job := beaten]), w, wr.(lastHeartbeat := writeAt), now)
      else PutWorker(db, w, wr, now)
    case Stored(q, wr, row, _, storedAt, stored) =>
      if q.SendResult? && stored && LeaseLive(row, storedAt) && q.job < |db.jobs| then
        Commit(PutWorker(db, w, wr, now), WriteResult(c, db, q, wr, row, storedAt, stamp, now))
      else PutWorker(db, w, wr, now)
    case _ => db
  }

  function WriteResult(c: Config, db: Tables, q: Request, wr: Worker, row: Job, writeAt: real, stamp: Stamp,
                       now: real): Outcome<Tables>
    requires q.SendResult? && q.worker < |db.workers| && q.job < |db.jobs|
  {
    var ended := row.(status := q.report.status, finishedAt := Some(writeAt),
                      error := if q.report.failure.Some? then Some(Reported(q.report.failure.value)) else None);
    var t1 := PutWorker(db.(jobs := db.jobs[q.job := ended],
                            evaluations := db.evaluations + [Evaluation(q.job, row.submission, q.worker, q.report)]),
                        q.worker, wr.(status := if wr.status.DRAINING? then DRAINING else ONLINE,
                                      lastHeartbeat := writeAt), now);
    if q.report.failure == Some(INFRASTRUCTURE_FAILURE) && row.attempt < c.maxAttempts
    then InsertJob(t1, row.submission, row.attempt + 1, stamp)
    else Done(t1)
  }

  function WriteReapedRow(c: Config, db: Tables, j: nat, row: Job, writeAt: real, stamp: Stamp): Outcome<Tables>
    requires j < |db.jobs|
  {
    var ended := row.(status := if row.attempt >= c.maxAttempts then FAILED else TIMEOUT,
                      finishedAt := Some(writeAt), error := Some(LeaseExpired));
    var t1 := db.(jobs := db.jobs[j := ended]);
    if row.attempt < c.maxAttempts then InsertJob(t1, row.submission, row.attempt + 1, stamp) else Done(t1)
  }

  /** What the reaper writes when it commits, computed from the rows it read. */
  function WriteReaped(c: Config, db: Tables, expired: seq<nat>, rows: seq<Job>, writeAt: real,
                       stamps: seq<Stamp>): Outcome<Tables>
    requires |expired| == |rows| == |stamps|
    requires forall k | 0 <= k < |expired| :: expired[k] < |db.jobs|
    decreases |expired|
  {
    if expired == [] then Done(db)
    else
      var t1 :- WriteReapedRow(c, db, expired[0], rows[0], writeAt, stamps[0]);
      WriteReaped(c, t1, expired[1..], rows[1..], writeAt, stamps[1..])
  }

  // ---------------------------------------------------------------- locks

  predicate HoldsWorker(tx: Txn, w: nat) {
    match tx
    case WantWorker(_) => false
    case Reaping(_, _, _) => false
    case Marking(offline, _) => w in offline
    case _ => tx.q.worker == w
  }

  predicate HoldsJob(tx: Txn, j: nat) {
    match tx
    case Picked(_, _, _, job, _) => job == j
    case HasJob(q, _, _, _, _) => NamesJob(q) && q.job == j
    case Stored(q, _, _, _, _, _) => NamesJob(q) && q.job == j
    case Reaping(expired, _, _) => j in expired
    case _ => false
  }

  /** Drop every lock of a transaction: it committed or rolled back. */
  function End(s: State, x: nat): State {
    s.(workerLocks := map w | w in s.workerLocks && s.workerLocks[w] != x :: s.workerLocks[w],
       jobLocks := map j | j in s.jobLocks && s.jobLocks[j] != x :: s.jobLocks[j],
       txs := s.txs - {x})
  }

  function Continue(s: State, x: nat, tx: Txn): State { s.(txs := s.txs[x := tx]) }

  /** What the reaper's query returns: expired and not locked by anybody. */
  ghost predicate ReapQuery(s: State, expired: seq<nat>) {
    && ReapSelection(s.db, expired, s.clock)
    && forall i: nat :: i in expired <==> Expired(s.db, i, s.clock) && i !in s.jobLocks
  }

  ghost predicate Enabled(c: Config, s: State, a: Action) {
    match a
    case Begin(x, q) =>
      && x !in s.txs && q.worker < |s.db.workers|
      && (NamesJob(q) ==> q.job < |s.db.jobs|)
      && (q.SendResult? ==> ConsistentStatus(q.report))
    case TakeWorker(x) =>
      && x in s.txs && s.txs[x].WantWorker?
      && s.txs[x].q.worker !in s.workerLocks && s.txs[x].q.worker < |s.db.workers|
    case Look(x) => x in s.txs && s.txs[x].HasWorker? && !NamesJob(s.txs[x].q)
    case Pick(x, pick) =>
      && x in s.txs && s.txs[x].Seen? && s.txs[x].q.ClaimJob? && MayClaim(s.txs[x].wr, s.txs[x].busy)
      && Picks(s.db.jobs, s.jobLocks.Keys, pick)
    case AskJob(x) => x in s.txs && s.txs[x].HasWorker? && NamesJob(s.txs[x].q)
    case TakeJob(x) =>
      && x in s.txs && s.txs[x].WantJob? && NamesJob(s.txs[x].q)
      && s.txs[x].q.job !in s.jobLocks && s.txs[x].q.job < |s.db.jobs|
    case Store(x, _) => x in s.txs && s.txs[x].HasJob? && NeedsStorage(s.txs[x])
    case Finish(x, writeAt, _) =>
      && x in s.txs && CanFinish(s.txs[x], writeAt, s.clock) && s.txs[x].q.worker < |s.db.workers|
    case Abort(x) => x in s.txs
    case BeginReap(x, expired) => x !in s.txs && ReapQuery(s, expired)
    case FinishReap(x, writeAt, stamps) =>
      && x in s.txs && s.txs[x].Reaping? && s.txs[x].reapAt <= writeAt <= s.clock
      && |stamps| == |s.txs[x].expired| == |s.txs[x].rows|
      && forall k | 0 <= k < |s.txs[x].expired| :: s.txs[x].expired[k] < |s.db.jobs|
    case BeginMark(x, offline) =>
      x !in s.txs && forall w: nat :: w in offline <==> Silent(c, s.db, w, s.clock) && w !in s.workerLocks
    case FinishMark(x) => x in s.txs && s.txs[x].Marking?
    case Insert(op) => (op.OpSubmit? || op.OpRegister?) && Legal(c, s.db, op, s.clock)
    case Pass(dt) => dt >= 0.0
  }

  /** The evaluation query of `result`, run under the job lock. */
  ghost function FindEvaluation(db: Tables, j: nat): (r: Option<nat>)
    ensures r.Some? <==> Evaluated(db, j)
    ensures r.Some? ==> EvaluationOf(db, r.value, j)
  {
    if Evaluated(db, j) then var e: nat :| EvaluationOf(db, e, j); Some(e) else None
  }

  function LockJobs(locks: map<nat, nat>, jobs: seq<nat>, x: nat): map<nat, nat> {
    map j | j in locks.Keys + (set k | k in jobs) :: if j in jobs then x else locks[j]
  }

  ghost function Next(c: Config, s: State, a: Action): State
    requires Enabled(c, s, a)
  {
    match a
    case Begin(x, q) => Continue(s, x, WantWorker(q))
    case TakeWorker(x) =>
      var q := s.txs[x].q;
      Continue(s, x, HasWorker(q, s.db.workers[q.worker])).(workerLocks := s.workerLocks[q.worker := x])
    case Look(x) =>
      Continue(s, x, Seen(s.txs[x].q, s.txs[x].wr, s.clock, HasActiveJob(s.db, s.txs[x].q.worker)))
    case Pick(x, pick) =>
      var tx := s.txs[x];
      if pick.None? then Continue(s, x, Empty(tx.q, tx.wr, tx.at))
      else
        var picked := Picked(tx.q, tx.wr, tx.at, pick.value, s.db.jobs[pick.value]);
        Continue(s, x, picked).(jobLocks := s.jobLocks[pick.value := x])
    case AskJob(x) => Continue(s, x, WantJob(s.txs[x].q, s.txs[x].wr))
    case TakeJob(x) =>
      var tx := s.txs[x];
      Continue(s, x, HasJob(tx.q, tx.wr, s.db.jobs[tx.q.job], s.clock, FindEvaluation(s.db, tx.q.job)))
        .(jobLocks := s.jobLocks[tx.q.job := x])
    case Store(x, ok) =>
      var tx := s.txs[x];
      Continue(s, x, Stored(tx.q, tx.wr, tx.row, tx.at, s.clock, ok))
    case Finish(x, writeAt, stamp) => End(s, x).(db := Written(c, s.db, s.txs[x], writeAt, stamp, s.clock))
    case Abort(x) => End(s, x)
    case BeginReap(x, expired) =>
      var rows := seq(|expired|, k requires 0 <= k < |expired| && expired[k] < |s.db.jobs| => s.db.jobs[expired[k]]);
      Continue(s, x, Reaping(expired, rows, s.clock))
        .(jobLocks := LockJobs(s.jobLocks, expired, x))
    case FinishReap(x, writeAt, stamps) =>
      End(s, x).(db := Commit(s.db, WriteReaped(c, s.db, s.txs[x].expired, s.txs[x].rows, writeAt, stamps)))
    case BeginMark(x, offline) =>
      Continue(s, x, Marking(offline, s.clock))
        .(workerLocks := map w | w in s.workerLocks.Keys + offline :: if w in offline then x else s.workerLocks[w])
    case FinishMark(x) => End(s, x).(db := MarkOffline(s.db, s.txs[x].offline, s.clock))
    case Insert(op) => s.(db := Apply(c, s.db, op, s.clock))
    case Pass(dt) => s.(clock := s.clock + dt)
  }
}
