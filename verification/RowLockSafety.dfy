/** Row locks do their work: what a transaction read stays true until it commits, every
    commit is one step of the atomic protocol, and transactions never deadlock. */
module RowLockSafety {
  import opened Records
  import opened Server
  import opened RowLocks
  import SI = ServerInvariant
  import SR = ServerRuns
  import SP = ServerProgress

  // ---------------------------------------------------------------- no deadlock

  /** `x` is blocked on a row that `y` has locked. */
  predicate WaitsFor(s: State, x: nat, y: nat) {
    && x in s.txs
    && var tx := s.txs[x];
    && ((tx.WantWorker? && tx.q.worker in s.workerLocks && s.workerLocks[tx.q.worker] == y)
        || (tx.WantJob? && NamesJob(tx.q) && tx.q.job in s.jobLocks && s.jobLocks[tx.q.job] == y))
  }

  /** How many locks a blocked transaction still has before it. */
  function Rank(s: State, x: nat): nat {
    if x !in s.txs then 0 else if s.txs[x].WantWorker? then 2 else if s.txs[x].WantJob? then 1 else 0
  }

  lemma WaitingDescends(s: State, x: nat, y: nat)
    requires LocksOk(s) && WaitsFor(s, x, y)
    ensures Rank(s, y) < Rank(s, x)
  {
  }

  /** A chain of blocked transactions, each waiting for the next. */
  ghost predicate WaitChain(s: State, path: seq<nat>) {
    forall k | 0 <= k < |path| - 1 :: WaitsFor(s, path[k], path[k + 1])
  }

  lemma {:induction false} ChainDescends(s: State, path: seq<nat>, k: nat)
    requires LocksOk(s) && WaitChain(s, path) && k < |path|
    ensures Rank(s, path[k]) + k <= Rank(s, path[0])
  {
    if k > 0 {
      ChainDescends(s, path, k - 1);
      assert WaitsFor(s, path[k - 1], path[k - 1 + 1]);
      WaitingDescends(s, path[k - 1], path[k]);
    }
  }

  /** The wait-for graph has no cycle, and no chain of more than two waits. */
  lemma NoDeadlock(s: State, path: seq<nat>)
    requires LocksOk(s) && WaitChain(s, path) && |path| >= 2
    ensures |path| <= 3 && path[0] != path[|path| - 1]
  {
    ChainDescends(s, path, |path| - 1);
  }

  // ---------------------------------------------------------------- the invariant

  /** The lock tables and the transactions agree on who holds what. */
  ghost predicate LocksOk(s: State) {
    && (forall w | w in s.workerLocks :: s.workerLocks[w] in s.txs && HoldsWorker(s.txs[s.workerLocks[w]], w))
    && (forall j | j in s.jobLocks :: s.jobLocks[j] in s.txs && HoldsJob(s.txs[s.jobLocks[j]], j))
    && (forall x: nat, w: nat {:trigger HoldsWorker(s.txs[x], w)} | x in s.txs && HoldsWorker(s.txs[x], w) ::
        w in s.workerLocks && s.workerLocks[w] == x)
    && (forall x: nat, j: nat {:trigger HoldsJob(s.txs[x], j)} | x in s.txs && HoldsJob(s.txs[x], j) ::
        j in s.jobLocks && s.jobLocks[j] == x)
  }

  ghost predicate AskedOk(db: Tables, q: Request) {
    && q.worker < |db.workers|
    && (NamesJob(q) ==> q.job < |db.jobs|)
    && (q.SendResult? ==> ConsistentStatus(q.report))
  }

  ghost predicate RowHeld(db: Tables, q: Request, wr: Worker) {
    AskedOk(db, q) && db.workers[q.worker] == wr
  }

  /** Everything a transaction has read is still so. */
  ghost predicate TxOk(c: Config, db: Tables, clock: real, tx: Txn) {
    match tx
    case WantWorker(q) => AskedOk(db, q)
    case HasWorker(q, wr) => RowHeld(db, q, wr)
    case WantJob(q, wr) => RowHeld(db, q, wr) && NamesJob(q)
    case Seen(q, wr, at, busy) =>
      RowHeld(db, q, wr) && !NamesJob(q) && wr.freeAt <= at <= clock && (HasActiveJob(db, q.worker) ==> busy)
    case Picked(q, wr, at, j, row) =>
      && RowHeld(db, q, wr) && q.ClaimJob? && wr.freeAt <= at <= clock
      && MayClaim(wr, false) && !HasActiveJob(db, q.worker)
      && j < |db.jobs| && db.jobs[j] == row && row.status.QUEUED?
    case Empty(q, wr, at) =>
      && RowHeld(db, q, wr) && q.ClaimJob? && wr.freeAt <= at <= clock
      && MayClaim(wr, false) && !HasActiveJob(db, q.worker)
    case HasJob(q, wr, row, at, previous) =>
      && RowHeld(db, q, wr) && NamesJob(q) && wr.freeAt <= at <= clock && db.jobs[q.job] == row
      && (if previous.Some? then EvaluationOf(db, previous.value, q.job) else !Evaluated(db, q.job))
    case Stored(q, wr, row, at, storedAt, _) =>
      && RowHeld(db, q, wr) && q.SendResult? && wr.freeAt <= at <= storedAt <= clock && db.jobs[q.job] == row
      && Matches(q, row) && LeaseLive(row, at) && !Evaluated(db, q.job)
    case Reaping(expired, rows, at) =>
      && ReapSelection(db, expired, at) && at <= clock && |rows| == |expired|
      && forall k | 0 <= k < |expired| :: rows[k] == db.jobs[expired[k]]
    case Marking(offline, at) =>
      at <= clock && forall w | w in offline :: Silent(c, db, w, at) && db.workers[w].freeAt <= at
  }

  ghost predicate Inv(c: Config, s: State) {
    && SI.Inv(c, s.db) && SP.Past(s.db, s.clock)
    && LocksOk(s)
    && forall x | x in s.txs :: TxOk(c, s.db, s.clock, s.txs[x])
  }

  /** The check that lets a claim through holds until the claim commits. */
  lemma ClaimCheckStays(c: Config, s: State, x: nat)
    requires Inv(c, s) && x in s.txs && (s.txs[x].Picked? || s.txs[x].Empty?)
    ensures !HasActiveJob(s.db, s.txs[x].q.worker)
    ensures s.txs[x].Picked? ==> s.txs[x].job < |s.db.jobs| && s.db.jobs[s.txs[x].job].status.QUEUED?
  {
  }

  // ---------------------------------------------------------------- refinement

  /** The environment in which the atomic step answers as the transaction did. */
  function EnvOf(db: Tables, tx: Txn, writeAt: real, stamp: Stamp): Env
    requires CanFinish(tx, writeAt, writeAt) || tx.Stored?
  {
    var all := Below(|db.jobs|);
    match tx
    case Seen(_, _, at, busy) => Env(at, writeAt, all, None, busy, stamp, true)
    case Picked(_, _, at, j, _) => Env(at, writeAt, all - {j}, Some(j), false, stamp, true)
    case Empty(_, _, at) => Env(at, writeAt, all, None, false, stamp, true)
    case HasJob(_, _, _, at, _) => Env(at, writeAt, all, None, true, stamp, true)
    case Stored(_, _, _, at, storedAt, stored) => Env(at, storedAt, all, None, true, stamp, stored)
    case _ => Env(writeAt, writeAt, all, None, true, stamp, true)
  }

  /** A request that commits from what it read does exactly one atomic request. */
  lemma RequestRefines(c: Config, s: State, x: nat, writeAt: real, stamp: Stamp)
    requires Inv(c, s) && ValidConfig(c) && Enabled(c, s, Finish(x, writeAt, stamp))
    ensures var tx := s.txs[x];
            var env := EnvOf(s.db, tx, writeAt, stamp);
            && LegalEnv(s.db, tx.q.worker, env, s.clock)
            && (tx.q.SendResult? ==> ConsistentStatus(tx.q.report))
            && Written(c, s.db, tx, writeAt, stamp, s.clock) == Handle(c, s.db, tx.q, env, s.clock).0
  {
    var tx := s.txs[x];
    assert TxOk(c, s.db, s.clock, tx);
    RequestRefinesTx(c, s.db, tx, writeAt, stamp, s.clock);
  }

  lemma RequestRefinesTx(c: Config, db: Tables, tx: Txn, writeAt: real, stamp: Stamp, now: real)
    requires SI.Inv(c, db) && TxOk(c, db, now, tx) && CanFinish(tx, writeAt, now)
    ensures var env := EnvOf(db, tx, writeAt, stamp);
            && LegalEnv(db, tx.q.worker, env, now)
            && (tx.q.SendResult? ==> ConsistentStatus(tx.q.report))
            && Written(c, db, tx, writeAt, stamp, now) == Handle(c, db, tx.q, env, now).0
  {
    match tx
    case Seen(_, _, _, _) => SeenRefines(c, db, tx, writeAt, stamp, now);
    case Picked(_, _, _, _, _) => PickedRefines(c, db, tx, writeAt, stamp, now);
    case Empty(_, _, _) => SeenRefines(c, db, tx, writeAt, stamp, now);
    case HasJob(_, _, _, _, _) => HasJobRefines(c, db, tx, writeAt, stamp, now);
    case Stored(_, _, _, _, _, _) => StoredRefines(c, db, tx, stamp, now);
  }

  lemma SeenRefines(c: Config, db: Tables, tx: Txn, writeAt: real, stamp: Stamp, now: real)
    requires TxOk(c, db, now, tx) && CanFinish(tx, writeAt, now) && (tx.Seen? || tx.Empty?)
    ensures var env := EnvOf(db, tx, writeAt, stamp);
            LegalEnv(db, tx.q.worker, env, now)
                && Written(c, db, tx, writeAt, stamp, now) == Handle(c, db, tx.q, env, now).0
  {
  }

  lemma PickedRefines(c: Config, db: Tables, tx: Txn, writeAt: real, stamp: Stamp, now: real)
    requires TxOk(c, db, now, tx) && CanFinish(tx, writeAt, now) && tx.Picked?
    ensures var env := EnvOf(db, tx, writeAt, stamp);
            LegalEnv(db, tx.q.worker, env, now)
                && Written(c, db, tx, writeAt, stamp, now) == Handle(c, db, tx.q, env, now).0
  {
  }

  lemma HasJobRefines(c: Config, db: Tables, tx: Txn, writeAt: real, stamp: Stamp, now: real)
    requires SI.Evaluations(db) && TxOk(c, db, now, tx) && CanFinish(tx, writeAt, now) && tx.HasJob?
    ensures var env := EnvOf(db, tx, writeAt, stamp);
            LegalEnv(db, tx.q.worker, env, now)
                && Written(c, db, tx, writeAt, stamp, now) == Handle(c, db, tx.q, env, now).0
  {
  }

  lemma StoredRefines(c: Config, db: Tables, tx: Txn, stamp: Stamp, now: real)
    requires SI.Inv(c, db) && TxOk(c, db, now, tx) && tx.Stored?
    ensures var env := EnvOf(db, tx, tx.storedAt, stamp);
            && LegalEnv(db, tx.q.worker, env, now) && ConsistentStatus(tx.q.report)
            && Written(c, db, tx, tx.storedAt, stamp, now) == Handle(c, db, tx.q, env, now).0
  {
    var env := EnvOf(db, tx, tx.storedAt, stamp);
    var q := tx.q;
    assert Picks(db.jobs, env.skipped, env.pick);
    if LeaseLive(tx.row, tx.storedAt) && tx.stored {
      SI.ResultKeepsInv(c, db, q.worker, q.job, q.report, env, now);
      WrittenResult(c, db, q, tx.wr, tx.row, env, now);
    } else {
      assert Written(c, db, tx, tx.storedAt, stamp, now).workers == Handle(c, db, q, env, now).0.workers;
    }
  }

  lemma WrittenResult(c: Config, db: Tables, q: Request, wr: Worker, row: Job, env: Env, now: real)
    requires q.SendResult? && RowHeld(db, q, wr) && db.jobs[q.job] == row
    requires AfterResult(c, db, q.worker, q.job, q.report, env).Done?
    ensures WriteResult(c, db, q, wr, row, env.writeAt, env.stamp, now)
         == Done(Release(AfterResult(c, db, q.worker, q.job, q.report, env).value, q.worker, now))
  {
    var r := WriteResult(c, db, q, wr, row, env.writeAt, env.stamp, now);
    var t := AfterResult(c, db, q.worker, q.job, q.report, env).value;
    assert r.Done? && r.value.workers == Release(t, q.worker, now).workers;
  }

  lemma {:induction false} ReapRefines(c: Config, db: Tables, expired: seq<nat>, rows: seq<Job>, writeAt: real,
                                       stamps: seq<Stamp>)
    requires |expired| == |rows| == |stamps|
    requires forall k | 0 <= k < |expired| :: expired[k] < |db.jobs| && rows[k] == db.jobs[expired[k]]
    requires forall k, l | 0 <= k < l < |expired| :: expired[k] != expired[l]
    ensures WriteReaped(c, db, expired, rows, writeAt, stamps) == ReapAll(c, db, expired, writeAt, stamps)
    decreases |expired|
  {
    if expired != [] {
      var r := ReapOne(c, db, expired[0], writeAt, stamps[0]);
      if r.Done? {
        forall k | 0 <= k < |expired[1..]| ensures rows[1..][k] == r.value.jobs[expired[1..][k]] {
          assert expired[1..][k] == expired[k + 1] && rows[1..][k] == rows[k + 1];
        }
        ReapRefines(c, r.value, expired[1..], rows[1..], writeAt, stamps[1..]);
      }
    }
  }

  /** The atomic transaction an action stands for, if it commits one. */
  function AtomicOp(s: State, a: Action): Option<Op> {
    match a
    case Finish(x, writeAt, stamp) =>
      if x in s.txs && (CanFinish(s.txs[x], writeAt, writeAt) || s.txs[x].Stored?)
      then (if s.txs[x].Reaping? || s.txs[x].Marking? then None
            else Some(OpRequest(s.txs[x].q, EnvOf(s.db, s.txs[x], writeAt, stamp))))
      else None
    case FinishReap(x, writeAt, stamps) =>
      if x in s.txs && s.txs[x].Reaping? then Some(OpReap(s.txs[x].expired, s.txs[x].reapAt, writeAt, stamps)) else None
    case FinishMark(x) =>
      if x in s.txs && s.txs[x].Marking? then Some(OpOffline(s.txs[x].offline, s.txs[x].markAt)) else None
    case Insert(op) => Some(op)
    case _ => None
  }

  lemma ReaperRefines(c: Config, s: State, x: nat, writeAt: real, stamps: seq<Stamp>)
    requires Inv(c, s) && Enabled(c, s, FinishReap(x, writeAt, stamps))
    ensures var op := OpReap(s.txs[x].expired, s.txs[x].reapAt, writeAt, stamps);
            Legal(c, s.db, op, s.clock) && Next(c, s, FinishReap(x, writeAt, stamps)).db == Apply(c, s.db, op, s.clock)
  {
    assert TxOk(c, s.db, s.clock, s.txs[x]);
    ReapRefines(c, s.db, s.txs[x].expired, s.txs[x].rows, writeAt, stamps);
  }

  lemma MarkerRefines(c: Config, s: State, x: nat)
    requires Inv(c, s) && Enabled(c, s, FinishMark(x))
    ensures var op := OpOffline(s.txs[x].offline, s.txs[x].markAt);
            Legal(c, s.db, op, s.clock) && Next(c, s, FinishMark(x)).db == Apply(c, s.db, op, s.clock)
  {
  }

  /** Refinement: every interleaving step leaves the tables alone or performs exactly
      one legal atomic transaction on them. */
  lemma StepRefines(c: Config, s: State, a: Action)
    requires ValidConfig(c) && Inv(c, s) && Enabled(c, s, a)
    ensures var op := AtomicOp(s, a);
            if op.None? then Next(c, s, a).db == s.db
            else Legal(c, s.db, op.value, s.clock) && Next(c, s, a).db == Apply(c, s.db, op.value, s.clock)
  {
    match a
    case Finish(x, writeAt, stamp) => RequestRefines(c, s, x, writeAt, stamp);
    case FinishReap(x, writeAt, stamps) => ReaperRefines(c, s, x, writeAt, stamps);
    case FinishMark(x) => MarkerRefines(c, s, x);
    case _ =>
  }

  // ---------------------------------------------------------------- nobody else's rows

  /** A commit leaves alone every row that `tx` holds and the facts `tx` relies on. */
  ghost predicate Spares(db: Tables, db': Tables, tx: Txn) {
    && |db.workers| <= |db'.workers| && |db.jobs| <= |db'.jobs|
    && (forall w | 0 <= w < |db.workers| && HoldsWorker(tx, w) :: db'.workers[w] == db.workers[w])
    && (forall w | 0 <= w < |db.workers| && HoldsWorker(tx, w) :: HasActiveJob(db', w) ==> HasActiveJob(db, w))
    && (forall j | 0 <= j < |db.jobs| && HoldsJob(tx, j) :: db'.jobs[j] == db.jobs[j])
    && (forall e: nat, j: nat | HoldsJob(tx, j) :: EvaluationOf(db', e, j) <==> EvaluationOf(db, e, j))
  }

  lemma SparedTxOk(c: Config, db: Tables, db': Tables, clock: real, clock': real, tx: Txn)
    requires TxOk(c, db, clock, tx) && Spares(db, db', tx) && clock <= clock'
    ensures TxOk(c, db', clock', tx)
  {
  }

  /** What a commit changes lies within the locks of the transaction that commits. */
  ghost predicate WithinLocks(db: Tables, db': Tables, tx: Txn) {
    && |db.workers| <= |db'.workers| && |db.jobs| <= |db'.jobs|
    && (forall w | 0 <= w < |db.workers| && !HoldsWorker(tx, w) :: db'.workers[w] == db.workers[w])
    && (forall j | 0 <= j < |db.jobs| && !HoldsJob(tx, j) :: db'.jobs[j] == db.jobs[j])
    && (forall j | |db.jobs| <= j < |db'.jobs| :: db'.jobs[j].status.QUEUED?)
    && (forall i | 0 <= i < |db.jobs| && db'.jobs[i].status.Active() && !HasWorkerOf(tx, db'.jobs[i].worker) ::
          db.jobs[i].status.Active() && db.jobs[i].worker == db'.jobs[i].worker)
    && (forall e: nat, j: nat | !HoldsJob(tx, j) :: EvaluationOf(db', e, j) <==> EvaluationOf(db, e, j))
  }

  predicate HasWorkerOf(tx: Txn, w: Option<nat>) { w.Some? && HoldsWorker(tx, w.value) }

  /** Two transactions hold no row in common. */
  ghost predicate Apart(tx: Txn, ty: Txn) {
    && (forall w: nat {:trigger HoldsWorker(ty, w)} :: HoldsWorker(ty, w) ==> !HoldsWorker(tx, w))
    && (forall j: nat {:trigger HoldsJob(ty, j)} :: HoldsJob(ty, j) ==> !HoldsJob(tx, j))
  }

  lemma LocksExclude(s: State, x: nat, y: nat)
    requires LocksOk(s) && x in s.txs && y in s.txs && x != y
    ensures Apart(s.txs[x], s.txs[y])
  {
  }

  lemma OthersSpared(db: Tables, db': Tables, tx: Txn, ty: Txn)
    requires Apart(tx, ty) && WithinLocks(db, db', tx)
    ensures Spares(db, db', ty)
  {
  }

  lemma WrittenWithinLocks(c: Config, db: Tables, tx: Txn, writeAt: real, stamp: Stamp, now: real)
    requires TxOk(c, db, now, tx) && CanFinish(tx, writeAt, now)
    ensures WithinLocks(db, Written(c, db, tx, writeAt, stamp, now), tx)
  {
    if tx.Stored? {
      StoredWithinLocks(c, db, tx, stamp, now);
    } else {
      match tx
      case HasJob(q, _, _, _, _) => assert HoldsJob(tx, q.job) && HoldsWorker(tx, q.worker);
      case Picked(q, _, _, j, _) => assert HoldsJob(tx, j) && HoldsWorker(tx, q.worker);
      case _ =>
    }
  }

  lemma StoredWithinLocks(c: Config, db: Tables, tx: Txn, stamp: Stamp, now: real)
    requires TxOk(c, db, now, tx) && tx.Stored?
    ensures WithinLocks(db, Written(c, db, tx, tx.storedAt, stamp, now), tx)
  {
  }

  lemma WithinLocksTwice(db: Tables, db1: Tables, db2: Tables, tx: Txn)
    requires WithinLocks(db, db1, tx) && WithinLocks(db1, db2, tx)
    requires forall j: nat | HoldsJob(tx, j) :: j < |db.jobs|
    ensures WithinLocks(db, db2, tx)
  {
  }

  lemma ReapedRowWithinLocks(c: Config, db: Tables, j: nat, row: Job, writeAt: real, stamp: Stamp, tx: Txn)
    requires j < |db.jobs| && HoldsJob(tx, j)
    ensures WithinLocks(db, Commit(db, WriteReapedRow(c, db, j, row, writeAt, stamp)), tx)
  {
  }

  lemma {:induction false} ReapWithinLocks(c: Config, db: Tables, expired: seq<nat>, rows: seq<Job>, writeAt: real,
                                           stamps: seq<Stamp>, tx: Txn)
    requires |expired| == |rows| == |stamps|
    requires forall k | 0 <= k < |expired| :: expired[k] < |db.jobs| && HoldsJob(tx, expired[k])
    requires forall j: nat | HoldsJob(tx, j) :: j < |db.jobs|
    ensures WriteReaped(c, db, expired, rows, writeAt, stamps).Done? ==>
              WithinLocks(db, WriteReaped(c, db, expired, rows, writeAt, stamps).value, tx)
    decreases |expired|
  {
    if expired != [] {
      var r := WriteReapedRow(c, db, expired[0], rows[0], writeAt, stamps[0]);
      ReapedRowWithinLocks(c, db, expired[0], rows[0], writeAt, stamps[0], tx);
      if r.Done? {
        ReapWithinLocks(c, r.value, expired[1..], rows[1..], writeAt, stamps[1..], tx);
        if WriteReaped(c, db, expired, rows, writeAt, stamps).Done? {
          WithinLocksTwice(db, r.value, WriteReaped(c, db, expired, rows, writeAt, stamps).value, tx);
        }
      }
    }
  }

  // ---------------------------------------------------------------- preservation

  lemma StepKeepsTables(c: Config, s: State, a: Action)
    requires ValidConfig(c) && Inv(c, s) && Enabled(c, s, a)
    ensures SI.Inv(c, Next(c, s, a).db) && SP.Past(Next(c, s, a).db, Next(c, s, a).clock)
  {
    StepRefines(c, s, a);
    OpKeepsTables(c, s.db, AtomicOp(s, a), Next(c, s, a).db, s.clock);
    TimeKeepsPast(Next(c, s, a).db, s.clock, Next(c, s, a).clock);
  }

  lemma OpKeepsTables(c: Config, db: Tables, op: Option<Op>, db': Tables, clock: real)
    requires ValidConfig(c) && SI.Inv(c, db) && SP.Past(db, clock)
    requires if op.None? then db' == db else Legal(c, db, op.value, clock) && db' == Apply(c, db, op.value, clock)
    ensures SI.Inv(c, db') && SP.Past(db', clock)
  {
    if op.Some? {
      SI.StepKeepsInv(c, db, op.value, clock);
      SP.StepIsLater(c, db, op.value, clock);
    }
  }

  lemma TimeKeepsPast(db: Tables, clock: real, clock': real)
    requires SP.Past(db, clock) && clock <= clock'
    ensures SP.Past(db, clock')
  {
  }

  lemma EndKeepsLocks(s: State, x: nat)
    requires LocksOk(s)
    ensures LocksOk(End(s, x))
  {
  }

  /** `x` adds the locks `keys` to the table; they were free. */
  predicate Gains(locks: map<nat, nat>, locks': map<nat, nat>, x: nat, keys: set<nat>) {
    && locks.Keys !! keys && locks'.Keys == locks.Keys + keys
    && forall k | k in locks' :: locks'[k] == if k in keys then x else locks[k]
  }

  predicate HeldWorker(s: State, x: nat, w: nat) { x in s.txs && HoldsWorker(s.txs[x], w) }

  predicate HeldJob(s: State, x: nat, j: nat) { x in s.txs && HoldsJob(s.txs[x], j) }

  lemma GainKeepsLocks(s: State, s': State, x: nat, tx: Txn, ws: set<nat>, js: set<nat>)
    requires LocksOk(s) && s'.txs == s.txs[x := tx]
    requires Gains(s.workerLocks, s'.workerLocks, x, ws) && Gains(s.jobLocks, s'.jobLocks, x, js)
    requires forall w: nat :: HoldsWorker(tx, w) <==> HeldWorker(s, x, w) || w in ws
    requires forall j: nat :: HoldsJob(tx, j) <==> HeldJob(s, x, j) || j in js
    ensures LocksOk(s')
  {
  }

  lemma StepKeepsLocks(c: Config, s: State, a: Action)
    requires LocksOk(s) && Enabled(c, s, a)
    ensures LocksOk(Next(c, s, a))
  {
    if Taking(a) {
      TakingKeepsLocks(c, s, a);
    } else if !a.Insert? && !a.Pass? {
      EndKeepsLocks(s, a.x);
    }
  }

  /** Actions that begin or go on with a transaction. */
  predicate Taking(a: Action) {
    !(a.Finish? || a.FinishReap? || a.FinishMark? || a.Abort? || a.Insert? || a.Pass?)
  }

  lemma TakingKeepsLocks(c: Config, s: State, a: Action)
    requires LocksOk(s) && Enabled(c, s, a) && Taking(a)
    ensures LocksOk(Next(c, s, a))
  {
    var s' := Next(c, s, a);
    match a
    case Pick(_, _) => JobLockTaken(c, s, a);
    case TakeJob(_) => JobLockTaken(c, s, a);
    case TakeWorker(x) => WorkerLockTaken(c, s, x);
    case BeginReap(x, expired) => ReaperLocksTaken(c, s, x, expired);
    case BeginMark(x, offline) => MarkerLocksTaken(c, s, x, offline);
    case Begin(x, _) => GainKeepsLocks(s, s', x, s'.txs[x], {}, {});
    case Look(x) => GainKeepsLocks(s, s', x, s'.txs[x], {}, {});
    case AskJob(x) => GainKeepsLocks(s, s', x, s'.txs[x], {}, {});
    case Store(x, _) => GainKeepsLocks(s, s', x, s'.txs[x], {}, {});
    case _ =>
  }

  lemma JobLockTaken(c: Config, s: State, a: Action)
    requires LocksOk(s) && Enabled(c, s, a) && (a.Pick? || a.TakeJob?)
    ensures LocksOk(Next(c, s, a))
  {
    var s' := Next(c, s, a);
    match a
    case Pick(x, pick) => GainKeepsLocks(s, s', x, s'.txs[x], {}, if pick.None? then {} else {pick.value});
    case TakeJob(x) => GainKeepsLocks(s, s', x, s'.txs[x], {}, {s.txs[x].q.job});
  }

  lemma WorkerLockTaken(c: Config, s: State, x: nat)
    requires LocksOk(s) && Enabled(c, s, TakeWorker(x))
    ensures LocksOk(Next(c, s, TakeWorker(x)))
  {
    var s' := Next(c, s, TakeWorker(x));
    GainKeepsLocks(s, s', x, s'.txs[x], {s.txs[x].q.worker}, {});
  }

  lemma ReaperLocksTaken(c: Config, s: State, x: nat, expired: seq<nat>)
    requires LocksOk(s) && Enabled(c, s, BeginReap(x, expired))
    ensures LocksOk(Next(c, s, BeginReap(x, expired)))
  {
    var s' := Next(c, s, BeginReap(x, expired));
    GainKeepsLocks(s, s', x, s'.txs[x], {}, set k | k in expired);
  }

  lemma MarkerLocksTaken(c: Config, s: State, x: nat, offline: set<nat>)
    requires LocksOk(s) && Enabled(c, s, BeginMark(x, offline))
    ensures LocksOk(Next(c, s, BeginMark(x, offline)))
  {
    var s' := Next(c, s, BeginMark(x, offline));
    GainKeepsLocks(s, s', x, s'.txs[x], offline, {});
  }

  /** The transaction that acts: what it has just read is true. */
  lemma ReaderOk(c: Config, s: State, a: Action)
    requires Inv(c, s) && Enabled(c, s, a)
    requires a.Begin? || a.TakeWorker? || a.Look? || a.AskJob? || a.Store?
    ensures a.x in Next(c, s, a).txs && TxOk(c, s.db, s.clock, Next(c, s, a).txs[a.x])
  {
  }

  lemma LockerOk(c: Config, s: State, a: Action)
    requires Inv(c, s) && Enabled(c, s, a) && (a.Pick? || a.TakeJob?)
    ensures a.x in Next(c, s, a).txs && TxOk(c, s.db, s.clock, Next(c, s, a).txs[a.x])
  {
    assert TxOk(c, s.db, s.clock, s.txs[a.x]);
    assert forall w | 0 <= w < |s.db.workers| :: s.db.workers[w].freeAt <= s.clock;
  }

  lemma ReaperOk(c: Config, s: State, a: Action)
    requires Inv(c, s) && Enabled(c, s, a) && (a.BeginReap? || a.BeginMark?)
    ensures a.x in Next(c, s, a).txs && TxOk(c, s.db, s.clock, Next(c, s, a).txs[a.x])
  {
  }

  lemma CommitKeepsTxs(c: Config, s: State, x: nat, db': Tables)
    requires LocksOk(s) && (forall y | y in s.txs :: TxOk(c, s.db, s.clock, s.txs[y]))
    requires x in s.txs && WithinLocks(s.db, db', s.txs[x])
    ensures forall y | y in s.txs && y != x :: TxOk(c, db', s.clock, s.txs[y])
  {
    forall y | y in s.txs && y != x ensures TxOk(c, db', s.clock, s.txs[y]) {
      LocksExclude(s, x, y);
      OthersSpared(s.db, db', s.txs[x], s.txs[y]);
      SparedTxOk(c, s.db, db', s.clock, s.clock, s.txs[y]);
    }
  }

  lemma FinishReapWithinLocks(c: Config, db: Tables, clock: real, tx: Txn, writeAt: real, stamps: seq<Stamp>)
    requires TxOk(c, db, clock, tx) && tx.Reaping? && |stamps| == |tx.expired|
    ensures WithinLocks(db, Commit(db, WriteReaped(c, db, tx.expired, tx.rows, writeAt, stamps)), tx)
  {
    forall k | 0 <= k < |tx.expired| ensures tx.expired[k] < |db.jobs| && HoldsJob(tx, tx.expired[k]) {
      assert Expired(db, tx.expired[k], tx.reapAt);
    }
    ReapWithinLocks(c, db, tx.expired, tx.rows, writeAt, stamps, tx);
    assert WithinLocks(db, db, tx);
  }

  lemma MarkWithinLocks(db: Tables, tx: Txn, now: real)
    requires tx.Marking?
    ensures WithinLocks(db, MarkOffline(db, tx.offline, now), tx)
  {
  }

  lemma InsertSpares(c: Config, db: Tables, op: Op, now: real, tx: Txn)
    requires (op.OpSubmit? || op.OpRegister?) && Legal(c, db, op, now)
    requires forall w: nat | HoldsWorker(tx, w) :: w < |db.workers|
    ensures Spares(db, Apply(c, db, op, now), tx)
  {
    match op
    case OpSubmit(agent, problems, stamps) => SubmitSpares(db, agent, problems, stamps);
    case OpRegister =>
    var db' := Apply(c, db, op, now);
    forall w | 0 <= w < |db.workers| && HasActiveJob(db', w) ensures HasActiveJob(db, w) {
      var i :| 0 <= i < |db'.jobs| && Owns(db'.jobs[i], w);
      assert Owns(db.jobs[i], w);
    }
  }

  lemma {:induction false} SubmitSpares(db: Tables, agent: nat, problems: seq<nat>, stamps: seq<Stamp>)
    requires |problems| == |stamps|
    ensures var db' := Commit(db, SubmitAll(db, agent, problems, stamps));
            && db'.workers == db.workers && db'.evaluations == db.evaluations
            && db.jobs <= db'.jobs && forall i | |db.jobs| <= i < |db'.jobs| :: db'.jobs[i].status.QUEUED?
    decreases |problems|
  {
    if problems != [] {
      var r := InsertJob(db.(submissions := db.submissions + [Submission(agent, problems[0])]), |db.submissions|, 1,
                         stamps[0]);
      if r.Done? { SubmitSpares(r.value, agent, problems[1..], stamps[1..]); }
    }
  }

  /** What every transaction has read stays true through a commit of another one. */
  lemma CommitsKeepTxs(c: Config, s: State, a: Action)
    requires Inv(c, s) && Enabled(c, s, a) && (a.Finish? || a.FinishReap? || a.FinishMark? || a.Abort?)
    ensures forall y | y in Next(c, s, a).txs :: TxOk(c, Next(c, s, a).db, s.clock, Next(c, s, a).txs[y])
  {
    assert TxOk(c, s.db, s.clock, s.txs[a.x]);
    match a
    case Finish(x, writeAt, stamp) =>
      WrittenWithinLocks(c, s.db, s.txs[x], writeAt, stamp, s.clock);
      CommitKeepsTxs(c, s, x, Written(c, s.db, s.txs[x], writeAt, stamp, s.clock));
    case FinishReap(x, writeAt, stamps) =>
      FinishReapWithinLocks(c, s.db, s.clock, s.txs[x], writeAt, stamps);
      CommitKeepsTxs(c, s, x, Commit(s.db, WriteReaped(c, s.db, s.txs[x].expired, s.txs[x].rows, writeAt, stamps)));
    case FinishMark(x) =>
      MarkWithinLocks(s.db, s.txs[x], s.clock);
      CommitKeepsTxs(c, s, x, MarkOffline(s.db, s.txs[x].offline, s.clock));
    case _ =>
  }

  /** ... and through new rows and the passing of time. */
  lemma OthersKeepTxs(c: Config, s: State, a: Action)
    requires Inv(c, s) && Enabled(c, s, a) && (a.Insert? || a.Pass?)
    ensures forall y | y in s.txs :: TxOk(c, Next(c, s, a).db, Next(c, s, a).clock, s.txs[y])
  {
    forall y | y in s.txs ensures TxOk(c, Next(c, s, a).db, Next(c, s, a).clock, s.txs[y]) {
      match a
      case Insert(op) =>
        InsertSpares(c, s.db, op, s.clock, s.txs[y]);
        SparedTxOk(c, s.db, Next(c, s, a).db, s.clock, s.clock, s.txs[y]);
      case Pass(dt) =>
        assert Spares(s.db, s.db, s.txs[y]);
        SparedTxOk(c, s.db, s.db, s.clock, s.clock + dt, s.txs[y]);
    }
  }

  /** An action that begins or goes on with a transaction changes nothing else. */
  lemma TakingIsLocal(c: Config, s: State, a: Action)
    requires Enabled(c, s, a) && Taking(a)
    ensures var s' := Next(c, s, a);
            s'.db == s.db && s'.clock == s.clock && a.x in s'.txs && s'.txs == s.txs[a.x := s'.txs[a.x]]
  {
  }

  lemma ActorKeepsTxs(c: Config, s: State, s': State, x: nat)
    requires forall y | y in s.txs :: TxOk(c, s.db, s.clock, s.txs[y])
    requires x in s'.txs && s'.txs == s.txs[x := s'.txs[x]] && TxOk(c, s.db, s.clock, s'.txs[x])
    ensures forall y | y in s'.txs :: TxOk(c, s.db, s.clock, s'.txs[y])
  {
  }

  lemma TakingKeepsTxs(c: Config, s: State, a: Action)
    requires Inv(c, s) && Enabled(c, s, a) && Taking(a)
    ensures Next(c, s, a).db == s.db && Next(c, s, a).clock == s.clock
    ensures forall y | y in Next(c, s, a).txs :: TxOk(c, s.db, s.clock, Next(c, s, a).txs[y])
  {
    TakingIsLocal(c, s, a);
    if a.Pick? || a.TakeJob? {
      LockerOk(c, s, a);
    } else if a.BeginReap? || a.BeginMark? {
      ReaperOk(c, s, a);
    } else {
      ReaderOk(c, s, a);
    }
    ActorKeepsTxs(c, s, Next(c, s, a), a.x);
  }

  /** Every interleaving step keeps the invariant. */
  lemma StepKeepsInv(c: Config, s: State, a: Action)
    requires ValidConfig(c) && Inv(c, s) && Enabled(c, s, a)
    ensures Inv(c, Next(c, s, a))
  {
    StepKeepsTables(c, s, a);
    StepKeepsLocks(c, s, a);
    if Taking(a) {
      TakingKeepsTxs(c, s, a);
    } else if a.Insert? || a.Pass? {
      OthersKeepTxs(c, s, a);
    } else {
      CommitsKeepTxs(c, s, a);
    }
  }

  // ---------------------------------------------------------------- runs

  ghost predicate Runs(c: Config, s: State, actions: seq<Action>, s': State)
    decreases |actions|
  {
    if actions == [] then s' == s
    else Enabled(c, s, actions[0]) && Runs(c, Next(c, s, actions[0]), actions[1..], s')
  }

  /** The atomic transactions of an interleaving, in the order in which they commit. */
  ghost function Committed(c: Config, s: State, actions: seq<Action>, s': State): seq<SR.Timed>
    requires Runs(c, s, actions, s')
    decreases |actions|
  {
    if actions == [] then []
    else
      var rest := Committed(c, Next(c, s, actions[0]), actions[1..], s');
      match AtomicOp(s, actions[0])
      case None => rest
      case Some(op) => [SR.Timed(op, s.clock)] + rest
  }

  /** Every interleaving of transactions does to the tables what its commits do one
      after another: a run with row locks is a run of the atomic protocol. */
  lemma {:induction false} RunRefines(c: Config, s: State, actions: seq<Action>, s': State)
    requires ValidConfig(c) && Inv(c, s) && Runs(c, s, actions, s')
    ensures Inv(c, s') && SR.Reaches(c, s.db, Committed(c, s, actions, s'), s'.db)
    decreases |actions|
  {
    if actions != [] {
      var s1 := Next(c, s, actions[0]);
      StepRefines(c, s, actions[0]);
      StepKeepsInv(c, s, actions[0]);
      RunRefines(c, s1, actions[1..], s');
      var rest := Committed(c, s1, actions[1..], s');
      var op := AtomicOp(s, actions[0]);
      if op.Some? {
        assert ([SR.Timed(op.value, s.clock)] + rest)[1..] == rest;
      }
    }
  }

  const START := State(EMPTY, 0.0, map[], map[], map[])

  /** From empty tables, with any number of transactions interleaved in any order: the
      wait-for graph has no cycle, and a claim that was let through meets no active
      job of its worker when it commits. */
  lemma InterleavingsAreSafe(c: Config, actions: seq<Action>, s: State, path: seq<nat>, x: nat)
    requires ValidConfig(c) && Runs(c, START, actions, s)
    ensures WaitChain(s, path) && |path| >= 2 ==> |path| <= 3 && path[0] != path[|path| - 1]
    ensures x in s.txs && s.txs[x].Picked? ==> !HasActiveJob(s.db, s.txs[x].q.worker)
    ensures SR.Reaches(c, EMPTY, Committed(c, START, actions, s), s.db)
  {
    RunRefines(c, START, actions, s);
    if WaitChain(s, path) && |path| >= 2 { NoDeadlock(s, path); }
    if x in s.txs && s.txs[x].Picked? { ClaimCheckStays(c, s, x); }
  }
}
