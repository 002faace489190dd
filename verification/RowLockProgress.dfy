/** That interleaved transactions can always go on: as long as any is open, one that waits for
    nobody can take its next step, and without a single abort all of them come to their end. */
module RowLockProgress {
  import opened Records
  import opened Server
  import opened RowLocks
  import opened RowLockSafety
  import SI = ServerInvariant

  // ---------------------------------------------------------------- the next step

  /** The queued unlocked row that no other such row precedes, if there is any. */
  ghost predicate Oldest(jobs: seq<Job>, locked: set<nat>, n: nat, pick: Option<nat>) {
    match pick
    case None => forall i: nat | i < n :: !Available(jobs, locked, i)
    case Some(p) =>
      p < n && Available(jobs, locked, p)
      && forall i: nat | i < n && Available(jobs, locked, i) :: Before(jobs[p].stamp, jobs[i].stamp)
  }

  lemma {:induction false} SomePick(jobs: seq<Job>, locked: set<nat>, n: nat) returns (pick: Option<nat>)
    requires n <= |jobs|
    ensures Oldest(jobs, locked, n, pick)
    ensures n == |jobs| ==> Picks(jobs, locked, pick)
    decreases n
  {
    if n == 0 {
      pick := None;
    } else {
      pick := SomePick(jobs, locked, n - 1);
      if Available(jobs, locked, n - 1)
         && (pick.None? || !Before(jobs[pick.value].stamp, jobs[n - 1].stamp)) {
        pick := Some(n - 1);
      }
    }
  }

  /** The step by which a transaction goes on when nothing is in its way. */
  function OwnStep(s: State, x: nat, pick: Option<nat>, stamp: Stamp): Action
    requires x in s.txs
  {
    match s.txs[x]
    case WantWorker(_) => TakeWorker(x)
    case HasWorker(q, _) => if NamesJob(q) then AskJob(x) else Look(x)
    case Seen(q, wr, _, busy) => if q.ClaimJob? && MayClaim(wr, busy) then Pick(x, pick) else Finish(x, s.clock, stamp)
    case Picked(_, _, _, _, _) => Finish(x, s.clock, stamp)
    case Empty(_, _, _) => Finish(x, s.clock, stamp)
    case WantJob(_, _) => TakeJob(x)
    case HasJob(_, _, _, _, _) => if NeedsStorage(s.txs[x]) then Store(x, true) else Finish(x, s.clock, stamp)
    case Stored(_, _, _, _, storedAt, _) => Finish(x, storedAt, stamp)
    case Reaping(expired, _, _) => FinishReap(x, s.clock, seq(|expired|, _ => stamp))
    case Marking(_, _) => FinishMark(x)
  }

  ghost predicate Waits(s: State, x: nat) { exists y :: WaitsFor(s, x, y) }

  lemma RequestGoesOn(c: Config, s: State, x: nat, pick: Option<nat>, stamp: Stamp)
    requires x in s.txs && TxOk(c, s.db, s.clock, s.txs[x]) && Picks(s.db.jobs, s.jobLocks.Keys, pick)
    requires !s.txs[x].WantWorker? && !s.txs[x].WantJob? && !s.txs[x].Reaping? && !s.txs[x].Marking?
    ensures Enabled(c, s, OwnStep(s, x, pick, stamp))
  {
  }

  lemma ReaperGoesOn(c: Config, s: State, x: nat, pick: Option<nat>, stamp: Stamp)
    requires x in s.txs && TxOk(c, s.db, s.clock, s.txs[x]) && (s.txs[x].Reaping? || s.txs[x].Marking?)
    ensures Enabled(c, s, OwnStep(s, x, pick, stamp))
  {
  }

  lemma LockerGoesOn(c: Config, s: State, x: nat, pick: Option<nat>, stamp: Stamp)
    requires x in s.txs && TxOk(c, s.db, s.clock, s.txs[x]) && (s.txs[x].WantWorker? || s.txs[x].WantJob?)
    ensures Waits(s, x) || Enabled(c, s, OwnStep(s, x, pick, stamp))
  {
    var q := s.txs[x].q;
    if s.txs[x].WantWorker? {
      if q.worker in s.workerLocks { assert WaitsFor(s, x, s.workerLocks[q.worker]); }
    } else {
      if q.job in s.jobLocks { assert WaitsFor(s, x, s.jobLocks[q.job]); }
    }
  }

  /** A transaction waits for another one's lock, or it can go on. */
  lemma WaitsOrGoesOn(c: Config, s: State, x: nat, pick: Option<nat>, stamp: Stamp)
    requires Inv(c, s) && x in s.txs && Picks(s.db.jobs, s.jobLocks.Keys, pick)
    ensures Waits(s, x) || Enabled(c, s, OwnStep(s, x, pick, stamp))
  {
    assert TxOk(c, s.db, s.clock, s.txs[x]);
    if s.txs[x].WantWorker? || s.txs[x].WantJob? {
      LockerGoesOn(c, s, x, pick, stamp);
    } else if s.txs[x].Reaping? || s.txs[x].Marking? {
      ReaperGoesOn(c, s, x, pick, stamp);
    } else {
      RequestGoesOn(c, s, x, pick, stamp);
    }
  }

  /** Somebody waits for nobody. */
  lemma SomeoneGoesOn(c: Config, s: State, x: nat) returns (y: nat)
    requires Inv(c, s) && x in s.txs
    ensures y in s.txs && !Waits(s, y)
    decreases Rank(s, x)
  {
    if Waits(s, x) {
      var z :| WaitsFor(s, x, z);
      WaitingDescends(s, x, z);
      y := SomeoneGoesOn(c, s, z);
    } else {
      y := x;
    }
  }

  // ---------------------------------------------------------------- coming to the end

  /** How many steps of its own a transaction may still take. */
  function Steps(tx: Txn): nat {
    match tx
    case WantWorker(_) => 6
    case HasWorker(_, _) => 5
    case WantJob(_, _) => 4
    case Seen(_, _, _, _) => 3
    case HasJob(_, _, _, _, _) => 3
    case _ => 1
  }

  /** All steps that are still to be taken. */
  function StepsLeft(txs: map<nat, Txn>): set<(nat, nat)> { set x, k: nat | x in txs && k < Steps(txs[x]) :: (x, k) }

  lemma FewerSteps(txs: map<nat, Txn>, txs': map<nat, Txn>, x: nat)
    requires x in txs && txs' - {x} == txs - {x} && (x in txs' ==> Steps(txs'[x]) < Steps(txs[x]))
    ensures |StepsLeft(txs')| < |StepsLeft(txs)|
  {
    var all, left := StepsLeft(txs), StepsLeft(txs');
    forall p | p in left ensures p in all {
      if p.0 != x { assert p.0 in txs' - {x} && (txs' - {x})[p.0] == (txs - {x})[p.0]; }
    }
    assert (x, Steps(txs[x]) - 1) in all && (x, Steps(txs[x]) - 1) !in left;
    assert all == left + (all - left);
  }

  /** Only `x` is another one, and has fewer steps before it. */
  predicate Takes(txs: map<nat, Txn>, txs': map<nat, Txn>, x: nat) {
    x in txs && txs' - {x} == txs - {x} && (x in txs' ==> Steps(txs'[x]) < Steps(txs[x]))
  }

  lemma ContinuingTakes(s: State, x: nat, tx: Txn)
    requires x in s.txs && Steps(tx) < Steps(s.txs[x])
    ensures Takes(s.txs, s.txs[x := tx], x)
  {
  }

  lemma EndingTakes(s: State, x: nat)
    requires x in s.txs
    ensures Takes(s.txs, End(s, x).txs, x)
  {
  }

  lemma StepIsTaken(c: Config, s: State, x: nat, pick: Option<nat>, stamp: Stamp)
    requires x in s.txs && Enabled(c, s, OwnStep(s, x, pick, stamp))
    ensures Takes(s.txs, Next(c, s, OwnStep(s, x, pick, stamp)).txs, x)
  {
    var a := OwnStep(s, x, pick, stamp);
    var s' := Next(c, s, a);
    if a.Finish? || a.FinishReap? || a.FinishMark? {
      EndingTakes(s, x);
      assert s'.txs == End(s, x).txs;
    } else {
      assert s'.txs == s.txs[x := s'.txs[x]];
      ContinuingTakes(s, x, s'.txs[x]);
    }
  }

  /** One step of a transaction that waits for nobody. */
  lemma OneStep(c: Config, s: State, stamp: Stamp) returns (a: Action)
    requires ValidConfig(c) && Inv(c, s) && s.txs.Keys != {}
    ensures Enabled(c, s, a) && !a.Abort? && !a.Pass? && Inv(c, Next(c, s, a)) && Next(c, s, a).clock == s.clock
    ensures |StepsLeft(Next(c, s, a).txs)| < |StepsLeft(s.txs)|
  {
    var pick := SomePick(s.db.jobs, s.jobLocks.Keys, |s.db.jobs|);
    var x :| x in s.txs;
    var y := SomeoneGoesOn(c, s, x);
    WaitsOrGoesOn(c, s, y, pick, stamp);
    a := OwnStep(s, y, pick, stamp);
    StepIsTaken(c, s, y, pick, stamp);
    StepKeepsInv(c, s, a);
    FewerSteps(s.txs, Next(c, s, a).txs, y);
  }

  /** From every state of every interleaving, all open transactions can come to their ends by
      their own steps, without anybody giving up. */
  lemma {:induction false} AllComeToEnd(c: Config, s: State, stamp: Stamp) returns (actions: seq<Action>, s': State)
    requires ValidConfig(c) && Inv(c, s)
    ensures Runs(c, s, actions, s') && s'.txs == map[] && s'.clock == s.clock
    ensures forall i | 0 <= i < |actions| :: !actions[i].Abort? && !actions[i].Pass?
    decreases |StepsLeft(s.txs)|
  {
    if s.txs.Keys == {} {
      return [], s;
    }
    var a := OneStep(c, s, stamp);
    var rest;
    rest, s' := AllComeToEnd(c, Next(c, s, a), stamp);
    actions := [a] + rest;
    assert actions[1..] == rest;
  }
}
