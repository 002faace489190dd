/** What every transaction of the control plane keeps: the chain of attempts of a
    submission, exclusive ownership, and one evaluation per reported job. */
module ServerInvariant {
  import opened Records
  import opened Server

  /** The attempt ended in a way that calls for another one. */
  predicate Retriable(j: Job) {
    j.error == Some(LeaseExpired) || j.error == Some(Reported(INFRASTRUCTURE_FAILURE))
  }

  ghost predicate RowOk(c: Config, t: Tables, j: Job) {
    && j.submission < |t.submissions|
    && 1 <= j.attempt <= c.maxAttempts
    && (j.status.QUEUED? <==> j.worker.None?)
    && j.worker.Some? == j.token.Some? == j.expires.Some?
    && (j.worker.Some? ==> j.worker.value < |t.workers| && j.token.value < t.tokens)
    && (j.error.Some? <==> j.status.FAILED? || j.status.TIMEOUT?)
  }

  ghost predicate Rows(c: Config, t: Tables) {
    forall i :: 0 <= i < |t.jobs| ==> RowOk(c, t, t.jobs[i])
  }

  function Key(j: Job): (nat, nat) { (j.submission, j.attempt) }

  /** The unique index is exact. */
  ghost predicate Indexed(t: Tables) {
    && (forall i :: 0 <= i < |t.jobs| ==> Key(t.jobs[i]) in t.attempts && t.attempts[Key(t.jobs[i])] == i)
    && (forall k :: k in t.attempts ==> t.attempts[k] < |t.jobs| && Key(t.jobs[t.attempts[k]]) == k)
  }

  /** The attempt before `j`, if any, was cut short by the infrastructure. */
  ghost predicate Preceded(t: Tables, j: Job) {
    j.attempt > 1 ==>
      var p := (j.submission, j.attempt - 1);
      p in t.attempts && t.attempts[p] < |t.jobs| && Retriable(t.jobs[t.attempts[p]])
  }

  ghost predicate Continued(c: Config, t: Tables, j: Job) {
    Retriable(j) && j.attempt < c.maxAttempts ==> (j.submission, j.attempt + 1) in t.attempts
  }

  /** Attempt 1 exists, and attempt a+1 exists exactly when attempt a was cut
      short by the infrastructure and the limit allows another. */
  ghost predicate Chained(c: Config, t: Tables) {
    && (forall s :: 0 <= s < |t.submissions| ==> (s, 1) in t.attempts)
    && (forall i {:trigger Preceded(t, t.jobs[i])} :: 0 <= i < |t.jobs| ==> Preceded(t, t.jobs[i]))
    && (forall i {:trigger Continued(c, t, t.jobs[i])} :: 0 <= i < |t.jobs| ==> Continued(c, t, t.jobs[i]))
  }

  /** A worker has at most one active job; a token belongs to one job. */
  ghost predicate Exclusive(t: Tables) {
    && (forall i, k | 0 <= i < |t.jobs| && 0 <= k < |t.jobs| ::
          t.jobs[i].status.Active() && t.jobs[k].status.Active() && t.jobs[i].worker == t.jobs[k].worker ==> i == k)
    && (forall i, k | 0 <= i < |t.jobs| && 0 <= k < |t.jobs| ::
          t.jobs[i].token.Some? && t.jobs[i].token == t.jobs[k].token ==> i == k)
  }

  ghost predicate EvaluationOk(t: Tables, e: Evaluation) {
    && e.job < |t.jobs|
    && ConsistentStatus(e.report)
    && t.jobs[e.job].status == e.report.status
    && t.jobs[e.job].submission == e.submission
    && t.jobs[e.job].worker == Some(e.worker)
    && t.jobs[e.job].error == (if e.report.failure.Some? then Some(Reported(e.report.failure.value)) else None)
  }

  /** Evaluations describe terminal jobs, one each; a terminal job without one was reaped. */
  ghost predicate Evaluations(t: Tables) {
    && (forall e :: 0 <= e < |t.evaluations| ==> EvaluationOk(t, t.evaluations[e]))
    && (forall d, e | 0 <= d < |t.evaluations| && 0 <= e < |t.evaluations| ::
          t.evaluations[d].job == t.evaluations[e].job ==> d == e)
    && (forall i | 0 <= i < |t.jobs| ::
          t.jobs[i].status.Terminal() && t.jobs[i].error != Some(LeaseExpired) ==> Evaluated(t, i))
  }

  ghost predicate LeaseOk(c: Config, t: Tables, j: Job) {
    j.status.Active() && j.worker.Some? && j.worker.value < |t.workers| && j.expires.Some? ==>
      j.expires.value <= t.workers[j.worker.value].lastHeartbeat + c.leaseSeconds
  }

  /** A lease never outlives its worker's last heartbeat by more than its length. */
  ghost predicate Leases(c: Config, t: Tables) {
    forall i | 0 <= i < |t.jobs| :: LeaseOk(c, t, t.jobs[i])
  }

  ghost predicate Beats(t: Tables) {
    forall w | 0 <= w < |t.workers| :: t.workers[w].lastHeartbeat <= t.workers[w].freeAt
  }

  ghost predicate Inv(c: Config, t: Tables) {
    Rows(c, t) && Indexed(t) && Chained(c, t) && Exclusive(t) && Evaluations(t) && Leases(c, t) && Beats(t)
  }

  // ---------------------------------------------------------------- row updates

  /** Row `i` is replaced, in place, by a row of the same attempt. */
  ghost predicate Replaces(t: Tables, t': Tables, i: nat, row: Job) {
    && i < |t.jobs|
    && Key(row) == Key(t.jobs[i])
    && t'.jobs == t.jobs[i := row]
    && t'.submissions == t.submissions
    && t'.attempts == t.attempts
  }

  lemma ReplaceKeepsIndex(t: Tables, t': Tables, i: nat, row: Job)
    requires Indexed(t) && Replaces(t, t', i, row)
    ensures Indexed(t')
  {
  }

  lemma ReplaceKeepsChain(c: Config, t: Tables, t': Tables, i: nat, row: Job)
    requires Indexed(t) && Chained(c, t) && Replaces(t, t', i, row)
    requires Retriable(row) == Retriable(t.jobs[i])
    ensures Chained(c, t')
  {
    forall k | 0 <= k < |t'.jobs| ensures Preceded(t', t'.jobs[k]) && Continued(c, t', t'.jobs[k]) {
      assert Preceded(t, t.jobs[k]) && Continued(c, t, t.jobs[k]);
    }
  }

  lemma InsertKeepsIndex(t: Tables, submission: nat, attempt: nat, stamp: Stamp)
    requires Indexed(t) && (submission, attempt) !in t.attempts
    ensures Indexed(InsertJob(t, submission, attempt, stamp).value)
  {
  }

  /** The job row `j` ends; when its end is retriable a successor is inserted. The
      unique index has room for it: no attempt number is ever used twice. */
  lemma EndingKeepsChain(c: Config, t: Tables, t1: Tables, j: nat, row: Job, stamp: Stamp)
    requires Rows(c, t) && Indexed(t) && Chained(c, t)
    requires Replaces(t, t1, j, row) && t.jobs[j].status.Active()
    ensures Retriable(row) && row.attempt < c.maxAttempts ==>
              var r := InsertJob(t1, row.submission, row.attempt + 1, stamp);
              r.Done? && Indexed(r.value) && Chained(c, r.value)
    ensures !(Retriable(row) && row.attempt < c.maxAttempts) ==> Indexed(t1) && Chained(c, t1)
  {
    ReplaceKeepsIndex(t, t1, j, row);
    assert RowOk(c, t, t.jobs[j]);
    if Retriable(row) && row.attempt < c.maxAttempts {
      AttemptIsNew(c, t, j);
      InsertKeepsIndex(t1, row.submission, row.attempt + 1, stamp);
      InsertKeepsChain(c, t, t1, j, row, stamp);
    } else {
      forall k | 0 <= k < |t1.jobs| ensures Preceded(t1, t1.jobs[k]) && Continued(c, t1, t1.jobs[k]) {
        assert Preceded(t, t.jobs[k]) && Continued(c, t, t.jobs[k]);
      }
    }
  }

  /** The attempt after an active one has not been used. */
  lemma AttemptIsNew(c: Config, t: Tables, j: nat)
    requires Rows(c, t) && Indexed(t) && Chained(c, t)
    requires j < |t.jobs| && t.jobs[j].status.Active()
    ensures (t.jobs[j].submission, t.jobs[j].attempt + 1) !in t.attempts
  {
    var key: (nat, nat) := (t.jobs[j].submission, t.jobs[j].attempt + 1);
    assert Key(t.jobs[j]) == (key.0, key.1 - 1);
    assert RowOk(c, t, t.jobs[j]);
    if key in t.attempts {
      PredecessorIsRetriable(c, t, key);
    }
  }

  lemma PredecessorIsRetriable(c: Config, t: Tables, key: (nat, nat))
    requires Indexed(t) && Chained(c, t) && key in t.attempts && key.1 > 1
    ensures var p := (key.0, key.1 - 1); p in t.attempts && t.attempts[p] < |t.jobs| && Retriable(t.jobs[t.attempts[p]])
  {
    assert Preceded(t, t.jobs[t.attempts[key]]);
  }

  lemma InsertKeepsChain(c: Config, t: Tables, t1: Tables, j: nat, row: Job, stamp: Stamp)
    requires Rows(c, t) && Indexed(t) && Chained(c, t)
    requires Replaces(t, t1, j, row)
    requires Retriable(row) && (row.submission, row.attempt + 1) !in t.attempts
    ensures Chained(c, InsertJob(t1, row.submission, row.attempt + 1, stamp).value)
  {
    var t' := InsertJob(t1, row.submission, row.attempt + 1, stamp).value;
    assert t.attempts[Key(t.jobs[j])] == j;
    forall k | 0 <= k < |t'.jobs| ensures Preceded(t', t'.jobs[k]) && Continued(c, t', t'.jobs[k]) {
      if k < |t.jobs| {
        assert Preceded(t, t.jobs[k]) && Continued(c, t, t.jobs[k]);
      }
    }
  }

  // ---------------------------------------------------------------- transactions

  /** Worker rows only move forward in time. */
  ghost predicate WorkersOnly(t: Tables, t': Tables) {
    && t' == t.(workers := t'.workers)
    && |t'.workers| == |t.workers|
    && (forall w | 0 <= w < |t.workers| :: t.workers[w].lastHeartbeat <= t'.workers[w].lastHeartbeat)
  }

  lemma WorkersOnlyKeepsInv(c: Config, t: Tables, t': Tables)
    requires Inv(c, t) && WorkersOnly(t, t') && Beats(t')
    ensures Inv(c, t')
  {
    assert Rows(c, t') by {
      forall i | 0 <= i < |t'.jobs| ensures RowOk(c, t', t'.jobs[i]) { assert RowOk(c, t, t.jobs[i]); }
    }
    assert Chained(c, t') by { ReplaceNothingKeepsChain(c, t, t'); }
    assert Evaluations(t') by { SameEvaluations(t, t'); }
    assert Leases(c, t') by {
      forall i | 0 <= i < |t'.jobs| ensures LeaseOk(c, t', t'.jobs[i]) { assert LeaseOk(c, t, t.jobs[i]); }
    }
  }

  lemma ReplaceNothingKeepsChain(c: Config, t: Tables, t': Tables)
    requires Chained(c, t) && t'.jobs == t.jobs && t'.submissions == t.submissions && t'.attempts == t.attempts
    ensures Chained(c, t')
  {
    forall k | 0 <= k < |t'.jobs| ensures Preceded(t', t'.jobs[k]) && Continued(c, t', t'.jobs[k]) {
      assert Preceded(t, t.jobs[k]) && Continued(c, t, t.jobs[k]);
    }
  }

  lemma SameEvaluations(t: Tables, t': Tables)
    requires Evaluations(t) && t'.jobs == t.jobs && t'.evaluations == t.evaluations
    ensures Evaluations(t')
  {
    forall e | 0 <= e < |t'.evaluations| ensures EvaluationOk(t', t'.evaluations[e]) {
      assert EvaluationOk(t, t.evaluations[e]);
    }
    forall i | 0 <= i < |t'.jobs| && t'.jobs[i].status.Terminal() && t'.jobs[i].error != Some(LeaseExpired)
      ensures Evaluated(t', i)
    {
      var e: nat :| EvaluationOf(t, e, i);
      assert EvaluationOf(t', e, i);
    }
  }

  /** Job row `j`, active or queued, becomes `row`, still short of its end. */
  ghost predicate Advances(c: Config, t: Tables, t1: Tables, j: nat, row: Job) {
    && Replaces(t, t1, j, row)
    && !t.jobs[j].status.Terminal() && row.status.Active()
    && t1.evaluations == t.evaluations
    && |t1.workers| == |t.workers| && t.tokens <= t1.tokens
    && RowOk(c, t1, row)
    && LeaseOk(c, t1, row)
    && (forall w | 0 <= w < |t.workers| :: t.workers[w].lastHeartbeat <= t1.workers[w].lastHeartbeat)
    && (forall i | 0 <= i < |t.jobs| && i != j ::
          && !(t.jobs[i].status.Active() && t.jobs[i].worker == row.worker)
          && t.jobs[i].token != row.token)
  }

  lemma AdvanceKeepsInv(c: Config, t: Tables, t1: Tables, j: nat, row: Job)
    requires Inv(c, t) && Advances(c, t, t1, j, row) && Beats(t1)
    ensures Inv(c, t1)
  {
    assert RowOk(c, t, t.jobs[j]);
    assert Rows(c, t1) by {
      forall i | 0 <= i < |t1.jobs| ensures RowOk(c, t1, t1.jobs[i]) { assert i != j ==> RowOk(c, t, t.jobs[i]); }
    }
    ReplaceKeepsIndex(t, t1, j, row);
    ReplaceKeepsChain(c, t, t1, j, row);
    AdvanceKeepsEvaluations(t, t1, j, row);
    assert Leases(c, t1) by {
      forall i | 0 <= i < |t1.jobs| ensures LeaseOk(c, t1, t1.jobs[i]) { assert i != j ==> LeaseOk(c, t, t.jobs[i]); }
    }
  }

  lemma AdvanceKeepsEvaluations(t: Tables, t1: Tables, j: nat, row: Job)
    requires Evaluations(t) && Replaces(t, t1, j, row) && t1.evaluations == t.evaluations
    requires !t.jobs[j].status.Terminal()
    requires row.status.Terminal() ==> row.error == Some(LeaseExpired)
    ensures Evaluations(t1)
  {
    forall e | 0 <= e < |t1.evaluations| ensures EvaluationOk(t1, t1.evaluations[e]) {
      assert EvaluationOk(t, t.evaluations[e]);
    }
    forall i | 0 <= i < |t1.jobs| && t1.jobs[i].status.Terminal() && t1.jobs[i].error != Some(LeaseExpired)
      ensures Evaluated(t1, i)
    {
      var e: nat :| EvaluationOf(t, e, i);
      assert EvaluationOf(t1, e, i);
    }
  }

  lemma ClaimKeepsInv(c: Config, t: Tables, w: nat, j: nat, env: Env, now: real)
    requires Inv(c, t) && LegalEnv(t, w, env, now) && w < |t.workers| && !env.busy
    requires j < |t.jobs| && t.jobs[j].status.QUEUED?
    ensures Inv(c, Release(AfterClaim(c, t, w, j, env), w, now))
  {
    var t' := Release(AfterClaim(c, t, w, j, env), w, now);
    var row := t'.jobs[j];
    assert RowOk(c, t, t.jobs[j]);
    forall i | 0 <= i < |t.jobs| && i != j
      ensures !(t.jobs[i].status.Active() && t.jobs[i].worker == row.worker) && t.jobs[i].token != row.token
    {
      assert RowOk(c, t, t.jobs[i]);
      assert !Owns(t.jobs[i], w);
    }
    AdvanceKeepsInv(c, t, t', j, row);
  }

  lemma JobBeatKeepsInv(c: Config, t: Tables, w: nat, j: nat, event: Event, env: Env, now: real)
    requires Inv(c, t) && LegalEnv(t, w, env, now) && w < |t.workers|
    requires j < |t.jobs| && t.jobs[j].worker == Some(w) && t.jobs[j].status.Active()
    ensures Inv(c, Release(AfterJobBeat(c, t, w, j, event, env), w, now))
  {
    var t' := Release(AfterJobBeat(c, t, w, j, event, env), w, now);
    assert RowOk(c, t, t.jobs[j]);
    AdvanceKeepsInv(c, t, t', j, t'.jobs[j]);
  }

  /** Job row `j`, active, ends as `row`; `t1` is the state before any successor is inserted. */
  ghost predicate Ends(c: Config, t: Tables, t1: Tables, j: nat, row: Job) {
    && Replaces(t, t1, j, row)
    && t.jobs[j].status.Active() && row.status.Terminal()
    && |t1.workers| == |t.workers| && t1.tokens == t.tokens
    && row.worker == t.jobs[j].worker && row.token == t.jobs[j].token
    && RowOk(c, t1, row)
    && (forall w | 0 <= w < |t.workers| :: t.workers[w].lastHeartbeat <= t1.workers[w].lastHeartbeat)
    && Evaluations(t1)
    && Beats(t1)
  }

  function Successor(c: Config, t1: Tables, row: Job, stamp: Stamp): Outcome<Tables> {
    if Retriable(row) && row.attempt < c.maxAttempts
    then InsertJob(t1, row.submission, row.attempt + 1, stamp)
    else Done(t1)
  }

  lemma EndingKeepsInv(c: Config, t: Tables, t1: Tables, j: nat, row: Job, stamp: Stamp)
    requires Inv(c, t) && Ends(c, t, t1, j, row)
    ensures var r := Successor(c, t1, row, stamp); r.Done? && Inv(c, r.value)
  {
    EndingKeepsChain(c, t, t1, j, row, stamp);
    EndingKeepsRows(c, t, t1, j, row);
    InsertKeepsRows(c, t1, row, stamp);
    InsertKeepsEvaluations(c, t1, row, stamp);
  }

  lemma EndingKeepsRows(c: Config, t: Tables, t1: Tables, j: nat, row: Job)
    requires Inv(c, t) && Ends(c, t, t1, j, row)
    ensures Rows(c, t1) && Leases(c, t1) && Exclusive(t1)
  {
    forall i | 0 <= i < |t1.jobs| ensures RowOk(c, t1, t1.jobs[i]) && LeaseOk(c, t1, t1.jobs[i]) {
      assert i != j ==> RowOk(c, t, t.jobs[i]) && LeaseOk(c, t, t.jobs[i]);
    }
  }

  lemma InsertKeepsRows(c: Config, t1: Tables, row: Job, stamp: Stamp)
    requires Rows(c, t1) && Leases(c, t1) && Exclusive(t1) && RowOk(c, t1, row)
    requires Successor(c, t1, row, stamp).Done?
    ensures var t' := Successor(c, t1, row, stamp).value; Rows(c, t') && Leases(c, t') && Exclusive(t')
  {
    var t' := Successor(c, t1, row, stamp).value;
    forall i | 0 <= i < |t'.jobs| ensures RowOk(c, t', t'.jobs[i]) && LeaseOk(c, t', t'.jobs[i]) {
      assert i < |t1.jobs| ==> RowOk(c, t1, t1.jobs[i]) && LeaseOk(c, t1, t1.jobs[i]);
    }
  }

  lemma InsertKeepsEvaluations(c: Config, t1: Tables, row: Job, stamp: Stamp)
    requires Evaluations(t1) && Successor(c, t1, row, stamp).Done?
    ensures Evaluations(Successor(c, t1, row, stamp).value)
  {
    var t' := Successor(c, t1, row, stamp).value;
    forall e | 0 <= e < |t'.evaluations| ensures EvaluationOk(t', t'.evaluations[e]) {
      assert EvaluationOk(t1, t1.evaluations[e]);
    }
    forall i | 0 <= i < |t'.jobs| && t'.jobs[i].status.Terminal() && t'.jobs[i].error != Some(LeaseExpired)
      ensures Evaluated(t', i)
    {
      var e: nat :| EvaluationOf(t1, e, i);
      assert EvaluationOf(t', e, i);
    }
  }

  lemma ReapOneKeepsInv(c: Config, t: Tables, j: nat, writeAt: real, stamp: Stamp)
    requires Inv(c, t) && j < |t.jobs| && t.jobs[j].status.Active()
    ensures ReapOne(c, t, j, writeAt, stamp).Done? && Inv(c, ReapOne(c, t, j, writeAt, stamp).value)
  {
    assert RowOk(c, t, t.jobs[j]);
    var row := t.jobs[j].(status := if t.jobs[j].attempt >= c.maxAttempts then FAILED else TIMEOUT,
                          finishedAt := Some(writeAt), error := Some(LeaseExpired));
    var t1 := t.(jobs := t.jobs[j := row]);
    AdvanceKeepsEvaluations(t, t1, j, row);
    EndingKeepsInv(c, t, t1, j, row, stamp);
  }

  /** What the reaper has still to do is still expired after each row it ends. */
  lemma SelectionRest(c: Config, t: Tables, expired: seq<nat>, at: real, writeAt: real, stamp: Stamp)
    requires expired != [] && ReapSelection(t, expired, at) && ReapOne(c, t, expired[0], writeAt, stamp).Done?
    ensures Expired(t, expired[0], at)
    ensures ReapSelection(ReapOne(c, t, expired[0], writeAt, stamp).value, expired[1..], at)
  {
  }

  lemma {:induction false} ReapAllKeepsInv(c: Config, t: Tables, expired: seq<nat>, at: real, writeAt: real,
                                           stamps: seq<Stamp>)
    requires Inv(c, t) && |expired| == |stamps| && ReapSelection(t, expired, at)
    ensures ReapAll(c, t, expired, writeAt, stamps).Done? && Inv(c, ReapAll(c, t, expired, writeAt, stamps).value)
    decreases |expired|
  {
    if expired != [] {
      ReapOneKeepsInv(c, t, expired[0], writeAt, stamps[0]);
      var t1 := ReapOne(c, t, expired[0], writeAt, stamps[0]).value;
      SelectionRest(c, t, expired, at, writeAt, stamps[0]);
      ReapAllKeepsInv(c, t1, expired[1..], at, writeAt, stamps[1..]);
    }
  }

  lemma ResultKeepsInv(c: Config, t: Tables, w: nat, j: nat, report: Report, env: Env, now: real)
    requires Inv(c, t) && LegalEnv(t, w, env, now) && w < |t.workers|
    requires j < |t.jobs| && t.jobs[j].worker == Some(w) && t.jobs[j].status.Active() && !Evaluated(t, j)
    requires ConsistentStatus(report)
    ensures AfterResult(c, t, w, j, report, env).Done?
    ensures Inv(c, Release(AfterResult(c, t, w, j, report, env).value, w, now))
  {
    var row := t.jobs[j].(status := report.status, finishedAt := Some(env.writeAt),
                          error := if report.failure.Some? then Some(Reported(report.failure.value)) else None);
    var status := if t.workers[w].status.DRAINING? then DRAINING else ONLINE;
    var e := Evaluation(j, t.jobs[j].submission, w, report);
    var t1 := t.(jobs := t.jobs[j := row], evaluations := t.evaluations + [e],
                 workers := t.workers[w := Worker(status, env.writeAt, now)]);
    assert RowOk(c, t1, row) by { assert RowOk(c, t, t.jobs[j]); }
    assert EvaluationOk(t1, e);
    NewEvaluation(c, t, t1, j, row, e);
    assert Ends(c, t, t1, j, row);
    EndingKeepsInv(c, t, t1, j, row, env.stamp);
    ReleaseAfterResult(c, t, w, j, report, env, now, t1, row);
  }

  /** Releasing the row lock commutes with inserting the successor. */
  lemma ReleaseAfterResult(c: Config, t: Tables, w: nat, j: nat, report: Report, env: Env, now: real, t1: Tables,
                           row: Job)
    requires w < |t.workers| && j < |t.jobs|
    requires row == t.jobs[j].(status := report.status, finishedAt := Some(env.writeAt),
                               error := if report.failure.Some? then Some(Reported(report.failure.value)) else None)
    requires t1 == t.(jobs := t.jobs[j := row],
                      evaluations := t.evaluations + [Evaluation(j, t.jobs[j].submission, w, report)],
                      workers := t.workers[w := Worker(
                        if t.workers[w].status.DRAINING? then DRAINING else ONLINE, env.writeAt, now)])
    ensures var r := AfterResult(c, t, w, j, report, env);
            var s := Successor(c, t1, row, env.stamp);
            r.Done? == s.Done? && (r.Done? ==> Release(r.value, w, now) == s.value)
  {
  }

  lemma NewEvaluation(c: Config, t: Tables, t1: Tables, j: nat, row: Job, e: Evaluation)
    requires Evaluations(t) && Replaces(t, t1, j, row) && !t.jobs[j].status.Terminal() && !Evaluated(t, j)
    requires t1.evaluations == t.evaluations + [e] && e.job == j && EvaluationOk(t1, e)
    ensures Evaluations(t1)
  {
    forall d | 0 <= d < |t.evaluations| ensures EvaluationOk(t1, t1.evaluations[d]) && t.evaluations[d].job != j {
      assert EvaluationOk(t, t.evaluations[d]);
      assert !EvaluationOf(t, d, j);
    }
    assert EvaluationOf(t1, |t.evaluations|, j);
    forall i | 0 <= i < |t1.jobs| && i != j && t1.jobs[i].status.Terminal() && t1.jobs[i].error != Some(LeaseExpired)
      ensures Evaluated(t1, i)
    {
      var d: nat :| EvaluationOf(t, d, i);
      assert EvaluationOf(t1, d, i);
    }
  }

  lemma RequestKeepsInv(c: Config, t: Tables, q: Request, env: Env, now: real)
    requires Inv(c, t) && Legal(c, t, OpRequest(q, env), now)
    ensures Inv(c, Handle(c, t, q, env, now).0)
  {
    var t' := Handle(c, t, q, env, now).0;
    if q.worker < |t.workers| {
      var (t1, reply) := Answer(c, t, q, env);
      var w := q.worker;
      if reply.Granted? {
        ClaimKeepsInv(c, t, w, env.pick.value, env, now);
      } else if reply.Renewed? {
        JobBeatKeepsInv(c, t, w, q.job, q.event, env, now);
      } else if q.SendResult? && reply.Receipt? && !Evaluated(t, q.job) {
        ResultKeepsInv(c, t, w, q.job, q.report, env, now);
      } else {
        OtherwiseWorkersOnly(c, t, q, env, now);
        WorkersOnlyKeepsInv(c, t, t');
      }
    }
  }

  /** A request that grants, renews and accepts nothing changes its worker's row at most. */
  lemma OtherwiseWorkersOnly(c: Config, t: Tables, q: Request, env: Env, now: real)
    requires Inv(c, t) && Legal(c, t, OpRequest(q, env), now) && q.worker < |t.workers|
    requires var reply := Answer(c, t, q, env).1;
             !reply.Granted? && !reply.Renewed? && !(q.SendResult? && reply.Receipt? && !Evaluated(t, q.job))
    ensures WorkersOnly(t, Handle(c, t, q, env, now).0)
  {
    if q.SendResult? && Presents(t, q.worker, q.job, q.token) && !Evaluated(t, q.job)
        && LeaseLive(t.jobs[q.job], env.writeAt) {
      ResultKeepsInv(c, t, q.worker, q.job, q.report, env, now);
    }
  }

  lemma {:induction false} SubmitKeepsInv(c: Config, t: Tables, agent: nat, problems: seq<nat>, stamps: seq<Stamp>)
    requires ValidConfig(c) && Inv(c, t) && |problems| == |stamps|
    ensures SubmitAll(t, agent, problems, stamps).Done? && Inv(c, SubmitAll(t, agent, problems, stamps).value)
    decreases |problems|
  {
    if problems != [] {
      var s := |t.submissions|;
      var t0 := t.(submissions := t.submissions + [Submission(agent, problems[0])]);
      forall k | k in t.attempts ensures k.0 < s {
        assert RowOk(c, t, t.jobs[t.attempts[k]]);
      }
      InsertKeepsIndex(t0, s, 1, stamps[0]);
      var t1 := InsertJob(t0, s, 1, stamps[0]).value;
      FirstAttemptKeepsInv(c, t, t1, agent, problems[0], stamps[0]);
      SubmitKeepsInv(c, t1, agent, problems[1..], stamps[1..]);
    }
  }

  lemma FirstAttemptKeepsInv(c: Config, t: Tables, t1: Tables, agent: nat, problem: nat, stamp: Stamp)
    requires ValidConfig(c) && Inv(c, t) && (|t.submissions|, 1) !in t.attempts
    requires t1 == InsertJob(t.(submissions := t.submissions + [Submission(agent, problem)]), |t.submissions|, 1,
                             stamp).value
    requires Indexed(t1)
    ensures Inv(c, t1)
  {
    forall i | 0 <= i < |t1.jobs| ensures RowOk(c, t1, t1.jobs[i]) && LeaseOk(c, t1, t1.jobs[i]) {
      assert i < |t.jobs| ==> RowOk(c, t, t.jobs[i]) && LeaseOk(c, t, t.jobs[i]);
    }
    FirstAttemptKeepsChain(c, t, t1, stamp);
    FirstAttemptKeepsEvaluations(t, t1, stamp);
  }

  lemma FirstAttemptKeepsChain(c: Config, t: Tables, t1: Tables, stamp: Stamp)
    requires Chained(c, t) && |t1.submissions| == |t.submissions| + 1
    requires t1.jobs == t.jobs + [QueuedJob(|t.submissions|, 1, stamp)]
    requires (|t.submissions|, 1) !in t.attempts && t1.attempts == t.attempts[(|t.submissions|, 1) := |t.jobs|]
    ensures Chained(c, t1)
  {
    forall k | 0 <= k < |t1.jobs| ensures Preceded(t1, t1.jobs[k]) && Continued(c, t1, t1.jobs[k]) {
      assert k < |t.jobs| ==> Preceded(t, t.jobs[k]) && Continued(c, t, t.jobs[k]);
    }
  }

  lemma FirstAttemptKeepsEvaluations(t: Tables, t1: Tables, stamp: Stamp)
    requires Evaluations(t) && t1.jobs == t.jobs + [QueuedJob(|t.submissions|, 1, stamp)]
             && t1.evaluations == t.evaluations
    ensures Evaluations(t1)
  {
    forall e | 0 <= e < |t1.evaluations| ensures EvaluationOk(t1, t1.evaluations[e]) {
      assert EvaluationOk(t, t.evaluations[e]);
    }
    forall i | 0 <= i < |t1.jobs| && t1.jobs[i].status.Terminal() && t1.jobs[i].error != Some(LeaseExpired)
      ensures Evaluated(t1, i)
    {
      var e: nat :| EvaluationOf(t, e, i);
      assert EvaluationOf(t1, e, i);
    }
  }

  lemma RegisterKeepsInv(c: Config, t: Tables, now: real)
    requires Inv(c, t)
    ensures Inv(c, Register(t, now))
  {
    var t' := Register(t, now);
    forall i | 0 <= i < |t'.jobs| ensures RowOk(c, t', t'.jobs[i]) && LeaseOk(c, t', t'.jobs[i]) {
      assert RowOk(c, t, t.jobs[i]) && LeaseOk(c, t, t.jobs[i]);
    }
    ReplaceNothingKeepsChain(c, t, t');
    SameEvaluations(t, t');
  }

  /** Every transaction keeps the invariant, and no insert ever meets the unique index. */
  lemma StepKeepsInv(c: Config, t: Tables, op: Op, now: real)
    requires ValidConfig(c) && Inv(c, t) && Legal(c, t, op, now)
    ensures Inv(c, Apply(c, t, op, now))
  {
    match op
    case OpSubmit(agent, problems, stamps) => SubmitKeepsInv(c, t, agent, problems, stamps);
    case OpRegister => RegisterKeepsInv(c, t, now);
    case OpRequest(q, env) => RequestKeepsInv(c, t, q, env, now);
    case OpReap(expired, at, writeAt, stamps) => ReapAllKeepsInv(c, t, expired, at, writeAt, stamps);
    case OpOffline(offline, at) => WorkersOnlyKeepsInv(c, t, MarkOffline(t, offline, now));
  }
}
