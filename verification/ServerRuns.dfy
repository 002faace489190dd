/** Consequences of the invariant over whole runs of the control plane. */
module ServerRuns {
  import opened Records
  import opened Server
  import opened ServerInvariant

  datatype Timed = Timed(op: Op, now: real)

  /** The transactions `steps` lead from `t` to `t'`. */
  ghost predicate Reaches(c: Config, t: Tables, steps: seq<Timed>, t': Tables)
    decreases |steps|
  {
    if steps == [] then t' == t
    else
      && Legal(c, t, steps[0].op, steps[0].now)
      && Reaches(c, Apply(c, t, steps[0].op, steps[0].now), steps[1..], t')
  }

  lemma {:induction false} RunKeepsInv(c: Config, t: Tables, steps: seq<Timed>, t': Tables)
    requires ValidConfig(c) && Inv(c, t) && Reaches(c, t, steps, t')
    ensures Inv(c, t')
    decreases |steps|
  {
    if steps != [] {
      StepKeepsInv(c, t, steps[0].op, steps[0].now);
      RunKeepsInv(c, Apply(c, t, steps[0].op, steps[0].now), steps[1..], t');
    }
  }

  // ---------------------------------------------------------------- attempt chain

  predicate HasAttempt(t: Tables, s: nat, a: nat) { (s, a) in t.attempts && t.attempts[(s, a)] < |t.jobs| }

  function AttemptRow(t: Tables, s: nat, a: nat): Job
    requires HasAttempt(t, s, a)
  {
    t.jobs[t.attempts[(s, a)]]
  }

  /** The attempts of submission `s` are exactly 1..k. */
  ghost predicate AttemptsUpTo(t: Tables, s: nat, k: nat) {
    forall a: nat :: HasAttempt(t, s, a) <==> 1 <= a <= k
  }

  lemma {:induction false} LowerAttemptsExist(c: Config, t: Tables, s: nat, a: nat, k: nat)
    requires Inv(c, t) && HasAttempt(t, s, k) && 1 <= a <= k
    ensures HasAttempt(t, s, a) && (a < k ==> Retriable(AttemptRow(t, s, a)) && AttemptRow(t, s, a).status.Terminal())
    decreases k
  {
    assert (s, k) in t.attempts;
    assert RowOk(c, t, t.jobs[t.attempts[(s, k)]]);
    if a < k {
      PredecessorIsRetriable(c, t, (s, k));
      assert RowOk(c, t, t.jobs[t.attempts[(s, k - 1)]]);
      LowerAttemptsExist(c, t, s, a, k - 1);
    }
  }

  /** Every row of the jobs table is the indexed row of its own attempt. */
  lemma RowIsIndexed(c: Config, t: Tables, i: nat)
    requires Inv(c, t) && i < |t.jobs|
    ensures HasAttempt(t, t.jobs[i].submission, t.jobs[i].attempt)
    ensures AttemptRow(t, t.jobs[i].submission, t.jobs[i].attempt) == t.jobs[i]
    ensures t.jobs[i].submission < |t.submissions| && 1 <= t.jobs[i].attempt <= c.maxAttempts
  {
  }

  ghost function LastAttempt(c: Config, t: Tables, s: nat, a: nat): (k: nat)
    requires Inv(c, t) && HasAttempt(t, s, a)
    ensures a <= k <= c.maxAttempts && HasAttempt(t, s, k) && !HasAttempt(t, s, k + 1)
    decreases c.maxAttempts - a
  {
    assert (s, a) in t.attempts;
    assert RowOk(c, t, t.jobs[t.attempts[(s, a)]]);
    if HasAttempt(t, s, a + 1) then
      assert (s, a + 1) in t.attempts;
      assert RowOk(c, t, t.jobs[t.attempts[(s, a + 1)]]);
      LastAttempt(c, t, s, a + 1)
    else a
  }

  /** Attempt a+1 exists iff attempt a exists, ended by reaping or by a reported
      infrastructure failure, and is below the limit. */
  lemma SuccessorIff(c: Config, t: Tables, s: nat, a: nat)
    requires Inv(c, t) && HasAttempt(t, s, a)
    ensures HasAttempt(t, s, a + 1) <==> a < c.maxAttempts && Retriable(AttemptRow(t, s, a))
  {
    var j := AttemptRow(t, s, a);
    assert Key(j) == (s, a) by { assert (s, a) in t.attempts; }
    assert RowOk(c, t, j);
    var next: (nat, nat) := (s, a + 1);
    assert Continued(c, t, t.jobs[t.attempts[(s, a)]]);
    assert next in t.attempts ==> t.attempts[next] < |t.jobs|;
    if HasAttempt(t, s, a + 1) {
      assert (s, a + 1) in t.attempts;
      assert RowOk(c, t, t.jobs[t.attempts[(s, a + 1)]]);
      PredecessorIsRetriable(c, t, (s, a + 1));
    }
  }

  /** The attempt chain: attempts are exactly 1..k with k at most the limit, each
      attempt number belongs to one row, all but the last are terminal, and a
      completed attempt is the last one. */
  lemma AttemptChain(c: Config, t: Tables, s: nat)
    requires ValidConfig(c) && Inv(c, t) && s < |t.submissions|
    ensures exists k :: && 1 <= k <= c.maxAttempts && AttemptsUpTo(t, s, k)
                        && (forall a: nat | 1 <= a < k :: AttemptRow(t, s, a).status.Terminal())
                        && (forall a: nat | 1 <= a <= k :: AttemptRow(t, s, a).status.COMPLETED? ==> a == k)
    ensures forall i, l | 0 <= i < |t.jobs| && 0 <= l < |t.jobs| :: Key(t.jobs[i]) == Key(t.jobs[l]) ==> i == l
  {
    assert (s, 1) in t.attempts;
    var k := LastAttempt(c, t, s, 1);
    forall a: nat ensures HasAttempt(t, s, a) <==> 1 <= a <= k {
      if 1 <= a <= k {
        LowerAttemptsExist(c, t, s, a, k);
      } else if HasAttempt(t, s, a) {
        assert (s, a) in t.attempts;
        assert RowOk(c, t, t.jobs[t.attempts[(s, a)]]);
        if a > k { LowerAttemptsExist(c, t, s, k + 1, a); }
      }
    }
    assert AttemptsUpTo(t, s, k);
    forall a: nat | 1 <= a < k ensures AttemptRow(t, s, a).status.Terminal() && !AttemptRow(t, s, a).status.COMPLETED? {
      LowerAttemptsExist(c, t, s, a, k);
      assert RowOk(c, t, AttemptRow(t, s, a));
    }
  }

  /** Two jobs of one submission that are both unfinished are the same job. */
  lemma OneUnfinishedAttempt(c: Config, t: Tables, i: nat, j: nat)
    requires Inv(c, t) && i < |t.jobs| && j < |t.jobs|
    requires t.jobs[i].submission == t.jobs[j].submission
    requires !t.jobs[i].status.Terminal() && !t.jobs[j].status.Terminal()
    ensures i == j
  {
    RowIsIndexed(c, t, i);
    RowIsIndexed(c, t, j);
    var s := t.jobs[i].submission;
    LowerAttemptsExist(c, t, s, if t.jobs[i].attempt <= t.jobs[j].attempt then t.jobs[i].attempt else t.jobs[j].attempt,
                       if t.jobs[i].attempt <= t.jobs[j].attempt then t.jobs[j].attempt else t.jobs[i].attempt);
    assert t.attempts[Key(t.jobs[i])] == i && t.attempts[Key(t.jobs[j])] == j;
  }

  // ---------------------------------------------------------------- how a row may change

  /** What any transaction may do to a job row: a queued row may be claimed, an
      active row keeps its owner and token, a terminal row never changes, and no
      row returns to the queue. */
  predicate Evolves(j: Job, j': Job) {
    && Key(j') == Key(j) && j'.stamp == j.stamp
    && (j.status.Terminal() ==> j' == j)
    && (!j.status.QUEUED? ==> !j'.status.QUEUED?)
    && (j.status.RUNNING? ==> !j'.status.CLAIMED?)
    && (j.status.Active() ==> j'.worker == j.worker && j'.token == j.token)
    && (j.status.QUEUED? ==> j' == j || j'.status.CLAIMED?)
  }

  ghost predicate Extends(t: Tables, t': Tables) {
    && |t.jobs| <= |t'.jobs|
    && (forall i | 0 <= i < |t.jobs| :: Evolves(t.jobs[i], t'.jobs[i]))
    && t.evaluations <= t'.evaluations
    && t.submissions <= t'.submissions
    && |t.workers| <= |t'.workers|
    && t.tokens <= t'.tokens
  }

  lemma {:induction false} ReapExtends(c: Config, t: Tables, expired: seq<nat>, at: real, writeAt: real,
                                       stamps: seq<Stamp>)
    requires |expired| == |stamps| && ReapSelection(t, expired, at)
    ensures Extends(t, Commit(t, ReapAll(c, t, expired, writeAt, stamps)))
    ensures Commit(t, ReapAll(c, t, expired, writeAt, stamps)).workers == t.workers
    ensures Commit(t, ReapAll(c, t, expired, writeAt, stamps)).evaluations == t.evaluations
    decreases |expired|
  {
    if expired != [] && ReapOne(c, t, expired[0], writeAt, stamps[0]).Done? {
      var t1 := ReapOne(c, t, expired[0], writeAt, stamps[0]).value;
      SelectionRest(c, t, expired, at, writeAt, stamps[0]);
      assert Extends(t, t1);
      ReapExtends(c, t1, expired[1..], at, writeAt, stamps[1..]);
    }
  }

  lemma {:induction false} SubmitExtends(t: Tables, agent: nat, problems: seq<nat>, stamps: seq<Stamp>)
    requires |problems| == |stamps|
    ensures Extends(t, Commit(t, SubmitAll(t, agent, problems, stamps)))
    decreases |problems|
  {
    if problems != [] {
      var r := InsertJob(t.(submissions := t.submissions + [Submission(agent, problems[0])]), |t.submissions|, 1,
                         stamps[0]);
      if r.Done? {
        SubmitExtends(r.value, agent, problems[1..], stamps[1..]);
      }
    }
  }

  /** No transaction moves a job backwards, changes a finished job, or drops a row. */
  lemma StepExtends(c: Config, t: Tables, op: Op, now: real)
    requires Legal(c, t, op, now)
    ensures Extends(t, Apply(c, t, op, now))
  {
    match op
    case OpSubmit(agent, problems, stamps) => SubmitExtends(t, agent, problems, stamps);
    case OpReap(expired, at, writeAt, stamps) => ReapExtends(c, t, expired, at, writeAt, stamps);
    case OpRegister =>
    case OpOffline(_, _) =>
    case OpRequest(q, env) =>
      AnswerCases(c, t, q, env);
      if q.worker < |t.workers| { RequestExtends(c, t, Answer(c, t, q, env).0, q, env); }
  }

  /** The job rows a request may touch: at most one row, and at most one new row. */
  ghost predicate Touches(c: Config, t: Tables, t1: Tables, q: Request, env: Env) {
    && t1.submissions == t.submissions
    && |t1.workers| == |t.workers|
    && (forall v | 0 <= v < |t.workers| && v != q.worker :: t1.workers[v] == t.workers[v])
    && t.tokens <= t1.tokens
    && ( || (t1.jobs == t.jobs && t1.evaluations == t.evaluations)
         || (q.ClaimJob? && Claims(t, t1, q.worker, env.pick))
         || (q.JobBeat? && Renews(c, t, t1, q.worker, q.job, q.token, env))
         || (q.SendResult? && Settles(c, t, t1, q.worker, q.job, q.token, q.report, env)))
  }

  predicate Claims(t: Tables, t1: Tables, w: nat, pick: Option<nat>) {
    && pick.Some? && pick.value < |t.jobs| && t.jobs[pick.value].status.QUEUED?
    && |t1.jobs| == |t.jobs| && t1.jobs == t.jobs[pick.value := t1.jobs[pick.value]]
    && t1.jobs[pick.value].status.CLAIMED? && t1.jobs[pick.value].worker == Some(w)
    && Key(t1.jobs[pick.value]) == Key(t.jobs[pick.value]) && t1.jobs[pick.value].stamp == t.jobs[pick.value].stamp
    && t1.jobs[pick.value].error == t.jobs[pick.value].error
    && t1.evaluations == t.evaluations
  }

  predicate Renews(c: Config, t: Tables, t1: Tables, w: nat, j: nat, token: nat, env: Env) {
    && Presents(t, w, j, token) && LeaseLive(t.jobs[j], env.at)
    && |t1.jobs| == |t.jobs| && t1.jobs == t.jobs[j := t1.jobs[j]]
    && t1.jobs[j] == t.jobs[j].(status := RUNNING, lastEvent := t1.jobs[j].lastEvent,
                                heartbeatAt := t1.jobs[j].heartbeatAt,
                                startedAt := t1.jobs[j].startedAt, expires := Some(env.writeAt + c.leaseSeconds))
    && t1.evaluations == t.evaluations
  }

  predicate Settles(c: Config, t: Tables, t1: Tables, w: nat, j: nat, token: nat, report: Report, env: Env) {
    && Presents(t, w, j, token) && LeaseLive(t.jobs[j], env.at)
    && |t.jobs| <= |t1.jobs| && t1.jobs[..|t.jobs|] == t.jobs[j := t1.jobs[j]]
    && (t1.jobs == t.jobs[j := t1.jobs[j]]
        || (t.jobs[j].attempt < c.maxAttempts
            && t1.jobs == t.jobs[j := t1.jobs[j]]
               + [QueuedJob(t.jobs[j].submission, t.jobs[j].attempt + 1, env.stamp)]))
    && t1.jobs[j] == t.jobs[j].(status := report.status, finishedAt := t1.jobs[j].finishedAt,
                                error := if report.failure.Some? then Some(Reported(report.failure.value)) else None)
    && t1.evaluations == t.evaluations + [Evaluation(j, t.jobs[j].submission, w, report)]
  }

  lemma AnswerCases(c: Config, t: Tables, q: Request, env: Env)
    requires Picks(t.jobs, env.skipped, env.pick)
    ensures q.worker < |t.workers| ==> Touches(c, t, Answer(c, t, q, env).0, q, env)
    ensures q.worker < |t.workers| ==>
              (Answer(c, t, q, env).1.Granted? <==> q.ClaimJob? && Answer(c, t, q, env).0.jobs != t.jobs)
  {
  }

  lemma RequestExtends(c: Config, t: Tables, t1: Tables, q: Request, env: Env)
    requires Touches(c, t, t1, q, env) && (q.SendResult? ==> q.report.status.Terminal())
    ensures Extends(t, t1)
  {
  }

  /** A request by one worker leaves every other worker's row and jobs alone, and
      changes at most the queue. */
  lemma RequestIsLocal(c: Config, t: Tables, q: Request, env: Env, now: real, v: nat)
    requires Inv(c, t) && LegalEnv(t, q.worker, env, now) && v != q.worker
    ensures var t' := Handle(c, t, q, env, now).0;
            && |t'.workers| == |t.workers|
            && (v < |t.workers| ==> t'.workers[v] == t.workers[v])
            && |t.jobs| <= |t'.jobs|
            && (forall i | 0 <= i < |t.jobs| && t.jobs[i].worker == Some(v) :: t'.jobs[i] == t.jobs[i])
            && (forall i | 0 <= i < |t'.jobs| && t'.jobs[i].worker == Some(v) ::
                i < |t.jobs| && t'.jobs[i] == t.jobs[i])
  {
    AnswerCases(c, t, q, env);
    if q.worker < |t.workers| {
      LocalTouch(c, t, Answer(c, t, q, env).0, q, env, v);
    }
  }

  lemma LocalTouch(c: Config, t: Tables, t1: Tables, q: Request, env: Env, v: nat)
    requires Rows(c, t) && Touches(c, t, t1, q, env) && v != q.worker
    ensures |t.jobs| <= |t1.jobs|
    ensures forall i | 0 <= i < |t.jobs| && t.jobs[i].worker == Some(v) :: t1.jobs[i] == t.jobs[i]
    ensures forall i | 0 <= i < |t1.jobs| && t1.jobs[i].worker == Some(v) :: i < |t.jobs| && t1.jobs[i] == t.jobs[i]
  {
  }

  /** Ownership safety in every state of every run. */
  lemma OwnershipSafety(c: Config, steps: seq<Timed>, t: Tables, i: nat, k: nat)
    requires ValidConfig(c) && Reaches(c, EMPTY, steps, t)
    requires i < |t.jobs| && k < |t.jobs|
    ensures && (t.jobs[i].status.Active() ==>
                  t.jobs[i].worker.Some? && t.jobs[i].worker.value < |t.workers| && t.jobs[i].token.Some?
                      && t.jobs[i].expires.Some?)
            && (t.jobs[i].status.Active() && t.jobs[k].status.Active() && t.jobs[i].worker == t.jobs[k].worker ==>
                i == k)
            && (t.jobs[i].status.Active() && t.jobs[i].token == t.jobs[k].token ==> i == k)
            && (Evaluated(t, i) ==> t.jobs[i].status.Terminal())
            && (forall e | 0 <= e < |t.evaluations| && t.evaluations[e].job == i ::
                  t.evaluations[e].report.status == t.jobs[i].status
                      && t.jobs[i].worker == Some(t.evaluations[e].worker))
            && (forall d, e | 0 <= d < |t.evaluations| && 0 <= e < |t.evaluations| ::
                  t.evaluations[d].job == t.evaluations[e].job ==> d == e)
  {
    RunKeepsInv(c, EMPTY, steps, t);
    assert RowOk(c, t, t.jobs[i]);
    assert forall e | 0 <= e < |t.evaluations| :: EvaluationOk(t, t.evaluations[e]);
  }

  // ---------------------------------------------------------------- bounded work

  function Sum(c: Config, weight: (Config, Job) -> nat, jobs: seq<Job>): nat {
    if jobs == [] then 0 else Sum(c, weight, jobs[..|jobs| - 1]) + weight(c, jobs[|jobs| - 1])
  }

  lemma {:induction false} SumUpdate(c: Config, weight: (Config, Job) -> nat, jobs: seq<Job>, i: nat, j: Job)
    requires i < |jobs|
    ensures Sum(c, weight, jobs[i := j]) + weight(c, jobs[i]) == Sum(c, weight, jobs) + weight(c, j)
    decreases |jobs|
  {
    var n := |jobs| - 1;
    if i < n {
      assert jobs[i := j][..n] == jobs[..n][i := j];
      SumUpdate(c, weight, jobs[..n], i, j);
    } else {
      assert jobs[i := j][..n] == jobs[..n];
    }
  }

  lemma SumAppend(c: Config, weight: (Config, Job) -> nat, jobs: seq<Job>, j: Job)
    ensures Sum(c, weight, jobs + [j]) == Sum(c, weight, jobs) + weight(c, j)
  {
  }

  function Left(c: Config, j: Job): nat { if j.attempt <= c.maxAttempts then c.maxAttempts - j.attempt else 0 }

  /** Steps still ahead of a job and of the retries it may cause. */
  function Work(c: Config, j: Job): nat {
    if j.status.QUEUED? then 2 * Left(c, j) + 2 else if j.status.Active() then 2 * Left(c, j) + 1 else 0
  }

  /** Claims still ahead of a job and of the retries it may cause. */
  function ClaimsLeft(c: Config, j: Job): nat {
    if j.status.QUEUED? then Left(c, j) + 1 else if j.status.Active() then Left(c, j) else 0
  }

  function TotalWork(c: Config, t: Tables): nat { Sum(c, Work, t.jobs) }
  function TotalClaims(c: Config, t: Tables): nat { Sum(c, ClaimsLeft, t.jobs) }

  /** An active job that ends, with or without a successor, uses up work and no claims. */
  lemma EndingUsesWork(c: Config, t: Tables, t1: Tables, j: nat, row: Job, stamp: Stamp)
    requires j < |t.jobs| && t.jobs[j].status.Active() && row.status.Terminal() && row.attempt == t.jobs[j].attempt
    requires t1.jobs == t.jobs[j := row] && Successor(c, t1, row, stamp).Done?
    ensures var t' := Successor(c, t1, row, stamp).value;
            TotalWork(c, t') < TotalWork(c, t) && TotalClaims(c, t') <= TotalClaims(c, t)
  {
    SumUpdate(c, Work, t.jobs, j, row);
    SumUpdate(c, ClaimsLeft, t.jobs, j, row);
    SumAppend(c, Work, t1.jobs, QueuedJob(row.submission, row.attempt + 1, stamp));
    SumAppend(c, ClaimsLeft, t1.jobs, QueuedJob(row.submission, row.attempt + 1, stamp));
  }

  lemma {:induction false} ReapUsesWork(c: Config, t: Tables, expired: seq<nat>, at: real, writeAt: real,
                                        stamps: seq<Stamp>)
    requires |expired| == |stamps| && ReapSelection(t, expired, at) && ReapAll(c, t, expired, writeAt, stamps).Done?
    ensures var t' := ReapAll(c, t, expired, writeAt, stamps).value;
            && (if expired == [] then TotalWork(c, t') == TotalWork(c, t) else TotalWork(c, t') < TotalWork(c, t))
            && TotalClaims(c, t') <= TotalClaims(c, t)
            && t'.submissions == t.submissions
    decreases |expired|
  {
    if expired != [] {
      assert Expired(t, expired[0], at);
      ReapOneUsesWork(c, t, expired[0], writeAt, stamps[0]);
      SelectionRest(c, t, expired, at, writeAt, stamps[0]);
      ReapUsesWork(c, ReapOne(c, t, expired[0], writeAt, stamps[0]).value, expired[1..], at, writeAt, stamps[1..]);
    }
  }

  lemma ReapOneUsesWork(c: Config, t: Tables, j: nat, writeAt: real, stamp: Stamp)
    requires j < |t.jobs| && t.jobs[j].status.Active() && ReapOne(c, t, j, writeAt, stamp).Done?
    ensures var t' := ReapOne(c, t, j, writeAt, stamp).value;
            TotalWork(c, t') < TotalWork(c, t) && TotalClaims(c, t') <= TotalClaims(c, t)
                && t'.submissions == t.submissions
  {
    var row := t.jobs[j].(status := if t.jobs[j].attempt >= c.maxAttempts then FAILED else TIMEOUT,
                          finishedAt := Some(writeAt), error := Some(LeaseExpired));
    EndingUsesWork(c, t, t.(jobs := t.jobs[j := row]), j, row, stamp);
  }

  lemma {:induction false} SubmitAddsWork(c: Config, t: Tables, agent: nat, problems: seq<nat>, stamps: seq<Stamp>)
    requires ValidConfig(c) && |problems| == |stamps| && SubmitAll(t, agent, problems, stamps).Done?
    ensures var t' := SubmitAll(t, agent, problems, stamps).value;
            && |t'.submissions| == |t.submissions| + |problems|
            && TotalWork(c, t') == TotalWork(c, t) + 2 * Times(c.maxAttempts, |problems|)
            && TotalClaims(c, t') == TotalClaims(c, t) + Times(c.maxAttempts, |problems|)
    decreases |problems|
  {
    if problems != [] {
      var t1 := InsertJob(t.(submissions := t.submissions + [Submission(agent, problems[0])]), |t.submissions|, 1,
                          stamps[0]).value;
      var first := QueuedJob(|t.submissions|, 1, stamps[0]);
      SumAppend(c, Work, t.jobs, first);
      SumAppend(c, ClaimsLeft, t.jobs, first);
      SubmitAddsWork(c, t1, agent, problems[1..], stamps[1..]);
    }
  }

  /** `n * max`, unrolled one submission at a time. */
  function Times(max: nat, n: nat): nat {
    if n == 0 then 0 else max + Times(max, n - 1)
  }

  lemma TimesIsProduct(max: nat, n: nat)
    ensures Times(max, n) == max * n
  {
  }

  lemma TimesAdds(max: nat, m: nat, n: nat)
    ensures Times(max, m + n) == Times(max, m) + Times(max, n)
  {
    TimesIsProduct(max, m + n);
    TimesIsProduct(max, m);
    TimesIsProduct(max, n);
  }

  ghost predicate IsClaim(c: Config, t: Tables, op: Op, now: real)
    requires Legal(c, t, op, now)
  {
    op.OpRequest? && Handle(c, t, op.request, op.env, now).1.Granted?
  }

  /** A claim uses one unit of work and of the claim budget; renewals and other
      requests use none; results and reaping use work; only a submission adds. */
  lemma StepUsesWork(c: Config, t: Tables, op: Op, now: real)
    requires ValidConfig(c) && Inv(c, t) && Legal(c, t, op, now)
    ensures var t' := Apply(c, t, op, now);
            && (IsClaim(c, t, op, now) ==>
                TotalWork(c, t') + 1 == TotalWork(c, t) && TotalClaims(c, t') + 1 == TotalClaims(c, t))
            && (op.OpRequest? && Handle(c, t, op.request, op.env, now).1.Renewed? ==>
                TotalWork(c, t') == TotalWork(c, t))
            && (op.OpRequest? && |t'.evaluations| > |t.evaluations| ==> TotalWork(c, t') < TotalWork(c, t))
            && (op.OpReap? && op.expired != [] ==> TotalWork(c, t') < TotalWork(c, t))
            && (!op.OpSubmit? ==> TotalWork(c, t') <= TotalWork(c, t))
            && |t.submissions| <= |t'.submissions|
            && TotalClaims(c, t') + (if IsClaim(c, t, op, now) then 1 else 0)
               <= TotalClaims(c, t) + Times(c.maxAttempts, |t'.submissions| - |t.submissions|)
  {
    if op.OpRequest? {
      RequestUsesWork(c, t, op.request, op.env, now);
    } else {
      OthersUseWork(c, t, op, now);
    }
  }

  lemma OthersUseWork(c: Config, t: Tables, op: Op, now: real)
    requires ValidConfig(c) && Inv(c, t) && Legal(c, t, op, now) && !op.OpRequest?
    ensures var t' := Apply(c, t, op, now);
            && (op.OpReap? && op.expired != [] ==> TotalWork(c, t') < TotalWork(c, t))
            && (!op.OpSubmit? ==> TotalWork(c, t') <= TotalWork(c, t))
            && |t.submissions| <= |t'.submissions|
            && TotalClaims(c, t') <= TotalClaims(c, t) + Times(c.maxAttempts, |t'.submissions| - |t.submissions|)
  {
    match op
    case OpSubmit(agent, problems, stamps) =>
      SubmitKeepsInv(c, t, agent, problems, stamps);
      SubmitAddsWork(c, t, agent, problems, stamps);
    case OpReap(expired, at, writeAt, stamps) =>
      ReapAllKeepsInv(c, t, expired, at, writeAt, stamps);
      ReapUsesWork(c, t, expired, at, writeAt, stamps);
    case OpRegister =>
    case OpOffline(_, _) =>
  }

  lemma RequestUsesWork(c: Config, t: Tables, q: Request, env: Env, now: real)
    requires ValidConfig(c) && Inv(c, t) && Legal(c, t, OpRequest(q, env), now)
    ensures var (t', reply) := Handle(c, t, q, env, now);
            && t'.submissions == t.submissions
            && (if reply.Granted?
                then TotalWork(c, t') + 1 == TotalWork(c, t) && TotalClaims(c, t') + 1 == TotalClaims(c, t)
                else if |t'.evaluations| > |t.evaluations|
                    then TotalWork(c, t') < TotalWork(c, t) && TotalClaims(c, t') <= TotalClaims(c, t)
                else TotalWork(c, t') == TotalWork(c, t) && TotalClaims(c, t') == TotalClaims(c, t))
  {
    if q.worker < |t.workers| {
      AnswerCases(c, t, q, env);
      var (t1, reply) := Answer(c, t, q, env);
      assert Handle(c, t, q, env, now) == (Release(t1, q.worker, now), reply);
      TouchUsesWork(c, t, t1, q, env);
    }
  }

  lemma TouchUsesWork(c: Config, t: Tables, t1: Tables, q: Request, env: Env)
    requires Rows(c, t) && Touches(c, t, t1, q, env) && (q.SendResult? ==> q.report.status.Terminal())
    ensures if q.ClaimJob? && t1.jobs != t.jobs
            then TotalWork(c, t1) + 1 == TotalWork(c, t) && TotalClaims(c, t1) + 1 == TotalClaims(c, t)
            else if |t1.evaluations| > |t.evaluations|
                then TotalWork(c, t1) < TotalWork(c, t) && TotalClaims(c, t1) <= TotalClaims(c, t)
            else TotalWork(c, t1) == TotalWork(c, t) && TotalClaims(c, t1) == TotalClaims(c, t)
  {
    if t1.jobs != t.jobs {
      var j := if q.ClaimJob? then env.pick.value else q.job;
      if |t1.jobs| == |t.jobs| {
        RowUsesWork(c, t, t1, j);
      } else {
        SettlementUsesWork(c, t, t.jobs[j := t1.jobs[j]], t1.jobs, j, env.stamp);
      }
    }
  }

  lemma RowUsesWork(c: Config, t: Tables, t1: Tables, j: nat)
    requires j < |t.jobs| == |t1.jobs| && t1.jobs == t.jobs[j := t1.jobs[j]]
    ensures TotalWork(c, t1) == TotalWork(c, t) - Work(c, t.jobs[j]) + Work(c, t1.jobs[j])
    ensures TotalClaims(c, t1) == TotalClaims(c, t) - ClaimsLeft(c, t.jobs[j]) + ClaimsLeft(c, t1.jobs[j])
  {
    SumUpdate(c, Work, t.jobs, j, t1.jobs[j]);
    SumUpdate(c, ClaimsLeft, t.jobs, j, t1.jobs[j]);
  }

  lemma SettlementUsesWork(c: Config, t: Tables, ended: seq<Job>, jobs: seq<Job>, j: nat, stamp: Stamp)
    requires Rows(c, t) && j < |t.jobs| && t.jobs[j].status.Active() && t.jobs[j].attempt < c.maxAttempts
    requires |ended| == |t.jobs| && ended[j].status.Terminal() && ended == t.jobs[j := ended[j]]
    requires jobs == ended + [QueuedJob(t.jobs[j].submission, t.jobs[j].attempt + 1, stamp)]
    ensures Sum(c, Work, jobs) + 1 == TotalWork(c, t) && Sum(c, ClaimsLeft, jobs) == TotalClaims(c, t)
  {
    var next := QueuedJob(t.jobs[j].submission, t.jobs[j].attempt + 1, stamp);
    SumUpdate(c, Work, t.jobs, j, ended[j]);
    SumUpdate(c, ClaimsLeft, t.jobs, j, ended[j]);
    SumAppend(c, Work, ended, next);
    SumAppend(c, ClaimsLeft, ended, next);
  }

  lemma {:induction false} SubmitIssuesNoToken(t: Tables, agent: nat, problems: seq<nat>, stamps: seq<Stamp>)
    requires |problems| == |stamps|
    ensures Commit(t, SubmitAll(t, agent, problems, stamps)).tokens == t.tokens
    decreases |problems|
  {
    if problems != [] {
      var r := InsertJob(t.(submissions := t.submissions + [Submission(agent, problems[0])]), |t.submissions|, 1,
                         stamps[0]);
      if r.Done? { SubmitIssuesNoToken(r.value, agent, problems[1..], stamps[1..]); }
    }
  }

  lemma {:induction false} ReapIssuesNoToken(c: Config, t: Tables, expired: seq<nat>, writeAt: real, stamps: seq<Stamp>)
    requires |expired| == |stamps| && forall k :: 0 <= k < |expired| ==> expired[k] < |t.jobs|
    ensures Commit(t, ReapAll(c, t, expired, writeAt, stamps)).tokens == t.tokens
    decreases |expired|
  {
    if expired != [] {
      var r := ReapOne(c, t, expired[0], writeAt, stamps[0]);
      if r.Done? { ReapIssuesNoToken(c, r.value, expired[1..], writeAt, stamps[1..]); }
    }
  }

  /** A lease token is issued by a claim and by nothing else, so the number of tokens
      issued is the number of jobs handed out. */
  lemma TokensCountClaims(c: Config, t: Tables, op: Op, now: real)
    requires Legal(c, t, op, now)
    ensures Apply(c, t, op, now).tokens == t.tokens + (if IsClaim(c, t, op, now) then 1 else 0)
  {
    match op
    case OpSubmit(agent, problems, stamps) => SubmitIssuesNoToken(t, agent, problems, stamps);
    case OpReap(expired, at, writeAt, stamps) =>
      assert forall k :: 0 <= k < |expired| ==> Expired(t, expired[k], at);
      ReapIssuesNoToken(c, t, expired, writeAt, stamps);
    case OpRegister =>
    case OpOffline(_, _) =>
    case OpRequest(q, env) =>
  }

  lemma StepUsesClaims(c: Config, t: Tables, op: Op, now: real)
    requires ValidConfig(c) && Inv(c, t) && Legal(c, t, op, now)
    ensures var t' := Apply(c, t, op, now);
            && |t.submissions| <= |t'.submissions|
            && t'.tokens + TotalClaims(c, t')
               <= t.tokens + TotalClaims(c, t) + Times(c.maxAttempts, |t'.submissions| - |t.submissions|)
  {
    StepUsesWork(c, t, op, now);
    TokensCountClaims(c, t, op, now);
  }

  /** What is left of the claims every submission is entitled to. */
  ghost predicate WithinBudget(c: Config, t: Tables) {
    t.tokens + TotalClaims(c, t) <= Times(c.maxAttempts, |t.submissions|)
  }

  lemma BudgetKept(c: Config, t: Tables, op: Op, now: real)
    requires ValidConfig(c) && Inv(c, t) && Legal(c, t, op, now) && WithinBudget(c, t)
    ensures WithinBudget(c, Apply(c, t, op, now))
  {
    var t' := Apply(c, t, op, now);
    StepUsesClaims(c, t, op, now);
    TimesAdds(c.maxAttempts, |t.submissions|, |t'.submissions| - |t.submissions|);
  }

  /** Bounded work: no run hands out more than max_attempts jobs per submission. */
  lemma {:induction false} ClaimsAreBounded(c: Config, t: Tables, steps: seq<Timed>, t': Tables)
    requires ValidConfig(c) && Inv(c, t) && WithinBudget(c, t) && Reaches(c, t, steps, t')
    ensures t'.tokens <= c.maxAttempts * |t'.submissions|
    decreases |steps|
  {
    if steps == [] {
      TimesIsProduct(c.maxAttempts, |t.submissions|);
    } else {
      StepKeepsInv(c, t, steps[0].op, steps[0].now);
      BudgetKept(c, t, steps[0].op, steps[0].now);
      ClaimsAreBounded(c, Apply(c, t, steps[0].op, steps[0].now), steps[1..], t');
    }
  }

  ghost function CountClaims(c: Config, t: Tables, steps: seq<Timed>, t': Tables): nat
    requires Reaches(c, t, steps, t')
    decreases |steps|
  {
    if steps == [] then 0
    else (if IsClaim(c, t, steps[0].op, steps[0].now) then 1 else 0)
         + CountClaims(c, Apply(c, t, steps[0].op, steps[0].now), steps[1..], t')
  }

  lemma {:induction false} TokensAreClaims(c: Config, t: Tables, steps: seq<Timed>, t': Tables)
    requires Reaches(c, t, steps, t')
    ensures t'.tokens == t.tokens + CountClaims(c, t, steps, t')
    decreases |steps|
  {
    if steps != [] {
      TokensCountClaims(c, t, steps[0].op, steps[0].now);
      TokensAreClaims(c, Apply(c, t, steps[0].op, steps[0].now), steps[1..], t');
    }
  }

  /** Bounded work from empty tables: any run hands out at most `max_attempts` jobs for
      every submission it has made. */
  lemma BoundedWork(c: Config, steps: seq<Timed>, t: Tables)
    requires ValidConfig(c) && Reaches(c, EMPTY, steps, t)
    ensures CountClaims(c, EMPTY, steps, t) <= c.maxAttempts * |t.submissions|
  {
    assert Inv(c, EMPTY) && WithinBudget(c, EMPTY);
    ClaimsAreBounded(c, EMPTY, steps, t);
    TokensAreClaims(c, EMPTY, steps, t);
  }
}
