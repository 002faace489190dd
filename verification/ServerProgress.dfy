/** What a transaction never takes back: expiry times and lock releases move forward,
    evaluations stay, and a result that was refused for good stays refused. */
module ServerProgress {
  import opened Records
  import opened Server
  import opened ServerInvariant
  import opened ServerRuns

  ghost predicate Later(t: Tables, t': Tables) {
    && Extends(t, t')
    && (forall i | 0 <= i < |t.jobs| :: ExpiryKept(t.jobs[i], t'.jobs[i]))
    && (forall w | 0 <= w < |t.workers| :: t.workers[w].freeAt <= t'.workers[w].freeAt)
  }

  predicate ExpiryKept(j: Job, j': Job) {
    j.expires.Some? ==> j'.expires.Some? && j.expires.value <= j'.expires.value
  }

  predicate ReapedBefore(j: Job, clock: real) {
    j.error == Some(LeaseExpired) ==> j.expires.Some? && j.expires.value < clock
  }

  /** The tables speak of the past only. */
  ghost predicate Past(t: Tables, clock: real) {
    && (forall i | 0 <= i < |t.jobs| :: ReapedBefore(t.jobs[i], clock))
    && (forall w | 0 <= w < |t.workers| :: t.workers[w].freeAt <= clock)
  }

  /** Worker `w` can no longer have a result accepted for job `j`. */
  ghost predicate Dead(t: Tables, w: nat, j: nat) {
    && j < |t.jobs| && w < |t.workers|
    && t.jobs[j].worker == Some(w)
    && !Evaluated(t, j)
    && (t.jobs[j].status.Terminal()
        || (t.jobs[j].expires.Some? && t.jobs[j].expires.value <= t.workers[w].freeAt))
  }

  /** The timing half of `Later`. */
  ghost predicate TimesKept(t: Tables, t': Tables) {
    && |t.jobs| <= |t'.jobs| && t'.workers == t.workers
    && forall i | 0 <= i < |t.jobs| :: ExpiryKept(t.jobs[i], t'.jobs[i])
  }

  lemma TimesKeptTwice(t: Tables, t1: Tables, t2: Tables)
    requires TimesKept(t, t1) && TimesKept(t1, t2)
    ensures TimesKept(t, t2)
  {
  }

  lemma ReapOneKeepsTimes(c: Config, t: Tables, j: nat, at: real, writeAt: real, stamp: Stamp, now: real)
    requires Expired(t, j, at) && at <= now && Past(t, now) && ReapOne(c, t, j, writeAt, stamp).Done?
    ensures var t' := ReapOne(c, t, j, writeAt, stamp).value; TimesKept(t, t') && Past(t', now)
  {
  }

  lemma {:induction false} ReapKeepsTimes(c: Config, t: Tables, expired: seq<nat>, at: real, writeAt: real,
                                          stamps: seq<Stamp>, now: real)
    requires |expired| == |stamps| && ReapSelection(t, expired, at) && at <= now && Past(t, now)
    requires ReapAll(c, t, expired, writeAt, stamps).Done?
    ensures var t' := ReapAll(c, t, expired, writeAt, stamps).value; TimesKept(t, t') && Past(t', now)
    decreases |expired|
  {
    if expired != [] {
      SelectionRest(c, t, expired, at, writeAt, stamps[0]);
      var t1 := ReapOne(c, t, expired[0], writeAt, stamps[0]).value;
      ReapOneKeepsTimes(c, t, expired[0], at, writeAt, stamps[0], now);
      ReapKeepsTimes(c, t1, expired[1..], at, writeAt, stamps[1..], now);
      TimesKeptTwice(t, t1, ReapAll(c, t, expired, writeAt, stamps).value);
    }
  }

  lemma ReapIsLater(c: Config, t: Tables, expired: seq<nat>, at: real, writeAt: real, stamps: seq<Stamp>, now: real)
    requires |expired| == |stamps| && ReapSelection(t, expired, at) && at <= now && Past(t, now)
    ensures var t' := Commit(t, ReapAll(c, t, expired, writeAt, stamps)); Later(t, t') && Past(t', now)
  {
    ReapExtends(c, t, expired, at, writeAt, stamps);
    if ReapAll(c, t, expired, writeAt, stamps).Done? { ReapKeepsTimes(c, t, expired, at, writeAt, stamps, now); }
  }

  lemma {:induction false} SubmitIsLater(t: Tables, agent: nat, problems: seq<nat>, stamps: seq<Stamp>, now: real)
    requires |problems| == |stamps| && Past(t, now)
    ensures var t' := Commit(t, SubmitAll(t, agent, problems, stamps));
            Later(t, t') && Past(t', now) && t'.workers == t.workers
    decreases |problems|
  {
    if problems != [] {
      var r := InsertJob(t.(submissions := t.submissions + [Submission(agent, problems[0])]), |t.submissions|, 1,
                         stamps[0]);
      if r.Done? {
        SubmitIsLater(r.value, agent, problems[1..], stamps[1..], now);
      }
    }
  }

  lemma TouchIsLater(c: Config, t: Tables, t1: Tables, q: Request, env: Env, now: real)
    requires Inv(c, t) && Touches(c, t, t1, q, env) && LegalEnv(t, q.worker, env, now) && Past(t, now)
    requires q.worker < |t.workers|
    ensures |t.jobs| <= |t1.jobs|
    ensures forall i | 0 <= i < |t.jobs| :: ExpiryKept(t.jobs[i], t1.jobs[i])
    ensures forall i | 0 <= i < |t1.jobs| :: ReapedBefore(t1.jobs[i], now)
  {
  }

  lemma RequestIsLater(c: Config, t: Tables, q: Request, env: Env, now: real)
    requires Inv(c, t) && Legal(c, t, OpRequest(q, env), now) && Past(t, now)
    ensures var t' := Handle(c, t, q, env, now).0; Later(t, t') && Past(t', now)
  {
    if q.worker < |t.workers| {
      var t1 := Answer(c, t, q, env).0;
      AnswerCases(c, t, q, env);
      RequestExtends(c, t, t1, q, env);
      TouchIsLater(c, t, t1, q, env, now);
      ReleaseIsLater(t, t1, q.worker, now);
    }
  }

  lemma ReleaseIsLater(t: Tables, t1: Tables, w: nat, now: real)
    requires w < |t.workers| == |t1.workers| && Extends(t, t1) && Past(t, now)
    requires forall i | 0 <= i < |t.jobs| :: ExpiryKept(t.jobs[i], t1.jobs[i])
    requires forall i | 0 <= i < |t1.jobs| :: ReapedBefore(t1.jobs[i], now)
    requires forall v | 0 <= v < |t.workers| && v != w :: t1.workers[v] == t.workers[v]
    ensures Later(t, Release(t1, w, now)) && Past(Release(t1, w, now), now)
  {
  }

  lemma StepIsLater(c: Config, t: Tables, op: Op, now: real)
    requires Inv(c, t) && Legal(c, t, op, now) && Past(t, now)
    ensures Later(t, Apply(c, t, op, now)) && Past(Apply(c, t, op, now), now)
  {
    match op
    case OpSubmit(agent, problems, stamps) => SubmitIsLater(t, agent, problems, stamps, now);
    case OpReap(expired, at, writeAt, stamps) =>
      ReapIsLater(c, t, expired, at, writeAt, stamps, now);
    case OpRegister =>
    case OpOffline(_, _) =>
    case OpRequest(q, env) => RequestIsLater(c, t, q, env, now);
  }

  /** A transaction other than an accepted result for `j` adds no evaluation of `j`. */
  lemma NoNewEvaluation(c: Config, t: Tables, op: Op, now: real, j: nat)
    requires Legal(c, t, op, now) && !Evaluated(t, j)
    requires op.OpRequest? && op.request.SendResult? && op.request.job == j && op.request.worker < |t.workers| ==>
               !(Presents(t, op.request.worker, j, op.request.token) && LeaseLive(t.jobs[j], op.env.at))
    ensures !Evaluated(Apply(c, t, op, now), j)
  {
    var t' := Apply(c, t, op, now);
    match op
    case OpSubmit(agent, problems, stamps) =>
      SubmitKeepsEvaluations(t, agent, problems, stamps);
      SameEvaluated(t, t', j);
    case OpReap(expired, at, writeAt, stamps) =>
      ReapExtends(c, t, expired, at, writeAt, stamps);
      SameEvaluated(t, t', j);
    case OpRegister => SameEvaluated(t, t', j);
    case OpOffline(_, _) => SameEvaluated(t, t', j);
    case OpRequest(q, env) =>
      AnswerCases(c, t, q, env);
      if Evaluated(t', j) {
        var e: nat :| EvaluationOf(t', e, j);
        if e < |t.evaluations| { assert EvaluationOf(t, e, j); }
      }
  }

  lemma SameEvaluated(t: Tables, t': Tables, j: nat)
    requires t'.evaluations == t.evaluations
    ensures Evaluated(t', j) == Evaluated(t, j)
  {
    if Evaluated(t', j) { var e: nat :| EvaluationOf(t', e, j); assert EvaluationOf(t, e, j); }
    if Evaluated(t, j) { var e: nat :| EvaluationOf(t, e, j); assert EvaluationOf(t', e, j); }
  }

  lemma {:induction false} SubmitKeepsEvaluations(t: Tables, agent: nat, problems: seq<nat>, stamps: seq<Stamp>)
    requires |problems| == |stamps|
    ensures Commit(t, SubmitAll(t, agent, problems, stamps)).evaluations == t.evaluations
    decreases |problems|
  {
    if problems != [] {
      var r := InsertJob(t.(submissions := t.submissions + [Submission(agent, problems[0])]), |t.submissions|, 1,
                         stamps[0]);
      if r.Done? { SubmitKeepsEvaluations(r.value, agent, problems[1..], stamps[1..]); }
    }
  }

  /** Refused for good: nothing the server does later lets the result in. */
  lemma StepKeepsDead(c: Config, t: Tables, op: Op, now: real, w: nat, j: nat)
    requires Inv(c, t) && Legal(c, t, op, now) && Past(t, now) && Dead(t, w, j)
    ensures Dead(Apply(c, t, op, now), w, j)
  {
    var t' := Apply(c, t, op, now);
    StepIsLater(c, t, op, now);
    assert Evolves(t.jobs[j], t'.jobs[j]);
    assert RowOk(c, t, t.jobs[j]);
    NoNewEvaluation(c, t, op, now, j);
    if !t.jobs[j].status.Terminal() && !t'.jobs[j].status.Terminal() {
      DeadLeaseIsNotRenewed(c, t, op, now, w, j);
    }
  }

  lemma DeadLeaseIsNotRenewed(c: Config, t: Tables, op: Op, now: real, w: nat, j: nat)
    requires Inv(c, t) && Legal(c, t, op, now) && Dead(t, w, j)
    requires !t.jobs[j].status.Terminal()
    ensures j < |Apply(c, t, op, now).jobs| && Apply(c, t, op, now).jobs[j].expires == t.jobs[j].expires
  {
    assert RowOk(c, t, t.jobs[j]);
    match op
    case OpSubmit(agent, problems, stamps) => SubmitKeepsRow(t, agent, problems, stamps, j);
    case OpReap(expired, at, writeAt, stamps) => ReapKeepsExpiry(c, t, expired, at, writeAt, stamps, j);
    case OpRegister =>
    case OpOffline(_, _) =>
    case OpRequest(q, env) =>
      AnswerCases(c, t, q, env);
      if q.worker < |t.workers| {
        var t1 := Answer(c, t, q, env).0;
        if |t.jobs| <= |t1.jobs| { assert t1.jobs[..|t.jobs|][j] == t1.jobs[j]; }
      }
  }

  lemma {:induction false} SubmitKeepsRow(t: Tables, agent: nat, problems: seq<nat>, stamps: seq<Stamp>, j: nat)
    requires |problems| == |stamps| && j < |t.jobs|
    ensures var t' := Commit(t, SubmitAll(t, agent, problems, stamps)); j < |t'.jobs| && t'.jobs[j] == t.jobs[j]
    decreases |problems|
  {
    if problems != [] {
      var r := InsertJob(t.(submissions := t.submissions + [Submission(agent, problems[0])]), |t.submissions|, 1,
                         stamps[0]);
      if r.Done? { SubmitKeepsRow(r.value, agent, problems[1..], stamps[1..], j); }
    }
  }

  lemma {:induction false} ReapKeepsExpiry(c: Config, t: Tables, expired: seq<nat>, at: real, writeAt: real,
                                           stamps: seq<Stamp>, j: nat)
    requires |expired| == |stamps| && ReapSelection(t, expired, at) && j < |t.jobs|
    ensures var t' := Commit(t, ReapAll(c, t, expired, writeAt, stamps));
            j < |t'.jobs| && t'.jobs[j].expires == t.jobs[j].expires
    decreases |expired|
  {
    if expired != [] && ReapOne(c, t, expired[0], writeAt, stamps[0]).Done? {
      var t1 := ReapOne(c, t, expired[0], writeAt, stamps[0]).value;
      SelectionRest(c, t, expired, at, writeAt, stamps[0]);
      ReapKeepsExpiry(c, t1, expired[1..], at, writeAt, stamps[1..], j);
    }
  }

  /** Why a result is refused: when its sender owns the job, only because the job is
      dead, and then for good. */
  lemma RefusalIsFinal(c: Config, t: Tables, q: Request, env: Env, now: real)
    requires ValidConfig(c) && Inv(c, t) && Legal(c, t, OpRequest(q, env), now) && q.SendResult?
    requires q.worker < |t.workers| && Presents(t, q.worker, q.job, q.token)
    ensures var (t', reply) := Handle(c, t, q, env, now);
            && (reply.Error? ==> reply.code in {409, 503})
            && (reply == Error(409) ==> Dead(t', q.worker, q.job))
            && (reply.Receipt? ==> EvaluationOf(t', reply.evaluation, q.job))
            && (reply.Receipt? && !Evaluated(t, q.job) ==>
                  t'.evaluations == t.evaluations + [Evaluation(q.job, t.jobs[q.job].submission, q.worker, q.report)])
            && !reply.Granted? && !reply.Renewed?
  {
    var j := q.job;
    assert RowOk(c, t, t.jobs[j]);
    if Evaluated(t, j) {
      var e: nat :| EvaluationOf(t, e, j);
      assert EvaluationOk(t, t.evaluations[e]);
    } else {
      if LeaseLive(t.jobs[j], env.at) { ResultKeepsInv(c, t, q.worker, j, q.report, env, now); }
      if Answer(c, t, q, env) == (t, Error(409)) {
        RefusedMeansDead(c, t, q, env, now);
      }
    }
  }

  lemma RefusedMeansDead(c: Config, t: Tables, q: Request, env: Env, now: real)
    requires q.SendResult? && q.worker < |t.workers| && Presents(t, q.worker, q.job, q.token) && !Evaluated(t, q.job)
    requires RowOk(c, t, t.jobs[q.job]) && env.at <= env.writeAt <= now
    requires !LeaseLive(t.jobs[q.job], env.at) || !LeaseLive(t.jobs[q.job], env.writeAt)
    ensures Dead(Release(t, q.worker, now), q.worker, q.job)
  {
    SameEvaluated(t, Release(t, q.worker, now), q.job);
  }
}
