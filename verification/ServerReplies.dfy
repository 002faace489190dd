/** What the requests and the reaper come to, told in the columns of the rows: who is
    granted which job, who is not, and what a row's columns say about its history. */
module ServerReplies {
  import opened Records
  import opened Server
  import opened ServerInvariant
  import opened ServerRuns

  // ---------------------------------------------------------------- claims

  /** A queued row that no other transaction has locked. */
  predicate Waits(t: Tables, locked: set<nat>, i: nat) {
    i < |t.jobs| && t.jobs[i].status == QUEUED && i !in locked
  }

  ghost predicate SomeoneWaits(t: Tables, locked: set<nat>) { exists i: nat :: Waits(t, locked, i) }

  ghost predicate WorksOn(t: Tables, w: nat, i: nat) {
    i < |t.jobs| && t.jobs[i].worker == Some(w) && t.jobs[i].status in {CLAIMED, RUNNING}
  }

  ghost predicate HasWork(t: Tables, w: nat) { exists i: nat :: WorksOn(t, w, i) }

  lemma ActiveIsWork(t: Tables, w: nat)
    ensures HasActiveJob(t, w) <==> HasWork(t, w)
  {
    if HasActiveJob(t, w) {
      var i :| 0 <= i < |t.jobs| && Owns(t.jobs[i], w);
      assert WorksOn(t, w, i);
    }
    if HasWork(t, w) {
      var i: nat :| WorksOn(t, w, i);
      assert Owns(t.jobs[i], w);
    }
  }

  /** Queued earlier, or at the same time with the smaller id. */
  predicate Earlier(i: Job, k: Job) {
    i.stamp.queuedAt < k.stamp.queuedAt || (i.stamp.queuedAt == k.stamp.queuedAt && i.stamp.uuid <= k.stamp.uuid)
  }

  lemma InServiceOrNot(s: WorkerStatus)
    ensures s in {ONLINE, BUSY} <==> s !in {DRAINING, ERROR, OFFLINE}
  {
    match s case ONLINE => case BUSY => case DRAINING => case ERROR => case OFFLINE =>
  }

  /** A claim is granted if and only if the worker is online or busy, its query finds no
      active job and an unlocked job is queued; the job granted is the one queued first, and
      its row, a fresh token and the worker's row are all that changes. */
  lemma ClaimGrantedIff(c: Config, t: Tables, w: nat, env: Env, now: real)
    requires w < |t.workers| && LegalEnv(t, w, env, now)
    ensures var (t', reply) := Handle(c, t, ClaimJob(w), env, now);
            && (reply.Granted? <==>
                  t.workers[w].status in {ONLINE, BUSY} && !env.busy && SomeoneWaits(t, env.skipped))
            && (reply.Granted? ==>
                  && !HasWork(t, w)
                  && Waits(t, env.skipped, reply.job)
                  && (forall i: nat :: Waits(t, env.skipped, i) ==> Earlier(t.jobs[reply.job], t.jobs[i]))
                  && reply.token == t.tokens
                  && t' == t.(jobs := t.jobs[reply.job := Held(c, t.jobs[reply.job], w, t.tokens, env.writeAt)],
                              tokens := t.tokens + 1,
                              workers := t.workers[w := Worker(BUSY, env.writeAt, now)]))
            && (!reply.Granted? ==>
                  t' == t.(workers := t.workers[w := t.workers[w].(freeAt := now)]))
            && (reply == Nothing <==>
                  t.workers[w].status in {ONLINE, BUSY} && !env.busy && !SomeoneWaits(t, env.skipped))
            && (reply == Error(409) <==> t.workers[w].status in {DRAINING, ERROR, OFFLINE} || env.busy)
  {
    InServiceOrNot(t.workers[w].status);
    ActiveIsWork(t, w);
    match env.pick
    case None =>
      forall i: nat ensures !Waits(t, env.skipped, i) { assert !Available(t.jobs, env.skipped, i); }
    case Some(p) =>
      assert Waits(t, env.skipped, p) && SomeoneWaits(t, env.skipped);
      forall i: nat | Waits(t, env.skipped, i) ensures Earlier(t.jobs[p], t.jobs[i]) {
        assert Available(t.jobs, env.skipped, i);
      }
  }

  /** A claim whose queries were answered truly: granted if and only if the worker is online
      or busy, has no active job and an unlocked job is queued, and then the one queued first. */
  ghost predicate GrantsFirst(t: Tables, w: nat, locked: set<nat>, reply: Reply)
    requires w < |t.workers|
  {
    && (reply.Granted? <==>
          t.workers[w].status in {ONLINE, BUSY} && !HasWork(t, w) && SomeoneWaits(t, locked))
    && (reply.Granted? ==>
          && Waits(t, locked, reply.job)
          && forall i: nat | Waits(t, locked, i) :: Earlier(t.jobs[reply.job], t.jobs[i]))
  }

  lemma ClaimGrantsFirst(c: Config, t: Tables, w: nat, env: Env, now: real)
    requires w < |t.workers| && LegalEnv(t, w, env, now) && env.busy == HasActiveJob(t, w)
    ensures GrantsFirst(t, w, env.skipped, Handle(c, t, ClaimJob(w), env, now).1)
  {
    ActiveIsWork(t, w);
    ClaimGrantedIff(c, t, w, env, now);
  }

  /** A queued row after worker `w` has claimed it. */
  function Held(c: Config, j: Job, w: nat, token: nat, at: real): Job {
    j.(worker := Some(w), status := CLAIMED, token := Some(token),
       heartbeatAt := Some(at), expires := Some(at + c.leaseSeconds))
  }

  /** The worker has reported that it takes no jobs, or has been given up. */
  predicate Sidelined(t: Tables, w: nat) {
    w < |t.workers| && t.workers[w].status in {DRAINING, ERROR, OFFLINE}
  }

  /** What puts a sidelined worker back: its own report that it is online or busy, or its
      own result, if accepted, unless it is draining. */
  ghost predicate Reinstates(c: Config, t: Tables, op: Op, now: real, w: nat)
    requires Legal(c, t, op, now) && w < |t.workers|
  {
    && op.OpRequest? && op.request.worker == w
    && match op.request
       case StatusBeat(_, status) => status in {ONLINE, BUSY}
       case SendResult(_, _, _, _) =>
         t.workers[w].status != DRAINING && |Apply(c, t, op, now).evaluations| > |t.evaluations|
       case _ => false
  }

  lemma WorkersStay(c: Config, t: Tables, op: Op, now: real, w: nat)
    requires Legal(c, t, op, now) && !op.OpRequest? && Sidelined(t, w)
    ensures Sidelined(Apply(c, t, op, now), w)
  {
    match op
    case OpSubmit(agent, problems, stamps) => SubmitKeepsWorkers(t, agent, problems, stamps);
    case OpReap(expired, at, writeAt, stamps) => ReapExtends(c, t, expired, at, writeAt, stamps);
    case OpRegister =>
    case OpOffline(_, _) =>
  }

  lemma {:induction false} SubmitKeepsWorkers(t: Tables, agent: nat, problems: seq<nat>, stamps: seq<Stamp>)
    requires |problems| == |stamps|
    ensures Commit(t, SubmitAll(t, agent, problems, stamps)).workers == t.workers
    decreases |problems|
  {
    if problems != [] {
      var r := InsertJob(t.(submissions := t.submissions + [Submission(agent, problems[0])]), |t.submissions|, 1,
                         stamps[0]);
      if r.Done? { SubmitKeepsWorkers(r.value, agent, problems[1..], stamps[1..]); }
    }
  }

  /** A request accepted a result that was not known before. */
  ghost predicate Accepts(c: Config, t: Tables, q: Request, env: Env, now: real)
    requires Picks(t.jobs, env.skipped, env.pick)
  {
    q.SendResult? && |Handle(c, t, q, env, now).0.evaluations| > |t.evaluations|
  }

  /** The status of a worker after its own request: what it reported, except that an online
      worker with a job is busy; busy after a claim; online after a result unless draining. */
  lemma StatusAfterRequest(c: Config, t: Tables, q: Request, env: Env, now: real)
    requires Inv(c, t) && Legal(c, t, OpRequest(q, env), now) && q.worker < |t.workers|
    ensures var (t', reply) := Handle(c, t, q, env, now);
            && |t'.workers| == |t.workers|
            && var was, status := t.workers[q.worker].status, t'.workers[q.worker].status;
               match q
               case StatusBeat(_, reported) => status == if env.busy && reported == ONLINE then BUSY else reported
               case ClaimJob(_) => status == if reply.Granted? then BUSY else was
               case JobBeat(_, _, _, _) => status == was
               case SendResult(_, _, _, _) =>
                 status == if Accepts(c, t, q, env, now) && was != DRAINING then ONLINE else was
  {
    if q.SendResult? && Presents(t, q.worker, q.job, q.token) && !Evaluated(t, q.job)
       && LeaseLive(t.jobs[q.job], env.at) {
      ResultKeepsInv(c, t, q.worker, q.job, q.report, env, now);
    }
  }

  /** A sidelined worker is back in service after exactly these transactions. */
  lemma SidelinedUnless(c: Config, t: Tables, op: Op, now: real, w: nat)
    requires Inv(c, t) && Legal(c, t, op, now) && Sidelined(t, w)
    ensures Sidelined(Apply(c, t, op, now), w) <==> !Reinstates(c, t, op, now, w)
  {
    if op.OpRequest? {
      if op.request.worker == w {
        StatusAfterRequest(c, t, op.request, op.env, now);
        InServiceOrNot(Apply(c, t, op, now).workers[w].status);
        if op.request.ClaimJob? { ClaimGrantedIff(c, t, w, op.env, now); }
      } else {
        RequestIsLocal(c, t, op.request, op.env, now, w);
      }
    } else {
      WorkersStay(c, t, op, now, w);
    }
  }

  /** Nothing in this run puts worker `w` back. */
  ghost predicate NeverReinstated(c: Config, t: Tables, steps: seq<Timed>, w: nat)
    decreases |steps|
  {
    steps == [] || (&& Legal(c, t, steps[0].op, steps[0].now) && w < |t.workers|
                    && !Reinstates(c, t, steps[0].op, steps[0].now, w)
                    && NeverReinstated(c, Apply(c, t, steps[0].op, steps[0].now), steps[1..], w))
  }

  /** Every job that a worker has at the end it had at the start. */
  ghost predicate GainsNothing(t: Tables, t': Tables, w: nat) {
    forall i | 0 <= i < |t'.jobs| && t'.jobs[i].worker == Some(w) ::
      i < |t.jobs| && t.jobs[i].worker == Some(w) && t.jobs[i].token == t'.jobs[i].token
  }

  lemma SidelinedStep(c: Config, t: Tables, op: Op, now: real, w: nat)
    requires Inv(c, t) && Legal(c, t, op, now) && Sidelined(t, w)
    ensures GainsNothing(t, Apply(c, t, op, now), w)
  {
    match op
    case OpSubmit(agent, problems, stamps) => SubmitGainsNothing(t, agent, problems, stamps, w);
    case OpReap(expired, at, writeAt, stamps) => ReapGainsNothing(c, t, expired, at, writeAt, stamps, w);
    case OpRegister =>
    case OpOffline(_, _) =>
    case OpRequest(q, env) =>
      if q.worker != w {
        RequestIsLocal(c, t, q, env, now, w);
      } else if q.ClaimJob? {
        ClaimGrantedIff(c, t, w, env, now);
      } else {
        OnlyClaimsGain(c, t, q, env, now);
      }
  }

  lemma OnlyClaimsGain(c: Config, t: Tables, q: Request, env: Env, now: real)
    requires Inv(c, t) && Legal(c, t, OpRequest(q, env), now) && q.worker < |t.workers| && !q.ClaimJob?
    ensures GainsNothing(t, Handle(c, t, q, env, now).0, q.worker)
  {
    AnswerCases(c, t, q, env);
  }

  lemma {:induction false} SubmitGainsNothing(t: Tables, agent: nat, problems: seq<nat>, stamps: seq<Stamp>, w: nat)
    requires |problems| == |stamps|
    ensures GainsNothing(t, Commit(t, SubmitAll(t, agent, problems, stamps)), w)
    decreases |problems|
  {
    if problems != [] {
      var r := InsertJob(t.(submissions := t.submissions + [Submission(agent, problems[0])]), |t.submissions|, 1,
                         stamps[0]);
      if r.Done? { SubmitGainsNothing(r.value, agent, problems[1..], stamps[1..], w); }
    }
  }

  lemma {:induction false} ReapGainsNothing(c: Config, t: Tables, expired: seq<nat>, at: real, writeAt: real,
                                            stamps: seq<Stamp>, w: nat)
    requires |expired| == |stamps| && ReapSelection(t, expired, at)
    ensures GainsNothing(t, Commit(t, ReapAll(c, t, expired, writeAt, stamps)), w)
    decreases |expired|
  {
    if expired != [] && ReapOne(c, t, expired[0], writeAt, stamps[0]).Done? {
      var t1 := ReapOne(c, t, expired[0], writeAt, stamps[0]).value;
      SelectionRest(c, t, expired, at, writeAt, stamps[0]);
      ReapGainsNothing(c, t1, expired[1..], at, writeAt, stamps[1..], w);
    }
  }

  /** A worker that reported DRAINING, ERROR or OFFLINE, or was marked so, is granted
      nothing by any run until it reports otherwise or, unless draining, delivers. */
  lemma {:induction false} SidelinedGetsNothing(c: Config, t: Tables, steps: seq<Timed>, t': Tables, w: nat)
    requires ValidConfig(c) && Inv(c, t) && Reaches(c, t, steps, t')
    requires Sidelined(t, w) && NeverReinstated(c, t, steps, w)
    ensures Sidelined(t', w) && GainsNothing(t, t', w)
    decreases |steps|
  {
    if steps != [] {
      var op, now := steps[0].op, steps[0].now;
      StepKeepsInv(c, t, op, now);
      SidelinedUnless(c, t, op, now, w);
      SidelinedStep(c, t, op, now, w);
      SidelinedGetsNothing(c, Apply(c, t, op, now), steps[1..], t', w);
    }
  }

  /** The result is what makes the difference: a worker that has reported ERROR or OFFLINE,
      and nothing since, is granted a job once it has delivered the one it had. */
  lemma GrantedAfterError(c: Config, t: Tables, q: Request, env: Env, now: real, env2: Env, now2: real, i: nat)
    requires Inv(c, t) && Legal(c, t, OpRequest(q, env), now) && q.SendResult? && q.worker < |t.workers|
    requires t.workers[q.worker].status in {ERROR, OFFLINE} && Accepts(c, t, q, env, now)
    requires var t' := Handle(c, t, q, env, now).0;
             LegalEnv(t', q.worker, env2, now2) && !env2.busy && Waits(t', env2.skipped, i)
    ensures Handle(c, Handle(c, t, q, env, now).0, ClaimJob(q.worker), env2, now2).1.Granted?
  {
    var t' := Handle(c, t, q, env, now).0;
    StatusAfterRequest(c, t, q, env, now);
    assert SomeoneWaits(t', env2.skipped);
    ClaimGrantedIff(c, t', q.worker, env2, now2);
  }

  // ---------------------------------------------------------------- heartbeats and results

  /** The request names a job of this worker and presents the token of its lease. */
  predicate HoldsToken(t: Tables, w: nat, j: nat, token: nat) {
    j < |t.jobs| && t.jobs[j].worker == Some(w) && t.jobs[j].token == Some(token)
  }

  /** The job is claimed or running, and its lease expires later than `at`. */
  predicate RunsUntilAfter(j: Job, at: real) {
    j.status in {CLAIMED, RUNNING} && j.expires.Some? && j.expires.value > at
  }

  lemma RunsIsLive(j: Job, at: real)
    ensures RunsUntilAfter(j, at) <==> LeaseLive(j, at)
  {
  }

  /** A job heartbeat is refused with 403 without the job's token, with 409 without a lease
      that still runs, and otherwise renews it: a running job whose lease lasts its full
      length again, with the event it names and the start of its first heartbeat. */
  lemma HeartbeatAnswers(c: Config, t: Tables, w: nat, j: nat, token: nat, event: Event, env: Env, now: real)
    requires w < |t.workers| && LegalEnv(t, w, env, now)
    ensures var (t', reply) := Handle(c, t, JobBeat(w, j, token, event), env, now);
            && (reply == Error(403) <==> !HoldsToken(t, w, j, token))
            && (reply == Error(409) <==> HoldsToken(t, w, j, token) && !RunsUntilAfter(t.jobs[j], env.at))
            && (reply == Renewed <==> HoldsToken(t, w, j, token) && RunsUntilAfter(t.jobs[j], env.at))
            && (reply != Renewed ==> t' == t.(workers := t.workers[w := t.workers[w].(freeAt := now)]))
            && (reply == Renewed ==>
                  && |t'.jobs| == |t.jobs| && t'.jobs == t.jobs[j := t'.jobs[j]]
                  && t'.jobs[j].status == RUNNING && t'.jobs[j].lastEvent == Some(event)
                  && t'.jobs[j].expires == Some(env.writeAt + c.leaseSeconds)
                  && (t.jobs[j].startedAt == None ==> t'.jobs[j].startedAt == Some(env.writeAt))
                  && (t.jobs[j].startedAt != None ==> t'.jobs[j].startedAt == t.jobs[j].startedAt)
                  && t'.workers == t.workers[w := Worker(t.workers[w].status, env.writeAt, now)])
  {
    if j < |t.jobs| { RunsIsLive(t.jobs[j], env.at); }
  }

  /** A status heartbeat is always noted, with its time; only an online worker with a job
      is shown otherwise than it says. */
  lemma StatusIsNoted(c: Config, t: Tables, w: nat, status: WorkerStatus, env: Env, now: real)
    requires w < |t.workers| && LegalEnv(t, w, env, now)
    ensures var (t', reply) := Handle(c, t, StatusBeat(w, status), env, now);
            && reply == Noted
            && t' == t.(workers := t.workers[w := t'.workers[w]])
            && t'.workers[w] == Worker(if status == ONLINE && env.busy then BUSY else status, env.writeAt, now)
  {
  }

  /** A result is refused with 403 without the job's token, answered with the receipt of
      the evaluation that its job has, refused with 409 when the lease has run out before or
      while its artifacts were stored and with 503 when they could not be, and otherwise
      answered with the receipt of a new evaluation. */
  lemma ResultAnswers(c: Config, t: Tables, w: nat, j: nat, token: nat, report: Report, env: Env, now: real)
    requires Inv(c, t) && w < |t.workers| && LegalEnv(t, w, env, now) && ConsistentStatus(report)
    ensures var (t', reply) := Handle(c, t, SendResult(w, j, token, report), env, now);
            && (reply == Error(403) <==> !HoldsToken(t, w, j, token))
            && (HoldsToken(t, w, j, token) && Evaluated(t, j) ==>
                  reply.Receipt? && EvaluationOf(t, reply.evaluation, j) && t'.evaluations == t.evaluations)
            && (HoldsToken(t, w, j, token) && !Evaluated(t, j) ==>
                  reply == if !RunsUntilAfter(t.jobs[j], env.at) then Error(409)
                           else if !env.stored then Error(503)
                           else if !RunsUntilAfter(t.jobs[j], env.writeAt) then Error(409)
                           else Receipt(|t.evaluations|))
            && (reply.Error? ==> t' == t.(workers := t.workers[w := t.workers[w].(freeAt := now)]))
            && (reply == Receipt(|t.evaluations|) ==>
                  t'.evaluations == t.evaluations + [Evaluation(j, t.jobs[j].submission, w, report)]
                  && t'.workers[w].lastHeartbeat == env.writeAt)
  {
    if j < |t.jobs| {
      RunsIsLive(t.jobs[j], env.at);
      RunsIsLive(t.jobs[j], env.writeAt);
      if HoldsToken(t, w, j, token) { HeldResultAnswers(c, t, w, j, token, report, env, now); }
    }
  }

  lemma HeldResultAnswers(c: Config, t: Tables, w: nat, j: nat, token: nat, report: Report, env: Env, now: real)
    requires Inv(c, t) && w < |t.workers| && LegalEnv(t, w, env, now) && ConsistentStatus(report)
    requires HoldsToken(t, w, j, token)
    ensures Presents(t, w, j, token)
    ensures Evaluated(t, j) ==> t.jobs[j].status.Terminal()
    ensures !Evaluated(t, j) && LeaseLive(t.jobs[j], env.at) ==> AfterResult(c, t, w, j, report, env).Done?
    ensures AfterResult(c, t, w, j, report, env).Done? ==>
              var t1 := AfterResult(c, t, w, j, report, env).value;
              t1.evaluations == t.evaluations + [Evaluation(j, t.jobs[j].submission, w, report)]
              && |t1.workers| == |t.workers| && t1.workers[w].lastHeartbeat == env.writeAt
  {
    if Evaluated(t, j) {
      var e: nat :| EvaluationOf(t, e, j);
      assert EvaluationOk(t, t.evaluations[e]);
    } else if LeaseLive(t.jobs[j], env.at) {
      ResultKeepsInv(c, t, w, j, report, env, now);
    }
  }

  // ---------------------------------------------------------------- submissions and the reaper

  /** One submission of the agent for each problem. */
  function Submissions(agent: nat, problems: seq<nat>): seq<Submission> {
    seq(|problems|, i requires 0 <= i < |problems| => Submission(agent, problems[i]))
  }

  /** One queued first attempt for each of them, from number `first` on. */
  function FirstAttempts(first: nat, stamps: seq<Stamp>): seq<Job> {
    seq(|stamps|, i requires 0 <= i < |stamps| => QueuedJob(first + i, 1, stamps[i]))
  }

  lemma {:induction false} SubmitAdds(t: Tables, agent: nat, problems: seq<nat>, stamps: seq<Stamp>)
    requires |problems| == |stamps| && SubmitAll(t, agent, problems, stamps).Done?
    ensures var t' := SubmitAll(t, agent, problems, stamps).value;
            && t'.submissions == t.submissions + Submissions(agent, problems)
            && t'.jobs == t.jobs + FirstAttempts(|t.submissions|, stamps)
            && t'.workers == t.workers && t'.evaluations == t.evaluations && t'.tokens == t.tokens
    decreases |problems|
  {
    if problems != [] {
      var t1 := InsertJob(t.(submissions := t.submissions + [Submission(agent, problems[0])]), |t.submissions|, 1,
                          stamps[0]).value;
      SubmitAdds(t1, agent, problems[1..], stamps[1..]);
      assert Submissions(agent, problems) == [Submission(agent, problems[0])] + Submissions(agent, problems[1..]);
      assert FirstAttempts(|t.submissions|, stamps)
          == [QueuedJob(|t.submissions|, 1, stamps[0])] + FirstAttempts(|t.submissions| + 1, stamps[1..]);
    }
  }

  /** A submission adds one row of its agent for each of its problems, and one queued first
      attempt for each of them; it always succeeds, and touches nothing else. */
  lemma SubmissionAdds(c: Config, t: Tables, agent: nat, problems: seq<nat>, stamps: seq<Stamp>, now: real)
    requires ValidConfig(c) && Inv(c, t) && |problems| == |stamps|
    ensures var t' := Apply(c, t, OpSubmit(agent, problems, stamps), now);
            && t'.submissions == t.submissions + Submissions(agent, problems)
            && t'.jobs == t.jobs + FirstAttempts(|t.submissions|, stamps)
            && t'.workers == t.workers && t'.evaluations == t.evaluations && t'.tokens == t.tokens
  {
    SubmitKeepsInv(c, t, agent, problems, stamps);
    SubmitAdds(t, agent, problems, stamps);
  }

  /** The reaper's second transaction marks exactly the workers shown as online or busy that
      were last heard of longer ago than the offline interval and are locked by nobody; all
      others are as they were. */
  lemma SilentAreMarked(c: Config, t: Tables, offline: set<nat>, locked: set<nat>, at: real, now: real, w: nat)
    requires w < |t.workers|
    requires forall v: nat :: v in offline <==> v < |t.workers| && Silent(c, t, v, at) && v !in locked
    ensures var t' := MarkOffline(t, offline, now);
            && t' == t.(workers := t'.workers) && |t'.workers| == |t.workers|
            && t'.workers[w] ==
                 if t.workers[w].status in {ONLINE, BUSY} && at - t.workers[w].lastHeartbeat > c.offlineSeconds
                    && w !in locked
                 then Worker(OFFLINE, t.workers[w].lastHeartbeat, now) else t.workers[w]
  {
  }

  // ---------------------------------------------------------------- what the columns say

  /** A reaped job may be retried if it timed out and is given up if it failed. */
  predicate ReapedOk(c: Config, j: Job) {
    j.error == Some(LeaseExpired) ==> j.status == if j.attempt < c.maxAttempts then TIMEOUT else FAILED
  }

  predicate HistoryOk(c: Config, j: Job) {
    && (j.status == QUEUED ==> j == QueuedJob(j.submission, j.attempt, j.stamp))
    && (j.status in {COMPLETED, FAILED, TIMEOUT} <==> j.finishedAt.Some?)
    && (j.worker.Some? <==> j.heartbeatAt.Some?)
    && (j.heartbeatAt.Some? ==> j.expires == Some(j.heartbeatAt.value + c.leaseSeconds))
    && (j.status == CLAIMED ==> j.startedAt.None?)
    && (j.status == RUNNING ==> j.startedAt.Some?)
    && (j.startedAt.Some? <==> j.lastEvent.Some?)
    && ReapedOk(c, j)
  }

  /** What the columns of every row say about its past; and a worker that is shown as online
      has no job. */
  ghost predicate History(c: Config, t: Tables) {
    && RowsOk(c, t)
    && (forall w: nat, i: nat :: !WorksUnseen(t, w, i))
  }

  /** A worker with an active job that is shown as online. */
  ghost predicate WorksUnseen(t: Tables, w: nat, i: nat) {
    WorksOn(t, w, i) && w < |t.workers| && t.workers[w].status == ONLINE
  }

  /** The first heartbeat's time is never replaced. */
  predicate StartKept(j: Job, j': Job) { j.startedAt.Some? ==> j'.startedAt == j.startedAt }

  ghost predicate StartsKept(t: Tables, t': Tables) {
    |t.jobs| <= |t'.jobs| && forall i | 0 <= i < |t.jobs| :: StartKept(t.jobs[i], t'.jobs[i])
  }

  lemma SameWorkSeen(t: Tables, t': Tables)
    requires forall w: nat, i: nat :: !WorksUnseen(t, w, i)
    requires t'.workers == t.workers && |t.jobs| <= |t'.jobs|
    requires forall i | 0 <= i < |t.jobs| :: t'.jobs[i].status.Active() ==> t.jobs[i] == t'.jobs[i]
    requires forall i | |t.jobs| <= i < |t'.jobs| :: t'.jobs[i].status.QUEUED?
    ensures forall w: nat, i: nat :: !WorksUnseen(t', w, i)
  {
    forall w: nat, i: nat ensures !WorksUnseen(t', w, i) { assert !WorksUnseen(t, w, i); }
  }

  lemma {:induction false} SubmitKeepsHistory(c: Config, t: Tables, agent: nat, problems: seq<nat>, stamps: seq<Stamp>)
    requires |problems| == |stamps| && History(c, t)
    ensures var t' := Commit(t, SubmitAll(t, agent, problems, stamps)); History(c, t') && StartsKept(t, t')
    decreases |problems|
  {
    if problems != [] {
      var r := InsertJob(t.(submissions := t.submissions + [Submission(agent, problems[0])]), |t.submissions|, 1,
                         stamps[0]);
      if r.Done? {
        SameWorkSeen(t, r.value);
        SubmitKeepsHistory(c, r.value, agent, problems[1..], stamps[1..]);
      }
    }
  }

  lemma {:induction false} ReapKeepsHistory(c: Config, t: Tables, expired: seq<nat>, at: real, writeAt: real,
                                            stamps: seq<Stamp>)
    requires |expired| == |stamps| && ReapSelection(t, expired, at) && History(c, t)
    ensures var t' := Commit(t, ReapAll(c, t, expired, writeAt, stamps)); History(c, t') && StartsKept(t, t')
    decreases |expired|
  {
    if expired != [] && ReapOne(c, t, expired[0], writeAt, stamps[0]).Done? {
      var t1 := ReapOne(c, t, expired[0], writeAt, stamps[0]).value;
      SelectionRest(c, t, expired, at, writeAt, stamps[0]);
      SameWorkSeen(t, t1);
      ReapKeepsHistory(c, t1, expired[1..], at, writeAt, stamps[1..]);
    }
  }

  ghost predicate RowsOk(c: Config, t: Tables) { forall i | 0 <= i < |t.jobs| :: HistoryOk(c, t.jobs[i]) }

  lemma BeatKeepsRows(c: Config, t: Tables, w: nat, j: nat, token: nat, event: Event, env: Env, now: real)
    requires LegalEnv(t, w, env, now) && RowsOk(c, t)
    ensures var t' := Handle(c, t, JobBeat(w, j, token, event), env, now).0; RowsOk(c, t') && StartsKept(t, t')
  {
  }

  lemma ResultKeepsRows(c: Config, t: Tables, q: Request, env: Env, now: real)
    requires LegalEnv(t, q.worker, env, now) && RowsOk(c, t) && q.SendResult? && ConsistentStatus(q.report)
    ensures var t' := Handle(c, t, q, env, now).0; RowsOk(c, t') && StartsKept(t, t')
  {
  }

  lemma RequestKeepsRows(c: Config, t: Tables, q: Request, env: Env, now: real)
    requires Legal(c, t, OpRequest(q, env), now) && RowsOk(c, t)
    ensures var t' := Handle(c, t, q, env, now).0; RowsOk(c, t') && StartsKept(t, t')
  {
    match q
    case StatusBeat(_, _) =>
    case ClaimJob(w) => if w < |t.workers| { ClaimGrantedIff(c, t, w, env, now); }
    case JobBeat(w, j, token, event) => BeatKeepsRows(c, t, w, j, token, event, env, now);
    case SendResult(_, _, _, _) => ResultKeepsRows(c, t, q, env, now);
  }

  /** A request that leaves its worker online leaves it without a job. */
  lemma OnlineHasNoWork(c: Config, t: Tables, q: Request, env: Env, now: real, i: nat)
    requires Inv(c, t) && Legal(c, t, OpRequest(q, env), now) && History(c, t) && q.worker < |t.workers|
    ensures !WorksUnseen(Handle(c, t, q, env, now).0, q.worker, i)
  {
    var t' := Handle(c, t, q, env, now).0;
    var w := q.worker;
    StatusAfterRequest(c, t, q, env, now);
    AnswerCases(c, t, q, env);
    assert !WorksUnseen(t, w, i);
    if i < |t.jobs| { assert Owns(t.jobs[i], w) ==> HasActiveJob(t, w); }
    match q
    case StatusBeat(_, _) =>
    case ClaimJob(_) => ClaimGrantedIff(c, t, w, env, now);
    case JobBeat(_, _, _, _) => BeatWorksOn(c, t, q, env, now, i);
    case SendResult(_, _, _, _) =>
      if Accepts(c, t, q, env, now) {
        AcceptedWasOnlyJob(c, t, q, env, now, i);
      }
  }

  lemma BeatWorksOn(c: Config, t: Tables, q: Request, env: Env, now: real, i: nat)
    requires Inv(c, t) && Legal(c, t, OpRequest(q, env), now) && q.JobBeat? && q.worker < |t.workers|
    ensures WorksOn(Handle(c, t, q, env, now).0, q.worker, i) ==> WorksOn(t, q.worker, i)
  {
    AnswerCases(c, t, q, env);
  }

  lemma AcceptedWasOnlyJob(c: Config, t: Tables, q: Request, env: Env, now: real, i: nat)
    requires Inv(c, t) && Legal(c, t, OpRequest(q, env), now) && q.SendResult? && q.worker < |t.workers|
    requires Accepts(c, t, q, env, now)
    ensures !WorksOn(Handle(c, t, q, env, now).0, q.worker, i)
  {
    AnswerCases(c, t, q, env);
  }

  lemma RequestKeepsOnline(c: Config, t: Tables, q: Request, env: Env, now: real)
    requires Inv(c, t) && Legal(c, t, OpRequest(q, env), now) && History(c, t)
    ensures forall w: nat, i: nat :: !WorksUnseen(Handle(c, t, q, env, now).0, w, i)
  {
    var t' := Handle(c, t, q, env, now).0;
    if q.worker < |t.workers| {
      StatusAfterRequest(c, t, q, env, now);
      if q.ClaimJob? { ClaimGrantedIff(c, t, q.worker, env, now); }
      AnswerCases(c, t, q, env);
      StepExtends(c, t, OpRequest(q, env), now);
      forall w: nat, i: nat ensures !WorksUnseen(t', w, i) {
        assert !WorksUnseen(t, w, i);
        if w != q.worker {
          RequestIsLocal(c, t, q, env, now, w);
        } else if WorksUnseen(t', w, i) {
          OnlineHasNoWork(c, t, q, env, now, i);
        }
      }
    }
  }

  /** Every transaction keeps the columns consistent. */
  lemma StepKeepsHistory(c: Config, t: Tables, op: Op, now: real)
    requires ValidConfig(c) && Inv(c, t) && Legal(c, t, op, now) && History(c, t)
    ensures History(c, Apply(c, t, op, now)) && StartsKept(t, Apply(c, t, op, now))
  {
    match op
    case OpSubmit(agent, problems, stamps) => SubmitKeepsHistory(c, t, agent, problems, stamps);
    case OpReap(expired, at, writeAt, stamps) => ReapKeepsHistory(c, t, expired, at, writeAt, stamps);
    case OpRegister => RegisterKeepsHistory(c, t, now);
    case OpOffline(offline, at) => OfflineKeepsHistory(c, t, offline, now);
    case OpRequest(q, env) =>
      RequestKeepsRows(c, t, q, env, now);
      RequestKeepsOnline(c, t, q, env, now);
  }

  lemma RegisterKeepsHistory(c: Config, t: Tables, now: real)
    requires Inv(c, t) && History(c, t)
    ensures History(c, Register(t, now)) && StartsKept(t, Register(t, now))
  {
    var t' := Register(t, now);
    forall w: nat, i: nat ensures !WorksUnseen(t', w, i) {
      assert !WorksUnseen(t, w, i);
      if i < |t.jobs| { assert RowOk(c, t, t.jobs[i]); }
    }
  }

  lemma OfflineKeepsHistory(c: Config, t: Tables, offline: set<nat>, now: real)
    requires History(c, t)
    ensures History(c, MarkOffline(t, offline, now)) && StartsKept(t, MarkOffline(t, offline, now))
  {
    var t' := MarkOffline(t, offline, now);
    forall w: nat, i: nat ensures !WorksUnseen(t', w, i) { assert !WorksUnseen(t, w, i); }
  }

  lemma {:induction false} RunKeepsHistory(c: Config, t: Tables, steps: seq<Timed>, t': Tables)
    requires ValidConfig(c) && Inv(c, t) && History(c, t) && Reaches(c, t, steps, t')
    ensures History(c, t')
    decreases |steps|
  {
    if steps != [] {
      StepKeepsInv(c, t, steps[0].op, steps[0].now);
      StepKeepsHistory(c, t, steps[0].op, steps[0].now);
      RunKeepsHistory(c, Apply(c, t, steps[0].op, steps[0].now), steps[1..], t');
    }
  }

  /** In every run from empty tables: a queued row is as inserted, the finish time is set
      exactly when the job has ended, a lease lasts its length from the last heartbeat, a
      running job has started and a claimed one has not, a reaped job is a time-out while
      there are attempts left and a failure otherwise, and an online worker has no job. */
  lemma HistoryEver(c: Config, steps: seq<Timed>, t: Tables)
    requires ValidConfig(c) && Reaches(c, EMPTY, steps, t)
    ensures History(c, t)
  {
    RunKeepsHistory(c, EMPTY, steps, t);
  }
}
