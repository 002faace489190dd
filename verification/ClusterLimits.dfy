/** How far the safety of the cluster reaches: runs that break it as soon as a
    condition of the theorems is dropped. */
module ClusterLimits {
  import opened Records
  import opened Server
  import opened LeaseRules
  import opened Cluster
  import opened ClusterInvariant
  import opened ClusterSafety
  import opened ServerProgress
  import SI = ServerInvariant
  import SR = ServerRuns

  lemma {:induction false} PathsJoin(z: Setting, s: State, a: seq<Action>, mid: State, b: seq<Action>, s': State)
    requires Reaches(z, s, a, mid) && Reaches(z, mid, b, s')
    ensures Reaches(z, s, a + b, s')
    decreases |a|
  {
    if a == [] {
      assert a + b == b;
    } else {
      assert (a + b)[1..] == a[1..] + b;
      PathsJoin(z, Next(z, s, a[0]), a[1..], mid, b, s');
    }
  }

  lemma ThreePaths(z: Setting, a: seq<Action>, s1: State, b: seq<Action>, s2: State, c: seq<Action>, s3: State)
    requires Reaches(z, START, a, s1) && Reaches(z, s1, b, s2) && Reaches(z, s2, c, s3)
    ensures Reaches(z, START, a + b + c, s3)
  {
    PathsJoin(z, START, a, s1, b, s2);
    PathsJoin(z, START, a + b, s2, c, s3);
  }

  lemma PathExtends(z: Setting, s: State, a: seq<Action>, mid: State, act: Action)
    requires Reaches(z, s, a, mid) && Enabled(z, mid, act)
    ensures Reaches(z, s, a + [act], Next(z, mid, act))
  {
    assert [act][1..] == [];
    assert Reaches(z, Next(z, mid, act), [act][1..], Next(z, mid, act));
    PathsJoin(z, s, a, mid, [act], Next(z, mid, act));
  }

  lemma ReachableOn(z: Setting, s: State, actions: seq<Action>, s': State)
    requires Reachable(z, s) && Reaches(z, s, actions, s')
    ensures Reachable(z, s')
  {
    var before :| Reaches(z, START, before, s);
    PathsJoin(z, START, before, s, actions, s');
  }

  lemma ReachableFacts(z: Setting, s: State)
    requires ValidSetting(z) && Reachable(z, s)
    ensures Past(s.tables, s.clock) && |s.nodes| == |s.tables.workers|
  {
    ReachableInv(z, s);
  }

  lemma ReachableSuccessor(z: Setting, s: State, j: nat)
    requires ValidSetting(z) && Reachable(z, s) && j < |s.tables.jobs| && s.tables.jobs[j].status.Active()
    ensures (s.tables.jobs[j].submission, s.tables.jobs[j].attempt + 1) !in s.tables.attempts
  {
    ReachableInv(z, s);
    SI.AttemptIsNew(z.server, s.tables, j);
  }

  /** The claim query may return `j` when the other queued rows are locked. */
  function Only(t: Tables, j: nat, now: real): Env {
    Env(now, now, Below(|t.jobs|) - {j}, Some(j), false, Stamp(now, 0), true)
  }

  /** Worker `w`, down and with an empty disk, can claim the queued job `j`. */
  ghost predicate Ready(z: Setting, s: State, w: nat, j: nat) {
    && Reachable(z, s)
    && w < |s.nodes| == |s.tables.workers| && s.nodes[w].process.Down? && s.nodes[w].disk == map[]
    && MayClaim(s.tables.workers[w], false) && !HasActiveJob(s.tables, w)
    && j < |s.tables.jobs| && s.tables.jobs[j].status.QUEUED?
  }

  /** Worker `w` holds a lease on `j` that was claimed and renewed just now. */
  ghost predicate JustStarted(z: Setting, s: State, s': State, w: nat, j: nat) {
    && Reachable(z, s')
    && |s'.nodes| == |s.nodes| && w < |s.nodes| && j < |s.tables.jobs|
    && w < |s.tables.workers| == |s'.tables.workers|
    && s'.clock == s.clock
    && (forall v | 0 <= v < |s.nodes| && v != w :: s'.nodes[v] == s.nodes[v])
    && s'.nodes[w].clock == s.nodes[w].clock
    && s'.nodes[w].process.Leased? && s'.nodes[w].process.job == j
    && s'.nodes[w].process.keeper.deadline == s.nodes[w].clock + Lease(z) * SAFE_SHARE
    && !s'.nodes[w].process.keeper.cancelled
    && s'.nodes[w].process.renewal.None?
    && s'.nodes[w].process.stage.Evaluating?
    && s'.nodes[w].disk == map[j := Folder(NoEvidence, None)] && s'.nodes[w].left == {}
    && |s'.tables.jobs| == |s.tables.jobs|
    && s'.tables.jobs == s.tables.jobs[j := s'.tables.jobs[j]]
    && s'.tables.jobs[j].status.RUNNING?
    && SI.Key(s'.tables.jobs[j]) == SI.Key(s.tables.jobs[j])
    && s'.tables.jobs[j].worker == Some(w)
    && s'.tables.jobs[j].token == Some(s'.nodes[w].process.token)
    && s'.tables.jobs[j].expires == Some(s.clock + Lease(z))
    && s'.tables.submissions == s.tables.submissions
    && s'.tables.workers == s.tables.workers[w := s'.tables.workers[w]]
    && s'.tables.evaluations == s.tables.evaluations
    && s'.tables.attempts == s.tables.attempts
  }

  /** One more move of a worker, from where `actions` led. */
  lemma MoveOn(z: Setting, s: State, actions: seq<Action>, mid: State, w: nat, m: Move)
      returns (actions': seq<Action>, s': State)
    requires Reaches(z, s, actions, mid) && w < |mid.nodes| && CanMove(mid, mid.nodes[w], m)
             && (m.Abandon? ==> !z.cleans)
    ensures Reaches(z, s, actions', s')
    ensures s' == mid.(nodes := mid.nodes[w := Moved(z, mid, mid.nodes[w], m, |mid.calls|)],
                       calls := if Sent(mid.nodes[w], w, m, mid).Some?
                                then mid.calls + [Call(Sent(mid.nodes[w], w, m, mid).value, mid.clock)] else mid.calls)
  {
    PathExtends(z, s, actions, mid, AtNode(w, m));
    actions', s' := actions + [AtNode(w, m)], Next(z, mid, AtNode(w, m));
  }

  /** One more delivery of the latest call, handled at the present moment. */
  lemma DeliverOn(z: Setting, s: State, actions: seq<Action>, mid: State, env: Env)
      returns (actions': seq<Action>, s': State)
    requires Reaches(z, s, actions, mid) && mid.calls != [] && Past(mid.tables, mid.clock)
    requires mid.calls[|mid.calls| - 1].sentAt <= env.at == env.writeAt == mid.clock
    requires Picks(mid.tables.jobs, env.skipped, env.pick)
    requires HasActiveJob(mid.tables, mid.calls[|mid.calls| - 1].request.worker) ==> env.busy
    requires mid.calls[|mid.calls| - 1].request.SendResult? ==>
             ConsistentStatus(mid.calls[|mid.calls| - 1].request.report)
    ensures Reaches(z, s, actions', s')
    ensures var call := |mid.calls| - 1;
            var (t', reply) := Handle(z.server, mid.tables, mid.calls[call].request, env, mid.clock);
            s' == mid.(tables := t', replies := mid.replies + {(call, reply)})
  {
    var act := Deliver(|mid.calls| - 1, env);
    PathExtends(z, s, actions, mid, act);
    actions', s' := actions + [act], Next(z, mid, act);
  }

  /** Claim: the first half of starting a job. */
  lemma ClaimRun(z: Setting, s: State, w: nat, j: nat) returns (actions: seq<Action>, s': State)
    requires ValidSetting(z) && Past(s.tables, s.clock) && w < |s.nodes| && w < |s.tables.workers|
    requires s.nodes[w].process.Down? && s.nodes[w].disk == map[]
    requires MayClaim(s.tables.workers[w], false) && !HasActiveJob(s.tables, w) && j < |s.tables.jobs|
             && s.tables.jobs[j].status.QUEUED?
    ensures Reaches(z, s, actions, s')
    ensures s'.nodes == s.nodes[w := Node(s.nodes[w].clock,
                                          Leased(j, s.tables.tokens, Start(s.nodes[w].clock, Lease(z)), None,
                                                 Entering), map[], {})]
    ensures s'.clock == s.clock && s.calls <= s'.calls
    ensures s'.tables == Claimed(z.server, s.tables, w, j, s.clock)
  {
    var env, token := Only(s.tables, j, s.clock), s.tables.tokens;
    assert Picks(s.tables.jobs, env.skipped, env.pick);
    var a, s1, s2;
    a, s1 := AskRun(z, s, w);
    a, s2 := DeliverOn(z, s, a, s1, env);
    assert (|s.calls|, Granted(j, token)) in s2.replies;
    a, s' := MoveOn(z, s, a, s2, w, TakeJob(j, token));
    actions := a;
  }

  lemma AskRun(z: Setting, s: State, w: nat) returns (actions: seq<Action>, s': State)
    requires w < |s.nodes| && s.nodes[w].process.Down? && s.nodes[w].disk == map[]
    ensures Reaches(z, s, actions, s')
    ensures s' == s.(nodes := s.nodes[w := Node(s.nodes[w].clock, Claiming(|s.calls|), map[], {})],
                     calls := s.calls + [Call(ClaimJob(w), s.clock)])
  {
    var a, s1 := MoveOn(z, s, [], s, w, Restart);
    assert !HasPending(s1.nodes[w]);
    a, s' := MoveOn(z, s, a, s1, w, SendClaim);
    actions := a;
  }

  /** First renewal and start of the evaluation: the second half. */
  lemma RenewRun(z: Setting, s: State, w: nat, j: nat, token: nat) returns (actions: seq<Action>, s': State)
    requires ValidSetting(z) && Past(s.tables, s.clock) && w < |s.nodes| && w < |s.tables.workers|
    requires s.nodes[w].process == Leased(j, token, Start(s.nodes[w].clock, Lease(z)), None, Entering)
    requires s.nodes[w].disk == map[] && s.nodes[w].left == {}
    requires Presents(s.tables, w, j, token) && LeaseLive(s.tables.jobs[j], s.clock)
    ensures Reaches(z, s, actions, s')
    ensures s'.nodes == s.nodes[w := Node(s.nodes[w].clock,
                                          Leased(j, token, Start(s.nodes[w].clock, Lease(z)), None, Evaluating),
                                          map[j := Folder(NoEvidence, None)], {})]
    ensures s'.clock == s.clock && s.calls <= s'.calls
    ensures s'.tables == Release(AfterJobBeat(z.server, s.tables, w, j, JobStarted, Any(s.tables, s.clock)), w, s.clock)
  {
    var a, s1, s2;
    a, s1 := MoveOn(z, s, [], s, w, StartRenewal(JobStarted));
    a, s2 := DeliverOn(z, s, a, s1, Any(s.tables, s.clock));
    assert (|s.calls|, Renewed) in s2.replies;
    a, s' := EnterRun(z, s, a, s2, w, j, token, |s.calls|);
    actions := a;
  }

  lemma EnterRun(z: Setting, s: State, before: seq<Action>, mid: State, w: nat, j: nat, token: nat, call: nat)
    returns (actions: seq<Action>, s': State)
    requires Reaches(z, s, before, mid) && w < |mid.nodes| && ValidSetting(z)
    requires var now := mid.nodes[w].clock;
             mid.nodes[w] == Node(now, Leased(j, token, Start(now, Lease(z)), Some(Renewal(call, now)), Entering),
                                  map[], {})
    requires (call, Renewed) in mid.replies
    ensures Reaches(z, s, actions, s')
    ensures var now := mid.nodes[w].clock;
            s' == mid.(nodes := mid.nodes[w := Node(now, Leased(j, token, Start(now, Lease(z)), None, Evaluating),
                                                    map[j := Folder(NoEvidence, None)], {})])
  {
    var a, s1 := MoveOn(z, s, before, mid, w, RenewalAcknowledged);
    a, s' := MoveOn(z, s, a, s1, w, BeginEvaluation);
    actions := a;
  }

  /** An environment for a request that claims nothing. */
  function Any(t: Tables, now: real): Env {
    Env(now, now, Below(|t.jobs|), None, true, Stamp(now, 0), true)
  }

  lemma StartRun(z: Setting, s: State, w: nat, j: nat) returns (actions: seq<Action>, s': State)
    requires ValidSetting(z) && Ready(z, s, w, j)
    ensures Reaches(z, s, actions, s') && JustStarted(z, s, s', w, j)
  {
    ReachableFacts(z, s);
    StartedTables(z.server, s.tables, w, j, s.clock);
    var a, mid := ClaimRun(z, s, w, j);
    ReachableOn(z, s, a, mid);
    ReachableFacts(z, mid);
    var b, last := RenewRun(z, mid, w, j, s.tables.tokens);
    PathsJoin(z, s, a, mid, b, last);
    ReachableOn(z, s, a + b, last);
    actions, s' := a + b, last;
    StartedState(z, s, mid, last, w, j);
  }

  lemma StartedState(z: Setting, s: State, mid: State, last: State, w: nat, j: nat)
    requires ValidSetting(z) && w < |s.nodes| == |s.tables.workers| && j < |s.tables.jobs|
    requires Reachable(z, last) && last.clock == s.clock == mid.clock
    requires mid.tables == Claimed(z.server, s.tables, w, j, s.clock) && |mid.nodes| == |s.nodes|
             && w < |mid.tables.workers| && j < |mid.tables.jobs|
    requires last.tables == Release(AfterJobBeat(z.server, mid.tables, w, j, JobStarted, Any(mid.tables, s.clock)),
                                    w, s.clock)
    requires forall v | 0 <= v < |s.nodes| && v != w :: mid.nodes[v] == s.nodes[v]
    requires last.nodes == mid.nodes[w := Node(s.nodes[w].clock,
                                               Leased(j, s.tables.tokens, Start(s.nodes[w].clock, Lease(z)), None,
                                                      Evaluating),
                                               map[j := Folder(NoEvidence, None)], {})]
    ensures JustStarted(z, s, last, w, j)
  {
  }

  ghost function Claimed(c: Config, t: Tables, w: nat, j: nat, now: real): Tables
    requires w < |t.workers| && j < |t.jobs|
  {
    Release(AfterClaim(c, t, w, j, Only(t, j, now)), w, now)
  }

  /** What claiming and at once renewing does to the tables. */
  lemma StartedTables(c: Config, t: Tables, w: nat, j: nat, now: real)
    requires ValidConfig(c) && w < |t.workers| && j < |t.jobs|
    ensures var t1 := Claimed(c, t, w, j, now);
            var t2 := Release(AfterJobBeat(c, t1, w, j, JobStarted, Any(t1, now)), w, now);
            && |t1.workers| == |t.workers|
            && Presents(t1, w, j, t.tokens) && LeaseLive(t1.jobs[j], now)
            && t2.jobs == t.jobs[j := t2.jobs[j]]
            && t2.jobs[j].status.RUNNING? && SI.Key(t2.jobs[j]) == SI.Key(t.jobs[j])
            && t2.jobs[j].worker == Some(w) && t2.jobs[j].token == Some(t.tokens)
            && t2.jobs[j].expires == Some(now + c.leaseSeconds)
            && t2.submissions == t.submissions && t2.evaluations == t.evaluations && t2.attempts == t.attempts
            && t2.workers == t.workers[w := t2.workers[w]] && |t2.workers| == |t.workers|
  {
  }

  /** Two workers, both down, and one queued submission. */
  lemma Setup(z: Setting) returns (actions: seq<Action>, s: State)
    requires ValidSetting(z)
    ensures Reaches(z, START, actions, s)
    ensures s.clock == 0.0 && s.nodes == [Node(0.0, Down, map[], {}), Node(0.0, Down, map[], {})]
    ensures s.tables.submissions == [Submission(0, 0)] && s.tables.jobs == [QueuedJob(0, 1, Stamp(0.0, 0))]
    ensures s.tables.workers == [Worker(ONLINE, 0.0, 0.0), Worker(ONLINE, 0.0, 0.0)] && s.tables.evaluations == []
  {
    var s1 := Next(z, START, Serve(OpRegister));
    PathExtends(z, START, [], START, Serve(OpRegister));
    actions := [] + [Serve(OpRegister)];
    var s2 := Next(z, s1, Serve(OpRegister));
    PathExtends(z, START, actions, s1, Serve(OpRegister));
    actions := actions + [Serve(OpRegister)];
    var op := OpSubmit(0, [0], [Stamp(0.0, 0)]);
    s := Next(z, s2, Serve(op));
    PathExtends(z, START, actions, s2, Serve(op));
    actions := actions + [Serve(op)];
    assert [0][1..] == [] && [Stamp(0.0, 0)][1..] == [];
  }

  /** Worker 0 has just started the only job, at time 0; worker 1 is down. */
  ghost predicate Solo(z: Setting, s: State) {
    && Reachable(z, s)
    && s.clock == 0.0
    && |s.nodes| == 2
    && s.nodes[0].clock == 0.0
    && s.nodes[0].process.Leased? && s.nodes[0].process.job == 0
    && s.nodes[0].process.keeper.deadline == Lease(z) * SAFE_SHARE && !s.nodes[0].process.keeper.cancelled
    && s.nodes[0].process.stage.Evaluating?
    && s.nodes[0].disk == map[0 := Folder(NoEvidence, None)] && s.nodes[0].left == {}
    && s.nodes[1] == Node(0.0, Down, map[], {})
    && |s.tables.jobs| == 1 && s.tables.jobs[0].status.RUNNING? && SI.Key(s.tables.jobs[0]) == (0, 1)
    && Presents(s.tables, 0, 0, s.nodes[0].process.token)
    && s.tables.jobs[0].expires == Some(Lease(z))
    && |s.tables.workers| == 2 && s.tables.workers[1] == Worker(ONLINE, 0.0, 0.0)
    && s.tables.evaluations == []
  }

  lemma FirstStarted(z: Setting) returns (actions: seq<Action>, s: State)
    requires ValidSetting(z)
    ensures Reaches(z, START, actions, s) && Solo(z, s)
  {
    var a, start := Setup(z);
    assert Reachable(z, start);
    assert Ready(z, start, 0, 0);
    var b, started := StartRun(z, start, 0, 0);
    PathsJoin(z, START, a, start, b, started);
    actions, s := a + b, started;
  }

  /** Worker 1, down, may claim the second attempt, job 1, while worker 0 is as it was. */
  ghost predicate Retry(z: Setting, s: State) {
    && Reachable(z, s)
    && |s.nodes| == 2 && s.nodes[1].process.Down? && s.nodes[1].disk == map[]
    && |s.tables.jobs| == 2 && SI.Key(s.tables.jobs[0]) == (0, 1) && s.tables.jobs[0].status.Terminal()
    && s.tables.jobs[1] == QueuedJob(0, 2, s.tables.jobs[1].stamp)
    && |s.tables.workers| == 2 && s.tables.workers[1].status.ONLINE?
  }

  lemma RetryStarts(z: Setting, s: State) returns (actions: seq<Action>, s': State)
    requires ValidSetting(z) && Retry(z, s)
    ensures Reaches(z, s, actions, s') && JustStarted(z, s, s', 1, 1)
  {
    assert Ready(z, s, 1, 1);
    actions, s' := StartRun(z, s, 1, 1);
  }

  /** A time after the lease ends for the server and before the worker must have stopped. */
  lemma Gap(z: Setting) returns (local: real)
    requires ValidSetting(z) && !StopsInTime(z)
    ensures local > 0.0 && local < Lease(z) * SAFE_SHARE + z.grace && z.drift * local > Lease(z)
  {
    var limit := Lease(z) * SAFE_SHARE + z.grace;
    var least := Lease(z) / z.drift;
    assert z.drift * least == Lease(z);
    if limit <= least { AtMostScaled(z.drift, limit, least); }
    local := (least + limit) / 2.0;
    ScaledLess(z.drift, least, local);
    assert least > 0.0 by { if least <= 0.0 { AtMostScaled(z.drift, least, 0.0); } }
  }

  /** After `local` on worker 0's clock the server, running faster, reaps its job. */
  lemma ReapedRun(z: Setting, s: State, local: real) returns (actions: seq<Action>, s': State)
    requires ValidSetting(z) && z.server.maxAttempts >= 2 && Solo(z, s)
    requires local > 0.0 && z.drift * local > Lease(z)
    ensures Reaches(z, s, actions, s') && Retry(z, s')
    ensures s'.nodes[0] == s.nodes[0].(clock := local) && s'.tables.evaluations == []
  {
    var tick := Tick(z.drift * local, [local, local]);
    PathExtends(z, s, [], s, tick);
    var s1 := Next(z, s, tick);
    actions := [] + [tick];
    ReachableOn(z, s, actions, s1);
    ReachableSuccessor(z, s1, 0);
    var now := s1.clock;
    var op := OpReap([0], now, now, [Stamp(now, 1)]);
    OnlyJobReaped(z.server, s1.tables, now);
    PathExtends(z, s, actions, s1, Serve(op));
    s' := Next(z, s1, Serve(op));
    actions := actions + [Serve(op)];
    ReachableOn(z, s, actions, s');
  }

  lemma OnlyJobReaped(c: Config, t: Tables, now: real)
    requires |t.jobs| == 1 && Expired(t, 0, now) && SI.Key(t.jobs[0]) == (0, 1) && c.maxAttempts >= 2
             && (0, 2) !in t.attempts
    ensures ReapSelection(t, [0], now)
    ensures var t' := Commit(t, ReapAll(c, t, [0], now, [Stamp(now, 1)]));
            && |t'.jobs| == 2 && SI.Key(t'.jobs[0]) == (0, 1) && t'.jobs[0].status.TIMEOUT?
            && t'.jobs[1] == QueuedJob(0, 2, Stamp(now, 1)) && t'.workers == t.workers
               && t'.evaluations == t.evaluations
  {
  }

  /** When workers may stop too late, some run executes one submission twice at once. */
  lemma LateStopRun(z: Setting) returns (actions: seq<Action>, s: State)
    requires ValidSetting(z) && !StopsInTime(z) && z.server.maxAttempts >= 2
    ensures Reaches(z, START, actions, s) && !NoDoubleExecution(z, s)
  {
    var local := Gap(z);
    var a, s1 := FirstStarted(z);
    var b, s2 := ReapedRun(z, s1, local);
    var c, s3 := RetryStarts(z, s2);
    ThreePaths(z, a, s1, b, s2, c, s3);
    actions, s := a + b + c, s3;
    assert s3.nodes[0] == s2.nodes[0];
    assert Executing(z, s, 0, 0);
    assert Executing(z, s, 1, 1);
  }

  /** So does one in which a process goes on beside a sandbox that it has not removed:
      once the lease has expired, the retry runs on another worker at the same time. */
  lemma LeftoverRun(z: Setting) returns (actions: seq<Action>, s: State)
    requires ValidSetting(z) && !z.cleans && z.server.maxAttempts >= 2
    ensures Reaches(z, START, actions, s) && !NoDoubleExecution(z, s)
  {
    var a, s1 := FirstStarted(z);
    var b, s2 := ReapedRun(z, s1, AfterLease(z));
    var c, s3 := AbandonedRun(z, s2);
    ThreePaths(z, a, s1, b, s2, c, s3);
    actions, s := a + b + c, s3;
  }

  lemma AbandonedRun(z: Setting, s: State) returns (actions: seq<Action>, s': State)
    requires ValidSetting(z) && !z.cleans && Retry(z, s) && InSandbox(s.nodes[0].process) && s.nodes[0].process.job == 0
    ensures Reaches(z, s, actions, s') && !NoDoubleExecution(z, s')
  {
    var a, s1 := MoveOn(z, s, [], s, 0, Abandon);
    ReachableOn(z, s, a, s1);
    var b, s2 := RetryStarts(z, s1);
    PathsJoin(z, s, a, s1, b, s2);
    actions, s' := a + b, s2;
    assert s2.nodes[0] == s1.nodes[0];
    assert Executing(z, s', 0, 0) && Executing(z, s', 1, 1);
  }

  /** A time by which the server's lease has expired. */
  function AfterLease(z: Setting): (local: real)
    requires ValidSetting(z)
    ensures local > 0.0 && z.drift * local > Lease(z)
  {
    assert z.drift * (Lease(z) / z.drift) == Lease(z);
    assert z.drift * (Lease(z) / z.drift + 1.0) == Lease(z) + z.drift;
    Lease(z) / z.drift + 1.0
  }

  /** The exact condition: no run ever executes a submission twice at once if and only
      if workers stop in time and clean up, or no job is ever retried. */
  lemma SafeIff(z: Setting)
    requires ValidSetting(z)
    ensures (forall s | Reachable(z, s) :: NoDoubleExecution(z, s))
       <==> (StopsInTime(z) && z.cleans) || z.server.maxAttempts == 1
  {
    if (StopsInTime(z) && z.cleans) || z.server.maxAttempts == 1 {
      forall s | Reachable(z, s) ensures NoDoubleExecution(z, s) { NoDoubleExecutionEver(z, s); }
    } else {
      var actions, s;
      if z.cleans { actions, s := LateStopRun(z); } else { actions, s := LeftoverRun(z); }
      assert Reachable(z, s);
    }
  }

  // ---------------------------------------------------------------- the whole lease body

  /** Worker `w` is inside its lease body for job `j`, not cancelled and before its deadline. */
  predicate InLeaseBody(s: State, w: nat, j: nat) {
    && w < |s.nodes|
    && var p := s.nodes[w].process;
    && p.Leased? && p.job == j && !p.stage.Entering? && !p.stage.Entered?
    && !p.keeper.cancelled && s.nodes[w].clock < p.keeper.deadline
  }

  const INFRA := Report(FAILED, Some(INFRASTRUCTURE_FAILURE), [], Metrics(0.0, None, None, None, None, 0, 0, 0),
                        "", "", "", "")

  /** The server accepts an infrastructure failure and queues the next attempt. */
  lemma InfraReported(c: Config, t: Tables, w: nat, j: nat, token: nat, now: real)
    requires w < |t.workers| && Presents(t, w, j, token) && LeaseLive(t.jobs[j], now) && t.evaluations == []
    requires t.jobs[j].attempt < c.maxAttempts && (t.jobs[j].submission, t.jobs[j].attempt + 1) !in t.attempts
    ensures var t' := Handle(c, t, SendResult(w, j, token, INFRA), Any(t, now), now).0;
            && |t'.jobs| == |t.jobs| + 1
            && t'.jobs[j].status.FAILED? && SI.Key(t'.jobs[j]) == SI.Key(t.jobs[j])
            && t'.jobs[|t.jobs|] == QueuedJob(t.jobs[j].submission, t.jobs[j].attempt + 1, Stamp(now, 0))
            && (forall i | 0 <= i < |t.jobs| && i != j :: t'.jobs[i] == t.jobs[i])
            && |t'.workers| == |t.workers|
               && (forall v | 0 <= v < |t.workers| && v != w :: t'.workers[v] == t.workers[v])
  {
  }

  /** Worker 0 writes its evidence, removes its sandboxes and sends an infrastructure failure. */
  lemma UploadRun(z: Setting, s: State, token: nat) returns (actions: seq<Action>, s': State)
    requires |s.nodes| == 2 && s.nodes[0].process.Leased? && s.nodes[0].process.job == 0
             && s.nodes[0].process.token == token
    requires s.nodes[0].process.stage.Evaluating? && s.nodes[0].disk == map[0 := Folder(NoEvidence, None)]
    requires !s.nodes[0].process.keeper.cancelled
    ensures Reaches(z, s, actions, s')
    ensures s' == s.(nodes := s'.nodes, calls := s.calls + [Call(SendResult(0, 0, token, INFRA), s.clock)])
    ensures |s'.nodes| == 2 && s'.nodes[1] == s.nodes[1] && s'.nodes[0].clock == s.nodes[0].clock
    ensures s'.nodes[0].process == s.nodes[0].process.(stage := Uploading(Some(|s.calls|)))
            && s'.nodes[0].left == s.nodes[0].left
  {
    var a, s2 := PreservedRun(z, s, token);
    actions, s' := MoveOn(z, s, a, s2, 0, SendUpload);
  }

  lemma PreservedRun(z: Setting, s: State, token: nat) returns (actions: seq<Action>, s': State)
    requires |s.nodes| == 2 && s.nodes[0].process.Leased? && s.nodes[0].process.job == 0
             && s.nodes[0].process.token == token
    requires s.nodes[0].process.stage.Evaluating? && s.nodes[0].disk == map[0 := Folder(NoEvidence, None)]
    ensures Reaches(z, s, actions, s')
    ensures s' == s.(nodes := s'.nodes)
    ensures |s'.nodes| == 2 && s'.nodes[1] == s.nodes[1] && s'.nodes[0].clock == s.nodes[0].clock
    ensures s'.nodes[0].process == s.nodes[0].process.(stage := Uploading(None)) && s'.nodes[0].left == s.nodes[0].left
    ensures 0 in s'.nodes[0].disk && s'.nodes[0].disk[0].evidence == Pending(token, INFRA)
  {
    var a, s1 := MoveOn(z, s, [], s, 0, WriteEvidence(INFRA));
    actions, s' := MoveOn(z, s, a, s1, 0, SandboxGone);
  }

  /** The server accepts it; the reply is still under way. */
  lemma ReportedRun(z: Setting, s: State) returns (actions: seq<Action>, s': State)
    requires ValidSetting(z) && z.server.maxAttempts >= 2 && Solo(z, s)
    ensures Reaches(z, s, actions, s') && Retry(z, s')
    ensures InLeaseBody(s', 0, 0) && s'.nodes[0].process.stage.Uploading? && s'.nodes[0].left == {}
  {
    var token := s.nodes[0].process.token;
    ReachableFacts(z, s);
    ReachableSuccessor(z, s, 0);
    InfraReported(z.server, s.tables, 0, 0, token, 0.0);
    var a, s1 := UploadRun(z, s, token);
    a, s' := DeliverOn(z, s, a, s1, Any(s.tables, 0.0));
    actions := a;
    ReachableOn(z, s, actions, s');
  }

  /** "Inside the lease body" is too wide a notion of execution: after an
      infrastructure failure the server may hand the retry to another worker while
      the first is still waiting for its reply. Its sandboxes are gone by then. */
  lemma LeaseBodiesOverlap(z: Setting) returns (actions: seq<Action>, s: State)
    requires ValidSetting(z) && z.server.maxAttempts >= 2
    ensures Reaches(z, START, actions, s)
    ensures InLeaseBody(s, 0, 0) && InLeaseBody(s, 1, 1)
    ensures |s.tables.jobs| == 2 && s.tables.jobs[0].submission == s.tables.jobs[1].submission
    ensures !Executing(z, s, 0, 0)
  {
    var a, s1 := FirstStarted(z);
    var b, s2 := ReportedRun(z, s1);
    var c, s3 := RetryStarts(z, s2);
    ThreePaths(z, a, s1, b, s2, c, s3);
    actions, s := a + b + c, s3;
    assert s3.nodes[0] == s2.nodes[0];
  }

  /** Two workers are inside the lease bodies of one submission. */
  ghost predicate Overlap(s: State, v: nat, w: nat, i: nat, j: nat) {
    && InLeaseBody(s, v, i) && InLeaseBody(s, w, j) && v != w
    && i < |s.tables.jobs| && j < |s.tables.jobs| && s.tables.jobs[i].submission == s.tables.jobs[j].submission
  }

  ghost predicate NoOverlap(s: State) { forall v: nat, w: nat, i: nat, j: nat :: !Overlap(s, v, w, i, j) }

  /** The lease bodies of one submission never overlap if and only if no job is ever retried. */
  lemma DisjointLeaseBodiesIff(z: Setting)
    requires ValidSetting(z)
    ensures (forall s | Reachable(z, s) :: NoOverlap(s)) <==> z.server.maxAttempts == 1
  {
    if z.server.maxAttempts == 1 {
      forall s | Reachable(z, s) ensures NoOverlap(s) {
        ReachableInv(z, s);
        forall v: nat, w: nat, i: nat, j: nat ensures !Overlap(s, v, w, i, j) {
          if Overlap(s, v, w, i, j) {
            LeasedJobIsOwned(z, s, v);
            LeasedJobIsOwned(z, s, w);
            SingleAttempt(z.server, s.tables, i, j);
            assert false;
          }
        }
      }
    } else {
      var actions, s := LeaseBodiesOverlap(z);
      assert Reachable(z, s) && Overlap(s, 0, 1, 0, 1);
    }
  }

  /** At least one of two overlapping jobs has been reported; and where workers stop in time
      and clean up, a reported job is not being executed any more. */
  ghost predicate Reported(z: Setting, s: State, v: nat, w: nat, i: nat, j: nat) {
    && (Evaluated(s.tables, i) || Evaluated(s.tables, j))
    && (StopsInTime(z) && z.cleans ==>
          && (Evaluated(s.tables, i) ==> !Executing(z, s, v, i))
          && (Evaluated(s.tables, j) ==> !Executing(z, s, w, j)))
  }

  lemma OverlapMeansReported(z: Setting, s: State, v: nat, w: nat, i: nat, j: nat)
    requires ValidSetting(z) && Inv(z, s) && z.drift <= 4.0 / 3.0 && Overlap(s, v, w, i, j)
    ensures Reported(z, s, v, w, i, j)
  {
    var t := s.tables;
    OneIsReported(z, s, v, w, i, j);
    if StopsInTime(z) && z.cleans {
      if Evaluated(t, i) { ReportedIsNotExecuted(z, s, v, i); }
      if Evaluated(t, j) { ReportedIsNotExecuted(z, s, w, j); }
    }
  }

  lemma OneIsReported(z: Setting, s: State, v: nat, w: nat, i: nat, j: nat)
    requires ValidSetting(z) && Inv(z, s) && z.drift <= 4.0 / 3.0 && Overlap(s, v, w, i, j)
    ensures Evaluated(s.tables, i) || Evaluated(s.tables, j)
  {
    var t := s.tables;
    DeadlineIsSound(z, s, v);
    DeadlineIsSound(z, s, w);
    assert NodeOk(z, s, v, s.nodes[v]) && NodeOk(z, s, w, s.nodes[w]);
    assert SI.RowOk(z.server, t, t.jobs[i]) && SI.RowOk(z.server, t, t.jobs[j]);
    assert ReapedBefore(t.jobs[i], s.clock) && ReapedBefore(t.jobs[j], s.clock);
    if !Evaluated(t, i) && !Evaluated(t, j) {
      SR.OneUnfinishedAttempt(z.server, t, i, j);
    }
  }

  lemma ReportedIsNotExecuted(z: Setting, s: State, w: nat, j: nat)
    requires ValidSetting(z) && Inv(z, s) && StopsInTime(z) && z.cleans && Evaluated(s.tables, j)
    ensures !Executing(z, s, w, j)
  {
    assert forall e | 0 <= e < |s.tables.evaluations| :: SI.EvaluationOk(s.tables, s.tables.evaluations[e]);
    if Executing(z, s, w, j) { ExecutedJobIsUnfinished(z, s, w, j); }
  }

  /** Overlapping lease bodies always mean a report, if and only if the worker's clocks are
      within the ratio for which the 0.75 is made, or no job is ever retried. */
  lemma OverlapsAreReportedIff(z: Setting)
    requires ValidSetting(z)
    ensures (forall s, v: nat, w: nat, i: nat, j: nat | Reachable(z, s) && Overlap(s, v, w, i, j) ::
             Reported(z, s, v, w, i, j))
       <==> z.drift <= 4.0 / 3.0 || z.server.maxAttempts == 1
  {
    if z.server.maxAttempts == 1 {
      DisjointLeaseBodiesIff(z);
    } else if z.drift <= 4.0 / 3.0 {
      forall s, v: nat, w: nat, i: nat, j: nat | Reachable(z, s) && Overlap(s, v, w, i, j)
        ensures Reported(z, s, v, w, i, j)
      {
        ReachableInv(z, s);
        OverlapMeansReported(z, s, v, w, i, j);
      }
    } else {
      var actions, s := UnreportedOverlap(z);
      assert Reachable(z, s) && Overlap(s, 0, 1, 0, 1) && !Reported(z, s, 0, 1, 0, 1);
    }
  }

  lemma UnreportedOverlap(z: Setting) returns (actions: seq<Action>, s: State)
    requires ValidSetting(z) && z.drift > 4.0 / 3.0 && z.server.maxAttempts >= 2
    ensures Reaches(z, START, actions, s) && Overlap(s, 0, 1, 0, 1) && s.tables.evaluations == []
  {
    var prompt := z.(grace := 0.0);
    SafeClockRatios(prompt);
    var local := Gap(prompt);
    var a, s1 := FirstStarted(z);
    var b, s2 := ReapedRun(z, s1, local);
    var c, s3 := RetryStarts(z, s2);
    ThreePaths(z, a, s1, b, s2, c, s3);
    actions, s := a + b + c, s3;
    assert s3.nodes[0] == s2.nodes[0];
  }
}
