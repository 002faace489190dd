/** `EvaluationManager` as the service runs it: requests that update table rows in
    place, statement by statement, proved against the transactions of `Server`. */
module Manager {
  import opened Records
  import opened Server
  import SI = ServerInvariant
  import SP = ServerProgress
  import opened ServerReplies

  /** Each id once, in order of first occurrence (`dict.fromkeys`). */
  function FirstOccurrences(ids: seq<nat>): (r: seq<nat>)
    ensures forall x :: x in r <==> x in ids
    ensures forall i, k | 0 <= i < k < |r| :: r[i] != r[k]
  {
    if ids == [] then []
    else
      var front := FirstOccurrences(ids[..|ids| - 1]);
      var last := ids[|ids| - 1];
      assert forall x :: x in ids <==> x in ids[..|ids| - 1] || x == last;
      if last in front then front else front + [last]
  }

  /** The rows the reaper's query returns: expired, and not locked by another transaction. */
  function Selected(t: Tables, locked: set<nat>, at: real, n: nat): (r: seq<nat>)
    requires n <= |t.jobs|
    ensures |r| <= n
    ensures forall k | 0 <= k < |r| :: r[k] < n && Expired(t, r[k], at)
    ensures forall i: nat :: i in r <==> i < n && Expired(t, i, at) && i !in locked
    ensures forall k, l | 0 <= k < l < |r| :: r[k] < r[l]
  {
    if n == 0 then []
    else
      var front := Selected(t, locked, at, n - 1);
      if Expired(t, n - 1, at) && n - 1 !in locked then front + [n - 1] else front
  }

  /** The workers the second query returns. */
  function SilentRows(c: Config, t: Tables, locked: set<nat>, at: real): set<nat> {
    set w: nat | w < |t.workers| && Silent(c, t, w, at) && w !in locked :: w
  }

  lemma {:induction false} ReapSplit(c: Config, t: Tables, expired: seq<nat>, writeAt: real, stamps: seq<Stamp>, k: nat)
    requires k < |expired| == |stamps| && forall i :: 0 <= i < |expired| ==> expired[i] < |t.jobs|
    requires ReapAll(c, t, expired[..k], writeAt, stamps[..k]).Done?
    ensures var t1 := ReapAll(c, t, expired[..k], writeAt, stamps[..k]).value;
            && |t.jobs| <= |t1.jobs|
            && ReapAll(c, t, expired[..k + 1], writeAt, stamps[..k + 1])
               == ReapOne(c, t1, expired[k], writeAt, stamps[k])
    decreases k
  {
    if k == 0 {
      assert expired[..1][1..] == [] && stamps[..1][1..] == [];
    } else {
      var r := ReapOne(c, t, expired[0], writeAt, stamps[0]);
      assert expired[..k][1..] == expired[1..][..k - 1] && stamps[..k][1..] == stamps[1..][..k - 1];
      assert expired[..k + 1][1..] == expired[1..][..k] && stamps[..k + 1][1..] == stamps[1..][..k];
      ReapSplit(c, r.value, expired[1..], writeAt, stamps[1..], k - 1);
    }
  }

  lemma {:induction false} SubmitSplit(t: Tables, agent: nat, problems: seq<nat>, stamps: seq<Stamp>, k: nat)
    requires k < |problems| == |stamps| && SubmitAll(t, agent, problems[..k], stamps[..k]).Done?
    ensures var t1 := SubmitAll(t, agent, problems[..k], stamps[..k]).value;
            SubmitAll(t, agent, problems[..k + 1], stamps[..k + 1])
            == InsertJob(t1.(submissions := t1.submissions + [Submission(agent, problems[k])]), |t1.submissions|, 1,
                         stamps[k])
    decreases k
  {
    if k == 0 {
      assert problems[..1][1..] == [] && stamps[..1][1..] == [];
    } else {
      var r := InsertJob(t.(submissions := t.submissions + [Submission(agent, problems[0])]), |t.submissions|, 1,
                         stamps[0]);
      assert problems[..k][1..] == problems[1..][..k - 1] && stamps[..k][1..] == stamps[1..][..k - 1];
      assert problems[..k + 1][1..] == problems[1..][..k] && stamps[..k + 1][1..] == stamps[1..][..k];
      SubmitSplit(r.value, agent, problems[1..], stamps[1..], k - 1);
    }
  }

  /** Rows in use by a session; nothing is visible to others before `commit`. */
  class EvaluationManager {
    const config: Config
    var submissions: seq<Submission>
    var jobs: seq<Job>
    var attempts: map<(nat, nat), nat>
    var workers: seq<Worker>
    var evaluations: seq<Evaluation>
    var tokens: nat
    var agents: set<nat>            // uploaded agent versions
    var problems: map<nat, bool>    // problem versions, and whether their status is READY

    ghost function State(): Tables reads this {
      Tables(submissions, jobs, attempts, workers, evaluations, tokens)
    }

    ghost predicate Valid() reads this {
      ValidConfig(config) && SI.Inv(config, State())
    }

    constructor (config: Config)
      requires ValidConfig(config)
      ensures Valid() && State() == EMPTY && this.config == config && agents == {} && problems == map[]
    {
      this.config := config;
      submissions, jobs, attempts, workers, evaluations, tokens := [], [], map[], [], [], 0;
      agents, problems := {}, map[];
    }

    /** `select RunnerJob.id where worker_id == w and status in (CLAIMED, RUNNING)` */
    method ActiveJob(w: nat) returns (found: bool)
      ensures found == HasActiveJob(State(), w)
    {
      found := false;
      for i := 0 to |jobs|
        invariant found == exists k :: 0 <= k < i && Owns(jobs[k], w)
      {
        if Owns(jobs[i], w) { found := true; }
      }
    }

    /** The oldest queued row that nobody else has locked. */
    method NextQueued(skipped: set<nat>) returns (pick: Option<nat>)
      ensures Picks(jobs, skipped, pick)
    {
      pick := None;
      for i := 0 to |jobs|
        invariant pick.None? ==> forall k: nat :: k < i ==> !Available(jobs, skipped, k)
        invariant pick.Some? ==> Available(jobs, skipped, pick.value)
        invariant pick.Some? ==> forall k: nat :: k < i && Available(jobs, skipped, k) ==>
                  Before(jobs[pick.value].stamp, jobs[k].stamp)
      {
        if jobs[i].status.QUEUED? && i !in skipped {
          if pick.None? || !Before(jobs[pick.value].stamp, jobs[i].stamp) { pick := Some(i); }
        }
      }
    }

    /** `select Evaluation where job_id == j` */
    method FindEvaluation(j: nat) returns (found: Option<nat>)
      ensures found.Some? ==> EvaluationOf(State(), found.value, j)
      ensures found.None? ==> !Evaluated(State(), j)
    {
      found := None;
      for i := 0 to |evaluations|
        invariant found.Some? ==> EvaluationOf(State(), found.value, j)
        invariant found.None? ==> forall k: nat :: k < i ==> evaluations[k].job != j
      {
        if evaluations[i].job == j { found := Some(i); }
      }
    }

    /** One submission and one queued job for each distinct selected problem, all or none. */
    method Submit(agent: nat, selected: seq<nat>, stamps: seq<Stamp>) returns (r: Outcome<nat>)
      requires Valid() && |selected| <= |stamps|
      modifies this`submissions, this`jobs, this`attempts
      ensures Valid()
      ensures agent !in agents ==> r == Refused(404)
      ensures agent in agents && (exists p :: p in selected && p !in problems) ==> r == Refused(404)
      ensures agent in agents && (forall p :: p in selected ==> p in problems)
              && (exists p :: p in selected && !problems[p]) ==>
                r == Refused(409)
      ensures r.Refused? ==> State() == old(State())
      ensures r.Done? ==>
                var chosen := FirstOccurrences(selected);
                && agent in agents && (forall p :: p in selected ==> p in problems && problems[p])
                && r == Done(|chosen|) && |chosen| <= |stamps|
                && SubmitAll(old(State()), agent, chosen, stamps[..|chosen|]) == Done(State())
    {
      if agent !in agents { return Refused(404); }
      var chosen := Distinct(selected);
      if exists p | p in chosen :: p !in problems { return Refused(404); }
      if exists p | p in chosen :: !problems[p] { return Refused(409); }
      SI.SubmitKeepsInv(config, State(), agent, chosen, stamps[..|chosen|]);
      InsertAll(agent, chosen, stamps[..|chosen|]);
      r := Done(|chosen|);
    }

    static method Distinct(ids: seq<nat>) returns (chosen: seq<nat>)
      ensures chosen == FirstOccurrences(ids) && |chosen| <= |ids|
    {
      chosen := [];
      for i := 0 to |ids|
        invariant chosen == FirstOccurrences(ids[..i]) && |chosen| <= i
      {
        assert ids[..i + 1][..i] == ids[..i];
        if ids[i] !in chosen { chosen := chosen + [ids[i]]; }
      }
      assert ids[..|ids|] == ids;
    }

    method InsertAll(agent: nat, chosen: seq<nat>, stamps: seq<Stamp>)
      requires Valid() && |chosen| == |stamps|
      modifies this`submissions, this`jobs, this`attempts
      ensures SubmitAll(old(State()), agent, chosen, stamps) == Done(State())
    {
      ghost var before := State();
      for i := 0 to |chosen|
        invariant SubmitAll(before, agent, chosen[..i], stamps[..i]) == Done(State())
      {
        SubmitSplit(before, agent, chosen, stamps, i);
        SI.SubmitKeepsInv(config, before, agent, chosen[..i + 1], stamps[..i + 1]);
        var s := |submissions|;
        submissions := submissions + [Submission(agent, chosen[i])];
        attempts := attempts[(s, 1) := |jobs|];
        jobs := jobs + [QueuedJob(s, 1, stamps[i])];
      }
      assert chosen[..|chosen|] == chosen && stamps[..|chosen|] == stamps;
    }

    method Register(now: real) returns (w: nat)
      requires Valid()
      modifies this`workers
      ensures Valid() && State() == Server.Register(old(State()), now) && w == |old(workers)|
    {
      SI.RegisterKeepsInv(config, State(), now);
      w := |workers|;
      workers := workers + [Worker(ONLINE, now, now)];
    }

    method WorkerHeartbeat(w: nat, status: WorkerStatus, env: Env, now: real) returns (reply: Reply)
      requires Valid() && w < |workers| && LegalEnv(State(), w, env, now)
      modifies this`workers
      ensures Valid()
      ensures (State(), reply)
           == Handle(config, old(State()), StatusBeat(w, status), env.(busy := HasActiveJob(old(State()), w)), now)
    {
      ghost var seen := env.(busy := HasActiveJob(State(), w));
      ghost var (t', r') := Handle(config, State(), StatusBeat(w, status), seen, now);
      SI.RequestKeepsInv(config, State(), StatusBeat(w, status), seen, now);
      var active := ActiveJob(w);
      var row := workers[w];
      row := row.(status := if active && status.ONLINE? then BUSY else status);
      row := row.(lastHeartbeat := env.writeAt);
      workers := workers[w := row.(freeAt := now)];
      reply := Noted;
      assert workers == t'.workers;
    }

    method Claim(w: nat, skipped: set<nat>, at: real, writeAt: real, now: real)
        returns (reply: Reply, pick: Option<nat>)
      requires Valid() && w < |workers| && workers[w].freeAt <= at <= writeAt <= now
      modifies this`workers, this`jobs, this`tokens
      ensures Valid() && Picks(old(jobs), skipped, pick)
      ensures (State(), reply)
           == Handle(config, old(State()), ClaimJob(w),
                     Env(at, writeAt, skipped, pick, HasActiveJob(old(State()), w), Stamp(now, 0), true), now)
      ensures GrantsFirst(old(State()), w, skipped, reply)
    {
      pick := NextQueued(skipped);
      ghost var env := Env(at, writeAt, skipped, pick, HasActiveJob(State(), w), Stamp(now, 0), true);
      SI.RequestKeepsInv(config, State(), ClaimJob(w), env, now);
      ClaimGrantsFirst(config, State(), w, env, now);
      var active := ActiveJob(w);
      if workers[w].status in {DRAINING, ERROR, OFFLINE} || active {
        reply := Error(409);
      } else if pick.None? {
        reply := Nothing;
      } else {
        reply := Granted(pick.value, tokens);
        Grant(w, pick.value, env, writeAt);
      }
      workers := workers[w := workers[w].(freeAt := now)];
    }

    /** The writes of a successful claim. */
    method Grant(w: nat, j: nat, ghost env: Env, writeAt: real)
      requires w < |workers| && j < |jobs| && env.writeAt == writeAt
      modifies this`workers, this`jobs, this`tokens
      ensures State() == AfterClaim(config, old(State()), w, j, env)
    {
      var job := jobs[j].(worker := Some(w), status := CLAIMED);
      job := job.(token := Some(tokens), heartbeatAt := Some(writeAt));
      job := job.(expires := Some(writeAt + config.leaseSeconds));
      jobs := jobs[j := job];
      tokens := tokens + 1;
      workers := workers[w := workers[w].(status := BUSY, lastHeartbeat := writeAt)];
    }

    method Heartbeat(w: nat, j: nat, token: nat, event: Event, env: Env, now: real) returns (reply: Reply)
      requires Valid() && w < |workers| && LegalEnv(State(), w, env, now)
      modifies this`workers, this`jobs
      ensures Valid() && (State(), reply) == Handle(config, old(State()), JobBeat(w, j, token, event), env, now)
    {
      ghost var (t', r') := Handle(config, State(), JobBeat(w, j, token, event), env, now);
      SI.RequestKeepsInv(config, State(), JobBeat(w, j, token, event), env, now);
      if j >= |jobs| || jobs[j].worker != Some(w) || jobs[j].token != Some(token) {
        reply := Error(403);
      } else if !jobs[j].status.Active() || jobs[j].expires.None? || jobs[j].expires.value <= env.at {
        reply := Error(409);
      } else {
        Extend(w, j, event, env);
        reply := Renewed;
      }
      workers := workers[w := workers[w].(freeAt := now)];
    }

    /** The writes of an accepted heartbeat. */
    method Extend(w: nat, j: nat, event: Event, env: Env)
      requires w < |workers| && j < |jobs|
      modifies this`workers, this`jobs
      ensures State() == AfterJobBeat(config, old(State()), w, j, event, env)
    {
      var job := jobs[j].(lastEvent := Some(event));
      job := job.(status := RUNNING, heartbeatAt := Some(env.writeAt));
      if job.startedAt.None? { job := job.(startedAt := Some(env.writeAt)); }
      job := job.(expires := Some(env.writeAt + config.leaseSeconds));
      workers := workers[w := workers[w].(lastHeartbeat := env.writeAt)];
      jobs := jobs[j := job];
    }

    method Result(w: nat, j: nat, token: nat, report: Report, env: Env, now: real) returns (reply: Reply)
      requires Valid() && w < |workers| && LegalEnv(State(), w, env, now) && ConsistentStatus(report)
      modifies this`jobs, this`attempts, this`workers, this`evaluations
      ensures Valid() && (State(), reply) == Handle(config, old(State()), SendResult(w, j, token, report), env, now)
    {
      ghost var before := State();
      ghost var (t', r') := Handle(config, before, SendResult(w, j, token, report), env, now);
      SI.RequestKeepsInv(config, before, SendResult(w, j, token, report), env, now);
      var previous := FindEvaluation(j);
      if previous.Some? { OneEvaluation(config, before, previous.value, j); }
      if j >= |jobs| || jobs[j].worker != Some(w) || jobs[j].token != Some(token) {
        reply := Error(403);
      } else if !jobs[j].status.Terminal()
          && (!jobs[j].status.Active() || jobs[j].expires.None? || jobs[j].expires.value <= env.at) {
        reply := Error(409);
      } else if previous.Some? {
        reply := Receipt(previous.value);
      } else if !jobs[j].status.Active() || jobs[j].expires.value <= env.at {
        reply := Error(409);
      } else if !env.stored {
        reply := Error(503);
      } else if jobs[j].expires.value <= env.writeAt {
        // Remote storage can stall: the lease is checked again.
        reply := Error(409);
      } else {
        SI.ResultKeepsInv(config, before, w, j, report, env, now);
        Accept(w, j, report, env, now);
        return Receipt(|evaluations| - 1);
      }
      workers := workers[w := workers[w].(freeAt := now)];
    }

    /** The writes of a result that passed every check. */
    method Accept(w: nat, j: nat, report: Report, env: Env, now: real)
      requires w < |workers| && j < |jobs|
      requires AfterResult(config, State(), w, j, report, env).Done?
      modifies this`jobs, this`attempts, this`workers, this`evaluations
      ensures var r := AfterResult(config, old(State()), w, j, report, env);
              State() == Release(r.value, w, now) && |evaluations| == old(|evaluations|) + 1
    {
      ghost var r := AfterResult(config, State(), w, j, report, env);
      var job, row := jobs[j], workers[w];
      evaluations := evaluations + [Evaluation(j, job.submission, w, report)];
      var ended := job.(status := report.status, finishedAt := Some(env.writeAt));
      ended := ended.(error := if report.failure.Some? then Some(Reported(report.failure.value)) else None);
      jobs := jobs[j := ended];
      row := row.(status := if row.status.DRAINING? then DRAINING else ONLINE);
      workers := workers[w := row.(lastHeartbeat := env.writeAt, freeAt := now)];
      if report.failure == Some(INFRASTRUCTURE_FAILURE) && job.attempt < config.maxAttempts {
        attempts := attempts[(job.submission, job.attempt + 1) := |jobs|];
        jobs := jobs + [QueuedJob(job.submission, job.attempt + 1, env.stamp)];
      }
      assert workers == Release(r.value, w, now).workers;
    }

    /** The reaper's first transaction: every expired job that nobody else has locked. */
    method ReapJobs(locked: set<nat>, stamps: seq<Stamp>, at: real, writeAt: real) returns (expired: seq<nat>)
      requires Valid() && |jobs| <= |stamps|
      modifies this`jobs, this`attempts
      ensures Valid()
      ensures expired == Selected(old(State()), locked, at, |old(jobs)|)
      ensures ReapAll(config, old(State()), expired, writeAt, stamps[..|expired|]) == Done(State())
    {
      expired := ExpiredRows(locked, at);
      SI.ReapAllKeepsInv(config, State(), expired, at, writeAt, stamps[..|expired|]);
      EndAll(expired, at, writeAt, stamps[..|expired|]);
    }

    method ExpiredRows(locked: set<nat>, at: real) returns (expired: seq<nat>)
      ensures expired == Selected(State(), locked, at, |jobs|)
    {
      expired := [];
      for i := 0 to |jobs|
        invariant expired == Selected(State(), locked, at, i)
      {
        var job := jobs[i];
        if job.status.Active() && job.expires.Some? && job.expires.value < at && i !in locked {
          expired := expired + [i];
        }
      }
    }

    method EndAll(expired: seq<nat>, ghost at: real, writeAt: real, stamps: seq<Stamp>)
      requires Valid() && |expired| == |stamps| && ReapSelection(State(), expired, at)
      modifies this`jobs, this`attempts
      ensures ReapAll(config, old(State()), expired, writeAt, stamps) == Done(State())
    {
      ghost var before := State();
      for i := 0 to |expired|
        invariant |before.jobs| <= |jobs|
        invariant ReapAll(config, before, expired[..i], writeAt, stamps[..i]) == Done(State())
      {
        ReapSplit(config, before, expired, writeAt, stamps, i);
        PrefixReaps(config, before, expired, at, writeAt, stamps, i + 1);
        End(expired[i], writeAt, stamps[i]);
      }
      assert expired[..|expired|] == expired && stamps[..|expired|] == stamps;
    }

    /** One pass of the reaper's loop. */
    method End(j: nat, writeAt: real, stamp: Stamp)
      requires j < |jobs| && ReapOne(config, State(), j, writeAt, stamp).Done?
      modifies this`jobs, this`attempts
      ensures ReapOne(config, old(State()), j, writeAt, stamp) == Done(State())
    {
      var job := jobs[j].(status := if jobs[j].attempt >= config.maxAttempts then FAILED else TIMEOUT);
      job := job.(finishedAt := Some(writeAt));
      job := job.(error := Some(LeaseExpired));
      jobs := jobs[j := job];
      if job.attempt < config.maxAttempts {
        attempts := attempts[(job.submission, job.attempt + 1) := |jobs|];
        jobs := jobs + [QueuedJob(job.submission, job.attempt + 1, stamp)];
      }
    }

    /** Its second transaction, after the job locks are released. */
    method MarkSilent(locked: set<nat>, at: real, now: real) returns (offline: set<nat>)
      requires Valid() && at <= now
      requires forall w | 0 <= w < |workers| :: w !in locked ==> workers[w].freeAt <= at
      modifies this`workers
      ensures Valid()
      ensures offline == SilentRows(config, old(State()), locked, at)
      ensures State() == MarkOffline(old(State()), offline, now)
    {
      ghost var before := State();
      offline := {};
      for w := 0 to |workers|
        invariant forall v: nat :: v in offline <==> v < w && Silent(config, before, v, at) && v !in locked
      {
        if workers[w].lastHeartbeat < at - config.offlineSeconds && workers[w].status in {ONLINE, BUSY}
            && w !in locked {
          offline := offline + {w};
        }
      }
      SI.StepKeepsInv(config, before, OpOffline(offline, at), now);
      ghost var settled := MarkOffline(before, offline, now);
      for w := 0 to |workers|
        invariant State() == before.(workers := workers) && |workers| == |before.workers|
        invariant forall v | 0 <= v < w :: workers[v] == settled.workers[v]
        invariant forall v | w <= v < |workers| :: workers[v] == before.workers[v]
      {
        if w in offline { workers := workers[w := workers[w].(status := OFFLINE, freeAt := now)]; }
      }
      assert workers == settled.workers;
    }

    method Reap(lockedJobs: set<nat>, lockedWorkers: set<nat>, stamps: seq<Stamp>, at: real, writeAt: real,
                later: real, now: real)
      returns (expired: seq<nat>, offline: set<nat>)
      requires Valid() && |jobs| <= |stamps| && at <= writeAt <= later <= now
      requires forall w | 0 <= w < |workers| :: w !in lockedWorkers ==> workers[w].freeAt <= later
      modifies this`jobs, this`attempts, this`workers
      ensures Valid() && expired == Selected(old(State()), lockedJobs, at, |old(jobs)|)
      ensures var r := ReapAll(config, old(State()), expired, writeAt, stamps[..|expired|]);
              && r.Done?
              && offline == SilentRows(config, r.value, lockedWorkers, later)
              && State() == MarkOffline(r.value, offline, now)
    {
      expired := ReapJobs(lockedJobs, stamps, at, writeAt);
      offline := MarkSilent(lockedWorkers, later, now);
    }
  }

  lemma PrefixReaps(c: Config, t: Tables, expired: seq<nat>, at: real, writeAt: real, stamps: seq<Stamp>, k: nat)
    requires SI.Inv(c, t) && k <= |expired| == |stamps| && ReapSelection(t, expired, at)
    ensures ReapAll(c, t, expired[..k], writeAt, stamps[..k]).Done?
  {
    SI.ReapAllKeepsInv(c, t, expired[..k], at, writeAt, stamps[..k]);
  }

  /** The evaluation of a job is unique. */
  lemma OneEvaluation(c: Config, t: Tables, e: nat, j: nat)
    requires SI.Inv(c, t) && EvaluationOf(t, e, j)
    ensures forall d: nat | EvaluationOf(t, d, j) :: d == e
    ensures j < |t.jobs| && t.jobs[j].status.Terminal()
  {
  }
}
