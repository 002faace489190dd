/** The dashboard's summary (`dashboard` in main.py) against the whole jobs table. */
module Dashboard {
  import opened Records
  import opened Server
  import SI = ServerInvariant
  import SR = ServerRuns

  /** The rows in the order of the query: attempts descending, ties in any order. */
  predicate ByAttempt(jobs: seq<Job>, order: seq<nat>) {
    && (forall i | 0 <= i < |jobs| :: i in order)
    && (forall k | 0 <= k < |order| :: order[k] < |jobs|)
    && (forall k, l | 0 <= k < l < |order| :: order[k] != order[l] && jobs[order[k]].attempt >= jobs[order[l]].attempt)
  }

  /** One row for each submission that has any, the one of its latest attempt. */
  predicate Latest(jobs: seq<Job>, current: seq<nat>) {
    && (forall k | 0 <= k < |current| :: current[k] < |jobs|)
    && (forall k, l | 0 <= k < l < |current| :: jobs[current[k]].submission != jobs[current[l]].submission)
    && (forall i: nat | i < |jobs| :: Shown(jobs, current, i))
  }

  /** The submission of row `i` is shown, by a row of the same or a later attempt. */
  predicate Shown(jobs: seq<Job>, current: seq<nat>, i: nat) {
    exists k :: 0 <= k < |current| && Supersedes(jobs, current[k], i)
  }

  predicate Supersedes(jobs: seq<Job>, k: nat, i: nat) {
    k < |jobs| && i < |jobs| && jobs[k].submission == jobs[i].submission && jobs[k].attempt >= jobs[i].attempt
  }

  function CountIf(jobs: seq<Job>, rows: seq<nat>, p: JobStatus -> bool): nat
    requires forall k | 0 <= k < |rows| :: rows[k] < |jobs|
  {
    if rows == [] then 0
    else CountIf(jobs, rows[..|rows| - 1], p) + (if p(jobs[rows[|rows| - 1]].status) then 1 else 0)
  }

  datatype Summary = Summary(total: nat, completed: nat, running: nat, queued: nat, failed: nat, successRate: real)

  const IS_COMPLETED := (s: JobStatus) => s.COMPLETED?
  const IS_RUNNING := (s: JobStatus) => s.Active()
  const IS_QUEUED := (s: JobStatus) => s.QUEUED?
  const IS_FAILED := (s: JobStatus) => s.FAILED? || s.TIMEOUT?

  method Summarize(jobs: seq<Job>, order: seq<nat>) returns (r: Summary, current: seq<nat>)
    requires ByAttempt(jobs, order)
    ensures Latest(jobs, current)
    ensures r.total == |current|
    ensures r.completed == CountIf(jobs, current, IS_COMPLETED) && r.running == CountIf(jobs, current, IS_RUNNING)
    ensures r.queued == CountIf(jobs, current, IS_QUEUED) && r.failed == CountIf(jobs, current, IS_FAILED)
    ensures r.successRate
         == if r.completed + r.failed > 0 then r.completed as real / (r.completed + r.failed) as real else 0.0
  {
    current := LatestRows(jobs, order);
    var completed := Tally(jobs, current, IS_COMPLETED);
    var failed := Tally(jobs, current, IS_FAILED);
    var running := Tally(jobs, current, IS_RUNNING);
    var queued := Tally(jobs, current, IS_QUEUED);
    r := Summary(|current|, completed, running, queued, failed,
                 if completed + failed > 0 then completed as real / (completed + failed) as real else 0.0);
  }

  method LatestRows(jobs: seq<Job>, order: seq<nat>) returns (current: seq<nat>)
    requires ByAttempt(jobs, order)
    ensures Latest(jobs, current)
  {
    var latest: map<nat, nat> := map[];
    current := [];
    for k := 0 to |order|
      invariant forall m | 0 <= m < |current| :: current[m] < |jobs|
      invariant forall s | s in latest :: latest[s] < |current| && jobs[current[latest[s]]].submission == s
      invariant forall m | 0 <= m < |current| ::
                  jobs[current[m]].submission in latest && latest[jobs[current[m]].submission] == m
      invariant forall m, l | 0 <= m < |current| && k <= l < |order| ::
                jobs[current[m]].attempt >= jobs[order[l]].attempt
      invariant forall m | 0 <= m < k :: Covered(jobs, current, latest, order[m])
    {
      var job := jobs[order[k]];
      if job.submission !in latest {
        latest := latest[job.submission := |current|];
        current := current + [order[k]];
      }
      assert Covered(jobs, current, latest, order[k]);
    }
    forall i: nat | i < |jobs| ensures Shown(jobs, current, i) {
      assert i in order;
      assert Covered(jobs, current, latest, i);
      assert Supersedes(jobs, current[latest[jobs[i].submission]], i);
    }
  }

  /** The row chosen for the submission of row `i` supersedes it. */
  predicate Covered(jobs: seq<Job>, current: seq<nat>, latest: map<nat, nat>, i: nat) {
    && i < |jobs| && jobs[i].submission in latest && latest[jobs[i].submission] < |current|
    && Supersedes(jobs, current[latest[jobs[i].submission]], i)
  }

  method Tally(jobs: seq<Job>, rows: seq<nat>, p: JobStatus -> bool) returns (n: nat)
    requires forall k | 0 <= k < |rows| :: rows[k] < |jobs|
    ensures n == CountIf(jobs, rows, p)
  {
    n := 0;
    for k := 0 to |rows|
      invariant n == CountIf(jobs, rows[..k], p)
    {
      assert rows[..k + 1][..k] == rows[..k];
      if p(jobs[rows[k]].status) { n := n + 1; }
    }
    assert rows[..|rows|] == rows;
  }

  // ---------------------------------------------------------------- agreement with the table

  /** All rows ever created whose status satisfies `p`. */
  function AllWith(jobs: seq<Job>, p: JobStatus -> bool): set<nat> {
    set i: nat | i < |jobs| && p(jobs[i].status)
  }

  /** All rows ever created that are in one of these states. */
  function JobsIn(jobs: seq<Job>, states: set<JobStatus>): set<nat> {
    set i: nat | i < |jobs| && jobs[i].status in states
  }

  lemma ShownStates(jobs: seq<Job>)
    ensures JobsIn(jobs, {COMPLETED}) == AllWith(jobs, IS_COMPLETED)
    ensures JobsIn(jobs, {CLAIMED, RUNNING}) == AllWith(jobs, IS_RUNNING)
    ensures JobsIn(jobs, {QUEUED}) == AllWith(jobs, IS_QUEUED)
  {
  }

  function Chosen(jobs: seq<Job>, rows: seq<nat>, p: JobStatus -> bool): set<nat> {
    set i: nat | i in rows && i < |jobs| && p(jobs[i].status)
  }

  lemma {:induction false} CountIsSize(jobs: seq<Job>, rows: seq<nat>, p: JobStatus -> bool)
    requires forall k | 0 <= k < |rows| :: rows[k] < |jobs|
    requires forall k, l | 0 <= k < l < |rows| :: rows[k] != rows[l]
    ensures CountIf(jobs, rows, p) == |Chosen(jobs, rows, p)|
  {
    if rows == [] {
      assert Chosen(jobs, rows, p) == {};
    } else {
      var front, last := rows[..|rows| - 1], rows[|rows| - 1];
      CountIsSize(jobs, front, p);
      assert rows == front + [last];
      assert last !in front;
      var added: set<nat> := if p(jobs[last].status) then {last} else {};
      assert Chosen(jobs, rows, p) == Chosen(jobs, front, p) + added;
    }
  }

  /** A row that is not of its submission's latest attempt was cut short by the
      infrastructure: it has failed or timed out. */
  lemma SupersededHasFailed(c: Config, t: Tables, i: nat, k: nat)
    requires SI.Inv(c, t) && Supersedes(t.jobs, k, i) && i != k
    ensures t.jobs[i].status.FAILED? || t.jobs[i].status.TIMEOUT?
  {
    SR.RowIsIndexed(c, t, i);
    SR.RowIsIndexed(c, t, k);
    var s, a, b := t.jobs[i].submission, t.jobs[i].attempt, t.jobs[k].attempt;
    assert t.attempts[SI.Key(t.jobs[i])] == i && t.attempts[SI.Key(t.jobs[k])] == k;
    SR.LowerAttemptsExist(c, t, s, a, b);
    assert SI.RowOk(c, t, t.jobs[i]);
  }

  lemma CurrentCountsAll(c: Config, t: Tables, current: seq<nat>, p: JobStatus -> bool)
    requires SI.Inv(c, t) && Latest(t.jobs, current) && !p(FAILED) && !p(TIMEOUT)
    ensures CountIf(t.jobs, current, p) == |AllWith(t.jobs, p)|
  {
    CountIsSize(t.jobs, current, p);
    forall i: nat | i in AllWith(t.jobs, p) ensures i in current {
      assert Shown(t.jobs, current, i);
      var k :| 0 <= k < |current| && Supersedes(t.jobs, current[k], i);
      if current[k] != i { SupersededHasFailed(c, t, i, current[k]); }
    }
    assert Chosen(t.jobs, current, p) == AllWith(t.jobs, p);
  }

  lemma {:induction false} CountsPartition(jobs: seq<Job>, rows: seq<nat>)
    requires forall k | 0 <= k < |rows| :: rows[k] < |jobs|
    ensures CountIf(jobs, rows, IS_COMPLETED) + CountIf(jobs, rows, IS_RUNNING) + CountIf(jobs, rows, IS_QUEUED)
          + CountIf(jobs, rows, IS_FAILED) == |rows|
  {
    if rows != [] { CountsPartition(jobs, rows[..|rows| - 1]); }
  }

  function Submissions(jobs: seq<Job>, rows: seq<nat>): set<nat>
    requires forall k | 0 <= k < |rows| :: rows[k] < |jobs|
  {
    if rows == [] then {} else Submissions(jobs, rows[..|rows| - 1]) + {jobs[rows[|rows| - 1]].submission}
  }

  predicate HasRow(jobs: seq<Job>, rows: seq<nat>, s: nat) {
    exists k :: 0 <= k < |rows| && rows[k] < |jobs| && jobs[rows[k]].submission == s
  }

  lemma {:induction false} SubmissionHasRow(jobs: seq<Job>, rows: seq<nat>, s: nat)
    requires forall k | 0 <= k < |rows| :: rows[k] < |jobs|
    ensures s in Submissions(jobs, rows) <==> HasRow(jobs, rows, s)
  {
    if rows != [] {
      var front := rows[..|rows| - 1];
      SubmissionHasRow(jobs, front, s);
      if HasRow(jobs, front, s) {
        var k :| 0 <= k < |front| && front[k] < |jobs| && jobs[front[k]].submission == s;
        assert rows[k] == front[k];
      } else if HasRow(jobs, rows, s) {
        var k :| 0 <= k < |rows| && rows[k] < |jobs| && jobs[rows[k]].submission == s;
        assert k < |front| ==> front[k] == rows[k];
      }
    }
  }

  lemma {:induction false} SubmissionsAreAsMany(jobs: seq<Job>, rows: seq<nat>)
    requires forall k | 0 <= k < |rows| :: rows[k] < |jobs|
    requires forall k, l | 0 <= k < l < |rows| :: jobs[rows[k]].submission != jobs[rows[l]].submission
    ensures |Submissions(jobs, rows)| == |rows|
  {
    if rows != [] {
      var front, s := rows[..|rows| - 1], jobs[rows[|rows| - 1]].submission;
      SubmissionsAreAsMany(jobs, front);
      SubmissionHasRow(jobs, front, s);
      assert !HasRow(jobs, front, s);
    }
  }

  /** The dashboard agrees with the table in every reachable state: its four counts
      partition the submissions, and what it shows as completed, running and queued are all
      the jobs there are in those states, in any attempt. */
  lemma DashboardAgrees(c: Config, steps: seq<SR.Timed>, t: Tables, current: seq<nat>)
    requires ValidConfig(c) && SR.Reaches(c, EMPTY, steps, t) && Latest(t.jobs, current)
    ensures |current| == |t.submissions|
    ensures CountIf(t.jobs, current, IS_COMPLETED) + CountIf(t.jobs, current, IS_RUNNING)
          + CountIf(t.jobs, current, IS_QUEUED) + CountIf(t.jobs, current, IS_FAILED) == |t.submissions|
    ensures CountIf(t.jobs, current, IS_COMPLETED) == |JobsIn(t.jobs, {COMPLETED})|
    ensures CountIf(t.jobs, current, IS_RUNNING) == |JobsIn(t.jobs, {CLAIMED, RUNNING})|
    ensures CountIf(t.jobs, current, IS_QUEUED) == |JobsIn(t.jobs, {QUEUED})|
  {
    SR.RunKeepsInv(c, EMPTY, steps, t);
    CurrentCountsAll(c, t, current, IS_COMPLETED);
    CurrentCountsAll(c, t, current, IS_RUNNING);
    CurrentCountsAll(c, t, current, IS_QUEUED);
    CountsPartition(t.jobs, current);
    EverySubmissionIsShown(c, t, current);
    ShownStates(t.jobs);
  }

  lemma EverySubmissionIsShown(c: Config, t: Tables, current: seq<nat>)
    requires SI.Inv(c, t) && Latest(t.jobs, current)
    ensures |current| == |t.submissions|
  {
    SubmissionsAreAsMany(t.jobs, current);
    forall s: nat ensures s in Submissions(t.jobs, current) <==> s < |t.submissions| {
      SubmissionHasRow(t.jobs, current, s);
      if s < |t.submissions| {
        FirstAttemptIsShown(c, t, current, s);
      }
      RowsAreOfSubmissions(c, t, current, s);
    }
    assert Submissions(t.jobs, current) == Below(|t.submissions|);
  }

  lemma RowsAreOfSubmissions(c: Config, t: Tables, current: seq<nat>, s: nat)
    requires SI.Rows(c, t)
    ensures HasRow(t.jobs, current, s) ==> s < |t.submissions|
  {
  }

  lemma FirstAttemptIsShown(c: Config, t: Tables, current: seq<nat>, s: nat)
    requires SI.Indexed(t) && SI.Chained(c, t) && Latest(t.jobs, current) && s < |t.submissions|
    ensures HasRow(t.jobs, current, s)
  {
    assert (s, 1) in t.attempts;
    var i := t.attempts[(s, 1)];
    assert SI.Key(t.jobs[i]) == (s, 1) && Shown(t.jobs, current, i);
    var k :| 0 <= k < |current| && Supersedes(t.jobs, current[k], i);
    assert t.jobs[current[k]].submission == s;
  }

  // ---------------------------------------------------------------- workers shown as offline

  /** When leases are no longer than the silence after which workers are given up, a worker
      that the reaper marks offline holds no lease that has not expired. */
  lemma OfflineHoldsNoLease(c: Config, steps: seq<SR.Timed>, t: Tables, w: nat, i: nat, at: real)
    requires ValidConfig(c) && c.leaseSeconds <= c.offlineSeconds && SR.Reaches(c, EMPTY, steps, t)
    requires Silent(c, t, w, at) && i < |t.jobs| && Owns(t.jobs[i], w)
    ensures Expired(t, i, at)
  {
    SR.RunKeepsInv(c, EMPTY, steps, t);
    assert SI.RowOk(c, t, t.jobs[i]) && SI.LeaseOk(c, t, t.jobs[i]);
  }

  /** The reaper's second transaction is about to mark a worker whose lease still runs. */
  ghost predicate MarksLeaseholder(c: Config, t: Tables, offline: set<nat>, at: real, now: real) {
    && Legal(c, t, OpOffline(offline, at), now)
    && var t' := Apply(c, t, OpOffline(offline, at), now);
       exists w: nat, i: nat :: w in offline && OfflineWithLease(t', w, i, at)
  }

  predicate OfflineWithLease(t: Tables, w: nat, i: nat, at: real) {
    && w < |t.workers| && t.workers[w].status.OFFLINE?
    && i < |t.jobs| && Owns(t.jobs[i], w) && LeaseLive(t.jobs[i], at)
  }

  /** When leases are longer, a worker can be marked offline while its lease still runs. */
  lemma LongLeaseOutlivesOffline(c: Config, stamp: Stamp) returns (steps: seq<SR.Timed>, t: Tables, at: real)
    requires ValidConfig(c) && c.leaseSeconds > c.offlineSeconds
    ensures SR.Reaches(c, EMPTY, steps, t) && MarksLeaseholder(c, t, {0}, at, at)
  {
    var env := Env(0.0, 0.0, {}, Some(0), false, stamp, true);
    var submit, claim := OpSubmit(0, [0], [stamp]), OpRequest(ClaimJob(0), env);
    var t1 := Apply(c, EMPTY, submit, 0.0);
    SubmitOne(stamp);
    var t2 := Apply(c, t1, OpRegister, 0.0);
    assert t2.jobs == [QueuedJob(0, 1, stamp)] && t2.workers == [Worker(ONLINE, 0.0, 0.0)];
    assert Picks(t2.jobs, {}, Some(0)) && !HasActiveJob(t2, 0);
    t := Apply(c, t2, claim, 0.0);
    at := (c.leaseSeconds + c.offlineSeconds) / 2.0;
    steps := [SR.Timed(submit, 0.0), SR.Timed(OpRegister, 0.0), SR.Timed(claim, 0.0)];
    ThreeSteps(c, steps[0], steps[1], steps[2]);
    assert Silent(c, t, 0, at) && 0 < |t.workers|;
    assert Legal(c, t, OpOffline({0}, at), at);
    assert OfflineWithLease(Apply(c, t, OpOffline({0}, at), at), 0, 0, at);
    assert 0 in {0};
  }

  /** A run from empty tables comes to such a mark. */
  ghost predicate CanMark(c: Config, steps: seq<SR.Timed>, t: Tables, offline: set<nat>, at: real, now: real) {
    SR.Reaches(c, EMPTY, steps, t) && MarksLeaseholder(c, t, offline, at, now)
  }

  /** Some run marks a worker offline while its lease runs, if and only if leases are longer
      than the offline interval. */
  lemma OfflineIff(c: Config)
    requires ValidConfig(c)
    ensures (exists steps, t, offline, at, now :: CanMark(c, steps, t, offline, at, now))
       <==> c.leaseSeconds > c.offlineSeconds
  {
    if c.leaseSeconds > c.offlineSeconds {
      var steps, t, at := LongLeaseOutlivesOffline(c, Stamp(0.0, 0));
      assert CanMark(c, steps, t, {0}, at, at);
    } else {
      forall steps, t, offline, at, now | CanMark(c, steps, t, offline, at, now) ensures false {
        forall w, i: nat | w in offline && i < |t.jobs| && Owns(t.jobs[i], w) ensures !LeaseLive(t.jobs[i], at) {
          OfflineHoldsNoLease(c, steps, t, w, i, at);
        }
      }
    }
  }

  lemma SubmitOne(stamp: Stamp)
    ensures SubmitAll(EMPTY, 0, [0], [stamp])
         == Done(Tables([Submission(0, 0)], [QueuedJob(0, 1, stamp)], map[(0, 1) := 0], [], [], 0))
  {
    assert [0][1..] == [] && [stamp][1..] == [];
    var t1 := Tables([Submission(0, 0)], [QueuedJob(0, 1, stamp)], map[(0, 1) := 0], [], [], 0);
    var t0 := EMPTY.(submissions := [Submission(0, 0)]);
    assert EMPTY.submissions + [Submission(0, 0)] == [Submission(0, 0)]
        && EMPTY.jobs + [QueuedJob(0, 1, stamp)] == [QueuedJob(0, 1, stamp)];
    assert (0, 1) !in EMPTY.attempts && EMPTY.attempts[(0, 1) := 0] == map[(0, 1) := 0];
    assert InsertJob(t0, 0, 1, stamp) == Done(t1);
    assert InsertJob(EMPTY.(submissions := EMPTY.submissions + [Submission(0, 0)]), 0, 1, stamp) == Done(t1);
    assert SubmitAll(t1, 0, [], []) == Done(t1);
  }

  lemma ThreeSteps(c: Config, a: SR.Timed, b: SR.Timed, d: SR.Timed)
    requires Legal(c, EMPTY, a.op, a.now)
    requires var t1 := Apply(c, EMPTY, a.op, a.now);
             Legal(c, t1, b.op, b.now) && Legal(c, Apply(c, t1, b.op, b.now), d.op, d.now)
    ensures var t1 := Apply(c, EMPTY, a.op, a.now);
            var t2 := Apply(c, t1, b.op, b.now);
            SR.Reaches(c, EMPTY, [a, b, d], Apply(c, t2, d.op, d.now))
  {
    var t1 := Apply(c, EMPTY, a.op, a.now);
    var t2 := Apply(c, t1, b.op, b.now);
    var t3 := Apply(c, t2, d.op, d.now);
    assert SR.Reaches(c, t3, [], t3);
    assert [d][1..] == [] && [b, d][1..] == [d] && [a, b, d][1..] == [b, d];
    assert SR.Reaches(c, t2, [d], t3);
    assert SR.Reaches(c, t1, [b, d], t3);
  }
}
