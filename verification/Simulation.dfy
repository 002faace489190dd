/** The virtual-time capacity model (`simulate` in simulate_worker_load.py), run on the
    idle schedule under its default settings. */
module Simulation {
  import opened Scheduling

  /** One worker-day of virtual time, in seconds. */
  const DAY := 18000.0

  const POLL_MIN := 5.0
  const POLL_MAX := 30.0
  const HEARTBEAT := 45.0
  const JOB_SECONDS := 60.0

  datatype Totals = Totals(
    http: nat, sql: nat, transactions: nat, redis: nat,
    heartbeats: nat, claims: nat, empties: nat,
    executions: nat, results: nat, writes: nat, renewals: nat)

  /** The source's `Counter`. */
  class Counts {
    var all: Totals

    constructor ()
      ensures all == Totals(0, 0, 0, 0, 0, 0, 0, 0, 0, 0, 0)
    {
      all := Totals(0, 0, 0, 0, 0, 0, 0, 0, 0, 0, 0);
    }

    method Request(sql: nat, commits: nat, redis: nat)
      modifies this
      ensures all == old(all).(http := old(all).http + 1, sql := old(all).sql + sql,
                               transactions := old(all).transactions + commits, redis := old(all).redis + redis)
    {
      all := all.(http := all.http + 1, sql := all.sql + sql,
                  transactions := all.transactions + commits, redis := all.redis + redis);
    }
  }

  // ---------------------------------------------------------------- what should be counted

  /** The numbers of a run from which everything else follows: registrations, shutdowns,
      idle heartbeats and those of them that are published, empty claims, and jobs. */
  datatype Census = Census(registrations: nat, shutdowns: nat, beats: nat, published: nat, empties: nat, jobs: nat)

  function Renewals(n: Census): nat { 7 * n.jobs }

  function Beats(n: Census): nat { n.beats + n.shutdowns }

  /** Every request is one of seven kinds, and each kind has its cost. */
  function Bill(before: bool, n: Census): Totals {
    Totals(
      n.registrations + Beats(n) + n.empties + 3 * n.jobs + Renewals(n),
      if before then n.registrations + 4 * Beats(n) + 6 * n.empties + 29 * n.jobs + 5 * Renewals(n)
      else n.registrations + 3 * Beats(n) + 3 * n.empties + 24 * n.jobs + 4 * Renewals(n),
      if before then n.registrations + Beats(n) + 3 * n.empties + 5 * n.jobs + Renewals(n)
      else n.registrations + Beats(n) + n.empties + 3 * n.jobs + Renewals(n),
      if before then n.registrations + Beats(n) + 4 * n.jobs + Renewals(n)
      else n.registrations + n.shutdowns + n.published + 9 * n.jobs,
      n.beats, n.empties + n.jobs, n.empties, n.jobs, n.jobs, 6 * n.jobs, Renewals(n))
  }

  // ---------------------------------------------------------------- time

  /** How many more events at least `gap` apart fit before the end of the day. */
  function Left(at: real, gap: real): nat
    requires gap > 0.0
  {
    if at >= DAY then 0 else ((DAY - at) / gap).Floor + 1
  }

  lemma LaterLeavesLess(at: real, at': real, gap: real)
    requires gap > 0.0 && at <= at'
    ensures Left(at', gap) <= Left(at, gap)
    ensures at < DAY && at + gap <= at' ==> Left(at', gap) < Left(at, gap)
  {
    if at' < DAY {
      QuotientOrder(DAY - at', DAY - at, gap);
      if at + gap <= at' {
        QuotientOrder(DAY - at' + gap, DAY - at, gap);
        assert gap / gap == 1.0;
        assert (DAY - at' + gap) / gap == (DAY - at') / gap + gap / gap;
      }
    }
  }

  lemma QuotientOrder(a: real, b: real, gap: real)
    requires gap > 0.0 && a <= b
    ensures a / gap <= b / gap
  {
    assert b / gap - a / gap == (b - a) / gap;
  }

  /** When the next claim can be made, on the schedule. */
  function NextClaim(t: real, nextPoll: real): real { Max(t, nextPoll) }

  /** Ends the day: polls and heartbeats that are left, and whether the next thing to do
      is to wait. */
  function Measure(t: real, nextPoll: real, nextHeartbeat: real): nat {
    2 * (Left(NextClaim(t, nextPoll), POLL_MIN) + Left(nextHeartbeat, 0.9 * HEARTBEAT))
    + (if t < nextPoll && t < nextHeartbeat then 1 else 0)
  }

  /** The time between two arrivals of jobs. */
  function Interval(rate: nat): real
    requires rate > 0
  {
    3600.0 / rate as real
  }

  predicate Arrived(rate: nat, completed: nat, t: real)
    requires rate > 0
  {
    t >= (completed * 3600) as real / rate as real
  }

  /** A job is waiting to be claimed: there is one left for the day, and it has arrived. */
  predicate Waiting(rate: nat, completed: nat, t: real) {
    rate > 0 && completed < 5 * rate && Arrived(rate, completed, t)
  }

  lemma SmallerProduct(r: real, i: real, bound: real)
    requires 0.0 < r <= bound && i < bound && bound > 0.0
    ensures r * i < bound * bound
  {
    if i > 0.0 {
      assert (bound - r) * i >= 0.0;
      assert bound * i < bound * bound;
    } else {
      assert r * i <= 0.0;
    }
  }

  lemma ArrivalTimes(rate: nat, completed: nat)
    requires rate > 0
    ensures (completed * 3600) as real / rate as real == completed as real * Interval(rate)
    ensures (5 * rate) as real * Interval(rate) == DAY
    ensures rate <= 60 ==> Interval(rate) >= 60.0
  {
    var r, i := rate as real, 3600.0 / rate as real;
    assert r * i == 3600.0;
    assert completed as real * (3600.0 / r) == (completed as real * 3600.0) / r;
    assert (5 * rate) as real * i == 5.0 * (r * i);
    if rate <= 60 && i < 60.0 {
      SmallerProduct(r, i, 60.0);
    }
  }

  /** While jobs are left, the next claim comes at most `slack` after the next job's arrival. */
  predicate InTime(rate: nat, completed: nat, next: real, slack: real) {
    0 < rate <= 60 && completed < 5 * rate ==> next <= completed as real * Interval(rate) + slack
  }

  lemma StartsInTime(rate: nat, t: real)
    requires t <= POLL_MAX
    ensures InTime(rate, 0, t, POLL_MAX)
  {
    if rate > 0 { assert 0.0 * Interval(rate) == 0.0; }
  }

  /** Sleeping until the next poll or heartbeat uses up a heartbeat that was due or the
      wait itself. */
  lemma WaitingProgresses(t: real, poll: real, beat: real, t': real, beat': real)
    requires t < DAY && t < poll && t < beat' && t' == Min(poll, beat')
    requires beat' == beat || (t >= beat && beat' >= t + 0.9 * HEARTBEAT)
    ensures Measure(t', poll, beat') < Measure(t, poll, beat)
  {
    LaterLeavesLess(beat, beat', 0.9 * HEARTBEAT);
  }

  /** A claim uses up a poll. */
  lemma ClaimingProgresses(t: real, poll: real, beat: real, t': real, poll': real, beat': real)
    requires poll <= t < DAY && beat <= beat'
    requires NextClaim(t', poll') >= t + POLL_MIN
    requires t' >= poll' || t' >= beat'
    ensures Measure(t', poll', beat') < Measure(t, poll, beat)
  {
    LaterLeavesLess(NextClaim(t, poll), NextClaim(t', poll'), POLL_MIN);
    LaterLeavesLess(beat, beat', 0.9 * HEARTBEAT);
  }

  /** A claim that finds nothing came before the next arrival, so the next one is in time. */
  lemma NotYet(rate: nat, completed: nat, t: real, next: real)
    requires !Waiting(rate, completed, t) && next <= t + POLL_MAX
    ensures InTime(rate, completed, next, POLL_MAX)
  {
    if rate > 0 { ArrivalTimes(rate, completed); }
  }

  lemma StaysInTime(rate: nat, completed: nat, next: real, next': real, slack: real)
    requires InTime(rate, completed, next, slack) && rate > 0 && slack >= 0.0
    requires next' <= next + JOB_SECONDS
    ensures InTime(rate, completed + 1, next', slack)
  {
    ArrivalTimes(rate, completed);
    if rate <= 60 {
      assert (completed + 1) as real * Interval(rate) == completed as real * Interval(rate) + Interval(rate);
    }
  }

  /** The day is long enough for all its jobs. */
  lemma AllDone(rate: nat, completed: nat, next: real, slack: real)
    requires InTime(rate, completed, next, slack) && slack < 60.0
    requires next >= DAY && completed <= 5 * rate
    ensures rate <= 60 ==> completed == 5 * rate
  {
    if 0 < rate <= 60 {
      ArrivalTimes(rate, completed);
      TimesInterval(completed, 5 * rate, Interval(rate));
    }
  }

  lemma TimesInterval(a: nat, b: nat, i: real)
    requires i >= 0.0
    ensures a < b ==> a as real * i <= b as real * i - i
  {
    if a < b {
      assert (b - 1 - a) as real * i >= 0.0;
      assert b as real * i - i - a as real * i == (b - 1 - a) as real * i;
    }
  }

  // ---------------------------------------------------------------- one day

  /** What one worker does in one day. */
  predicate DayCensus(before: bool, rate: nat, firstDay: bool, n: Census, n': Census) {
    && n'.registrations == n.registrations && n'.shutdowns == n.shutdowns + 1
    && n.beats < n'.beats && n.empties <= n'.empties && n.jobs <= n'.jobs
    && n'.published == n.published + (if firstDay then 0 else 1)
    && n'.jobs - n.jobs <= 300
    && n'.jobs - n.jobs <= 5 * rate
    && (rate <= 60 ==> n'.jobs - n.jobs == 5 * rate)
    // Before the change, every pass sends a heartbeat and claims, five seconds after an empty claim.
    && (before ==> n'.beats - n.beats == n'.empties - n.empties + n'.jobs - n.jobs)
    && (before && rate == 0 ==> n'.empties - n.empties == 3600)
    // After it, an idle worker sends 400 to 445 heartbeats and 600 to 753 claims a day.
    && (!before && rate == 0 ==> 400 <= n'.beats - n.beats <= 445 && 600 <= n'.empties - n.empties <= 753)
  }

  method Enroll(counts: Counts, before: bool, ghost n: Census)
    requires counts.all == Bill(before, n)
    modifies counts
    ensures counts.all == Bill(before, n.(registrations := n.registrations + 1))
  {
    counts.Request(1, 1, 1);
  }

  method ShutDown(counts: Counts, before: bool, ghost n: Census)
    requires counts.all == Bill(before, n)
    modifies counts
    ensures counts.all == Bill(before, n.(shutdowns := n.shutdowns + 1))
  {
    counts.Request(if before then 4 else 3, 1, 1);
  }

  /** An idle heartbeat; it is published when it brings a worker back. */
  method Beat(counts: Counts, before: bool, back: bool, ghost n: Census)
    requires counts.all == Bill(before, n)
    modifies counts
    ensures counts.all == Bill(before, n.(beats := n.beats + 1, published := n.published + if back then 1 else 0))
  {
    counts.Request(if before then 4 else 3, 1, if before || back then 1 else 0);
    counts.all := counts.all.(heartbeats := counts.all.heartbeats + 1);
  }

  method EmptyClaim(counts: Counts, before: bool, ghost n: Census)
    requires counts.all == Bill(before, n)
    modifies counts
    ensures counts.all == Bill(before, n.(empties := n.empties + 1))
  {
    counts.all := counts.all.(claims := counts.all.claims + 1);
    counts.Request(if before then 6 else 3, if before then 3 else 1, 0);
    counts.all := counts.all.(empties := counts.all.empties + 1);
  }

  /** The seven lease calls of a job: five for its stages, which are published, and two. */
  method LeaseCalls(counts: Counts, before: bool)
    modifies counts
    ensures var was := old(counts.all);
            counts.all == was.(http := was.http + 7, sql := was.sql + (if before then 35 else 28),
                               transactions := was.transactions + 7, redis := was.redis + (if before then 7 else 5),
                               renewals := was.renewals + 7)
  {
    ghost var was := counts.all;
    for renewal := 0 to 7
      invariant counts.all == was.(http := was.http + renewal,
                                   sql := was.sql + (if before then 5 * renewal else 4 * renewal),
                                   transactions := was.transactions + renewal,
                                   redis := was.redis + (if before || renewal < 5 then renewal else 5),
                                   renewals := was.renewals + renewal)
    {
      counts.Request(if before then 5 else 4, 1, if before || renewal < 5 then 1 else 0);
      counts.all := counts.all.(renewals := counts.all.renewals + 1);
    }
  }

  /** A claimed job: the download of its agent, seven lease calls and the result. */
  method Job(counts: Counts, before: bool, ghost n: Census)
    requires counts.all == Bill(before, n)
    modifies counts
    ensures counts.all == Bill(before, n.(jobs := n.jobs + 1))
  {
    counts.all := counts.all.(claims := counts.all.claims + 1);
    counts.Request(if before then 11 else 8, if before then 3 else 1, 2);
    counts.Request(if before then 5 else 4, 1, 0);
    LeaseCalls(counts, before);
    counts.Request(if before then 13 else 12, 1, 2);
    counts.all := counts.all.(results := counts.all.results + 1, writes := counts.all.writes + 6,
                              executions := counts.all.executions + 1);
  }

  /** When the next claim can be made; before the idle schedule, on every pass. */
  function Next(before: bool, t: real, schedule: IdleSchedule): real
    reads schedule
  {
    if before then t else NextClaim(t, schedule.nextPoll)
  }

  predicate Defaults(schedule: IdleSchedule) {
    schedule.minimum == POLL_MIN && schedule.maximum == POLL_MAX && schedule.heartbeatInterval == HEARTBEAT
  }

  method HeartbeatIfDue(counts: Counts, schedule: IdleSchedule, before: bool, day: nat, t: real, first: bool,
                        ghost n: Census)
    returns (first': bool, ghost n': Census)
    requires schedule.Valid() && Defaults(schedule) && counts.all == Bill(before, n)
    modifies counts, schedule`nextHeartbeat
    ensures schedule.Valid() && counts.all == Bill(before, n')
    ensures var sent := before || old(schedule.HeartbeatDue(t));
            && first' == (first && !sent)
            && n' == (if sent then n.(beats := n.beats + 1,
                                      published := n.published + if day > 0 && first then 1 else 0)
                      else n)
            && (sent ==> t + 0.9 * HEARTBEAT <= schedule.nextHeartbeat <= t + HEARTBEAT)
            && (!sent ==> schedule.nextHeartbeat == old(schedule.nextHeartbeat))
  {
    first', n' := first, n;
    if before || schedule.HeartbeatDue(t) {
      Beat(counts, before, day > 0 && first, n);
      n' := n.(beats := n.beats + 1, published := n.published + if day > 0 && first then 1 else 0);
      first' := false;
      schedule.HeartbeatSent(t);
    }
  }

  /** One claim and what follows from it. */
  method Claim(counts: Counts, schedule: IdleSchedule, before: bool, rate: nat, t: real, completed: nat,
               ghost n: Census)
    returns (t': real, completed': nat, ghost n': Census)
    requires schedule.Valid() && Defaults(schedule) && counts.all == Bill(before, n)
    requires before || (schedule.PollDue(t) && t < schedule.nextHeartbeat <= t + HEARTBEAT)
    requires 0.0 <= t < DAY && InTime(rate, completed, t, POLL_MAX)
    requires completed <= 5 * rate && JOB_SECONDS * completed as real <= t
    modifies counts, schedule
    ensures schedule.Valid() && counts.all == Bill(before, n')
    ensures completed <= completed' <= 5 * rate && JOB_SECONDS * completed' as real <= t'
    ensures n' == n.(empties := n'.empties, jobs := n.jobs + completed' - completed) && n.empties <= n'.empties
    ensures completed' <= completed + 1 && completed' <= 300
    ensures t <= t' && t + POLL_MIN <= Next(before, t', schedule)
    ensures n'.empties - n.empties + completed' - completed == 1
    ensures completed' > completed <==> Waiting(rate, completed, t)
    ensures !before && completed' == completed ==>
              && t' == Min(schedule.nextPoll, schedule.nextHeartbeat) && schedule.empties == old(schedule.empties) + 1
              && t + Max(POLL_MIN, 0.8 * old(schedule.delay)) <= schedule.nextPoll <= t + POLL_MAX
              && schedule.nextHeartbeat == old(schedule.nextHeartbeat)
    ensures before || completed' > completed ==> t' == t + (if completed' > completed then 60.0 else 5.0)
    ensures !before ==> old(schedule.nextHeartbeat) <= schedule.nextHeartbeat <= t' + HEARTBEAT
    ensures !before ==> t' >= schedule.nextPoll || t' >= schedule.nextHeartbeat
    ensures InTime(rate, completed', Next(before, t', schedule), POLL_MAX)
  {
    t', completed', n' := t, completed, n;
    var available := Waiting(rate, completed, t);
    if !available {
      EmptyClaim(counts, before, n);
      n' := n.(empties := n.empties + 1);
      schedule.Empty(t);
      t' := t + if before then 5.0 else schedule.WaitSeconds(t);
      NotYet(rate, completed, t, Next(before, t', schedule));
      return;
    }
    Job(counts, before, n);
    n' := n.(jobs := n.jobs + 1);
    schedule.Found();
    completed' := completed + 1;
    t' := t + JOB_SECONDS;
    schedule.HeartbeatSent(t');
    StaysInTime(rate, completed, t, t', POLL_MAX);
  }

  /** The time that has passed when nothing but empty claims and jobs takes any. */
  predicate Paced(t: real, empties: int, jobs: int) { t == 5.0 * empties as real + 60.0 * jobs as real }

  /** How far an idle day has come at `t`, with the next poll and heartbeat due then, after
      so many heartbeats and empty claims. */
  predicate IdlePace(t: real, poll: real, beat: real, beats: nat, empties: nat) {
    var b, e := beats as real, empties as real;
    && t <= (if beats == 0 then 5.0 else beat) && (beats == 0 ==> beat == 0.0)
    && 0.9 * HEARTBEAT * b <= beat <= 5.0 + HEARTBEAT * b
    && (beats > 0 ==> 0.9 * HEARTBEAT * (b - 1.0) < DAY)
    && t <= (if empties == 0 then 5.0 else poll) && (empties == 0 ==> poll == 0.0)
    && 24.0 * (e - 3.0) <= poll && 0.0 <= poll <= 5.0 + POLL_MAX * e
    && (empties > 0 ==> 24.0 * (e - 4.0) < DAY)
  }

  lemma PaceAfterBeat(t: real, poll: real, beat: real, beats: nat, empties: nat, beat': real)
    requires IdlePace(t, poll, beat, beats, empties) && t < DAY && t >= beat
    requires t + 0.9 * HEARTBEAT <= beat' <= t + HEARTBEAT
    ensures IdlePace(t, poll, beat', beats + 1, empties)
  {
  }

  lemma PaceAfterWait(t: real, poll: real, beat: real, beats: nat, empties: nat)
    requires IdlePace(t, poll, beat, beats, empties) && 0.0 <= t < poll && t < beat
    ensures IdlePace(Min(poll, beat), poll, beat, beats, empties)
  {
  }

  lemma PaceAfterClaim(t: real, poll: real, beat: real, beats: nat, empties: nat, poll': real)
    requires IdlePace(t, poll, beat, beats, empties) && poll <= t < DAY && 0.0 <= t < beat
    requires t + Max(POLL_MIN, 0.8 * Backoff(POLL_MIN, POLL_MAX, empties)) <= poll' <= t + POLL_MAX
    ensures IdlePace(Min(poll', beat), poll', beat, beats, empties + 1)
  {
    if empties >= 3 { DelayAtCap(empties); }
  }

  /** After three empty claims the delay is at its cap. */
  lemma {:induction false} DelayAtCap(k: nat)
    requires k >= 3
    ensures Backoff(POLL_MIN, POLL_MAX, k) == POLL_MAX
    decreases k
  {
    if k > 3 { DelayAtCap(k - 1); }
  }

  /** Where a day stands between two passes of the loop, or, with `sent` heartbeats too many
      for that, within one. */
  ghost predicate Underway(schedule: IdleSchedule, before: bool, rate: nat, firstDay: bool, t: real, completed: nat,
                           first: bool, sent: nat, n: Census, n': Census)
    reads schedule
  {
    && schedule.Valid() && Defaults(schedule)
    && InTime(rate, completed, Next(before, t, schedule), POLL_MAX)
    && Standing(before, rate, firstDay, t, completed, first, sent, n, n')
    && (first ==> schedule.nextHeartbeat == 0.0)
    && (before || schedule.nextHeartbeat <= t + HEARTBEAT)
    && (!before && rate == 0 ==>
          && schedule.empties == n'.empties - n.empties
          && IdlePace(t, schedule.nextPoll, schedule.nextHeartbeat, n'.beats - n.beats, schedule.empties))
  }

  /** The counts so far, and what they say about the time. */
  ghost predicate Standing(before: bool, rate: nat, firstDay: bool, t: real, completed: nat, first: bool, sent: nat,
                           n: Census, n': Census)
  {
    && t >= 0.0
    && n'.registrations == n.registrations && n'.shutdowns == n.shutdowns && n'.jobs == n.jobs + completed
    && n.beats <= n'.beats && n.empties <= n'.empties
    && (first <==> n'.beats == n.beats)
    && n'.published == n.published + (if !firstDay && !first then 1 else 0)
    && (first ==> t < DAY)
    && completed <= 5 * rate && JOB_SECONDS * completed as real <= t && completed <= 300
    && (before ==> Paced(t, n'.empties - n.empties, completed)
                   && n'.beats - n.beats == n'.empties - n.empties + completed + sent)
    && (before && rate == 0 ==> t <= DAY)
  }

  /** A claim moves the day on by a job or by an empty claim. */
  lemma StandingAfterClaim(before: bool, rate: nat, firstDay: bool, t: real, completed: nat, n: Census, n0: Census,
                           t': real, completed': nat, n': Census)
    requires t < DAY && Standing(before, rate, firstDay, t, completed, false, if before then 1 else 0, n, n0)
    requires completed <= completed' <= completed + 1 && completed' <= 5 * rate && completed' <= 300
    requires JOB_SECONDS * completed' as real <= t' && t <= t'
    requires n' == n0.(empties := n'.empties, jobs := n0.jobs + completed' - completed)
    requires n'.empties == n0.empties + 1 - (completed' - completed)
    requires before ==> t' == t + (if completed' > completed then 60.0 else 5.0)
    ensures Standing(before, rate, firstDay, t', completed', false, 0, n, n')
  {
  }

  /** What is left of a day, for termination. */
  ghost function ToDo(schedule: IdleSchedule, before: bool, t: real): nat
    reads schedule
  {
    if before then Left(t, POLL_MIN) else Measure(t, schedule.nextPoll, schedule.nextHeartbeat)
  }

  /** The claim of a pass, when it is due. */
  method ClaimWhenDue(counts: Counts, schedule: IdleSchedule, before: bool, rate: nat, ghost firstDay: bool, t: real,
                      completed: nat, ghost n: Census, ghost n0: Census)
    returns (t': real, completed': nat, ghost n': Census)
    requires t < DAY && Underway(schedule, before, rate, firstDay, t, completed, false, if before then 1 else 0, n, n0)
    requires counts.all == Bill(before, n0)
    requires before || schedule.nextPoll <= t < schedule.nextHeartbeat
    modifies counts, schedule
    ensures Underway(schedule, before, rate, firstDay, t', completed', false, 0, n, n')
    ensures counts.all == Bill(before, n')
    ensures t + POLL_MIN <= Next(before, t', schedule)
    ensures !before ==> old(schedule.nextHeartbeat) <= schedule.nextHeartbeat
    ensures !before ==> t' >= schedule.nextPoll || t' >= schedule.nextHeartbeat
  {
    ghost var p, h, e := schedule.nextPoll, schedule.nextHeartbeat, schedule.empties;
    t', completed', n' := Claim(counts, schedule, before, rate, t, completed, n0);
    StandingAfterClaim(before, rate, firstDay, t, completed, n, n0, t', completed', n');
    if !before && rate == 0 { PaceAfterClaim(t, p, h, n0.beats - n.beats, e, schedule.nextPoll); }
  }

  /** The second half of a pass: a wait until something is due, or a claim. */
  method WaitOrClaim(counts: Counts, schedule: IdleSchedule, before: bool, rate: nat, ghost firstDay: bool, t: real,
                     completed: nat, ghost h0: real, ghost n: Census, ghost n0: Census)
    returns (t': real, completed': nat, ghost n': Census)
    requires t < DAY && Underway(schedule, before, rate, firstDay, t, completed, false, if before then 1 else 0, n, n0)
    requires counts.all == Bill(before, n0)
    requires before || (t < schedule.nextHeartbeat && h0 <= schedule.nextHeartbeat)
    requires before || schedule.nextHeartbeat == h0 || (t >= h0 && schedule.nextHeartbeat >= t + 0.9 * HEARTBEAT)
    modifies counts, schedule
    ensures Underway(schedule, before, rate, firstDay, t', completed', false, 0, n, n')
    ensures counts.all == Bill(before, n')
    ensures if before then Left(t', POLL_MIN) < Left(t, POLL_MIN)
            else Measure(t', schedule.nextPoll, schedule.nextHeartbeat) < Measure(t, old(schedule.nextPoll), h0)
  {
    ghost var p := schedule.nextPoll;
    if !before && !schedule.PollDue(t) {
      t', completed', n' := t + schedule.WaitSeconds(t), completed, n0;
      if rate == 0 { PaceAfterWait(t, p, schedule.nextHeartbeat, n0.beats - n.beats, schedule.empties); }
      WaitingProgresses(t, p, h0, t', schedule.nextHeartbeat);
      return;
    }
    t', completed', n' := ClaimWhenDue(counts, schedule, before, rate, firstDay, t, completed, n, n0);
    if before {
      LaterLeavesLess(t, t', POLL_MIN);
    } else {
      ClaimingProgresses(t, p, h0, t', schedule.nextPoll, schedule.nextHeartbeat);
    }
  }

  /** One pass of the day's loop: a heartbeat if it is due, and then a wait or a claim. */
  method Pass(counts: Counts, schedule: IdleSchedule, before: bool, rate: nat, day: nat, t: real, completed: nat,
              first: bool, ghost n: Census, ghost n0: Census)
    returns (t': real, completed': nat, first': bool, ghost n': Census)
    requires t < DAY && Underway(schedule, before, rate, day == 0, t, completed, first, 0, n, n0)
    requires counts.all == Bill(before, n0)
    modifies counts, schedule
    ensures Underway(schedule, before, rate, day == 0, t', completed', first', 0, n, n')
    ensures counts.all == Bill(before, n')
    ensures ToDo(schedule, before, t') < old(ToDo(schedule, before, t))
  {
    ghost var h0 := schedule.nextHeartbeat;
    first', n' := HeartbeatIfDue(counts, schedule, before, day, t, first, n0);
    if !before && rate == 0 && n'.beats > n0.beats {
      PaceAfterBeat(t, schedule.nextPoll, h0, n0.beats - n.beats, schedule.empties, schedule.nextHeartbeat);
    }
    t', completed', n' := WaitOrClaim(counts, schedule, before, rate, day == 0, t, completed, h0, n, n');
  }

  /** What one worker does in one day: it ends, having done every job it was given. */
  method Day(counts: Counts, before: bool, rate: nat, day: nat, ghost n: Census) returns (ghost n': Census)
    requires counts.all == Bill(before, n)
    modifies counts
    ensures counts.all == Bill(before, n')
    ensures DayCensus(before, rate, day == 0, n, n')
  {
    var schedule := new IdleSchedule(POLL_MIN, POLL_MAX, HEARTBEAT);
    var t := 0.0;
    if !before {
      t := schedule.StartupDelay();
    }
    var completed := 0;
    var firstHeartbeat := true;
    n' := n;
    StartsInTime(rate, t);
    while t < DAY
      invariant fresh(schedule) && Underway(schedule, before, rate, day == 0, t, completed, firstHeartbeat, 0, n, n')
      invariant counts.all == Bill(before, n')
      decreases ToDo(schedule, before, t)
    {
      t, completed, firstHeartbeat,
          n' := Pass(counts, schedule, before, rate, day, t, completed, firstHeartbeat, n, n');
    }
    AllDone(rate, completed, Next(before, t, schedule), POLL_MAX);
    assert before && rate == 0 ==> 5 * (n'.empties - n.empties) == 18000;
    ShutDown(counts, before, n');
    n' := n'.(shutdowns := n'.shutdowns + 1);
  }

  // ---------------------------------------------------------------- all workers, all days

  /** `b` added up `a` times. */
  function Product(a: nat, b: nat): nat { if a == 0 then 0 else b + Product(a - 1, b) }

  /** What `workers` workers do in `days` days. */
  predicate RunCensus(before: bool, rate: nat, workers: nat, days: nat, n: Census) {
    PartCensus(before, rate, days, workers, false, 0, n)
  }

  datatype Summary = Summary(
    all: Totals, producerHttp: nat, rollbacks: nat, commits: int,
    producerSql: nat, producerRedis: nat, redisWithProducer: nat)

  lemma {:induction false} ProductIsTimes(a: nat, b: nat)
    ensures Product(a, b) == a * b
  {
    if a > 0 {
      ProductIsTimes(a - 1, b);
      assert (a - 1) * b == a * b - b;
    }
  }

  /** Part of a run: `full` workers done, and `day` days of the next one, if enrolled. */
  predicate PartCensus(before: bool, rate: nat, days: nat, full: nat, enrolled: bool, day: nat, n: Census) {
    var workerDays := Product(full, days) + day;
    && n.registrations == full + (if enrolled then 1 else 0) && n.shutdowns == workerDays && n.beats >= workerDays
    && n.published == (if days == 0 then 0 else Product(full, days - 1)) + (if day == 0 then 0 else day - 1)
    && n.jobs <= 300 * workerDays
    && (rate <= 60 ==> n.jobs == Product(workerDays, 5 * rate))
    && (before ==> n.beats == n.empties + n.jobs)
    && (before && rate == 0 ==> n.empties == Product(workerDays, 3600))
    && (!before && rate == 0 ==>
          && Product(workerDays, 400) <= n.beats <= Product(workerDays, 445)
          && Product(workerDays, 600) <= n.empties <= Product(workerDays, 753))
  }

  /** Nothing has been counted, and nobody has done anything. */
  method Begin(before: bool) returns (counts: Counts, ghost n: Census)
    ensures fresh(counts) && n == Census(0, 0, 0, 0, 0, 0) && counts.all == Bill(before, n)
  {
    counts := new Counts();
    n := Census(0, 0, 0, 0, 0, 0);
  }

  lemma NobodyYet(before: bool, rate: nat, days: nat, full: nat)
    requires full == 0
    ensures PartCensus(before, rate, days, full, false, full, Census(0, 0, 0, 0, 0, 0))
  {
  }

  lemma OneDayMore(before: bool, rate: nat, days: nat, full: nat, day: nat, n: Census, n': Census)
    requires PartCensus(before, rate, days, full, true, day, n) && DayCensus(before, rate, day == 0, n, n')
    ensures PartCensus(before, rate, days, full, true, day + 1, n')
  {
  }

  lemma OneWorkerMore(before: bool, rate: nat, days: nat, full: nat, n: Census)
    requires PartCensus(before, rate, days, full, true, days, n)
    ensures PartCensus(before, rate, days, full + 1, false, 0, n)
  {
  }

  /** One worker: enrolled once, then one day after another. */
  method WorkerDays(counts: Counts, before: bool, rate: nat, days: nat, ghost worker: nat, ghost n: Census)
      returns (ghost n': Census)
    requires counts.all == Bill(before, n) && PartCensus(before, rate, days, worker, false, 0, n)
    modifies counts
    ensures counts.all == Bill(before, n') && PartCensus(before, rate, days, worker + 1, false, 0, n')
  {
    Enroll(counts, before, n);
    n' := n.(registrations := n.registrations + 1);
    for day := 0 to days
      invariant counts.all == Bill(before, n')
      invariant PartCensus(before, rate, days, worker, true, day, n')
    {
      ghost var was := n';
      n' := Day(counts, before, rate, day, n');
      OneDayMore(before, rate, days, worker, day, was, n');
    }
    OneWorkerMore(before, rate, days, worker, n');
  }

  method Simulate(rate: nat, workers: nat, days: nat, before: bool) returns (r: Summary, ghost n: Census)
    ensures r.all == Bill(before, n) && RunCensus(before, rate, workers, days, n)
    ensures r.producerHttp == r.rollbacks == r.all.executions
    ensures r.commits + r.rollbacks == r.all.transactions
    ensures r.producerSql == 4 * r.all.executions && r.producerRedis == 2 * r.all.executions
    ensures r.redisWithProducer == r.all.redis + r.producerRedis
  {
    var counts;
    counts, n := Begin(before);
    NobodyYet(before, rate, days, 0);
    for worker := 0 to workers
      invariant fresh(counts) && counts.all == Bill(before, n)
      invariant PartCensus(before, rate, days, worker, false, 0, n)
    {
      n := WorkerDays(counts, before, rate, days, worker, n);
    }
    var all := counts.all;
    r := Summary(all, all.executions, all.executions, all.transactions - all.executions,
                 4 * all.executions, 2 * all.executions, all.redis + 2 * all.executions);
  }

  // ---------------------------------------------------------------- what the model shows

  /** Completeness: the simulated workers do every job they are given if and only if no
      more arrive than one a minute (or there is nobody to do them). */
  lemma CompleteIff(before: bool, rate: nat, workers: nat, days: nat, n: Census)
    requires RunCensus(before, rate, workers, days, n)
    ensures n.jobs == 5 * rate * (workers * days) <==> rate <= 60 || workers * days == 0
  {
    ProductIsTimes(workers, days);
    ProductIsTimes(workers * days, 5 * rate);
    MoreThanFit(rate, workers * days);
  }

  lemma MoreThanFit(rate: nat, workerDays: nat)
    ensures workerDays * (5 * rate) == 5 * rate * workerDays
    ensures rate > 60 && workerDays > 0 ==> 300 * workerDays < 5 * rate * workerDays
  {
    if rate > 60 && workerDays > 0 {
      assert (5 * rate - 300) * workerDays > 0;
    }
  }

  /** The published commands after the change, with the producers': the documented total
      holds if and only if there is a day on which every worker is shut down (or no worker). */
  lemma RedisTotalIff(rate: nat, workers: nat, days: nat, n: Census)
    requires RunCensus(false, rate, workers, days, n)
    ensures Bill(false, n).redis + 2 * n.jobs == 2 * (workers * days) + 11 * n.jobs <==> days >= 1 || workers == 0
  {
    ProductIsTimes(workers, days);
    if days >= 1 {
      ProductIsTimes(workers, days - 1);
      assert workers * (days - 1) == workers * days - workers;
    }
  }

  /** The documented cost of an interval: H heartbeats, E empty claims, J jobs, R renewals
      and G registrations make H + E + 3J + R + G requests and, with five insertions per
      result, 3H + 3E + 19J + 4R + 5J + G statements. What is simulated agrees. */
  lemma DocumentedCosts(rate: nat, workers: nat, days: nat, n: Census, http: nat, sql: nat)
    requires RunCensus(false, rate, workers, days, n)
    requires var (h, e, j, r, g) := (Beats(n), n.empties, n.jobs, 7 * n.jobs, workers);
             http == h + e + 3 * j + r + g && sql == 3 * h + 3 * e + 19 * j + 4 * r + 5 * j + g
    ensures Bill(false, n).http == http && Bill(false, n).sql == sql
  {
  }

  /** The documented cost of each kind of request, before and after the change, in statements
      and in commits, and what is counted besides. */
  lemma DocumentedRequests(before: bool, n: Census)
    ensures var b := Bill(before, n);
            var (idle, empty, claim, beat, download, result) :=
              if before then (4, 6, 11, 5, 5, 13) else (3, 3, 8, 4, 4, 12);
            && b.sql == n.registrations + idle * Beats(n) + empty * n.empties
                        + (claim + download + result) * n.jobs + beat * (7 * n.jobs)
            && (before ==> b.transactions == n.registrations + Beats(n) + 3 * n.empties + 5 * n.jobs + 7 * n.jobs)
            && (!before ==> b.transactions == b.http)
            && b.http == n.registrations + Beats(n) + n.empties + 3 * n.jobs + 7 * n.jobs
            && b.claims == n.empties + n.jobs && b.empties == n.empties && b.heartbeats == n.beats
            && b.executions == b.results == n.jobs && b.writes == 6 * b.results && b.renewals == 7 * b.results
            && (!before ==> b.redis == n.registrations + n.shutdowns + n.published + 9 * n.jobs)
            && (before ==> b.redis == n.registrations + Beats(n) + 11 * n.jobs)
  {
  }

  /** The documented month of four idle workers, 30 days of five hours each. Before the
      change the simulation gives the published figures to the unit, whatever the jitter; after
      it the published commands, and no more than a sixth of the requests. */
  lemma DocumentedIdleMonth(before: bool, n: Census)
    requires RunCensus(before, 0, 4, 30, n)
    ensures var bill := Bill(before, n);
            if before
            then bill.http == 864124 && bill.redis == 432124 && bill.sql == 4320484 && bill.transactions == 1728124
            else && bill.redis == 240 && bill.transactions == bill.http && bill.sql == 3 * bill.http - 8
                 && 120124 <= bill.http <= 143884 && 6 * bill.http <= 864124
  {
    ProductIsTimes(4, 30);
    ProductIsTimes(4, 29);
    ProductIsTimes(120, 0);
    ProductIsTimes(120, 3600);
    ProductIsTimes(120, 400);
    ProductIsTimes(120, 445);
    ProductIsTimes(120, 600);
    ProductIsTimes(120, 753);
  }
}
