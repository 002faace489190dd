/** Idle polling with exponential backoff and jitter (`IdleSchedule` in scheduling.py) and
    the settings it starts from (config.py). */
module Scheduling {
  import opened Records

  function Min(a: real, b: real): real { if a <= b then a else b }
  function Max(a: real, b: real): real { if a >= b then a else b }

  // ---------------------------------------------------------------- settings

  datatype Polling = Polling(minimum: real, maximum: real) | BadPolling

  /** Omitted bounds take the legacy interval and a maximum of at least 30 seconds. */
  function ResolvePolling(interval: real, minimum: Option<real>, maximum: Option<real>): Polling {
    var lo := if minimum.Some? then minimum.value else interval;
    var hi := if maximum.Some? then maximum.value else Max(30.0, lo);
    if hi < lo then BadPolling else Polling(lo, hi)
  }

  /** Only an explicit maximum below the minimum in force is ever rejected, and the bounds
      that come out are in order. */
  lemma PollingIsOrdered(interval: real, minimum: Option<real>, maximum: Option<real>)
    requires interval >= 1.0 && (minimum.Some? ==> minimum.value >= 1.0) && (maximum.Some? ==> maximum.value >= 1.0)
    ensures var p := ResolvePolling(interval, minimum, maximum);
            && (p.BadPolling? <==> maximum.Some? && maximum.value < (if minimum.Some? then minimum.value else interval))
            && (p.Polling? ==> 1.0 <= p.minimum <= p.maximum)
            && (p.Polling? ==> p.minimum == if minimum.Some? then minimum.value else interval)
            && (p.Polling? && maximum.Some? ==> p.maximum == maximum.value)
            && (p.Polling? && maximum.None? ==> p.maximum >= 30.0 && (p.maximum == 30.0 || p.maximum == p.minimum))
  {
  }

  // ---------------------------------------------------------------- backoff

  /** `x` times 2 to the power of `k`. */
  function Doubled(x: real, k: nat): real { if k == 0 then x else 2.0 * Doubled(x, k - 1) }

  function Pow2(k: nat): nat { if k == 0 then 1 else 2 * Pow2(k - 1) }

  lemma {:induction false} DoubledIsPower(x: real, k: nat)
    ensures Doubled(x, k) == x * Pow2(k) as real
  {
    if k > 0 {
      DoubledIsPower(x, k - 1);
      var p := Pow2(k - 1) as real;
      assert Pow2(k) as real == 2.0 * p;
      assert x * (2.0 * p) == 2.0 * (x * p);
    }
  }

  /** The delay after `k` empty claims in a row, doubled each time. */
  function Backoff(minimum: real, maximum: real, k: nat): real {
    if k == 0 then minimum else Min(maximum, 2.0 * Backoff(minimum, maximum, k - 1))
  }

  /** Doubling under a cap is capping the doubled minimum. */
  lemma {:induction false} BackoffIsCapped(minimum: real, maximum: real, k: nat)
    requires 0.0 < minimum <= maximum
    ensures Backoff(minimum, maximum, k) == Min(maximum, Doubled(minimum, k))
    ensures minimum <= Backoff(minimum, maximum, k) <= maximum
  {
    if k > 0 {
      BackoffIsCapped(minimum, maximum, k - 1);
    }
  }

  lemma Share(x: real, share: real)
    requires x >= 0.0 && 0.0 <= share <= 1.0
    ensures 0.0 <= x * share <= x
  {
    assert x - x * share == x * (1.0 - share);
  }

  method Uniform(lo: real, hi: real) returns (r: real)
    requires lo <= hi
    ensures lo <= r <= hi
  {
    var share: real :| 0.0 <= share <= 1.0;
    Share(hi - lo, share);
    r := lo + (hi - lo) * share;
  }

  class IdleSchedule {
    const minimum: real
    const maximum: real
    const heartbeatInterval: real
    var delay: real
    var nextPoll: real
    var nextHeartbeat: real
    ghost var empties: nat   // empty claims since the last job

    ghost predicate Valid()
      reads this
    {
      && 0.0 < minimum <= maximum && heartbeatInterval > 0.0
      && delay == Backoff(minimum, maximum, empties) && minimum <= delay <= maximum
    }

    constructor (minimum: real, maximum: real, heartbeatInterval: real)
      requires 0.0 < minimum <= maximum && heartbeatInterval > 0.0
      ensures Valid() && empties == 0 && nextPoll == 0.0 && nextHeartbeat == 0.0
      ensures this.minimum == minimum && this.maximum == maximum && this.heartbeatInterval == heartbeatInterval
    {
      this.minimum, this.maximum, this.heartbeatInterval := minimum, maximum, heartbeatInterval;
      delay, nextPoll, nextHeartbeat, empties := minimum, 0.0, 0.0, 0;
    }

    method StartupDelay() returns (seconds: real)
      requires Valid()
      ensures 0.0 <= seconds <= Min(minimum, 5.0)
    {
      seconds := Uniform(0.0, Min(minimum, 5.0));
    }

    predicate HeartbeatDue(now: real)
      reads this
    {
      now >= nextHeartbeat
    }

    predicate PollDue(now: real)
      reads this
    {
      now >= nextPoll
    }

    method HeartbeatSent(now: real)
      requires Valid()
      modifies `nextHeartbeat
      ensures Valid() && now + 0.9 * heartbeatInterval <= nextHeartbeat <= now + heartbeatInterval
    {
      var share := Uniform(0.9, 1.0);
      assert 0.9 * heartbeatInterval <= heartbeatInterval * share <= heartbeatInterval;
      nextHeartbeat := now + heartbeatInterval * share;
    }

    /** An empty claim: the next poll keeps between the minimum and the maximum from now. */
    method Empty(now: real)
      requires Valid()
      modifies `delay, `nextPoll, `empties
      ensures Valid() && empties == old(empties) + 1
      ensures now + minimum <= nextPoll <= now + maximum
      ensures now + 0.8 * old(delay) <= nextPoll <= now + old(delay)
      ensures delay == Min(maximum, 2.0 * old(delay))
    {
      BackoffIsCapped(minimum, maximum, empties + 1);
      var wait := Uniform(Max(minimum, delay * 0.8), delay);
      nextPoll := now + wait;
      delay := Min(maximum, delay * 2.0);
      empties := empties + 1;
    }

    method Found()
      requires Valid()
      modifies `delay, `nextPoll, `empties
      ensures Valid() && empties == 0 && delay == minimum
      ensures nextPoll == 0.0
    {
      delay, nextPoll, empties := minimum, 0.0, 0;
    }

    function WaitSeconds(now: real): real
      reads this
    {
      Max(0.0, Min(nextPoll, nextHeartbeat) - now)
    }
  }

  /** After a wait something is due, and no earlier: the wait is exact. */
  lemma WaitIsExact(s: IdleSchedule, now: real, later: real)
    requires now <= later
    ensures later >= now + s.WaitSeconds(now) <==> s.HeartbeatDue(later) || s.PollDue(later)
  {
  }

  /** The doubled delay in closed form, at any time in the schedule's life. */
  lemma DelayIsCappedPower(s: IdleSchedule)
    requires s.Valid()
    ensures s.delay == Min(s.maximum, Doubled(s.minimum, s.empties))
  {
    BackoffIsCapped(s.minimum, s.maximum, s.empties);
  }

  // ---------------------------------------------------------------- polling without a job

  /** One pass of the run loop without a job: how late it comes, whether a heartbeat that is
      due gets through, and what a claim that is due comes to and how long it takes. */
  datatype Pass = Pass(late: real, beatSent: bool, took: real, refused: bool)

  predicate ValidPass(p: Pass) { p.late >= 0.0 && p.took >= 0.0 }

  /** A claim: when it was sent, and whether it was refused or failed instead of empty. */
  datatype Poll = Poll(at: real, refused: bool)

  /** After an empty claim the worker leaves out the minimum, after a refused one only the
      interval: the exception passes over the backoff. */
  function Gap(minimum: real, interval: real, p: Poll): real { if p.refused then interval else minimum }

  predicate Spaced(minimum: real, interval: real, polls: seq<Poll>) {
    forall i | 0 <= i < |polls| - 1 :: polls[i].at + Gap(minimum, interval, polls[i]) <= polls[i + 1].at
  }

  /** The jobless part of the run loop, on the schedule (`run_worker` in main.py). */
  class IdleWorker {
    const schedule: IdleSchedule
    const interval: real          // worker_poll_interval, slept after an exception
    var now: real
    var polls: seq<Poll>

    ghost predicate Valid()
      reads this, schedule
    {
      && schedule.Valid() && interval > 0.0
      && Spaced(schedule.minimum, interval, polls)
      && (polls != [] ==>
            var last := polls[|polls| - 1];
            last.at <= now && (if last.refused then last.at + interval <= now
                               else last.at + schedule.minimum <= schedule.nextPoll))
    }

    constructor (schedule: IdleSchedule, interval: real, now: real)
      requires schedule.Valid() && interval > 0.0
      ensures Valid() && this.schedule == schedule && this.interval == interval && this.now == now && polls == []
    {
      this.schedule, this.interval, this.now, polls := schedule, interval, now, [];
    }

    method OnePass(p: Pass)
      requires Valid() && ValidPass(p)
      modifies this, schedule
      ensures Valid() && old(now) + p.late <= now
      ensures var t := old(now) + p.late;
              if (old(schedule.HeartbeatDue(t)) && !p.beatSent) || !old(schedule.PollDue(t)) then polls == old(polls)
              else polls == old(polls) + [Poll(t, p.refused)]
      ensures polls != old(polls) && p.refused ==>
                now == old(now) + p.late + p.took + interval && schedule.nextPoll == old(schedule.nextPoll)
      // A heartbeat is sent when it is due, and a failed one costs the interval.
      ensures var t := old(now) + p.late;
              if old(schedule.HeartbeatDue(t)) && p.beatSent
              then t + 0.9 * schedule.heartbeatInterval <= schedule.nextHeartbeat <= t + schedule.heartbeatInterval
              else schedule.nextHeartbeat == old(schedule.nextHeartbeat)
      ensures var t := old(now) + p.late;
              t >= old(schedule.nextHeartbeat) && !p.beatSent ==>
                now == t + interval && schedule.nextPoll == old(schedule.nextPoll)
      // Without an exception the pass ends when the next poll or heartbeat is due, or is over already.
      ensures var t := old(now) + p.late;
              (t >= old(schedule.nextHeartbeat) ==> p.beatSent) && (polls == old(polls) || !p.refused) ==>
                now == Max(if polls == old(polls) then t else t + p.took,
                           Min(schedule.nextPoll, schedule.nextHeartbeat))
    {
      now := now + p.late;
      if schedule.HeartbeatDue(now) {
        if !p.beatSent {
          now := now + interval;
          return;
        }
        schedule.HeartbeatSent(now);
      }
      if !schedule.PollDue(now) {
        now := now + schedule.WaitSeconds(now);
        return;
      }
      Ask(p);
    }

    /** A claim that comes to nothing. */
    method Ask(p: Pass)
      requires Valid() && ValidPass(p) && schedule.PollDue(now)
      modifies this, schedule
      ensures Valid() && polls == old(polls) + [Poll(old(now), p.refused)]
      ensures p.refused ==> now == old(now) + p.took + interval && schedule.nextPoll == old(schedule.nextPoll)
      ensures !p.refused ==> now == Max(old(now) + p.took, Min(schedule.nextPoll, schedule.nextHeartbeat))
      ensures schedule.nextHeartbeat == old(schedule.nextHeartbeat)
    {
      polls := polls + [Poll(now, p.refused)];
      now := now + p.took;
      if p.refused {
        now := now + interval;
      } else {
        schedule.Empty(now);
        now := now + schedule.WaitSeconds(now);
      }
    }

    /** Any number of passes; what any window of them holds follows from `WindowBound`. */
    method Idle(passes: seq<Pass>)
      requires Valid() && forall i | 0 <= i < |passes| :: ValidPass(passes[i])
      modifies this, schedule
      ensures Valid() && old(polls) <= polls
      ensures forall i, j | 0 <= i <= j < |polls| && Backed(schedule.minimum, interval, polls, i, j) ::
                j - i + 1 <= MostPolls(schedule.minimum, polls[j].at - polls[i].at)
    {
      for k := 0 to |passes|
        invariant Valid() && old(polls) <= polls
      {
        OnePass(passes[k]);
      }
      forall i, j | 0 <= i <= j < |polls| && Backed(schedule.minimum, interval, polls, i, j)
        ensures j - i + 1 <= MostPolls(schedule.minimum, polls[j].at - polls[i].at)
      {
        WindowBound(schedule.minimum, interval, polls, i, j);
      }
    }
  }

  /** No claim of the window but the last was refused, or the interval is no shorter. */
  predicate Backed(minimum: real, interval: real, polls: seq<Poll>, i: nat, j: nat)
    requires i <= j < |polls|
  {
    interval >= minimum || forall k | i <= k < j :: !polls[k].refused
  }

  /** T / minimum + 1, as a whole number. */
  function MostPolls(minimum: real, window: real): int
    requires minimum > 0.0
  {
    (window / minimum).Floor + 1
  }

  lemma {:induction false} WindowIsSpread(minimum: real, interval: real, polls: seq<Poll>, i: nat, j: nat)
    requires minimum > 0.0 && Spaced(minimum, interval, polls) && i <= j < |polls|
             && Backed(minimum, interval, polls, i, j)
    ensures polls[i].at + (j - i) as real * minimum <= polls[j].at
    decreases j
  {
    if i < j {
      WindowIsSpread(minimum, interval, polls, i, j - 1);
      assert polls[j - 1].at + Gap(minimum, interval, polls[j - 1]) <= polls[j - 1 + 1].at;
      assert (j - i) as real * minimum == (j - 1 - i) as real * minimum + minimum;
    }
  }

  /** A jobless window of length T without a refused claim, or with an interval no shorter
      than the minimum, holds at most T / minimum + 1 polls. */
  lemma WindowBound(minimum: real, interval: real, polls: seq<Poll>, i: nat, j: nat)
    requires minimum > 0.0 && Spaced(minimum, interval, polls) && i <= j < |polls|
             && Backed(minimum, interval, polls, i, j)
    ensures j - i + 1 <= MostPolls(minimum, polls[j].at - polls[i].at)
  {
    WindowIsSpread(minimum, interval, polls, i, j);
    AtMostQuotient((j - i) as real, minimum, polls[j].at - polls[i].at);
  }

  lemma AtMostQuotient(a: real, b: real, c: real)
    requires b > 0.0 && a * b <= c
    ensures a <= c / b
  {
    assert c / b - a == (c - a * b) / b;
  }

  /** Every window of every jobless run keeps the bound. */
  ghost predicate AlwaysFew(minimum: real, interval: real)
    requires minimum > 0.0
  {
    forall polls: seq<Poll>, i: nat, j: nat | Spaced(minimum, interval, polls) && i <= j < |polls| ::
      j - i + 1 <= MostPolls(minimum, polls[j].at - polls[i].at)
  }

  /** With refused claims the bound holds in general if and only if the interval is no
      shorter than the minimum, as it is when the minimum is not set. */
  lemma FewPollsIff(minimum: real, interval: real)
    requires minimum > 0.0 && interval > 0.0
    ensures AlwaysFew(minimum, interval) <==> interval >= minimum
  {
    if interval >= minimum {
      forall polls: seq<Poll>, i: nat, j: nat | Spaced(minimum, interval, polls) && i <= j < |polls|
        ensures j - i + 1 <= MostPolls(minimum, polls[j].at - polls[i].at)
      {
        WindowBound(minimum, interval, polls, i, j);
      }
    } else {
      var polls := [Poll(0.0, true), Poll(interval, true)];
      assert Spaced(minimum, interval, polls);
      ShortWindow(minimum, interval);
      assert polls[1].at - polls[0].at == interval;
      assert 1 - 0 + 1 > MostPolls(minimum, polls[1].at - polls[0].at);
    }
  }

  lemma ShortWindow(minimum: real, window: real)
    requires 0.0 < window < minimum
    ensures MostPolls(minimum, window) == 1
  {
    QuotientIsBetween(minimum, window);
  }

  lemma QuotientIsBetween(b: real, c: real)
    requires 0.0 < c < b
    ensures 0.0 < c / b < 1.0
  {
    var q := c / b;
    assert q * b == c;
    if q >= 1.0 {
      AtLeastOneTimes(q, b);
    }
  }

  lemma AtLeastOneTimes(q: real, b: real)
    requires q >= 1.0 && b > 0.0
    ensures q * b >= b
  {
    assert q * b - b == (q - 1.0) * b;
  }

  /** A run that breaks the bound: two claims are refused one after the other, and the
      second comes an interval after the first although the minimum is longer. */
  method RefusedTwice(interval: real, minimum: real, maximum: real, heartbeat: real) returns (polls: seq<Poll>)
    requires 0.0 < interval < minimum <= maximum && heartbeat > 0.0
    ensures polls == [Poll(0.0, true), Poll(interval, true)]
    ensures |polls| > MostPolls(minimum, polls[1].at - polls[0].at)
  {
    var schedule := new IdleSchedule(minimum, maximum, heartbeat);
    var worker := new IdleWorker(schedule, interval, 0.0);
    worker.OnePass(Pass(0.0, true, 0.0, true));
    worker.OnePass(Pass(0.0, true, 0.0, true));
    ShortWindow(minimum, interval);
    polls := worker.polls;
  }
}
