/** `LeaseKeeper` of lease.py: renewals with retries inside the safety window, the
    renewal thread's rounds and the watchdog's. */
module LeaseKeeping {
  import opened Records
  import opened LeaseRules

  /** What one heartbeat call came to: a reply below 500 refuses the lease, a transport
      error or a server error may be retried, and a reply that is not JSON raises an
      exception that `renew` does not handle. */
  datatype Response = Acknowledges | Fails | Refuses | Garbled

  datatype Renewal =
    | Renewed(sentAt: real)
    | AlreadyCancelled
    | PastDeadline
    | Refused
    | TooLate
    | Unhandled

  /** How long a failed renewal waits before it tries again. */
  const RETRY_SECONDS := 2.0

  /** A wait between two calls: when it was asked for, and for how long. */
  datatype Pause = Pause(at: real, seconds: real)

  /** Two seconds, or the time that is left of the safety window. */
  predicate Kept(p: Pause, deadline: real) {
    p.seconds == if deadline - p.at >= 2.0 then 2.0 else if deadline - p.at > 0.0 then deadline - p.at else 0.0
  }

  predicate AllKept(pauses: seq<Pause>, deadline: real) {
    forall i | 0 <= i < |pauses| :: Kept(pauses[i], deadline)
  }

  /** What a renewal comes to that was decided by this answer. */
  predicate Settles(r: Renewal, answer: Response) {
    && !answer.Fails? && !r.AlreadyCancelled? && !r.PastDeadline?
    && (r.Refused? <==> answer.Refuses?) && (r.Unhandled? <==> answer.Garbled?)
    && (r.Renewed? || r.TooLate? <==> answer.Acknowledges?)
  }

  function Total(pauses: seq<Pause>): real {
    if pauses == [] then 0.0 else Total(pauses[..|pauses| - 1]) + pauses[|pauses| - 1].seconds
  }

  lemma {:induction false} TotalAtMost(pauses: seq<Pause>, deadline: real)
    requires AllKept(pauses, deadline)
    ensures Total(pauses) <= 2.0 * |pauses| as real
  {
    if pauses != [] { TotalAtMost(pauses[..|pauses| - 1], deadline); }
  }

  lemma TotalOfOneMore(pauses: seq<Pause>, p: Pause)
    ensures Total(pauses + [p]) == Total(pauses) + p.seconds
  {
    assert (pauses + [p])[..|pauses|] == pauses;
  }

  /** The calls made so far are answered by a server that fails `k` times and is then back. */
  predicate BackAfter(calls: seq<Response>, k: nat) {
    forall i | 0 <= i < |calls| :: calls[i] == if i < k then Fails else Acknowledges
  }

  class LeaseKeeper {
    const lease: real
    const interval: real
    var clock: real          // the worker's monotonic clock
    var deadline: real
    var cancelled: bool
    var event: Event
    ghost var answers: seq<Response>   // what the calls so far came to
    ghost var interrupted: bool        // another thread or a signal has cancelled
    ghost var pauses: seq<Pause>       // the waits so far
    ghost var lag: real                // time spent in calls, and in waits beyond what was asked for

    function View(): Keeper
      reads this
    {
      Keeper(deadline, cancelled, event)
    }

    /** The deadline was granted by a call sent no later than now. */
    ghost predicate Valid()
      reads this
    {
      lease > 0.0 && deadline <= clock + lease * SAFE_SHARE
    }

    constructor (now: real, lease: real, interval: real)
      requires lease > 0.0
      ensures Valid() && clock == now && this.lease == lease
      ensures View() == Start(now, lease)
      ensures this.interval == (if interval < lease / 4.0 then interval else lease / 4.0)
    {
      this.lease := lease;
      this.interval := if interval < lease / 4.0 then interval else lease / 4.0;
      clock := now;
      deadline := now + lease * SAFE_SHARE;
      cancelled := false;
      event := JobStarted;
      answers, interrupted, pauses, lag := [], false, [], 0.0;
    }

    /** Time passes; meanwhile the watchdog, the renewal thread or a signal may cancel. */
    method Elapse()
      modifies `clock, `cancelled, `interrupted
      ensures old(clock) <= clock && (old(interrupted) ==> interrupted)
      ensures (old(cancelled) ==> cancelled) && (cancelled ==> old(cancelled) || interrupted)
    {
      var dt: real :| dt >= 0.0;
      var other: bool := *;
      clock := clock + dt;
      if other {
        cancelled, interrupted := true, true;
      }
    }

    /** One `job_heartbeat` call, which may block. */
    method Call() returns (answer: Response)
      modifies `clock, `cancelled, `interrupted, `answers, `lag
      ensures old(clock) <= clock && (old(interrupted) ==> interrupted)
      ensures (old(cancelled) ==> cancelled) && (cancelled ==> old(cancelled) || interrupted)
      ensures answers == old(answers) + [answer]
      ensures lag == old(lag) + (clock - old(clock))
    {
      Elapse();
      lag := lag + (clock - old(clock));
      answer := *;
      answers := answers + [answer];
    }

    /** `cancel.wait(seconds)`: returns early only when the lease has been cancelled. */
    method Wait(seconds: real)
      requires seconds >= 0.0
      modifies `clock, `cancelled, `interrupted, `pauses, `lag
      ensures old(clock) <= clock && (old(interrupted) ==> interrupted)
      ensures (old(cancelled) ==> cancelled) && (cancelled ==> old(cancelled) || interrupted)
      ensures cancelled || old(clock) + seconds <= clock
      ensures pauses == old(pauses) + [Pause(old(clock), seconds)]
      ensures lag >= old(lag) && (!cancelled ==> clock == old(clock) + seconds + (lag - old(lag)))
    {
      var until := clock + seconds;
      Elapse();
      if !cancelled && clock < until {
        clock := until;
      }
      pauses := pauses + [Pause(old(clock), seconds)];
      if clock > until {
        lag := lag + (clock - until);
      }
    }

    /** The wait between two calls, cut short by the deadline. */
    method WaitToRetry()
      modifies `clock, `cancelled, `interrupted, `pauses, `lag
      ensures old(clock) <= clock && (old(interrupted) ==> interrupted)
      ensures (old(cancelled) ==> cancelled) && (cancelled ==> old(cancelled) || interrupted)
      ensures cancelled || clock >= old(clock) + RETRY_SECONDS || clock >= deadline
      ensures |pauses| == |old(pauses)| + 1 && pauses == old(pauses) + [pauses[|pauses| - 1]]
      ensures Kept(pauses[|pauses| - 1], deadline)
      ensures lag >= old(lag)
      ensures !cancelled ==> clock == old(clock) + pauses[|pauses| - 1].seconds + (lag - old(lag))
    {
      var left := if deadline - clock > 0.0 then deadline - clock else 0.0;
      Wait(if left < RETRY_SECONDS then left else RETRY_SECONDS);
    }

    /** What renewing comes to is decided by the last call alone, all earlier ones having
        failed in ways that may pass; without a call, only by the lease being over. */
    ghost predicate Explains(r: Renewal, calls: seq<Response>)
      reads this
    {
      && (forall i | 0 <= i < |calls| - 1 :: calls[i].Fails?)
      && (r.Refused? <==> calls != [] && calls[|calls| - 1].Refuses?)
      && (r.Unhandled? <==> calls != [] && calls[|calls| - 1].Garbled?)
      && (r.Renewed? || r.TooLate? <==> calls != [] && calls[|calls| - 1].Acknowledges?)
      && (r.TooLate? || r.PastDeadline? ==> interrupted || clock >= deadline)
    }

    /** One call, and the wait after it if it failed for the time being. */
    method Ask() returns (r: Option<Renewal>)
      requires Valid() && !cancelled && clock < deadline
      modifies this
      ensures Valid() && old(clock) <= clock && event == old(event) && (old(interrupted) ==> interrupted)
      ensures |answers| == |old(answers)| + 1 && answers == old(answers) + [answers[|answers| - 1]]
      ensures if r.None? then answers[|answers| - 1].Fails? else Settles(r.value, answers[|answers| - 1])
      ensures r == Some(TooLate) ==> interrupted || clock >= deadline
      ensures if r.Some? && r.value.Renewed?
              then && r.value.sentAt == old(clock) && !cancelled && clock < old(deadline)
                   && deadline == old(clock) + lease * SAFE_SHARE
              else deadline == old(deadline)
      ensures r.None? ==>
                && (cancelled ==> interrupted)
                && (cancelled || clock >= old(clock) + RETRY_SECONDS || clock >= deadline)
                && |pauses| == |old(pauses)| + 1 && pauses == old(pauses) + [pauses[|pauses| - 1]]
                && Kept(pauses[|pauses| - 1], deadline)
                && (!cancelled ==> clock == old(clock) + pauses[|pauses| - 1].seconds + (lag - old(lag)))
      ensures r.Some? ==> (r.value.Renewed? || r.value.Unhandled? || cancelled)
      ensures r == Some(Unhandled) && !interrupted ==> !cancelled
      ensures r.Some? ==> pauses == old(pauses) && clock == old(clock) + (lag - old(lag))
      ensures lag >= old(lag)
    {
      var sentAt := clock;
      var answer := Call();
      match answer {
        case Garbled =>
          return Some(Unhandled);
        case Refuses =>
          cancelled := true;
          return Some(Refused);
        case Fails =>
          WaitToRetry();
          return None;
        case Acknowledges =>
          if cancelled || clock >= deadline {
            cancelled := true;
            return Some(TooLate);
          }
          deadline := sentAt + lease * SAFE_SHARE;
          return Some(Renewed(sentAt));
      }
    }

    /** Renew the lease, retrying transient failures only before the deadline. A failure
        never extends the deadline, an acknowledgment counts from the moment its call was
        sent, and calls are at least `RETRY_SECONDS` apart. */
    method Renew(next: Option<Event>) returns (r: Renewal, sent: nat)
      requires Valid()
      modifies this
      ensures Valid() && old(clock) <= clock
      ensures Onward(old(View()), View())
      ensures event == if next.Some? && !old(cancelled) then next.value else old(event)
      ensures r.Renewed? ==>
                && old(clock) <= r.sentAt < old(deadline)
                && !cancelled
                && View() == Acknowledge(old(View()).(event := event), r.sentAt, clock, lease)
      ensures !r.Renewed? ==> deadline == old(deadline) && (r.Unhandled? || cancelled)
      ensures r.Unhandled? && !interrupted ==> !cancelled
      ensures old(cancelled) ==> r.AlreadyCancelled? && sent == 0 && View() == old(View())
      ensures sent > 0 ==> 2.0 * (sent - 1) as real < old(deadline) - old(clock)
      ensures |answers| == |old(answers)| + sent && old(answers) <= answers
      ensures Explains(r, answers[|old(answers)|..])
      ensures !old(cancelled) && old(clock) < old(deadline) ==> sent > 0
      ensures r.AlreadyCancelled? ==> old(cancelled) || interrupted
      // Every failure is followed by one wait, of two seconds or until the deadline.
      ensures old(pauses) <= pauses && AllKept(pauses[|old(pauses)|..], old(deadline)) && lag >= old(lag)
      ensures |pauses| - |old(pauses)| == sent - (if r.AlreadyCancelled? || r.PastDeadline? then 0 else 1)
      ensures !interrupted && !old(cancelled) ==>
                clock == old(clock) + Total(pauses[|old(pauses)|..]) + (lag - old(lag))
    {
      sent := 0;
      if cancelled {
        assert pauses[|old(pauses)|..] == [];
        return AlreadyCancelled, sent;
      }
      if next.Some? {
        event := next.value;
      }
      ghost var failures, waits;
      r, sent, failures, waits := AskUntilDeadline();
      assert pauses[|old(pauses)|..] == waits;
      assert answers[|old(answers)|..] ==
             if r.AlreadyCancelled? || r.PastDeadline? then failures else failures + [answers[|answers| - 1]];
    }

    /** The loop: `failures` are the calls that failed for the time being, and `waits` what
        followed them. */
    method AskUntilDeadline() returns (r: Renewal, sent: nat, ghost failures: seq<Response>, ghost waits: seq<Pause>)
      requires Valid() && !cancelled
      modifies this
      ensures Valid() && old(clock) <= clock && event == old(event)
      ensures var unanswered := r.AlreadyCancelled? || r.PastDeadline?;
              && |failures| == |waits| == (if unanswered then sent else sent - 1)
              && |answers| == |old(answers)| + sent
              && answers == old(answers) + failures + (if unanswered then [] else [answers[|answers| - 1]])
              && pauses == old(pauses) + waits
              && (!unanswered ==> Settles(r, answers[|answers| - 1]))
      ensures forall i | 0 <= i < |failures| :: failures[i].Fails?
      ensures AllKept(waits, old(deadline)) && lag >= old(lag)
      ensures !interrupted ==> clock == old(clock) + Total(waits) + (lag - old(lag))
      ensures r.Renewed? ==>
                && old(clock) <= r.sentAt <= clock < old(deadline) && !cancelled
                && deadline == r.sentAt + lease * SAFE_SHARE
      ensures !r.Renewed? ==> deadline == old(deadline) && (r.Unhandled? || cancelled)
      ensures r.Unhandled? && !interrupted ==> !cancelled
      ensures r.TooLate? || r.PastDeadline? ==> interrupted || clock >= deadline
      ensures r.AlreadyCancelled? ==> interrupted
      ensures sent > 0 ==> 2.0 * (sent - 1) as real < old(deadline) - old(clock)
      ensures old(clock) < old(deadline) ==> sent > 0
    {
      sent, failures, waits := 0, [], [];
      while !cancelled
        invariant Valid() && old(clock) <= clock && event == old(event) && deadline == old(deadline)
        invariant !cancelled ==> clock >= old(clock) + 2.0 * sent as real || clock >= deadline
        invariant sent > 0 ==> 2.0 * (sent - 1) as real < deadline - old(clock)
        invariant answers == old(answers) + failures && pauses == old(pauses) + waits
        invariant |failures| == |waits| == sent && lag >= old(lag)
        invariant forall i | 0 <= i < |failures| :: failures[i].Fails?
        invariant AllKept(waits, deadline)
        invariant sent == 0 ==> clock == old(clock) && !cancelled
        invariant cancelled ==> interrupted
        invariant !interrupted ==> clock == old(clock) + Total(waits) + (lag - old(lag))
        decreases !cancelled, if clock < deadline then ((deadline - clock) / RETRY_SECONDS).Floor + 1 else 0
      {
        if clock >= deadline {
          cancelled := true;
          return PastDeadline, sent, failures, waits;
        }
        var settled := Ask();
        sent := sent + 1;
        if settled.Some? {
          return settled.value, sent, failures, waits;
        }
        TotalOfOneMore(waits, pauses[|pauses| - 1]);
        failures, waits := failures + [Fails], waits + [pauses[|pauses| - 1]];
      }
      r := AlreadyCancelled;
    }

    /** A renewal that nothing disturbs, against any server. */
    method RenewUndisturbed(next: Option<Event>) returns (r: Renewal, sent: nat)
      requires Valid() && !cancelled && clock < deadline
      modifies this
      ensures old(answers) <= answers && old(pauses) <= pauses
      ensures !interrupted && lag == old(lag) ==>
                Undisturbed(r, answers[|old(answers)|..], pauses[|old(pauses)|..], old(clock), clock, old(deadline))
    {
      r, sent := Renew(next);
    }

    ghost predicate AcknowledgedAt(since: real, sentAt: real)
      reads this
    {
      since <= sentAt <= clock && deadline == sentAt + lease * SAFE_SHARE
    }

    /** Why a lease may be given up: it was cancelled, its deadline came, or the last call
        was refused or answered with garbage. */
    ghost predicate MayGiveUp(wasCancelled: bool, before: seq<Response>)
      reads this
    {
      || wasCancelled || interrupted || clock >= deadline
      || (before < answers && answers[|answers| - 1] in {Refuses, Garbled})
    }

    /** `__enter__`: no work starts under the constructor's deadline, only under one
        that the server has acknowledged. */
    method Enter() returns (entered: bool)
      requires Valid()
      modifies this
      ensures Valid() && Onward(old(View()), View())
      ensures entered ==> !cancelled && exists sentAt :: AcknowledgedAt(old(clock), sentAt)
      ensures !entered ==> deadline == old(deadline) && MayGiveUp(old(cancelled), old(answers))
      // Only an answer that cannot be read leaves a lease that was not entered as it was.
      ensures !entered && !interrupted ==>
                (cancelled <==> !(old(answers) < answers && answers[|answers| - 1] == Garbled))
    {
      var r, sent := Renew(None);
      entered := r.Renewed?;
      if entered {
        assert AcknowledgedAt(old(clock), r.sentAt);
      } else if r.Refused? || r.Unhandled? {
        assert answers[|answers| - 1] == answers[|old(answers)|..][sent - 1];
      }
    }

    /** One round of the renewal thread, after it has slept: any failure cancels at once. */
    method RenewalRound() returns (again: bool)
      requires Valid()
      modifies this
      ensures Valid() && Onward(old(View()), View())
      ensures again ==> !cancelled && exists sentAt :: AcknowledgedAt(old(clock), sentAt)
      ensures !again ==> cancelled && deadline == old(deadline) && MayGiveUp(old(cancelled), old(answers))
    {
      again := Enter();
      if !again {
        cancelled := true;
      }
    }

    /** One round of the watchdog, after it has slept. */
    method WatchdogRound() returns (again: bool)
      requires Valid()
      modifies `cancelled
      ensures View() == Watch(old(View()), clock)
      ensures again <==> clock < deadline
    {
      again := clock < deadline;
      if !again {
        cancelled := true;
      }
    }
  }

  // ---------------------------------------------------------------- retries

  /** What `Renew` promises of a renewal that nothing interrupts, whose calls take no time and
      whose waits last as long as was asked for: every call but the last failed and was
      followed by one wait, of two seconds or of what was left, and nothing else took time. */
  predicate Undisturbed(r: Renewal, calls: seq<Response>, pauses: seq<Pause>, start: real, end: real, deadline: real) {
    && start < deadline && calls != []
    && (forall i | 0 <= i < |calls| - 1 :: calls[i].Fails?)
    && (r.Refused? <==> calls[|calls| - 1].Refuses?)
    && (r.Unhandled? <==> calls[|calls| - 1].Garbled?)
    && (r.Renewed? || r.TooLate? <==> calls[|calls| - 1].Acknowledges?)
    && (r.TooLate? || r.PastDeadline? ==> end >= deadline)
    && !r.AlreadyCancelled?
    && |pauses| == (if r.PastDeadline? then |calls| else |calls| - 1)
    && AllKept(pauses, deadline)
    && end == start + Total(pauses)
  }

  /** A renewal that gives up at its deadline has used the whole window for calls. */
  lemma WindowIsUsed(r: Renewal, calls: seq<Response>, pauses: seq<Pause>, start: real, end: real, deadline: real)
    requires Undisturbed(r, calls, pauses, start, end, deadline) && r.PastDeadline?
    ensures 2.0 * |calls| as real >= deadline - start
  {
    TotalAtMost(pauses, deadline);
  }

  /** However often the server fails for the time being, if it is back before the window is
      over it is asked again and the lease is renewed: a failure that passes costs nothing. */
  lemma RetriesFindServer(r: Renewal, calls: seq<Response>, pauses: seq<Pause>, start: real, end: real, deadline: real,
                          k: nat)
    requires Undisturbed(r, calls, pauses, start, end, deadline)
    requires BackAfter(calls, k) && 2.0 * k as real < deadline - start
    ensures r.Renewed? && |calls| == k + 1
  {
    TotalAtMost(pauses, deadline);
    assert k < |calls| ==> calls[k] == Acknowledges;
  }

  // ---------------------------------------------------------------- bounds

  /** The bound on the calls of one renewal, as a whole number. */
  lemma CallsBound(window: real, sent: nat)
    requires sent > 0 && 2.0 * (sent - 1) as real < window
    ensures sent <= (window / RETRY_SECONDS).Floor + 1
  {
  }

  /** Renewals one interval after another, each acknowledged `tooks[i]` after it was sent. */
  function Rounds(k: Keeper, now: real, lease: real, interval: real, tooks: seq<real>): Keeper
    decreases |tooks|
  {
    if tooks == [] then k
    else
      var sentAt := now + interval;
      Rounds(Acknowledge(k, sentAt, sentAt + tooks[0], lease), sentAt + tooks[0], lease, interval, tooks[1..])
  }

  /** With the interval capped at a quarter of the lease, a keeper whose calls each return
      within another quarter never reaches its deadline, however long the job runs. */
  lemma {:induction false} PromptRepliesKeepLease(k: Keeper, now: real, lease: real, interval: real,
                                                  tooks: seq<real>, took: real)
    requires lease > 0.0 && interval <= lease / 4.0
    requires !k.cancelled && k.deadline == now - took + lease * SAFE_SHARE && took < lease / 4.0
    requires forall i | 0 <= i < |tooks| :: 0.0 <= tooks[i] < lease / 4.0
    ensures !Rounds(k, now, lease, interval, tooks).cancelled
    decreases |tooks|
  {
    if tooks != [] {
      var sentAt := now + interval;
      PromptRepliesKeepLease(Acknowledge(k, sentAt, sentAt + tooks[0], lease), sentAt + tooks[0], lease, interval,
                             tooks[1..], tooks[0]);
    }
  }

  /** The quarter is the limit: at the capped interval, two calls that take a quarter of
      the lease each lose it. */
  lemma SlowRepliesLoseLease(k: Keeper, now: real, lease: real, took: real)
    requires lease > 0.0 && took >= lease / 4.0
    requires !k.cancelled && k.deadline == now - took + lease * SAFE_SHARE
    ensures Rounds(k, now, lease, lease / 4.0, [took]).cancelled
  {
  }
}
