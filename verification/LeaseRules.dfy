/** The client's view of its lease (`LeaseKeeper` in lease.py) as a value: a safety
    deadline on the worker's own clock, and a cancel flag that is never cleared. */
module LeaseRules {
  import opened Records

  datatype Keeper = Keeper(deadline: real, cancelled: bool, event: Event)

  /** The share of the server's lease the client allows itself. */
  const SAFE_SHARE: real := 0.75

  function Start(now: real, lease: real): Keeper {
    Keeper(now + lease * SAFE_SHARE, false, JobStarted)
  }

  /** A renewal may be sent only while the lease is neither cancelled nor past its deadline. */
  predicate MaySend(k: Keeper, now: real) { !k.cancelled && now < k.deadline }

  /** An acknowledgment counts from the time of sending, and only before the deadline. */
  function Acknowledge(k: Keeper, sentAt: real, now: real, lease: real): Keeper {
    if k.cancelled || now >= k.deadline then k.(cancelled := true)
    else k.(deadline := sentAt + lease * SAFE_SHARE)
  }

  function Cancel(k: Keeper): Keeper { k.(cancelled := true) }

  function Watch(k: Keeper, now: real): Keeper {
    if now >= k.deadline then Cancel(k) else k
  }

  /** Cancellation is final and the deadline moves only when an acknowledgment is in time. */
  predicate Onward(k: Keeper, k': Keeper) {
    && (k.cancelled ==> k'.cancelled && k'.deadline == k.deadline)
    && k.deadline <= k'.deadline
  }
}
