/**
 * The lockout counters `failed_attempts` and `lockout_until` (app.py:65-67).
 * Failed retrievals and failed logins share them.
 * Time is an integer number of seconds given by the caller.
 */
module Guard {
  import opened Wrappers

  /** Failures counted so far that make a failing retrieval start a lockout. */
  const THRESHOLD: nat := 3

  /** `LOCKOUT_DURATION`: a lockout lasts 30 seconds. */
  const LOCKOUT_DURATION: nat := 30

  datatype Lockout = Lockout(failedAttempts: nat, lockoutUntil: Option<int>)

  /** `lockout_until and now < lockout_until`. An expired lockout is not
      cleared; it stays recorded and simply stops closing the gate. */
  predicate IsLocked(g: Lockout, now: int): (locked: bool)
    ensures g.lockoutUntil.None? ==> !locked
    ensures locked ==> now < g.lockoutUntil.value
    ensures g.lockoutUntil.Some? && now < g.lockoutUntil.value ==> locked
  {
    g.lockoutUntil.Some? && now < g.lockoutUntil.value
  }

  /** `max(0, 3 - failed_attempts)`, shown after a failed retrieval. */
  function AttemptsLeft(failedAttempts: nat): (left: nat)
    ensures left <= THRESHOLD
    ensures left == 0 <==> failedAttempts >= THRESHOLD
    ensures failedAttempts <= THRESHOLD ==> left + failedAttempts == THRESHOLD
  {
    var d: int := THRESHOLD as int - failedAttempts;
    if 0 >= d then 0 else d
  }

  /** What the counters can look like for callers whose clock has reached
      `t`: a pending lockout ends at most 30 seconds after `t`, and the gate
      is only closed while at least three failures are on record. */
  predicate Consistent(g: Lockout, t: int) {
    && (g.lockoutUntil.Some? ==> g.lockoutUntil.value <= t + LOCKOUT_DURATION)
    && (IsLocked(g, t) ==> g.failedAttempts >= THRESHOLD)
  }

  /** Consistency survives the passing of time. */
  lemma ConsistentLater(g: Lockout, t: int, now: int)
    requires Consistent(g, t)
    requires t <= now
    ensures Consistent(g, now)
  {
  }

  /** A lockout never lasts more than 30 seconds past the last operation,
      and while it holds the page reports no attempts left. */
  lemma LockoutBounded(g: Lockout, t: int, now: int)
    requires Consistent(g, t)
    requires t <= now
    ensures now >= t + LOCKOUT_DURATION ==> !IsLocked(g, now)
    ensures IsLocked(g, now) ==> AttemptsLeft(g.failedAttempts) == 0
  {
  }
}
