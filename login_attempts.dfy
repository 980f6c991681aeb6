/**
 * The login-attempt tracker: a table keyed by (email, IP address) whose
 * records count failed logins and, once the count reaches the maximum,
 * carry a lock expiry. A record goes clean -> counting -> locked -> clean.
 * A store error makes every operation fail open.
 */
module LoginAttempts {
  import opened Options

  const MaxAttempts := 5
  /** Fifteen minutes, in milliseconds. */
  const LockTime := 15 * 60 * 1000
  /** One day, in milliseconds: unlocked records older than this are purged. */
  const CleanupAge := 24 * 60 * 60 * 1000
  const MinuteMs := 60000

  datatype AttemptKey = AttemptKey(email: string, ipAddress: string)

  /** One record of the `login_attempts` collection; times are milliseconds. */
  datatype LoginAttempt = LoginAttempt(attempts: int, lockedUntil: Option<int>, lastAttempt: int)

  type Table = map<AttemptKey, LoginAttempt>

  /**
   * What the store does on one call: succeed, fail on the lookup (or on
   * reaching the database), or fail on the write that follows the lookup.
   */
  datatype Fault = NoFault | ReadFault | WriteFault

  /** The two denial messages: locked for so many more minutes, or too many attempts. */
  datatype LockMessage = LockedFor(minutes: int) | AttemptsExceeded

  datatype CheckResult = CheckResult(allowed: bool, message: Option<LockMessage>, remainingAttempts: Option<int>)

  /** A result together with the table as the operation leaves it. */
  datatype Outcome<R> = Outcome(result: R, table: Table)

  const Allowed := CheckResult(true, None, None)

  /** `Math.ceil(n / d)` for positive `n` and `d`. */
  function CeilDiv(n: int, d: int): (q: int)
    requires n > 0 && d > 0
    ensures q >= 1
    ensures (q - 1) * d < n <= q * d
  {
    (n + d - 1) / d
  }

  /** A record is locked with an expiry that `now` has not reached. */
  predicate LockActive(a: LoginAttempt, now: int) {
    a.lockedUntil.Some? && now < a.lockedUntil.value
  }

  // ---------------------------------------------------------------------
  // The four operations on the table
  // ---------------------------------------------------------------------

  /** `checkLoginAttempts`: may this (email, IP) pair try to log in now? */
  function CheckAttempts(t: Table, key: AttemptKey, now: int, fault: Fault): Outcome<CheckResult> {
    if fault == ReadFault || key !in t then
      Outcome(Allowed, t)
    else
      var a := t[key];
      if LockActive(a, now) then
        Outcome(CheckResult(false, Some(LockedFor(CeilDiv(a.lockedUntil.value - now, MinuteMs))), None), t)
      else if a.lockedUntil.Some? then
        Outcome(Allowed, if fault == WriteFault then t else t - {key})
      else if a.attempts >= MaxAttempts then
        if fault == WriteFault then Outcome(Allowed, t)
        else Outcome(CheckResult(false, Some(AttemptsExceeded), None),
                     t[key := a.(lockedUntil := Some(now + LockTime), lastAttempt := now)])
      else
        Outcome(CheckResult(true, None, Some(MaxAttempts - a.attempts)), t)
  }

  /** `recordFailedLogin`: count one failure; the result is the attempts left. */
  function RecordFailure(t: Table, key: AttemptKey, now: int, fault: Fault): Outcome<int> {
    if fault != NoFault then
      Outcome(0, t)
    else if key !in t then
      Outcome(MaxAttempts - 1, t[key := LoginAttempt(1, None, now)])
    else
      var newAttempts := t[key].attempts + 1;
      Outcome(if MaxAttempts - newAttempts >= 0 then MaxAttempts - newAttempts else 0,
              t[key := t[key].(attempts := newAttempts, lastAttempt := now)])
  }

  /** `clearLoginAttempts`: forget the pair's record. */
  function ClearAttempts(t: Table, key: AttemptKey, fault: Fault): Table {
    if fault != NoFault then t else t - {key}
  }

  /** A record the cleanup removes: last touched over a day ago and not locked. */
  predicate Stale(a: LoginAttempt, now: int) {
    a.lastAttempt < now - CleanupAge && a.lockedUntil.None?
  }

  /** `cleanupOldAttempts`: drop every stale record. */
  function CleanupOld(t: Table, now: int, fault: Fault): Table {
    if fault != NoFault then t else map k | k in t && !Stale(t[k], now) :: t[k]
  }

  // ---------------------------------------------------------------------
  // The collection, updated in place
  // ---------------------------------------------------------------------

  class LoginAttemptTracker {
    var records: Table

    constructor ()
      ensures records == map[]
    {
      records := map[];
    }

    method CheckLoginAttempts(email: string, ipAddress: string, now: int, fault: Fault) returns (r: CheckResult)
      modifies this
      ensures Outcome(r, records) == CheckAttempts(old(records), AttemptKey(email, ipAddress), now, fault)
    {
      var key := AttemptKey(email, ipAddress);
      if fault == ReadFault || key !in records {
        return Allowed;
      }
      var attempt := records[key];

      if attempt.lockedUntil.Some? && now < attempt.lockedUntil.value {
        var remainingMinutes := CeilDiv(attempt.lockedUntil.value - now, MinuteMs);
        return CheckResult(false, Some(LockedFor(remainingMinutes)), None);
      }

      if attempt.lockedUntil.Some? && now >= attempt.lockedUntil.value {
        if fault != WriteFault {
          records := records - {key};
        }
        return Allowed;
      }

      if attempt.attempts >= MaxAttempts {
        if fault == WriteFault {
          return Allowed;
        }
        records := records[key := attempt.(lockedUntil := Some(now + LockTime), lastAttempt := now)];
        return CheckResult(false, Some(AttemptsExceeded), None);
      }

      var remainingAttempts := MaxAttempts - attempt.attempts;
      r := CheckResult(true, None, Some(remainingAttempts));
    }

    method RecordFailedLogin(email: string, ipAddress: string, now: int, fault: Fault) returns (remaining: int)
      modifies this
      ensures Outcome(remaining, records) == RecordFailure(old(records), AttemptKey(email, ipAddress), now, fault)
    {
      var key := AttemptKey(email, ipAddress);
      if fault != NoFault {
        return 0;
      }
      if key !in records {
        records := records[key := LoginAttempt(1, None, now)];
        return MaxAttempts - 1;
      }
      var attempt := records[key];
      var newAttempts := attempt.attempts + 1;
      records := records[key := attempt.(attempts := newAttempts, lastAttempt := now)];
      remaining := if MaxAttempts - newAttempts >= 0 then MaxAttempts - newAttempts else 0;
    }

    method ClearLoginAttempts(email: string, ipAddress: string, fault: Fault)
      modifies this
      ensures records == ClearAttempts(old(records), AttemptKey(email, ipAddress), fault)
    {
      if fault == NoFault {
        records := records - {AttemptKey(email, ipAddress)};
      }
    }

    /** `cleanupOldAttempts`: exported for a caller to run; the server does not schedule it. */
    method CleanupOldAttempts(now: int, fault: Fault)
      modifies this
      ensures records == CleanupOld(old(records), now, fault)
    {
      if fault == NoFault {
        var oneDayAgo := now - CleanupAge;
        records := map k | k in records && !(records[k].lastAttempt < oneDayAgo && records[k].lockedUntil.None?) :: records[k];
      }
    }
  }

  // ---------------------------------------------------------------------
  // The table invariant: every record has counted at least one failure, and
  // only a record that reached the maximum carries a lock
  // ---------------------------------------------------------------------

  predicate ValidRecord(a: LoginAttempt) {
    a.attempts >= 1 && (a.lockedUntil.Some? ==> a.attempts >= MaxAttempts)
  }

  predicate ValidTable(t: Table) {
    forall k :: k in t ==> ValidRecord(t[k])
  }

  lemma CheckPreservesValid(t: Table, key: AttemptKey, now: int, fault: Fault)
    requires ValidTable(t)
    ensures ValidTable(CheckAttempts(t, key, now, fault).table)
    ensures CheckAttempts(t, key, now, fault).result.remainingAttempts.Some? ==>
              1 <= CheckAttempts(t, key, now, fault).result.remainingAttempts.value < MaxAttempts
  {
  }

  lemma RecordPreservesValid(t: Table, key: AttemptKey, now: int, fault: Fault)
    requires ValidTable(t)
    ensures ValidTable(RecordFailure(t, key, now, fault).table)
  {
  }

  lemma ClearAndCleanupPreserveValid(t: Table, key: AttemptKey, now: int, fault: Fault)
    requires ValidTable(t)
    ensures ValidTable(ClearAttempts(t, key, fault))
    ensures ValidTable(CleanupOld(t, now, fault))
  {
  }

  // ---------------------------------------------------------------------
  // The check, branch by branch
  // ---------------------------------------------------------------------

  /** No record: allowed, nothing reported, table unchanged. */
  lemma CheckWithoutRecord(t: Table, key: AttemptKey, now: int, fault: Fault)
    requires key !in t
    ensures CheckAttempts(t, key, now, fault) == Outcome(Allowed, t)
  {
  }

  /** An unexpired lock: denied for at least one and at most the lock's minutes, table unchanged. */
  lemma CheckWhileLocked(t: Table, key: AttemptKey, now: int, fault: Fault)
    requires fault != ReadFault && key in t && LockActive(t[key], now)
    ensures var o := CheckAttempts(t, key, now, fault);
      && !o.result.allowed && o.table == t
      && o.result.message.Some? && o.result.message.value.LockedFor?
      && o.result.message.value.minutes >= 1
      && (t[key].lockedUntil.value <= now + LockTime ==> o.result.message.value.minutes <= 15)
  {
  }

  /** An expired lock: allowed, and exactly that record is deleted. */
  lemma CheckAfterLockExpired(t: Table, key: AttemptKey, now: int)
    requires key in t && t[key].lockedUntil.Some? && now >= t[key].lockedUntil.value
    ensures CheckAttempts(t, key, now, NoFault) == Outcome(Allowed, t - {key})
  {
  }

  /** The maximum reached without a lock: denied, and the lock is set for fifteen minutes. */
  lemma CheckSetsLock(t: Table, key: AttemptKey, now: int)
    requires key in t && t[key].lockedUntil.None? && t[key].attempts >= MaxAttempts
    ensures var o := CheckAttempts(t, key, now, NoFault);
      && o.result == CheckResult(false, Some(AttemptsExceeded), None)
      && o.table == t[key := LoginAttempt(t[key].attempts, Some(now + LockTime), now)]
  {
  }

  /** Below the maximum and unlocked: allowed, reporting how many attempts remain. */
  lemma CheckCounting(t: Table, key: AttemptKey, now: int, fault: Fault)
    requires fault != ReadFault && key in t && t[key].lockedUntil.None? && t[key].attempts < MaxAttempts
    ensures CheckAttempts(t, key, now, fault) == Outcome(CheckResult(true, None, Some(MaxAttempts - t[key].attempts)), t)
  {
  }

  /**
   * Store errors fail open: a failed lookup allows and changes nothing; a
   * failed write changes nothing and allows unless an unexpired lock was read.
   */
  lemma CheckFailsOpen(t: Table, key: AttemptKey, now: int, fault: Fault)
    ensures fault == ReadFault ==> CheckAttempts(t, key, now, fault) == Outcome(Allowed, t)
    ensures fault == WriteFault ==>
      && CheckAttempts(t, key, now, fault).table == t
      && (CheckAttempts(t, key, now, fault).result.allowed <==> !(key in t && LockActive(t[key], now)))
  {
  }

  // ---------------------------------------------------------------------
  // Recording and clearing
  // ---------------------------------------------------------------------

  /**
   * A failure on a new pair inserts a record with one attempt and reports four
   * left; on an existing pair it adds exactly one, reports `max(0, 5 - new)`,
   * keeps the lock as it was and touches no other pair. A store error reports
   * zero and changes nothing.
   */
  lemma RecordFailureEffect(t: Table, key: AttemptKey, now: int, fault: Fault)
    ensures var o := RecordFailure(t, key, now, fault);
      && (fault != NoFault ==> o == Outcome(0, t))
      && (fault == NoFault && key !in t ==> o.result == 4 && o.table == t[key := LoginAttempt(1, None, now)])
      && (fault == NoFault && key in t ==>
            && key in o.table
            && o.table[key].attempts == t[key].attempts + 1
            && o.table[key].lockedUntil == t[key].lockedUntil
            && o.table[key].lastAttempt == now
            && o.result == (if t[key].attempts + 1 <= MaxAttempts then MaxAttempts - t[key].attempts - 1 else 0))
      && o.result >= 0
      && o.table - {key} == t - {key}
  {
  }

  /** Clearing removes exactly the given pair. */
  lemma ClearRemovesOnlyKey(t: Table, key: AttemptKey)
    ensures ClearAttempts(t, key, NoFault).Keys == t.Keys - {key}
    ensures forall k :: k in ClearAttempts(t, key, NoFault) ==> ClearAttempts(t, key, NoFault)[k] == t[k]
  {
  }

  /** The cleanup keeps exactly the records that are locked or were touched within the last day. */
  lemma CleanupKeepsExactly(t: Table, now: int)
    ensures forall k :: k in CleanupOld(t, now, NoFault) <==> k in t && !Stale(t[k], now)
    ensures forall k :: k in CleanupOld(t, now, NoFault) ==> CleanupOld(t, now, NoFault)[k] == t[k]
    ensures forall k :: k in t && t[k].lockedUntil.Some? ==> k in CleanupOld(t, now, NoFault)
  {
  }

  // ---------------------------------------------------------------------
  // The state machine over several logins
  // ---------------------------------------------------------------------

  /** One failed login as the login handler performs it: a check, then a failure if allowed. */
  function FailedLogin(t: Table, key: AttemptKey, now: int): Table {
    var c := CheckAttempts(t, key, now, NoFault);
    if c.result.allowed then RecordFailure(c.table, key, now, NoFault).table else c.table
  }

  /** Failed logins for the same pair at the given times, in order. */
  function FailedLogins(t: Table, key: AttemptKey, times: seq<int>): Table
    decreases |times|
  {
    if |times| == 0 then t else FailedLogins(FailedLogin(t, key, times[0]), key, times[1..])
  }

  /** How many failures the table holds for the pair. */
  function AttemptsOf(t: Table, key: AttemptKey): int {
    if key in t then t[key].attempts else 0
  }

  /**
   * From an unlocked pair, each failed login adds exactly one attempt (while
   * the maximum is not passed) and leaves the pair unlocked; other pairs are
   * untouched.
   */
  lemma {:induction false} FailuresAccumulate(t: Table, key: AttemptKey, times: seq<int>)
    requires key !in t || (t[key].lockedUntil.None? && t[key].attempts >= 1)
    requires AttemptsOf(t, key) + |times| <= MaxAttempts
    ensures var r := FailedLogins(t, key, times);
      && (|times| > 0 ==> key in r && r[key].lockedUntil.None? && r[key].lastAttempt == times[|times| - 1])
      && AttemptsOf(r, key) == AttemptsOf(t, key) + |times|
      && (key in t ==> key in r && r[key].lockedUntil.None?)
      && r - {key} == t - {key}
    decreases |times|
  {
    if |times| > 0 {
      var t1 := FailedLogin(t, key, times[0]);
      assert key in t1 && t1[key].lockedUntil.None? && t1[key].attempts >= 1;
      assert AttemptsOf(t1, key) == AttemptsOf(t, key) + 1;
      assert t1[key].lastAttempt == times[0];
      assert t1 - {key} == t - {key};
      FailuresAccumulate(t1, key, times[1..]);
    }
  }

  /**
   * After five failed logins from a clean pair, the next login is denied and
   * locks the pair for fifteen minutes; a check before the lock expires is
   * still denied, and the first check at or after the expiry allows and
   * deletes the record.
   */
  lemma {:induction false} LockoutAndRelease(t: Table, key: AttemptKey, times: seq<int>, now: int, later: int)
    requires key !in t && |times| == MaxAttempts
    ensures var failed := FailedLogins(t, key, times);
      var locked := CheckAttempts(failed, key, now, NoFault);
      && !locked.result.allowed
      && key in locked.table && locked.table[key].lockedUntil == Some(now + LockTime)
      && (later < now + LockTime ==> !CheckAttempts(locked.table, key, later, NoFault).result.allowed)
      && (later >= now + LockTime ==>
            CheckAttempts(locked.table, key, later, NoFault) == Outcome(Allowed, locked.table - {key}))
  {
    FailuresAccumulate(t, key, times);
  }
}
