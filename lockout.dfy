/** The per-account lockout state machine of `AuthService` (auth/service.ts):
    the lock test, the remaining lock time, and how one login attempt changes
    a row. These are the specification functions of the service's methods. */
module Lockout {
  import opened Types
  import opened Config

  /** `isLocked`: a lock time is present and still in the future. */
  predicate IsLocked(u: UserRow, now: int) {
    u.lockUntil.Some? && u.lockUntil.value > now
  }

  /** `lockRemaining`: the whole seconds left on the lock, rounded up. */
  function LockRemaining(u: UserRow, now: int): (r: int)
    ensures r >= 0
    ensures r > 0 <==> IsLocked(u, now)
    ensures IsLocked(u, now) ==> (r - 1) * 1000 < u.lockUntil.value - now <= r * 1000
  {
    if u.lockUntil.None? then 0
    else
      var diff := u.lockUntil.value - now;
      if diff > 0 then (diff + 999) / 1000 else 0
  }

  /** `Math.ceil(remain / 60)`: the minutes the locked-out message quotes. */
  function RetryMinutes(remainSeconds: int): (m: int)
    ensures (m - 1) * 60 < remainSeconds <= m * 60
  {
    (remainSeconds + 59) / 60
  }

  /** The length of a lock in milliseconds. */
  function LockMillis(cfg: AuthConfig): int {
    cfg.rateLimitLockMinutes * 60 * 1000
  }

  /** The row written by `handleFailedAttempt`: one more failure, and a lock
      from now on exactly when the new count reaches the threshold. */
  function AfterFailure(u: UserRow, now: int, cfg: AuthConfig): UserRow {
    var attempts := u.failedAttempts + 1;
    u.(failedAttempts := attempts,
       lockUntil := if attempts >= cfg.rateLimitMaxFailures then Some(now + LockMillis(cfg)) else None)
  }

  /** The row written by `resetFailures`. */
  function AfterReset(u: UserRow): UserRow {
    u.(failedAttempts := 0, lockUntil := None)
  }

  /** A lock is only ever present on a row whose counter reached the threshold. */
  predicate LockConsistent(u: UserRow, cfg: AuthConfig) {
    u.lockUntil.Some? ==> u.failedAttempts >= cfg.rateLimitMaxFailures
  }

  /** One login attempt against an existing account: when it happened and
      whether the password matched the stored hash. */
  datatype Attempt = Attempt(passwordOk: bool, at: int)

  datatype Verdict = Locked(remainingSeconds: int) | Rejected | Accepted

  /** The effect of `login` on the row of an existing account (service.ts
      lines 164-177): a locked account is refused before the password is looked
      at; a wrong password counts as a failure; a right one clears the counter
      and the lock and stamps `last_login_at`. */
  function LoginStep(u: UserRow, a: Attempt, cfg: AuthConfig): (r: (UserRow, Verdict))
    ensures r.1.Locked? <==> IsLocked(u, a.at)
    ensures r.1.Locked? ==> r.0 == u && r.1.remainingSeconds == LockRemaining(u, a.at)
    ensures r.1.Accepted? <==> !IsLocked(u, a.at) && a.passwordOk
    ensures r.1.Accepted? ==>
      r.0.failedAttempts == 0 && r.0.lockUntil.None? && r.0.lastLoginAt == Some(a.at)
    ensures r.1.Rejected? ==>
      r.0.failedAttempts == u.failedAttempts + 1 && r.0.lastLoginAt == u.lastLoginAt &&
      (r.0.lockUntil.Some? <==> u.failedAttempts + 1 >= cfg.rateLimitMaxFailures) &&
      (r.0.lockUntil.Some? ==> r.0.lockUntil.value == a.at + LockMillis(cfg))
    ensures r.0.id == u.id && r.0.username == u.username && r.0.passwordHash == u.passwordHash
    ensures r.0.isAdmin == u.isAdmin && r.0.tokenVersion == u.tokenVersion
    ensures LockConsistent(u, cfg) ==> LockConsistent(r.0, cfg)
  {
    if IsLocked(u, a.at) then (u, Locked(LockRemaining(u, a.at)))
    else if !a.passwordOk then (AfterFailure(u, a.at, cfg), Rejected)
    else (AfterReset(u).(lastLoginAt := Some(a.at)), Accepted)
  }

  /** The row after a sequence of attempts, the last one applied last. */
  function Replay(u: UserRow, attempts: seq<Attempt>, cfg: AuthConfig): UserRow
  {
    if attempts == [] then u
    else LoginStep(Replay(u, attempts[..|attempts| - 1], cfg), attempts[|attempts| - 1], cfg).0
  }

  /** Lockout outlives its expiry: the counter is not cleared when a lock runs
      out, so the first wrong password after that locks the account again. */
  lemma RelockAfterLapse(u: UserRow, now: int, cfg: AuthConfig)
    requires LockConsistent(u, cfg) && u.lockUntil.Some? && !IsLocked(u, now)
    requires cfg.rateLimitLockMinutes >= 1
    ensures LoginStep(u, Attempt(false, now), cfg).1 == Rejected
    ensures IsLocked(LoginStep(u, Attempt(false, now), cfg).0, now)
    ensures LoginStep(u, Attempt(false, now), cfg).0.lockUntil == Some(now + LockMillis(cfg))
  {
  }

  /** Wrong passwords on an account with no lock time, up to the threshold:
      each raises the counter by one, and the lock is set only by the attempt
      that reaches the threshold, from that attempt's time. */
  lemma {:induction false} WrongPasswordsCount(u: UserRow, attempts: seq<Attempt>, cfg: AuthConfig)
    requires u.lockUntil.None? && u.failedAttempts + |attempts| <= cfg.rateLimitMaxFailures
    requires forall k :: 0 <= k < |attempts| ==> !attempts[k].passwordOk
    ensures Replay(u, attempts, cfg).failedAttempts == u.failedAttempts + |attempts|
    ensures Replay(u, attempts, cfg).lockUntil ==
      if attempts != [] && u.failedAttempts + |attempts| == cfg.rateLimitMaxFailures
      then Some(attempts[|attempts| - 1].at + LockMillis(cfg)) else None
  {
    if attempts != [] {
      var n := |attempts| - 1;
      var init := attempts[..n];
      assert forall k :: 0 <= k < |init| ==> init[k] == attempts[k];
      WrongPasswordsCount(u, init, cfg);
    }
  }

  /** None of those wrong passwords is refused as locked: each is an ordinary
      rejection, so each is logged and counted. */
  lemma WrongPasswordsRejected(u: UserRow, attempts: seq<Attempt>, cfg: AuthConfig)
    requires u.lockUntil.None? && u.failedAttempts + |attempts| <= cfg.rateLimitMaxFailures
    requires forall k :: 0 <= k < |attempts| ==> !attempts[k].passwordOk
    ensures forall k :: 0 <= k < |attempts| ==>
      LoginStep(Replay(u, attempts[..k], cfg), attempts[k], cfg).1 == Rejected
  {
    forall k | 0 <= k < |attempts|
      ensures LoginStep(Replay(u, attempts[..k], cfg), attempts[k], cfg).1 == Rejected
    {
      WrongPasswordsCount(u, attempts[..k], cfg);
    }
  }

  /** After exactly `rateLimitMaxFailures` wrong passwords from a clean row,
      every attempt refuses the account, even with the right password, until
      the lock time; from then on the right password is accepted and clears
      the counter. */
  lemma LockoutCycle(u: UserRow, attempts: seq<Attempt>, cfg: AuthConfig, later: int)
    requires u.failedAttempts == 0 && u.lockUntil.None?
    requires cfg.rateLimitMaxFailures >= 1 && |attempts| == cfg.rateLimitMaxFailures
    requires forall k :: 0 <= k < |attempts| ==> !attempts[k].passwordOk
    ensures var locked := Replay(u, attempts, cfg);
      var until := attempts[|attempts| - 1].at + LockMillis(cfg);
      locked.failedAttempts == cfg.rateLimitMaxFailures &&
      (later < until ==> LoginStep(locked, Attempt(true, later), cfg).1.Locked?) &&
      (later >= until ==>
        LoginStep(locked, Attempt(true, later), cfg).1 == Accepted &&
        LoginStep(locked, Attempt(true, later), cfg).0.failedAttempts == 0)
  {
    WrongPasswordsCount(u, attempts, cfg);
  }
}
