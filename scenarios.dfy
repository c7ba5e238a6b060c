/** End-to-end properties of the two stores, proved as clients of their
    contracts: the lockout cycle of one account (auth/service.ts lines
    152-191), revocation by password change (lines 193-238), and the captcha
    issuance cooldown (auth/captcha.ts lines 18-27). Each is proved for new
    stores built under the default configuration (five failures, ten minutes,
    eight characters with a letter and a digit, three captchas per five
    seconds). */
module Scenarios {
  import opened Types
  import opened Config
  import opened JsString
  import opened Hashing
  import opened Password
  import opened Lockout
  import opened Jwt
  import opened Service
  import opened Captcha

  /** The store holds exactly one account, "alice" with id 1 and password
      "Passw0rd", with the given counter and lock. */
  ghost predicate AliceAt(s: AuthService, failed: int, lockUntil: Option<int>)
    reads s
  {
    s.Valid() && s.config == Defaults &&
    "alice" in s.byName && s.byName["alice"] == 1 && 1 in s.users &&
    s.users[1].username == "alice" && s.users[1].passwordHash == s.hasher.hash("Passw0rd") &&
    s.users[1].failedAttempts == failed && s.users[1].lockUntil == lockUntil
  }

  /** `register("alice", "Passw0rd")` on an empty store. */
  method RegisterAlice(h: Hasher) returns (s: AuthService, r: Result<Session>)
    requires Sound(h)
    ensures fresh(s) && s.hasher == h && AliceAt(s, 0, None)
    ensures r.Ok? && r.value.user == PublicUser(1, "alice", 0, None)
    ensures s.VerifyToken(r.value.token, 0) == Some(s.users[1])
  {
    DefaultPolicyAccepts();
    TrimUnpadded("alice");
    s := new AuthService(Defaults, h);
    assert s.GetUserByUsername("alice").None?;
    assert ValidatePasswordStrength("Passw0rd", s.config.passwordMinLength, s.config.requireLetterAndNumber).Strong?;
    r := s.Register("alice", "Passw0rd", 0);
    assert r.Ok?;
    assert s.users == map[1 := NewUser(1, "alice", h.hash("Passw0rd"))];
    assert s.byName == map["alice" := 1];
    assert r.value.token == s.GenerateToken(s.users[1], 0);
  }

  /** One wrong password while alice is not locked. */
  method WrongPassword(s: AuthService, failed: int, now: int) returns (r: Result<Session>)
    requires AliceAt(s, failed, None) && 0 <= failed < Defaults.rateLimitMaxFailures
    requires !s.hasher.verify("wrong", s.hasher.hash("Passw0rd"))
    modifies s
    ensures r == Err(InvalidCredentials)
    ensures AliceAt(s, failed + 1, if failed + 1 == Defaults.rateLimitMaxFailures then Some(now + 600000) else None)
  {
    TrimUnpadded("alice");
    ghost var u := s.users[1];
    assert s.GetUserByUsername("alice") == Some(u);
    assert !s.hasher.verify("wrong", u.passwordHash);
    assert !IsLocked(u, now);
    r := s.Login("alice", "wrong", None, now);
    assert s.users == old(s.users)[1 := AfterFailure(u, now, Defaults)];
    assert s.Valid();
    assert s.users[1].failedAttempts == failed + 1;
    assert s.users[1].lockUntil == if failed + 1 == Defaults.rateLimitMaxFailures then Some(now + 600000) else None;
    assert r == Err(InvalidCredentials);
  }

  /** The right password, at a time the lock (if any) covers or not. */
  method RightPassword(s: AuthService, failed: int, lockUntil: Option<int>, now: int) returns (r: Result<Session>)
    requires AliceAt(s, failed, lockUntil)
    modifies s
    ensures lockUntil.Some? && lockUntil.value > now ==>
      r.Err? && r.error.AccountLocked? && AliceAt(s, failed, lockUntil)
    ensures !(lockUntil.Some? && lockUntil.value > now) ==> r.Ok? && AliceAt(s, 0, None)
  {
    TrimUnpadded("alice");
    ghost var u := s.users[1];
    assert s.GetUserByUsername("alice") == Some(u);
    assert s.hasher.verify("Passw0rd", u.passwordHash);
    r := s.Login("alice", "Passw0rd", None, now);
    if lockUntil.Some? && lockUntil.value > now {
      assert IsLocked(u, now);
      assert s.users == old(s.users);
      assert r.Err? && r.error.AccountLocked?;
    } else {
      assert s.users == old(s.users)[1 := AfterReset(u).(lastLoginAt := Some(now))];
      assert s.Valid();
      assert r.Ok?;
    }
  }

  /** Register "alice"; four wrong passwords leave her unlocked with four
      failures; the fifth locks her, so the right password is refused as
      locked; once the ten minutes are over it is accepted again and the
      counter is back to zero. */
  method LockoutCycleScenario(h: Hasher)
    returns (registered: Result<Session>, fourth: Result<Session>, countAfterFour: int,
             lockAfterFour: Option<int>, fifth: Result<Session>, countAfterFive: int,
             whileLocked: Result<Session>, afterLock: Result<Session>, countAfterLock: int)
    requires Sound(h) && !h.verify("wrong", h.hash("Passw0rd"))
    ensures registered.Ok? && registered.value.user == PublicUser(1, "alice", 0, None)
    ensures fourth == Err(InvalidCredentials) && countAfterFour == 4 && lockAfterFour == None
    ensures fifth == Err(InvalidCredentials) && countAfterFive == 5
    ensures whileLocked.Err? && whileLocked.error.AccountLocked?
    ensures afterLock.Ok? && countAfterLock == 0
  {
    var s;
    s, registered := RegisterAlice(h);
    var r := WrongPassword(s, 0, 1000);
    r := WrongPassword(s, 1, 2000);
    r := WrongPassword(s, 2, 3000);
    fourth := WrongPassword(s, 3, 4000);
    countAfterFour := s.users[1].failedAttempts;
    lockAfterFour := s.users[1].lockUntil;
    fifth := WrongPassword(s, 4, 5000);
    countAfterFive := s.users[1].failedAttempts;
    whileLocked := RightPassword(s, 5, Some(5000 + 600000), 6000);
    afterLock := RightPassword(s, 5, Some(5000 + 600000), 5000 + 600000);
    countAfterLock := s.users[1].failedAttempts;
  }

  /** A token issued at registration verifies; after a password change it no
      longer does, and the token the change returns verifies. */
  method RevocationScenario(h: Hasher)
    returns (before: Token, acceptedBefore: bool, changed: Result<Token>, acceptedAfter: bool, newAccepted: bool)
    requires Sound(h)
    ensures acceptedBefore && changed.Ok? && !acceptedAfter && newAccepted
  {
    var s, registered := RegisterAlice(h);
    before := registered.value.token;
    acceptedBefore := s.VerifyToken(before, 0).Some?;
    assert before.Signed? && before.payload.sub == 1 && before.payload.tokenVersion == s.users[1].tokenVersion;
    assert s.hasher.verify("Passw0rd", s.users[1].passwordHash);
    assert ValidatePasswordStrength("N3wPassword", 8, true).Strong? by {
      assert InClass("N3wPassword"[0], AsciiLetter);
      assert InClass("N3wPassword"[1], Digit);
    }
    changed := s.ChangePassword(1, "Passw0rd", "N3wPassword", 1000);
    assert changed.Ok?;
    assert s.VerifyToken(before, 2000).None?;
    acceptedAfter := s.VerifyToken(before, 2000).Some?;
    newAccepted := s.VerifyToken(changed.value, 1000).Some?;
  }

  /** Three captchas from one address inside the five-second cooldown are
      issued; the fourth is refused. */
  method CooldownScenario(h: Hasher)
    returns (first: IssueResult, second: IssueResult, third: IssueResult, fourth: IssueResult)
    ensures first.Granted? && second.Granted? && third.Granted?
    ensures fourth == RateLimited
  {
    var store := new CaptchaStore(Defaults, h);
    var ip := Some("10.0.0.1");
    CountEmpty("10.0.0.1", WindowStart(0, Defaults));
    first := store.GenerateCaptcha(ip, "ABCD", 0);
    ghost var m1 := store.captchas;
    CountEmpty("10.0.0.1", WindowStart(1000, Defaults));
    CountAfterInsert(map[], m1[1], "10.0.0.1", WindowStart(1000, Defaults));
    assert m1 == map[][1 := m1[1]];
    second := store.GenerateCaptcha(ip, "EFGH", 1000);
    ghost var m2 := store.captchas;
    CountEmpty("10.0.0.1", WindowStart(2000, Defaults));
    CountAfterInsert(map[], m1[1], "10.0.0.1", WindowStart(2000, Defaults));
    CountAfterInsert(m1, m2[2], "10.0.0.1", WindowStart(2000, Defaults));
    third := store.GenerateCaptcha(ip, "JKLM", 2000);
    ghost var m3 := store.captchas;
    CountEmpty("10.0.0.1", WindowStart(3000, Defaults));
    CountAfterInsert(map[], m1[1], "10.0.0.1", WindowStart(3000, Defaults));
    CountAfterInsert(m1, m2[2], "10.0.0.1", WindowStart(3000, Defaults));
    CountAfterInsert(m2, m3[3], "10.0.0.1", WindowStart(3000, Defaults));
    fourth := store.GenerateCaptcha(ip, "NPQR", 3000);
  }
}
