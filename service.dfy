/** `AuthService` (auth/service.ts): account bookkeeping over the `auth_users`
    table, the `auth_login_failures` log and session tokens. The store is the
    object's own state; time is the `now` parameter, in milliseconds. */
module Service {
  import opened Types
  import opened Config
  import opened JsString
  import opened Hashing
  import opened Password
  import opened Lockout
  import opened Jwt

  /** The user view handed back to callers; it never carries the hash. */
  datatype PublicUser = PublicUser(id: int, username: string, isAdmin: int, lastLoginAt: Option<int>)

  /** One variant per distinct failure the service raises. */
  datatype AuthError =
    | RegistrationDisabled
    | InvalidInput
    | WeakPassword(reason: Strength)
    | UsernameTaken
    | InvalidCredentials
    | AccountLocked(remainingSeconds: int, retryMinutes: int)
    | UserNotFound
    | WrongOldPassword

  datatype Session = Session(token: Token, user: PublicUser)

  datatype Result<T> = Ok(value: T) | Err(error: AuthError)

  /** The row `register` inserts: the column defaults of `auth_users`. */
  function NewUser(id: int, username: string, passwordHash: string): UserRow {
    UserRow(id, username, passwordHash, 0, 0, 0, None, None)
  }

  /** The rows of the table carry versions at least as large as before, and no row is dropped. */
  predicate VersionsGrow(before: map<int, UserRow>, after: map<int, UserRow>) {
    forall id :: id in before ==> id in after && after[id].tokenVersion >= before[id].tokenVersion
  }

  /** The failure record `recordFailure` appends (`username || null`, `ip || null`). */
  function FailureOf(username: string, ip: Option<string>, now: int): FailureRecord {
    FailureRecord(OrNull(Some(username)), OrNull(ip), now)
  }

  class AuthService {
    /** `auth_users`, keyed by id. */
    var users: map<int, UserRow>
    /** The UNIQUE index on `auth_users.username`. */
    var byName: map<string, int>
    /** `auth_login_failures`, oldest first. */
    var failures: seq<FailureRecord>
    /** The next AUTO_INCREMENT id. */
    var nextId: int
    const config: AuthConfig
    const hasher: Hasher

    ghost predicate Valid()
      reads this
    {
      Sound(hasher) && nextId >= 1 &&
      (forall id :: id in users ==>
        users[id].id == id && 1 <= id < nextId && LockConsistent(users[id], config) &&
        users[id].username in byName && byName[users[id].username] == id) &&
      (forall n :: n in byName ==> byName[n] in users && users[byName[n]].username == n)
    }

    constructor (config: AuthConfig, hasher: Hasher)
      requires Sound(hasher)
      ensures Valid()
      ensures this.config == config && this.hasher == hasher
      ensures users == map[] && byName == map[] && failures == [] && nextId == 1
    {
      this.config := config;
      this.hasher := hasher;
      users := map[];
      byName := map[];
      failures := [];
      nextId := 1;
    }

    /** `getUserById`: the row with that id, if any. */
    function GetUserById(id: int): (r: Option<UserRow>)
      reads this
      requires Valid()
      ensures r.Some? <==> id in users
      ensures r.Some? ==> r.value.id == id && r.value == users[id]
    {
      if id in users then Some(users[id]) else None
    }

    /** `getUserByUsername`: the one row with exactly that name, if any. */
    function GetUserByUsername(name: string): (r: Option<UserRow>)
      reads this
      requires Valid()
      ensures r.Some? <==> exists id :: id in users && users[id].username == name
      ensures r.Some? ==> r.value.username == name && r.value.id in users && users[r.value.id] == r.value
    {
      if name in byName then
        var id := byName[name];
        assert id in users && users[id].username == name;
        Some(users[id])
      else None
    }

    /** `generateToken`: a token for the row's id, name and version. */
    function GenerateToken(u: UserRow, now: int): (t: Token)
      ensures config.jwtExpiresInSeconds >= 1 ==>
        Verify(t, config.jwtSecret, now) == Some(TokenPayload(u.id, u.username, u.tokenVersion))
    {
      SignVerifyRoundTrip(TokenPayload(u.id, u.username, u.tokenVersion), config.jwtSecret,
        config.jwtExpiresInSeconds, now, now);
      Sign(TokenPayload(u.id, u.username, u.tokenVersion), config.jwtSecret, config.jwtExpiresInSeconds, now)
    }

    /** `verifyToken`: the account a token stands for, or None when the token
        does not verify, names id 0, names a missing account, or carries a
        version other than the account's current one. */
    function VerifyToken(t: Token, now: int): (r: Option<UserRow>)
      reads this
      requires Valid()
      ensures Verify(t, config.jwtSecret, now).None? ==> r.None?
      ensures t.Signed? && (t.payload.sub == 0 || t.payload.sub !in users) ==> r.None?
      ensures t.Signed? && t.payload.sub in users && users[t.payload.sub].tokenVersion != t.payload.tokenVersion ==> r.None?
      ensures r.Some? ==>
        t.Signed? && r.value.id == t.payload.sub && r.value == users[t.payload.sub] &&
        r.value.tokenVersion == t.payload.tokenVersion
      ensures (Verify(t, config.jwtSecret, now).Some? && t.payload.sub != 0 && t.payload.sub in users &&
               users[t.payload.sub].tokenVersion == t.payload.tokenVersion) ==> r.Some?
    {
      match Verify(t, config.jwtSecret, now)
      case None => None
      case Some(p) =>
        if p.sub == 0 then None
        else
          match GetUserById(p.sub)
          case None => None
          case Some(u) => if p.tokenVersion != u.tokenVersion then None else Some(u)
    }

    /** What `register` leaves behind, measured from the state before the
        call: the refusals in the order the code checks them, each with
        nothing written; success exactly when none applies, and then one new
        row under the next id, indexed by its trimmed name. */
    twostate predicate RegisterOutcome(username: string, password: string, now: int, new r: Result<Session>)
      reads this
      requires old(Valid())
    {
      var strength := ValidatePasswordStrength(password, config.passwordMinLength, config.requireLetterAndNumber);
      (!config.allowRegistration ==> r == Err(RegistrationDisabled)) &&
      (config.allowRegistration && Trim(username) == [] ==> r == Err(InvalidInput)) &&
      (config.allowRegistration && Trim(username) != [] && !strength.Strong? ==> r == Err(WeakPassword(strength))) &&
      ((config.allowRegistration && Trim(username) != [] && strength.Strong? &&
        old(GetUserByUsername(Trim(username))).Some?) ==> r == Err(UsernameTaken)) &&
      (r.Err? ==> users == old(users) && byName == old(byName) && nextId == old(nextId)) &&
      (r.Ok? <==>
        config.allowRegistration && Trim(username) != [] && strength.Strong? &&
        old(GetUserByUsername(Trim(username))).None?) &&
      (r.Ok? ==>
        var id := old(nextId);
        id !in old(users) && nextId == id + 1 &&
        users == old(users)[id := NewUser(id, Trim(username), hasher.hash(password))] &&
        byName == old(byName)[Trim(username) := id] &&
        r.value == Session(GenerateToken(users[id], now), PublicUser(id, Trim(username), 0, None)))
    }

    /** What `login` leaves behind, measured from the state before the call:
        an unknown trimmed name logs one failure and touches no account; an
        existing account takes one `LoginStep`, and a failure is logged only
        when that step rejects the password. */
    twostate predicate LoginOutcome(username: string, password: string, ip: Option<string>, now: int, new r: Result<Session>)
      reads this
      requires old(Valid())
    {
      (old(GetUserByUsername(Trim(username))).None? ==>
        r == Err(InvalidCredentials) && users == old(users) &&
        failures == old(failures) + [FailureOf(Trim(username), ip, now)]) &&
      (old(GetUserByUsername(Trim(username))).Some? ==>
        var u := old(GetUserByUsername(Trim(username))).value;
        var step := LoginStep(u, Attempt(hasher.verify(password, u.passwordHash), now), config);
        users == old(users)[u.id := step.0] &&
        failures == old(failures) + (if step.1.Rejected? then [FailureOf(Trim(username), ip, now)] else []) &&
        r == match step.1
             case Locked(remain) => Err(AccountLocked(remain, RetryMinutes(remain)))
             case Rejected => Err(InvalidCredentials)
             case Accepted => Ok(Session(GenerateToken(step.0, now), PublicUser(u.id, u.username, u.isAdmin, Some(now)))))
    }

    /** `recordFailure`: appends one record to the failure log. */
    method RecordFailure(username: string, ip: Option<string>, now: int)
      modifies this`failures
      ensures failures == old(failures) + [FailureOf(username, ip, now)]
    {
      failures := failures + [FailureRecord(OrNull(Some(username)), OrNull(ip), now)];
    }

    /** `handleFailedAttempt`: stores one more failure than `user` carries and a
        lock exactly when that count reaches the threshold; nothing else of the
        stored row changes, and a missing row is left alone. */
    method HandleFailedAttempt(user: UserRow, now: int)
      requires Valid()
      modifies this`users
      ensures Valid()
      ensures user.id !in old(users) ==> users == old(users)
      ensures user.id in old(users) ==>
        var stored := old(users)[user.id];
        users == old(users)[user.id := stored.(failedAttempts := user.failedAttempts + 1,
          lockUntil := if user.failedAttempts + 1 >= config.rateLimitMaxFailures
                       then Some(now + LockMillis(config)) else None)]
      ensures user.id in old(users) && old(users)[user.id] == user ==>
        users == old(users)[user.id := AfterFailure(user, now, config)]
    {
      var attempts := user.failedAttempts + 1;
      var lockUntil: Option<int> := None;
      if attempts >= config.rateLimitMaxFailures {
        lockUntil := Some(now + config.rateLimitLockMinutes * 60 * 1000);
      }
      if user.id in users {
        users := users[user.id := users[user.id].(failedAttempts := attempts, lockUntil := lockUntil)];
      }
    }

    /** `resetFailures`: clears the counter and the lock of one row. */
    method ResetFailures(userId: int)
      requires Valid()
      modifies this`users
      ensures Valid()
      ensures userId !in old(users) ==> users == old(users)
      ensures userId in old(users) ==> users == old(users)[userId := AfterReset(old(users)[userId])]
    {
      if userId in users {
        users := users[userId := users[userId].(failedAttempts := 0, lockUntil := None)];
      }
    }

    /** `register`: refuses, in this order, when registration is off, the
        trimmed name is empty, the password is weak, or the name is taken;
        otherwise inserts exactly one zeroed row and returns a token for it
        with a view that has no hash. */
    method Register(username: string, password: string, now: int) returns (r: Result<Session>)
      requires Valid()
      modifies this`users, this`byName, this`nextId
      ensures Valid()
      ensures VersionsGrow(old(users), users)
      ensures RegisterOutcome(username, password, now, r)
      ensures r.Ok? && config.jwtExpiresInSeconds >= 1 ==> VerifyToken(r.value.token, now) == Some(users[old(nextId)])
    {
      if !config.allowRegistration {
        return Err(RegistrationDisabled);
      }
      var normalized := Trim(username);
      if normalized == [] {
        return Err(InvalidInput);
      }
      var strength := ValidatePasswordStrength(password, config.passwordMinLength, config.requireLetterAndNumber);
      if !strength.Strong? {
        return Err(WeakPassword(strength));
      }
      var existing := GetUserByUsername(normalized);
      if existing.Some? {
        return Err(UsernameTaken);
      }
      var passwordHash := hasher.hash(password);
      var id := nextId;
      var user := NewUser(id, normalized, passwordHash);
      users := users[id := user];
      byName := byName[normalized := id];
      nextId := nextId + 1;
      var token := GenerateToken(user, now);
      r := Ok(Session(token, PublicUser(user.id, user.username, user.isAdmin, user.lastLoginAt)));
    }

    /** `login`: an unknown (trimmed) name logs a failure and leaves every
        account alone; an existing one is handled by `LoginStep`, with a
        failure logged only for a wrong password, and a success minted from the
        row as re-read after the reset. */
    method Login(username: string, password: string, ip: Option<string>, now: int) returns (r: Result<Session>)
      requires Valid()
      modifies this`users, this`failures
      ensures Valid()
      ensures VersionsGrow(old(users), users)
      ensures LoginOutcome(username, password, ip, now, r)
      ensures r.Ok? && config.jwtExpiresInSeconds >= 1 ==>
        r.value.user.id in users && VerifyToken(r.value.token, now) == Some(users[r.value.user.id])
    {
      var normalized := Trim(username);
      var found := GetUserByUsername(normalized);
      if found.None? {
        RecordFailure(normalized, ip, now);
        return Err(InvalidCredentials);
      }
      var user := found.value;
      if IsLocked(user, now) {
        var remain := LockRemaining(user, now);
        return Err(AccountLocked(remain, RetryMinutes(remain)));
      }
      var ok := hasher.verify(password, user.passwordHash);
      if !ok {
        RecordFailure(normalized, ip, now);
        HandleFailedAttempt(user, now);
        return Err(InvalidCredentials);
      }
      ResetFailures(user.id);
      users := users[user.id := users[user.id].(lastLoginAt := Some(now))];
      var reread := GetUserById(user.id);
      var token := GenerateToken(reread.value, now);
      r := Ok(Session(token, PublicUser(user.id, user.username, user.isAdmin, Some(now))));
    }

    /** `changePassword`: refuses, with nothing written, a missing account, a
        wrong old password or a weak new one; otherwise stores the new hash,
        bumps the token version by one, clears the lockout and returns a token
        for the new version. Every token of the old version stops verifying. */
    method ChangePassword(userId: int, oldPassword: string, newPassword: string, now: int) returns (r: Result<Token>)
      requires Valid()
      modifies this`users
      ensures Valid()
      ensures VersionsGrow(old(users), users)
      ensures userId !in old(users) ==> r == Err(UserNotFound)
      ensures userId in old(users) && !hasher.verify(oldPassword, old(users)[userId].passwordHash) ==>
        r == Err(WrongOldPassword)
      ensures (userId in old(users) && hasher.verify(oldPassword, old(users)[userId].passwordHash) &&
               !ValidatePasswordStrength(newPassword, config.passwordMinLength, config.requireLetterAndNumber).Strong?) ==>
        r == Err(WeakPassword(ValidatePasswordStrength(newPassword, config.passwordMinLength, config.requireLetterAndNumber)))
      ensures r.Err? ==> users == old(users)
      ensures r.Ok? <==>
        userId in old(users) && hasher.verify(oldPassword, old(users)[userId].passwordHash) &&
        ValidatePasswordStrength(newPassword, config.passwordMinLength, config.requireLetterAndNumber).Strong?
      ensures r.Ok? ==>
        userId in old(users) &&
        var before := old(users)[userId];
        users == old(users)[userId := AfterReset(before).(passwordHash := hasher.hash(newPassword),
                                                         tokenVersion := before.tokenVersion + 1)] &&
        r.value == GenerateToken(users[userId], now)
      ensures r.Ok? ==> hasher.verify(newPassword, users[userId].passwordHash)
      ensures r.Ok? ==> forall t: Token, at: int ::
        t.Signed? && t.payload.sub == userId && t.payload.tokenVersion == old(users)[userId].tokenVersion ==>
        VerifyToken(t, at).None?
      ensures r.Ok? && config.jwtExpiresInSeconds >= 1 ==> VerifyToken(r.value, now) == Some(users[userId])
    {
      var found := GetUserById(userId);
      if found.None? {
        return Err(UserNotFound);
      }
      var user := found.value;
      var ok := hasher.verify(oldPassword, user.passwordHash);
      if !ok {
        return Err(WrongOldPassword);
      }
      var strength := ValidatePasswordStrength(newPassword, config.passwordMinLength, config.requireLetterAndNumber);
      if !strength.Strong? {
        return Err(WeakPassword(strength));
      }
      var newHash := hasher.hash(newPassword);
      var newVersion := user.tokenVersion + 1;
      users := users[user.id := users[user.id].(passwordHash := newHash, tokenVersion := newVersion,
                                                 failedAttempts := 0, lockUntil := None)];
      var updated := GetUserById(user.id);
      var token := GenerateToken(updated.value, now);
      r := Ok(token);
    }
  }
}
