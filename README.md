# Account authentication of the prompt-optimizer MCP server

This project models the account layer of the MCP server of prompt-optimizer
in Dafny and proves properties of it. The layer covers:

- registration with a password policy;
- login with a per-account lockout after repeated wrong passwords;
- password change that revokes every earlier token;
- bearer-token verification;
- one-shot image captchas, rate-limited per client address.

The MySQL tables become fields of two classes:

- `Service.AuthService` holds `auth_users` as a map from id to row. A second
  map, from user name to id, stands for the table's unique index on
  `username`, with names compared character for character. The class also holds the
  `auth_login_failures` log as a sequence.
- `Captcha.CaptchaStore` holds `auth_captchas` as a map from id to row.

Strings stored in MySQL (user names, client addresses) are compared
character for character; the collation MySQL applies to them is not
modelled (see "Left out").

Every method of the two classes states its whole new state in terms of the
old one; the two route compositions state the new captcha table and tie the
service's new state to the contract of `login` or `register`. The two
classes keep class invariants (`Valid`): the name index agrees with the
rows, ids lie below the next auto-increment value, every lock sits on a row
whose failure counter is at or above the threshold, and every captcha hash
is the hash of its upper-cased code.

The per-row arithmetic of the lockout is the pure module `Lockout`:

- the lock test and the remaining seconds;
- the row after a failure or a reset;
- one login step as a function of the row and the attempt.

Lemmas over sequences of attempts prove the lockout cycle. Five wrong
passwords lock the account. While locked, even the right password is
refused and the row does not change. Once the lock lapses, the right
password is accepted and clears the counter. A wrong password after a lapse
locks again at once, because the counter was not cleared.

bcrypt is a pair of functions, `hash` and `verify` (module `Hashing`), with
two separate hypotheses:

- soundness: a password verifies against its own hash. `Service.AuthService`
  assumes this (its constructor requires it and its invariant keeps it);
  in `Captcha.CaptchaStore` it is only the hypothesis of one clause of
  `VerifyCaptcha`.
- freedom from collisions: nothing else verifies. bcryptjs does not have
  this property (see "Left out"), so it appears only as an explicit
  hypothesis of one clause of `Captcha.CaptchaStore.VerifyCaptcha`. The
  scenarios assume soundness, plus, for the lockout story, that "wrong"
  does not verify against the hash of "Passw0rd".

JSON Web Tokens are a datatype with a signing key and an expiry in seconds
(module `Jwt`). The JavaScript built-ins the code relies on are modelled in
module `JsString`, on strings of Unicode scalar values (a lone surrogate is
not representable; see "Left out"):

- `trim`, with the ECMAScript whitespace set;
- `length`, counted in UTF-16 code units;
- `toUpperCase`, restricted to ASCII letters.

`Routes` composes the two stores the way the `/login` and `/register`
handlers do (packages/mcp-server/src/auth/routes.ts:53-90). `Scenarios`
proves three end-to-end properties for new stores under the default
configuration: the lockout cycle (packages/mcp-server/src/auth/service.ts:152-191),
revocation by password change (packages/mcp-server/src/auth/service.ts:193-238)
and the captcha cooldown (packages/mcp-server/src/auth/captcha.ts:18-27).

The clock (`Date.now()` and SQL `NOW()`) is an explicit `now` parameter in
milliseconds. The random captcha text is a parameter too.

Points where the code's behaviour may be unexpected, and what the model does:

- A wrong old password in `changePassword` has its own message in the code
  (packages/mcp-server/src/auth/service.ts:201). The model gives it its own
  error, `WrongOldPassword`, rather than the login error `InvalidCredentials`.
- A lock that has lapsed does not reset the counter
  (packages/mcp-server/src/auth/service.ts:164-174). The next wrong password
  therefore locks the account again (`Lockout.RelockAfterLapse`).
- A captcha whose `expires_at` equals the current time is still accepted,
  because the code compares with a strict `<`
  (packages/mcp-server/src/auth/captcha.ts:71).
- A long forwarded address can disable the lockout. The failure log's
  `ip_address` column is `VARCHAR(45)` (packages/mcp-server/src/auth/db.ts:58),
  and MySQL in its default strict mode rejects a longer value. The address is
  taken from the client-supplied `X-Forwarded-For` header
  (packages/mcp-server/src/auth/routes.ts:10-11), and `login` writes the
  failure record before it raises the counter
  (packages/mcp-server/src/auth/service.ts:171-172). So a wrong password
  sent with a header longer than 45 characters fails with a database error
  before the counter is written, and the account never locks. The model
  treats every query as successful and does not capture this.

## Model

| member | source | states |
|---|---|---|
| Config.Defaults | packages/mcp-server/src/config/auth-config.ts:70-83 | definition: the configuration used when no environment variable is set (registration on, secret "change-me", "7d" as 604800 s, 300 s captcha lifetime, at most 3 captchas per 5 s, at least 8 characters with a letter and a digit, 5 failures lock for 10 minutes) |
| Types.OrNull | packages/mcp-server/src/auth/service.ts:46 | `x \|\| null` on an optional string: keeps a non-empty value, and turns an absent or empty one into null |
| JsString.SkipLeading | packages/mcp-server/src/auth/service.ts:102 | the first index from `i` that is not whitespace: everything skipped is whitespace, and the character it stops at is not |
| JsString.SkipTrailing | packages/mcp-server/src/auth/service.ts:102 | the end of a slice once its trailing whitespace is dropped: everything dropped is whitespace, and the last character kept is not |
| JsString.Trim | packages/mcp-server/src/auth/service.ts:102 | `trim()` returns a contiguous piece of the input, only whitespace lies on either side of it, and it neither starts nor ends with whitespace |
| JsString.TrimEmptyIff | packages/mcp-server/src/auth/service.ts:102-105 | a trimmed name is empty exactly when the name is all whitespace, which is when registration rejects it |
| JsString.TrimUnpadded | packages/mcp-server/src/auth/service.ts:157 | a name that neither starts nor ends with whitespace is looked up unchanged |
| JsString.TrimIdempotent | packages/mcp-server/src/auth/service.ts:102 | trimming a stored (already trimmed) name changes nothing |
| JsString.Upper | packages/mcp-server/src/auth/captcha.ts:39 | upper-casing keeps the length |
| JsString.UpperEqualIff | packages/mcp-server/src/auth/captcha.ts:76 | two codes upper-case to the same string exactly when they agree letter by letter up to case, so captcha entry ignores case in both directions |
| JsString.UpperIdempotent | packages/mcp-server/src/auth/captcha.ts:39 | upper-casing the stored (already upper-cased) code changes nothing |
| JsString.Utf16Length | packages/mcp-server/src/auth/password.ts:8 | `length` lies between the number of characters and twice that number, and is 0 only for the empty string |
| Hashing.CollisionFreeIsSound | packages/mcp-server/src/auth/password.ts:23-30 | a hash that nothing else verifies against still accepts its own password |
| Hashing.Plain | packages/mcp-server/src/auth/password.ts:23-30 | the two hypotheses on `hashPassword` and `verifyPassword` can both be met |
| Jwt.Sign | packages/mcp-server/src/auth/service.ts:77-79 | a signed token carries the payload and the key, and expires `expiresIn` seconds after its issue second |
| Jwt.Verify | packages/mcp-server/src/auth/service.ts:227 | a garbled token, a token signed with another key, or a token at or past its expiry second yields nothing; a success yields the signed payload |
| Jwt.SignVerifyRoundTrip | packages/mcp-server/src/auth/service.ts:77-79 | a token verifies under its own key, with its payload, at any time before its expiry |
| Password.Matches | packages/mcp-server/src/auth/password.ts:13-14 | the scan behind `/[A-Za-z]/.test` and `/\d/.test`, defined by recursion on the string; its meaning is stated by Password.MatchesIff |
| Password.MatchesIff | packages/mcp-server/src/auth/password.ts:13-14 | the character-class test `/[A-Za-z]/` or `/\d/` succeeds exactly when some position holds a character of the class |
| Password.ValidatePasswordStrength | packages/mcp-server/src/auth/password.ts:3-21 | too-short (carrying the minimum) exactly when the password is empty or has fewer UTF-16 units than the minimum; otherwise needs-letter-and-digit exactly when the policy asks for both and the password lacks one; otherwise accepted |
| Password.EmptyPasswordRejected | packages/mcp-server/src/auth/password.ts:8-9 | the empty password is refused as too short under every policy |
| Password.DefaultPolicyAccepts | packages/mcp-server/src/auth/password.ts:3-21 | under the default policy "Passw0rd" is accepted |
| Password.DefaultPolicyRejects | packages/mcp-server/src/auth/password.ts:3-21 | under the default policy "password" lacks a digit and "Pa55" is too short |
| Lockout.IsLocked | packages/mcp-server/src/auth/service.ts:32-35 | definition: a lock time is present and lies after `now`; Lockout.LockRemaining and Lockout.LoginStep state what follows from it |
| Lockout.AfterFailure | packages/mcp-server/src/auth/service.ts:50-60 | definition: the row with one more failure, and a lock of the configured minutes from `now` exactly when the new count reaches the maximum; Lockout.LoginStep and Lockout.WrongPasswordsCount state its effect |
| Lockout.AfterReset | packages/mcp-server/src/auth/service.ts:63-67 | definition: the row with the counter at 0 and no lock; Lockout.LoginStep states its effect on a successful login |
| Lockout.LockRemaining | packages/mcp-server/src/auth/service.ts:32-41 | the remaining seconds are the ceiling of the remaining milliseconds over 1000; they are positive exactly when the account is locked, and 0 when there is no lock or it has lapsed |
| Lockout.RetryMinutes | packages/mcp-server/src/auth/service.ts:166 | the minutes in the lock message are the ceiling of the remaining seconds over 60 |
| Lockout.LoginStep | packages/mcp-server/src/auth/service.ts:164-176 | locked exactly when the lock lies in the future, and then the row is untouched; accepted exactly when unlocked with the right password, and then the counter is 0 and the lock is cleared; otherwise rejected with counter + 1 and a lock of the configured minutes exactly when the new count reaches the maximum; id, name, hash, role and version never change; a lock stays backed by enough failures |
| Lockout.RelockAfterLapse | packages/mcp-server/src/auth/service.ts:50-55 | after a lock has lapsed, one more wrong password is rejected and locks the account again, until the full configured period after that attempt |
| Lockout.WrongPasswordsCount | packages/mcp-server/src/auth/service.ts:50-61 | starting from a clear row, n wrong passwords below the maximum, none while locked, leave the counter at n, and the lock in place exactly from the maximum on |
| Lockout.WrongPasswordsRejected | packages/mcp-server/src/auth/service.ts:169-173 | each of those wrong passwords is answered as a wrong password, not as a lock |
| Lockout.LockoutCycle | packages/mcp-server/src/auth/service.ts:164-176 | after the maximum number of wrong passwords, the right password is refused as locked until the lock time and accepted from then on, with the counter back to 0 |
| Service.NewUser | packages/mcp-server/src/auth/service.ts:127-138 | definition: the row `register` builds (trimmed name, hash, not admin, version 0, no failures, no lock, never logged in); Service.AuthService.RegisterOutcome pins the inserted row to it |
| Service.FailureOf | packages/mcp-server/src/auth/service.ts:44-46 | definition: the failure record `recordFailure` inserts, with `username \|\| null` and `ip \|\| null`; Types.OrNull states the normalisation |
| Service.AuthService.GetUserById | packages/mcp-server/src/auth/service.ts:82-86 | the row with that id, or nothing when there is none |
| Service.AuthService.GetUserByUsername | packages/mcp-server/src/auth/service.ts:88-95 | the row with exactly that name, or nothing when no row has it |
| Service.AuthService.GenerateToken | packages/mcp-server/src/auth/service.ts:70-80 | the token verifies, at issue time, to the row's id, name and token version |
| Service.AuthService.VerifyToken | packages/mcp-server/src/auth/service.ts:225-238 | the current row of the account the token names, and nothing when the token does not verify, names id 0 or a missing account, or carries a version other than the row's; all other tokens succeed |
| Service.AuthService.RecordFailure | packages/mcp-server/src/auth/service.ts:43-48 | appends one failure record with the name and the address (an empty one stored as null) and touches nothing else |
| Service.AuthService.HandleFailedAttempt | packages/mcp-server/src/auth/service.ts:50-61 | writes the counter of the row passed in plus one, and a lock of the configured minutes exactly when that reaches the maximum; a missing row is untouched |
| Service.AuthService.ResetFailures | packages/mcp-server/src/auth/service.ts:63-68 | clears the counter and the lock of that row only |
| Service.AuthService.RegisterOutcome | packages/mcp-server/src/auth/service.ts:97-150 | definition of what `register` leaves behind, measured from the state before the call; used as the contract of Service.AuthService.Register and Routes.RegisterRoute |
| Service.AuthService.LoginOutcome | packages/mcp-server/src/auth/service.ts:152-191 | definition of what `login` leaves behind, measured from the state before the call; used as the contract of Service.AuthService.Login and Routes.LoginRoute |
| Service.AuthService.Register | packages/mcp-server/src/auth/service.ts:97-150 | through RegisterOutcome: refuses, in this order: registration switched off, an all-blank name, a weak password (with the policy's reason), a taken trimmed name. Otherwise it inserts exactly one row under the next id (trimmed name, hash of the password, not admin, version 0, no failures, no lock) and returns a view without the hash and a token that verifies to the new row |
| Service.AuthService.Login | packages/mcp-server/src/auth/service.ts:152-191 | through LoginOutcome: an unknown trimmed name is refused as bad credentials, logs one failure and changes no account; a locked account is refused with the remaining seconds and minutes and nothing changes; a wrong password logs one failure and applies the failure step; the right password clears the counter and the lock, stamps the last login, and returns a token that verifies to the updated row |
| Service.AuthService.ChangePassword | packages/mcp-server/src/auth/service.ts:193-223 | refuses, in this order: an unknown id, a wrong old password, a weak new password, and then changes nothing. Otherwise it writes the new hash, raises the version by one and clears counter and lock; every token of the old version stops verifying, the returned one verifies and the new password is accepted |
| Captcha.WindowStart | packages/mcp-server/src/auth/captcha.ts:20 | definition: `DATE_SUB(NOW(), INTERVAL cooldown SECOND)` in milliseconds |
| Captcha.CountRecent | packages/mcp-server/src/auth/captcha.ts:19-23 | definition: the number of rows from that address created after the window start; Captcha.CountEmpty and Captcha.CountAfterInsert state how it moves |
| Captcha.CountEmpty | packages/mcp-server/src/auth/captcha.ts:19-23 | an address has no recent captchas in an empty table |
| Captcha.CountAfterInsert | packages/mcp-server/src/auth/captcha.ts:19-23 | a new captcha from the same address inside the window raises that address's count by one; from another address or outside the window it leaves it alone |
| Captcha.CaptchaStore.GenerateCaptcha | packages/mcp-server/src/auth/captcha.ts:13-53 | refused exactly when a non-empty address already has the maximum number of captchas inside the cooldown window, and then nothing changes; otherwise exactly one unconsumed row is added under the next id, with the hash of the upper-cased text, the address (empty stored as null), the expiry `now + ttl` and the lifetime returned |
| Captcha.CaptchaStore.VerifyCaptcha | packages/mcp-server/src/auth/captcha.ts:55-80 | an unknown id fails and changes nothing; a known one ends consumed whatever the outcome, with nothing else changed; it succeeds only if it was unconsumed, not expired, and the upper-cased code verifies; a matching code on a live captcha always succeeds, and with a collision-free hash only a matching code does |
| Captcha.VerifyTwice | packages/mcp-server/src/auth/captcha.ts:71-79 | a captcha is one-shot: a second verification fails whatever code is given |
| Routes.LoginRoute | packages/mcp-server/src/auth/routes.ts:72-90 | the captcha is checked first and spent if it exists, with no other captcha touched; it fails exactly when `verifyCaptcha` would, and then no account or failure log changes; otherwise the result and the new accounts and log are those of `login` on the service as it was (LoginOutcome) |
| Routes.RegisterRoute | packages/mcp-server/src/auth/routes.ts:53-70 | the captcha is checked first and spent if it exists, with no other captcha touched; it fails exactly when `verifyCaptcha` would, and then no account changes; otherwise the result and the new accounts are those of `register` on the service as it was (RegisterOutcome) |
| Scenarios.LockoutCycleScenario | packages/mcp-server/src/auth/service.ts:152-191 | for any sound hash under which "wrong" does not match "Passw0rd": after registering "alice", four wrong passwords leave the counter at 4 with no lock, and the fifth leaves it at 5; the right password is then refused as locked, and accepted once ten minutes have passed, with the counter back to 0 |
| Scenarios.RevocationScenario | packages/mcp-server/src/auth/service.ts:193-238 | for any sound hash: a registration token verifies; after a password change it is rejected and the new token verifies |
| Scenarios.CooldownScenario | packages/mcp-server/src/auth/captcha.ts:18-27 | three captchas from one address in the cooldown window are issued and the fourth is refused |

## Left out

- bcryptjs is not collision-free. It hashes only the first 72 bytes of its input, so two passwords that agree on those bytes verify against each other's hash. `Hashing.CollisionFree` is therefore an idealisation. The clause of Captcha.CaptchaStore.VerifyCaptcha that only a matching code succeeds holds for an idealised hash, not for bcryptjs. Its other clauses, and every other member, assume soundness at most, or a single named non-match.
- Captcha.CountRecent: client addresses are compared character for character. The cooldown query filters with `ip_address = ?` on a `utf8mb4` table with no explicit collation (packages/mcp-server/src/auth/db.ts:44, 51), so MySQL's default case- and accent-insensitive collation applies. It counts `2001:DB8::1` and `2001:db8::1` as one address, so a fourth request inside the window with the other spelling is refused by the code and granted by the model (through Captcha.CaptchaStore.GenerateCaptcha).
- Service.AuthService.GetUserByUsername: names are compared character for character. The code looks names up with `WHERE username = ?` on a `utf8mb4` column with no explicit collation (packages/mcp-server/src/auth/db.ts:27, 37), so MySQL's default collation applies, and it ignores case and accents. Under it, `register("Alice")` next to "alice" is refused as taken and `login("ALICE", …)` reaches alice; in the model the first succeeds and the second is an unknown name.
- Service.AuthService.VerifyToken: `sub` is always an integer in the model. A token that decodes to something else (a missing or NaN `sub`, which the `!payload.sub` test also catches) is not representable, except as a garbled token.
- JsString.Upper: only ASCII letters are upper-cased. The full Unicode case mapping of `toUpperCase` (such as `ß` to `SS`, which changes the length) is not modelled.
- Lone surrogates: JavaScript strings are sequences of UTF-16 code units, and a request body may carry an unpaired surrogate (`"\ud800"` parses as JSON). A Dafny `char` is a Unicode scalar value, so such names, passwords and captcha answers are not representable, and `JsString.Utf16Length` only counts well-formed strings.
- Jwt.Sign: the configured lifetime is an integer number of seconds. The parsing of strings such as `7d` by jsonwebtoken is not modelled, nor is the `iat` claim.
- bcrypt salting and cost factors: hashing is a deterministic function, because the random salt is folded into it. Soundness is assumed by the classes; freedom from collisions is a hypothesis where used.
- The HMAC of JSON Web Tokens and their base64 text form: a token is a datatype that records its signing key.
- svg-captcha image rendering and `formatCaptchaImage`: the image is not part of the result. The random four-character text is a parameter.
- Time: one `now` in milliseconds stands for both `Date.now()` and SQL `NOW()`. The second precision of MySQL `DATETIME` columns and clock skew between the server and the database are not modelled.
- `created_at` and `updated_at` of `auth_users`: these are not stored. A captcha's `created_at` is the `now` of its issue.
- `mapUser`: a row is read back as it was written.
- Error message texts: each error is a variant of `AuthError`, and a weak password carries the policy's reason.
- Concurrency: two requests racing on one account or one captcha, and MySQL's own enforcement of the unique index under such a race, are not modelled. Every call is atomic.
- Database errors and dropped connections: these are not modelled. Every query succeeds.
- The route handlers' parameter-presence checks, `getClientIp`, HTTP status codes, the `authGuard` middleware and the `/me`, `/config`, `/health`, `/captcha` and `/change-password` handlers: these are not modelled. In particular the `/change-password` handler checks the new password's strength before it calls `changePassword` (packages/mcp-server/src/auth/routes.ts:129-138), so at that route a weak new password is refused before the old password is checked, the reverse of the order Service.AuthService.ChangePassword states for the service alone.
- `loadAuthConfig`'s environment parsing (including `parseInt` yielding NaN or a non-positive limit): the configuration is any record of integers and booleans, and `Config.Defaults` holds the default values (packages/mcp-server/src/config/auth-config.ts:70-83). The database settings and the `enabled` switch are not modelled.
- The table schema of `db.ts`, except the unique index on `auth_users.username`.
