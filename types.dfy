/** Row shapes of the three auth tables (auth/types.ts, auth/db.ts).
    All timestamps are milliseconds since the epoch. */
module Types {

  datatype Option<+T> = None | Some(value: T)

  /** A row of `auth_users`. `created_at` and `updated_at` are never compared
      by the core and are not kept. */
  datatype UserRow = UserRow(
    id: int,
    username: string,
    passwordHash: string,
    isAdmin: int,
    tokenVersion: int,
    failedAttempts: int,
    lockUntil: Option<int>,
    lastLoginAt: Option<int>)

  /** A row of `auth_captchas`; the TINYINT `consumed` column is a flag. */
  datatype CaptchaRow = CaptchaRow(
    id: int,
    codeHash: string,
    ipAddress: Option<string>,
    createdAt: int,
    expiresAt: int,
    consumed: bool)

  /** A row of the append-only `auth_login_failures` table. */
  datatype FailureRecord = FailureRecord(
    username: Option<string>,
    ipAddress: Option<string>,
    createdAt: int)

  /** JavaScript truthiness of an optional string: absent and "" are falsy. */
  predicate Truthy(s: Option<string>) {
    s.Some? && s.value != ""
  }

  /** JavaScript `s || null` for an optional string. */
  function OrNull(s: Option<string>): (r: Option<string>)
    ensures r.Some? <==> Truthy(s)
    ensures r.Some? ==> r == s
  {
    if Truthy(s) then s else None
  }
}
