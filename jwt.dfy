/** Session tokens (jsonwebtoken `sign` and `verify`). A token is either a signed
    payload or text that does not parse; the signature is modelled by the key it
    was made with, and expiry by `exp` in whole seconds, as jsonwebtoken keeps it. */
module Jwt {
  import opened Types

  /** The claims the core puts in a token (service.ts `TokenPayload`). */
  datatype TokenPayload = TokenPayload(sub: int, username: string, tokenVersion: int)

  datatype Token =
    | Signed(payload: TokenPayload, exp: int, key: string)
    | Malformed(text: string)

  /** Seconds since the epoch, rounded down, as `Math.floor(Date.now() / 1000)`. */
  function Seconds(nowMs: int): int {
    nowMs / 1000
  }

  /** `jwt.sign(payload, secret, { expiresIn })` at time `nowMs`. */
  function Sign(p: TokenPayload, secret: string, expiresInSeconds: int, nowMs: int): (t: Token)
    ensures t.Signed? && t.payload == p && t.key == secret
    ensures t.exp - Seconds(nowMs) == expiresInSeconds
  {
    Signed(p, Seconds(nowMs) + expiresInSeconds, secret)
  }

  /** `jwt.verify(token, secret)`: the payload, or None where jsonwebtoken throws
      (text that does not parse, a signature made with another key, or
      `exp` not after the current second). */
  function Verify(t: Token, secret: string, nowMs: int): (r: Option<TokenPayload>)
    ensures t.Malformed? ==> r.None?
    ensures t.Signed? && t.key != secret ==> r.None?
    ensures t.Signed? && Seconds(nowMs) >= t.exp ==> r.None?
    ensures r.Some? ==> t.Signed? && r.value == t.payload
  {
    if t.Signed? && t.key == secret && Seconds(nowMs) < t.exp then Some(t.payload) else None
  }

  /** A token decodes to what it was signed with, under the same key, until it expires. */
  lemma SignVerifyRoundTrip(p: TokenPayload, secret: string, expiresInSeconds: int, issuedMs: int, nowMs: int)
    ensures Verify(Sign(p, secret, expiresInSeconds, issuedMs), secret, nowMs) ==
      if Seconds(nowMs) < Seconds(issuedMs) + expiresInSeconds then Some(p) else None
  {
  }
}
