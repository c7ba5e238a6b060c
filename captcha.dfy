/** Captcha issue and verification (auth/captcha.ts) over the `auth_captchas`
    table. Rendering the picture is not modelled; the random text the
    generator draws is a parameter. */
module Captcha {
  import opened Types
  import opened Config
  import opened JsString
  import opened Hashing

  /** What a successful issue hands back: the row id and the lifetime in seconds. */
  datatype Issued = Issued(id: int, expiresIn: int)

  datatype IssueResult = Granted(issued: Issued) | RateLimited

  /** `SELECT COUNT(*) ... WHERE ip_address = ? AND created_at > since`. */
  function CountRecent(captchas: map<int, CaptchaRow>, ip: string, since: int): nat {
    |set id | id in captchas && captchas[id].ipAddress == Some(ip) && captchas[id].createdAt > since|
  }

  /** An empty table has no recent captchas. */
  lemma CountEmpty(ip: string, since: int)
    ensures CountRecent(map[], ip, since) == 0
  {
    var none: map<int, CaptchaRow> := map[];
    assert (set id | id in none && none[id].ipAddress == Some(ip) && none[id].createdAt > since) == {};
  }

  /** Inserting a row under a new id raises the count by one exactly when the
      row is from that address and inside the window. */
  lemma CountAfterInsert(captchas: map<int, CaptchaRow>, row: CaptchaRow, ip: string, since: int)
    requires row.id !in captchas
    ensures CountRecent(captchas[row.id := row], ip, since) ==
      CountRecent(captchas, ip, since) + (if row.ipAddress == Some(ip) && row.createdAt > since then 1 else 0)
  {
    var after := captchas[row.id := row];
    var olds := set id | id in captchas && captchas[id].ipAddress == Some(ip) && captchas[id].createdAt > since;
    var news := set id | id in after && after[id].ipAddress == Some(ip) && after[id].createdAt > since;
    if row.ipAddress == Some(ip) && row.createdAt > since {
      assert news == olds + {row.id};
    } else {
      assert news == olds;
    }
  }

  /** The start of the cooldown window at `now`. */
  function WindowStart(now: int, cfg: AuthConfig): int {
    now - cfg.captchaCooldownSeconds * 1000
  }

  class CaptchaStore {
    /** `auth_captchas`, keyed by id. */
    var captchas: map<int, CaptchaRow>
    /** The next AUTO_INCREMENT id. */
    var nextId: int
    /** The upper-cased code behind each stored hash; the table never holds it. */
    ghost var codes: map<int, string>
    const config: AuthConfig
    const hasher: Hasher

    ghost predicate Valid()
      reads this
    {
      nextId >= 1 &&
      forall id :: id in captchas ==>
        captchas[id].id == id && 1 <= id < nextId &&
        id in codes && Upper(codes[id]) == codes[id] && captchas[id].codeHash == hasher.hash(codes[id])
    }

    constructor (config: AuthConfig, hasher: Hasher)
      ensures Valid()
      ensures this.config == config && this.hasher == hasher
      ensures captchas == map[] && codes == map[] && nextId == 1
    {
      this.config := config;
      this.hasher := hasher;
      captchas := map[];
      codes := map[];
      nextId := 1;
    }

    /** `generateCaptcha`: with a non-empty address that already has as many
        captchas inside the cooldown window as allowed, refuses and writes
        nothing; otherwise stores exactly one new unconsumed row under a fresh
        id, with the upper-cased code's hash, the address or null, and expiry
        `captchaTtlSeconds` from now. */
    method GenerateCaptcha(ipAddress: Option<string>, text: string, now: int) returns (r: IssueResult)
      requires Valid()
      modifies this
      ensures Valid()
      ensures r.RateLimited? <==>
        Truthy(ipAddress) &&
        old(CountRecent(captchas, ipAddress.value, WindowStart(now, config))) >= config.captchaCooldownMaxRequests
      ensures r.RateLimited? ==> captchas == old(captchas) && codes == old(codes) && nextId == old(nextId)
      ensures r.Granted? ==>
        var id := r.issued.id;
        id == old(nextId) && id !in old(captchas) && nextId == id + 1 &&
        r.issued.expiresIn == config.captchaTtlSeconds &&
        captchas == old(captchas)[id := CaptchaRow(id, hasher.hash(Upper(text)), OrNull(ipAddress), now,
                                                  now + config.captchaTtlSeconds * 1000, false)] &&
        codes == old(codes)[id := Upper(text)]
    {
      if Truthy(ipAddress) {
        var count := CountRecent(captchas, ipAddress.value, now - config.captchaCooldownSeconds * 1000);
        if count >= config.captchaCooldownMaxRequests {
          return RateLimited;
        }
      }
      var code := Upper(text);
      UpperIdempotent(text);
      var codeHash := hasher.hash(code);
      var expiresAt := now + config.captchaTtlSeconds * 1000;
      var id := nextId;
      captchas := captchas[id := CaptchaRow(id, codeHash, OrNull(ipAddress), now, expiresAt, false)];
      codes := codes[id := code];
      nextId := nextId + 1;
      r := Granted(Issued(id, config.captchaTtlSeconds));
    }

    /** `verifyCaptcha`: an unknown id fails with nothing written. Any known id
        is left consumed, and only that row changes; the answer counts only on a
        row that was neither consumed nor expired, and is compared upper-cased. */
    method VerifyCaptcha(captchaId: int, code: string, now: int) returns (ok: bool)
      requires Valid()
      modifies this`captchas
      ensures Valid()
      ensures captchaId !in old(captchas) ==> !ok && captchas == old(captchas)
      ensures captchaId in old(captchas) ==>
        captchas == old(captchas)[captchaId := old(captchas)[captchaId].(consumed := true)]
      ensures ok <==>
        captchaId in old(captchas) && !old(captchas)[captchaId].consumed &&
        !(old(captchas)[captchaId].expiresAt < now) &&
        hasher.verify(Upper(code), old(captchas)[captchaId].codeHash)
      ensures (Sound(hasher) && captchaId in old(captchas) && !old(captchas)[captchaId].consumed &&
               !(old(captchas)[captchaId].expiresAt < now) && Upper(code) == codes[captchaId]) ==> ok
      ensures CollisionFree(hasher) ==>
        (ok <==> captchaId in old(captchas) && !old(captchas)[captchaId].consumed &&
                 !(old(captchas)[captchaId].expiresAt < now) && Upper(code) == codes[captchaId])
    {
      if captchaId !in captchas {
        return false;
      }
      var record := captchas[captchaId];
      if record.consumed || record.expiresAt < now {
        captchas := captchas[captchaId := record.(consumed := true)];
        return false;
      }
      ok := hasher.verify(Upper(code), record.codeHash);
      captchas := captchas[captchaId := record.(consumed := true)];
    }
  }

  /** A second verification of the same captcha fails, whatever either answer was. */
  method VerifyTwice(store: CaptchaStore, captchaId: int, first: string, second: string, now1: int, now2: int)
    returns (ok1: bool, ok2: bool)
    requires store.Valid()
    modifies store
    ensures store.Valid()
    ensures !ok2
    ensures captchaId in store.captchas ==> store.captchas[captchaId].consumed
  {
    ok1 := store.VerifyCaptcha(captchaId, first, now1);
    ok2 := store.VerifyCaptcha(captchaId, second, now2);
  }
}
