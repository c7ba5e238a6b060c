/** The order the request handlers fix (auth/routes.ts): the captcha is
    verified, and so consumed, before `login` or `register` is consulted, and a
    failed captcha reaches neither. Request parsing and status codes are not
    modelled. */
module Routes {
  import opened Types
  import opened JsString
  import opened Captcha
  import opened Service

  datatype Guarded<T> = CaptchaFailed | Reached(result: Result<T>)

  /** The captcha check of the request, against the table before it. */
  predicate CaptchaPasses(table: map<int, CaptchaRow>, store: CaptchaStore, captchaId: int, captchaCode: string, now: int)
    reads store
  {
    captchaId in table && !table[captchaId].consumed && !(table[captchaId].expiresAt < now) &&
    store.hasher.verify(Upper(captchaCode), table[captchaId].codeHash)
  }

  /** `POST /login`: the captcha is spent whatever happens; a failed captcha
      leaves the accounts and the failure log alone, and a passed one hands
      the request to `login` with the service as it was. */
  method LoginRoute(captchas: CaptchaStore, service: AuthService, captchaId: int, captchaCode: string,
                    username: string, password: string, ip: Option<string>, now: int)
    returns (r: Guarded<Session>)
    requires captchas.Valid() && service.Valid()
    modifies captchas`captchas, service`users, service`failures
    ensures captchas.Valid() && service.Valid()
    ensures captchaId !in old(captchas.captchas) ==> captchas.captchas == old(captchas.captchas)
    ensures captchaId in old(captchas.captchas) ==>
      captchas.captchas == old(captchas.captchas)[captchaId := old(captchas.captchas)[captchaId].(consumed := true)]
    ensures r.CaptchaFailed? <==> !CaptchaPasses(old(captchas.captchas), captchas, captchaId, captchaCode, now)
    ensures r.CaptchaFailed? ==> service.users == old(service.users) && service.failures == old(service.failures)
    ensures r.Reached? ==> service.LoginOutcome(username, password, ip, now, r.result)
  {
    var captchaOk := captchas.VerifyCaptcha(captchaId, captchaCode, now);
    if !captchaOk {
      return CaptchaFailed;
    }
    var result := service.Login(username, password, ip, now);
    r := Reached(result);
  }

  /** `POST /register`: the captcha is spent whatever happens; a failed
      captcha leaves the accounts alone, and a passed one hands the request to
      `register` with the service as it was. */
  method RegisterRoute(captchas: CaptchaStore, service: AuthService, captchaId: int, captchaCode: string,
                       username: string, password: string, now: int)
    returns (r: Guarded<Session>)
    requires captchas.Valid() && service.Valid()
    modifies captchas`captchas, service`users, service`byName, service`nextId
    ensures captchas.Valid() && service.Valid()
    ensures captchaId !in old(captchas.captchas) ==> captchas.captchas == old(captchas.captchas)
    ensures captchaId in old(captchas.captchas) ==>
      captchas.captchas == old(captchas.captchas)[captchaId := old(captchas.captchas)[captchaId].(consumed := true)]
    ensures r.CaptchaFailed? <==> !CaptchaPasses(old(captchas.captchas), captchas, captchaId, captchaCode, now)
    ensures r.CaptchaFailed? ==>
      service.users == old(service.users) && service.byName == old(service.byName) &&
      service.nextId == old(service.nextId)
    ensures r.Reached? ==> service.RegisterOutcome(username, password, now, r.result)
  {
    var captchaOk := captchas.VerifyCaptcha(captchaId, captchaCode, now);
    if !captchaOk {
      return CaptchaFailed;
    }
    var result := service.Register(username, password, now);
    r := Reached(result);
  }
}
