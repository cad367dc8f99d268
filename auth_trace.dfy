/**
 * Sequences of requests to the authentication routes, handled one after the
 * other.  Over any such sequence the table invariant holds (emails, ids and
 * tokens stay unique), and a token that nobody holds is never accepted again
 * unless the uuid generator hands it out anew: verification and reset links
 * work once.
 */
module AuthTrace {
  import opened Wrappers
  import opened Crypto
  import opened AuthController
  import AuthProperties

  /** One request to one of the routes, with the values the handler draws from its environment. */
  datatype Request =
    | RegisterRequest(registration: Registration, token: Token, now: Time, mailSent: bool)
    | VerifyEmailRequest(queryToken: Option<string>)
    | LoginRequest(credentials: Credentials, now: Time)
    | InternalLoginRequest(apiKey: Option<string>, credentials: Credentials)
    | LogoutRequest
    | ForgotPasswordRequest(email: Email, token: Token, now: Time, mailSent: bool)
    | ResetPasswordRequest(resetToken: string, password: string, now: Time)

  /** The uuid a request draws, if its handler calls the generator. */
  function Generated(r: Request): Option<Token>
  {
    match r
    case RegisterRequest(_, t, _, _) => Some(t)
    case ForgotPasswordRequest(_, t, _, _) => Some(t)
    case _ => None
  }

  /** Does request `r` present `t` as a verification or reset token? */
  predicate Redeems(r: Request, t: Token)
  {
    r == VerifyEmailRequest(Some(t)) || (r.ResetPasswordRequest? && r.resetToken == t)
  }

  ghost function Step(s: Store, config: Config, r: Request): Outcome
  {
    match r
    case RegisterRequest(reg, t, now, sent) => RegisterStep(s, reg, t, now, sent)
    case VerifyEmailRequest(q) => VerifyEmailStep(s, config, q)
    case LoginRequest(c, now) => LoginStep(s, config, c, now)
    case InternalLoginRequest(k, c) => Outcome(InternalLoginResponse(s, config, k, c), s)
    case LogoutRequest => Outcome(LogoutResponse(), s)
    case ForgotPasswordRequest(e, t, now, sent) => ForgotPasswordStep(s, e, t, now, sent)
    case ResetPasswordRequest(t, p, now) => ResetPasswordStep(s, t, p, now)
  }

  /** The responses to a sequence of requests and the table they leave. */
  datatype Trace = Trace(responses: seq<Response>, store: Store)

  ghost function Run(s: Store, config: Config, rs: seq<Request>): (tr: Trace)
    ensures |tr.responses| == |rs|
    decreases |rs|
  {
    if rs == [] then Trace([], s)
    else
      var o := Step(s, config, rs[0]);
      var rest := Run(o.store, config, rs[1..]);
      Trace([o.response] + rest.responses, rest.store)
  }

  /** Every uuid drawn along `rs` is non-empty, distinct from the others, and held by nobody in `s`. */
  ghost predicate FreshTokens(s: Store, rs: seq<Request>)
  {
    forall i :: 0 <= i < |rs| && Generated(rs[i]).Some? ==>
      && Fresh(s, Generated(rs[i]).value)
      && forall j :: i < j < |rs| ==> Generated(rs[j]) != Generated(rs[i])
  }

  /** No step hands out a token it was not given: a token held by nobody stays so. */
  lemma StepKeepsNotHeld(s: Store, config: Config, r: Request, t: Token)
    requires NotHeld(s, t) && Generated(r) != Some(t)
    ensures NotHeld(Step(s, config, r).store, t)
  {
    var s' := Step(s, config, r).store;
    forall e | e in s'.users ensures !Holds(s'.users[e], t) {
      if e in s.users {
        assert !Holds(s.users[e], t);
      }
    }
  }

  lemma StepKeepsInv(s: Store, config: Config, r: Request)
    requires Inv(s)
    requires Generated(r).Some? ==> Fresh(s, Generated(r).value)
    ensures Inv(Step(s, config, r).store)
  {
    match r
    case RegisterRequest(reg, t, now, sent) => RegisterKeepsInv(s, reg, t, now, sent);
    case VerifyEmailRequest(q) => VerifyEmailKeepsInv(s, config, q);
    case LoginRequest(c, now) => LoginKeepsInv(s, config, c, now);
    case InternalLoginRequest(_, _) =>
    case LogoutRequest =>
    case ForgotPasswordRequest(e, t, now, sent) => ForgotPasswordKeepsInv(s, e, t, now, sent);
    case ResetPasswordRequest(t, p, now) => ResetPasswordKeepsInv(s, t, p, now);
  }

  /** The invariant holds after any sequence of requests whose uuids are fresh. */
  lemma {:induction false} RunKeepsInv(s: Store, config: Config, rs: seq<Request>)
    requires Inv(s) && FreshTokens(s, rs)
    ensures Inv(Run(s, config, rs).store)
    decreases |rs|
  {
    if rs != [] {
      StepKeepsInv(s, config, rs[0]);
      var s' := Step(s, config, rs[0]).store;
      forall i | 0 <= i < |rs[1..]| && Generated(rs[1..][i]).Some?
        ensures Fresh(s', Generated(rs[1..][i]).value)
      {
        var t := Generated(rs[i + 1]).value;
        assert Fresh(s, t);
        StepKeepsNotHeld(s, config, rs[0], t);
      }
      assert FreshTokens(s', rs[1..]);
      RunKeepsInv(s', config, rs[1..]);
    }
  }

  /** No handler deletes an account or takes its verification back. */
  lemma StepKeepsAccounts(s: Store, config: Config, r: Request)
    ensures var s' := Step(s, config, r).store;
      && s.users.Keys <= s'.users.Keys
      && forall e :: e in s.users && s.users[e].isVerified ==> s'.users[e].isVerified
  {
  }

  /** Over any sequence of requests, accounts persist and verification is terminal. */
  lemma {:induction false} RunKeepsAccounts(s: Store, config: Config, rs: seq<Request>)
    ensures var s' := Run(s, config, rs).store;
      && s.users.Keys <= s'.users.Keys
      && forall e :: e in s.users && s.users[e].isVerified ==> s'.users[e].isVerified
    decreases |rs|
  {
    if rs != [] {
      StepKeepsAccounts(s, config, rs[0]);
      RunKeepsAccounts(Step(s, config, rs[0]).store, config, rs[1..]);
    }
  }

  /** A token nobody holds, and that the generator does not hand out again, is refused every time. */
  lemma {:induction false} RunRefusesDeadToken(s: Store, config: Config, rs: seq<Request>, t: Token)
    requires NotHeld(s, t)
    requires forall i :: 0 <= i < |rs| ==> Generated(rs[i]) != Some(t)
    ensures forall i :: 0 <= i < |rs| && Redeems(rs[i], t) ==> Run(s, config, rs).responses[i].status == 400
    decreases |rs|
  {
    if rs != [] {
      var o := Step(s, config, rs[0]);
      StepKeepsNotHeld(s, config, rs[0], t);
      RunRefusesDeadToken(o.store, config, rs[1..], t);
      forall i | 0 <= i < |rs| && Redeems(rs[i], t) ensures Run(s, config, rs).responses[i].status == 400 {
        if i > 0 {
          assert Redeems(rs[1..][i - 1], t);
        }
      }
    }
  }

  /** An unverified account keeps its verification token, and stays unverified, under every request but the one redeeming it. */
  lemma StepKeepsUnverified(s: Store, config: Config, r: Request, e: Email, t: Token)
    requires e in s.users && !s.users[e].isVerified && s.users[e].verificationToken == Some(t)
    requires r != VerifyEmailRequest(Some(t))
    ensures var s' := Step(s, config, r).store;
      e in s'.users && !s'.users[e].isVerified && s'.users[e].verificationToken == Some(t)
  {
    if r.VerifyEmailRequest? && r.queryToken.Some? && r.queryToken.value != "" {
      var h := Holder(s, VerificationColumn, r.queryToken.value);
      if h.Some? {
        assert s.users[h.value].verificationToken == Some(r.queryToken.value);
      }
    }
  }

  /**
   * An account cannot log in until its verification token is consumed: along any
   * sequence that never presents the token to `verifyEmail`, no login with its
   * email answers 200.
   */
  lemma {:induction false} RunUnverifiedCannotLogin(s: Store, config: Config, rs: seq<Request>, e: Email, t: Token)
    requires e in s.users && !s.users[e].isVerified && s.users[e].verificationToken == Some(t)
    requires forall i :: 0 <= i < |rs| ==> rs[i] != VerifyEmailRequest(Some(t))
    ensures forall i :: 0 <= i < |rs| && rs[i].LoginRequest? && rs[i].credentials.companyEmail == e ==>
      Run(s, config, rs).responses[i].status != 200
    decreases |rs|
  {
    if rs != [] {
      StepKeepsUnverified(s, config, rs[0], e, t);
      RunUnverifiedCannotLogin(Step(s, config, rs[0]).store, config, rs[1..], e, t);
      forall i | 0 <= i < |rs| && rs[i].LoginRequest? && rs[i].credentials.companyEmail == e
        ensures Run(s, config, rs).responses[i].status != 200
      {
        if i > 0 {
          assert rs[1..][i - 1] == rs[i];
        }
      }
    }
  }

  /** A verification link works once: after it verifies, every later use of the token is refused. */
  lemma VerificationLinkWorksOnce(s: Store, config: Config, e: Email, t: Token, rs: seq<Request>)
    requires Inv(s) && e in s.users && s.users[e].verificationToken == Some(t)
    requires forall i :: 0 <= i < |rs| ==> Generated(rs[i]) != Some(t)
    ensures var tr := Run(s, config, [VerifyEmailRequest(Some(t))] + rs);
      && tr.responses[0].status == Found
      && forall i :: 0 <= i < |rs| && Redeems(rs[i], t) ==> tr.responses[i + 1].status == 400
  {
    var rs' := [VerifyEmailRequest(Some(t))] + rs;
    assert rs'[1..] == rs;
    AuthProperties.VerifyEmailConsumes(s, config, e, t);
    RunRefusesDeadToken(VerifyEmailStep(s, config, Some(t)).store, config, rs, t);
  }

  /** A reset link works once: after it changes the password, every later use of the token is refused. */
  lemma ResetLinkWorksOnce(s: Store, config: Config, e: Email, t: Token, password: string, now: Time,
                           rs: seq<Request>)
    requires Inv(s) && e in s.users && s.users[e].resetToken == Some(t)
    requires forall i :: 0 <= i < |rs| ==> Generated(rs[i]) != Some(t)
    ensures var tr := Run(s, config, [ResetPasswordRequest(t, password, now)] + rs);
      && tr.responses[0].status == 200
      && forall i :: 0 <= i < |rs| && Redeems(rs[i], t) ==> tr.responses[i + 1].status == 400
  {
    var rs' := [ResetPasswordRequest(t, password, now)] + rs;
    assert rs'[1..] == rs;
    AuthProperties.ResetPasswordConsumes(s, e, t, password, now, password, now);
    RunRefusesDeadToken(ResetPasswordStep(s, t, password, now).store, config, rs, t);
  }

  /**
   * Register, follow the emailed verification link, log in: the login answers with an
   * access token for {id, email} and sets the seven-day refresh cookie.
   */
  lemma RegisterVerifyLogin(config: Config, org: Organisation, mobile: string, t: Token)
    requires t != ""
    ensures var email, password := "acme@co.test", "Aa1!aaaa";
      var payload := Payload(0, email);
      var rs := [RegisterRequest(Registration(org, email, password, password, mobile), t, 1, true),
                 VerifyEmailRequest(Some(t)),
                 LoginRequest(Credentials(email, password), 2)];
      Run(Store(map[], 0), config, rs).responses ==
        [ JsonResponse(201, RegistrationSuccessful),
          Response(Found, RedirectTo(EmailVerifiedUrl(config)), NoCookie),
          Response(200, AccessTokenBody(Jwt(payload, AccessSecret(config), "15m")),
                   SetCookie("refreshToken", Jwt(payload, RefreshSecret(config), "7d"),
                             CookieOptions(true, false, "strict", Some(604800000)))) ]
  {
    var email, password := "acme@co.test", "Aa1!aaaa";
    var reg := Registration(org, email, password, password, mobile);
    var rs := [RegisterRequest(reg, t, 1, true), VerifyEmailRequest(Some(t)), LoginRequest(Credentials(email, password), 2)];
    var s0 := Store(map[], 0);
    RegisterKeepsInv(s0, reg, t, 1, true);
    var s1 := RegisterStep(s0, reg, t, 1, true).store;
    AuthProperties.VerifyEmailConsumes(s1, config, email, t);
    var s2 := VerifyEmailStep(s1, config, Some(t)).store;
    assert rs[1..] == [VerifyEmailRequest(Some(t)), LoginRequest(Credentials(email, password), 2)];
    assert rs[1..][1..] == [LoginRequest(Credentials(email, password), 2)];
    assert Run(s2, config, rs[1..][1..]).responses == [LoginStep(s2, config, Credentials(email, password), 2).response];
  }
}
