/**
 * What the authentication handlers promise, stated over their step functions:
 * the order of the gates, that a refused request changes nothing, that only
 * the targeted account changes, that tokens are one-shot, and that the
 * responses do not tell a missing account from a wrong password.
 */
module AuthProperties {
  import opened Wrappers
  import opened Crypto
  import opened AuthController

  // ---------------------------------------------------------------------------
  // register
  // ---------------------------------------------------------------------------

  /** The two 400 cases of `register`, in order; both leave the table as it was. */
  lemma RegisterRejects(s: Store, r: Registration, token: Token, now: Time, mailSent: bool)
    ensures var o := RegisterStep(s, r, token, now, mailSent);
      && (o.response.status == 400 <==> r.password != r.confirmPassword || r.companyEmail in s.users)
      && (r.password != r.confirmPassword ==> o.response == JsonResponse(400, PasswordsDoNotMatch))
      && (r.password == r.confirmPassword && r.companyEmail in s.users ==>
            o.response == JsonResponse(400, EmailAlreadyRegistered))
      && (o.response.status == 400 ==> o.store == s)
  {
  }

  /**
   * A registration that passes both checks adds exactly one account, unverified,
   * active, with the next id, the submitted organisation and mobile number, the
   * cost-10 hash of the password and the verification token; no other account changes.
   * If the email cannot be sent the answer is 500 but the account stays.
   */
  lemma RegisterAddsOneAccount(s: Store, r: Registration, token: Token, now: Time, mailSent: bool)
    requires r.password == r.confirmPassword && r.companyEmail !in s.users
    ensures var o := RegisterStep(s, r, token, now, mailSent);
      && o.response == (if mailSent then JsonResponse(201, RegistrationSuccessful) else JsonResponse(500, ServerError))
      && o.store.users.Keys == s.users.Keys + {r.companyEmail}
      && |o.store.users| == |s.users| + 1
      && (forall e :: e in s.users ==> o.store.users[e] == s.users[e])
      && o.store.nextId == s.nextId + 1
      && var a := o.store.users[r.companyEmail];
         && a == NewAccount(s.nextId, r, token, now)
         && a.id == s.nextId && a.companyEmail == r.companyEmail
         && a.organisation == r.organisation && a.mobile == r.mobile
         && !a.isVerified && a.accountStatus == ActiveStatus
         && a.password == Hash(r.password) && a.password.rounds == SaltRounds
         && Compare(r.password, a.password)
         && a.verificationToken == Some(token) && a.resetToken == None
         && a.createdAt == now && a.updatedAt == now
  {
    var o := RegisterStep(s, r, token, now, mailSent);
    assert o.store.users.Keys == s.users.Keys + {r.companyEmail};
    assert |s.users.Keys + {r.companyEmail}| == |s.users.Keys| + 1;
  }

  /** Registering the same email twice: the second attempt is refused and the table keeps one account. */
  lemma RegisterTwice(s: Store, r1: Registration, r2: Registration, t1: Token, t2: Token,
                      now1: Time, now2: Time, sent1: bool, sent2: bool)
    requires r1.password == r1.confirmPassword && r1.companyEmail !in s.users
    requires r2.companyEmail == r1.companyEmail
    ensures var s1 := RegisterStep(s, r1, t1, now1, sent1).store;
      var o2 := RegisterStep(s1, r2, t2, now2, sent2);
      && o2.response.status == 400
      && o2.store == s1
      && |s1.users| == |s.users| + 1
  {
    RegisterAddsOneAccount(s, r1, t1, now1, sent1);
  }

  // ---------------------------------------------------------------------------
  // verifyEmail
  // ---------------------------------------------------------------------------

  /** A missing, empty or unknown token gets 400 'Invalid token' and changes nothing. */
  lemma VerifyEmailRejects(s: Store, config: Config, token: Option<string>)
    requires token.None? || token.value == "" ||
             forall e :: e in s.users ==> s.users[e].verificationToken != token
    ensures VerifyEmailStep(s, config, token) == Outcome(Response(400, Text(InvalidToken), NoCookie), s)
  {
  }

  /**
   * A held verification token verifies exactly its account and clears the token,
   * after which nobody holds it and a second use is refused.
   */
  lemma VerifyEmailConsumes(s: Store, config: Config, e: Email, t: Token)
    requires Inv(s) && e in s.users && s.users[e].verificationToken == Some(t)
    ensures var o := VerifyEmailStep(s, config, Some(t));
      && o.response == Response(Found, RedirectTo(EmailVerifiedUrl(config)), NoCookie)
      && o.store == Store(s.users[e := s.users[e].(isVerified := true, verificationToken := None)], s.nextId)
      && NotHeld(o.store, t)
      && VerifyEmailStep(o.store, config, Some(t)) == Outcome(Response(400, Text(InvalidToken), NoCookie), o.store)
  {
    HolderUnique(s, VerificationColumn, t, e);
    var o := VerifyEmailStep(s, config, Some(t));
    forall e' | e' in o.store.users ensures !Holds(o.store.users[e'], t) {
      if e' != e {
        assert Holds(s.users[e], t);
      }
    }
  }

  // ---------------------------------------------------------------------------
  // login
  // ---------------------------------------------------------------------------

  /** The gates of `login` in order; every refusal leaves the table as it was. */
  lemma LoginGates(s: Store, config: Config, c: Credentials, now: Time)
    ensures var o := LoginStep(s, config, c, now);
      && (c.companyEmail !in s.users ==> o == Outcome(JsonResponse(400, InvalidCredentials), s))
      && (c.companyEmail in s.users ==>
            var a := s.users[c.companyEmail];
            && (a.accountStatus != ActiveStatus ==>
                  o == Outcome(JsonResponse(403, StatusMessage(a.accountStatus)), s))
            && (a.accountStatus == ActiveStatus && !Compare(c.password, a.password) ==>
                  o == Outcome(JsonResponse(400, InvalidCredentials), s))
            && (a.accountStatus == ActiveStatus && Compare(c.password, a.password) && !a.isVerified ==>
                  o == Outcome(JsonResponse(403, VerifyBeforeLogin), s)))
      && (o.response.status != 200 ==> o.store == s)
  {
  }

  /** Login succeeds exactly for an existing, active, verified account given its password. */
  lemma LoginSucceedsIff(s: Store, config: Config, c: Credentials, now: Time)
    ensures LoginStep(s, config, c, now).response.status == 200 <==>
      && c.companyEmail in s.users
      && s.users[c.companyEmail].accountStatus == ActiveStatus
      && Compare(c.password, s.users[c.companyEmail].password)
      && s.users[c.companyEmail].isVerified
  {
  }

  /**
   * A successful login signs {id, email} twice, a 15-minute access token in the body
   * and a 7-day refresh token in an http-only strict cookie, and touches only the
   * account's `updatedAt`.
   */
  lemma LoginSuccess(s: Store, config: Config, c: Credentials, now: Time)
    requires c.companyEmail in s.users
    requires s.users[c.companyEmail].accountStatus == ActiveStatus
    requires Compare(c.password, s.users[c.companyEmail].password)
    requires s.users[c.companyEmail].isVerified
    ensures var a := s.users[c.companyEmail];
      var o := LoginStep(s, config, c, now);
      && o.response.status == 200
      && o.response.body == AccessTokenBody(Jwt(AccountPayload(a), AccessSecret(config), "15m"))
      && o.response.cookie == SetCookie("refreshToken", Jwt(AccountPayload(a), RefreshSecret(config), "7d"),
                                        CookieOptions(true, false, "strict", Some(604800000)))
      && o.store == Store(s.users[c.companyEmail := a.(updatedAt := now)], s.nextId)
  {
  }

  /** The status gate comes before the password: a non-active account gets the same 403 whatever the password. */
  lemma LoginStatusBeforePassword(s: Store, config: Config, c1: Credentials, c2: Credentials, now1: Time, now2: Time)
    requires c1.companyEmail == c2.companyEmail && c1.companyEmail in s.users
    requires s.users[c1.companyEmail].accountStatus != ActiveStatus
    ensures LoginStep(s, config, c1, now1) == LoginStep(s, config, c2, now2)
    ensures LoginStep(s, config, c1, now1).response.status == 403
  {
  }

  /** An unknown email and a wrong password for an active account get identical responses. */
  lemma LoginHidesUnknownAccounts(s1: Store, s2: Store, config1: Config, config2: Config,
                                  c1: Credentials, c2: Credentials, now1: Time, now2: Time)
    requires c1.companyEmail !in s1.users
    requires c2.companyEmail in s2.users && s2.users[c2.companyEmail].accountStatus == ActiveStatus
    requires !Compare(c2.password, s2.users[c2.companyEmail].password)
    ensures LoginStep(s1, config1, c1, now1).response == LoginStep(s2, config2, c2, now2).response
  {
  }

  /** A freshly registered account cannot log in: 403 with the right password, 400 with a wrong one. */
  lemma FreshAccountCannotLogin(s: Store, config: Config, r: Registration, token: Token, now: Time,
                                mailSent: bool, c: Credentials, later: Time)
    requires r.password == r.confirmPassword && r.companyEmail !in s.users
    requires c.companyEmail == r.companyEmail
    ensures var s1 := RegisterStep(s, r, token, now, mailSent).store;
      LoginStep(s1, config, c, later).response ==
        if Compare(c.password, Hash(r.password)) then JsonResponse(403, VerifyBeforeLogin)
        else JsonResponse(400, InvalidCredentials)
  {
  }

  // ---------------------------------------------------------------------------
  // internalLogin and logout
  // ---------------------------------------------------------------------------

  /** A wrong API key is refused with 403 before any account is looked at. */
  lemma InternalLoginKeyFirst(s: Store, config: Config, apiKey: Option<string>, c: Credentials)
    requires apiKey != config.internalApiKey
    ensures InternalLoginResponse(s, config, apiKey, c) == JsonResponse(403, InvalidApiKey)
  {
  }

  /**
   * With the right key, internal login applies only the credential gates: status and
   * verification are not checked, and only an access token is returned, without a cookie.
   */
  lemma InternalLoginGates(s: Store, config: Config, c: Credentials)
    ensures var res := InternalLoginResponse(s, config, config.internalApiKey, c);
      && (res.status == 200 <==> c.companyEmail in s.users && Compare(c.password, s.users[c.companyEmail].password))
      && (res.status != 200 ==> res == JsonResponse(400, InvalidCredentials))
      && (res.status == 200 ==>
            res == Response(200, AccessTokenBody(Jwt(AccountPayload(s.users[c.companyEmail]), AccessSecret(config), "15m")), NoCookie))
  {
  }

  /** Internal login lets in an account that `login` refuses for its status or verification. */
  lemma InternalLoginBypassesStatus(s: Store, config: Config, c: Credentials, now: Time)
    requires c.companyEmail in s.users && Compare(c.password, s.users[c.companyEmail].password)
    requires s.users[c.companyEmail].accountStatus != ActiveStatus || !s.users[c.companyEmail].isVerified
    ensures InternalLoginResponse(s, config, config.internalApiKey, c).status == 200
    ensures LoginStep(s, config, c, now).response.status == 403
  {
  }

  /** When INTERNAL_API_KEY is unset, a request without the header passes the key gate. */
  lemma InternalLoginUnsetKey(s: Store, config: Config, c: Credentials)
    requires config.internalApiKey.None?
    ensures InternalLoginResponse(s, config, None, c).status != 403
  {
  }

  /**
   * The signing secrets: JWT_ACCESS_SECRET and JWT_REFRESH_SECRET when set to a
   * non-empty value, otherwise the built-in "access" and "refresh".  Both logins
   * sign their access token with the same secret.
   */
  lemma SigningSecrets(s: Store, config: Config, c: Credentials, now: Time, apiKey: Option<string>)
    ensures var res := LoginStep(s, config, c, now).response;
      res.status == 200 ==>
        && (config.jwtAccessSecret.None? || config.jwtAccessSecret == Some("") ==>
              res.body.accessToken.secret == "access")
        && (config.jwtAccessSecret.Some? && config.jwtAccessSecret.value != "" ==>
              res.body.accessToken.secret == config.jwtAccessSecret.value)
        && (config.jwtRefreshSecret.None? || config.jwtRefreshSecret == Some("") ==>
              res.cookie.value.secret == "refresh")
        && (config.jwtRefreshSecret.Some? && config.jwtRefreshSecret.value != "" ==>
              res.cookie.value.secret == config.jwtRefreshSecret.value)
    ensures var res := InternalLoginResponse(s, config, apiKey, c);
      res.status == 200 ==>
        && (config.jwtAccessSecret.None? || config.jwtAccessSecret == Some("") ==>
              res.body.accessToken.secret == "access")
        && (config.jwtAccessSecret.Some? && config.jwtAccessSecret.value != "" ==>
              res.body.accessToken.secret == config.jwtAccessSecret.value)
  {
  }

  // ---------------------------------------------------------------------------
  // forgotPassword and resetPassword
  // ---------------------------------------------------------------------------

  /** The answer does not tell whether the email is registered (when the email is sent). */
  lemma ForgotPasswordSameAnswer(s1: Store, s2: Store, e1: Email, e2: Email, t1: Token, t2: Token,
                                 now1: Time, now2: Time, sent1: bool)
    requires e1 !in s1.users && e2 in s2.users
    ensures ForgotPasswordStep(s1, e1, t1, now1, sent1).response == ForgotPasswordStep(s2, e2, t2, now2, true).response
    ensures ForgotPasswordStep(s1, e1, t1, now1, sent1).response == JsonResponse(200, ResetEmailSent)
  {
  }

  /** An unknown email changes nothing; a known one gets the new reset token and nothing else changes. */
  lemma ForgotPasswordEffect(s: Store, email: Email, token: Token, now: Time, mailSent: bool)
    ensures var o := ForgotPasswordStep(s, email, token, now, mailSent);
      && (email !in s.users ==> o.store == s)
      && (email in s.users ==>
            o.store == Store(s.users[email := s.users[email].(resetToken := Some(token), updatedAt := now)], s.nextId))
  {
  }

  /** A new reset request replaces the earlier reset token, which then no longer works. */
  lemma ForgotPasswordRevokesEarlierToken(s: Store, e: Email, earlier: Token, token: Token, now: Time,
                                          mailSent: bool, password: string, later: Time)
    requires Inv(s) && Fresh(s, token)
    requires e in s.users && s.users[e].resetToken == Some(earlier)
    ensures var s1 := ForgotPasswordStep(s, e, token, now, mailSent).store;
      ResetPasswordStep(s1, earlier, password, later) == Outcome(JsonResponse(400, InvalidOrExpiredToken), s1)
  {
    var s1 := ForgotPasswordStep(s, e, token, now, mailSent).store;
    assert Holds(s.users[e], earlier);
    forall e' | e' in s1.users ensures s1.users[e'].resetToken != Some(earlier) {
      if e' != e {
        assert !Holds(s.users[e'], earlier);
      }
    }
  }

  /** A token nobody holds gets 400 'Invalid or expired token' and changes nothing. */
  lemma ResetPasswordRejects(s: Store, token: string, password: string, now: Time)
    requires forall e :: e in s.users ==> s.users[e].resetToken != Some(token)
    ensures ResetPasswordStep(s, token, password, now) == Outcome(JsonResponse(400, InvalidOrExpiredToken), s)
  {
  }

  /** The empty token is refused: no account of a reachable table holds it. */
  lemma ResetPasswordEmptyToken(s: Store, password: string, now: Time)
    requires Inv(s)
    ensures ResetPasswordStep(s, "", password, now).response == JsonResponse(400, InvalidOrExpiredToken)
  {
    forall e | e in s.users ensures s.users[e].resetToken != Some("") {
      assert AccountOk(s, e);
    }
  }

  /**
   * A held reset token replaces exactly its account's password hash and clears the
   * token; nobody holds it afterwards, so a second use is refused.
   */
  lemma ResetPasswordConsumes(s: Store, e: Email, t: Token, password: string, now: Time,
                              again: string, later: Time)
    requires Inv(s) && e in s.users && s.users[e].resetToken == Some(t)
    ensures var o := ResetPasswordStep(s, t, password, now);
      && o.response == JsonResponse(200, PasswordResetSuccessful)
      && o.store == Store(s.users[e := s.users[e].(password := Hash(password), resetToken := None, updatedAt := now)], s.nextId)
      && Compare(password, o.store.users[e].password)
      && NotHeld(o.store, t)
      && ResetPasswordStep(o.store, t, again, later) == Outcome(JsonResponse(400, InvalidOrExpiredToken), o.store)
  {
    HolderUnique(s, ResetColumn, t, e);
    var o := ResetPasswordStep(s, t, password, now);
    forall e' | e' in o.store.users ensures !Holds(o.store.users[e'], t) {
      if e' != e {
        assert Holds(s.users[e], t);
      }
    }
  }

  /** Forgot-password then reset-password with the emailed token sets the new password. */
  lemma ForgotThenReset(s: Store, e: Email, token: Token, now: Time, mailSent: bool,
                        password: string, later: Time)
    requires Inv(s) && Fresh(s, token) && e in s.users
    ensures var s1 := ForgotPasswordStep(s, e, token, now, mailSent).store;
      var o := ResetPasswordStep(s1, token, password, later);
      && o.response == JsonResponse(200, PasswordResetSuccessful)
      && e in o.store.users && Compare(password, o.store.users[e].password)
      && o.store.users[e].resetToken == None
  {
    ForgotPasswordKeepsInv(s, e, token, now, mailSent);
    var s1 := ForgotPasswordStep(s, e, token, now, mailSent).store;
    ResetPasswordConsumes(s1, e, token, password, later, password, later);
  }
}
