/**
 * The account life-cycle of the authentication controller: registration,
 * email verification, login, internal login, logout, forgot-password and
 * reset-password, each as a transition over the table of accounts keyed by
 * company email.
 *
 * Each handler has a step function (`RegisterStep`, ...) giving its response
 * and the new table, and a method of class `Controller` that performs it
 * in place and is proved to agree with that function.  Hashing and signing
 * come from module Crypto; fresh tokens, the clock and the outcome of
 * sending an email are parameters.
 */
module AuthController {
  import opened Wrappers
  import opened Crypto

  type Email = string
  type Token = string
  type Time = nat

  // ---------------------------------------------------------------------------
  // Accounts and the table
  // ---------------------------------------------------------------------------

  /** The status a newly registered account gets, and the only one that may log in. */
  const ActiveStatus := "active"

  /** Organisation metadata: opaque strings, stored as given. */
  datatype Organisation = Organisation(
    name: string, size: string, kind: string, representative: string, designation: string)

  datatype Account = Account(
    id: nat,
    organisation: Organisation,
    companyEmail: Email,
    password: Digest,
    mobile: string,
    verificationToken: Option<Token>,
    isVerified: bool,
    accountStatus: string,
    resetToken: Option<Token>,
    createdAt: Time,
    updatedAt: Time)

  /** The user table and the next id the database will assign. */
  datatype Store = Store(users: map<Email, Account>, nextId: nat)

  /** Does account `a` hold `t` as its verification or its reset token? */
  predicate Holds(a: Account, t: Token)
  {
    a.verificationToken == Some(t) || a.resetToken == Some(t)
  }

  /** No account holds `t`: what a freshly generated uuid satisfies. */
  ghost predicate NotHeld(s: Store, t: Token)
  {
    forall e :: e in s.users ==> !Holds(s.users[e], t)
  }

  /** A token the uuid generator may hand out: non-empty and held by nobody. */
  ghost predicate Fresh(s: Store, t: Token)
  {
    t != "" && NotHeld(s, t)
  }

  /** What holds of each account in a reachable table. */
  ghost predicate AccountOk(s: Store, e: Email)
    requires e in s.users
  {
    var a := s.users[e];
    && a.companyEmail == e
    && a.id < s.nextId
    && (a.isVerified <==> a.verificationToken.None?)
    && (a.verificationToken.Some? ==> a.verificationToken.value != "")
    && (a.resetToken.Some? ==> a.resetToken.value != "")
    && (a.verificationToken.Some? && a.resetToken.Some? ==> a.verificationToken != a.resetToken)
  }

  /**
   * The table invariant: each account is stored under its own email, ids are
   * distinct, and no token is held by two accounts.
   */
  ghost predicate Inv(s: Store)
  {
    && (forall e :: e in s.users ==> AccountOk(s, e))
    && (forall e1, e2 :: e1 in s.users && e2 in s.users && e1 != e2 ==>
          s.users[e1].id != s.users[e2].id)
    && (forall e1, e2, t :: e1 in s.users && e2 in s.users && e1 != e2 && Holds(s.users[e1], t) ==>
          !Holds(s.users[e2], t))
  }

  /** Which of the two token columns a lookup searches. */
  datatype TokenColumn = VerificationColumn | ResetColumn

  function Column(a: Account, c: TokenColumn): Option<Token>
  {
    match c
    case VerificationColumn => a.verificationToken
    case ResetColumn => a.resetToken
  }

  /**
   * The account whose column `c` equals `t`, if any
   * (`findUnique`/`findFirst` with a `where` on that column).
   */
  ghost function Holder(s: Store, c: TokenColumn, t: Token): (r: Option<Email>)
    ensures r.Some? ==> r.value in s.users && Column(s.users[r.value], c) == Some(t)
    ensures r.None? ==> forall e :: e in s.users ==> Column(s.users[e], c) != Some(t)
  {
    if exists e :: e in s.users && Column(s.users[e], c) == Some(t) then
      var e :| e in s.users && Column(s.users[e], c) == Some(t);
      Some(e)
    else
      None
  }

  /** Under the invariant at most one account holds a token, so the lookup is determined. */
  lemma HolderUnique(s: Store, c: TokenColumn, t: Token, e: Email)
    requires Inv(s)
    requires e in s.users && Column(s.users[e], c) == Some(t)
    ensures Holder(s, c, t) == Some(e)
  {
    var h := Holder(s, c, t).value;
    assert Holds(s.users[h], t) && Holds(s.users[e], t);
  }

  // ---------------------------------------------------------------------------
  // Requests, configuration and responses
  // ---------------------------------------------------------------------------

  /** The body of a registration request. */
  datatype Registration = Registration(
    organisation: Organisation, companyEmail: Email, password: string,
    confirmPassword: string, mobile: string)

  /** The body of a login or internal-login request (the captcha token is never read). */
  datatype Credentials = Credentials(companyEmail: Email, password: string)

  /** The environment variables the handlers read; `None` is an unset variable. */
  datatype Config = Config(
    frontendUrl: Option<string>,
    jwtAccessSecret: Option<string>,
    jwtRefreshSecret: Option<string>,
    internalApiKey: Option<string>)

  datatype Body =
    | Json(message: string)             // res.json({ message })
    | Text(text: string)                // res.send(text)
    | AccessTokenBody(accessToken: Jwt) // res.json({ accessToken })
    | RedirectTo(location: string)      // res.redirect(location)

  datatype CookieOptions = CookieOptions(
    httpOnly: bool, secure: bool, sameSite: string, maxAgeMs: Option<nat>)

  datatype CookieEffect =
    | NoCookie
    | SetCookie(name: string, value: Jwt, options: CookieOptions)
    | ClearCookie(name: string, options: CookieOptions)

  datatype Response = Response(status: nat, body: Body, cookie: CookieEffect)

  /** A response together with the table it leaves behind. */
  datatype Outcome = Outcome(response: Response, store: Store)

  const PasswordsDoNotMatch := "Passwords do not match"
  const EmailAlreadyRegistered := "Email already registered"
  const RegistrationSuccessful := "Registration successful. Please verify your email."
  const ServerError := "Server error"
  const InvalidToken := "Invalid token"
  const InvalidCredentials := "Invalid credentials"
  const VerifyBeforeLogin := "Please verify your email before logging in."
  const InvalidApiKey := "Forbidden: Invalid API Key"
  const LoggedOut := "Logged out successfully"
  const ResetEmailSent := "If a user exists, a reset email was sent"
  const InvalidOrExpiredToken := "Invalid or expired token"
  const PasswordResetSuccessful := "Password reset successful"

  /** The 403 message of a login refused for its account status. */
  function StatusMessage(status: string): string
  {
    "Your account is " + status + ". Contact admin."
  }

  const AccessLifetime := "15m"
  const RefreshLifetime := "7d"
  const RefreshCookie := "refreshToken"
  /** Seven days in milliseconds. */
  const RefreshMaxAgeMs: nat := 7 * 24 * 60 * 60 * 1000
  /** Express's default redirect status. */
  const Found: nat := 302

  const RefreshCookieSet := CookieOptions(true, false, "strict", Some(RefreshMaxAgeMs))
  const RefreshCookieCleared := CookieOptions(true, false, "strict", None)

  function JsonResponse(status: nat, message: string): Response
  {
    Response(status, Json(message), NoCookie)
  }

  /** `process.env.X || fallback`: an unset or empty variable yields the fallback. */
  function EnvOr(v: Option<string>, fallback: string): string
  {
    if v.Some? && v.value != "" then v.value else fallback
  }

  function AccessSecret(config: Config): string { EnvOr(config.jwtAccessSecret, "access") }
  function RefreshSecret(config: Config): string { EnvOr(config.jwtRefreshSecret, "refresh") }

  /** `${process.env.FRONTEND_URL}/email-verified`; an unset variable interpolates as "undefined". */
  function EmailVerifiedUrl(config: Config): string
  {
    (if config.frontendUrl.Some? then config.frontendUrl.value else "undefined") + "/email-verified"
  }

  function AccountPayload(a: Account): Payload
  {
    Payload(a.id, a.companyEmail)
  }

  // ---------------------------------------------------------------------------
  // The handlers as transitions
  // ---------------------------------------------------------------------------

  /** The row `prisma.user.create` inserts for a registration. */
  function NewAccount(id: nat, r: Registration, token: Token, now: Time): Account
  {
    Account(id, r.organisation, r.companyEmail, Hash(r.password), r.mobile,
            Some(token), false, ActiveStatus, None, now, now)
  }

  /** `register`; `token` is the generated uuid, `mailSent` whether the verification email went out. */
  function RegisterStep(s: Store, r: Registration, token: Token, now: Time, mailSent: bool): (o: Outcome)
    ensures o.response.status in {201, 400, 500}
    ensures s.users.Keys <= o.store.users.Keys <= s.users.Keys + {r.companyEmail}
  {
    if r.password != r.confirmPassword then
      Outcome(JsonResponse(400, PasswordsDoNotMatch), s)
    else if r.companyEmail in s.users then
      Outcome(JsonResponse(400, EmailAlreadyRegistered), s)
    else
      var s' := Store(s.users[r.companyEmail := NewAccount(s.nextId, r, token, now)], s.nextId + 1);
      if mailSent then Outcome(JsonResponse(201, RegistrationSuccessful), s')
      else Outcome(JsonResponse(500, ServerError), s')
  }

  /** `verifyEmail`; `token` is the `token` query parameter, `None` when absent. */
  ghost function VerifyEmailStep(s: Store, config: Config, token: Option<string>): (o: Outcome)
    ensures o.response.status in {Found, 400}
    ensures o.store.users.Keys == s.users.Keys && o.store.nextId == s.nextId
  {
    var rejected := Outcome(Response(400, Text(InvalidToken), NoCookie), s);
    if token.None? || token.value == "" then rejected
    else
      match Holder(s, VerificationColumn, token.value)
      case None => rejected
      case Some(e) =>
        var a := s.users[e].(isVerified := true, verificationToken := None);
        Outcome(Response(Found, RedirectTo(EmailVerifiedUrl(config)), NoCookie),
                Store(s.users[e := a], s.nextId))
  }

  /** `login`: the gates in the order the handler checks them, then the two tokens. */
  function LoginStep(s: Store, config: Config, c: Credentials, now: Time): (o: Outcome)
    ensures o.response.status in {200, 400, 403}
    ensures o.store.users.Keys == s.users.Keys && o.store.nextId == s.nextId
    ensures o.response.status == 200 <==> o.response.cookie.SetCookie?
  {
    if c.companyEmail !in s.users then
      Outcome(JsonResponse(400, InvalidCredentials), s)
    else
      var a := s.users[c.companyEmail];
      if a.accountStatus != ActiveStatus then
        Outcome(JsonResponse(403, StatusMessage(a.accountStatus)), s)
      else if !Compare(c.password, a.password) then
        Outcome(JsonResponse(400, InvalidCredentials), s)
      else if !a.isVerified then
        Outcome(JsonResponse(403, VerifyBeforeLogin), s)
      else
        var access := Jwt(AccountPayload(a), AccessSecret(config), AccessLifetime);
        var refresh := Jwt(AccountPayload(a), RefreshSecret(config), RefreshLifetime);
        Outcome(Response(200, AccessTokenBody(access), SetCookie(RefreshCookie, refresh, RefreshCookieSet)),
                Store(s.users[c.companyEmail := a.(updatedAt := now)], s.nextId))
  }

  /** `internalLogin`: the API-key gate, then only the credential gates; it never writes. */
  function InternalLoginResponse(s: Store, config: Config, apiKey: Option<string>, c: Credentials): (res: Response)
    ensures res.status in {200, 400, 403}
    ensures res.cookie == NoCookie
  {
    if apiKey != config.internalApiKey then
      JsonResponse(403, InvalidApiKey)
    else if c.companyEmail !in s.users then
      JsonResponse(400, InvalidCredentials)
    else if !Compare(c.password, s.users[c.companyEmail].password) then
      JsonResponse(400, InvalidCredentials)
    else
      var access := Jwt(AccountPayload(s.users[c.companyEmail]), AccessSecret(config), AccessLifetime);
      Response(200, AccessTokenBody(access), NoCookie)
  }

  /** `logout`: clears the refresh cookie and nothing else. */
  function LogoutResponse(): (res: Response)
    ensures res.status == 200 && res.cookie.ClearCookie? && res.cookie.name == RefreshCookie
    ensures res.cookie.options.maxAgeMs.None?
  {
    Response(200, Json(LoggedOut), ClearCookie(RefreshCookie, RefreshCookieCleared))
  }

  /** `forgotPassword`; `token` is the generated uuid, `mailSent` whether the reset email went out. */
  function ForgotPasswordStep(s: Store, email: Email, token: Token, now: Time, mailSent: bool): (o: Outcome)
    ensures o.response.status in {200, 500}
    ensures o.store.users.Keys == s.users.Keys && o.store.nextId == s.nextId
  {
    if email !in s.users then
      Outcome(JsonResponse(200, ResetEmailSent), s)
    else
      var a := s.users[email].(resetToken := Some(token), updatedAt := now);
      var s' := Store(s.users[email := a], s.nextId);
      if mailSent then Outcome(JsonResponse(200, ResetEmailSent), s')
      else Outcome(JsonResponse(500, ServerError), s')
  }

  /** `resetPassword`; `token` and `password` come from the request body. */
  ghost function ResetPasswordStep(s: Store, token: string, password: string, now: Time): (o: Outcome)
    ensures o.response.status in {200, 400}
    ensures o.store.users.Keys == s.users.Keys && o.store.nextId == s.nextId
  {
    match Holder(s, ResetColumn, token)
    case None => Outcome(JsonResponse(400, InvalidOrExpiredToken), s)
    case Some(e) =>
      var a := s.users[e].(password := Hash(password), resetToken := None, updatedAt := now);
      Outcome(JsonResponse(200, PasswordResetSuccessful), Store(s.users[e := a], s.nextId))
  }

  // ---------------------------------------------------------------------------
  // Invariant preservation, one lemma per writing handler
  // ---------------------------------------------------------------------------

  lemma RegisterKeepsInv(s: Store, r: Registration, token: Token, now: Time, mailSent: bool)
    requires Inv(s) && Fresh(s, token)
    ensures Inv(RegisterStep(s, r, token, now, mailSent).store)
  {
    var s' := RegisterStep(s, r, token, now, mailSent).store;
    if s' != s {
      forall e1, e2, t | e1 in s'.users && e2 in s'.users && e1 != e2 && Holds(s'.users[e1], t)
        ensures !Holds(s'.users[e2], t)
      {
        if e1 == r.companyEmail {
          assert t == token;
        } else if e2 == r.companyEmail {
          assert Holds(s.users[e1], t);
        }
      }
    }
  }

  lemma VerifyEmailKeepsInv(s: Store, config: Config, token: Option<string>)
    requires Inv(s)
    ensures Inv(VerifyEmailStep(s, config, token).store)
  {
    var s' := VerifyEmailStep(s, config, token).store;
    if s' != s {
      var e := Holder(s, VerificationColumn, token.value).value;
      forall e1, e2, t | e1 in s'.users && e2 in s'.users && e1 != e2 && Holds(s'.users[e1], t)
        ensures !Holds(s'.users[e2], t)
      {
        assert Holds(s.users[e1], t);
      }
    }
  }

  lemma LoginKeepsInv(s: Store, config: Config, c: Credentials, now: Time)
    requires Inv(s)
    ensures Inv(LoginStep(s, config, c, now).store)
  {
    var s' := LoginStep(s, config, c, now).store;
    if s' != s {
      forall e1, e2, t | e1 in s'.users && e2 in s'.users && e1 != e2 && Holds(s'.users[e1], t)
        ensures !Holds(s'.users[e2], t)
      {
        assert Holds(s.users[e1], t);
      }
    }
  }

  lemma ForgotPasswordKeepsInv(s: Store, email: Email, token: Token, now: Time, mailSent: bool)
    requires Inv(s) && Fresh(s, token)
    ensures Inv(ForgotPasswordStep(s, email, token, now, mailSent).store)
  {
    var s' := ForgotPasswordStep(s, email, token, now, mailSent).store;
    if email in s.users {
      forall e1, e2, t | e1 in s'.users && e2 in s'.users && e1 != e2 && Holds(s'.users[e1], t)
        ensures !Holds(s'.users[e2], t)
      {
        if e1 == email {
          if t != token {
            assert Holds(s.users[e1], t);
          }
        } else {
          assert Holds(s.users[e1], t);
        }
      }
    }
  }

  lemma ResetPasswordKeepsInv(s: Store, token: string, password: string, now: Time)
    requires Inv(s)
    ensures Inv(ResetPasswordStep(s, token, password, now).store)
  {
    var s' := ResetPasswordStep(s, token, password, now).store;
    if Holder(s, ResetColumn, token).Some? {
      forall e1, e2, t | e1 in s'.users && e2 in s'.users && e1 != e2 && Holds(s'.users[e1], t)
        ensures !Holds(s'.users[e2], t)
      {
        assert Holds(s.users[e1], t);
      }
    }
  }

  // ---------------------------------------------------------------------------
  // The controller: the table updated in place
  // ---------------------------------------------------------------------------

  class Controller {
    var users: map<Email, Account>
    var nextId: nat
    const config: Config

    ghost function State(): Store
      reads this
    {
      Store(users, nextId)
    }

    ghost predicate Valid()
      reads this
    {
      Inv(State())
    }

    constructor (config: Config)
      ensures Valid() && users == map[] && nextId == 0 && this.config == config
    {
      this.config := config;
      users := map[];
      nextId := 0;
    }

    method Register(r: Registration, token: Token, now: Time, mailSent: bool) returns (res: Response)
      requires Valid() && Fresh(State(), token)
      modifies this
      ensures Valid()
      ensures Outcome(res, State()) == RegisterStep(old(State()), r, token, now, mailSent)
    {
      RegisterKeepsInv(State(), r, token, now, mailSent);
      if r.password != r.confirmPassword {
        return JsonResponse(400, PasswordsDoNotMatch);
      }
      if r.companyEmail in users {
        return JsonResponse(400, EmailAlreadyRegistered);
      }
      users := users[r.companyEmail := NewAccount(nextId, r, token, now)];
      nextId := nextId + 1;
      if !mailSent {
        return JsonResponse(500, ServerError);
      }
      return JsonResponse(201, RegistrationSuccessful);
    }

    method VerifyEmail(token: Option<string>) returns (res: Response)
      requires Valid()
      modifies this
      ensures Valid()
      ensures Outcome(res, State()) == VerifyEmailStep(old(State()), config, token)
    {
      VerifyEmailKeepsInv(State(), config, token);
      if token.None? || token.value == "" {
        return Response(400, Text(InvalidToken), NoCookie);
      }
      var t := token.value;
      if !exists e :: e in users && users[e].verificationToken == Some(t) {
        assert Holder(State(), VerificationColumn, t).None?;
        return Response(400, Text(InvalidToken), NoCookie);
      }
      var e :| e in users && users[e].verificationToken == Some(t);
      HolderUnique(State(), VerificationColumn, t, e);
      users := users[e := users[e].(isVerified := true, verificationToken := None)];
      return Response(Found, RedirectTo(EmailVerifiedUrl(config)), NoCookie);
    }

    method Login(c: Credentials, now: Time) returns (res: Response)
      requires Valid()
      modifies this
      ensures Valid()
      ensures Outcome(res, State()) == LoginStep(old(State()), config, c, now)
    {
      LoginKeepsInv(State(), config, c, now);
      if c.companyEmail !in users {
        return JsonResponse(400, InvalidCredentials);
      }
      var user := users[c.companyEmail];
      if user.accountStatus != ActiveStatus {
        return JsonResponse(403, StatusMessage(user.accountStatus));
      }
      if !Compare(c.password, user.password) {
        return JsonResponse(400, InvalidCredentials);
      }
      if !user.isVerified {
        return JsonResponse(403, VerifyBeforeLogin);
      }
      var payload := AccountPayload(user);
      var accessToken := Jwt(payload, AccessSecret(config), AccessLifetime);
      var refreshToken := Jwt(payload, RefreshSecret(config), RefreshLifetime);
      users := users[c.companyEmail := user.(updatedAt := now)];
      return Response(200, AccessTokenBody(accessToken), SetCookie(RefreshCookie, refreshToken, RefreshCookieSet));
    }

    method InternalLogin(apiKey: Option<string>, c: Credentials) returns (res: Response)
      ensures res == InternalLoginResponse(State(), config, apiKey, c)
    {
      if apiKey != config.internalApiKey {
        return JsonResponse(403, InvalidApiKey);
      }
      if c.companyEmail !in users {
        return JsonResponse(400, InvalidCredentials);
      }
      var user := users[c.companyEmail];
      if !Compare(c.password, user.password) {
        return JsonResponse(400, InvalidCredentials);
      }
      var accessToken := Jwt(AccountPayload(user), AccessSecret(config), AccessLifetime);
      return Response(200, AccessTokenBody(accessToken), NoCookie);
    }

    method Logout() returns (res: Response)
      ensures res == LogoutResponse()
    {
      return Response(200, Json(LoggedOut), ClearCookie(RefreshCookie, RefreshCookieCleared));
    }

    method ForgotPassword(email: Email, token: Token, now: Time, mailSent: bool) returns (res: Response)
      requires Valid() && Fresh(State(), token)
      modifies this
      ensures Valid()
      ensures Outcome(res, State()) == ForgotPasswordStep(old(State()), email, token, now, mailSent)
    {
      ForgotPasswordKeepsInv(State(), email, token, now, mailSent);
      if email !in users {
        return JsonResponse(200, ResetEmailSent);
      }
      users := users[email := users[email].(resetToken := Some(token), updatedAt := now)];
      if !mailSent {
        return JsonResponse(500, ServerError);
      }
      return JsonResponse(200, ResetEmailSent);
    }

    method ResetPassword(token: string, password: string, now: Time) returns (res: Response)
      requires Valid()
      modifies this
      ensures Valid()
      ensures Outcome(res, State()) == ResetPasswordStep(old(State()), token, password, now)
    {
      ResetPasswordKeepsInv(State(), token, password, now);
      if !exists e :: e in users && users[e].resetToken == Some(token) {
        assert Holder(State(), ResetColumn, token).None?;
        return JsonResponse(400, InvalidOrExpiredToken);
      }
      var e :| e in users && users[e].resetToken == Some(token);
      HolderUnique(State(), ResetColumn, token, e);
      var hashed := Hash(password);
      users := users[e := users[e].(password := hashed, resetToken := None, updatedAt := now)];
      return JsonResponse(200, PasswordResetSuccessful);
    }
  }
}
