# Account life-cycle of an organisation-registration service, in Dafny

This project models the core of a small authentication service. An organisation
registers with a company email and a password. It confirms the email through a
one-shot verification link, then logs in and receives a 15-minute access token and a
7-day refresh cookie. A forgotten password is replaced through a one-shot reset link.
A trusted internal caller can log in with a shared API key.

The model has two parts.

- **The backend controller.** `AuthController` holds a step function for each handler
  (`RegisterStep`, `VerifyEmailStep`, `LoginStep`, `InternalLoginResponse`,
  `LogoutResponse`, `ForgotPasswordStep`, `ResetPasswordStep`). Each step takes the
  user table (`Store`: a map from company email to `Account`) and the request, and
  gives the HTTP response and the new table. Class `AuthController.Controller`
  owns the table and updates it in place. Each of its methods is proved to agree with
  its step function, and to keep the table invariant `Inv`: every account is stored
  under its own email, ids are distinct, no token is held twice, and an account is
  verified exactly when its verification token is gone.
  `AuthProperties` proves the handlers' promises over the step functions.
  `AuthTrace` runs whole request sequences and proves, by induction, that the invariant
  holds throughout. It also proves that a consumed token is refused on every later use.
- **The registration page.** `RegisterPage` models the password-strength rules, the
  order of the checks before submitting, and the keyword test that colours the message
  box. `ValidatePassword` is proved equal to a reference reading (`FirstFailure`: the
  first failing rule of the five, in page order). It returns no message exactly when
  every rule holds. The backend does not re-check these rules.

Foreign libraries and the environment become values or parameters:

- bcrypt becomes `Crypto.Hash`/`Crypto.Compare`. These keep bcrypt's 72-byte limit for
  ASCII passwords without NUL characters, and drop the salt.
- A signed JWT becomes a record of its payload, signing secret and lifetime.
- Each uuid is a `token` parameter. It must be `Fresh`: non-empty and held by no account.
- The clock is a `now` parameter.
- The outcome of sending an email is a `mailSent` flag.
- Environment variables are a `Config` value.

Behaviour kept as the code has it:

- `login` checks the account status before the password
  (backend/src/controllers/auth.controller.ts:104 precedes :110). So a suspended account
  gets `403 "Your account is suspended. Contact admin."` whatever the password. The
  "same answer for unknown email and wrong password" property
  (`LoginHidesUnknownAccounts`) therefore holds only for active accounts.
- The verification email is awaited, not sent in the background. If sending fails, the
  answer is 500 and the new account stays in the table (`RegisterAddsOneAccount`).
- `forgotPassword` gives the same answer for known and unknown emails only when the reset
  email is sent. For a known email whose reset email fails, the answer is 500.
- `internalLogin` compares the header with `INTERNAL_API_KEY` by strict equality. If the
  variable is unset, a request without the header passes the key gate
  (`InternalLoginUnsetKey`).
- `process.env.X || 'access'` falls back for an empty value as well as an unset one
  (`SigningSecrets`).
- The redirect after verification interpolates an unset `FRONTEND_URL` as `"undefined"`.

## Model

| member | source | states |
|---|---|---|
| Crypto.Hash | backend/src/controllers/auth.controller.ts:37 | the stored digest is made with cost 10, and the password it came from matches it |
| Crypto.CompareHash | backend/src/controllers/auth.controller.ts:110 | a guess passes the password check exactly when it agrees with the registered password on the first 72 characters (NUL-free passwords; see Left out) |
| AuthController.Holder | backend/src/controllers/auth.controller.ts:75-77 | the token lookup finds an account whose column holds the token, or reports that none does |
| AuthController.HolderUnique | backend/src/controllers/auth.controller.ts:242-244 | in a table satisfying the invariant, at most one account holds a token, so the lookup always returns that account |
| AuthController.RegisterStep | backend/src/controllers/auth.controller.ts:16-65 | register answers 201, 400 or 500; it adds at most the registered email to the table and removes none |
| AuthController.VerifyEmailStep | backend/src/controllers/auth.controller.ts:70-91 | verifyEmail answers the redirect or 400 and keeps the set of accounts |
| AuthController.LoginStep | backend/src/controllers/auth.controller.ts:96-153 | login answers 200, 400 or 403, keeps the set of accounts, and sets the refresh cookie exactly on 200 |
| AuthController.InternalLoginResponse | backend/src/controllers/auth.controller.ts:158-189 | internalLogin answers 200, 400 or 403 and never sets a cookie |
| AuthController.LogoutResponse | backend/src/controllers/auth.controller.ts:194-206 | logout answers 200 and clears the `refreshToken` cookie with no max age |
| AuthController.ForgotPasswordStep | backend/src/controllers/auth.controller.ts:211-233 | forgotPassword answers 200 or 500 and keeps the set of accounts |
| AuthController.ResetPasswordStep | backend/src/controllers/auth.controller.ts:238-265 | resetPassword answers 200 or 400 and keeps the set of accounts |
| AuthController.RegisterKeepsInv | backend/src/controllers/auth.controller.ts:30-54 | registering with a fresh verification token keeps emails, ids and tokens unique |
| AuthController.VerifyEmailKeepsInv | backend/src/controllers/auth.controller.ts:73-84 | verification keeps the invariant; verified again matches "no verification token" |
| AuthController.LoginKeepsInv | backend/src/controllers/auth.controller.ts:100-139 | login keeps the invariant |
| AuthController.ForgotPasswordKeepsInv | backend/src/controllers/auth.controller.ts:215-224 | storing a fresh reset token keeps tokens unique |
| AuthController.ResetPasswordKeepsInv | backend/src/controllers/auth.controller.ts:242-258 | resetting the password keeps the invariant |
| AuthController.Controller.constructor | backend/src/controllers/auth.controller.ts:11 | the controller starts with an empty table that satisfies the invariant |
| AuthController.Controller.Register | backend/src/controllers/auth.controller.ts:16-65 | response and new table are those of `RegisterStep`; invariant kept |
| AuthController.Controller.VerifyEmail | backend/src/controllers/auth.controller.ts:70-91 | response and new table are those of `VerifyEmailStep`; invariant kept |
| AuthController.Controller.Login | backend/src/controllers/auth.controller.ts:96-153 | response and new table are those of `LoginStep`; invariant kept |
| AuthController.Controller.InternalLogin | backend/src/controllers/auth.controller.ts:158-189 | the response is `InternalLoginResponse` of the current table; nothing is modified |
| AuthController.Controller.Logout | backend/src/controllers/auth.controller.ts:194-206 | answers 200 and clears the `refreshToken` cookie; nothing is modified |
| AuthController.Controller.ForgotPassword | backend/src/controllers/auth.controller.ts:211-233 | response and new table are those of `ForgotPasswordStep`; invariant kept |
| AuthController.Controller.ResetPassword | backend/src/controllers/auth.controller.ts:238-265 | response and new table are those of `ResetPasswordStep`; invariant kept |
| AuthProperties.RegisterRejects | backend/src/controllers/auth.controller.ts:30-35 | 400 exactly on a confirmation mismatch ('Passwords do not match', checked first) or a taken email ('Email already registered'); both leave the table unchanged |
| AuthProperties.RegisterAddsOneAccount | backend/src/controllers/auth.controller.ts:37-63 | otherwise exactly one account is added, the row `create` inserts: the next id, the submitted organisation, email and mobile, `Hash(password)` with cost 10, the verification token, unverified, active, no reset token, both timestamps `now`; the id counter advances by one. No other account changes. The answer is 201, or 500 with the account kept if the email fails |
| AuthProperties.RegisterTwice | backend/src/controllers/auth.controller.ts:33-35 | a second registration of the same email is refused, and the table still has one account for it |
| AuthProperties.VerifyEmailRejects | backend/src/controllers/auth.controller.ts:73-79 | a missing, empty or unknown token gets 400 'Invalid token' and changes nothing |
| AuthProperties.VerifyEmailConsumes | backend/src/controllers/auth.controller.ts:81-86 | a held token verifies exactly its account, clears the token and redirects; afterwards nobody holds the token and a second use gets 400 |
| AuthProperties.LoginGates | backend/src/controllers/auth.controller.ts:100-117 | gate order: unknown email gives 400; a non-active status gives 403 naming it; a wrong password gives 400; an unverified account gives 403. Every refusal leaves the table unchanged |
| AuthProperties.LoginSucceedsIff | backend/src/controllers/auth.controller.ts:100-148 | login answers 200 exactly for an existing, active, verified account given its password |
| AuthProperties.LoginSuccess | backend/src/controllers/auth.controller.ts:119-148 | on success the body holds a 15m access token for {id, email}. The cookie holds a 7d refresh token: http-only, not secure, same-site strict, max age 604800000 ms. Only that account's `updatedAt` changes |
| AuthProperties.LoginStatusBeforePassword | backend/src/controllers/auth.controller.ts:104-112 | for a non-active account the 403 is the same whatever password is given |
| AuthProperties.LoginHidesUnknownAccounts | backend/src/controllers/auth.controller.ts:101-112 | an unknown email and a wrong password for an active account get identical responses |
| AuthProperties.FreshAccountCannotLogin | backend/src/controllers/auth.controller.ts:51-52 | right after registering, login gets 403 'Please verify your email before logging in.' with the right password and 400 with a wrong one |
| AuthProperties.InternalLoginKeyFirst | backend/src/controllers/auth.controller.ts:160-164 | a key that differs from the configured one gets 403 whatever the table and credentials |
| AuthProperties.InternalLoginGates | backend/src/controllers/auth.controller.ts:166-184 | with the right key, 200 exactly when the email exists and the password matches. It returns only a 15m access token and no cookie; otherwise 400 'Invalid credentials' |
| AuthProperties.InternalLoginBypassesStatus | backend/src/controllers/auth.controller.ts:168-184 | an account that `login` refuses for its status or verification is let in by internal login |
| AuthProperties.InternalLoginUnsetKey | backend/src/controllers/auth.controller.ts:162 | with `INTERNAL_API_KEY` unset, a request without the header is not refused by the key gate |
| AuthProperties.SigningSecrets | backend/src/controllers/auth.controller.ts:121-134 | both logins sign with `JWT_ACCESS_SECRET`, and login's cookie with `JWT_REFRESH_SECRET`, when set and non-empty; an unset or empty variable falls back to "access" and "refresh" |
| AuthProperties.ForgotPasswordSameAnswer | backend/src/controllers/auth.controller.ts:215-228 | an unknown email gets the same 200 message as a known one whose reset email is sent |
| AuthProperties.ForgotPasswordEffect | backend/src/controllers/auth.controller.ts:215-224 | an unknown email changes nothing; a known one gets the new reset token and `updatedAt`; nothing else changes |
| AuthProperties.ForgotPasswordRevokesEarlierToken | backend/src/controllers/auth.controller.ts:219-224 | a new reset request replaces the earlier reset token, which is then refused with 400 and changes nothing |
| AuthProperties.ResetPasswordRejects | backend/src/controllers/auth.controller.ts:242-247 | a token no account holds gets 400 'Invalid or expired token' and changes nothing |
| AuthProperties.ResetPasswordEmptyToken | backend/src/controllers/auth.controller.ts:240-247 | the empty token is refused, because no account in a table satisfying the invariant holds it |
| AuthProperties.ResetPasswordConsumes | backend/src/controllers/auth.controller.ts:249-260 | a held token replaces only its account's hash (the new password matches it) and clears the token; a second use gets 400 |
| AuthProperties.ForgotThenReset | backend/src/controllers/auth.controller.ts:219-260 | resetting with the token just issued succeeds and the new password matches the stored hash |
| AuthTrace.StepKeepsNotHeld | backend/src/controllers/auth.controller.ts:38 | no handler hands out a token other than the uuid it drew |
| AuthTrace.StepKeepsInv | backend/src/controllers/auth.controller.ts:16-265 | every handler keeps the invariant when its uuid is fresh |
| AuthTrace.RunKeepsInv | backend/src/controllers/auth.controller.ts:16-265 | the invariant (emails, ids and tokens unique) holds after any request sequence whose uuids are fresh |
| AuthTrace.RunRefusesDeadToken | backend/src/controllers/auth.controller.ts:73-84 | a token nobody holds, and not drawn again, gets 400 at every later verify or reset |
| AuthTrace.StepKeepsUnverified | backend/src/controllers/auth.controller.ts:73-84 | an unverified account keeps its verification token, and stays unverified, under every request but the one presenting that token to verifyEmail |
| AuthTrace.RunUnverifiedCannotLogin | backend/src/controllers/auth.controller.ts:114-117 | along any request sequence that never presents the verification token, no login for the account answers 200 |
| AuthTrace.VerificationLinkWorksOnce | backend/src/controllers/auth.controller.ts:81-84 | a verification link verifies once; every later use of its token in any request sequence is refused |
| AuthTrace.ResetLinkWorksOnce | backend/src/controllers/auth.controller.ts:251-258 | a reset link resets once; every later use of its token in any request sequence is refused |
| AuthTrace.StepKeepsAccounts | backend/src/controllers/auth.controller.ts:81-84 | no handler deletes an account or un-verifies one |
| AuthTrace.RunKeepsAccounts | backend/src/controllers/auth.controller.ts:16-265 | over any request sequence accounts persist and verification is terminal |
| AuthTrace.RegisterVerifyLogin | backend/src/controllers/auth.controller.ts:16-153 | register, verify with the emailed token, then log in: the answers are 201, the redirect, and 200 with access token {id 0, email} plus the 7-day refresh cookie |
| RegisterPage.Contains | frontend/src/pages/Register.tsx:133-143 | the lookahead test of one character class succeeds exactly when some character of the password is in the class |
| RegisterPage.ValidatePassword | frontend/src/pages/Register.tsx:129-146 | equals the reference "first failing rule" reading over the five rules in page order. It returns no message exactly when every rule holds, and the length message whenever the password is shorter than 8 |
| RegisterPage.FirstFailureOfRules | frontend/src/pages/Register.tsx:130-145 | the reference reading over the page's list is the if-chain of the five rules in order |
| RegisterPage.AllRules | frontend/src/pages/Register.tsx:129-145 | the five rules are all the rules: all five hold exactly when every rule holds |
| RegisterPage.ExamplePasswords | frontend/src/pages/Register.tsx:129-146 | 'Aa1!aaaa' passes. 'a' gets the length message. 'aaaaaaaa' gets the uppercase message |
| RegisterPage.ToLower | frontend/src/pages/Register.tsx:178 | lower-casing keeps the length and lower-cases each ASCII letter |
| RegisterPage.Includes | frontend/src/pages/Register.tsx:178-181 | `includes` holds exactly when the keyword occurs at some position |
| RegisterPage.GetMessageStyle | frontend/src/pages/Register.tsx:175-191 | the box is hidden exactly for the empty message; a shown box is red exactly when the message is an error |
| RegisterPage.KeywordMakesError | frontend/src/pages/Register.tsx:177-181 | a message holding one of the four keywords, in any letter case, is shown as an error |
| RegisterPage.ValidationMessagesAreErrors | frontend/src/pages/Register.tsx:129-146 | every message of the validator is shown as an error |
| RegisterPage.MismatchIsError | frontend/src/pages/Register.tsx:179 | 'Passwords do not match' is shown as an error |
| RegisterPage.DuplicateIsError | frontend/src/pages/Register.tsx:180 | 'Email already registered' is shown as an error |
| RegisterPage.ServerErrorIsError | frontend/src/pages/Register.tsx:178 | 'Server error' is shown as an error |
| RegisterPage.NoKeywordIsSuccess | frontend/src/pages/Register.tsx:177-189 | a non-empty message without the letters h, d, w and without the pair "or" is shown as a success |
| RegisterPage.RegisterSuccessIsNotError | frontend/src/pages/Register.tsx:177-189 | 'Registration successful. Please verify your email.' is shown as a success |
| RegisterPage.ReplyMessage | frontend/src/pages/Register.tsx:169-171 | the box shows the answer's non-empty message; a rejection without one (or with an empty one) shows 'Error', so a rejection never leaves the box empty; a 2xx answer without a message leaves it empty |
| RegisterPage.RegisterReplyMessage | frontend/src/pages/Register.tsx:164-171 | for every answer of the controller to a registration, the page shows the controller's own message, and the request resolves exactly on 201 |
| RegisterPage.RegisterOutcomeShown | frontend/src/pages/Register.tsx:164-189 | whatever the controller answers to a registration, the page shows it as an error exactly when it is not a 201 |
| RegisterPage.BackendSkipsStrengthCheck | backend/src/controllers/auth.controller.ts:30-60 | the controller registers a password that fails the page's rules |
| RegisterPage.RegisterForm.constructor | frontend/src/pages/Register.tsx:111-122 | every field starts empty and so does the message |
| RegisterPage.RegisterForm.OnChange | frontend/src/pages/Register.tsx:124-126 | the named field takes the new value; nothing else changes |
| RegisterPage.RegisterForm.Submit | frontend/src/pages/Register.tsx:148-162 | strength is checked before the confirmation and the first failure is shown. The request is sent exactly when every rule holds and the two passwords are equal, and then the message is cleared |
| RegisterPage.RegisterForm.Receive | frontend/src/pages/Register.tsx:169-172 | once the request settles, the message is the reply's message |

## Left out

- Email sending (backend/src/services/email.service.ts) is replaced by a `mailSent` flag. Templates and links are not modelled, and neither is the one-hour validity the email text claims: the controller stores no expiry and checks none.
- Database failures other than a failed email are not modelled. The store is a map that is always available, so the generic 500 for a failing query is not modelled.
- Concurrent requests are not modelled. Requests are handled one at a time, so the read-then-update window on token consumption is outside the model.
- Absent or ill-typed body fields are not modelled: every field is a present string. For `resetPassword` this leaves a gap. An absent `token` makes Prisma drop the filter, so `findFirst` would return some account. A `null` one would match accounts without a reset token. The model takes the token as a string.
- A `token` query parameter that is an array (`String(token)` joins it) is not modelled; the parameter is an optional string.
- Uuid generation is a `token` parameter that must be `Fresh`. Collisions, and the database's unique-constraint error they would cause, are not modelled.
- Account ids come from a counter (`nextId`). The database schema is not part of this model.
- When several accounts share a reset token, `findFirst` picks one by database order. The model proves this cannot happen under the invariant, so its choice is immaterial.
- `createdAt` and `updatedAt` are set from the `now` parameter at creation. Automatic `@updatedAt` stamping by the database is not modelled: `verifyEmail` writes no timestamp in the code, and none in the model.
- JWT signing is a record of payload, secret and lifetime. Token expiry, signature checks and the absent refresh endpoint are outside the model.
- bcrypt salts are not modelled: `Hash` is deterministic.
- Crypto.CompareHash: the "exactly when" holds for passwords without NUL characters. bcryptjs hashes the UTF-8 bytes plus a terminating NUL and cycles them over 72 bytes, so under one salt "a" and "a\u0000a" collide, and so do a 71-character `p` and `p + "\u0000"`. The model, which compares the first 72 characters, tells both pairs apart.
- In the running server the middleware at backend/src/index.ts:36-45 checks `x-internal-api-key` before the route. A wrong key is refused there with 403 and the body `{ error: 'Forbidden: Invalid internal API key' }`. So the 403 body of `AuthProperties.InternalLoginKeyFirst` ('Forbidden: Invalid API Key') never reaches a caller. The status and the order of the gates are the same.
- The captcha token in the login body is never read by the controller and is not modelled.
- HTTP plumbing is not modelled: headers, cookie serialisation and Express's response objects, `backend/src/index.ts`, `backend/src/routes/auth.routes.ts`.
- The other frontend pages, the dashboard and `main.tsx` are not modelled. Neither is the page's rendering, apart from the message box's colours.
- Strings are ASCII `seq<char>`. Non-ASCII `toLowerCase` and UTF-16 lengths are not modelled.
- RegisterPage.ReplyMessage: a 2xx answer without a message leaves `msg` undefined in the page. The model uses the empty string, which `getMessageStyle` treats the same way.
- RegisterPage.RegisterForm.Submit: the awaited request is split at the `await`. `Submit` covers the checks and clearing the message; `Receive` covers the settled request. The network call itself is not modelled.
