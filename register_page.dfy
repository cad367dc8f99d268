/**
 * The registration page of the frontend: the password-strength rules checked
 * before submitting, the order of the pre-submit checks, and the keyword test
 * that decides whether the message box is shown as an error.
 * Strings are ASCII `seq<char>`; the backend does not re-check the rules, so
 * this is the only place they exist.
 */
module RegisterPage {
  import opened Wrappers
  import AuthController

  // ---------------------------------------------------------------------------
  // Password strength
  // ---------------------------------------------------------------------------

  const MinLength: nat := 8
  const SpecialChars := "@$!%*?&"

  /** The character classes of the four lookahead patterns. */
  datatype CharClass = Lowercase | Uppercase | Digit | Special

  predicate InClass(c: char, k: CharClass)
  {
    match k
    case Lowercase => 'a' <= c <= 'z'
    case Uppercase => 'A' <= c <= 'Z'
    case Digit => '0' <= c <= '9'
    case Special => c in SpecialChars
  }

  /**
   * `/(?=.*[k])/.test(s)`: the pattern is unanchored and `.*` may match nothing,
   * so it succeeds exactly when some character of `s` is in class `k`.
   */
  function Contains(s: string, k: CharClass): (r: bool)
    ensures r <==> exists i :: 0 <= i < |s| && InClass(s[i], k)
  {
    if s == [] then false
    else
      assert forall i :: 0 < i < |s| ==> s[i] == s[1..][i - 1];
      InClass(s[0], k) || Contains(s[1..], k)
  }

  /** The five rules, as independent statements about the password. */
  datatype Rule = LongEnough | Has(k: CharClass)

  /** The order in which the page checks the rules. */
  const Rules: seq<Rule> := [LongEnough, Has(Lowercase), Has(Uppercase), Has(Digit), Has(Special)]

  ghost predicate Satisfies(password: string, rule: Rule)
  {
    match rule
    case LongEnough => |password| >= MinLength
    case Has(k) => exists i :: 0 <= i < |password| && InClass(password[i], k)
  }

  /** Every message of the validator begins with these words. */
  const PasswordMust := "Password must"

  function Message(rule: Rule): string
  {
    PasswordMust +
      match rule
      case LongEnough => " be at least 8 characters long."
      case Has(Lowercase) => " contain at least one lowercase letter."
      case Has(Uppercase) => " contain at least one uppercase letter."
      case Has(Digit) => " contain at least one number."
      case Has(Special) => " contain at least one special character (e.g., @$!%*?&)."
  }

  /** The reference reading: the message of the first rule in `rules` that fails. */
  ghost function FirstFailure(rules: seq<Rule>, password: string): Option<string>
  {
    if rules == [] then None
    else if !Satisfies(password, rules[0]) then Some(Message(rules[0]))
    else FirstFailure(rules[1..], password)
  }

  /** `validatePassword`: the first failing rule's message, or `None` when all five hold. */
  function ValidatePassword(password: string): (r: Option<string>)
    ensures r == FirstFailure(Rules, password)
    ensures r.None? <==> forall rule :: Satisfies(password, rule)
    ensures |password| < MinLength ==> r == Some(Message(LongEnough))
  {
    FirstFailureOfRules(password);
    AllRules(password);
    if |password| < MinLength then Some(Message(LongEnough))
    else if !Contains(password, Lowercase) then Some(Message(Has(Lowercase)))
    else if !Contains(password, Uppercase) then Some(Message(Has(Uppercase)))
    else if !Contains(password, Digit) then Some(Message(Has(Digit)))
    else if !Contains(password, Special) then Some(Message(Has(Special)))
    else None
  }

  /** `FirstFailure` over the page's rule list, unfolded. */
  lemma FirstFailureOfRules(p: string)
    ensures FirstFailure(Rules, p) ==
      if !Satisfies(p, LongEnough) then Some(Message(LongEnough))
      else if !Satisfies(p, Has(Lowercase)) then Some(Message(Has(Lowercase)))
      else if !Satisfies(p, Has(Uppercase)) then Some(Message(Has(Uppercase)))
      else if !Satisfies(p, Has(Digit)) then Some(Message(Has(Digit)))
      else if !Satisfies(p, Has(Special)) then Some(Message(Has(Special)))
      else None
  {
    var r4 := [Has(Special)];
    assert r4[1..] == [];
    assert FirstFailure(r4, p) == if !Satisfies(p, Has(Special)) then Some(Message(Has(Special))) else None;
    var r3 := [Has(Digit)] + r4;
    assert r3[1..] == r4;
    assert FirstFailure(r3, p) == if !Satisfies(p, Has(Digit)) then Some(Message(Has(Digit))) else FirstFailure(r4, p);
    var r2 := [Has(Uppercase)] + r3;
    assert r2[1..] == r3;
    assert FirstFailure(r2, p) == if !Satisfies(p, Has(Uppercase)) then Some(Message(Has(Uppercase))) else FirstFailure(r3, p);
    var r1 := [Has(Lowercase)] + r2;
    assert r1[1..] == r2;
    assert FirstFailure(r1, p) == if !Satisfies(p, Has(Lowercase)) then Some(Message(Has(Lowercase))) else FirstFailure(r2, p);
    assert Rules == [LongEnough] + r1;
    assert Rules[1..] == r1;
  }

  /** The list holds every rule, so "all five hold" is "every rule holds". */
  lemma AllRules(p: string)
    ensures (forall rule :: Satisfies(p, rule)) <==>
      Satisfies(p, LongEnough) && Satisfies(p, Has(Lowercase)) && Satisfies(p, Has(Uppercase)) &&
      Satisfies(p, Has(Digit)) && Satisfies(p, Has(Special))
  {
    if Satisfies(p, LongEnough) && Satisfies(p, Has(Lowercase)) && Satisfies(p, Has(Uppercase)) &&
       Satisfies(p, Has(Digit)) && Satisfies(p, Has(Special))
    {
      forall rule ensures Satisfies(p, rule) {
        match rule
        case LongEnough =>
        case Has(k) =>
          match k
          case Lowercase =>
          case Uppercase =>
          case Digit =>
          case Special =>
      }
    }
  }

  /** The password of the end-to-end scenario meets every rule; short or single-class ones do not. */
  lemma ExamplePasswords()
    ensures ValidatePassword("Aa1!aaaa") == None
    ensures ValidatePassword("a") == Some(Message(LongEnough))
    ensures ValidatePassword("aaaaaaaa") == Some(Message(Has(Uppercase)))
  {
    var good := "Aa1!aaaa";
    FirstFailureOfRules(good);
    assert InClass(good[0], Uppercase) && InClass(good[1], Lowercase);
    assert InClass(good[2], Digit) && InClass(good[3], Special);
    var lower := "aaaaaaaa";
    FirstFailureOfRules(lower);
    assert InClass(lower[0], Lowercase);
    assert forall i :: 0 <= i < |lower| ==> !InClass(lower[i], Uppercase);
  }

  // ---------------------------------------------------------------------------
  // The message box
  // ---------------------------------------------------------------------------

  /** `toLowerCase` on an ASCII character. */
  function LowerChar(c: char): char
  {
    if 'A' <= c <= 'Z' then (c as int + 32) as char else c
  }

  function ToLower(s: string): (r: string)
    ensures |r| == |s|
    ensures forall i :: 0 <= i < |s| ==> r[i] == LowerChar(s[i])
  {
    if s == [] then [] else [LowerChar(s[0])] + ToLower(s[1..])
  }

  ghost predicate OccursAt(s: string, t: string, i: nat)
  {
    i + |t| <= |s| && s[i..i + |t|] == t
  }

  /** `s.includes(t)`. */
  function Includes(s: string, t: string): (r: bool)
    ensures r <==> exists i: nat :: OccursAt(s, t, i)
  {
    if |s| < |t| then false
    else if s[..|t|] == t then
      assert OccursAt(s, t, 0);
      true
    else
      var r := Includes(s[1..], t);
      assert forall i: nat :: OccursAt(s[1..], t, i) <==> OccursAt(s, t, i + 1) by {
        forall i: nat ensures OccursAt(s[1..], t, i) <==> OccursAt(s, t, i + 1) {
          if i + |t| <= |s[1..]| {
            assert s[1..][i..i + |t|] == s[i + 1..i + 1 + |t|];
          }
        }
      }
      assert !OccursAt(s, t, 0);
      assert forall i: nat :: OccursAt(s, t, i) ==> i == 0 || OccursAt(s[1..], t, i - 1);
      r
  }

  /** The lower-case keywords that mark a message as an error. */
  const ErrorKeywords: seq<string> := ["error", "match", "registered", "password must"]

  /** The `isError` test of `getMessageStyle`. */
  predicate IsError(msg: string)
  {
    var lower := ToLower(msg);
    Includes(lower, "error") || Includes(lower, "match") ||
    Includes(lower, "registered") || Includes(lower, "password must")
  }

  const ErrorColor := "#D8000C"
  const ErrorBackground := "#FFD2D2"
  const SuccessColor := "#4F8A10"
  const SuccessBackground := "#DFF2BF"

  datatype MessageStyle = Hidden | Shown(color: string, backgroundColor: string)

  /** `getMessageStyle`: no box for an empty message, red for an error, green otherwise. */
  function GetMessageStyle(msg: string): (st: MessageStyle)
    ensures st.Hidden? <==> msg == ""
    ensures st.Shown? ==> (st.color == ErrorColor <==> IsError(msg))
    ensures st.Shown? ==> (st.backgroundColor == ErrorBackground <==> IsError(msg))
  {
    if msg == "" then Hidden
    else if IsError(msg) then Shown(ErrorColor, ErrorBackground)
    else Shown(SuccessColor, SuccessBackground)
  }

  /** A message holding `keyword` at position `i`, in any case, is shown as an error. */
  lemma KeywordMakesError(msg: string, keyword: string, i: nat)
    requires keyword in ErrorKeywords
    requires i + |keyword| <= |msg|
    requires forall j :: 0 <= j < |keyword| ==> LowerChar(msg[i + j]) == keyword[j]
    ensures IsError(msg)
    ensures GetMessageStyle(msg) == Shown(ErrorColor, ErrorBackground)
  {
    var lower := ToLower(msg);
    assert lower[i..i + |keyword|] == keyword;
    assert OccursAt(lower, keyword, i);
  }

  /** Every message `validatePassword` produces starts with "Password must", so it is shown as an error. */
  lemma ValidationMessagesAreErrors(password: string)
    requires ValidatePassword(password).Some?
    ensures GetMessageStyle(ValidatePassword(password).value) == Shown(ErrorColor, ErrorBackground)
  {
    var msg := ValidatePassword(password).value;
    assert msg[..|PasswordMust|] == PasswordMust;
    KeywordMakesError(msg, "password must", 0);
  }

  /** No character of `s` lower-cases to `c`. */
  ghost predicate Absent(s: string, c: char)
  {
    forall i :: 0 <= i < |s| ==> LowerChar(s[i]) != c
  }

  /** No two adjacent characters of `s` lower-case to `a` then `b`. */
  ghost predicate NoPair(s: string, a: char, b: char)
  {
    forall i :: 0 <= i < |s| - 1 ==> !(LowerChar(s[i]) == a && LowerChar(s[i + 1]) == b)
  }

  lemma AbsentConcat(s1: string, s2: string, c: char)
    requires Absent(s1, c) && Absent(s2, c)
    ensures Absent(s1 + s2, c)
  {
    var s := s1 + s2;
    forall i | 0 <= i < |s| ensures LowerChar(s[i]) != c {
      if i < |s1| {
        assert s[i] == s1[i];
      } else {
        assert s[i] == s2[i - |s1|];
      }
    }
  }

  lemma NoPairConcat(s1: string, s2: string, a: char, b: char)
    requires NoPair(s1, a, b) && NoPair(s2, a, b)
    requires s1 != [] && s2 != [] && !(LowerChar(s1[|s1| - 1]) == a && LowerChar(s2[0]) == b)
    ensures NoPair(s1 + s2, a, b)
  {
    var s := s1 + s2;
    forall i | 0 <= i < |s| - 1 ensures !(LowerChar(s[i]) == a && LowerChar(s[i + 1]) == b) {
      if i + 1 < |s1| {
        assert s[i] == s1[i] && s[i + 1] == s1[i + 1];
      } else if i + 1 == |s1| {
        assert s[i] == s1[|s1| - 1] && s[i + 1] == s2[0];
      } else {
        assert s[i] == s2[i - |s1|] && s[i + 1] == s2[i + 1 - |s1|];
      }
    }
  }

  /** A keyword one of whose letters never occurs is not included. */
  lemma AbsentLetter(msg: string, keyword: string, j: nat)
    requires j < |keyword| && Absent(msg, keyword[j])
    ensures !Includes(ToLower(msg), keyword)
  {
  }

  /** A keyword one of whose adjacent letter pairs never occurs is not included. */
  lemma AbsentPair(msg: string, keyword: string, j: nat)
    requires j + 1 < |keyword| && NoPair(msg, keyword[j], keyword[j + 1])
    ensures !Includes(ToLower(msg), keyword)
  {
  }

  /** The backend's failed-registration messages are shown as errors. */
  lemma MismatchIsError()
    ensures GetMessageStyle(AuthController.PasswordsDoNotMatch) == Shown(ErrorColor, ErrorBackground)
  {
    KeywordMakesError(AuthController.PasswordsDoNotMatch, "match", 17);
  }

  lemma DuplicateIsError()
    ensures GetMessageStyle(AuthController.EmailAlreadyRegistered) == Shown(ErrorColor, ErrorBackground)
  {
    KeywordMakesError(AuthController.EmailAlreadyRegistered, "registered", 14);
  }

  lemma ServerErrorIsError()
    ensures GetMessageStyle(AuthController.ServerError) == Shown(ErrorColor, ErrorBackground)
  {
    KeywordMakesError(AuthController.ServerError, "error", 7);
  }

  /** The success message, cut into words short enough to reason about character by character. */
  const SuccessWords: seq<string> := ["Registration ", "successful. ", "Please verify ", "your email."]

  lemma SuccessWordsJoin()
    ensures AuthController.RegistrationSuccessful ==
      SuccessWords[0] + SuccessWords[1] + SuccessWords[2] + SuccessWords[3]
  {
  }

  /** No letter of the success message lower-cases to 'h', 'd' or 'w'. */
  lemma SuccessLacks(c: char)
    requires c == 'h' || c == 'd' || c == 'w'
    ensures Absent(AuthController.RegistrationSuccessful, c)
  {
    var w := SuccessWords;
    SuccessWordsJoin();
    assert Absent(w[0], c) && Absent(w[1], c);
    assert Absent(w[2], c) && Absent(w[3], c);
    AbsentConcat(w[0], w[1], c);
    AbsentConcat(w[0] + w[1], w[2], c);
    AbsentConcat(w[0] + w[1] + w[2], w[3], c);
  }

  /** The success message never has an 'o' followed by an 'r'. */
  lemma SuccessLacksOr()
    ensures NoPair(AuthController.RegistrationSuccessful, 'o', 'r')
  {
    var w := SuccessWords;
    SuccessWordsJoin();
    assert NoPair(w[0], 'o', 'r') && NoPair(w[1], 'o', 'r');
    assert NoPair(w[2], 'o', 'r') && NoPair(w[3], 'o', 'r');
    NoPairConcat(w[0], w[1], 'o', 'r');
    NoPairConcat(w[0] + w[1], w[2], 'o', 'r');
    NoPairConcat(w[0] + w[1] + w[2], w[3], 'o', 'r');
  }

  /** A non-empty message lacking 'h', 'd', 'w' and the pair "or" holds none of the keywords. */
  lemma NoKeywordIsSuccess(msg: string)
    requires msg != ""
    requires NoPair(msg, 'o', 'r') && Absent(msg, 'h') && Absent(msg, 'd') && Absent(msg, 'w')
    ensures GetMessageStyle(msg) == Shown(SuccessColor, SuccessBackground)
  {
    AbsentPair(msg, "error", 3);
    AbsentLetter(msg, "match", 4);
    AbsentLetter(msg, "registered", 9);
    AbsentLetter(msg, "password must", 4);
  }

  /** The backend's registration success message contains none of the keywords, so it is shown as a success. */
  lemma RegisterSuccessIsNotError()
    ensures GetMessageStyle(AuthController.RegistrationSuccessful) == Shown(SuccessColor, SuccessBackground)
  {
    SuccessLacksOr();
    SuccessLacks('h');
    SuccessLacks('d');
    SuccessLacks('w');
    NoKeywordIsSuccess(AuthController.RegistrationSuccessful);
  }

  // ---------------------------------------------------------------------------
  // The form and its submission
  // ---------------------------------------------------------------------------

  /** The page's own mismatch message (the same text the backend uses). */
  const MismatchMessage := "Passwords do not match"
  /** Shown when a failed request carries no message. */
  const FallbackError := "Error"

  const FormFields: seq<string> := [
    "organisationName", "organisationSize", "organisationType", "representative",
    "designation", "companyEmail", "password", "confirmPassword", "mobile"]

  /** How the register request settles: a 2xx answer, or a rejection carrying the answer's message if any. */
  datatype Reply = Resolved(message: Option<string>) | Rejected(message: Option<string>)

  /**
   * The message the page shows once the request settles: the answer's message,
   * or for a rejection without one, "Error".  A 2xx answer without a message
   * leaves the box empty.
   */
  function ReplyMessage(reply: Reply): (m: string)
    ensures reply.Rejected? ==> m != ""
    ensures reply.message.Some? && reply.message.value != "" ==> m == reply.message.value
    ensures reply.Rejected? && (reply.message.None? || reply.message.value == "") ==> m == FallbackError
    ensures reply == Resolved(None) ==> m == ""
  {
    match reply
    case Resolved(m) => if m.Some? then m.value else ""
    case Rejected(m) => if m.Some? && m.value != "" then m.value else FallbackError
  }

  /** How axios settles on one of the controller's responses to a register request. */
  function ReplyTo(res: AuthController.Response): Reply
  {
    var m := if res.body.Json? then Some(res.body.message) else None;
    if 200 <= res.status < 300 then Resolved(m) else Rejected(m)
  }

  /**
   * The page shows the controller's own message for every answer to a registration,
   * and the request resolves exactly on 201.
   */
  lemma RegisterReplyMessage(s: AuthController.Store, r: AuthController.Registration, token: string,
                             now: nat, mailSent: bool)
    ensures var res := AuthController.RegisterStep(s, r, token, now, mailSent).response;
      && res.body.Json?
      && ReplyMessage(ReplyTo(res)) == res.body.message
      && (ReplyTo(res).Resolved? <==> res.status == 201)
  {
    var res := AuthController.RegisterStep(s, r, token, now, mailSent).response;
    assert res.body.message != "";
  }

  /** Whatever the controller answers to a registration, the page shows it as an error exactly when it is not a 201. */
  lemma RegisterOutcomeShown(s: AuthController.Store, r: AuthController.Registration, token: string,
                             now: nat, mailSent: bool)
    ensures var res := AuthController.RegisterStep(s, r, token, now, mailSent).response;
      GetMessageStyle(ReplyMessage(ReplyTo(res))) ==
        if res.status == 201 then Shown(SuccessColor, SuccessBackground) else Shown(ErrorColor, ErrorBackground)
  {
    var res := AuthController.RegisterStep(s, r, token, now, mailSent).response;
    var m := if res.status == 201 then AuthController.RegistrationSuccessful
             else if r.password != r.confirmPassword then AuthController.PasswordsDoNotMatch
             else if r.companyEmail in s.users then AuthController.EmailAlreadyRegistered
             else AuthController.ServerError;
    assert res.body == AuthController.Json(m);
    assert ReplyMessage(ReplyTo(res)) == m;
    if res.status == 201 {
      RegisterSuccessIsNotError();
    } else if r.password != r.confirmPassword {
      MismatchIsError();
    } else if r.companyEmail in s.users {
      DuplicateIsError();
    } else {
      ServerErrorIsError();
    }
  }

  /** The backend does not repeat the strength rules: a one-letter password registers. */
  lemma BackendSkipsStrengthCheck(s: AuthController.Store, org: AuthController.Organisation, email: string,
                                  mobile: string, token: string, now: nat)
    requires email !in s.users
    ensures ValidatePassword("a").Some?
    ensures AuthController.RegisterStep(s, AuthController.Registration(org, email, "a", "a", mobile), token, now, true).response.status == 201
  {
    ExamplePasswords();
  }

  /** The register form: its fields, and the message box under it. */
  class RegisterForm {
    var form: map<string, string>
    var msg: string

    ghost predicate Valid()
      reads this
    {
      forall f :: f in FormFields ==> f in form
    }

    constructor ()
      ensures Valid() && msg == ""
      ensures form == map f | f in FormFields :: ""
    {
      form := map f | f in FormFields :: "";
      msg := "";
    }

    /** `onChange`: the named field takes the new value; nothing else changes. */
    method OnChange(name: string, value: string)
      requires Valid()
      modifies this
      ensures Valid()
      ensures form == old(form)[name := value] && msg == old(msg)
    {
      form := form[name := value];
    }

    /**
     * `submit` up to the request: the strength rules are checked before the
     * confirmation, the first failure is shown, and the request is sent (with the
     * message cleared) only when both checks pass.
     */
    method Submit() returns (send: bool)
      requires Valid()
      modifies this
      ensures Valid() && form == old(form)
      ensures send <==> (forall rule :: Satisfies(form["password"], rule)) && form["password"] == form["confirmPassword"]
      ensures ValidatePassword(form["password"]).Some? ==> msg == ValidatePassword(form["password"]).value
      ensures ValidatePassword(form["password"]).None? && form["password"] != form["confirmPassword"] ==>
                msg == MismatchMessage
      ensures send ==> msg == ""
    {
      var passwordError := ValidatePassword(form["password"]);
      if passwordError.Some? {
        msg := passwordError.value;
        return false;
      }
      if form["password"] != form["confirmPassword"] {
        msg := MismatchMessage;
        return false;
      }
      msg := "";
      return true;
    }

    /** The rest of `submit`: the settled request's message replaces the box's. */
    method Receive(reply: Reply)
      requires Valid()
      modifies this
      ensures Valid() && form == old(form)
      ensures msg == ReplyMessage(reply)
    {
      match reply
      case Resolved(m) =>
        msg := if m.Some? then m.value else "";
      case Rejected(m) =>
        msg := if m.Some? && m.value != "" then m.value else FallbackError;
    }
  }
}
