/**
 * The request schemas of the authentication endpoints: log in (an email or a
 * user name, and a password), register (user name, email, password) and reset
 * a password (email). Unknown body keys are dropped.
 *
 * A string schema runs its steps in the order declared: a check adds an issue
 * and the steps go on; `.trim()` and `.toLowerCase()` change the string that
 * the later steps and the result see, and not what the earlier checks saw.
 * Whether a string is an email address is left to the `isEmail` parameter.
 */
module AuthCommands {
  import opened Wrappers
  import opened Text
  import opened JsValue
  import opened Validation

  // ---------------------------------------------------------------------------
  // Messages
  // ---------------------------------------------------------------------------

  const LoginRequired := "Podaj email lub nazwę użytkownika"
  const PasswordRequired := "Podaj hasło"
  const UsernameTooShort := "Nazwa użytkownika musi mieć co najmniej 3 znaki"
  const UsernameTooLong := "Nazwa użytkownika może mieć maksymalnie 30 znaków"
  const UsernameCharacters := "Nazwa użytkownika może zawierać tylko małe litery, cyfry i podkreślenia"
  const EmailRequired := "Podaj adres email"
  const EmailInvalid := "Podaj prawidłowy adres email"
  const PasswordTooShort := "Hasło musi mieć co najmniej 8 znaków"
  const PasswordNoUpper := "Hasło musi zawierać co najmniej jedną wielką literę"
  const PasswordNoLower := "Hasło musi zawierać co najmniej jedną małą literę"
  const PasswordNoDigit := "Hasło musi zawierać co najmniej jedną cyfrę"

  const UsernameMin := 3
  const UsernameMax := 30
  const PasswordMin := 8

  // ---------------------------------------------------------------------------
  // What is accepted, stated directly
  // ---------------------------------------------------------------------------

  /** A character of `[a-z0-9_]`. */
  predicate IsUsernameChar(c: char) {
    IsLower(c) || IsDigit(c) || c == '_'
  }

  /** `/^[a-z0-9_]+$/` */
  predicate MatchesUsernamePattern(s: string) {
    s != [] && forall i :: 0 <= i < |s| ==> IsUsernameChar(s[i])
  }

  /** Some character of `s` satisfies `p`: the regular expression `/[…]/` of one class. */
  predicate HasChar(s: string, p: char -> bool) {
    exists i :: 0 <= i < |s| && p(s[i])
  }

  predicate ValidUsername(s: string) {
    UsernameMin <= |s| <= UsernameMax && MatchesUsernamePattern(s)
  }

  predicate ValidEmail(s: string, isEmail: string -> bool) {
    |s| >= 1 && isEmail(s)
  }

  /** At least 8 characters, with an upper-case letter, a lower-case letter and a digit. */
  predicate StrongPassword(s: string) {
    |s| >= PasswordMin && HasChar(s, IsUpper) && HasChar(s, IsLower) && HasChar(s, IsDigit)
  }

  // ---------------------------------------------------------------------------
  // Field schemas
  // ---------------------------------------------------------------------------

  /** A string field: absence is "Required", any other type a type issue. */
  function StringField(v: Value, check: string -> seq<Issue>, transform: string -> string): (r: Parsed<string>)
    ensures r.Ok? <==> v.Str? && check(v.s) == []
    ensures r.Ok? ==> r.value == transform(v.s)
    ensures r.Err? ==> r.error != []
  {
    match v
    case Undefined => Err(Required)
    case Str(s) => if check(s) == [] then Ok(transform(s)) else Err(check(s))
    case _ => Err(TypeIssue("string"))
  }

  function NonEmptyIssues(s: string, message: string): seq<Issue> {
    if |s| < 1 then Fail(message) else []
  }

  /** `login: z.string().min(1, …).trim()` */
  function LoginIssues(s: string): (r: seq<Issue>)
    ensures r == [] <==> |s| >= 1
  {
    NonEmptyIssues(s, LoginRequired)
  }

  /** `password: z.string().min(1, …)` */
  function PasswordIssues(s: string): (r: seq<Issue>)
    ensures r == [] <==> |s| >= 1
  {
    NonEmptyIssues(s, PasswordRequired)
  }

  /** `.min(3, …).max(30, …).regex(/^[a-z0-9_]+$/, …)`, all on the string as received. */
  function UsernameIssues(s: string): (r: seq<Issue>)
    ensures r == [] <==> ValidUsername(s)
  {
    (if |s| < UsernameMin then Fail(UsernameTooShort) else [])
    + (if |s| > UsernameMax then Fail(UsernameTooLong) else [])
    + (if MatchesUsernamePattern(s) then [] else Fail(UsernameCharacters))
  }

  /** `.min(1, …).email(…)`, on the string as received. */
  function EmailIssues(s: string, isEmail: string -> bool): (r: seq<Issue>)
    ensures r == [] <==> ValidEmail(s, isEmail)
  {
    NonEmptyIssues(s, EmailRequired) + (if isEmail(s) then [] else Fail(EmailInvalid))
  }

  /** `.min(8, …)` and the three character-class patterns. */
  function StrongPasswordIssues(s: string): (r: seq<Issue>)
    ensures r == [] <==> StrongPassword(s)
  {
    (if |s| < PasswordMin then Fail(PasswordTooShort) else [])
    + (if HasChar(s, IsUpper) then [] else Fail(PasswordNoUpper))
    + (if HasChar(s, IsLower) then [] else Fail(PasswordNoLower))
    + (if HasChar(s, IsDigit) then [] else Fail(PasswordNoDigit))
  }

  /** `.trim().toLowerCase()` */
  function Normalize(s: string): string {
    ToLower(Trim(s))
  }

  function ParseLogin(v: Value): (r: Parsed<string>)
    ensures r.Ok? <==> v.Str? && |v.s| >= 1
    ensures r.Ok? ==> r.value == Trim(v.s)
    ensures r.Err? ==> r.error != []
  {
    StringField(v, LoginIssues, Trim)
  }

  function ParseLoginPassword(v: Value): (r: Parsed<string>)
    ensures r.Ok? <==> v.Str? && |v.s| >= 1
    ensures r.Ok? ==> r.value == v.s
    ensures r.Err? ==> r.error != []
  {
    StringField(v, PasswordIssues, s => s)
  }

  function ParseUsername(v: Value): (r: Parsed<string>)
    ensures r.Ok? <==> v.Str? && ValidUsername(v.s)
    ensures r.Ok? ==> r.value == Normalize(v.s)
    ensures r.Err? ==> r.error != []
  {
    StringField(v, UsernameIssues, Normalize)
  }

  function ParseEmail(v: Value, isEmail: string -> bool): (r: Parsed<string>)
    ensures r.Ok? <==> v.Str? && ValidEmail(v.s, isEmail)
    ensures r.Ok? ==> r.value == Normalize(v.s)
    ensures r.Err? ==> r.error != []
  {
    StringField(v, s => EmailIssues(s, isEmail), Normalize)
  }

  function ParseNewPassword(v: Value): (r: Parsed<string>)
    ensures r.Ok? <==> v.Str? && StrongPassword(v.s)
    ensures r.Ok? ==> r.value == v.s
    ensures r.Err? ==> r.error != []
  {
    StringField(v, StrongPasswordIssues, s => s)
  }

  // ---------------------------------------------------------------------------
  // Commands
  // ---------------------------------------------------------------------------

  datatype LoginCommand = LoginCommand(login: string, password: string)
  datatype RegisterCommand = RegisterCommand(username: string, email: string, password: string)
  datatype ResetPasswordCommand = ResetPasswordCommand(email: string)

  /** `loginSchema` */
  function ParseLoginCommand(body: Value): (r: Parsed<LoginCommand>)
    ensures r.Ok? <==> (IsRecord(body) && Field(body, "login").Str? && |Field(body, "login").s| >= 1
      && Field(body, "password").Str? && |Field(body, "password").s| >= 1)
    ensures r.Ok? ==> r.value == LoginCommand(Trim(Field(body, "login").s), Field(body, "password").s)
    ensures r.Err? ==> r.error != []
    ensures IsRecord(body) && r.Err? ==> (r.error ==
      Under("login", IssuesOf(ParseLogin(Field(body, "login"))))
      + Under("password", IssuesOf(ParseLoginPassword(Field(body, "password")))))
  {
    if !IsRecord(body) then Err(TypeIssue("object"))
    else
      var login := ParseLogin(Field(body, "login"));
      var password := ParseLoginPassword(Field(body, "password"));
      if login.Ok? && password.Ok? then Ok(LoginCommand(login.value, password.value))
      else Err(Under("login", IssuesOf(login)) + Under("password", IssuesOf(password)))
  }

  /** `registerSchema` */
  function ParseRegisterCommand(body: Value, isEmail: string -> bool): (r: Parsed<RegisterCommand>)
    ensures r.Ok? <==> (IsRecord(body) && Field(body, "username").Str? && ValidUsername(Field(body, "username").s)
      && Field(body, "email").Str? && ValidEmail(Field(body, "email").s, isEmail)
      && Field(body, "password").Str? && StrongPassword(Field(body, "password").s))
    ensures r.Ok? ==> r.value == RegisterCommand(Normalize(Field(body, "username").s),
      Normalize(Field(body, "email").s), Field(body, "password").s)
    ensures r.Err? ==> r.error != []
    ensures IsRecord(body) && r.Err? ==> (r.error ==
      Under("username", IssuesOf(ParseUsername(Field(body, "username"))))
      + Under("email", IssuesOf(ParseEmail(Field(body, "email"), isEmail)))
      + Under("password", IssuesOf(ParseNewPassword(Field(body, "password")))))
  {
    if !IsRecord(body) then Err(TypeIssue("object"))
    else
      var username := ParseUsername(Field(body, "username"));
      var email := ParseEmail(Field(body, "email"), isEmail);
      var password := ParseNewPassword(Field(body, "password"));
      if username.Ok? && email.Ok? && password.Ok? then Ok(RegisterCommand(username.value, email.value, password.value))
      else Err(Under("username", IssuesOf(username)) + Under("email", IssuesOf(email)) + Under("password", IssuesOf(password)))
  }

  /** `resetPasswordSchema` */
  function ParseResetPasswordCommand(body: Value, isEmail: string -> bool): (r: Parsed<ResetPasswordCommand>)
    ensures r.Ok? <==> (IsRecord(body) && Field(body, "email").Str? && ValidEmail(Field(body, "email").s, isEmail))
    ensures r.Ok? ==> r.value == ResetPasswordCommand(Normalize(Field(body, "email").s))
    ensures r.Err? ==> r.error != []
    ensures IsRecord(body) && r.Err? ==> r.error == Under("email", IssuesOf(ParseEmail(Field(body, "email"), isEmail)))
  {
    if !IsRecord(body) then Err(TypeIssue("object"))
    else
      match ParseEmail(Field(body, "email"), isEmail)
      case Ok(email) => Ok(ResetPasswordCommand(email))
      case Err(issues) => Err(Under("email", issues))
  }

  /** The `ZodError` that `parse` throws for the issues of a failed parse. */
  function Thrown<T>(r: Parsed<T>): (e: Result<T, Value>)
    ensures e.Ok? <==> r.Ok?
    ensures r.Ok? ==> e.value == r.value
    ensures r.Err? ==> e.error == ZodError(r.error)
  {
    match r
    case Ok(x) => Ok(x)
    case Err(issues) => Err(ZodError(issues))
  }

  /** `validateLogin` */
  function ValidateLogin(data: Value): (r: Result<LoginCommand, Value>)
    ensures r.Ok? <==> ParseLoginCommand(data).Ok?
    ensures r.Err? ==> (r.error.ErrorObj? && r.error.name == "ZodError" && "issues" in r.error.props
      && r.error.props["issues"].Arr? && r.error.props["issues"].items != [])
  {
    Thrown(ParseLoginCommand(data))
  }

  /** `validateRegister` */
  function ValidateRegister(data: Value, isEmail: string -> bool): (r: Result<RegisterCommand, Value>)
    ensures r.Ok? <==> ParseRegisterCommand(data, isEmail).Ok?
    ensures r.Err? ==> (r.error.ErrorObj? && r.error.name == "ZodError" && "issues" in r.error.props
      && r.error.props["issues"].Arr? && r.error.props["issues"].items != [])
  {
    Thrown(ParseRegisterCommand(data, isEmail))
  }

  /** `validateResetPassword` */
  function ValidateResetPassword(data: Value, isEmail: string -> bool): (r: Result<ResetPasswordCommand, Value>)
    ensures r.Ok? <==> ParseResetPasswordCommand(data, isEmail).Ok?
    ensures r.Err? ==> (r.error.ErrorObj? && r.error.name == "ZodError" && "issues" in r.error.props
      && r.error.props["issues"].Arr? && r.error.props["issues"].items != [])
  {
    Thrown(ParseResetPasswordCommand(data, isEmail))
  }

  // ---------------------------------------------------------------------------
  // Properties
  // ---------------------------------------------------------------------------

  /**
   * The transforms of the user name never change an accepted one: the pattern
   * already excludes white space and upper-case letters, so the user name
   * registered is the one typed.
   */
  lemma {:induction false} AcceptedUsernameUnchanged(s: string)
    requires ValidUsername(s)
    ensures Normalize(s) == s
  {
    assert IsUsernameChar(s[0]) && IsUsernameChar(s[|s| - 1]);
    TrimOfUnpadded(s);
    assert forall i :: 0 <= i < |s| ==> IsUsernameChar(s[i]) && !IsUpper(s[i]);
    LowerOfLower(s);
  }

  /** Normalizing twice is normalizing once. */
  lemma {:induction false} NormalizeIdempotent(s: string)
    ensures Normalize(Normalize(s)) == Normalize(s)
  {
    var t := Trim(s);
    var n := ToLower(t);
    if n != [] {
      assert n[0] == LowerChar(t[0]) && n[|n| - 1] == LowerChar(t[|t| - 1]);
      LowerKeepsWhitespace(t[0]);
      LowerKeepsWhitespace(t[|t| - 1]);
      TrimOfUnpadded(n);
    }
    LowerOfLower(n);
  }

  /** The check of the login runs before the trim: a blank login passes, and becomes empty. */
  lemma {:induction false} BlankLoginAccepted(password: string)
    requires |password| >= 1
    ensures ParseLoginCommand(Obj(map["login" := Str(" "), "password" := Str(password)])) == Ok(LoginCommand("", password))
  {
    var body := Obj(map["login" := Str(" "), "password" := Str(password)]);
    assert Field(body, "login") == Str(" ") && Field(body, "password") == Str(password);
    assert TrimStart(" ") == "";
  }

  /** The checks of the email run before the transforms: an upper-case address is accepted, lower-cased. */
  lemma {:induction false} EmailLowerCasedAfterCheck(isEmail: string -> bool)
    requires isEmail("Ann@Example.com")
    ensures ParseEmail(Str("Ann@Example.com"), isEmail) == Ok("ann@example.com")
  {
    var s := "Ann@Example.com";
    assert s[0] == 'A' && s[|s| - 1] == 'm';
    TrimOfUnpadded(s);
    var lower := ToLower(s);
    assert lower == "ann@example.com";
  }

  /** An upper-case user name is rejected, although lower-casing comes later in the chain. */
  lemma {:induction false} UpperCaseUsernameRejected()
    ensures ParseUsername(Str("Anna")).Err?
  {
    assert !IsUsernameChar("Anna"[0]);
  }

  /** A reset request is accepted exactly when its email would be accepted at registration, with the same result. */
  lemma {:induction false} ResetEmailAsRegistration(body: Value, isEmail: string -> bool)
    ensures ParseResetPasswordCommand(body, isEmail).Ok? <==> IsRecord(body) && ParseEmail(Field(body, "email"), isEmail).Ok?
    ensures ParseResetPasswordCommand(body, isEmail).Ok? ==>
      ParseResetPasswordCommand(body, isEmail).value.email == ParseEmail(Field(body, "email"), isEmail).value
  {
  }

  /** "password" lacks an upper-case letter and a digit; "Password1" is strong. */
  lemma {:induction false} PasswordExamples()
    ensures StrongPasswordIssues("password") == Fail(PasswordNoUpper) + Fail(PasswordNoDigit)
    ensures StrongPassword("Password1")
  {
    var weak := "password";
    assert !HasChar(weak, IsUpper) by {
      assert forall i :: 0 <= i < |weak| ==> !IsUpper(weak[i]);
    }
    assert !HasChar(weak, IsDigit) by {
      assert forall i :: 0 <= i < |weak| ==> !IsDigit(weak[i]);
    }
    assert IsLower(weak[0]);
    var none: seq<Issue> := [];
    assert none + Fail(PasswordNoUpper) + none + Fail(PasswordNoDigit) == Fail(PasswordNoUpper) + Fail(PasswordNoDigit);
    var strong := "Password1";
    assert IsUpper(strong[0]) && IsLower(strong[1]) && IsDigit(strong[8]);
  }

  /** Every check of the user name runs: "Ab" is too short and breaks the pattern, two issues. */
  lemma {:induction false} UsernameIssuesCollected()
    ensures UsernameIssues("Ab") == Fail(UsernameTooShort) + Fail(UsernameCharacters)
  {
    assert !IsUsernameChar("Ab"[0]);
    var none: seq<Issue> := [];
    assert Fail(UsernameTooShort) + none + Fail(UsernameCharacters) == Fail(UsernameTooShort) + Fail(UsernameCharacters);
  }
}
