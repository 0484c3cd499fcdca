/** The login and registration form rules: minimum lengths, an email check,
    and the rule that the password confirmation repeats the password. Each
    rule that fails contributes one issue with its own message. The email
    format test belongs to the validation library and is a parameter here. */
module AuthSchema {

  const EmailMessage: string := "Geçerli bir email adresi giriniz"
  const PasswordMessage: string := "Şifre en az 8 karakter olmalıdır"
  const NameMessage: string := "İsim en az 2 karakter olmalıdır"
  const ConfirmationMessage: string := "Şifre onayı en az 8 karakter olmalıdır"
  const MismatchMessage: string := "Şifreler eşleşmiyor"

  const MinPasswordLength: nat := 8
  const MinNameLength: nat := 2

  /** A failed rule: the field it is reported on and its message. */
  datatype Issue = Issue(path: seq<string>, message: string)

  datatype LoginRequest = LoginRequest(email: string, password: string)

  datatype RegisterRequest = RegisterRequest(
    name: string, email: string, password: string, passwordConfirmation: string)

  /** JavaScript's `length`: characters outside the Basic Multilingual Plane
      are two UTF-16 code units. */
  function Utf16Length(s: string): (n: nat)
    ensures |s| <= n <= 2 * |s|
  {
    if s == [] then 0
    else (if s[0] as int > 0xFFFF then 2 else 1) + Utf16Length(s[1..])
  }

  /** `z.string().min(n, message)` on one field. */
  function MinLength(field: string, value: string, n: nat, message: string): (issues: seq<Issue>)
    ensures issues == [] <==> Utf16Length(value) >= n
    ensures issues != [] ==> issues == [Issue([field], message)]
  {
    if Utf16Length(value) < n then [Issue([field], message)] else []
  }

  /** `z.string().email(message)` on one field, with the format test given. */
  function EmailRule(field: string, value: string, isEmail: string -> bool, message: string): (issues: seq<Issue>)
    ensures issues == [] <==> isEmail(value)
    ensures issues != [] ==> issues == [Issue([field], message)]
  {
    if isEmail(value) then [] else [Issue([field], message)]
  }

  /** No element of the list occurs twice. */
  predicate NoRepeats(issues: seq<Issue>) {
    forall i, j :: 0 <= i < j < |issues| ==> issues[i] != issues[j]
  }

  /** Joining two lists without repeats and without a shared element gives
      a list without repeats. */
  lemma {:induction false} NoRepeatsAppend(a: seq<Issue>, b: seq<Issue>)
    requires NoRepeats(a) && NoRepeats(b)
    requires forall x :: x in a ==> x !in b
    ensures NoRepeats(a + b)
  {
    var ab := a + b;
    forall i, j | 0 <= i < j < |ab|
      ensures ab[i] != ab[j]
    {
      if j < |a| {
        assert ab[i] == a[i] && ab[j] == a[j];
      } else if i >= |a| {
        assert ab[i] == b[i - |a|] && ab[j] == b[j - |a|];
      } else {
        assert ab[i] == a[i] && ab[j] == b[j - |a|];
        assert a[i] in a && b[j - |a|] in b;
      }
    }
  }

  /** Two rules that each report at most their own issue, the two issues
      different, report each issue at most once between them. */
  lemma {:induction false} TwoRules(a: seq<Issue>, b: seq<Issue>, x: Issue, y: Issue)
    requires a == [] || a == [x]
    requires b == [] || b == [y]
    requires x != y
    ensures NoRepeats(a + b) && |a + b| <= 2 && (a + b == [] <==> a == [] && b == [])
    ensures (x in a + b <==> a != []) && (y in a + b <==> b != [])
    ensures forall z :: z in a + b ==> z == x || z == y
  {
    if a != [] && b != [] {
      assert a + b == [x, y];
    }
  }

  /** The issues of `loginRequestSchema`, in field order. */
  function ValidateLogin(req: LoginRequest, isEmail: string -> bool): (issues: seq<Issue>)
    // accepted exactly when the email passes and the password is long enough
    ensures issues == [] <==> isEmail(req.email) && Utf16Length(req.password) >= MinPasswordLength
    ensures Issue(["email"], EmailMessage) in issues <==> !isEmail(req.email)
    ensures Issue(["password"], PasswordMessage) in issues <==> Utf16Length(req.password) < MinPasswordLength
    // nothing else is ever reported
    ensures forall i :: 0 <= i < |issues| ==>
      issues[i] == Issue(["email"], EmailMessage) || issues[i] == Issue(["password"], PasswordMessage)
    // each rule is reported at most once
    ensures |issues| <= 2
    ensures NoRepeats(issues)
  {
    var email := EmailRule("email", req.email, isEmail, EmailMessage);
    var password := MinLength("password", req.password, MinPasswordLength, PasswordMessage);
    TwoRules(email, password, Issue(["email"], EmailMessage), Issue(["password"], PasswordMessage));
    email + password
  }

  /** The confirmation rule, checked on the whole form. */
  function MatchRule(req: RegisterRequest): (issues: seq<Issue>)
    ensures issues == [] <==> req.password == req.passwordConfirmation
    ensures issues != [] ==> issues == [Issue(["password_confirmation"], MismatchMessage)]
  {
    if req.password == req.passwordConfirmation then [] else [Issue(["password_confirmation"], MismatchMessage)]
  }

  /** The five issues the registration form can report. */
  predicate RegisterIssue(x: Issue) {
    || x == Issue(["name"], NameMessage)
    || x == Issue(["email"], EmailMessage)
    || x == Issue(["password"], PasswordMessage)
    || x == Issue(["password_confirmation"], ConfirmationMessage)
    || x == Issue(["password_confirmation"], MismatchMessage)
  }

  /** The field rules of `registerRequestSchema`, in field order. */
  function RegisterFieldIssues(req: RegisterRequest, isEmail: string -> bool): (issues: seq<Issue>)
    ensures issues == [] <==>
      && Utf16Length(req.name) >= MinNameLength
      && isEmail(req.email)
      && Utf16Length(req.password) >= MinPasswordLength
      && Utf16Length(req.passwordConfirmation) >= MinPasswordLength
    ensures Issue(["name"], NameMessage) in issues <==> Utf16Length(req.name) < MinNameLength
    ensures Issue(["email"], EmailMessage) in issues <==> !isEmail(req.email)
    ensures Issue(["password"], PasswordMessage) in issues <==> Utf16Length(req.password) < MinPasswordLength
    ensures Issue(["password_confirmation"], ConfirmationMessage) in issues <==>
      Utf16Length(req.passwordConfirmation) < MinPasswordLength
    ensures Issue(["password_confirmation"], MismatchMessage) !in issues
    ensures |issues| <= 4
    ensures forall x :: x in issues ==> RegisterIssue(x)
    ensures NoRepeats(issues)
  {
    var name := MinLength("name", req.name, MinNameLength, NameMessage);
    var email := EmailRule("email", req.email, isEmail, EmailMessage);
    var password := MinLength("password", req.password, MinPasswordLength, PasswordMessage);
    var confirmation := MinLength("password_confirmation", req.passwordConfirmation, MinPasswordLength,
                                  ConfirmationMessage);
    TwoRules(name, email, Issue(["name"], NameMessage), Issue(["email"], EmailMessage));
    TwoRules(password, confirmation, Issue(["password"], PasswordMessage),
             Issue(["password_confirmation"], ConfirmationMessage));
    NoRepeatsAppend(name + email, password + confirmation);
    (name + email) + (password + confirmation)
  }

  /** The issues of `registerRequestSchema`: the field rules, then the
      confirmation rule, which is checked even when a field rule failed. */
  function ValidateRegister(req: RegisterRequest, isEmail: string -> bool): (issues: seq<Issue>)
    // accepted exactly when every rule holds
    ensures issues == [] <==>
      && Utf16Length(req.name) >= MinNameLength
      && isEmail(req.email)
      && Utf16Length(req.password) >= MinPasswordLength
      && Utf16Length(req.passwordConfirmation) >= MinPasswordLength
      && req.password == req.passwordConfirmation
    // each rule has its own message
    ensures Issue(["name"], NameMessage) in issues <==> Utf16Length(req.name) < MinNameLength
    ensures Issue(["email"], EmailMessage) in issues <==> !isEmail(req.email)
    ensures Issue(["password"], PasswordMessage) in issues <==> Utf16Length(req.password) < MinPasswordLength
    ensures Issue(["password_confirmation"], ConfirmationMessage) in issues <==>
      Utf16Length(req.passwordConfirmation) < MinPasswordLength
    // a mismatch is reported on the confirmation field
    ensures Issue(["password_confirmation"], MismatchMessage) in issues <==>
      req.password != req.passwordConfirmation
    // at most one issue per rule, and nothing else is ever reported
    ensures |issues| <= 5
    ensures forall x :: x in issues ==> RegisterIssue(x)
    ensures NoRepeats(issues)
  {
    var fields := RegisterFieldIssues(req, isEmail);
    NoRepeatsAppend(fields, MatchRule(req));
    fields + MatchRule(req)
  }

  /** A short password is reported with the same message on both forms. */
  lemma {:induction false} ShortPasswordSameMessage(
    email: string, name: string, password: string, confirmation: string, isEmail: string -> bool)
    requires Utf16Length(password) < MinPasswordLength
    ensures Issue(["password"], PasswordMessage) in ValidateLogin(LoginRequest(email, password), isEmail)
    ensures Issue(["password"], PasswordMessage) in
      ValidateRegister(RegisterRequest(name, email, password, confirmation), isEmail)
  {
  }

  /** A password of seven ASCII characters is too short and one of eight is
      long enough; four characters outside the Basic Multilingual Plane are
      eight code units and pass as well. */
  lemma PasswordBoundary(isEmail: string -> bool)
    requires isEmail("a@b.co")
    ensures ValidateLogin(LoginRequest("a@b.co", "1234567"), isEmail) == [Issue(["password"], PasswordMessage)]
    ensures ValidateLogin(LoginRequest("a@b.co", "12345678"), isEmail) == []
    ensures ValidateLogin(LoginRequest("a@b.co", "\U{1F600}\U{1F600}\U{1F600}\U{1F600}"), isEmail) == []
  {
  }
}
