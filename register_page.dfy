/**
 * The registration page: its three field rules (as react-hook-form applies them on submit),
 * the email pattern, the error banner's text, and where the page navigates.
 */
module RegisterPage {
  import opened Wrappers
  import opened Js
  import opened Router
  import opened FormRules

  datatype FormValues = FormValues(email: string, password: string, name: string)

  // ---------------------------------------------------------------------------
  // The email pattern `/^[A-Z0-9._%+-]+@[A-Z0-9.-]+\.[A-Z]{2,}$/i`

  /** `[A-Z0-9._%+-]` with the `i` flag. */
  predicate LocalChar(c: char) {
    IsAsciiLetter(c) || IsDigit(c) || c == '.' || c == '_' || c == '%' || c == '+' || c == '-'
  }

  /** `[A-Z0-9.-]` with the `i` flag. */
  predicate DomainChar(c: char) {
    IsAsciiLetter(c) || IsDigit(c) || c == '.' || c == '-'
  }

  predicate AllLocal(s: string) { forall k :: 0 <= k < |s| ==> LocalChar(s[k]) }

  predicate AllDomain(s: string) { forall k :: 0 <= k < |s| ==> DomainChar(s[k]) }

  predicate AllLetters(s: string) { forall k :: 0 <= k < |s| ==> IsAsciiLetter(s[k]) }

  /** The pattern matches with its `@` at `at` and its last `\.` at `dot`. */
  predicate EmailSplit(s: string, at: int, dot: int)
    requires 0 <= at < dot < |s|
  {
    && at > 0 && AllLocal(s[..at])
    && s[at] == '@'
    && at + 1 < dot && AllDomain(s[at + 1..dot])
    && s[dot] == '.'
    && |s| - (dot + 1) >= 2 && AllLetters(s[dot + 1..])
  }

  /** What the regular expression accepts: some split of the whole input into a non-empty
      local part, `@`, a non-empty domain, `.`, and two or more letters. */
  predicate MatchesEmailPattern(s: string) {
    exists at, dot :: 0 <= at < dot < |s| && EmailSplit(s, at, dot)
  }

  function FirstIndexOf(s: string, c: char): (r: Option<nat>)
    ensures r.Some? ==> r.value < |s| && s[r.value] == c && forall k :: 0 <= k < r.value ==> s[k] != c
    ensures r.None? ==> forall k :: 0 <= k < |s| ==> s[k] != c
  {
    if |s| == 0 then None
    else if s[0] == c then Some(0)
    else match FirstIndexOf(s[1..], c)
      case None => None
      case Some(i) => Some(i + 1)
  }

  function LastIndexOf(s: string, c: char): (r: Option<nat>)
    ensures r.Some? ==> r.value < |s| && s[r.value] == c && forall k :: r.value < k < |s| ==> s[k] != c
    ensures r.None? ==> forall k :: 0 <= k < |s| ==> s[k] != c
  {
    if |s| == 0 then None
    else if s[|s| - 1] == c then Some(|s| - 1)
    else LastIndexOf(s[..|s| - 1], c)
  }

  /** A direct check: the only possible `@` is the first one (neither part may hold another),
      and the only possible `\.` is the last one (the letters after it hold none). */
  predicate IsValidEmail(s: string) {
    match FirstIndexOf(s, '@')
    case None => false
    case Some(at) =>
      match LastIndexOf(s, '.')
      case None => false
      case Some(dot) => at < dot && EmailSplit(s, at, dot)
  }

  lemma {:induction false} EmailCheckMatchesPattern(s: string)
    ensures IsValidEmail(s) <==> MatchesEmailPattern(s)
  {
    if MatchesEmailPattern(s) {
      var at, dot :| 0 <= at < dot < |s| && EmailSplit(s, at, dot);
      forall k | 0 <= k < at ensures s[k] != '@' {
        assert s[..at][k] == s[k];
      }
      forall k | dot < k < |s| ensures s[k] != '.' {
        assert s[dot + 1..][k - dot - 1] == s[k];
      }
      assert FirstIndexOf(s, '@') == Some(at);
      assert LastIndexOf(s, '.') == Some(dot);
    }
  }

  lemma AcceptsPlainAddress()
    ensures MatchesEmailPattern("user1@example.com")
  {
    var s := "user1@example.com";
    assert s[..5] == "user1" && s[6..13] == "example" && s[14..] == "com";
    assert EmailSplit(s, 5, 13);
  }

  lemma RejectsOneLetterEnding()
    ensures !MatchesEmailPattern("a@b.c")
  {
    EmailCheckMatchesPattern("a@b.c");
    assert LastIndexOf("a@b.c", '.') == Some(3);
  }

  lemma RejectsDoubleAt()
    ensures !MatchesEmailPattern("a@@b.co")
  {
    var t := "a@@b.co";
    EmailCheckMatchesPattern(t);
    assert FirstIndexOf(t, '@') == Some(1);
    assert t[2..4][0] == '@';
  }

  // ---------------------------------------------------------------------------
  // Field rules, in the order react-hook-form checks them: `required` first, then the
  // pattern or the minimum length on a non-empty value

  const MinPasswordLength := 6

  datatype FieldErrors = FieldErrors(name: Option<string>, email: Option<string>, password: Option<string>)

  /** `required` only. */
  function NameError(name: string): Option<string> {
    Required(name, "Please enter your name")
  }

  function EmailError(email: string): (e: Option<string>)
    ensures e.None? <==> MatchesEmailPattern(email)
    ensures email == "" ==> e == Some("Please enter email")
    ensures email != "" && !MatchesEmailPattern(email) ==> e == Some("Invalid email address")
  {
    EmailCheckMatchesPattern(email);
    if email == "" then Required(email, "Please enter email")
    else if !IsValidEmail(email) then Some("Invalid email address")
    else None
  }

  function PasswordError(password: string): (e: Option<string>)
    ensures e.None? <==> |password| >= MinPasswordLength
    ensures password == "" ==> e == Some("Please enter password")
    ensures 0 < |password| < MinPasswordLength ==> e == Some("At least 6 characters")
  {
    if password == "" then Required(password, "Please enter password")
    else if |password| < MinPasswordLength then Some("At least 6 characters")
    else None
  }

  function Validate(v: FormValues): FieldErrors {
    FieldErrors(NameError(v.name), EmailError(v.email), PasswordError(v.password))
  }

  /** `handleSubmit` calls `onSubmit` only when no field has an error. */
  predicate Submits(v: FormValues) {
    Validate(v) == FieldErrors(None, None, None)
  }

  /** The form submits exactly when the name is non-empty, the email matches the pattern and
      the password has at least six characters. */
  lemma SubmitsIff(v: FormValues)
    ensures Submits(v) <==> v.name != "" && MatchesEmailPattern(v.email) && |v.password| >= MinPasswordLength
  {
  }

  // ---------------------------------------------------------------------------
  // Outcomes

  const DefaultError := "Registration failed. Please try again."

  /** The banner text: `error?.response?.data?.detail || 'Registration failed. Please try again.'` */
  function ErrorText(detail: Option<string>): (t: string)
    ensures TruthyString(detail) ==> t == detail.value
    ensures !TruthyString(detail) ==> t == DefaultError
    ensures t != ""
  {
    if TruthyString(detail) then detail.value else DefaultError
  }

  /** Once authenticated, `loc.state?.from?.pathname || '/'`, replacing the history entry. */
  function AuthenticatedRedirect(isAuthenticated: bool, fromPathname: Option<string>): (n: Option<Navigation>)
    ensures n.Some? <==> isAuthenticated
    ensures n.Some? ==> n.value.replace && n.value.to != ""
    ensures n.Some? && TruthyString(fromPathname) ==> n.value.to == fromPathname.value
    ensures n.Some? && !TruthyString(fromPathname) ==> n.value.to == "/"
  {
    if isAuthenticated then Some(Navigation(if TruthyString(fromPathname) then fromPathname.value else "/", true))
    else None
  }

  /** After the register call: on success to `/login`, replacing; on failure nowhere. */
  function AfterRegister(succeeded: bool): (n: Option<Navigation>)
    ensures n.Some? <==> succeeded
    ensures n.Some? ==> n.value == Navigation("/login", true)
  {
    if succeeded then Some(Navigation("/login", true)) else None
  }
}
