/**
 * The login page: its two required fields, the message its error banner derives from the
 * API's `detail`, and where a successful login goes.
 */
module LoginPage {
  import opened Wrappers
  import opened Router
  import opened FormRules

  datatype FormValues = FormValues(email: string, password: string)

  /** `register('email', { required: 'Please enter email' })`: no format rule. */
  function EmailError(email: string): Option<string> {
    Required(email, "Please enter email")
  }

  /** `register('password', { required: 'Please enter password' })`: no length rule. */
  function PasswordError(password: string): Option<string> {
    Required(password, "Please enter password")
  }

  predicate Submits(v: FormValues) {
    EmailError(v.email).None? && PasswordError(v.password).None?
  }

  /** Any non-empty email and password are sent, however they look. */
  lemma SubmitsIffBothFilled(v: FormValues)
    ensures Submits(v) <==> v.email != "" && v.password != ""
  {
  }

  // ---------------------------------------------------------------------------
  // The error banner

  /** One entry of a validation error list. */
  datatype ErrorItem = ErrorItem(kind: string, loc: seq<string>, msg: string)

  /** What `error?.response?.data?.detail` can be: a string, an array of entries, or
      anything else (absent included). */
  datatype Detail = TextDetail(text: string) | ListDetail(items: seq<ErrorItem>) | OtherDetail

  /** `Array.prototype.join(sep)` on strings. */
  function Join(parts: seq<string>, sep: string): string
    decreases |parts|
  {
    if |parts| == 0 then ""
    else if |parts| == 1 then parts[0]
    else Join(parts[..|parts| - 1], sep) + sep + parts[|parts| - 1]
  }

  /** Joining one part more appends the separator and that part, unless nothing came before. */
  lemma {:induction false} JoinCons(x: string, parts: seq<string>, sep: string)
    ensures Join([x] + parts, sep) == if |parts| == 0 then x else x + sep + Join(parts, sep)
    decreases |parts|
  {
    if |parts| > 1 {
      var init := parts[..|parts| - 1];
      assert ([x] + parts)[..|parts|] == [x] + init;
      JoinCons(x, init, sep);
    } else if |parts| == 1 {
      assert ([x] + parts)[..1] == [x];
    }
  }

  /** The joined text is empty exactly when there is at most one part and it is empty. */
  lemma {:induction false} JoinEmptyIff(parts: seq<string>, sep: string)
    requires sep != ""
    ensures Join(parts, sep) == "" <==> |parts| == 0 || (|parts| == 1 && parts[0] == "")
  {
    if |parts| > 1 {
      assert |Join(parts, sep)| >= |sep|;
    }
  }

  function Msgs(items: seq<ErrorItem>): (ms: seq<string>)
    ensures |ms| == |items|
    ensures forall i :: 0 <= i < |items| ==> ms[i] == items[i].msg
  {
    seq(|items|, i requires 0 <= i < |items| => items[i].msg)
  }

  const DefaultError := "Login failed. Please try again."

  /** The banner text. */
  function ErrorMessage(d: Detail): (m: string)
    ensures d.TextDetail? ==> m == d.text
    ensures d.ListDetail? ==> m == Join(Msgs(d.items), ", ")
    ensures d.OtherDetail? ==> m == DefaultError
  {
    match d
    case TextDetail(t) => t
    case ListDetail(items) => Join(Msgs(items), ", ")
    case OtherDetail => DefaultError
  }

  /** A list shows its first message, then `", "` and the rest in order; an empty list shows
      an empty banner, and so does a one-entry list with an empty message. */
  lemma ListMessageInOrder(item: ErrorItem, rest: seq<ErrorItem>)
    ensures ErrorMessage(ListDetail([item] + rest)) ==
              if |rest| == 0 then item.msg else item.msg + ", " + ErrorMessage(ListDetail(rest))
    ensures ErrorMessage(ListDetail([])) == ""
  {
    assert Msgs([item] + rest) == [item.msg] + Msgs(rest);
    JoinCons(item.msg, Msgs(rest), ", ");
  }

  /** The banner is empty only for an empty string detail, an empty list, or a one-entry list
      whose message is empty; the fallback text is never empty. */
  lemma EmptyBannerIff(d: Detail)
    ensures ErrorMessage(d) == "" <==>
              || d == TextDetail("")
              || (d.ListDetail? && (|d.items| == 0 || (|d.items| == 1 && d.items[0].msg == "")))
  {
    if d.ListDetail? {
      JoinEmptyIff(Msgs(d.items), ", ");
    }
  }

  /** After the login call: on success to `/`, pushing a history entry; on failure nowhere. */
  function AfterLogin(succeeded: bool): (n: Option<Navigation>)
    ensures n.Some? <==> succeeded
    ensures n.Some? ==> n.value == Navigation("/", false)
  {
    if succeeded then Some(Navigation("/", false)) else None
  }
}
