/**
 * The token store over `localStorage`: one item, `APP_STATE`, holding a JSON document whose
 * `user` member carries the two tokens. `getToken` reads it defensively; `saveTokens` parses,
 * replaces `user` and writes the document back.
 */
module TokenStore {
  import opened Wrappers
  import opened Json

  const StateKey := "APP_STATE"
  const UserKey := "user"

  datatype TokenKey = AccessToken | RefreshToken

  function KeyName(k: TokenKey): string {
    match k
    case AccessToken => "access_token"
    case RefreshToken => "refresh_token"
  }

  /** `localStorage.getItem(STATE_KEY) || "{}"`: a missing or empty item reads as `"{}"`. */
  function StoredText(items: map<string, string>): (t: string)
    ensures StateKey !in items ==> t == "{}"
    ensures StateKey in items && items[StateKey] == "" ==> t == "{}"
    ensures StateKey in items && items[StateKey] != "" ==> t == items[StateKey]
  {
    if StateKey in items && items[StateKey] != "" then items[StateKey] else "{}"
  }

  /** `getToken(key)`: `state?.user?.[key] || ""`, and `""` when parsing throws. */
  function GetToken(codec: Codec, items: map<string, string>, key: TokenKey): (r: Json)
    ensures Truthy(r) || r == JStr("")
    ensures codec.parse(StoredText(items)).SyntaxError? ==> r == JStr("")
    ensures var p := codec.parse(StoredText(items));
            var user := if p.Parsed? then Member(p.doc, UserKey) else None;
            var v := if user.Some? then Member(user.value, KeyName(key)) else None;
            && (v.Some? && Truthy(v.value) ==> r == v.value)
            && (!(v.Some? && Truthy(v.value)) ==> r == JStr(""))
  {
    match codec.parse(StoredText(items))
    case SyntaxError(_) => JStr("")
    case Parsed(state) =>
      match Member(state, UserKey)
      case None => JStr("")
      case Some(user) =>
        match Member(user, KeyName(key))
        case Some(v) => if Truthy(v) then v else JStr("")
        case None => JStr("")
  }

  /** The `user` object `saveTokens` writes. */
  function TokenPair(accessToken: string, refreshToken: string): Json {
    JObj(map[KeyName(AccessToken) := JStr(accessToken), KeyName(RefreshToken) := JStr(refreshToken)])
  }

  /** Why `saveTokens` throws: the stored text does not parse, or the parsed value is `null`
      or a primitive, on which the module's strict-mode assignment `state.user = ...` fails. */
  datatype SaveError = StoredTextInvalid(message: string) | NotAnObject

  /** With nothing stored, `getToken` parses `"{}"` and answers `""`. */
  lemma NothingStoredNoToken(codec: Codec, items: map<string, string>, key: TokenKey)
    requires Lawful(codec) && StateKey !in items
    ensures GetToken(codec, items, key) == JStr("")
  {
  }

  /** The document `saveTokens` writes back, or why it throws before writing. An object gets
      its `user` replaced; an array takes the property but `JSON.stringify` drops it. */
  function SavedDocument(codec: Codec, items: map<string, string>, accessToken: string, refreshToken: string): (r: Result<Json, SaveError>)
    ensures codec.parse(StoredText(items)).SyntaxError? ==>
              r == Err(StoredTextInvalid(codec.parse(StoredText(items)).message))
    ensures r.Ok? ==> codec.parse(StoredText(items)).Parsed?
    ensures var p := codec.parse(StoredText(items)); p.Parsed? && p.doc.JObj? ==> r.Ok?
    ensures var p := codec.parse(StoredText(items)); p.Parsed? && p.doc.JArr? ==> r == Ok(p.doc)
    ensures var p := codec.parse(StoredText(items));
            p.Parsed? && !p.doc.JObj? && !p.doc.JArr? ==> r == Err(NotAnObject)
    ensures r.Ok? && codec.parse(StoredText(items)).doc.JObj? ==>
              var before := codec.parse(StoredText(items)).doc.fields;
              r.value.JObj?
              && r.value.fields.Keys == before.Keys + {UserKey}
              && r.value.fields[UserKey] == TokenPair(accessToken, refreshToken)
              && forall k :: k in before && k != UserKey ==> r.value.fields[k] == before[k]
  {
    match codec.parse(StoredText(items))
    case SyntaxError(m) => Err(StoredTextInvalid(m))
    case Parsed(state) =>
      match state
      case JObj(fields) => Ok(JObj(fields[UserKey := TokenPair(accessToken, refreshToken)]))
      case JArr(_) => Ok(state)
      case _ => Err(NotAnObject)
  }

  /** When nothing is stored, saving starts from `{}`: the document is just the token pair. */
  lemma SaveStartsFromEmpty(codec: Codec, items: map<string, string>, a: string, r: string)
    requires Lawful(codec) && StateKey !in items
    ensures SavedDocument(codec, items, a, r) == Ok(JObj(map[UserKey := TokenPair(a, r)]))
  {
  }

  /** `localStorage`, reduced to its string items. */
  class Storage {
    var items: map<string, string>

    constructor (initial: map<string, string>)
      ensures items == initial
    {
      items := initial;
    }

    function Token(codec: Codec, key: TokenKey): Json
      reads this
    {
      GetToken(codec, items, key)
    }

    /** `saveTokens(a, r)`: on success `APP_STATE` holds the stringified document and no other
        item changes; when it throws nothing is written. */
    method SaveTokens(codec: Codec, accessToken: string, refreshToken: string) returns (res: Result<(), SaveError>)
      modifies this
      ensures var doc := SavedDocument(codec, old(items), accessToken, refreshToken);
              && (doc.Ok? ==> res.Ok? && items == old(items)[StateKey := codec.stringify(doc.value)])
              && (doc.Err? ==> res == Err(doc.error) && items == old(items))
    {
      var text := if StateKey in items && items[StateKey] != "" then items[StateKey] else "{}";
      var parsed := codec.parse(text);
      if parsed.SyntaxError? {
        return Err(StoredTextInvalid(parsed.message));
      }
      var state := parsed.doc;
      if state.JObj? {
        state := JObj(state.fields[UserKey := TokenPair(accessToken, refreshToken)]);
      } else if !state.JArr? {
        return Err(NotAnObject);
      }
      items := items[StateKey := codec.stringify(state)];
      res := Ok(());
    }
  }

  /** The round trip: after `saveTokens(a, r)` succeeds, `getToken` returns `a` and `r` (an
      empty token reads back as `""`, which is itself), unless the stored value was an array. */
  lemma SaveThenGet(codec: Codec, items: map<string, string>, a: string, r: string)
    requires Lawful(codec)
    requires var p := codec.parse(StoredText(items)); p.Parsed? && p.doc.JObj?
    ensures var after := items[StateKey := codec.stringify(SavedDocument(codec, items, a, r).value)];
            GetToken(codec, after, AccessToken) == JStr(a) && GetToken(codec, after, RefreshToken) == JStr(r)
  {
    var doc := SavedDocument(codec, items, a, r).value;
    var after := items[StateKey := codec.stringify(doc)];
    var text := codec.stringify(doc);
    assert codec.parse(text) == Parsed(doc);
    assert StoredText(after) == text;
    assert Member(doc, UserKey) == Some(TokenPair(a, r));
  }

  /** A stored array accepts the assignment but loses it on the way back: the tokens are not
      saved, and `getToken` still answers `""`. */
  lemma SavedArrayKeepsNoTokens(codec: Codec, items: map<string, string>, a: string, r: string)
    requires Lawful(codec)
    requires var p := codec.parse(StoredText(items)); p.Parsed? && p.doc.JArr?
    ensures var after := items[StateKey := codec.stringify(SavedDocument(codec, items, a, r).value)];
            GetToken(codec, after, AccessToken) == JStr("") && GetToken(codec, after, RefreshToken) == JStr("")
  {
    var doc := SavedDocument(codec, items, a, r).value;
    var text := codec.stringify(doc);
    assert codec.parse(text) == Parsed(doc);
    assert text != "";
  }
}
