/**
 * JSON documents and the two built-in conversions `JSON.parse` and `JSON.stringify`.
 * The grammar of JSON is not modelled: a `Codec` carries the two conversions as functions,
 * and `Lawful` states the only facts about them the console depends on.
 */
module Json {
  import opened Wrappers

  datatype Json =
    | JNull
    | JBool(b: bool)
    | JNum(n: int)
    | JStr(s: string)
    | JArr(items: seq<Json>)
    | JObj(fields: map<string, Json>)

  /** What `JSON.parse` does: return a document or throw a `SyntaxError` with a message. */
  datatype Parsed = Parsed(doc: Json) | SyntaxError(message: string)

  datatype Codec = Codec(parse: string -> Parsed, stringify: Json -> string)

  /** Parsing what was stringified gives the document back, stringifying a document never
      gives the empty text, and `"{}"` is the empty object. */
  ghost predicate Lawful(c: Codec) {
    && (forall j :: c.parse(c.stringify(j)) == Parsed(j))
    && (forall j :: c.stringify(j) != "")
    && c.parse("{}") == Parsed(JObj(map[]))
  }

  /** Truthiness of a parsed value (`x || ""`). */
  predicate Truthy(j: Json) {
    match j
    case JNull => false
    case JBool(b) => b
    case JNum(n) => n != 0
    case JStr(s) => s != ""
    case JArr(_) => true
    case JObj(_) => true
  }

  /** `j?.[k]` for the property names the console reads: only objects have them as own
      properties (arrays, strings and numbers have no property named like a token field). */
  function Member(j: Json, k: string): (r: Option<Json>)
    ensures r.Some? <==> j.JObj? && k in j.fields
    ensures r.Some? ==> r.value == j.fields[k]
  {
    match j
    case JObj(fields) => if k in fields then Some(fields[k]) else None
    case _ => None
  }
}
