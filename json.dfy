/** JSON values as the client sees them once a frame has been parsed, and the
    failure-compatible wrappers the rest of the model returns instead of raising. */
module Json {

  datatype Option<+T> = None | Some(value: T)

  datatype Result<+T, +E> = Success(value: T) | Failure(error: E)

  /** A parsed JSON value. Objects are keyed by strings, as JSON requires. */
  datatype Json =
    | JNull
    | JInt(n: int)
    | JStr(s: string)
    | JList(items: seq<Json>)
    | JObj(fields: map<string, Json>)

  /** `value[key]` on a dict: fails (a KeyError, or a TypeError on a non-dict) when
      the value is not an object holding that key. */
  function Field(value: Json, key: string): (r: Option<Json>)
    ensures r.Some? <==> value.JObj? && key in value.fields
    ensures r.Some? ==> r.value == value.fields[key]
  {
    if value.JObj? && key in value.fields then Some(value.fields[key]) else None
  }

  /** `value[i]` on a list with a non-negative index. */
  function Index(value: Json, i: nat): (r: Option<Json>)
    ensures r.Some? <==> value.JList? && i < |value.items|
    ensures r.Some? ==> r.value == value.items[i]
  {
    if value.JList? && i < |value.items| then Some(value.items[i]) else None
  }

  /** `dict.get(key)` compared with a string literal: true iff the key is present and
      holds exactly that string. */
  predicate HasString(fields: map<string, Json>, key: string, text: string)
  {
    key in fields && fields[key] == JStr(text)
  }
}
