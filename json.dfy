/**
 * The part of `org.json.JSONObject` the model serialisers use. A JSON object is
 * a map from member names to values; only the distinction between JSON `null`
 * and a value with a string form matters to the serialisers, so values are
 * `Null` or `Str(s)`, `s` being what `getString` and `optString` return for it.
 * A persisted string is seen through `JSONObject(String)`: either the text of
 * some JSON object, or text that does not parse as one.
 */
module Json {
  import opened Wrappers

  datatype JsonValue = Null | Str(s: string)

  type JsonObject = map<string, JsonValue>

  /** A string as `JSONObject(String)` sees it. */
  datatype JsonText = ObjectText(obj: JsonObject) | Malformed(raw: string)
  {
    /** The string itself, in messages; the characters of a well-formed object are not modelled. */
    function Text(): string {
      match this
      case ObjectText(_) => "{…}"
      case Malformed(raw) => raw
    }
  }

  /** `JSONObject.toString()`: text that parses back to the same object. */
  function Stringify(obj: JsonObject): (t: JsonText)
    ensures t.ObjectText? && t.obj == obj
  {
    ObjectText(obj)
  }

  /** `put(name, value)`: a `null` value removes the member, any other value replaces it. */
  function Put(obj: JsonObject, name: string, value: Option<string>): (r: JsonObject)
    ensures value.None? ==> name !in r
    ensures value.Some? ==> name in r && r[name] == Str(value.value)
    ensures forall k :: k != name ==> (k in r <==> k in obj)
    ensures forall k :: k != name && k in r ==> r[k] == obj[k]
  {
    match value
    case None => map k | k in obj && k != name :: obj[k]
    case Some(v) => obj[name := Str(v)]
  }

  /** `isNull(name)`: the member is missing or holds JSON `null`. */
  predicate IsNull(obj: JsonObject, name: string) {
    name !in obj || obj[name] == Null
  }

  /** `optString(name)`: the member's string form, "" when it is missing; Android prints JSON `null` as "null". */
  function OptString(obj: JsonObject, name: string): (s: string)
    ensures name !in obj ==> s == ""
    ensures name in obj && obj[name].Str? ==> s == obj[name].s
  {
    if name !in obj then ""
    else match obj[name]
      case Null => "null"
      case Str(s) => s
  }

  /** `getString(name)`, which throws when the member is missing. */
  function GetString(obj: JsonObject, name: string): (s: string)
    requires name in obj
    ensures obj[name].Str? ==> s == obj[name].s
  {
    match obj[name]
    case Null => "null"
    case Str(s) => s
  }

  /** `getStringOrNull`, the helper both serialisers define: null for a missing or JSON-null member, its string otherwise. */
  function GetStringOrNull(obj: JsonObject, name: string): (s: Option<string>)
    ensures s.None? <==> IsNull(obj, name)
    ensures s.Some? ==> obj[name] == Str(s.value)
  {
    if IsNull(obj, name) then None else Some(GetString(obj, name))
  }
}
