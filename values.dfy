/** Values the REST client handles: the JSON documents the Canary server sends
    back, the Python values a caller may put into a request payload, and the
    failures the client raises. */
module Values {

  /** A JSON document as the response parser produces it (numbers are integers). */
  datatype Json =
    | JNull
    | JBool(b: bool)
    | JNum(n: int)
    | JStr(s: string)
    | JArray(items: seq<Json>)
    | JObject(fields: map<string, Json>)

  /** Python truthiness of a parsed JSON value: `None`, `False`, `0`, `""`,
      `[]` and `{}` are false, everything else is true. */
  predicate Truthy(j: Json) {
    match j
    case JNull => false
    case JBool(b) => b
    case JNum(n) => n != 0
    case JStr(s) => s != ""
    case JArray(items) => items != []
    case JObject(fields) => fields != map[]
  }

  /** The three temporal classes the client knows how to serialize. */
  datatype TemporalKind = DateTime | Date | Arrow

  /** A date-like value: its class and an abstract point in time. */
  datatype Temporal = Temporal(kind: TemporalKind, instant: int)

  /** A Python value a caller may place in a payload or pass to the helpers. */
  datatype Value =
    | Null
    | Bool(b: bool)
    | Int(i: int)
    | Str(s: string)
    | List(items: seq<Value>)
    | Tuple(items: seq<Value>)
    | Set(members: set<Value>)
    | Dict(entries: map<string, Value>)
    | Time(t: Temporal)
    | Opaque(handle: nat)   // any other object, e.g. an open connection

  /** The Python value that parsing a JSON document yields. */
  function ToValue(j: Json): Value {
    match j
    case JNull => Null
    case JBool(b) => Bool(b)
    case JNum(n) => Int(n)
    case JStr(s) => Str(s)
    case JArray(items) => List(seq(|items|, k requires 0 <= k < |items| => ToValue(items[k])))
    case JObject(fields) => Dict(map key | key in fields :: ToValue(fields[key]))
  }

  /** What a call on the client can raise. */
  datatype Failure =
    | SerializationError                                    // the JSON encoder refused the payload
    | MissingKey(key: string)                               // a KeyError on the response
    | ApiError(apiUrl: string, errors: Json, payload: map<string, Value>)  // the server reported errors

  datatype Result<T> = Ok(value: T) | Err(error: Failure)

  datatype Outcome = Pass | Fail(error: Failure)

  datatype Option<T> = None | Some(value: T)
}
