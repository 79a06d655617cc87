/** The client's value helpers: the default hook handed to the JSON encoder,
    the argument normaliser, and the encoding of a request payload. */
module Coercion {
  import opened Values

  /** The encoder's default hook: a date, date-time or Arrow value becomes its
      ISO-8601 text, every other value is handed back untouched. */
  function CoerceThingForJSON(thing: Value, isoFormat: Temporal -> string): (r: Value)
    ensures !r.Time?
    ensures r != thing ==> thing.Time? && r == Str(isoFormat(thing.t))
    ensures thing.Time? ==> r == Str(isoFormat(thing.t))
  {
    match thing
    case Time(t) => Str(isoFormat(t))
    case _ => thing
  }

  /** Applying the hook to its own result changes nothing more. */
  lemma CoerceThingIdempotent(thing: Value, isoFormat: Temporal -> string)
    ensures CoerceThingForJSON(CoerceThingForJSON(thing, isoFormat), isoFormat) == CoerceThingForJSON(thing, isoFormat)
  {
  }

  /** Some listing of the members of a set, in an order nobody promises. */
  ghost function SetToList(s: set<Value>): (r: seq<Value>)
    ensures |r| == |s|
    ensures forall x :: x in r <==> x in s
    decreases s
  {
    if s == {} then []
    else
      var x :| x in s;
      [x] + SetToList(s - {x})
  }

  /** Argument normalisation: a list is kept, a set or a tuple is turned into a
      list of the same elements, and any other value is wrapped in a list. */
  ghost function CoerceToList(obj: Value): (r: Value)
    ensures r.List?
    ensures obj.List? ==> r == obj
    ensures obj.Tuple? ==> r.items == obj.items
    ensures obj.Set? ==> |r.items| == |obj.members| && forall x :: x in r.items <==> x in obj.members
    ensures !obj.List? && !obj.Tuple? && !obj.Set? ==> r.items == [obj]
  {
    match obj
    case List(_) => obj
    case Tuple(items) => List(items)
    case Set(members) => List(SetToList(members))
    case _ => List([obj])
  }

  /** Normalising a normalised argument changes nothing. */
  lemma CoerceToListIdempotent(obj: Value)
    ensures CoerceToList(CoerceToList(obj)) == CoerceToList(obj)
  {
  }

  /** A scalar is wrapped, a list is kept, and a set of three numbers becomes
      a list of exactly those three numbers. */
  lemma CoerceToListExamples()
    ensures CoerceToList(Int(5)) == List([Int(5)])
    ensures CoerceToList(List([Int(1), Int(2)])) == List([Int(1), Int(2)])
    ensures var r := CoerceToList(Set({Int(1), Int(2), Int(3)}));
      |r.items| == 3 && forall x :: x in r.items <==> x in {Int(1), Int(2), Int(3)}
  {
    assert |{Int(1), Int(2), Int(3)}| == 3;
  }

  /** The values the encoder accepts: nothing inside them is a set or a foreign object. */
  predicate Serializable(v: Value)
    decreases v
  {
    match v
    case List(items) => forall k :: 0 <= k < |items| ==> Serializable(items[k])
    case Tuple(items) => forall k :: 0 <= k < |items| ==> Serializable(items[k])
    case Dict(entries) => forall key :: key in entries ==> Serializable(entries[key])
    case Set(_) => false
    case Opaque(_) => false
    case _ => true
  }

  /** What the encoder does with the value the default hook returned: a string
      is encoded, while an object handed back unchanged is refused. */
  function EncodeDefault(c: Value): Result<Json> {
    if c.Str? then Ok(JStr(c.s)) else Err(SerializationError)
  }

  /** A JSON array of the encoded items, or a refusal if any item was refused. */
  function EncodeArray(rs: seq<Result<Json>>): Result<Json> {
    if forall k :: 0 <= k < |rs| ==> rs[k].Ok? then
      Ok(JArray(seq(|rs|, k requires 0 <= k < |rs| => rs[k].value)))
    else
      Err(SerializationError)
  }

  /** A JSON object of the encoded fields, or a refusal if any field was refused. */
  function EncodeFields(rs: map<string, Result<Json>>): Result<map<string, Json>> {
    if forall key :: key in rs ==> rs[key].Ok? then
      Ok(map key | key in rs :: rs[key].value)
    else
      Err(SerializationError)
  }

  /** The JSON encoder run with the client's default hook, as a JSON tree. */
  function Encode(v: Value, isoFormat: Temporal -> string): Result<Json>
    decreases v, 1
  {
    match v
    case Null => Ok(JNull)
    case Bool(b) => Ok(JBool(b))
    case Int(i) => Ok(JNum(i))
    case Str(s) => Ok(JStr(s))
    case List(items) => EncodeArray(seq(|items|, k requires 0 <= k < |items| => Encode(items[k], isoFormat)))
    case Tuple(items) => EncodeArray(seq(|items|, k requires 0 <= k < |items| => Encode(items[k], isoFormat)))
    case Dict(entries) =>
      (match PackagePayload(entries, isoFormat)
       case Ok(fields) => Ok(JObject(fields))
       case Err(e) => Err(e))
    case Set(_) => EncodeDefault(CoerceThingForJSON(v, isoFormat))
    case Time(_) => EncodeDefault(CoerceThingForJSON(v, isoFormat))
    case Opaque(_) => EncodeDefault(CoerceThingForJSON(v, isoFormat))
  }

  /** The body of a request: the payload dictionary encoded as a JSON object. */
  function PackagePayload(payload: map<string, Value>, isoFormat: Temporal -> string): Result<map<string, Json>>
    decreases Dict(payload), 0
  {
    EncodeFields(map key | key in payload :: Encode(payload[key], isoFormat))
  }

  /** The encoder accepts exactly the serializable values. */
  lemma {:induction false} EncodeOkIff(v: Value, isoFormat: Temporal -> string)
    ensures Encode(v, isoFormat).Ok? <==> Serializable(v)
    decreases v, 1
  {
    match v
    case List(items) =>
      EncodeItemsOkIff(v, items, isoFormat);
    case Tuple(items) =>
      EncodeItemsOkIff(v, items, isoFormat);
    case Dict(entries) =>
      var rs := map key | key in entries :: Encode(entries[key], isoFormat);
      forall key | key in entries ensures rs[key].Ok? <==> Serializable(entries[key]) {
        EncodeOkIff(entries[key], isoFormat);
      }
      assert PackagePayload(entries, isoFormat) == EncodeFields(rs);
    case _ =>
  }

  /** The induction step of EncodeOkIff for the items of a list or a tuple. */
  lemma {:induction false} EncodeItemsOkIff(v: Value, items: seq<Value>, isoFormat: Temporal -> string)
    requires v == List(items) || v == Tuple(items)
    ensures EncodeArray(seq(|items|, k requires 0 <= k < |items| => Encode(items[k], isoFormat))).Ok?
        <==> forall k :: 0 <= k < |items| ==> Serializable(items[k])
    decreases v, 0
  {
    var rs := seq(|items|, k requires 0 <= k < |items| => Encode(items[k], isoFormat));
    forall k | 0 <= k < |items| ensures rs[k].Ok? <==> Serializable(items[k]) {
      EncodeOkIff(items[k], isoFormat);
    }
  }

  /** A payload is packaged exactly when every value in it is serializable, and
      then the body has the payload's keys, each holding its value's encoding. */
  lemma PackagePayloadOk(payload: map<string, Value>, isoFormat: Temporal -> string)
    ensures PackagePayload(payload, isoFormat).Ok? <==> forall key :: key in payload ==> Serializable(payload[key])
    ensures PackagePayload(payload, isoFormat).Ok? ==>
      var body := PackagePayload(payload, isoFormat).value;
      body.Keys == payload.Keys && forall key :: key in payload ==> Ok(body[key]) == Encode(payload[key], isoFormat)
  {
    forall key | key in payload { EncodeOkIff(payload[key], isoFormat); }
  }

  /** Serialization round trip for dates: a date-like entry is sent as its ISO text. */
  lemma PackageSendsIsoText(payload: map<string, Value>, key: string, isoFormat: Temporal -> string)
    requires PackagePayload(payload, isoFormat).Ok?
    requires key in payload && payload[key].Time?
    ensures key in PackagePayload(payload, isoFormat).value
    ensures PackagePayload(payload, isoFormat).value[key] == JStr(isoFormat(payload[key].t))
  {
    PackagePayloadOk(payload, isoFormat);
  }

  /** Encoding a parsed JSON document gives that document back. */
  lemma {:induction false} EncodeToValue(j: Json, isoFormat: Temporal -> string)
    ensures Encode(ToValue(j), isoFormat) == Ok(j)
    decreases j, 1
  {
    match j
    case JArray(items) => EncodeArrayToValue(j, items, isoFormat);
    case JObject(fields) => EncodeObjectToValue(j, fields, isoFormat);
    case _ =>
  }

  /** The induction step of EncodeToValue for a JSON array. */
  lemma {:induction false} EncodeArrayToValue(j: Json, items: seq<Json>, isoFormat: Temporal -> string)
    requires j == JArray(items)
    ensures Encode(ToValue(j), isoFormat) == Ok(j)
    decreases j, 0
  {
    var vs := seq(|items|, k requires 0 <= k < |items| => ToValue(items[k]));
    var rs := seq(|vs|, k requires 0 <= k < |vs| => Encode(vs[k], isoFormat));
    forall k | 0 <= k < |items| ensures rs[k] == Ok(items[k]) { EncodeToValue(items[k], isoFormat); }
    assert seq(|rs|, k requires 0 <= k < |rs| => rs[k].value) == items;
  }

  /** The induction step of EncodeToValue for a JSON object. */
  lemma {:induction false} EncodeObjectToValue(j: Json, fields: map<string, Json>, isoFormat: Temporal -> string)
    requires j == JObject(fields)
    ensures Encode(ToValue(j), isoFormat) == Ok(j)
    decreases j, 0
  {
    var vs := map key | key in fields :: ToValue(fields[key]);
    var rs := map key | key in vs :: Encode(vs[key], isoFormat);
    forall key | key in fields ensures rs[key] == Ok(fields[key]) { EncodeToValue(fields[key], isoFormat); }
    assert (map key | key in rs :: rs[key].value) == fields;
    assert PackagePayload(vs, isoFormat) == EncodeFields(rs);
  }

  /** Storing a parsed JSON value under a key of a packageable payload keeps it
      packageable and changes the body at that key only. */
  lemma PackageUpdate(payload: map<string, Value>, key: string, j: Json, isoFormat: Temporal -> string)
    requires PackagePayload(payload, isoFormat).Ok?
    ensures PackagePayload(payload[key := ToValue(j)], isoFormat)
         == Ok(PackagePayload(payload, isoFormat).value[key := j])
  {
    var updated := payload[key := ToValue(j)];
    var body := PackagePayload(payload, isoFormat).value;
    PackagePayloadOk(payload, isoFormat);
    EncodeToValue(j, isoFormat);
    var rs := map k | k in updated :: Encode(updated[k], isoFormat);
    forall k | k in rs ensures rs[k] == Ok(body[key := j][k]) {}
    assert (map k | k in rs :: rs[k].value) == body[key := j];
  }

  /** A payload holding a foreign object, such as an open connection, is
      refused, whatever else it holds. */
  lemma OpaqueRefused(payload: map<string, Value>, key: string, handle: nat, isoFormat: Temporal -> string)
    ensures PackagePayload(payload[key := Opaque(handle)], isoFormat) == Err(SerializationError)
  {
    var refused := payload[key := Opaque(handle)];
    var rs := map k | k in refused :: Encode(refused[k], isoFormat);
    assert rs[key] == Err(SerializationError);
    assert PackagePayload(refused, isoFormat) == EncodeFields(rs);
  }
}
