/** JavaScript values as the core handles them: parsed JSON, thrown values,
    truthiness, property reads and the string conversion a template literal
    or `new Error(x)` applies. */
module JsValues {

  datatype Option<+T> = None | Some(value: T)

  /** A value as `JSON.parse` produces it. */
  datatype Json =
    | JNull
    | JBool(b: bool)
    | JNum(n: real)
    | JStr(s: string)
    | JArr(items: seq<Json>)
    | JObj(fields: map<string, Json>)

  /** What a `throw` carries: an `Error` (anything `instanceof Error`) with
      its message, or some other value. */
  datatype Thrown = ErrorValue(message: string) | OtherValue

  /** The outcome of an expression that may throw. */
  datatype Attempt<+T> = Returned(value: T) | Threw(thrown: Thrown)

  /** The runtime built-ins the core calls but does not define: `JSON.parse`
      (also behind `req.json()` and `response.json()`), `JSON.stringify`, and
      the conversion of a number to its decimal text. */
  datatype Runtime = Runtime(
    parseJson: string -> Attempt<Json>,
    stringify: Json -> string,
    numberText: real -> string)

  /** JavaScript truthiness of a JSON value: `null`, `false`, `0` and `""`
      are falsy; every array and object is truthy. */
  predicate Truthy(j: Json)
  {
    match j
    case JNull => false
    case JBool(b) => b
    case JNum(n) => n != 0.0
    case JStr(s) => s != ""
    case JArr(_) => true
    case JObj(_) => true
  }

  /** Truthiness of a property read; `None` is `undefined`, which is falsy. */
  predicate TruthyField(v: Option<Json>)
  {
    v.Some? && Truthy(v.value)
  }

  /** The message V8 gives the `TypeError` of `null.key`. */
  function NullReadMessage(key: string): string
  {
    "Cannot read properties of null (reading '" + key + "')"
  }

  /** `j.key`: reading a property of `null` throws; an object yields its own
      field or `undefined`; any other value has none of the (non-inherited)
      keys the core reads, so yields `undefined`. */
  function ReadProperty(j: Json, key: string): (r: Attempt<Option<Json>>)
    ensures r.Threw? <==> j == JNull
    ensures r.Returned? && r.value.Some? <==> j.JObj? && key in j.fields
    ensures r.Returned? && r.value.Some? ==> r.value.value == j.fields[key]
  {
    match j
    case JNull => Threw(ErrorValue(NullReadMessage(key)))
    case JObj(fields) => Returned(if key in fields then Some(fields[key]) else None)
    case _ => Returned(None)
  }

  /** The message V8 gives the `TypeError` of converting to a string an
      object that has no callable `toString` or `valueOf`. */
  const PrimitiveConversionMessage := "Cannot convert object to primitive value"

  /** Whether `String(j)` returns. An object with an own `toString` key
      shadows the inherited method with a value that is not callable, and
      the inherited `valueOf` gives back the object itself, so the
      conversion throws; an array converts each element, so it throws when
      one of them does. */
  predicate Convertible(j: Json)
  {
    match j
    case JObj(fields) => "toString" !in fields
    case JArr(items) => forall i :: 0 <= i < |items| ==> Convertible(items[i])
    case _ => true
  }

  /** `String(j)`, as a template literal `${j}` or `new Error(j)` applies it:
      arrays join their elements with commas (with `null` elements as the
      empty string); an object without an own `toString` key prints as
      `[object Object]`, and one with such a key throws a `TypeError`. */
  function JsString(j: Json, rt: Runtime): (r: Attempt<string>)
    ensures r.Returned? <==> Convertible(j)
    ensures r.Threw? ==> r.thrown == ErrorValue(PrimitiveConversionMessage)
    ensures j.JStr? ==> r == Returned(j.s)
    ensures j.JObj? && Convertible(j) ==> r == Returned("[object Object]")
  {
    match j
    case JNull => Returned("null")
    case JBool(b) => Returned(if b then "true" else "false")
    case JNum(n) => Returned(rt.numberText(n))
    case JStr(s) => Returned(s)
    case JArr(items) =>
      var parts := seq(|items|, i requires 0 <= i < |items| =>
        if items[i] == JNull then Returned("") else JsString(items[i], rt));
      if exists i :: 0 <= i < |parts| && parts[i].Threw? then
        Threw(ErrorValue(PrimitiveConversionMessage))
      else
        assert Convertible(j) by {
          forall i | 0 <= i < |items| ensures Convertible(items[i]) {
            assert !parts[i].Threw?;
            if items[i] != JNull {
              assert parts[i] == JsString(items[i], rt);
            }
          }
        }
        Returned(JoinWithCommas(seq(|parts|, i requires 0 <= i < |parts| => parts[i].value)))
    case JObj(fields) =>
      if "toString" in fields then Threw(ErrorValue(PrimitiveConversionMessage))
      else Returned("[object Object]")
  }

  /** `Array.prototype.join(",")` over already converted elements. */
  function JoinWithCommas(parts: seq<string>): string
  {
    if |parts| == 0 then ""
    else if |parts| == 1 then parts[0]
    else JoinWithCommas(parts[..|parts| - 1]) + "," + parts[|parts| - 1]
  }
}
