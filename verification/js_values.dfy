/**
  The few JavaScript value rules the server's code leans on: optional values,
  truthiness of strings and query parameters, the `toString()` of what Express
  hands over for a query parameter, and the coercion of that value to a
  property key when it indexes a plain object.
 */
module JsValues {

  /** `undefined` or a value. */
  datatype Option<+T> = None | Some(value: T)

  /** A settled promise: fulfilled with a value or rejected with an error. */
  datatype Result<+R, +E> = Ok(value: R) | Err(error: E)

  /** A JavaScript `Error`; only its message is observable by the callers. */
  datatype JsError = JsError(message: string)

  /**
    What Express parses out of the query string for one parameter name, with
    its extended (`qs`) parser: absent, a single string, a repeated parameter
    (an array of strings), or a bracketed parameter such as `?key[a]=b` (an
    object). The parser lets a bracketed name shadow an inherited member, so
    `?key[toString]=b` gives an object whose own `toString` is a string.
   */
  datatype QueryValue = Missing | Text(text: string) | Many(items: seq<string>) | Nested(ownToString: bool)

  /** JavaScript truthiness of an optional string: `undefined` and `""` are falsy. */
  predicate TruthyString(s: Option<string>) {
    s.Some? && s.value != ""
  }

  /** JavaScript truthiness of a query value: every array and object is truthy. */
  predicate Truthy(q: QueryValue) {
    match q
    case Missing => false
    case Text(s) => s != ""
    case Many(_) => true
    case Nested(_) => true
  }

  /** `Array.prototype.join(",")` on an array of strings. */
  function Join(items: seq<string>): string {
    if |items| == 0 then ""
    else if |items| == 1 then items[0]
    else items[0] + "," + Join(items[1..])
  }

  /** The text of `Object.prototype.toString` on a plain object. */
  const ObjectText := "[object Object]"

  // Labels for the two TypeErrors, not their exact text: V8 names the callee
  // in the first (`_.query.key.toString is not a function`).
  const NotCallableMessage := "toString is not a function"
  const NoPrimitiveMessage := "Cannot convert object to primitive value"

  /**
    `value.toString()` of a query value (`undefined` has none, so callers
    guard it by truthiness). An own `toString` that is a string is not
    callable, and the call throws.
   */
  function ToText(q: QueryValue): (s: Result<string, JsError>)
    requires !q.Missing?
    ensures s.Err? <==> q.Nested? && q.ownToString
    ensures s.Err? ==> s.error == JsError(NotCallableMessage)
    ensures q.Text? ==> s == Ok(q.text)
    ensures q.Many? && |q.items| == 1 ==> s == Ok(q.items[0])
    ensures q.Nested? && s.Ok? ==> s.value == ObjectText
  {
    match q
    case Text(s) => Ok(s)
    case Many(items) => Ok(Join(items))
    case Nested(own) => if own then Err(JsError(NotCallableMessage)) else Ok(ObjectText)
  }

  /**
    The property key a query value becomes when it indexes a plain object:
    `undefined` becomes `"undefined"`, and anything else goes through
    `toString`. An object whose own `toString` is not callable falls back to
    the inherited `valueOf`, which returns the object itself, so the
    coercion throws.
   */
  function PropertyKey(q: QueryValue): (key: Result<string, JsError>)
    ensures q.Missing? ==> key == Ok("undefined")
    ensures !q.Missing? ==> (key.Ok? <==> ToText(q).Ok?)
    ensures !q.Missing? && key.Ok? ==> key == ToText(q)
    ensures key.Err? ==> key.error == JsError(NoPrimitiveMessage)
  {
    if q.Missing? then Ok("undefined")
    else if q.Nested? && q.ownToString then Err(JsError(NoPrimitiveMessage))
    else ToText(q)
  }

  /** The string an optional string operand contributes to `+` concatenation. */
  function Concatenated(s: Option<string>): string {
    match s
    case None => "undefined"
    case Some(v) => v
  }

  /** True iff `prefix` is a prefix of `s`. */
  predicate StartsWith(s: string, prefix: string) {
    |prefix| <= |s| && s[..|prefix|] == prefix
  }
}
