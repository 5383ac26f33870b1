/** JSON values as `JSON.parse` produces them, and the two pieces of JavaScript
    semantics the dispatcher applies to a parsed value: reading its `type`
    property and testing that property for truthiness. */
module Json {
  import opened Wrappers

  datatype Value =
    | Null
    | Bool(b: bool)
    | Num(n: real)              // what `JSON.parse` yields; -0 and 0 are one real, and ±Infinity (from `1e400`) stands as some nonzero real
    | Str(s: string)
    | Arr(items: seq<Value>)
    | Obj(fields: map<string, Value>)

  /** The text of the TypeError V8 throws when `type` is read off `null`. */
  const NULL_TYPE_READ: string := "TypeError: Cannot read properties of null (reading 'type')"

  /** `v.type` for a parsed value. `Success(None)` is `undefined`; reading a
      property of `null` throws, which is the `Failure` case. Booleans,
      numbers, strings and arrays have no `type` property of their own or
      on their prototypes. */
  function TypeProperty(v: Value): Result<Option<Value>, string> {
    match v
    case Null => Failure(NULL_TYPE_READ)
    case Obj(fields) => Success(if "type" in fields then Some(fields["type"]) else None)
    case _ => Success(None)
  }

  /** JavaScript truthiness of a property value (`None` is `undefined`). */
  predicate Truthy(x: Option<Value>) {
    match x
    case None => false
    case Some(Null) => false
    case Some(Bool(b)) => b
    case Some(Num(n)) => n != 0.0
    case Some(Str(s)) => s != ""
    case Some(_) => true        // arrays and objects, even empty ones
  }

  /** An inbound action the dispatcher accepts: an object whose own `type`
      field is present and truthy. */
  predicate IsTypedAction(v: Value) {
    v.Obj? && "type" in v.fields && Truthy(Some(v.fields["type"]))
  }
}
