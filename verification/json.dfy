/**
 * Parsed JSON values as the request handler sees them after decoding, the
 * `dict.get` lookup it uses on them, and the few Python exceptions whose text
 * ends up in an error response.
 */
module Json {

  /** A decoded JSON value: integer literals decode to `int`, other numbers to `float`. */
  datatype Value =
    | Null
    | Bool(b: bool)
    | Int(i: int)
    | Float(f: real)
    | Str(s: string)
    | Array(items: seq<Value>)
    | Object(fields: map<string, Value>)

  /** The name Python gives the type of the decoded value, as it appears in error messages. */
  function TypeName(v: Value): (name: string)
    ensures name == "dict" <==> v.Object?
    ensures name == "str" <==> v.Str?
  {
    match v
    case Null => "NoneType"
    case Bool(_) => "bool"
    case Int(_) => "int"
    case Float(_) => "float"
    case Str(_) => "str"
    case Array(_) => "list"
    case Object(_) => "dict"
  }

  /** `body.get(key, default)` on a JSON object. */
  function Get(body: map<string, Value>, key: string, default: Value): (v: Value)
    ensures key in body ==> v == body[key]
    ensures key !in body ==> v == default
  {
    if key in body then body[key] else default
  }

  datatype Option<+T> = None | Some(value: T)

  /** The outcome of a step that may raise. */
  datatype Result<+T, +E> = Success(value: T) | Failure(error: E)

  /** The exceptions the handler can meet. */
  datatype PyException =
    | AttributeError(typeName: string, attribute: string)  // a method called on a value that lacks it
    | Raised(text: string)                                  // raised by code outside this model, with its text

  /** `str(e)`: the text of an exception. */
  function Message(e: PyException): (text: string)
    ensures e.Raised? ==> text == e.text
    ensures e.AttributeError? ==>
              && |text| > |e.typeName| + |e.attribute| + 4
              && text[..|e.typeName| + 2] == "'" + e.typeName + "'"
              && text[|text| - |e.attribute| - 2..] == "'" + e.attribute + "'"
  {
    match e
    case AttributeError(typeName, attribute) =>
      "'" + typeName + "' object has no attribute '" + attribute + "'"
    case Raised(text) => text
  }
}
