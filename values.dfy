/** Values shared by every part of the storefront model: JSON-like documents
    as the document store and the HTTP layer see them, Python truthiness, and
    the error values that the endpoints raise. */
module Values {

  datatype Option<+T> = None | Some(value: T)

  datatype Result<+T, +E> = Ok(value: T) | Err(error: E)

  /** A JSON-like value as it appears in a stored document, a query filter or
      an HTTP body. `VOid` is a store-assigned ObjectId before it is turned
      into a string; numbers keep Python's split between `int` and `float`. */
  datatype Value =
    | VNull
    | VBool(b: bool)
    | VInt(i: int)
    | VNum(r: real)
    | VStr(s: string)
    | VList(items: seq<Value>)
    | VObj(fields: map<string, Value>)
    | VOid(id: nat)

  /** A document: a dictionary from field names to values. */
  type Document = map<string, Value>

  /** An `HTTPException`: a status code and its JSON detail. */
  datatype HttpError = HttpError(status: int, detail: Value)

  /** Python's truth value of a JSON-like value (`if x:` and `x or y`). */
  predicate Truthy(v: Value)
  {
    match v
    case VNull => false
    case VBool(b) => b
    case VInt(i) => i != 0
    case VNum(r) => r != 0.0
    case VStr(s) => s != ""
    case VList(items) => items != []
    case VObj(fields) => fields != map[]
    case VOid(_) => true
  }

  /** `os.getenv(key)`: None when the variable is not set. */
  function EnvValue(env: map<string, string>, key: string): Option<string>
  {
    if key in env then Some(env[key]) else None
  }

  /** Truth value of an optional string: `None` and `""` are false. */
  predicate TruthyText(s: Option<string>)
  {
    s.Some? && s.value != ""
  }

  /** The number a value stands for, if it is an `int` or a `float`. */
  function NumberOf(v: Value): Option<real>
  {
    match v
    case VInt(i) => Some(i as real)
    case VNum(r) => Some(r)
    case _ => None
  }

  /** `None` becomes JSON null, a present string stays a string. */
  function NullableText(s: Option<string>): Value
  {
    match s
    case None => VNull
    case Some(t) => VStr(t)
  }

  function Texts(xs: seq<string>): (r: seq<Value>)
    ensures |r| == |xs|
    ensures forall i | 0 <= i < |xs| :: r[i] == VStr(xs[i])
  {
    if xs == [] then [] else [VStr(xs[0])] + Texts(xs[1..])
  }

  /** `None` becomes JSON null, a present list of strings a JSON list. */
  function NullableTexts(xs: Option<seq<string>>): Value
  {
    match xs
    case None => VNull
    case Some(ys) => VList(Texts(ys))
  }
}
