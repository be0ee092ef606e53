/**
 * The values the service handles: documents read from the store, the JSON
 * reply of the language model, and the exceptions that Python code raises.
 * Python's truthiness, hashing of set elements and type names are written
 * out here because the analysis service depends on them.
 */
module Documents {
  import opened Wrappers

  /** A store identifier, held as the text `str(oid)` produces. */
  datatype ObjectId = ObjectId(hex: string)

  /**
   * A BSON / JSON value. `Object` is a Python `dict`, `List` a `list`,
   * `Date` a `datetime` (milliseconds since the epoch).
   */
  datatype Value =
    | Null
    | Bool(b: bool)
    | Int(i: int)
    | Str(s: string)
    | List(items: seq<Value>)
    | Object(fields: map<string, Value>)
    | Oid(oid: ObjectId)
    | Date(ms: int)

  /** A stored document: its `_id` and its other fields. */
  datatype Document = Document(id: ObjectId, fields: map<string, Value>)

  /** `doc.get(key, default)`: the value under `key`, or `default` when the key is absent. */
  function Get(doc: Document, key: string, default: Value): Value {
    if key == "_id" then Oid(doc.id)
    else if key in doc.fields then doc.fields[key]
    else default
  }

  /** Python truthiness: `None`, `False`, `0` and empty strings, lists and dicts are false. */
  predicate Truthy(v: Value) {
    match v
    case Null => false
    case Bool(b) => b
    case Int(i) => i != 0
    case Str(s) => s != ""
    case List(items) => items != []
    case Object(fields) => fields != map[]
    case Oid(_) => true
    case Date(_) => true
  }

  /** Lists and dicts cannot be put in a Python set. */
  predicate Hashable(v: Value) {
    !v.List? && !v.Object?
  }

  /**
   * The representative of `v` among set elements: Python treats `True` as
   * equal to `1` and `False` as equal to `0`, so a set holds only one of them.
   */
  function SetKey(v: Value): Value {
    if v.Bool? then Int(if v.b then 1 else 0) else v
  }

  /** `type(v).__name__`. */
  function TypeName(v: Value): string {
    match v
    case Null => "NoneType"
    case Bool(_) => "bool"
    case Int(_) => "int"
    case Str(_) => "str"
    case List(_) => "list"
    case Object(_) => "dict"
    case Oid(_) => "ObjectId"
    case Date(_) => "datetime"
  }

  /** BSON stores an integer as a signed 64-bit value; any other `int` cannot be encoded. */
  predicate InInt64(i: int) {
    -0x8000_0000_0000_0000 <= i < 0x8000_0000_0000_0000
  }

  /** The Python exception classes that the service raises or lets through. */
  datatype ExceptionType =
    | OverflowError
    | TypeError
    | KeyError
    | AttributeError
    | JSONDecodeError
    | OpenAIError
    | PyMongoError
    | DuplicateKeyError

  /**
   * An exception: FastAPI's `HTTPException(status_code, detail)`, or any other
   * exception with the text `str(e)` gives.
   */
  datatype Exception =
    | HttpError(status: int, detail: string)
    | Raised(kind: ExceptionType, message: string)
}
