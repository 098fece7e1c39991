/** Values held by entity attributes, the kinds of attribute, and the
    failure-carrying wrappers used for the exceptions of the catalog models. */
module Values {

  datatype Option<+T> = None | Some(value: T)

  /** A computation that either returns a value or raises. */
  datatype Result<+T, +E> = Success(value: T) | Failure(error: E)

  /** A check that either passes or raises. */
  datatype Outcome<+E> = Pass | Fail(error: E)

  /** The declared Python type of an attribute (`attr.py_type`). */
  datatype Kind =
    | StrKind
    | IntKind
    | BytesKind
    | DateTimeKind
    | EntityKind(entity: string)   // a relation to another entity type

  /** A raw or stored attribute value. `Null` is Python's `None`. */
  datatype Value =
    | Null
    | Str(s: string)
    | Int(n: int)
    | Bytes(b: seq<bv8>)
    | DateTime(t: int)
    | Ref(key: int)          // one related entity, by primary key
    | Refs(keys: set<int>)   // a to-many relation (a Pony `Set`)

  /** The exceptions that can leave the models. */
  datatype Error =
    | TypeError(message: string)
    | ValueError(message: string)
    | ObjectNotFound(entity: string)
    | Exception(message: string)

  /** A coercion `attr.py_type(val)` or a relation handler
      `relation_handler(attr.py_type, val)`: both take the attribute's kind
      and the raw value, and may raise. */
  type Convert = (Kind, Value) -> Result<Value, Error>

  /** Python truthiness of a value, as `if x:` and `x and y` use it. */
  predicate Truthy(v: Value)
  {
    match v
    case Null => false
    case Str(s) => s != ""
    case Int(n) => n != 0
    case Bytes(b) => |b| > 0
    case DateTime(_) => true
    case Ref(_) => true
    case Refs(keys) => keys != {}
  }
}
