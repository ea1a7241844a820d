/** Values shared by every part of the evaluation pipeline: optional values,
    Python exceptions as data, and the JSON-like values that the services pass
    around as dictionaries. */
module Common {

  datatype Option<+T> = None | Some(value: T) {
    function GetOr(default: T): T {
      match this
      case Some(v) => v
      case None => default
    }
  }

  /** The exception classes the core raises or catches. */
  datatype ExcKind =
    | ValueError
    | JSONDecodeError     // a subclass of ValueError
    | RuntimeError
    | TypeError
    | AttributeError
    | OSError             // IOError is an alias of OSError
    | FileNotFoundError   // a subclass of OSError
    | InterruptedError    // a subclass of OSError
    | APIError            // the OpenAI client's error class
    | WaveError           // wave.Error

  /** `except Base` catches `kind` exactly when `kind` is `Base` or one of its subclasses. */
  predicate IsA(kind: ExcKind, base: ExcKind) {
    kind == base
    || (base == ValueError && kind == JSONDecodeError)
    || (base == OSError && (kind == FileNotFoundError || kind == InterruptedError))
  }

  /** A raised exception; `message` is what `str(e)` gives. */
  datatype Exc = Exc(kind: ExcKind, message: string)

  /** The outcome of a Python call: a returned value or a raised exception. */
  datatype Result<+T> = Ok(value: T) | Err(error: Exc) {
    predicate Raises(kind: ExcKind) {
      Err? && error.kind == kind
    }
  }

  /** What an external backend call gives back: a value, or an exception it raised. */
  datatype Reply<+T> = Replied(value: T) | Raised(exc: Exc)

  /** A decoded JSON document, and the values stored in the services' dictionaries.
      Python's int and float are both `Num`. */
  datatype Value =
    | Null
    | Bool(b: bool)
    | Num(n: real)
    | Str(s: string)
    | Arr(items: seq<Value>)
    | Obj(fields: map<string, Value>)

  /** Python's name for the type of a value (`type(v).__name__`); numbers are `float`. */
  function TypeName(v: Value): string {
    match v
    case Null => "NoneType"
    case Bool(_) => "bool"
    case Num(_) => "float"
    case Str(_) => "str"
    case Arr(_) => "list"
    case Obj(_) => "dict"
  }

  /** The message of the AttributeError raised when `v` has no method `attr`. */
  function NoAttribute(v: Value, attr: string): string {
    "'" + TypeName(v) + "' object has no attribute '" + attr + "'"
  }

  /** `None` is stored as JSON null. */
  function OptStr(o: Option<string>): Value {
    match o
    case None => Null
    case Some(s) => Str(s)
  }
}
