/**
 * The Python values that reach the data-flag core: arguments of the record
 * factories, JSON metadata blobs and the results of parsing command-line
 * text. Exceptions raised by the core are modelled as an `Error` carried by
 * a `Result`.
 */
module Values {

  datatype Option<+T> = None | Some(value: T)

  /** The exceptions the core raises, named after the Python exception class. */
  datatype Error =
    | ValueError(argument: string)   // an argument of a record factory has the wrong type
    | ValidationError                // a decision outside the enumeration
    | DoesNotExist(table: string)    // a `get` on a row that is not there
    | IntegrityError                 // a unique index would be violated
    | IndexError                     // indexing past the end (empty user name, mask index)
    | KeyError                       // dictionary lookup with an unknown key
    | TypeError                      // an argument of an unexpected type
    | AttributeError                 // attribute access on None
    | RuntimeError                   // a voting mode name that is too long
    | UserWarning                    // a voting mode that is not registered
    | BadParameter(reason: string)   // a command-line converter refused its text

  datatype Result<+T> = Ok(value: T) | Err(error: Error)

  /** Unix time stamps; the source stores them as doubles, idealised here as reals. */
  type Time = real

  /** A Python value as far as the core inspects it. */
  datatype PyValue =
    | PNone
    | PBool(b: bool)
    | PInt(i: int)
    | PFloat(r: real)
    | PStr(s: string)
    | PList(items: seq<PyValue>)
    | PTuple(elems: seq<PyValue>)
    | PDict(entries: map<string, PyValue>)

  /** A JSON object stored in a `metadata` column. */
  type Metadata = map<string, PyValue>

  /** Python truthiness. */
  predicate Truthy(v: PyValue) {
    match v
    case PNone => false
    case PBool(b) => b
    case PInt(i) => i != 0
    case PFloat(r) => r != 0.0
    case PStr(s) => s != ""
    case PList(items) => items != []
    case PTuple(elems) => elems != []
    case PDict(entries) => entries != map[]
  }

  /** The built-in types a command-line list converter can demand of its elements. */
  datatype PyType = IntType | FloatType | StrType | BoolType

  /** `isinstance(v, t)`; `bool` is a subclass of `int` in Python. */
  predicate IsInstance(v: PyValue, t: PyType) {
    match t
    case IntType => v.PInt? || v.PBool?
    case FloatType => v.PFloat?
    case StrType => v.PStr?
    case BoolType => v.PBool?
  }
}
