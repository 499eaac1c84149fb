/**
  The Python values the library code reads and writes: the dictionaries
  (`SpeakerDTO`, `LibraryDTO`) that are pickled to disk, the lists inside
  them, the NumPy embedding vectors, and the exceptions raised on bad input.
 */
module PyValues {
  import opened Wrappers

  /**
    A Python value as far as this code inspects it. Dictionary keys are
    strings; `PyArray` is a one-dimensional NumPy array of floats.
   */
  datatype PyValue =
    | PyNone
    | PyBool(b: bool)
    | PyNum(x: real)
    | PyStr(s: string)
    | PyList(items: seq<PyValue>)
    | PyDict(entries: map<string, PyValue>)
    | PyArray(values: seq<real>)

  /** The exceptions raised, with their `str()` text. */
  datatype PyError =
    | ValueError(message: string)
    | TypeError(message: string)
    | IndexError(message: string)
    | KeyError(key: string)
    | FileNotFoundError(message: string)
    | UnpicklingError(message: string)

  /** `str(e)`: a `KeyError` shows the missing key quoted. */
  function ErrorText(e: PyError): string {
    match e
    case KeyError(k) => "'" + k + "'"
    case ValueError(m) => m
    case TypeError(m) => m
    case IndexError(m) => m
    case FileNotFoundError(m) => m
    case UnpicklingError(m) => m
  }

  /**
    `type(v).__name__`, as built-in `TypeError` messages quote it. A number
    with no fractional part is taken to be an `int`, any other a `float`.
   */
  function TypeName(v: PyValue): (name: string)
    ensures v.PyNone? <==> name == "NoneType"
    ensures v.PyBool? <==> name == "bool"
    ensures v.PyNum? <==> name == "int" || name == "float"
  {
    match v
    case PyNone => "NoneType"
    case PyBool(_) => "bool"
    case PyNum(x) => if x.Floor as real == x then "int" else "float"
    case PyStr(_) => "str"
    case PyList(_) => "list"
    case PyDict(_) => "dict"
    case PyArray(_) => "ndarray"
  }

  /** `isinstance(v, dict) and all(k in v for k in keys)`. */
  predicate HasKeys(v: PyValue, keys: seq<string>) {
    v.PyDict? && forall k :: k in keys ==> k in v.entries
  }

  /**
    `v[key]` with a string key: the entry of a dictionary, `KeyError` for a
    missing key, and the error each other kind of value raises for a string index.
   */
  function GetItem(v: PyValue, key: string): (r: Result<PyValue, PyError>)
    ensures r.Ok? <==> v.PyDict? && key in v.entries
    ensures r.Ok? ==> r.value == v.entries[key]
    ensures v.PyDict? && key !in v.entries ==> r == Err(KeyError(key))
    ensures v.PyNone? || v.PyBool? || v.PyNum? ==> r == Err(TypeError("'" + TypeName(v) + "' object is not subscriptable"))
  {
    match v
    case PyDict(entries) =>
      if key in entries then Ok(entries[key]) else Err(KeyError(key))
    case PyArray(_) =>
      Err(IndexError("only integers, slices, ellipsis, numpy.newaxis and integer or boolean arrays are valid indices"))
    case PyList(_) => Err(TypeError("list indices must be integers or slices, not str"))
    case PyStr(_) => Err(TypeError("string indices must be integers, not 'str'"))
    case _ => Err(TypeError("'" + TypeName(v) + "' object is not subscriptable"))
  }
}
