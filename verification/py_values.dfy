/** Python values as the field transforms see them: the content of one
    pandas cell, or a value produced by the literal parser. */
module PyValues {

  datatype Option<+T> = None | Some(value: T)

  /** The outcome of a Python call that may raise. */
  datatype Result<+T, +E> = Ok(value: T) | Err(error: E)

  /** A Python float. NaN is how pandas stores a missing cell. */
  datatype Float = Finite(x: real) | Infinite(negative: bool) | NaN

  /** The exceptions the model names: those the literal parser can raise, the
      TypeError of an unhashable label or of `log1p` on an object column, and
      the OverflowError of an integer label too wide for an int64 array. Any
      other exception a foreign call raises is returned as one of these. */
  datatype Exception = ValueError | SyntaxError | TypeError | RecursionError | MemoryError | OverflowError

  /** A Python object. A dict is given by the key-value pairs it is built
      from, in order, as `dict(entries)` builds it: a repeated key keeps its
      last value. Tuples, sets, bytes, complex numbers and every other object
      are PyOther. */
  datatype Value =
    | PyNone
    | PyBool(b: bool)
    | PyInt(i: int)
    | PyFloat(f: Float)
    | PyStr(s: string)
    | PyList(items: seq<Value>)
    | PyDict(entries: seq<(Value, Value)>)
    | PyOther

  /** `hash(v)` raises TypeError: lists and dicts. */
  predicate Unhashable(v: Value) {
    v.PyList? || v.PyDict?
  }

  /** `pd.isna` on one cell: None and NaN are missing. */
  predicate IsMissing(v: Value) {
    v == PyNone || v == PyFloat(NaN)
  }

  /** Python's `bool(x)` on a float: only zero is false, NaN and the infinities are true. */
  predicate FloatTruth(f: Float) {
    f != Finite(0.0)
  }
}
