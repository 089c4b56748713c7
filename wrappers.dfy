/** Option and Result, the two failure-carrying shapes the model uses. */
module Wrappers {

  /** A Python attribute or dictionary entry that may be absent (or `None`). */
  datatype Option<+T> = None | Some(value: T)

  /** The outcome of a Python call: a value, or the exception it raises. */
  datatype Result<+T, +E> = Success(value: T) | Failure(error: E)
}

/**
 * The Python values the core passes around: the exceptions it raises and
 * the dictionary values that `serialize` produces.
 */
module PyValues {

  /** The exceptions raised by the modelled code. */
  datatype Error =
    | KeyError(key: string)                   // d[key] on a missing key
    | IndexError                              // a list indexed past its end
    | TypeError(message: string)              // e.g. unpacking an int
    | AttributeError(attribute: string)       // dv_perc of an untabled symbol
    | UnsupportedDataType(dataType: string)   // from_json_object's own raise

  /** A value stored in a serialized dictionary (JSON-like). */
  datatype Value =
    | Null
    | Int(i: int)
    | Real(r: real)
    | Str(s: string)
    | Dict(entries: map<string, Value>)

  /** Python's `v == 0 or v is None`: true of None and of numeric zero only. */
  predicate IsZeroOrNone(v: Value)
  {
    v == Null || v == Int(0) || v == Real(0.0)
  }
}
