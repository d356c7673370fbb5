/** Failure-compatible wrappers for the codec. Every exception the dictionary-encoding
    serialization raises aborts the whole bulk call, so an operation either yields its
    value or one of the error kinds below. */
module Errors {

  /** The faults the codec can raise. */
  datatype Error =
    | InvalidKeysVersion        // the keys substream carries a version other than 1
    | InvalidIndexType          // a chunk header whose width tag is not one of the four
    | InvalidIndexesColumn      // an index column that is not one of the unsigned columns
    | IllegalKeyType            // a dictionary-encoded type over an unsupported key type
    | UnexpectedNumericType     // a numeric key type outside the ten number types
    | UnexpectedDictionaryType  // a key type no dictionary column exists for
    | EmptyKeysStream           // the keys substream is missing
    | EmptyIndexesStream        // the indexes substream is missing
    | CannotReadAllData         // a read past the end of a substream
    | MalformedStream           // a token of the wrong kind, or an index wider than declared
    | IndexOutOfBound           // an index that references no key
    | NullDictionary            // a dereference of an absent dictionary or key column
    | ParametersOutOfBound      // a row range that starts past the end of the column

  datatype Option<+T> = None | Some(value: T) {
    function GetOr(default: T): T {
      match this
      case Some(v) => v
      case None => default
    }
  }

  datatype Result<+T> = Success(value: T) | Failure(error: Error) {
    predicate IsFailure() { Failure? }
    function PropagateFailure<U>(): Result<U>
      requires Failure?
    {
      Failure(error)
    }
    function Extract(): T
      requires Success?
    {
      value
    }
  }

  /** The outcome of an operation that yields no value. */
  datatype Outcome = Pass | Fail(error: Error) {
    predicate IsFailure() { Fail? }
    function PropagateFailure(): Outcome
      requires Fail?
    {
      this
    }
  }
}
