/** Option and Result values, and the exceptions the modelled Python code raises. */
module Wrappers {

  datatype Option<+T> = None | Some(value: T) {
    function GetOr(default: T): T {
      match this
      case Some(v) => v
      case None => default
    }
  }

  /** A value, or the exception that the Python code would have raised instead. */
  datatype Result<+T, +E> = Success(value: T) | Failure(error: E) {
    predicate IsFailure() {
      Failure?
    }

    function PropagateFailure<U>(): Result<U, E>
      requires Failure?
    {
      Failure(error)
    }

    function Extract(): T
      requires Success?
    {
      value
    }
  }

  /** The exceptions raised by the modelled code, one constructor per raise site. */
  datatype Raised =
    | InvalidGiaType(given: string)        // ValueError from set_gia_type
    | MissingIdAttribute                   // KeyError 'id' when building a record
    | ThemeTextWithoutSpace(text: string)  // ValueError: not enough values to unpack
    | NotStrOrList                         // ValueError from _to_list
    | ZeroStep                             // ValueError: range() arg 3 must not be zero
    | InsertTargetNotTable                 // ArgumentError: insert() given a row, not a table
}
