/** Option and Result values standing in for Go's `(value, error)` returns and map lookups. */
module Results {

  datatype Option<+T> = None | Some(value: T)

  /** The outcome of a call that either yields a value or fails with an error. */
  datatype Result<+T, +E> = Ok(value: T) | Err(error: E) {

    /** The value, or `default` when the call failed. */
    function GetOr(default: T): T
    {
      match this
      case Ok(v) => v
      case Err(_) => default
    }

    /** The error as a zero- or one-element sequence. */
    function Errors(): seq<E>
    {
      match this
      case Ok(_) => []
      case Err(e) => [e]
    }
  }
}
