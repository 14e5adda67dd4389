/** Values shared by every part of the model: optional values, results, and the
    Python exceptions the modelled code can raise. */
module Common {

  datatype Option<+T> = None | Some(value: T) {
    function GetOr(default: T): T {
      match this
      case Some(v) => v
      case None => default
    }
  }

  /** The Python exceptions that escape the modelled functions. */
  datatype PyError =
    | IndexError          // a numpy or list index past the end
    | ZeroDivisionError   // Python `%` by a zero length
    | AttributeError      // a method looked up on `None` or on an object that lacks it
    | AssertionError      // a failed `assert`
    | ValueError          // a parse failure, or an argument rejected by an explicit check
    | Raised              // an exception from a collaborator outside the model, passed on unchanged

  datatype Result<+T> = Ok(value: T) | Err(error: PyError)
}
