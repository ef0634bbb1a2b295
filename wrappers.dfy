/** Option and Result, the two failure-carrying shapes the importers and the CLI return. */
module Wrappers {

  datatype Option<+T> = None | Some(value: T) {
    function GetOr(default: T): T {
      match this
      case Some(v) => v
      case None => default
    }
  }

  /** A Python call that raises is modelled as `Err`, carrying the kind of exception. */
  datatype Result<+T, +E> = Ok(value: T) | Err(error: E)
}
