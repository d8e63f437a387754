/** Failure-carrying values shared by every module of the ledger model. */
module Wrappers {

  /** A lookup that may find nothing (SQLAlchemy's `first()` returning `None`). */
  datatype Option<+T> = None | Some(value: T)
  {
    /** The carried value, or `default` for `None`. */
    function UnwrapOr(default: T): T
    {
      if Some? then value else default
    }
  }

  /** An outcome that is either a value or an error (a raised HTTP or storage exception). */
  datatype Result<+T, +E> = Ok(value: T) | Err(error: E)
}
