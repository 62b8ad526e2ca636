/** Java-level values the router's code paths produce: optional results, references
    that may be null, and the unchecked exceptions that can escape a call. */
module Lang {

  /** java.util.Optional. */
  datatype Option<+T> = None | Some(value: T)

  /** A Java reference that may be null. */
  datatype Nullable<+T> = Null | NonNull(value: T)

  /** The unchecked exceptions raised along the router's code paths. */
  datatype Exception =
    | NullPointerException
    | IndexOutOfBoundsException
    | IllegalArgumentException

  /** A call that either returns a value or throws. */
  datatype Result<+T> = Ok(value: T) | Err(error: Exception)
}
