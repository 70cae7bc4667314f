/**
 * Small value types shared by the whole model: an optional value (the
 * source's nullable references) and the outcome of an operation that the
 * source may abort with an exception.
 */
module Common {

  /** A value that may be absent, as a Java reference that may be null. */
  datatype Option<T> = None | Some(value: T)

  /** The exceptions the core can raise. */
  datatype Failure =
    | InputMismatch  // redo on the start-of-history sentinel
    | NullPointer    // a drag against a move record that has no mouse anchor
    | ClassCast      // the in-progress shape is not of the selected kind

  /** Pass, or the exception an operation stopped with. */
  datatype Outcome = Pass | Fail(error: Failure)
}
