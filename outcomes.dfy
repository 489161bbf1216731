/** Failure-carrying values shared by the preprocessing and training models.
    Python signals failure in two ways that the model keeps apart: a library call
    that returns `None`, and an exception that unwinds the caller. */
module Outcomes {

  /** Python's `None`-or-value. */
  datatype Option<+T> = None | Some(value: T)

  /** The result of a step that may raise: `Raised` stands for any exception. */
  datatype Outcome<+T> = Raised | Ok(value: T)

  /** What a library loader gives back: it raises, it returns `None` because the
      input could not be parsed, or it returns a value. */
  datatype Parse<+T> = Raises | Unparsable | Parsed(value: T)
}
