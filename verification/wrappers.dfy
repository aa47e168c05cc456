/** The optional-value and result datatypes used throughout the model, and
    the Python exceptions that the predict handlers can raise and then catch. */
module Wrappers {

  /** A value that may be absent, as Python's `None`. */
  datatype Option<+T> = None | Some(value: T)

  /** Either a computed value or the exception that interrupted the computation. */
  datatype Result<+R, +E> = Success(value: R) | Failure(error: E)

  /** The Python exceptions raised by the decision logic.
      ValueError: `max()` of an empty sequence.
      IndexError: the first element of an empty list. */
  datatype PyError = ValueError | IndexError
}

/** The fields of the submitted report form that the predict handlers read. */
module Form {
  import opened Wrappers

  /** `username` is the submitted account name, `reasons` the ticked reason
      codes (submission order, duplicates kept) and `others` the free-text
      reason, absent when the field was not sent. */
  datatype Submission = Submission(username: string, reasons: seq<string>, others: Option<string>)

  /** Python truthiness of the `others` field: present and not the empty string. */
  predicate Filled(others: Option<string>) {
    others.Some? && others.value != ""
  }
}
