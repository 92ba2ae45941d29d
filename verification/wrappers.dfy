/** Failure-carrying datatypes shared by the router model. */
module Wrappers {

  /** Stands in for a JavaScript value that may be `null`. */
  datatype Option<+T> = None | Some(value: T)

  /** The outcome of an operation that either returns a value or throws. */
  datatype Result<+R, +E> = Ok(value: R) | Err(error: E)

  /** How a call into a collaborator ended: it returned a value or it threw; `nullish` says the thrown value (or the
      rejection value of an awaited promise) is `null` or `undefined` rather than an object. */
  datatype Completion<+T> = Returned(value: T) | Threw(nullish: bool)
}
