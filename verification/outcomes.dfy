/**
 Outcome datatypes shared by the model. Python's `None`, the HTTP 404 raised for
 an unknown id, and the `RecursionError` raised by a runaway call are all
 explicit values here instead of exceptions.
 */
module Outcomes {

  /** An optional value: Python's `Optional[...]` request fields. */
  datatype Option<+T> = None | Some(value: T)

  /** A keyed lookup: `NotFound` is the HTTP 404 and carries its `detail` text. */
  datatype Lookup<+T> = Found(value: T) | NotFound(detail: string)

  /** Evaluating a Python call: it returns a value or raises `RecursionError`. */
  datatype Eval<+T> = Returned(value: T) | RecursionError
}
