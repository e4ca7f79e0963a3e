/** Option and Result, the two failure-compatible wrappers used throughout the model. */
module Wrappers {

  /** A value that may be absent; `None` stands for Java's `null`. */
  datatype Option<+T> = None | Some(value: T)

  /** The outcome of an operation that either yields a value or raises an error. */
  datatype Result<+R, +E> = Ok(value: R) | Err(error: E) {
    predicate IsFailure() { Err? }

    function PropagateFailure<U>(): Result<U, E>
      requires Err?
    {
      Err(error)
    }

    function Extract(): R
      requires Ok?
    {
      value
    }
  }
}

/** How Java renders possibly-null strings when it concatenates them. */
module JavaStrings {
  import opened Wrappers

  /** `String.valueOf`: a null reference is written as the four letters "null". */
  function Show(s: Option<string>): string {
    match s
    case Some(v) => v
    case None => "null"
  }
}
