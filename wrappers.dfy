/** Failure-carrying results shared by both cores. */
module Wrappers {
  datatype Option<+T> = None | Some(value: T)

  /** The outcome of an operation that either yields a value or stops the run
      with a fatal diagnostic (the source's `exit(-1)` / `KORALI_LOG_ERROR`). */
  datatype Result<+T> = Ok(value: T) | Err(msg: string)
  {
    predicate IsFailure() { Err? }

    function PropagateFailure<U>(): Result<U>
      requires Err?
    {
      Err(msg)
    }

    function Extract(): T
      requires Ok?
    {
      value
    }
  }

  /** The outcome of an operation that yields nothing. */
  datatype Outcome = Pass | Fail(msg: string)
  {
    predicate IsFailure() { Fail? }

    function PropagateFailure(): Outcome
      requires Fail?
    {
      this
    }
  }
}
