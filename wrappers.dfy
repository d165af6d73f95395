/** Failure-compatible wrappers shared by every module: an optional value and
    a result that carries either a value or the error text the Go code
    would have returned from fmt.Errorf. */
module Wrappers {

  datatype Option<+T> = None | Some(value: T) {
    predicate IsFailure() { None? }

    function PropagateFailure<U>(): Option<U>
      requires None?
    {
      None
    }

    function Extract(): T
      requires Some?
    {
      value
    }
  }

  datatype Result<+T> = Ok(value: T) | Err(msg: string) {
    predicate IsFailure() { Err? }

    function PropagateFailure<U>(): Result<U>
      requires Err?
    {
      Err(msg)
    }

    function Extract(): T
      requires Ok?
    {
      value
    }
  }

  /** Outcome of an I/O step that yields nothing (a fetch, a checkout, a push). */
  datatype IoStatus = IoOk | IoErr(cause: string)
}
