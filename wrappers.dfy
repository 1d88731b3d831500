/** Failure-carrying result types shared by the whole model.

    The client reports failures by raising Python exceptions; the model returns
    them as `Err` values tagged with the exception class that would be raised. */
module Wrappers {

  datatype Option<+T> = None | Some(value: T) {
    predicate IsFailure() { None? }

    function PropagateFailure<U>(): Option<U>
      requires None?
    {
      None
    }

    function Extract(): T
      requires Some?
    {
      value
    }
  }

  /** The Python exception classes that the modelled code raises or lets escape. */
  datatype Exc =
    | ValueError
    | TypeError
    | IndexError
    | KeyError
    | AttributeError
    | NotImplementedError
    | TimeoutError
    | QueueEmpty          // queue.Empty, from a timed get on an empty queue
    | StopIteration
    | GnmiException       // pygnmi's own gNMIException
    | PlainException      // a bare `raise Exception(...)`

  datatype Result<+T> = Ok(value: T) | Err(error: Exc) {
    predicate IsFailure() { Err? }

    function PropagateFailure<U>(): Result<U>
      requires Err?
    {
      Err(error)
    }

    function Extract(): T
      requires Ok?
    {
      value
    }
  }
}
