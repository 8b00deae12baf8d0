/** Outcomes shared by the task adapters: an optional value, the Python
    exceptions the adapters raise, and a result that is either a value or
    one of those exceptions. */
module Results {

  datatype Option<+T> = None | Some(value: T)

  /** The exception kinds raised by the modelled code. */
  datatype Error =
    | KeyError(key: string)
    | AttributeError(name: string)
    | TypeError(reason: string)
    | ValueError(reason: string)
    | IndexError(reason: string)
    | RuntimeError(reason: string)
    | NotImplementedError(reason: string)
    | AssertionError(reason: string)
    | UnboundLocalError(name: string)

  datatype Result<+T> = Ok(value: T) | Err(error: Error) {
    predicate IsFailure() { Err? }

    function PropagateFailure<U>(): Result<U>
      requires Err?
    {
      Err(error)
    }

    function Extract(): T
      requires Ok?
    {
      value
    }
  }
}
