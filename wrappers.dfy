/** Option and Result wrappers shared by every module of the model.
  * A Python exception raised by the modelled code becomes an `Err` carrying
  * the exception class; messages are not modelled. */
module Wrappers {

  datatype Option<T> = None | Some(value: T)
  {
    predicate IsFailure() { None? }
    function PropagateFailure<U>(): Option<U>
      requires None?
    {
      None
    }
    function Extract(): T
      requires Some?
    {
      value
    }

    /** The carried value, or `default` for None: how an optional
      * keyword argument left as None keeps the current value. */
    function GetOr(default: T): T
    {
      if Some? then value else default
    }
  }

  /** The Python exception classes raised by the modelled code. */
  datatype Error =
    | ValueError
    | AssertionError
    | KeyError
    | TypeError
    | NotImplementedError
    | AttributeError
    | NameError
    | ZeroDivisionError

  datatype Result<T> = Ok(value: T) | Err(error: Error)
  {
    predicate IsFailure() { Err? }
    function PropagateFailure<U>(): Result<U>
      requires Err?
    {
      Err(error)
    }
    function Extract(): T
      requires Ok?
    {
      value
    }
  }
}
