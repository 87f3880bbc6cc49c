/** Failure-carrying results shared by every module: the Python exceptions
    the source raises become `Err` values with the exception's class. */
module Wrappers {

  datatype Option<+T> = None | Some(value: T)

  /** The exception classes the modelled code can raise. */
  datatype Error =
    | ValueError(message: string)        // explicit `raise ValueError(...)` and numpy shape errors
    | UnknownName(message: string)       // partTypeNum's bare `raise Exception(...)`
    | KeyError(key: string)              // missing dict / HDF5 group key
    | IndexError(message: string)        // out-of-range list or array index
    | UnboundLocal(name: string)         // a local read before any branch assigned it
    | NameError(name: string)            // a name defined nowhere in scope

  datatype Result<+T> = Ok(value: T) | Err(error: Error) {
    predicate IsFailure() { Err? }
    function PropagateFailure<U>(): Result<U>
      requires Err?
    {
      Err(error)
    }
    function Extract(): T
      requires Ok?
    {
      value
    }
  }
}
