/** Optional values, the Python exceptions the toolkit can raise, and results that carry them. */
module Wrappers {

  datatype Option<T> = None | Some(value: T)
  {
    function GetOr(default: T): T
    {
      match this
      case None => default
      case Some(v) => v
    }
  }

  /**
   * The exception classes the modelled code raises (or lets escape), plus networkx's NoPath, and
   * `Unrepresented` for an outcome the model's values cannot hold (a dictionary key that is not a
   * string, the insertion order of a dictionary's keys).
   */
  datatype Error =
    | KeyError
    | IndexError
    | TypeError
    | ValueError
    | AttributeError
    | AssertionError
    | ZeroDivisionError
    | StopIteration
    | NoPath
    | ImportError
    | Unrepresented

  /** The outcome of a call that may raise. */
  datatype Result<T> = Ok(value: T) | Err(error: Error)
  {
    predicate IsFailure()
    {
      Err?
    }

    function PropagateFailure<U>(): Result<U>
      requires Err?
    {
      Err(error)
    }

    function Extract(): T
      requires Ok?
    {
      value
    }
  }
}
