/**
 * How a Python statement sequence of the receive paths completes: the
 * exceptions it can raise, and the optional and fallible results used to
 * model a raise as a value.
 */
module Outcomes {

  /** The Python exceptions the receive paths can raise. */
  datatype Fault =
    | KeyError(key: string)   // `d[key]` on a dict without `key`
    | TypeError               // subscripting a non-dict, or `t - v` for a non-number `v`
    | AttributeError          // `.keys()` on something that is not a dict

  datatype Option<T> = None | Some(value: T)

  datatype Result<T, E> = Success(value: T) | Failure(error: E)

  /** Completion of one Python statement sequence: normal, or by an exception. */
  datatype Outcome = Pass | Fail(fault: Fault)
}
