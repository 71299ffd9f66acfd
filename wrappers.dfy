/** Optional values and the outcome of a call into code outside the model. */
module Wrappers {

  datatype Option<+T> = None | Some(value: T) {

    /** The value held, or `default` when there is none. */
    function GetOr(default: T): T {
      match this
      case Some(v) => v
      case None => default
    }
  }

  /**
   * The outcome of an awaited call into a hosted service or a server action:
   * either it returned a value, or it threw (the callers in the system catch
   * every such exception in a `try`/`catch`).
   */
  datatype Reply<+T> = Returned(value: T) | Threw
}
