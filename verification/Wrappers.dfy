/** Optional values and the outcome of a call into an external collaborator. */
module Wrappers {

  datatype Option<+T> = None | Some(value: T)

  /**
   * What an awaited collaborator call produced: it either rejected (the
   * handler's `catch` sees an exception) or resolved with a value.
   */
  datatype Reply<+T> = Threw | Returned(value: T)
}
