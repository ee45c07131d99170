/** Optional values (Python's None) and the outcome of a call into a
    collaborator that may raise. */
module Wrappers {

  datatype Option<T> = None | Some(value: T)

  /** A collaborator call that returned `value`, or raised with `error`. */
  datatype Result<T> = Ok(value: T) | Err(error: string)
}
