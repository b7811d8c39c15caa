/** Optional values and results with an error, the two shapes the client's
    JavaScript expresses with `undefined` and with a thrown exception. */
module Wrappers {

  datatype Option<+T> = None | Some(value: T)

  datatype Result<+R, +E> = Ok(value: R) | Err(error: E)
}
