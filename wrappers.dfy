/** Optional values (a JavaScript value that may be `undefined`) and results of
    script steps that may throw. */
module Wrappers {

  datatype Option<+T> = None | Some(value: T)

  datatype Result<+R, +E> = Success(value: R) | Failure(error: E)
}
