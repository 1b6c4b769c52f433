/** Optional values and results with an error side, used for every lookup that
    can miss and every operation that can be refused. */
module Wrappers {

  datatype Option<+T> = None | Some(value: T)

  datatype Result<+R, +E> = Success(value: R) | Failure(error: E)
}
