/** Optional values (Java's nullable references and Optional) and results (a value or the
    exception that the Java code would have thrown). */
module Wrappers {

  datatype Option<+T> = None | Some(value: T)

  datatype Result<+R, +E> = Success(value: R) | Failure(error: E)
}
