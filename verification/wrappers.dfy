/** Option and Result, used for `CString::new`'s `Result<CString, NulError>`. */
module Wrappers {
  datatype Option<+T> = None | Some(value: T)

  datatype Result<+R, +E> = Success(value: R) | Failure(error: E)
}
