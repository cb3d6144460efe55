/** Types shared by every module: the source's `T | Error` returns, its optional
    fields, and the replies of services. */
module Common {

  datatype Option<+T> = None | Some(value: T)

  datatype Result<+T, +E> = Ok(value: T) | Err(error: E)

  /** How a service call ends. A lost reply means the call took effect but the caller
      saw an error, or died before it could act on the answer. */
  datatype Reply = Works | Refuses | Lost
}
