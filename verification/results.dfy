/** Error values and the result type shared by the registry and the statement
    model. The C++ header raises an exception where this model returns `Err`. */
module Results {

  /** The error `getFactory` raises: no accumulator is registered under `name`. */
  datatype Error = UnknownOperator(name: string)

  /** A value or the error that prevented computing it. */
  datatype Result<+T> = Ok(value: T) | Err(error: Error)

  /** The status an initializer function reports back to the startup machinery. */
  datatype Status = StatusOK | StatusFailure(reason: string)
}
