/** Error returns shared by the models: an operation that raises yields `Err` and changes nothing. */
module Results {
  datatype Option<+T> = None | Some(value: T)

  datatype Error =
    | ValueError
    | ConfigError
    | BackendError
    | NotSupported
    | HardwareFault

  datatype Result<+T> = Ok(value: T) | Err(error: Error)
}
