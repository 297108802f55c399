/** Python's exceptions as values, for the error paths of the modelled code. */
module Results {

  datatype Option<T> = None | Some(value: T)

  /** The exception kinds the modelled code raises (or lets through from NumPy). */
  datatype PyError =
    | ValueError(message: string)
    | KeyError(key: string)
    | TypeError(message: string)
    | AttributeError(message: string)

  datatype Result<T> = Success(value: T) | Failure(error: PyError)
}
