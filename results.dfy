/** Option and Result values, and the one Python exception the modelled
    code can raise. */
module Results {

  datatype Option<+T> = None | Some(value: T)

  /** A Python exception, by kind and by the identifier it concerns. */
  datatype PyError = NameError(name: string)

  /** The value of a Python expression: either a value or the exception it raised. */
  datatype Result<+T> = Success(value: T) | Failure(error: PyError)
}
