/** Success-or-error values: how the model carries the error argument of a
    Node-style callback `(err, value)`. */
module Results {

  datatype Result<+T, +E> = Success(value: T) | Failure(error: E)
}
