/** Option and Result values shared by every module of the model. A `Result`
    stands for a promise that either resolves with a value or rejects with an
    error (a thrown exception). */
module Base {

  datatype Option<+T> = None | Some(value: T)

  datatype Result<+T, +E> = Ok(value: T) | Err(error: E)
}
