/** Values that may be missing, and results that may be errors. */
module Results {

  datatype Option<T> = None | Some(value: T)

  datatype Result<T> = Ok(value: T) | Error
}
