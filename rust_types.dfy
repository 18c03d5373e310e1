/** The two standard-library sum types the program passes around: `Option` and `Result`. */
module RustTypes {

  datatype Option<+T> = None | Some(value: T)

  datatype Result<+T, +E> = Ok(value: T) | Err(error: E)
}
