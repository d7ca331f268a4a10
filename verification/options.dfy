/** The two datatypes every component shares: an optional value and an outcome. */
module Options {

  datatype Option<+T> = None | Some(value: T)

  datatype Result<+T, +E> = Ok(result: T) | Err(error: E)
}
