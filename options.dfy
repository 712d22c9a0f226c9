/**
 * The optional value used wherever the source returns `undefined` or `null`, and the
 * result used wherever it throws.
 */
module Options {

  datatype Option<T> = None | Some(value: T)

  datatype Result<T, E> = Ok(value: T) | Err(error: E)

}
