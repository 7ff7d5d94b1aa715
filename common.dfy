/** Option and Result values shared by the other modules. */
module Common {
  /** A value that may be absent: `undefined`, `null` or `NaN` on the JavaScript side. */
  datatype Option<+T> = None | Some(value: T)

  /** The outcome of a step that can fail with an error of kind `E`. */
  datatype Result<+T, +E> = Ok(value: T) | Err(error: E)
}
