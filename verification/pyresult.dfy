/** Outcomes of the modelled Python expressions: a value, or the exception it raises. */
module PyResult {

  /** The exceptions the modelled string operations can raise. */
  datatype PyError =
    | IndexError        // list index out of range; a `{}` field with no argument left
    | ValueError        // a single `{` or `}` in a format string
    | UnsupportedField  // a numbered or named format field, which this model does not interpret

  /** The value of an expression, or the exception that ends its evaluation. */
  datatype Result<+T> = Ok(value: T) | Err(error: PyError)

  /** A value that may be absent (Python's `None`). */
  datatype Option<+T> = None | Some(value: T)
}
