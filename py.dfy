/** Python runtime notions the model needs: optional values, truthiness of
    optional strings, and exceptions carried as values. */
module Py {

  datatype Option<+T> = None | Some(value: T)

  /** Python's `not x` is false for an optional string exactly when it is
      present and non-empty (`None` and `""` are both falsy). */
  predicate Truthy(x: Option<string>) {
    x.Some? && x.value != ""
  }

  /** A raised exception: the name `type(e).__name__` gives, whether it is a
      `ValueError` (or a subclass of it), and the text `str(e)` gives. */
  datatype PyException = PyException(typeName: string, isValueError: bool, message: string)

  /** The outcome of a Python call that returns a value or raises. */
  datatype Try<+T> = Ok(value: T) | Raise(exc: PyException)
}
