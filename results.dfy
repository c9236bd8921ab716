/** Go's error results and nil pointers, as values. An `error` is modelled
    by its message text. */
module Results {

  /** The `(T, error)` pair a Go constructor returns: a value or an error. */
  datatype Result<+T> = Ok(value: T) | Err(error: string)

  /** A step that only reports success or an error (Go: `error`, nil on success). */
  datatype Outcome = Pass | Fail(error: string)

  /** A Go pointer that may be nil. */
  datatype Ref<+T> = Nil | Ref(deref: T)
}
