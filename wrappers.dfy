/** Go's two ways of reporting absence and failure, as values.
    - Nilable<T>: a Go pointer or interface that may be nil.
    - Result<T>: the conventional (value, error) return, where exactly one of
      the two is meaningful.
    - Error: an opaque Go `error` value; only its identity matters. */
module Wrappers {

  /** An opaque Go `error`; its text stands for its identity. */
  datatype Error = Error(text: string)

  /** A Go value that may be nil: a pointer, an interface or an error. */
  datatype Nilable<+T> = Nil | NonNil(value: T)

  /** A Go `(T, error)` return where the error decides which half is used. */
  datatype Result<+T> = Ok(value: T) | Err(error: Error)
}
