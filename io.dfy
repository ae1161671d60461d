/** What the service reads from the outside world: request bodies as bytes, and the errors of reading and decoding them. */
module Io {

  /** A Go `byte`. */
  newtype byte = x: int | 0 <= x < 256

  /** An error from reading an `io.ReadCloser` into a buffer. */
  datatype IoError = IoError(reason: string)

  /** An error reported by `encoding/json` (malformed document, wrong value type, ...). */
  datatype JsonError = JsonError(reason: string)
}
