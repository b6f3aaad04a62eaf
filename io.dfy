/**
 * Value types shared by the executor and the TCP endpoints: `std::io::Result`,
 * `std::io::Error` with its `ErrorKind`, `Option` and `std::task::Poll`.
 */
module Io {

  type byte = bv8

  datatype Option<+T> = None | Some(value: T)

  /** `std::task::Poll`: a future either finished with a value or is not done yet. */
  datatype Poll<+T> = Ready(value: T) | Pending

  /**
   * The kinds of `std::io::ErrorKind` the core tells apart. `Os` stands for every
   * other kind a system call can report; the core only ever compares with
   * `WouldBlock`.
   */
  datatype ErrorKind = WouldBlock | Unsupported | Other | Os(code: int)

  datatype IoError = IoError(kind: ErrorKind, message: string)

  /** `std::io::Result<T>`. */
  datatype Result<+T> = Ok(value: T) | Err(error: IoError)

  /** The one error condition that the endpoints turn into a reactor registration. */
  predicate IsWouldBlock(e: IoError) {
    e.kind == WouldBlock
  }
}
