/** Option, the error taxonomy of the tool, and a Result over it.
    Rust's `anyhow::Result` becomes `Result<T>`; a Rust panic (an `unwrap` on
    `None`/`Err`, or indexing a JSON value that cannot be indexed) becomes
    `Err(Panic(..))`, so that every path of the source has a value here. */
module Wrappers {

  datatype Option<+T> = None | Some(value: T) {
    function GetOr(default: T): T {
      match this
      case Some(v) => v
      case None => default
    }
  }

  /** The error kinds the core can produce. `Context` is `anyhow::Context`:
      a message wrapped around the underlying cause. */
  datatype Error =
    | InvalidOverride
    | UrlParse
    | InvalidHeaderName(name: string)
    | InvalidHeaderValue(value: string)
    | InvalidShape(field: string)
    | UnsupportedContentType
    | Encode
    | BodyDecode
    | BodyRead
    | Transport
    | Panic(reason: string)
    | Context(message: string, cause: Error)

  datatype Result<+T> = Ok(value: T) | Err(error: Error)
}
