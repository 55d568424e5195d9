/** Optional values, results, and the error reports the program propagates with `?`. */
module Wrappers {

  datatype Option<+T> = None | Some(value: T)

  datatype Result<+T, +E> = Ok(value: T) | Err(error: E)

  /** The result of an operation that yields nothing on success (`Result<()>`). */
  datatype Outcome<+E> = Pass | Fail(error: E)

  /** An error report as the `eyre` crate builds it: a root message under zero or more
      layers of context. A panic (an `unwrap` on an error) is not a report: it unwinds
      the whole program and no caller can add context to it. */
  datatype Error =
    | Root(message: string)
    | Wrapped(context: string, cause: Error)
    | Panic(message: string)

  /** `wrap_err`: puts a layer of context around a report; a panic passes through unchanged. */
  function WrapErr(e: Error, context: string): Error
  {
    if e.Panic? then e else Wrapped(context, e)
  }

  /** What one HTTP exchange yields. `send()` fails only when the request cannot be
      delivered; an HTTP error status still counts as a delivered response, whose body
      either decodes to a `T` or does not (with the decoder's reason). */
  datatype Reply<+T> = SendFailed(reason: string) | Received(body: Result<T, string>)
}
