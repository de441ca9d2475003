/**
 * Values shared by every part of the client: optional values and results,
 * bytes, Go's 64-bit integers, Go error values, and the abstract outcome of
 * one HTTP exchange.
 */
module Wire {

  datatype Option<+T> = None | Some(value: T) {
    function GetOr(default: T): T {
      if Some? then value else default
    }
  }

  datatype Result<+T, +E> = Success(value: T) | Failure(error: E)

  newtype byte = x: int | 0 <= x < 256
  type Bytes = seq<byte>

  /** Go's `int` on a 64-bit platform (and `int64`, `time.Duration`). */
  newtype int64 = x: int | -0x8000_0000_0000_0000 <= x < 0x8000_0000_0000_0000

  const TwoTo64: int := 0x1_0000_0000_0000_0000

  /** Two's-complement truncation to 64 bits: what Go's int64 arithmetic yields on overflow. */
  function Wrap64(x: int): (r: int64)
    ensures -0x8000_0000_0000_0000 <= x < 0x8000_0000_0000_0000 ==> r as int == x
    ensures (x - r as int) % TwoTo64 == 0
  {
    ((x + 0x8000_0000_0000_0000) % TwoTo64 - 0x8000_0000_0000_0000) as int64
  }

  /**
   * A Go `error`: its message and, for an error that wraps another one
   * (such as the `*url.Error` the HTTP transport returns), the wrapped cause.
   * A nil error is `None` of `Option<Error>`.
   */
  datatype Error = Error(message: string, cause: Option<Error>)

  /** `errors.New`: an error that wraps nothing. */
  function New(message: string): Error {
    Error(message, None)
  }

  /** `errors.Unwrap`: the wrapped cause, or nil when the error wraps nothing. */
  function Unwrap(e: Error): Option<Error> {
    e.cause
  }

  /**
   * What the transport hands back for one request: either a transport error
   * (the response is then not inspected), or a response with its status code,
   * its body and whether `json.Valid` accepts that body.
   */
  datatype Outcome =
    | TransportFailure(failure: Error)
    | Received(status: int, body: Bytes, validJson: bool)

  /**
   * What `json.Unmarshal` leaves behind when decoding into a zero-valued
   * target: the target as filled (possibly only in part) and the error it
   * returned, if any.
   */
  datatype Unmarshalled<T> = Unmarshalled(target: T, failure: Option<Error>)
}
