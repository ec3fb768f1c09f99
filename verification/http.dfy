/** The outcome of one HTTP exchange, as the adapters and tools see it.
    Sending, receiving and decoding are not modelled: each caller receives
    the outcome from a transport function given to it as a parameter. */
module Http {
  import opened Basics
  import Text

  /** One call to `PostAsJsonAsync`/`GetAsync`/`PostAsync`:
      - `RequestFailed`: the call threw an `HttpRequestException`
        (connection refused, name resolution, ...);
      - `Aborted`: it threw anything else (a timeout or a cancellation);
      - `Responded`: a status line arrived, with the body as `B`. */
  datatype Exchange<B> =
    | RequestFailed(message: string)
    | Aborted(message: string)
    | Responded(status: int, reason: string, body: B)

  /** Reading a JSON body into a typed record (`ReadFromJsonAsync`): the
      body is malformed (a `JsonException`), the literal `null`, or a record. */
  datatype Decoded<R> = Malformed(message: string) | NullBody | Body(value: R)

  /** What escapes an exchange: an `HttpRequestException`, which the
      provider adapters wrap, or any other exception, which they do not. */
  datatype Fault = HttpFault(message: string) | OtherFault(message: string) {
    function Message(): string {
      match this
      case HttpFault(m) => m
      case OtherFault(m) => m
    }
  }

  /** The status codes `EnsureSuccessStatusCode` accepts. */
  predicate IsSuccessStatus(status: int) {
    200 <= status <= 299
  }

  /** The message of the `HttpRequestException` thrown by
      `EnsureSuccessStatusCode`. */
  function NotSuccessMessage(status: int, reason: string): string {
    "Response status code does not indicate success: " + Text.IntToString(status) + " (" + reason + ")."
  }

  /** An exchange followed by `EnsureSuccessStatusCode`: the body is
      available exactly when a success status arrived; a non-success status
      and a failed request both surface as `HttpRequestException`s. */
  function EnsureSuccess<B>(ex: Exchange<B>): (r: Result<B, Fault>)
    ensures r.Success? <==> ex.Responded? && IsSuccessStatus(ex.status)
    ensures r.Success? ==> r.value == ex.body
    ensures ex.RequestFailed? ==> r == Failure(HttpFault(ex.message))
    ensures ex.Aborted? ==> r == Failure(OtherFault(ex.message))
    ensures ex.Responded? && !IsSuccessStatus(ex.status) ==>
              r == Failure(HttpFault(NotSuccessMessage(ex.status, ex.reason)))
  {
    match ex
    case RequestFailed(m) => Failure(HttpFault(m))
    case Aborted(m) => Failure(OtherFault(m))
    case Responded(status, reason, body) =>
      if IsSuccessStatus(status) then Success(body)
      else Failure(HttpFault(NotSuccessMessage(status, reason)))
  }
}
