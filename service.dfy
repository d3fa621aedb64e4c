/**
 * The shapes of the service's answers (`network/ApiService.kt`), abstracted
 * from Retrofit: a response with its HTTP verdict and parsed body, or the
 * exception the call raised.
 */
module Service {
  import opened Common

  /** A Retrofit response: the HTTP verdict, the status text `message()` and the parsed body. */
  datatype Response<B> = Response(isSuccessful: bool, statusMessage: string, body: Option<B>)

  /** What one service call produced: a response, or an exception with its (nullable) message. */
  datatype Exchange<B> = Completed(response: Response<B>) | Raised(cause: Option<string>)

  /** The `{code, message, data}` envelope of every answer. */
  datatype Envelope<D> = Envelope(code: int, message: string, data: D)

  /** The HTTP call succeeded and a body was parsed. */
  predicate Delivered<D>(x: Exchange<Envelope<D>>) {
    x.Completed? && x.response.isSuccessful && x.response.body.Some?
  }

  /** Delivered, and the body's code is 200. */
  predicate Accepted<D>(x: Exchange<Envelope<D>>) {
    Delivered(x) && x.response.body.value.code == 200
  }

  /** An answer from the server with the HTTP call succeeded. */
  function Answer<D>(code: int, message: string, data: D): Exchange<Envelope<D>> {
    Completed(Response(true, "OK", Some(Envelope(code, message, data))))
  }
}
