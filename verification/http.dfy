/** How the client sees a settled backend call: a returned body, or the
    error axios throws (for a non-2xx status or a transport failure). */
module Http {
  import opened JsValues

  /** A thrown axios error: the status and JSON body when a response arrived
      (`error.response`), and the error's own `message`. */
  datatype ApiError = ApiError(status: Option<int>, data: Option<Object>, message: Value)

  /** The settled result of an awaited call. */
  datatype Reply<+B> = Returned(body: B) | Threw(error: ApiError)

  /** `error.response?.status === 401`. */
  predicate Unauthorized(e: ApiError) {
    e.status == Some(401)
  }
}
