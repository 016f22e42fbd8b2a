/** Values shared by every part of the LibrePush model. */
module Common {

  datatype Option<T> = None | Some(value: T)

  /** An exception raised by one of the two remote clients (the glucose cloud
      client or the push-notification client). The Python code tells an
      HTTP error apart from every other exception. An HTTP error normally
      carries the response and its status code; `None` is an HTTP error
      raised without a response, whose status the handlers cannot read. */
  datatype Fault = HttpError(status: Option<int>) | OtherError

  /** The HTTP status that signals rate limiting. */
  const RateLimitStatus := 429

  /** Reading `response.status_code` of this fault raises an
      `AttributeError` inside the handler. */
  predicate HasNoResponse(f: Fault) {
    f.HttpError? && f.status.None?
  }

  predicate IsRateLimited(f: Fault) {
    f.HttpError? && f.status == Some(RateLimitStatus)
  }
}
