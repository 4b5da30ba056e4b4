/** The shapes of route results: a JSON body or an error status with its
    message, and what a call to the upstream weather service gave back. */
module Http {
  import opened Wrappers
  import opened JsValue

  /** A route's reply: the body sent with a success status, or the status
      and message of the error the route raises. */
  datatype Response<T> = Ok(value: T) | Fail(status: int, message: string)

  /** A decision taken before the reply is built: go on, or reply with an
      error. */
  datatype Outcome = Proceed | Reject(status: int, message: string)

  /** A call to the weather service: it failed outright, or it answered with
      a `cod` status field, an optional message and the parsed data. */
  datatype Upstream<T> = FetchFailed | Fetched(cod: Value, message: Option<string>, body: T)
}
