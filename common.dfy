/** Small failure-carrying datatypes shared by the backend and frontend models. */
module Common {

  /** A value that may be absent (Python `None`, JavaScript `undefined`). */
  datatype Option<+T> = None | Some(value: T)

  /** The outcome of a validation step: a value, or an error payload. */
  datatype Result<+T, +E> = Success(value: T) | Failure(error: E)

  /** How a browser `fetch` settles, as the frontend observes it:
      a 2xx response with its decoded body, a non-2xx response with its
      decoded body, or a rejected promise (network failure or a body that
      is not JSON). */
  datatype Fetch<+T, +E> = Ok(body: T) | Rejected(reason: E) | NetworkFail
}
