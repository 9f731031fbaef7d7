/** What a client-side `fetch` can come back with, as the handlers see it. */
module Http {
  /**
   * The outcome of one request and of reading its JSON body: a parsed body of
   * an ok response, a response whose status is not ok, or an error thrown by
   * `fetch` or by `response.json()`, with its message.
   */
  datatype Response<T> = Success(body: T) | HttpError(status: int) | NetworkError(message: string)
}
