/** What the HTTP clients see of one request: the response, or the exception `execute()` throws. */
module Http {
  import opened Wrappers

  datatype Exchange =
    | Response(code: int, body: Option<string>)
    | TransportFailure(message: string)

  /** OkHttp `Response.isSuccessful`. */
  predicate IsSuccessful(code: int) {
    200 <= code < 300
  }
}
