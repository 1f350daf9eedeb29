/** The HTTP status codes the server library uses, inlined as integer
    literals (the values of `java.net.HttpURLConnection`'s constants), and
    the status classes of section 15 of RFC 9110. */
module HttpStatus {

  const Ok: int := 200
  const BadRequest: int := 400
  const Unauthorized: int := 401
  const Forbidden: int := 403
  const NotFound: int := 404

  /** A 2xx code: the request succeeded, as far as the transport is concerned. */
  predicate IsSuccess(code: int) {
    200 <= code < 300
  }

  /** A 4xx code: the client made an error. */
  predicate IsClientError(code: int) {
    400 <= code < 500
  }
}
