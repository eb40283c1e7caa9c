// The HTTP errors endpoints and dependencies raise (`HTTPException`).
module Http {

  const BadRequest: int := 400
  const Unauthorized: int := 401
  const Forbidden: int := 403
  const NotFound: int := 404
  const TooManyRequests: int := 429
  const InternalServerError: int := 500
  const ServiceUnavailable: int := 503

  /** Status, detail, and whether the response carries `WWW-Authenticate: Bearer`. */
  datatype HttpError = HttpError(status: int, detail: string, bearerChallenge: bool)

  function Fail(status: int, detail: string): HttpError {
    HttpError(status, detail, false)
  }

  /** An error the endpoint does not catch, or a reply that fails its response model: FastAPI answers 500. */
  const Unhandled: HttpError := Fail(InternalServerError, "Internal Server Error")
}
