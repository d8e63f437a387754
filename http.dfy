/** The HTTP error responses the ledger raises (FastAPI `HTTPException`s). */
module Http {

  /**
   * The status code, the `detail` text, and whether the response carries the
   * `WWW-Authenticate: Bearer` challenge header of section 3 of RFC 6750.
   */
  datatype HttpError = HttpError(status: nat, detail: string, bearerChallenge: bool)

  /** An exception no handler catches, such as an `AttributeError`. */
  const InternalServerError := HttpError(500, "Internal Server Error", false)
}
