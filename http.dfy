/** The ways a handler ends other than with its normal result. */
module Http {
  import opened Codec

  const StatusNotFound := 404

  /** The detail text of a 401. */
  datatype Detail =
    | IncorrectCredentials                           // "Incorrect username or password"
    | InvalidTokenType(current: Value, expected: string)  // "Invalid token type <current> expected <expected>"
    | InvalidToken                                   // "Invalid token error"
    | NotAuthenticated                               // "Not authenticated"

  /** An exception that escapes a handler; the framework answers 500. */
  datatype Exception =
    | KeyError(key: string)
    | InvalidTokenError(reason: DecodeError)
    | AttributeError(name: string)

  datatype Failure =
    | Unauthorized(detail: Detail, bearerChallenge: bool)  // HTTPException 401, with or without `WWW-Authenticate: Bearer`
    | ErrorResponse(status: int)                           // a plain Response returned with this status
    | Uncaught(exception: Exception)

  /**
    What a storage-error branch ends with. The handlers build
    `Response(content={...}, status_code=500)`; the response class renders
    its content by calling `encode` on it, which a dict does not have, so
    building the response raises and the exception leaves the handler.
  */
  const StorageErrorRaised: Failure := Uncaught(AttributeError("encode"))
}
