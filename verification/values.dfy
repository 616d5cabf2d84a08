/** The values that flow through a batch: decoded response bodies, status
    codes, header hashes, and the error objects the client raises or returns. */
module Values {

  /** The error classes a batched call can end up holding. */
  datatype ErrorKind =
    | ClientErrorKind          // Koala::Facebook::ClientError
    | ServerErrorKind          // Koala::Facebook::ServerError
    | AuthenticationErrorKind  // Koala::Facebook::AuthenticationError
    | BadResponseKind          // Koala::Facebook::BadFacebookResponse
    | OtherErrorKind(name: string)

  /** An `APIError` instance: the class, the HTTP status, the raw response
      body and the message it was built with. */
  datatype ApiError = ApiError(kind: ErrorKind, httpStatus: int, responseBody: string, message: string)

  /** A decoded Ruby value. Errors are values too: a per-call failure is
      stored in the result list rather than raised. */
  datatype Value =
    | Nil
    | Bool(b: bool)
    | Int(i: int)
    | Str(s: string)
    | List(items: seq<Value>)
    | Hash(entries: map<string, Value>)
    | Error(error: ApiError)

  /** The error synthesised for a call whose slot stayed empty three times. */
  const NoResponseError := ApiError(ClientErrorKind, 404, "", "No response from FB")

  /** The error raised when the composite response as a whole is empty. */
  const EmptyBodyError := ApiError(BadResponseKind, 200, "", "Facebook returned an empty body")
}
