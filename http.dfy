/** The HTTP vocabulary the handlers share: status codes, the caller's
    authenticated claims and a response. */
module Http {

  const StatusOK: int := 200
  const StatusBadRequest: int := 400
  const StatusUnauthorized: int := 401
  const StatusConflict: int := 409
  const StatusInternalServerError: int := 500
  const StatusBadGateway: int := 502
  const StatusServiceUnavailable: int := 503

  /** The verified token's claims that the authentication middleware puts
      in the request context; only the subject (the user id) is used. */
  datatype Claims = Claims(subject: string)

  /** A response: its status code and its JSON body. */
  datatype Response<B> = Response(status: int, body: B)
}
