/**
 * Values shared by every part of the Melhor Envio client: fixed-width
 * integers, the outcome of a JSON decode, the error taxonomy, and the
 * shape of what goes over the wire (requests as sent, responses as
 * received).
 */
module Wire {

  /** Go's int32 (client ids, `expires_in`, service ids). */
  newtype int32 = x: int | -0x8000_0000 <= x < 0x8000_0000

  datatype Option<+T> = None | Some(value: T)

  /** What `json.Unmarshal` makes of a body: a value, or the error it reports. */
  datatype Decoded<+T> = Decoded(value: T) | Malformed(reason: string)

  /** A field name mapped to the messages the server gave for it. */
  type FieldMessages = map<string, seq<string>>

  /** The body of a typed validation error (`CartError`, `PrintError`, ...). */
  datatype ValidationDetail = ValidationDetail(message: string, errors: FieldMessages)

  datatype Error =
    | ClientNotInitialized                              // ErrClientNotInitialized
    | InvalidToken                                      // ErrInvalidToken
    | Network(reason: string)                           // an error from the HTTP transport
    | Json(reason: string)                              // an error from encoding/json
    | Unrecognized(scope: string, status: int, body: string)
    | Validation(scope: string, detail: ValidationDetail)

  datatype Result<+T> = Ok(value: T) | Err(error: Error)

  /** HTTP status codes the client branches on (Go's net/http names). */
  const StatusOK := 200
  const StatusCreated := 201
  const StatusNoContent := 204
  const StatusBadRequest := 400
  const StatusUnauthorized := 401
  const StatusUnprocessableEntity := 422

  /** The grant sent to the token endpoint; an empty string is a field `omitempty` leaves out. */
  datatype AuthRequest = AuthRequest(
    grantType: string,
    clientId: int32,
    clientSecret: string,
    redirectUri: string,
    code: string,
    refreshToken: string)

  /** The token endpoint's answer to a grant. */
  datatype AuthResponse = AuthResponse(
    tokenType: string,
    expiresIn: int32,
    accessToken: string,
    refreshToken: string)

  /** A request body: nothing, a token grant, or an endpoint payload already encoded as JSON. */
  datatype Body = Empty | GrantBody(grant: AuthRequest) | Encoded(json: string)

  /** A request as the transport saw it when it was sent. */
  datatype Sent = Sent(verb: string, url: string, header: map<string, string>, body: Body)

  datatype Response = Response(status: int, body: string)

  /** What one call of the transport yields: a transport error or a response. */
  datatype Exchange = Failed(reason: string) | Answered(response: Response)

  /**
   * The far side of the transport: the answer to the n-th call (counting
   * from 0 over the transport's life) when it carries the given request.
   */
  type Server = (nat, Sent) -> Exchange
}
