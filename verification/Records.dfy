/**
 The documents the broker keeps on disk. Times are whole seconds since the epoch in
 the records themselves and whole milliseconds in the envelope around them.
 */
module Records {
  import opened Wrappers

  datatype Client = Client(
    id: string,
    secret: string,
    redirectUris: seq<string>,
    grantTypes: seq<string>,
    responseTypes: seq<string>,
    authMethod: string,
    applicationType: string,
    name: string,
    scope: string,
    issuedAt: int)

  /** A validated authorization request waiting for a human. */
  datatype AuthRequest = AuthRequest(
    clientId: string,
    redirectUri: string,
    state: string,
    scope: string,
    challenge: string,
    nonce: string)

  /** A single-use authorization code. */
  datatype AuthCode = AuthCode(
    clientId: string,
    redirectUri: string,
    challenge: string,
    scope: string,
    accountId: string,
    nonce: string,
    grantId: string)

  /** `iiat` is when the grant's first refresh token was issued; `consumed` is 0 while unused. */
  datatype RefreshToken = RefreshToken(
    clientId: string,
    accountId: string,
    scope: string,
    grantId: string,
    iat: int,
    exp: int,
    iiat: int,
    rotations: int,
    consumed: int,
    nonce: string,
    gty: string)

  // --- what the broker signs ---------------------------------------------------

  datatype AccessClaims = AccessClaims(
    jti: string, sub: string, iat: int, exp: int, scope: string, clientId: string, iss: string, aud: string)

  datatype IdClaims = IdClaims(
    iss: string, sub: string, aud: string, exp: int, iat: int, nonce: string, atHash: string)

  // --- what it stores ----------------------------------------------------------

  datatype Payload =
    | ClientDoc(client: Client)
    | RequestDoc(request: AuthRequest)
    | CodeDoc(code: AuthCode)
    | RefreshDoc(token: RefreshToken)
    | RegistrationDoc(clientId: string)

  datatype Model = ClientModel | RefreshModel | CodeModel | RequestModel | RegistrationModel

  datatype Key = Key(model: Model, id: string)

  /** The envelope; `expiresAt` is 0 for a document that never expires. */
  datatype Document = Document(payload: Payload, expiresAt: int)

  // --- browser sessions ----------------------------------------------------

  datatype Claims = Claims(sub: string, user: string, email: string, name: string, groups: seq<string>)

  /** One logged-in browser; `expires` is in milliseconds. */
  datatype Session = Session(
    expires: int,
    passwordHash: string,
    oidcSub: string,
    claims: Option<Claims>,
    idToken: string,
    oidcSid: string)

  /** `time.Time.Unix` for a clock kept in milliseconds. */
  function Unix(ms: int): int {
    ms / 1000
  }
}
