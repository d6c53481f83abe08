/**
 What each broker endpoint answers and leaves in the store (internal/broker/broker.go,
 client.go, token.go and admin.go). `id` parameters are the values `randomID` returned,
 `now` is the one instant at which the handler runs, in milliseconds.
 */
module Handlers {
  import opened Wrappers
  import opened Records
  import opened DocumentStore
  import opened ClientPolicy
  import opened TokenPolicy
  import Sessions
  import Text

  function ClientKey(id: string): Key { Key(ClientModel, id) }
  function RefreshKey(id: string): Key { Key(RefreshModel, id) }
  function CodeKey(id: string): Key { Key(CodeModel, id) }
  function RequestKey(id: string): Key { Key(RequestModel, id) }

  // --- clients -------------------------------------------------------------

  function LoadClient(f: Files, id: string, now: int): Option<Client> {
    match Found(f, ClientKey(id), now)
    case Some(ClientDoc(c)) => Some(if c.id == "" then c.(id := id) else c)
    case _ => None
  }

  datatype Credentials = Credentials(id: string, secret: string)

  function Authenticate(f: Files, cred: Credentials, now: int): Option<Client> {
    if cred.id == "" then None
    else
      match LoadClient(f, cred.id, now)
      case None => None
      case Some(c) =>
        if IsPublic(c) || (c.secret != "" && cred.secret == c.secret) then Some(c) else None
  }

  datatype RegisterReply = Refused(error: RegistrationError) | Registered(client: Client, accessToken: string)

  function Register(cfg: Config, f: Files, r: RegistrationRequest, id: string, secret: string, rat: string, now: int)
    : (Files, RegisterReply)
  {
    match Refusal(r, cfg.validRedirect)
    case Some(error) => (f, Refused(error))
    case None =>
      var c := NewClient(r, id, secret, now);
      var f1 := AfterPut(f, ClientKey(id), ClientDoc(c), 0, now);
      (AfterPut(f1, Key(RegistrationModel, rat), RegistrationDoc(id), 0, now), Registered(c, rat))
  }

  // --- authorization -------------------------------------------------------

  datatype AuthorizeQuery = AuthorizeQuery(
    clientId: string,
    redirectUri: string,
    state: string,
    responseType: string,
    challenge: string,
    challengeMethod: string,
    resource: string,
    scope: string,
    nonce: string)

  datatype AuthorizeError = UnsupportedResponseType | UnauthorizedClient | InvalidRequest | InvalidTarget

  /** `Shown` answers stay on the gate; only a registered URI is ever redirected to. */
  datatype AuthorizeReply =
    | Shown
    | SentBack(redirectUri: string, error: AuthorizeError, state: string)
    | Pending(requestId: string)

  function EffectiveRedirect(c: Client, q: AuthorizeQuery): string {
    if q.redirectUri == "" && |c.redirectUris| == 1 then c.redirectUris[0] else q.redirectUri
  }

  function NewRequest(cfg: Config, c: Client, q: AuthorizeQuery): AuthRequest {
    AuthRequest(c.id, EffectiveRedirect(c, q), q.state, RequestScope(cfg, q.scope), q.challenge, q.nonce)
  }

  function Authorize(cfg: Config, f: Files, q: AuthorizeQuery, id: string, now: int): (Files, AuthorizeReply) {
    var f1 := AfterGet(f, ClientKey(q.clientId), now);
    match LoadClient(f, q.clientId, now)
    case None => (f1, Shown)
    case Some(c) =>
      var uri := EffectiveRedirect(c, q);
      if !AllowsRedirect(c, uri) then (f1, Shown)
      else if q.responseType != "code" then (f1, SentBack(uri, UnsupportedResponseType, q.state))
      else if !AllowsGrant(c, "authorization_code") then (f1, SentBack(uri, UnauthorizedClient, q.state))
      else if q.challenge == "" || q.challengeMethod != "S256" then (f1, SentBack(uri, InvalidRequest, q.state))
      else if q.resource != "" && !cfg.validResource(q.resource) then (f1, SentBack(uri, InvalidTarget, q.state))
      else (AfterPut(f1, RequestKey(id), RequestDoc(NewRequest(cfg, c, q)), REQUEST_TTL_MS, now), Pending(id))
  }

  datatype InteractReply = RequestGone | LoginFirst | CodeSent(code: string, redirectUri: string, state: string)

  /** Who the gate's session store says is behind the cookie. */
  function HumanSubject(browsers: Sessions.Table, cookie: string, now: int): string {
    match Sessions.Found(browsers, cookie, now)
    case None => ""
    case Some(session) => session.oidcSub
  }

  function NewCode(r: AuthRequest, subject: string, grant: string): AuthCode {
    AuthCode(r.clientId, r.redirectUri, r.challenge, r.scope, subject, r.nonce, grant)
  }

  function Interact(
    f: Files, uid: string, browsers: Sessions.Table, cookie: string, grant: string, code: string, now: int)
    : (Files, InteractReply)
  {
    var f1 := AfterGet(f, RequestKey(uid), now);
    match Found(f, RequestKey(uid), now)
    case Some(RequestDoc(r)) =>
      var sub := HumanSubject(browsers, cookie, now);
      if sub == "" then (f1, LoginFirst)
      else
        var f2 := AfterPut(f1, CodeKey(code), CodeDoc(NewCode(r, sub, grant)), CODE_TTL_MS, now);
        (AfterDestroy(f2, RequestKey(uid)), CodeSent(code, r.redirectUri, r.state))
    case _ => (f1, RequestGone)
  }

  // --- tokens --------------------------------------------------------------

  datatype TokenResponse = TokenResponse(
    access: AccessClaims,
    expiresIn: int,
    scope: string,
    idToken: Option<IdClaims>,
    refresh: Option<string>)

  datatype Fault =
    | InvalidClient
    | UnsupportedGrantType
    | CodeUnknown | CodeOfOtherClient | RedirectMismatch | BadVerifier
    | TokenUnknown | TokenOfOtherClient | TokenExpired | TokenReused

  /** The error code on the wire. */
  function ErrorCode(fault: Fault): string {
    match fault
    case InvalidClient => "invalid_client"
    case UnsupportedGrantType => "unsupported_grant_type"
    case _ => "invalid_grant"
  }

  datatype TokenReply = Rejected(fault: Fault) | Granted(response: TokenResponse)

  function NewAccess(
    cfg: Config, c: Client, account: string, scopes: seq<string>, jti: string, now: int): AccessClaims {
    AccessClaims(jti, account, Unix(now), Unix(now) + ACCESS_TTL, Text.Join(scopes), c.id, cfg.issuer, cfg.resource)
  }

  /** `access` is the access token issued with it. */
  function NewIdToken(
    cfg: Config, c: Client, account: string, nonce: string, access: AccessClaims, now: int): IdClaims {
    IdClaims(cfg.issuer, account, c.id, Unix(now) + ACCESS_TTL, Unix(now), nonce, cfg.atHash(access))
  }

  function NewRefresh(
    c: Client, account: string, scopes: seq<string>, nonce: string, grant: string, now: int): RefreshToken {
    RefreshToken(c.id, account, Text.Join(scopes), grant, Unix(now), Unix(now) + REFRESH_TTL, Unix(now), 0, 0, nonce,
      "authorization_code")
  }

  /** A refresh token written together with its line in the grant index. */
  function AfterMint(f: Files, rt: RefreshToken, id: string, now: int): Files {
    AfterAddToGrant(AfterPut(f, RefreshKey(id), RefreshDoc(rt), REFRESH_TTL_MS, now), rt.grantId, RefreshKey(id))
  }

  function Issue(
    cfg: Config, f: Files, c: Client, account: string, scopes: seq<string>, nonce: string, grant: string,
    withRefresh: bool, now: int, jti: string, id: string)
    : (Files, TokenResponse)
  {
    var wants := withRefresh && WantsRefreshToken(c, scopes);
    var access := NewAccess(cfg, c, account, scopes, jti, now);
    var response := TokenResponse(
      access,
      ACCESS_TTL,
      Text.Join(scopes),
      if "openid" in scopes then Some(NewIdToken(cfg, c, account, nonce, access, now)) else None,
      if wants then Some(id) else None);
    (if wants then AfterMint(f, NewRefresh(c, account, scopes, nonce, grant, now), id, now) else f, response)
  }

  datatype TokenForm =
    | CodeForm(code: string, redirectUri: string, verifier: string)
    | RefreshForm(presented: string)
    | OtherForm(grantType: string)

  function RedeemCode(
    cfg: Config, f: Files, c: Client, code: string, redirectUri: string, verifier: string,
    now: int, jti: string, id: string)
    : (Files, TokenReply)
  {
    var f1 := AfterClaim(f, CodeKey(code));
    match Found(f, CodeKey(code), now)
    case Some(CodeDoc(a)) =>
      if a.clientId != c.id then (f1, Rejected(CodeOfOtherClient))
      else if redirectUri != a.redirectUri then (f1, Rejected(RedirectMismatch))
      else if !VerifyPKCE(cfg, verifier, a.challenge) then (f1, Rejected(BadVerifier))
      else
        var (f2, response) :=
          Issue(cfg, f1, c, a.accountId, Text.Fields(a.scope), a.nonce, a.grantId, true, now, jti, id);
        (f2, Granted(response))
    case _ => (f1, Rejected(CodeUnknown))
  }

  function Refresh(cfg: Config, f: Files, c: Client, presented: string, now: int, jti: string, id: string)
    : (Files, TokenReply)
  {
    var k := RefreshKey(presented);
    var f1 := AfterClaim(f, k);
    match Found(f, k, now)
    case Some(RefreshDoc(rt)) =>
      if rt.clientId != c.id then (f1, Rejected(TokenOfOtherClient))
      else if rt.exp != 0 && rt.exp <= Unix(now) then (f1, Rejected(TokenExpired))
      else if PastGrace(rt, now) then
        (if rt.grantId != "" then AfterRevokeGrant(f1, rt.grantId) else f1, Rejected(TokenReused))
      else
        var (f2, response) :=
          Issue(cfg, f1, c, rt.accountId, Text.Fields(rt.scope), rt.nonce, rt.grantId, false, now, jti, id);
        if ShouldRotate(c, rt, now) then
          var f3 := AfterMint(f2, Rotated(rt, now), id, now);
          var spent := rt.(consumed := Unix(now));
          (AfterPut(f3, k, RefreshDoc(spent), Remaining(rt.exp, now), now), Granted(response.(refresh := Some(id))))
        else
          (AfterPut(f2, k, RefreshDoc(rt), Remaining(rt.exp, now), now), Granted(response.(refresh := Some(presented))))
    case _ => (f1, Rejected(TokenUnknown))
  }

  function Token(cfg: Config, f: Files, cred: Credentials, form: TokenForm, now: int, jti: string, id: string)
    : (Files, TokenReply)
  {
    var f1 := if cred.id == "" then f else AfterGet(f, ClientKey(cred.id), now);
    match Authenticate(f, cred, now)
    case None => (f1, Rejected(InvalidClient))
    case Some(c) =>
      match form
      case CodeForm(code, redirectUri, verifier) => RedeemCode(cfg, f1, c, code, redirectUri, verifier, now, jti, id)
      case RefreshForm(presented) => Refresh(cfg, f1, c, presented, now, jti, id)
      case OtherForm(_) => (f1, Rejected(UnsupportedGrantType))
  }

  // --- revocation ----------------------------------------------------------

  /** The grant a refresh token value belongs to, when it is live and this client's own. */
  function OwnGrant(f: Files, clientId: string, token: string, now: int): Option<string> {
    match Found(f, RefreshKey(token), now)
    case Some(RefreshDoc(rt)) => if rt.clientId == clientId then Some(rt.grantId) else None
    case _ => None
  }

  /** Shared by the revocation endpoint and the client-deletion loop. */
  function DropToken(f: Files, clientId: string, token: string, now: int): Files {
    var f1 := AfterGet(f, RefreshKey(token), now);
    match OwnGrant(f, clientId, token, now)
    case None => f1
    case Some(grant) =>
      AfterDestroy(if grant != "" then AfterRevokeGrant(f1, grant) else f1, RefreshKey(token))
  }

  /** Section 2 of RFC 7009. False only when the client itself is not accepted. */
  function Revoke(f: Files, cred: Credentials, token: string, now: int): (Files, bool) {
    var f1 := if cred.id == "" then f else AfterGet(f, ClientKey(cred.id), now);
    match Authenticate(f, cred, now)
    case None => (f1, false)
    case Some(c) => (DropToken(f1, c.id, token, now), true)
  }

  /** The loop of revokeClientTokens over the listed ids, in the order listed. */
  function DropTokens(f: Files, clientId: string, ids: seq<string>, now: int): Files
    decreases |ids|
  {
    if ids == [] then f
    else DropToken(DropTokens(f, clientId, ids[..|ids| - 1], now), clientId, ids[|ids| - 1], now)
  }

  ghost predicate Enumerates(ids: seq<string>, all: set<string>) {
    && (forall i, j :: 0 <= i < j < |ids| ==> ids[i] != ids[j])
    && (forall id :: id in ids <==> id in all)
  }

  /** The store in which the deletion loop starts: the client gone, refresh tokens listed. */
  function ClientGone(f: Files, id: string, now: int): Files {
    AfterDestroy(AfterGet(f, ClientKey(id), now), ClientKey(id))
  }

  /** `order` is the order in which the directory listing happened to come back. */
  function DeleteClient(f: Files, id: string, order: seq<string>, now: int): (Files, bool) {
    match LoadClient(f, id, now)
    case None => (AfterGet(f, ClientKey(id), now), false)
    case Some(_) =>
      (DropTokens(Cleaned(ClientGone(f, id, now), [RefreshModel], now), id, order, now), true)
  }
}
