/** What a registered client may do (internal/broker/client.go). */
module ClientPolicy {
  import opened Wrappers
  import opened Records

  predicate IsPublic(c: Client) {
    c.authMethod == "none"
  }

  predicate AllowsGrant(c: Client, grant: string) {
    if |c.grantTypes| == 0 then grant == "authorization_code" else grant in c.grantTypes
  }

  /** Exact match only. */
  predicate AllowsRedirect(c: Client, uri: string) {
    uri in c.redirectUris
  }

  function ApplicationType(c: Client): string {
    if c.applicationType == "" then "web" else c.applicationType
  }

  predicate WantsRefreshToken(c: Client, scopes: seq<string>) {
    && AllowsGrant(c, "refresh_token")
    && ("offline_access" in scopes || (ApplicationType(c) == "web" && IsPublic(c)))
  }

  // --- dynamic registration ------------------------------------------------

  datatype RegistrationRequest = RegistrationRequest(
    redirectUris: seq<string>,
    clientName: string,
    grantTypes: seq<string>,
    responseTypes: seq<string>,
    authMethod: Option<string>,
    applicationType: string,
    scope: string)

  datatype RegistrationError = InvalidRedirectUri | InvalidClientMetadata

  const AUTH_METHODS := ["client_secret_basic", "client_secret_post", "none"]
  const GRANT_TYPES := ["authorization_code", "refresh_token"]

  function OrDefault(values: seq<string>, fallback: string): seq<string> {
    if |values| == 0 then [fallback] else values
  }

  function RequestedAppType(r: RegistrationRequest): string {
    if r.applicationType == "" then "web" else r.applicationType
  }

  function RequestedAuthMethod(r: RegistrationRequest): string {
    match r.authMethod
    case None => "client_secret_basic"
    case Some(m) => m
  }

  predicate All(values: seq<string>, allowed: seq<string>) {
    forall i :: 0 <= i < |values| ==> values[i] in allowed
  }

  /** The checks of handleRegisterWith, in its order. `validRedirect` is validateRedirectURI. */
  function Refusal(r: RegistrationRequest, validRedirect: (string, string) -> bool): Option<RegistrationError> {
    if |r.redirectUris| == 0 then Some(InvalidRedirectUri)
    else if exists i :: 0 <= i < |r.redirectUris| && !validRedirect(r.redirectUris[i], RequestedAppType(r)) then
      Some(InvalidRedirectUri)
    else if RequestedAuthMethod(r) !in AUTH_METHODS then Some(InvalidClientMetadata)
    else if !All(OrDefault(r.grantTypes, "authorization_code"), GRANT_TYPES) then Some(InvalidClientMetadata)
    else if !All(OrDefault(r.responseTypes, "code"), ["code"]) then Some(InvalidClientMetadata)
    else None
  }

  function NewClient(r: RegistrationRequest, id: string, secret: string, now: int): Client {
    Client(
      id,
      if RequestedAuthMethod(r) != "none" then secret else "",
      r.redirectUris,
      OrDefault(r.grantTypes, "authorization_code"),
      OrDefault(r.responseTypes, "code"),
      RequestedAuthMethod(r),
      RequestedAppType(r),
      r.clientName,
      r.scope,
      Unix(now))
  }

  /** One of the loops that reject a value outside a fixed list. */
  method CheckAll(values: seq<string>, allowed: seq<string>) returns (ok: bool)
    ensures ok <==> All(values, allowed)
  {
    for i := 0 to |values|
      invariant All(values[..i], allowed)
    {
      if values[i] !in allowed {
        return false;
      }
      assert values[..i + 1] == values[..i] + [values[i]];
    }
    assert values[..|values|] == values;
    return true;
  }

  /** The loop over the requested redirect URIs. */
  method CheckRedirects(uris: seq<string>, appType: string, validRedirect: (string, string) -> bool)
    returns (ok: bool)
    ensures ok <==> forall i :: 0 <= i < |uris| ==> validRedirect(uris[i], appType)
  {
    for i := 0 to |uris|
      invariant forall j :: 0 <= j < i ==> validRedirect(uris[j], appType)
    {
      if !validRedirect(uris[i], appType) {
        return false;
      }
    }
    return true;
  }
}
