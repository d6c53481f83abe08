/**
 The broker's endpoints as they run: each method claims, writes and destroys documents
 one after another and is proved to answer and to leave the store as `Handlers` says.
 */
module Server {
  import opened Wrappers
  import opened Records
  import opened DocumentStore
  import opened ClientPolicy
  import opened TokenPolicy
  import Handlers
  import Sessions
  import Text

  class Server {
    const cfg: Config
    const store: FileStore
    const sessions: Sessions.Store

    constructor (cfg: Config, store: FileStore, sessions: Sessions.Store)
      ensures this.cfg == cfg && this.store == store && this.sessions == sessions
    {
      this.cfg := cfg;
      this.store := store;
      this.sessions := sessions;
    }

    method LoadClient(id: string, now: int) returns (c: Option<Client>)
      requires store.Valid()
      modifies store`docs, store`grants
      ensures store.Valid()
      ensures c == Handlers.LoadClient(old(store.Contents()), id, now)
      ensures store.Contents() == AfterGet(old(store.Contents()), Handlers.ClientKey(id), now)
    {
      var found := store.Get(Handlers.ClientKey(id), now);
      match found {
        case Some(ClientDoc(client)) =>
          if client.id == "" {
            client := client.(id := id);
          }
          return Some(client);
        case _ =>
          return None;
      }
    }

    method AuthenticateClient(cred: Handlers.Credentials, now: int) returns (c: Option<Client>)
      requires store.Valid()
      modifies store`docs, store`grants
      ensures store.Valid()
      ensures c == Handlers.Authenticate(old(store.Contents()), cred, now)
      ensures store.Contents() ==
        if cred.id == "" then old(store.Contents())
        else AfterGet(old(store.Contents()), Handlers.ClientKey(cred.id), now)
    {
      if cred.id == "" {
        return None;
      }
      c := LoadClient(cred.id, now);
      if c.None? || IsPublic(c.value) {
        return;
      }
      if c.value.secret == "" || cred.secret != c.value.secret {
        return None;
      }
    }

    method HandleRegisterWith(r: RegistrationRequest, id: string, secret: string, rat: string, now: int)
      returns (reply: Handlers.RegisterReply)
      requires store.Valid() && Minted(id) && Minted(rat)
      modifies store`docs, store`grants
      ensures store.Valid()
      ensures (store.Contents(), reply) == Handlers.Register(cfg, old(store.Contents()), r, id, secret, rat, now)
    {
      if |r.redirectUris| == 0 {
        return Handlers.Refused(InvalidRedirectUri);
      }
      var appType := RequestedAppType(r);
      var urisOk := CheckRedirects(r.redirectUris, appType, cfg.validRedirect);
      if !urisOk {
        return Handlers.Refused(InvalidRedirectUri);
      }
      var authMethod := RequestedAuthMethod(r);
      if authMethod !in AUTH_METHODS {
        return Handlers.Refused(InvalidClientMetadata);
      }
      var grants := OrDefault(r.grantTypes, "authorization_code");
      var grantsOk := CheckAll(grants, GRANT_TYPES);
      if !grantsOk {
        return Handlers.Refused(InvalidClientMetadata);
      }
      var responses := OrDefault(r.responseTypes, "code");
      var responsesOk := CheckAll(responses, ["code"]);
      if !responsesOk {
        return Handlers.Refused(InvalidClientMetadata);
      }
      var c := Client(id, "", r.redirectUris, grants, responses, authMethod, appType, r.clientName, r.scope, Unix(now));
      if authMethod != "none" {
        c := c.(secret := secret);
      }
      store.Put(Handlers.ClientKey(id), ClientDoc(c), 0, now);
      store.Put(Key(RegistrationModel, rat), RegistrationDoc(id), 0, now);
      return Handlers.Registered(c, rat);
    }

    method HandleAuthorize(q: Handlers.AuthorizeQuery, id: string, now: int) returns (reply: Handlers.AuthorizeReply)
      requires store.Valid() && Minted(id)
      modifies store`docs, store`grants
      ensures store.Valid()
      ensures (store.Contents(), reply) == Handlers.Authorize(cfg, old(store.Contents()), q, id, now)
    {
      var client := LoadClient(q.clientId, now);
      if client.None? {
        return Handlers.Shown;
      }
      var c := client.value;
      var uri := q.redirectUri;
      if uri == "" && |c.redirectUris| == 1 {
        uri := c.redirectUris[0];
      }
      if !AllowsRedirect(c, uri) {
        return Handlers.Shown;
      }
      if q.responseType != "code" {
        return Handlers.SentBack(uri, Handlers.UnsupportedResponseType, q.state);
      }
      if !AllowsGrant(c, "authorization_code") {
        return Handlers.SentBack(uri, Handlers.UnauthorizedClient, q.state);
      }
      if q.challenge == "" {
        return Handlers.SentBack(uri, Handlers.InvalidRequest, q.state);
      }
      if q.challengeMethod != "S256" {
        return Handlers.SentBack(uri, Handlers.InvalidRequest, q.state);
      }
      if q.resource != "" && !cfg.validResource(q.resource) {
        return Handlers.SentBack(uri, Handlers.InvalidTarget, q.state);
      }
      var scopes := SelectScopes(cfg, q.scope);
      var request := AuthRequest(c.id, uri, q.state, Text.Join(scopes), q.challenge, q.nonce);
      store.Put(Handlers.RequestKey(id), RequestDoc(request), REQUEST_TTL_MS, now);
      return Handlers.Pending(id);
    }

    /** The OIDC subject of the browser's session, empty without one. */
    method HumanSubject(cookie: string, now: int) returns (sub: string)
      requires sessions.Valid()
      modifies sessions
      ensures sessions.Valid() && sub == Handlers.HumanSubject(old(sessions.sessions), cookie, now)
      ensures sessions.sessions == Sessions.AfterGet(old(sessions.sessions), cookie, now)
    {
      var found := sessions.Get(cookie, now);
      if found.None? {
        return "";
      }
      return found.value.oidcSub;
    }

    method HandleInteraction(uid: string, cookie: string, grant: string, code: string, now: int)
      returns (reply: Handlers.InteractReply)
      requires store.Valid() && sessions.Valid() && Minted(code)
      modifies store`docs, store`grants, sessions
      ensures store.Valid() && sessions.Valid()
      ensures (store.Contents(), reply) ==
        Handlers.Interact(old(store.Contents()), uid, old(sessions.sessions), cookie, grant, code, now)
      ensures reply.RequestGone? ==> sessions.sessions == old(sessions.sessions)
      ensures !reply.RequestGone? ==> sessions.sessions == Sessions.AfterGet(old(sessions.sessions), cookie, now)
    {
      var found := store.Get(Handlers.RequestKey(uid), now);
      match found {
        case Some(RequestDoc(r)) =>
          var sub := HumanSubject(cookie, now);
          if sub == "" {
            return Handlers.LoginFirst;
          }
          store.Put(Handlers.CodeKey(code), CodeDoc(Handlers.NewCode(r, sub, grant)), CODE_TTL_MS, now);
          store.Destroy(Handlers.RequestKey(uid));
          return Handlers.CodeSent(code, r.redirectUri, r.state);
        case _ =>
          return Handlers.RequestGone;
      }
    }

    method Issue(
      c: Client, account: string, scopes: seq<string>, nonce: string, grant: string, withRefresh: bool,
      now: int, jti: string, id: string)
      returns (response: Handlers.TokenResponse)
      requires store.Valid() && Minted(id)
      modifies store`docs, store`grants
      ensures store.Valid()
      ensures (store.Contents(), response) ==
        Handlers.Issue(cfg, old(store.Contents()), c, account, scopes, nonce, grant, withRefresh, now, jti, id)
    {
      var access := Handlers.NewAccess(cfg, c, account, scopes, jti, now);
      response := Handlers.TokenResponse(access, ACCESS_TTL, Text.Join(scopes), None, None);
      if "openid" in scopes {
        response := response.(idToken := Some(Handlers.NewIdToken(cfg, c, account, nonce, access, now)));
      }
      if withRefresh && WantsRefreshToken(c, scopes) {
        var rt := Handlers.NewRefresh(c, account, scopes, nonce, grant, now);
        store.Put(Handlers.RefreshKey(id), RefreshDoc(rt), REFRESH_TTL_MS, now);
        store.AddToGrant(grant, Handlers.RefreshKey(id));
        response := response.(refresh := Some(id));
      }
    }

    method GrantAuthorizationCode(
      c: Client, code: string, redirectUri: string, verifier: string, now: int, jti: string, id: string)
      returns (reply: Handlers.TokenReply)
      requires store.Valid() && Minted(id)
      modifies store`docs, store`grants
      ensures store.Valid()
      ensures (store.Contents(), reply) ==
        Handlers.RedeemCode(cfg, old(store.Contents()), c, code, redirectUri, verifier, now, jti, id)
    {
      var claimed := store.Claim(Handlers.CodeKey(code), now);
      match claimed {
        case Some(CodeDoc(a)) =>
          if a.clientId != c.id {
            return Handlers.Rejected(Handlers.CodeOfOtherClient);
          }
          if redirectUri != a.redirectUri {
            return Handlers.Rejected(Handlers.RedirectMismatch);
          }
          if !VerifyPKCE(cfg, verifier, a.challenge) {
            return Handlers.Rejected(Handlers.BadVerifier);
          }
          var response := Issue(c, a.accountId, Text.Fields(a.scope), a.nonce, a.grantId, true, now, jti, id);
          return Handlers.Granted(response);
        case _ =>
          return Handlers.Rejected(Handlers.CodeUnknown);
      }
    }

    /** Stores and lists the successor, then puts the presented token back as consumed. */
    method Rotate(presented: string, token: RefreshToken, now: int, id: string)
      requires store.Valid() && Minted(id) && Minted(presented)
      modifies store`docs, store`grants
      ensures store.Valid()
      ensures store.Contents() ==
        AfterPut(Handlers.AfterMint(old(store.Contents()), Rotated(token, now), id, now),
          Handlers.RefreshKey(presented),
                 RefreshDoc(token.(consumed := Unix(now))), Remaining(token.exp, now), now)
    {
      var rt, next := token, token;
      next := next.(rotations := next.rotations + 1);
      next := next.(iat := Unix(now));
      next := next.(exp := Unix(now) + REFRESH_TTL);
      next := next.(consumed := 0);
      store.Put(Handlers.RefreshKey(id), RefreshDoc(next), REFRESH_TTL_MS, now);
      store.AddToGrant(next.grantId, Handlers.RefreshKey(id));
      rt := rt.(consumed := Unix(now));
      store.Put(Handlers.RefreshKey(presented), RefreshDoc(rt), Remaining(rt.exp, now), now);
    }

    method GrantRefreshToken(c: Client, presented: string, now: int, jti: string, id: string)
      returns (reply: Handlers.TokenReply)
      requires store.Valid() && Minted(id)
      modifies store`docs, store`grants
      ensures store.Valid()
      ensures (store.Contents(), reply) == Handlers.Refresh(cfg, old(store.Contents()), c, presented, now, jti, id)
    {
      var k := Handlers.RefreshKey(presented);
      assert presented != "" && k in store.docs ==> Minted(k.id);
      var claimed := store.Claim(k, now);
      match claimed {
        case Some(RefreshDoc(token)) =>
          var rt := token;
          if rt.clientId != c.id {
            return Handlers.Rejected(Handlers.TokenOfOtherClient);
          }
          if rt.exp != 0 && rt.exp <= Unix(now) {
            return Handlers.Rejected(Handlers.TokenExpired);
          }
          if rt.consumed != 0 {
            if now - rt.consumed * 1000 > GRACE * 1000 {
              if rt.grantId != "" {
                var n := store.RevokeGrant(rt.grantId);
              }
              return Handlers.Rejected(Handlers.TokenReused);
            }
          }
          var rotate := ShouldRotate(c, rt, now);
          var response := Issue(c, rt.accountId, Text.Fields(rt.scope), rt.nonce, rt.grantId, false, now, jti, id);
          if rotate {
            Rotate(presented, rt, now, id);
            response := response.(refresh := Some(id));
          } else {
            store.Put(k, RefreshDoc(rt), Remaining(rt.exp, now), now);
            response := response.(refresh := Some(presented));
          }
          return Handlers.Granted(response);
        case _ =>
          return Handlers.Rejected(Handlers.TokenUnknown);
      }
    }

    method HandleToken(cred: Handlers.Credentials, form: Handlers.TokenForm, now: int, jti: string, id: string)
      returns (reply: Handlers.TokenReply)
      requires store.Valid() && Minted(id)
      modifies store`docs, store`grants
      ensures store.Valid()
      ensures (store.Contents(), reply) == Handlers.Token(cfg, old(store.Contents()), cred, form, now, jti, id)
    {
      var client := AuthenticateClient(cred, now);
      if client.None? {
        return Handlers.Rejected(Handlers.InvalidClient);
      }
      match form {
        case CodeForm(code, redirectUri, verifier) =>
          reply := GrantAuthorizationCode(client.value, code, redirectUri, verifier, now, jti, id);
        case RefreshForm(presented) =>
          reply := GrantRefreshToken(client.value, presented, now, jti, id);
        case OtherForm(_) =>
          reply := Handlers.Rejected(Handlers.UnsupportedGrantType);
      }
    }

    /** One refresh token of this client: its whole grant goes, then the token itself. */
    method DropToken(clientId: string, token: string, now: int)
      requires store.Valid()
      modifies store`docs, store`grants
      ensures store.Valid()
      ensures store.Contents() == Handlers.DropToken(old(store.Contents()), clientId, token, now)
    {
      var found := store.Get(Handlers.RefreshKey(token), now);
      match found {
        case Some(RefreshDoc(rt)) =>
          if rt.clientId == clientId {
            if rt.grantId != "" {
              var n := store.RevokeGrant(rt.grantId);
            }
            store.Destroy(Handlers.RefreshKey(token));
          }
        case _ =>
      }
    }

    method HandleRevocation(cred: Handlers.Credentials, token: string, now: int) returns (ok: bool)
      requires store.Valid()
      modifies store`docs, store`grants
      ensures store.Valid()
      ensures (store.Contents(), ok) == Handlers.Revoke(old(store.Contents()), cred, token, now)
    {
      var client := AuthenticateClient(cred, now);
      if client.None? {
        return false;
      }
      DropToken(client.value.id, token, now);
      return true;
    }

    method RevokeClientTokens(clientId: string, now: int) returns (ghost order: seq<string>)
      requires store.Valid()
      modifies store`docs, store`grants
      ensures store.Valid()
      ensures Handlers.Enumerates(order, LiveIds(old(store.Contents()), RefreshModel, now))
      ensures store.Contents() ==
        Handlers.DropTokens(Cleaned(old(store.Contents()), [RefreshModel], now), clientId, order, now)
    {
      var ids := store.List(RefreshModel, now);
      ghost var f := store.Contents();
      for i := 0 to |ids|
        invariant store.Valid()
        invariant store.Contents() == Handlers.DropTokens(f, clientId, ids[..i], now)
      {
        DropToken(clientId, ids[i], now);
        assert ids[..i + 1][..i] == ids[..i];
      }
      assert ids[..|ids|] == ids;
      order := ids;
    }

    method HandleDeleteClient(id: string, now: int) returns (ok: bool, ghost order: seq<string>)
      requires store.Valid()
      modifies store`docs, store`grants
      ensures store.Valid()
      ensures ok ==>
        Handlers.Enumerates(order, LiveIds(Handlers.ClientGone(old(store.Contents()), id, now), RefreshModel, now))
      ensures (store.Contents(), ok) == Handlers.DeleteClient(old(store.Contents()), id, order, now)
    {
      order := [];
      var client := LoadClient(id, now);
      if client.None? {
        return false, order;
      }
      store.Destroy(Handlers.ClientKey(id));
      order := RevokeClientTokens(id, now);
      return true, order;
    }
  }
}
