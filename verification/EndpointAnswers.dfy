/**
 What each endpoint answers in a reachable state, told from the request and from what happened
 before: who registered, what was authorized, by whom and when. Times are spelled out.
 */
module EndpointAnswers {
  import opened Wrappers
  import opened Records
  import opened DocumentStore
  import opened ClientPolicy
  import opened TokenPolicy
  import opened Handlers
  import opened BrokerRuns
  import opened BrokerInvariant
  import opened BrokerSteps
  import opened BrokerTheorems
  import opened KeptDocuments
  import Sessions
  import Text

  lemma ReachableKeeps(cfg: Config, w: World)
    requires Reachable(cfg, w)
    ensures Inv(cfg, w) && DocumentsKept(w) && AllWell(cfg, w)
  {
    var w0, actions :| Initial(w0) && Runnable(cfg, w0, actions) && w == Run(cfg, w0, actions);
    InitialInv(cfg, w0);
    RunKeeps(cfg, w0, actions);
    RunKeepsDocuments(cfg, w0, actions);
    RunKeepsWell(cfg, w0, actions);
  }

  // --- clients -------------------------------------------------------------------

  /**
   Credentials are good exactly if they name a client that registered and was not deleted, and,
   unless it registered as public, carry the secret its registration returned.
   */
  lemma AuthenticatesExactly(cfg: Config, w: World, cred: Credentials)
    requires Reachable(cfg, w)
    ensures Authenticate(w.files, cred, w.now).Some? <==>
      && cred.id in w.h.clients && cred.id !in w.h.deleted
      && (w.h.clients[cred.id].authMethod == "none" || cred.secret == w.h.clients[cred.id].secret)
    ensures Authenticate(w.files, cred, w.now).Some? ==>
      Authenticate(w.files, cred, w.now).value == w.h.clients[cred.id]
  {
    ReachableKeeps(cfg, w);
    AuthenticatedFacts(cfg, w, cred);
    ClientFacts(cfg, w, cred.id);
    if cred.id in w.h.clients && cred.id !in w.h.deleted {
      assert ClientKept(w, cred.id);
      StoredIsUsed(cfg, w, ClientKey(cred.id));
      assert WellRegistered(cfg, w.h.clients[cred.id]);
    }
  }

  /** Every client of the broker looks as the registration endpoint demands. */
  lemma EveryClientIsWellRegistered(cfg: Config, w: World, id: string)
    requires Reachable(cfg, w) && id in w.h.clients
    ensures
      var c := w.h.clients[id];
      && c.id == id && c.redirectUris != []
      && (forall i :: 0 <= i < |c.redirectUris| ==> cfg.validRedirect(c.redirectUris[i], c.applicationType))
      && (c.authMethod == "none" || c.authMethod == "client_secret_basic" || c.authMethod == "client_secret_post")
      && (c.authMethod == "none" <==> c.secret == "")
      && (forall g :: g in c.grantTypes ==> g == "authorization_code" || g == "refresh_token")
  {
    ReachableKeeps(cfg, w);
    assert WellRegistered(cfg, w.h.clients[id]);
  }

  /**
   A registration succeeds exactly with at least one redirect URI, only valid ones, and no
   authentication method, grant type or response type outside those the broker knows.
   */
  lemma RegistersExactly(
    cfg: Config, f: Files, r: RegistrationRequest, id: string, secret: string, rat: string, now: int)
    ensures
      var reply := Register(cfg, f, r, id, secret, rat, now).1;
      var appType := if r.applicationType == "" then "web" else r.applicationType;
      var urisOk := |r.redirectUris| > 0 && forall uri :: uri in r.redirectUris ==> cfg.validRedirect(uri, appType);
      && (reply.Registered? <==>
           && urisOk
           && (r.authMethod.None? || r.authMethod.value == "client_secret_basic"
               || r.authMethod.value == "client_secret_post" || r.authMethod.value == "none")
           && (forall g :: g in r.grantTypes ==> g == "authorization_code" || g == "refresh_token")
           && (forall t :: t in r.responseTypes ==> t == "code"))
      && (reply.Refused? ==> (reply.error == InvalidRedirectUri <==> !urisOk))
  {
    var appType := if r.applicationType == "" then "web" else r.applicationType;
    assert forall g :: g in GRANT_TYPES <==> g == "authorization_code" || g == "refresh_token";
    assert forall t :: t in ["code"] <==> t == "code";
    assert forall m :: m in AUTH_METHODS <==> m == "client_secret_basic" || m == "client_secret_post" || m == "none";
    assert All(r.grantTypes, GRANT_TYPES) <==> forall g :: g in r.grantTypes ==> g in GRANT_TYPES;
    assert All(r.responseTypes, ["code"]) <==> forall t :: t in r.responseTypes ==> t in ["code"];
    assert (exists i :: 0 <= i < |r.redirectUris| && !cfg.validRedirect(r.redirectUris[i], appType))
      <==> (exists uri :: uri in r.redirectUris && !cfg.validRedirect(uri, appType));
  }

  /** And stores exactly the client it returns, who can log in with the returned secret at any later time. */
  lemma RegistrationIsKept(
    cfg: Config, f: Files, r: RegistrationRequest, id: string, secret: string, rat: string, now: int, later: int)
    requires id != "" && secret != "" && Register(cfg, f, r, id, secret, rat, now).1.Registered?
    ensures
      var (f', reply) := Register(cfg, f, r, id, secret, rat, now);
      var auth := if r.authMethod.None? then "client_secret_basic" else r.authMethod.value;
      && reply.accessToken == rat
      && reply.client == Client(
           id, if auth == "none" then "" else secret, r.redirectUris,
           if r.grantTypes == [] then ["authorization_code"] else r.grantTypes,
           if r.responseTypes == [] then ["code"] else r.responseTypes,
           auth, if r.applicationType == "" then "web" else r.applicationType, r.clientName, r.scope, now / 1000)
      && f' == f.(docs := f.docs[Key(ClientModel, id) := Document(ClientDoc(reply.client), 0)]
                           [Key(RegistrationModel, rat) := Document(RegistrationDoc(id), 0)])
      && Authenticate(f', Credentials(id, reply.client.secret), later) == Some(reply.client)
  {
  }

  // --- authorization -----------------------------------------------------------------

  /** The client as it registered, if it is still there. */
  lemma ClientIsLoaded(cfg: Config, w: World, id: string)
    requires Reachable(cfg, w)
    ensures AfterGet(w.files, ClientKey(id), w.now) == w.files
    ensures LoadClient(w.files, id, w.now) ==
      if id in w.h.clients && id !in w.h.deleted then Some(w.h.clients[id]) else None
  {
    ReachableKeeps(cfg, w);
    ClientFacts(cfg, w, id);
    if id in w.h.clients {
      assert ClientKept(w, id);
    }
  }

  /**
   The authorization endpoint puts a request before a human exactly if every check passes, and
   then stores it for an hour; an error goes back to the client only at a URI it registered.
   */
  lemma AuthorizesExactly(cfg: Config, w: World, q: AuthorizeQuery, id: string)
    requires Reachable(cfg, w)
    ensures
      var reply := Authorize(cfg, w.files, q, id, w.now).1;
      if q.clientId !in w.h.clients || q.clientId in w.h.deleted then reply == Shown
      else
        var c := w.h.clients[q.clientId];
        var uri := if q.redirectUri == "" && |c.redirectUris| == 1 then c.redirectUris[0] else q.redirectUri;
        && (reply == Shown <==> uri !in c.redirectUris)
        && (reply.SentBack? ==> reply.redirectUri == uri && reply.state == q.state)
        && (reply.Pending? <==>
             && uri in c.redirectUris && q.responseType == "code" && "authorization_code" in c.grantTypes
             && q.challenge != "" && q.challengeMethod == "S256" && (q.resource == "" || cfg.validResource(q.resource)))
        && (reply.SentBack? ==>
             && (reply.error == UnsupportedResponseType <==> q.responseType != "code")
             && (reply.error == UnauthorizedClient <==>
                  q.responseType == "code" && "authorization_code" !in c.grantTypes)
             && (reply.error == InvalidRequest <==>
                  && q.responseType == "code" && "authorization_code" in c.grantTypes
                  && (q.challenge == "" || q.challengeMethod != "S256")))
  {
    ClientIsLoaded(cfg, w, q.clientId);
    ReachableKeeps(cfg, w);
    if q.clientId in w.h.clients {
      assert WellRegistered(cfg, w.h.clients[q.clientId]);
    }
  }

  /** A pending request is what was asked, kept for an hour; any other answer leaves the store alone. */
  ghost predicate AsRequested(
    cfg: Config, f: Files, c: Client, q: AuthorizeQuery, id: string, now: int, f': Files, reply: AuthorizeReply)
  {
    var uri := if q.redirectUri == "" && |c.redirectUris| == 1 then c.redirectUris[0] else q.redirectUri;
    var request := AuthRequest(c.id, uri, q.state, Text.Join(GrantableScopes(cfg, q.scope)), q.challenge, q.nonce);
    if reply.Pending? then
      && reply.requestId == id
      && f' == f.(docs := f.docs[Key(RequestModel, id) := Document(RequestDoc(request), now + 3600000)])
    else f' == f
  }

  lemma PendingFor(cfg: Config, f: Files, c: Client, q: AuthorizeQuery, id: string, now: int)
    requires LoadClient(f, q.clientId, now) == Some(c) && AfterGet(f, ClientKey(q.clientId), now) == f
    ensures
      var (f', reply) := Authorize(cfg, f, q, id, now);
      AsRequested(cfg, f, c, q, id, now, f', reply)
  {
  }

  lemma PendingIsStored(cfg: Config, w: World, q: AuthorizeQuery, id: string)
    requires Reachable(cfg, w) && q.clientId in w.h.clients && q.clientId !in w.h.deleted
    ensures w.h.clients[q.clientId].id == q.clientId
    ensures
      var (f', reply) := Authorize(cfg, w.files, q, id, w.now);
      AsRequested(cfg, w.files, w.h.clients[q.clientId], q, id, w.now, f', reply)
  {
    ClientIsLoaded(cfg, w, q.clientId);
    EveryClientIsWellRegistered(cfg, w, q.clientId);
    PendingFor(cfg, w.files, w.h.clients[q.clientId], q, id, w.now);
  }

  /** And a client that is not there gets nothing done. */
  lemma StrangersChangeNothing(cfg: Config, w: World, q: AuthorizeQuery, id: string)
    requires Reachable(cfg, w) && (q.clientId !in w.h.clients || q.clientId in w.h.deleted)
    ensures Authorize(cfg, w.files, q, id, w.now) == (w.files, Shown)
  {
    ClientIsLoaded(cfg, w, q.clientId);
  }

  lemma RequestIsFound(cfg: Config, w: World, uid: string)
    requires Reachable(cfg, w)
    ensures Found(w.files, RequestKey(uid), w.now) ==
      if uid in w.h.requests && !Asked(w.h, uid) && w.now <= w.h.requests[uid].nowMs + 3600000
      then Some(RequestDoc(w.h.requests[uid].request)) else None
  {
    ReachableKeeps(cfg, w);
    var k := RequestKey(uid);
    if k in w.files.docs {
      StoredIsUsed(cfg, w, k);
      assert DocOk(w.h, w.files.grants, w.now, k, w.files.docs[k]);
      assert RequestKept(w, uid);
    } else if uid in w.h.requests {
      assert RequestKept(w, uid);
    }
  }

  /**
   A code is sent exactly for a request of the last hour that no human has answered yet, to a
   browser with a live session that has a subject; it carries what was requested.
   */
  lemma InteractsExactly(
    cfg: Config, w: World, uid: string, browsers: Sessions.Table, cookie: string, grant: string, code: string)
    requires Reachable(cfg, w)
    ensures
      var (f', reply) := Interact(w.files, uid, browsers, cookie, grant, code, w.now);
      var pending := uid in w.h.requests && !Asked(w.h, uid) && w.now <= w.h.requests[uid].nowMs + 3600000;
      var human := && cookie != "" && cookie in browsers && w.now <= browsers[cookie].expires
                   && browsers[cookie].oidcSub != "";
      if !pending then reply == RequestGone
      else if !human then reply == LoginFirst && f' == w.files
      else
        var r := w.h.requests[uid].request;
        var minted :=
          AuthCode(r.clientId, r.redirectUri, r.challenge, r.scope, browsers[cookie].oidcSub, r.nonce, grant);
        && reply == CodeSent(code, r.redirectUri, r.state)
        && f'.docs == w.files.docs[Key(CodeModel, code) := Document(CodeDoc(minted), w.now + 600000)]
                        - {Key(RequestModel, uid)}
  {
    RequestIsFound(cfg, w, uid);
  }
}
