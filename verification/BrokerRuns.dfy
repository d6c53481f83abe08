/**
 Whole runs of the broker, one endpoint call, sweep or clock tick at a time, and the
 invariant every reachable state keeps.

 `History` is a record of what the run has done so far; the broker never reads it.
 */
module BrokerRuns {
  import opened Wrappers
  import opened Records
  import opened DocumentStore
  import opened ClientPolicy
  import opened TokenPolicy
  import opened Handlers
  import Sessions
  import Text

  // --- what a run remembers ------------------------------------------------

  datatype RequestBirth = RequestBirth(query: AuthorizeQuery, request: AuthRequest, nowMs: int, at: nat)

  /** A grant is born with its code; `browsers` is the gate's session table at that moment. */
  datatype GrantBirth = GrantBirth(
    requestId: string, request: AuthRequest, code: string,
    browsers: Sessions.Table, cookie: string, session: Session, nowMs: int, at: nat)

  datatype TokenBirth = TokenBirth(grant: string, parent: Option<string>, at: nat)

  datatype Source = FromCode(redirectUri: string, verifier: string) | FromRefresh(presented: string)

  datatype Issued = Issued(response: TokenResponse, grant: string, source: Source, at: nat)

  datatype History = History(
    step: nat,
    used: set<string>,
    clients: map<string, Client>,
    deleted: set<string>,
    requests: map<string, RequestBirth>,
    grants: map<string, GrantBirth>,
    redeemed: map<string, int>,
    tokens: map<string, TokenBirth>,
    revoked: set<string>,
    issued: seq<Issued>)

  datatype World = World(files: Files, now: int, h: History)

  const NO_HISTORY := History(0, {}, map[], {}, map[], map[], map[], map[], {}, [])

  // --- steps ---------------------------------------------------------------

  datatype Action =
    | Wait(ms: nat)
    | DoRegister(r: RegistrationRequest, id: string, secret: string, rat: string)
    | DoAuthorize(q: AuthorizeQuery, id: string)
    | DoInteract(uid: string, browsers: Sessions.Table, cookie: string, grant: string, code: string)
    | DoToken(cred: Credentials, form: TokenForm, jti: string, id: string)
    | DoRevoke(cred: Credentials, token: string)
    | DoDelete(id: string, order: seq<string>)
    | DoSweep
    | DoRead(k: Key)
    | DoList(model: Model)

  /** The values `randomID` hands out during a step. */
  function Drawn(a: Action): seq<string> {
    match a
    case DoRegister(_, id, secret, rat) => [id, secret, rat]
    case DoAuthorize(_, id) => [id]
    case DoInteract(_, _, _, grant, code) => [grant, code]
    case DoToken(_, _, jti, id) => [jti, id]
    case _ => []
  }

  predicate Fresh(used: set<string>, drawn: seq<string>) {
    && (forall i :: 0 <= i < |drawn| ==> Minted(drawn[i]) && drawn[i] !in used)
    && (forall i, j :: 0 <= i < j < |drawn| ==> drawn[i] != drawn[j])
  }

  ghost predicate Enabled(w: World, a: Action) {
    && Fresh(w.h.used, Drawn(a))
    && (a.DoDelete? && LoadClient(w.files, a.id, w.now).Some?
        ==> Enumerates(a.order, LiveIds(ClientGone(w.files, a.id, w.now), RefreshModel, w.now)))
  }

  function RecordIssue(h: History, response: TokenResponse, grant: string, source: Source): History {
    h.(issued := h.issued + [Issued(response, grant, source, h.step)])
  }

  function RecordRedeemed(h: History, a: AuthCode, form: TokenForm, response: TokenResponse): History
    requires form.CodeForm?
  {
    var h1 := RecordIssue(h, response, a.grantId, FromCode(form.redirectUri, form.verifier));
    match response.refresh
    case None => h1
    case Some(id) => h1.(tokens := h1.tokens[id := TokenBirth(a.grantId, None, h1.step)])
  }

  /** A code that was found is spent, whatever the answer. */
  function RecordRedeem(w: World, form: TokenForm, reply: TokenReply): (h': History)
    requires form.CodeForm?
    ensures w.h.revoked <= h'.revoked && w.h.deleted == h'.deleted
  {
    match Found(w.files, CodeKey(form.code), w.now)
    case Some(CodeDoc(a)) =>
      var h1 := w.h.(redeemed := w.h.redeemed[a.grantId := Unix(w.now)]);
      (match reply
       case Rejected(_) => h1
       case Granted(response) => RecordRedeemed(h1, a, form, response))
    case _ => w.h
  }

  function RecordRefreshed(h: History, rt: RefreshToken, presented: string, response: TokenResponse): History {
    var h1 := RecordIssue(h, response, rt.grantId, FromRefresh(presented));
    match response.refresh
    case None => h1
    case Some(id) =>
      if id == presented then h1
      else h1.(tokens := h1.tokens[id := TokenBirth(rt.grantId, Some(presented), h1.step)])
  }

  function RecordRefresh(w: World, presented: string, reply: TokenReply): (h': History)
    ensures w.h.revoked <= h'.revoked && w.h.deleted == h'.deleted
  {
    match Found(w.files, RefreshKey(presented), w.now)
    case Some(RefreshDoc(rt)) =>
      (match reply
       case Rejected(fault) =>
         if fault == TokenReused then w.h.(revoked := w.h.revoked + {rt.grantId}) else w.h
       case Granted(response) => RecordRefreshed(w.h, rt, presented, response))
    case _ => w.h
  }

  function RecordToken(w: World, cred: Credentials, form: TokenForm, reply: TokenReply): (h': History)
    ensures w.h.revoked <= h'.revoked && w.h.deleted == h'.deleted
  {
    match Authenticate(w.files, cred, w.now)
    case None => w.h
    case Some(c) =>
      match form
      case CodeForm(_, _, _) => RecordRedeem(w, form, reply)
      case RefreshForm(presented) => RecordRefresh(w, presented, reply)
      case OtherForm(_) => w.h
  }

  function GrantSet(g: Option<string>): set<string> {
    match g case None => {} case Some(id) => {id}
  }

  /** The grants the deletion loop revokes. */
  function DroppedGrants(f: Files, clientId: string, ids: seq<string>, now: int): set<string>
    decreases |ids|
  {
    if ids == [] then {}
    else
      var before := ids[..|ids| - 1];
      DroppedGrants(f, clientId, before, now)
        + GrantSet(OwnGrant(DropTokens(f, clientId, before, now), clientId, ids[|ids| - 1], now))
  }

  function Act(cfg: Config, w: World, a: Action): World {
    var f, h, now := w.files, w.h, w.now;
    match a
    case Wait(ms) => w.(now := now + ms)
    case DoRegister(r, id, secret, rat) =>
      var (f', reply) := Register(cfg, f, r, id, secret, rat, now);
      World(f', now, if reply.Registered? then h.(clients := h.clients[id := reply.client]) else h)
    case DoAuthorize(q, id) =>
      var (f', reply) := Authorize(cfg, f, q, id, now);
      var client := LoadClient(f, q.clientId, now);
      World(f', now,
        if reply.Pending? && client.Some?
        then h.(requests := h.requests[id := RequestBirth(q, NewRequest(cfg, client.value, q), now, h.step)])
        else h)
    case DoInteract(uid, browsers, cookie, grant, code) =>
      var (f', reply) := Interact(f, uid, browsers, cookie, grant, code, now);
      var session := Sessions.Found(browsers, cookie, now);
      var found := Found(f, RequestKey(uid), now);
      World(f', now,
        if reply.CodeSent? && session.Some? && found.Some? && found.value.RequestDoc?
        then h.(grants := h.grants[grant :=
          GrantBirth(uid, found.value.request, code, browsers, cookie, session.value, now, h.step)])
        else h)
    case DoToken(cred, form, jti, id) =>
      var (f', reply) := Token(cfg, f, cred, form, now, jti, id);
      World(f', now, RecordToken(w, cred, form, reply))
    case DoRevoke(cred, token) =>
      var (f', ok) := Revoke(f, cred, token, now);
      var client := Authenticate(f, cred, now);
      World(f', now,
        if client.Some? then h.(revoked := h.revoked + GrantSet(OwnGrant(f, client.value.id, token, now))) else h)
    case DoDelete(id, order) =>
      var (f', ok) := DeleteClient(f, id, order, now);
      var start := Cleaned(ClientGone(f, id, now), [RefreshModel], now);
      World(f', now,
        if ok then h.(deleted := h.deleted + {id}, revoked := h.revoked + DroppedGrants(start, id, order, now)) else h)
    case DoSweep => w.(files := Cleaned(f, EXPIRING, now))
    case DoRead(k) => w.(files := AfterGet(f, k, now))
    case DoList(model) => w.(files := Cleaned(f, [model], now))
  }

  function Draw(h: History, drawn: seq<string>): History {
    h.(used := h.used + (set i | 0 <= i < |drawn| :: drawn[i]), step := h.step + 1)
  }

  function Next(cfg: Config, w: World, a: Action): World {
    var w' := Act(cfg, w, a);
    w'.(h := Draw(w'.h, Drawn(a)))
  }

  ghost predicate Runnable(cfg: Config, w: World, actions: seq<Action>)
    decreases |actions|
  {
    actions == [] || (Enabled(w, actions[0]) && Runnable(cfg, Next(cfg, w, actions[0]), actions[1..]))
  }

  function Run(cfg: Config, w: World, actions: seq<Action>): World
    decreases |actions|
  {
    if actions == [] then w else Run(cfg, Next(cfg, w, actions[0]), actions[1..])
  }

  /** A fresh data directory, some time after the first second of the epoch. */
  predicate Initial(w: World) {
    w.files == EMPTY && w.h == NO_HISTORY && w.now >= 1000
  }

  // --- the invariant -------------------------------------------------------

  /** What an authorization request must satisfy to be put before a human. */
  predicate Acceptable(cfg: Config, c: Client, q: AuthorizeQuery) {
    && AllowsRedirect(c, EffectiveRedirect(c, q)) && AllowsGrant(c, "authorization_code")
    && q.responseType == "code" && q.challenge != "" && q.challengeMethod == "S256"
    && (q.resource == "" || cfg.validResource(q.resource))
  }

  ghost predicate RequestOk(cfg: Config, h: History, id: string)
    requires id in h.requests
  {
    var b := h.requests[id];
    && b.at < h.step
    && b.request.clientId in h.clients
    && b.request == NewRequest(cfg, h.clients[b.request.clientId], b.query)
    && Acceptable(cfg, h.clients[b.request.clientId], b.query)
  }

  ghost predicate GrantOk(h: History, g: string)
    requires g in h.grants
  {
    var b := h.grants[g];
    && g != ""
    && b.requestId in h.requests && h.requests[b.requestId].request == b.request
    && h.requests[b.requestId].at < b.at < h.step
    && b.session.oidcSub != "" && Sessions.Found(b.browsers, b.cookie, b.nowMs) == Some(b.session)
  }

  ghost predicate TokenOk(h: History, id: string)
    requires id in h.tokens
  {
    var b := h.tokens[id];
    && b.grant in h.redeemed && b.at < h.step
    && (b.parent.Some? ==>
        && b.parent.value in h.tokens
        && h.tokens[b.parent.value].grant == b.grant
        && h.tokens[b.parent.value].at < b.at)
  }

  ghost predicate IssuedOk(cfg: Config, h: History, i: Issued) {
    && i.grant in h.redeemed && i.grant in h.grants
    && h.grants[i.grant].at < i.at < h.step
    && var b, a := h.grants[i.grant], i.response.access;
    && a.clientId == b.request.clientId && a.sub == b.session.oidcSub
    && a.scope == Text.Normalised(b.request.scope) && i.response.scope == a.scope
    && a.iss == cfg.issuer && a.aud == cfg.resource
    && a.exp == a.iat + ACCESS_TTL
    && h.redeemed[i.grant] <= a.iat < h.redeemed[i.grant] + ABSOLUTE_MAX + REFRESH_TTL
    && (i.response.idToken.Some? ==>
        i.response.idToken.value ==
          IdClaims(cfg.issuer, a.sub, a.clientId, a.exp, a.iat, b.request.nonce, cfg.atHash(a)))
    && (match i.source
        case FromCode(uri, verifier) =>
          uri == b.request.redirectUri && VerifyPKCE(cfg, verifier, b.request.challenge)
        case FromRefresh(presented) =>
          presented in h.tokens && h.tokens[presented].grant == i.grant && h.tokens[presented].at < i.at)
  }

  ghost predicate SetsOk(h: History, now: int) {
    && now >= 1000
    && (forall id :: id in h.clients ==> id in h.used && h.clients[id].id == id)
    && h.requests.Keys <= h.used && h.grants.Keys <= h.used && h.tokens.Keys <= h.used
    && h.deleted <= h.clients.Keys
    && (forall g :: g in h.redeemed ==> g in h.grants && 1 <= h.redeemed[g] <= Unix(now))
    && h.revoked <= h.redeemed.Keys
  }

  ghost predicate RecordsOk(cfg: Config, h: History) {
    && (forall id {:trigger RequestOk(cfg, h, id)} :: id in h.requests ==> RequestOk(cfg, h, id))
    && (forall g {:trigger GrantOk(h, g)} :: g in h.grants ==> GrantOk(h, g))
    && (forall id {:trigger TokenOk(h, id)} :: id in h.tokens ==> TokenOk(h, id))
    && (forall n {:trigger IssuedOk(cfg, h, h.issued[n])} ::
        0 <= n < |h.issued| ==> IssuedOk(cfg, h, h.issued[n]))
  }

  ghost predicate HistoryOk(cfg: Config, h: History, now: int) {
    SetsOk(h, now) && RecordsOk(cfg, h)
  }

  /** The index of a grant names only refresh tokens of that grant. */
  ghost predicate IndexOk(grants: map<string, seq<string>>, h: History) {
    forall g, k :: g in grants && k in Named(grants[g]) ==>
      k.model.RefreshModel? && k.id in h.tokens && h.tokens[k.id].grant == g
  }

  ghost predicate TimesOk(c: Client, t: RefreshToken, now: int, expiresAt: int) {
    && 1 <= t.iiat <= t.iat <= Unix(now)
    && t.exp == t.iat + REFRESH_TTL
    && t.iat <= t.iiat + ABSOLUTE_MAX
    && 0 <= t.rotations && 0 <= t.consumed <= Unix(now)
    && (!IsPublic(c) ==> t.iiat + 5443200 * t.rotations <= t.iat)
    && t.exp * 1000 <= expiresAt < t.exp * 1000 + 1000
  }

  ghost predicate RefreshOk(
    h: History, grants: map<string, seq<string>>, now: int, id: string, t: RefreshToken, expiresAt: int)
  {
    && id in h.tokens && h.tokens[id].grant == t.grantId
    && t.grantId in h.grants && t.grantId in h.redeemed && t.grantId !in h.revoked
    && t.clientId in h.clients && t.clientId !in h.deleted
    && var b := h.grants[t.grantId];
    && t.clientId == b.request.clientId && t.accountId == b.session.oidcSub
    && t.scope == Text.Normalised(b.request.scope) && t.nonce == b.request.nonce && t.gty == "authorization_code"
    && WantsRefreshToken(h.clients[t.clientId], Text.Fields(t.scope))
    && t.iiat == h.redeemed[t.grantId]
    && TimesOk(h.clients[t.clientId], t, now, expiresAt)
    && t.grantId in grants && RefOf(RefreshKey(id)) in grants[t.grantId]
  }

  ghost predicate CodeOk(h: History, id: string, a: AuthCode) {
    && a.grantId in h.grants && a.grantId !in h.redeemed
    && var b := h.grants[a.grantId];
    && b.code == id && a == NewCode(b.request, b.session.oidcSub, a.grantId)
  }

  ghost predicate DocOk(h: History, grants: map<string, seq<string>>, now: int, k: Key, d: Document) {
    && Minted(k.id) && k.id in h.used
    && match k.model
       case ClientModel =>
         d.expiresAt == 0 && k.id in h.clients && k.id !in h.deleted && d.payload == ClientDoc(h.clients[k.id])
       case RequestModel =>
         k.id in h.requests && d.payload == RequestDoc(h.requests[k.id].request)
       case CodeModel =>
         d.payload.CodeDoc? && CodeOk(h, k.id, d.payload.code)
       case RefreshModel =>
         d.payload.RefreshDoc? && RefreshOk(h, grants, now, k.id, d.payload.token, d.expiresAt)
       case RegistrationModel =>
         d.payload.RegistrationDoc?
  }

  ghost predicate DocsOk(f: Files, h: History, now: int) {
    forall k {:trigger DocOk(h, f.grants, now, k, f.docs[k])} ::
      k in f.docs ==> DocOk(h, f.grants, now, k, f.docs[k])
  }

  ghost predicate Inv(cfg: Config, w: World) {
    && HistoryOk(cfg, w.h, w.now)
    && IndexOk(w.files.grants, w.h)
    && DocsOk(w.files, w.h, w.now)
  }

  // --- carrying the invariant over -----------------------------------------

  ghost predicate Extends(h: History, h': History) {
    && h.step <= h'.step && h.used <= h'.used
    && (forall id :: id in h.clients ==> id in h'.clients && h'.clients[id] == h.clients[id])
    && (forall id :: id in h.requests ==> id in h'.requests && h'.requests[id] == h.requests[id])
    && (forall g :: g in h.grants ==> g in h'.grants && h'.grants[g] == h.grants[g])
    && (forall g :: g in h.redeemed ==> g in h'.redeemed && h'.redeemed[g] == h.redeemed[g])
    && (forall id :: id in h.tokens ==> id in h'.tokens && h'.tokens[id] == h.tokens[id])
    && h.deleted <= h'.deleted && h.revoked <= h'.revoked
  }

  /** What a document must not lose for its part of the invariant to survive a step. */
  ghost predicate Undisturbed(
    h': History, grants: map<string, seq<string>>, grants': map<string, seq<string>>, k: Key, d: Document) {
    match d.payload
    case ClientDoc(_) => k.id !in h'.deleted
    case CodeDoc(a) => a.grantId !in h'.redeemed
    case RefreshDoc(t) =>
      && t.grantId !in h'.revoked && t.clientId !in h'.deleted
      && (t.grantId in grants ==>
          t.grantId in grants' && forall ref :: ref in grants[t.grantId] ==> ref in grants'[t.grantId])
    case _ => true
  }

  lemma DocCarries(
    h: History, h': History, grants: map<string, seq<string>>, grants': map<string, seq<string>>,
    now: int, now': int, k: Key, d: Document)
    requires DocOk(h, grants, now, k, d) && Extends(h, h') && now <= now'
    requires Undisturbed(h', grants, grants', k, d)
    ensures DocOk(h', grants', now', k, d)
  {
  }

  lemma IssuedCarries(cfg: Config, h: History, h': History, i: Issued)
    requires IssuedOk(cfg, h, i) && Extends(h, h')
    ensures IssuedOk(cfg, h', i)
  {
  }
}
