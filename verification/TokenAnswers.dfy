/**
 What the token, revocation and deletion endpoints answer and leave behind in a reachable state,
 told from the request and from what happened before. Times and lifetimes are spelled out.
 */
module TokenAnswers {
  import opened Wrappers
  import opened Records
  import opened DocumentStore
  import opened ClientPolicy
  import opened TokenPolicy
  import opened Handlers
  import opened BrokerRuns
  import opened BrokerInvariant
  import opened BrokerSteps
  import opened BrokerTheorems
  import opened KeptDocuments
  import opened EndpointAnswers
  import Text

  /** Section 4.1 of RFC 7636. */
  predicate ProperVerifier(v: string) {
    && 43 <= |v| <= 128
    && forall i :: 0 <= i < |v| ==>
         || 'A' <= v[i] <= 'Z' || 'a' <= v[i] <= 'z' || '0' <= v[i] <= '9'
         || v[i] == '-' || v[i] == '.' || v[i] == '_' || v[i] == '~'
  }

  /** The tokens for this account and these scopes; an id token is there exactly for openid. */
  predicate Tokens(
    cfg: Config, clientId: string, account: string, words: seq<string>, nonce: string, now: int, jti: string,
    response: TokenResponse)
  {
    var access := AccessClaims(
      jti, account, now / 1000, now / 1000 + 3600, Text.Join(words), clientId, cfg.issuer, cfg.resource);
    && response.access == access && response.expiresIn == access.exp - access.iat && response.scope == Text.Join(words)
    && (response.idToken.Some? <==> "openid" in words)
    && (response.idToken.Some? ==>
          response.idToken.value ==
            IdClaims(cfg.issuer, account, clientId, now / 1000 + 3600, now / 1000, nonce, cfg.atHash(access)))
  }

  // --- redeeming a code --------------------------------------------------------------

  lemma CodeIsFound(cfg: Config, w: World, g: string)
    requires Reachable(cfg, w) && g in w.h.grants
    ensures
      var b := w.h.grants[g];
      var code := AuthCode(b.request.clientId, b.request.redirectUri, b.request.challenge, b.request.scope,
        b.session.oidcSub, b.request.nonce, g);
      Found(w.files, CodeKey(b.code), w.now) ==
        if g !in w.h.redeemed && w.now <= b.nowMs + 600000 then Some(CodeDoc(code)) else None
  {
    ReachableKeeps(cfg, w);
    assert CodeKept(w, g);
    if CodeKey(w.h.grants[g].code) in w.files.docs {
      StoredIsUsed(cfg, w, CodeKey(w.h.grants[g].code));
      SpendsItsGrant(cfg, w, g);
    }
  }

  /** What the code endpoint makes of a live code. */
  ghost predicate RedeemedAs(
    cfg: Config, f: Files, c: Client, a: AuthCode, form: TokenForm, now: int, jti: string, id: string,
    f': Files, reply: TokenReply)
    requires form.CodeForm?
  {
    var words := Text.Fields(a.scope);
    var wants := && "refresh_token" in c.grantTypes
      && ("offline_access" in words || (c.applicationType in {"", "web"} && c.authMethod == "none"));
    && (reply.Granted? <==>
         && a.clientId == c.id && form.redirectUri == a.redirectUri
         && ProperVerifier(form.verifier) && cfg.s256(form.verifier) == a.challenge)
    && CodeKey(form.code) !in f'.docs
    && if reply.Granted? then
         && Tokens(cfg, c.id, a.accountId, words, a.nonce, now, jti, reply.response)
         && reply.response.refresh == (if wants then Some(id) else None)
         && f'.docs == (f.docs - {CodeKey(form.code)})
              + if wants then map[Key(RefreshModel, id) := Document(RefreshDoc(RefreshToken(
                    c.id, a.accountId, Text.Join(words), a.grantId, now / 1000, now / 1000 + 7776000, now / 1000, 0, 0,
                    a.nonce, "authorization_code")), now + 7776000000)]
                else map[]
       else
         && f' == f.(docs := f.docs - {CodeKey(form.code)})
         && reply.fault ==
              if a.clientId != c.id then CodeOfOtherClient
              else if form.redirectUri != a.redirectUri then RedirectMismatch
              else BadVerifier
  }

  lemma ProperIsVerified(cfg: Config, v: string, challenge: string)
    ensures VerifyPKCE(cfg, v, challenge) <==> ProperVerifier(v) && cfg.s256(v) == challenge
  {
  }

  lemma WantsIs(c: Client, words: seq<string>)
    ensures WantsRefreshToken(c, words) <==>
      && "refresh_token" in c.grantTypes
      && ("offline_access" in words || (c.applicationType in {"", "web"} && c.authMethod == "none"))
  {
  }

  lemma RedeemIs(
    cfg: Config, f: Files, c: Client, a: AuthCode, form: TokenForm, now: int, jti: string, id: string)
    requires form.CodeForm? && form.code != "" && Found(f, CodeKey(form.code), now) == Some(CodeDoc(a))
    ensures
      var (f', reply) := RedeemCode(cfg, f, c, form.code, form.redirectUri, form.verifier, now, jti, id);
      RedeemedAs(cfg, f, c, a, form, now, jti, id, f', reply)
  {
    ProperIsVerified(cfg, form.verifier, a.challenge);
    WantsIs(c, Text.Fields(a.scope));
  }

  /** Token requests of an authenticated client reach the client as it registered. */
  lemma TokenIs(cfg: Config, w: World, cred: Credentials, form: TokenForm, jti: string, id: string)
    requires Reachable(cfg, w)
    ensures
      var known := && cred.id in w.h.clients && cred.id !in w.h.deleted
        && (w.h.clients[cred.id].authMethod == "none" || cred.secret == w.h.clients[cred.id].secret);
      Token(cfg, w.files, cred, form, w.now, jti, id) ==
        if !known then (w.files, Rejected(InvalidClient))
        else
          match form
          case CodeForm(code, uri, verifier) =>
            RedeemCode(cfg, w.files, w.h.clients[cred.id], code, uri, verifier, w.now, jti, id)
          case RefreshForm(presented) => Refresh(cfg, w.files, w.h.clients[cred.id], presented, w.now, jti, id)
          case OtherForm(_) => (w.files, Rejected(UnsupportedGrantType))
  {
    AuthenticatesExactly(cfg, w, cred);
    ClientIsLoaded(cfg, w, cred.id);
  }

  /**
   A code is exchanged for tokens exactly once, within ten minutes, by the client it was issued
   to, with the redirect URI it was issued for and a verifier that hashes to the challenge.
   */
  lemma RedeemsExactly(cfg: Config, w: World, cred: Credentials, form: TokenForm, jti: string, id: string, g: string)
    requires Reachable(cfg, w) && form.CodeForm? && g in w.h.grants && w.h.grants[g].code == form.code
    requires cred.id in w.h.clients && cred.id !in w.h.deleted
    requires w.h.clients[cred.id].authMethod == "none" || cred.secret == w.h.clients[cred.id].secret
    ensures
      var (f', reply) := Token(cfg, w.files, cred, form, w.now, jti, id);
      var b := w.h.grants[g];
      var code := AuthCode(b.request.clientId, b.request.redirectUri, b.request.challenge, b.request.scope,
        b.session.oidcSub, b.request.nonce, g);
      && w.h.clients[cred.id].id == cred.id
      && if g !in w.h.redeemed && w.now <= b.nowMs + 600000
         then RedeemedAs(cfg, w.files, w.h.clients[cred.id], code, form, w.now, jti, id, f', reply)
         else reply == Rejected(CodeUnknown)
  {
    TokenIs(cfg, w, cred, form, jti, id);
    EveryClientIsWellRegistered(cfg, w, cred.id);
    CodeIsFound(cfg, w, g);
    var b := w.h.grants[g];
    if g !in w.h.redeemed && w.now <= b.nowMs + 600000 {
      var code := AuthCode(b.request.clientId, b.request.redirectUri, b.request.challenge, b.request.scope,
        b.session.oidcSub, b.request.nonce, g);
      RedeemIs(cfg, w.files, w.h.clients[cred.id], code, form, w.now, jti, id);
    }
  }

  /** What was never issued as a code is none. */
  lemma OnlyIssuedCodesAreRedeemed(cfg: Config, w: World, cred: Credentials, form: TokenForm, jti: string, id: string)
    requires Reachable(cfg, w) && form.CodeForm?
    ensures Token(cfg, w.files, cred, form, w.now, jti, id).1.Granted? ==>
      exists g :: g in w.h.grants && w.h.grants[g].code == form.code
  {
    TokenIs(cfg, w, cred, form, jti, id);
    ReachableKeeps(cfg, w);
    if Found(w.files, CodeKey(form.code), w.now).Some? {
      CodeFacts(cfg, w, form.code);
    }
  }

  // --- refreshing ------------------------------------------------------------------------

  /**
   The policy, in numbers: below the ceiling, always for a public client, otherwise past 0.7 of the
   life. Records of older brokers may lack a time, which is then 0.
   */
  predicate Due(c: Client, t: RefreshToken, now: int) {
    && (t.iiat == 0 || now <= (t.iiat + 31557600) * 1000)
    && (c.authMethod == "none"
        || (t.iat != 0 && t.exp != 0 && t.iat < t.exp && 10 * (now / 1000 - t.iat) > 7 * (t.exp - t.iat)))
  }

  /** The presented token goes back under its own name, for the rest of its life. */
  function PutBack(f: Files, presented: string, t: RefreshToken, now: int): map<Key, Document> {
    f.docs[Key(RefreshModel, presented) :=
      Document(RefreshDoc(t), if t.exp == 0 then now + 7776000000 else t.exp * 1000)]
  }

  ghost predicate RefreshedAs(
    cfg: Config, f: Files, c: Client, t: RefreshToken, presented: string, now: int, jti: string, id: string,
    f': Files, reply: TokenReply)
  {
    var k, words := Key(RefreshModel, presented), Text.Fields(t.scope);
    && (reply.Granted? <==>
         && t.clientId == c.id && (t.exp == 0 || now / 1000 < t.exp)
         && (t.consumed == 0 || now <= (t.consumed + 30) * 1000))
    && (reply.Rejected? ==>
          reply.fault ==
          if t.clientId != c.id then TokenOfOtherClient
          else if t.exp != 0 && t.exp <= now / 1000 then TokenExpired
          else TokenReused)
    && (reply.Rejected? && (reply.fault != TokenReused || t.grantId == "") ==> f' == f.(docs := f.docs - {k}))
    && (reply == Rejected(TokenReused) && t.grantId != "" ==>
          f' == AfterRevokeGrant(f.(docs := f.docs - {k}), t.grantId))
    && (reply.Granted? ==>
         && Tokens(cfg, c.id, t.accountId, words, t.nonce, now, jti, reply.response)
         && (Due(c, t, now) ==>
              && reply.response.refresh == Some(id)
              && f'.docs == PutBack(f, presented, t.(consumed := now / 1000), now)
                   [Key(RefreshModel, id) := Document(RefreshDoc(RefreshToken(
                      t.clientId, t.accountId, t.scope, t.grantId, now / 1000, now / 1000 + 7776000, t.iiat,
                      t.rotations + 1, 0, t.nonce, t.gty)), now + 7776000000)])
         && (!Due(c, t, now) ==>
              reply.response.refresh == Some(presented) && f'.docs == PutBack(f, presented, t, now)))
  }

  lemma RemainingIs(exp: int, now: int)
    requires exp == 0 || now / 1000 < exp
    ensures Remaining(exp, now) > 0
    ensures now + Remaining(exp, now) == if exp == 0 then now + 7776000000 else exp * 1000
  {
  }

  lemma DueIs(c: Client, t: RefreshToken, now: int)
    ensures ShouldRotate(c, t, now) <==> Due(c, t, now)
  {
  }

  /** The token is its client's own, has not expired, and is unspent or in its period of grace. */
  predicate InOrder(c: Client, t: RefreshToken, now: int) {
    && t.clientId == c.id && (t.exp == 0 || now / 1000 < t.exp)
    && (t.consumed == 0 || now <= (t.consumed + 30) * 1000)
  }

  lemma RefreshRefused(
    cfg: Config, f: Files, c: Client, t: RefreshToken, presented: string, now: int, jti: string, id: string)
    requires presented != "" && id != presented && Found(f, RefreshKey(presented), now) == Some(RefreshDoc(t))
    requires !InOrder(c, t, now)
    ensures
      var (f', reply) := Refresh(cfg, f, c, presented, now, jti, id);
      RefreshedAs(cfg, f, c, t, presented, now, jti, id, f', reply)
  {
  }

  lemma RotatedDocs(f: Files, t: RefreshToken, presented: string, now: int, id: string)
    requires presented != "" && id != presented && Remaining(t.exp, now) > 0
    requires now + Remaining(t.exp, now) == if t.exp == 0 then now + 7776000000 else t.exp * 1000
    ensures
      var k, spent := RefreshKey(presented), t.(consumed := now / 1000);
      var f1 := AfterMint(AfterClaim(f, k), Rotated(t, now), id, now);
      AfterPut(f1, k, RefreshDoc(spent), Remaining(t.exp, now), now).docs ==
        PutBack(f, presented, spent, now)
          [Key(RefreshModel, id) := Document(RefreshDoc(RefreshToken(
             t.clientId, t.accountId, t.scope, t.grantId, now / 1000, now / 1000 + 7776000, t.iiat,
             t.rotations + 1, 0, t.nonce, t.gty)), now + 7776000000)]
  {
  }

  lemma RefreshRotates(
    cfg: Config, f: Files, c: Client, t: RefreshToken, presented: string, now: int, jti: string, id: string)
    requires presented != "" && id != presented && Found(f, RefreshKey(presented), now) == Some(RefreshDoc(t))
    requires InOrder(c, t, now) && Due(c, t, now)
    ensures
      var (f', reply) := Refresh(cfg, f, c, presented, now, jti, id);
      RefreshedAs(cfg, f, c, t, presented, now, jti, id, f', reply)
  {
    DueIs(c, t, now);
    RemainingIs(t.exp, now);
    RotatedDocs(f, t, presented, now, id);
  }

  lemma RefreshPutsBack(
    cfg: Config, f: Files, c: Client, t: RefreshToken, presented: string, now: int, jti: string, id: string)
    requires presented != "" && id != presented && Found(f, RefreshKey(presented), now) == Some(RefreshDoc(t))
    requires InOrder(c, t, now) && !Due(c, t, now)
    ensures
      var (f', reply) := Refresh(cfg, f, c, presented, now, jti, id);
      RefreshedAs(cfg, f, c, t, presented, now, jti, id, f', reply)
  {
    DueIs(c, t, now);
    RemainingIs(t.exp, now);
  }

  /** For any stored token, also one an older broker wrote. */
  lemma RefreshIs(
    cfg: Config, f: Files, c: Client, t: RefreshToken, presented: string, now: int, jti: string, id: string)
    requires presented != "" && id != presented && Found(f, RefreshKey(presented), now) == Some(RefreshDoc(t))
    ensures
      var (f', reply) := Refresh(cfg, f, c, presented, now, jti, id);
      RefreshedAs(cfg, f, c, t, presented, now, jti, id, f', reply)
  {
    if InOrder(c, t, now) && Due(c, t, now) {
      RefreshRotates(cfg, f, c, t, presented, now, jti, id);
    } else if InOrder(c, t, now) {
      RefreshPutsBack(cfg, f, c, t, presented, now, jti, id);
    } else {
      RefreshRefused(cfg, f, c, t, presented, now, jti, id);
    }
  }

  /**
   A refresh token is answered exactly for the client it belongs to, before its own expiry, and
   unspent or within 30 seconds of being spent; it is rotated exactly when the policy says so.
   */
  lemma RefreshesExactly(cfg: Config, w: World, cred: Credentials, presented: string, jti: string, id: string)
    requires Reachable(cfg, w) && id !in w.h.used
    requires cred.id in w.h.clients && cred.id !in w.h.deleted
    requires w.h.clients[cred.id].authMethod == "none" || cred.secret == w.h.clients[cred.id].secret
    ensures
      var (f', reply) := Token(cfg, w.files, cred, RefreshForm(presented), w.now, jti, id);
      var k := Key(RefreshModel, presented);
      && w.h.clients[cred.id].id == cred.id
      && if k in w.files.docs && w.now <= w.files.docs[k].expiresAt then
           && w.files.docs[k].payload.RefreshDoc?
           && RefreshedAs(cfg, w.files, w.h.clients[cred.id], w.files.docs[k].payload.token, presented, w.now, jti, id,
                f', reply)
         else reply == Rejected(TokenUnknown)
  {
    TokenIs(cfg, w, cred, RefreshForm(presented), jti, id);
    EveryClientIsWellRegistered(cfg, w, cred.id);
    ReachableKeeps(cfg, w);
    var k := RefreshKey(presented);
    if k in w.files.docs {
      StoredIsUsed(cfg, w, k);
      assert DocOk(w.h, w.files.grants, w.now, k, w.files.docs[k]);
      if w.now <= w.files.docs[k].expiresAt {
        RefreshIs(cfg, w.files, w.h.clients[cred.id], w.files.docs[k].payload.token, presented, w.now, jti, id);
      }
    }
  }

  // --- errors on the wire ----------------------------------------------------------------

  /** Sections 5.2 of RFC 6749: which error the client sees. */
  lemma TokenErrors(cfg: Config, w: World, cred: Credentials, form: TokenForm, jti: string, id: string)
    requires Reachable(cfg, w)
    ensures
      var reply := Token(cfg, w.files, cred, form, w.now, jti, id).1;
      var known := && cred.id in w.h.clients && cred.id !in w.h.deleted
        && (w.h.clients[cred.id].authMethod == "none" || cred.secret == w.h.clients[cred.id].secret);
      reply.Rejected? ==>
        ErrorCode(reply.fault) ==
          if !known then "invalid_client"
          else if form.OtherForm? then "unsupported_grant_type"
          else "invalid_grant"
  {
    TokenIs(cfg, w, cred, form, jti, id);
  }

  // --- revocation ------------------------------------------------------------------------

  /** Which documents a revocation by `clientId` takes out of the store. */
  predicate Revoked(f: Files, clientId: string, token: string, now: int, k: Key)
    requires k in f.docs
  {
    var p := Key(RefreshModel, token);
    p in f.docs &&
      if f.docs[p].expiresAt < now then k == p
      else
        && f.docs[p].payload.RefreshDoc? && f.docs[p].payload.token.clientId == clientId
        && f.docs[k].payload.RefreshDoc? && f.docs[k].payload.token.grantId == f.docs[p].payload.token.grantId
  }

  ghost predicate DroppedExactly(f: Files, clientId: string, token: string, now: int, f': Files, k: Key) {
    && (k in f'.docs <==> k in f.docs && !Revoked(f, clientId, token, now, k))
    && (k in f'.docs ==> f'.docs[k] == f.docs[k])
  }

  lemma DropLive(cfg: Config, w: World, clientId: string, token: string, k: Key)
    requires Inv(cfg, w) && LiveToken(w.files, token, w.now)
    ensures DroppedExactly(w.files, clientId, token, w.now, DropToken(w.files, clientId, token, w.now), k)
  {
    RefreshFacts(cfg, w, token);
    RevokeIsExact(cfg, w, w.files.docs[RefreshKey(token)].payload.token.grantId);
  }

  lemma DropIs(cfg: Config, w: World, clientId: string, token: string, k: Key)
    requires Inv(cfg, w)
    ensures DroppedExactly(w.files, clientId, token, w.now, DropToken(w.files, clientId, token, w.now), k)
  {
    var p := RefreshKey(token);
    if p in w.files.docs {
      StoredIsUsed(cfg, w, p);
      assert DocOk(w.h, w.files.grants, w.now, p, w.files.docs[p]);
      if w.now <= w.files.docs[p].expiresAt {
        DropLive(cfg, w, clientId, token, k);
      }
    }
  }

  /**
   The revocation endpoint takes out exactly the tokens of the grant, if the token is live and
   the client's own, and otherwise at most the expired token that was named (RFC 7009).
   */
  lemma RevokesExactly(cfg: Config, w: World, cred: Credentials, token: string, k: Key)
    requires Reachable(cfg, w)
    ensures
      var (f', ok) := Revoke(w.files, cred, token, w.now);
      var known := && cred.id in w.h.clients && cred.id !in w.h.deleted
        && (w.h.clients[cred.id].authMethod == "none" || cred.secret == w.h.clients[cred.id].secret);
      && ok == known
      && (if known then DroppedExactly(w.files, cred.id, token, w.now, f', k) else f' == w.files)
  {
    AuthenticatesExactly(cfg, w, cred);
    ClientIsLoaded(cfg, w, cred.id);
    ReachableKeeps(cfg, w);
    if Authenticate(w.files, cred, w.now).Some? {
      EveryClientIsWellRegistered(cfg, w, cred.id);
      DropIs(cfg, w, cred.id, token, k);
    }
  }

  // --- deletion --------------------------------------------------------------------------

  /** Revoking a grant takes nothing but refresh tokens. */
  lemma DropsSpare(f: Files, h: History, clientId: string, ids: seq<string>, now: int, k: Key)
    requires IndexOk(f.grants, h) && k in f.docs && !k.model.RefreshModel?
    requires !Expired(f.docs[k], now)
    ensures k in DropTokens(f, clientId, ids, now).docs && DropTokens(f, clientId, ids, now).docs[k] == f.docs[k]
  {
    DropsLeave(f, h, clientId, ids, now, k);
  }

  lemma ForeignTokensStay(cfg: Config, w: World, clientId: string, ids: seq<string>, token: string)
    requires Inv(cfg, w) && LiveToken(w.files, token, w.now)
    requires w.files.docs[RefreshKey(token)].payload.token.clientId != clientId
    ensures StillThere(w.files, DropTokens(w.files, clientId, ids, w.now), token)
  {
    var g := w.files.docs[RefreshKey(token)].payload.token.grantId;
    RefreshFacts(cfg, w, token);
    DropTokensLose(cfg, w, clientId, ids, token);
    if g in DroppedGrants(w.files, clientId, ids, w.now) {
      DroppedAreOwned(cfg, w, clientId, ids, g);
    }
  }

  /** What is left of an unexpired store once a client and its tokens are gone. */
  ghost predicate WithoutClient(f: Files, id: string, now: int, f': Files, k: Key) {
    && (k in f'.docs ==> k in f.docs && f'.docs[k] == f.docs[k])
    && (k in f.docs && !Expired(f.docs[k], now) ==>
         (k in f'.docs <==>
           k != Key(ClientModel, id) && !(f.docs[k].payload.RefreshDoc? && f.docs[k].payload.token.clientId == id)))
  }

  lemma DeletionIs(cfg: Config, w: World, id: string, order: seq<string>, k: Key)
    requires Inv(cfg, w) && Enumerates(order, LiveIds(w.files, RefreshModel, w.now))
    requires Key(ClientModel, id) !in w.files.docs
    ensures
      WithoutClient(w.files, id, w.now, DropTokens(Cleaned(w.files, [RefreshModel], w.now), id, order, w.now), k)
  {
    DeletionIsComplete(cfg, w, id, order);
    var start := World(Cleaned(w.files, [RefreshModel], w.now), w.now, w.h);
    RemovalKeeps(cfg, w, start.files, 0);
    if k in w.files.docs && !Expired(w.files.docs[k], w.now) {
      StoredIsUsed(cfg, w, k);
      assert DocOk(w.h, w.files.grants, w.now, k, w.files.docs[k]);
      if !k.model.RefreshModel? {
        DropsSpare(start.files, w.h, id, order, w.now, k);
      } else if w.files.docs[k].payload.token.clientId != id {
        ForeignTokensStay(cfg, start, id, order, k.id);
      }
    }
  }

  /**
   Deleting a client takes out its record and every token of it, and of everything that has not
   expired nothing else; an unknown client changes nothing.
   */
  lemma DeletesExactly(cfg: Config, w: World, id: string, order: seq<string>, k: Key)
    requires Reachable(cfg, w) && Enabled(w, DoDelete(id, order))
    ensures
      var (f', existed) := DeleteClient(w.files, id, order, w.now);
      && (existed <==> id in w.h.clients && id !in w.h.deleted)
      && if existed then WithoutClient(w.files, id, w.now, f', k) else f' == w.files
  {
    ClientIsLoaded(cfg, w, id);
    ReachableKeeps(cfg, w);
    if LoadClient(w.files, id, w.now).Some? {
      var gone := World(ClientGone(w.files, id, w.now), w.now, w.h);
      RemovalKeeps(cfg, w, gone.files, 0);
      DeletionIs(cfg, gone, id, order, k);
    }
  }

  // --- who is answered -----------------------------------------------------------------------

  /** The request carried the secret its client registered with, unless that is public. */
  ghost predicate Entitled(h: History, i: Issued, a: Action) {
    && a.DoToken? && a.cred.id == i.response.access.clientId && a.cred.id in h.clients
    && (h.clients[a.cred.id].authMethod == "none"
        || (h.clients[a.cred.id].secret != "" && a.cred.secret == h.clients[a.cred.id].secret))
    && match i.source
       case FromCode(uri, verifier) => a.form.CodeForm? && a.form.redirectUri == uri && a.form.verifier == verifier
       case FromRefresh(presented) => a.form == RefreshForm(presented)
  }

  /** A step issues what it answers with. */
  lemma StepAnswers(cfg: Config, w: World, a: Action)
    requires Reachable(cfg, w) && Enabled(w, a)
    ensures
      var h, h' := w.h, Next(cfg, w, a).h;
      if a.DoToken? && Token(cfg, w.files, a.cred, a.form, w.now, a.jti, a.id).1.Granted? then
        && |h'.issued| == |h.issued| + 1 && h.issued <= h'.issued
        && Entitled(h', h'.issued[|h.issued|], a)
      else h'.issued == h.issued
  {
    if a.DoToken? {
      TokenStepAnswers(cfg, w, a);
    }
  }

  lemma RedeemStep(w: World, form: TokenForm, reply: TokenReply)
    requires form.CodeForm? && (reply.Granted? ==> Found(w.files, CodeKey(form.code), w.now).Some?)
    requires Found(w.files, CodeKey(form.code), w.now).Some? ==>
        Found(w.files, CodeKey(form.code), w.now).value.CodeDoc?
    ensures
      var h := RecordRedeem(w, form, reply);
      if reply.Granted? then
        && |h.issued| == |w.h.issued| + 1 && w.h.issued <= h.issued
        && h.issued[|w.h.issued|].response == reply.response
        && h.issued[|w.h.issued|].source == FromCode(form.redirectUri, form.verifier)
      else h.issued == w.h.issued
  {
  }

  lemma RefreshStep(w: World, presented: string, reply: TokenReply)
    requires reply.Granted? ==> Found(w.files, RefreshKey(presented), w.now).Some?
    requires Found(w.files, RefreshKey(presented), w.now).Some? ==>
      Found(w.files, RefreshKey(presented), w.now).value.RefreshDoc?
    ensures
      var h := RecordRefresh(w, presented, reply);
      if reply.Granted? then
        && |h.issued| == |w.h.issued| + 1 && w.h.issued <= h.issued
        && h.issued[|w.h.issued|].response == reply.response
        && h.issued[|w.h.issued|].source == FromRefresh(presented)
      else h.issued == w.h.issued
  {
  }

  /** Tokens are issued to the client that asked, for a document that was there. */
  lemma AnswersItsClient(cfg: Config, f: Files, c: Client, form: TokenForm, now: int, jti: string, id: string)
    ensures form.CodeForm? ==>
      var reply := RedeemCode(cfg, f, c, form.code, form.redirectUri, form.verifier, now, jti, id).1;
      reply.Granted? ==> reply.response.access.clientId == c.id && Found(f, CodeKey(form.code), now).Some?
    ensures form.RefreshForm? ==>
      var reply := Refresh(cfg, f, c, form.presented, now, jti, id).1;
      reply.Granted? ==> reply.response.access.clientId == c.id && Found(f, RefreshKey(form.presented), now).Some?
  {
  }

  lemma RecordIs(cfg: Config, w: World, cred: Credentials, form: TokenForm, reply: TokenReply)
    requires Inv(cfg, w)
    requires reply.Granted? ==> Authenticate(w.files, cred, w.now).Some? && !form.OtherForm?
    requires reply.Granted? && form.CodeForm? ==> Found(w.files, CodeKey(form.code), w.now).Some?
    requires reply.Granted? && form.RefreshForm? ==> Found(w.files, RefreshKey(form.presented), w.now).Some?
    ensures
      var h := RecordToken(w, cred, form, reply);
      if reply.Granted? then
        && |h.issued| == |w.h.issued| + 1 && w.h.issued <= h.issued
        && h.issued[|w.h.issued|].response == reply.response
        && h.issued[|w.h.issued|].source ==
             (if form.CodeForm? then FromCode(form.redirectUri, form.verifier) else FromRefresh(form.presented))
      else h.issued == w.h.issued
  {
    match form {
      case CodeForm(code, _, _) =>
        if Found(w.files, CodeKey(code), w.now).Some? {
          CodeFacts(cfg, w, code);
        }
        RedeemStep(w, form, reply);
      case RefreshForm(presented) =>
        if Found(w.files, RefreshKey(presented), w.now).Some? {
          RefreshFacts(cfg, w, presented);
        }
        RefreshStep(w, presented, reply);
      case OtherForm(_) =>
    }
  }

  lemma TokenStepAnswers(cfg: Config, w: World, a: Action)
    requires Reachable(cfg, w) && a.DoToken?
    ensures
      var h, h' := w.h, Next(cfg, w, a).h;
      if Token(cfg, w.files, a.cred, a.form, w.now, a.jti, a.id).1.Granted? then
        && |h'.issued| == |h.issued| + 1 && h.issued <= h'.issued
        && Entitled(h', h'.issued[|h.issued|], a)
      else h'.issued == h.issued
  {
    var reply := Token(cfg, w.files, a.cred, a.form, w.now, a.jti, a.id).1;
    TokenIs(cfg, w, a.cred, a.form, a.jti, a.id);
    AuthenticatesExactly(cfg, w, a.cred);
    assert Inv(cfg, w) by { ReachableKeeps(cfg, w); }
    if reply.Granted? {
      EveryClientIsWellRegistered(cfg, w, a.cred.id);
      AnswersItsClient(cfg, w.files, w.h.clients[a.cred.id], a.form, w.now, a.jti, a.id);
    }
    RecordIs(cfg, w, a.cred, a.form, reply);
    ActRecords(cfg, w, a);
  }

  lemma EntitledLater(cfg: Config, w: World, a: Action, i: Issued, request: Action)
    requires Inv(cfg, w) && Enabled(w, a) && Entitled(w.h, i, request)
    ensures Entitled(Next(cfg, w, a).h, i, request)
  {
    ActRecords(cfg, w, a);
    if a.DoRegister? {
      assert Drawn(a)[0] == a.id;
    }
  }

  ghost predicate AllEntitled(h: History, asked: seq<Action>) {
    && |h.issued| == |asked|
    && forall n {:trigger h.issued[n]} {:trigger asked[n]} :: 0 <= n < |asked| ==> Entitled(h, h.issued[n], asked[n])
  }

  /** The request, if it is one that is answered with tokens. */
  function AnsweredNow(cfg: Config, w: World, a: Action): seq<Action> {
    if a.DoToken? && Token(cfg, w.files, a.cred, a.form, w.now, a.jti, a.id).1.Granted? then [a] else []
  }

  /** The token requests of a run that were answered with tokens, in order. */
  function Answered(cfg: Config, w: World, actions: seq<Action>): seq<Action>
    decreases |actions|
  {
    if actions == [] then []
    else AnsweredNow(cfg, w, actions[0]) + Answered(cfg, Next(cfg, w, actions[0]), actions[1..])
  }

  lemma AllEntitledNext(cfg: Config, w: World, a: Action, asked: seq<Action>)
    requires Reachable(cfg, w) && Enabled(w, a) && AllEntitled(w.h, asked)
    ensures AllEntitled(Next(cfg, w, a).h, asked + AnsweredNow(cfg, w, a))
  {
    var h', asked' := Next(cfg, w, a).h, asked + AnsweredNow(cfg, w, a);
    StepAnswers(cfg, w, a);
    assert Inv(cfg, w) by { ReachableKeeps(cfg, w); }
    forall n | 0 <= n < |asked'| ensures Entitled(h', h'.issued[n], asked'[n]) {
      if n < |asked| {
        assert h'.issued[n] == w.h.issued[n] && asked'[n] == asked[n];
        EntitledLater(cfg, w, a, w.h.issued[n], asked[n]);
      }
    }
  }

  lemma AnsweredStep(cfg: Config, w: World, actions: seq<Action>, asked: seq<Action>)
    requires actions != []
    ensures asked + Answered(cfg, w, actions)
      == (asked + AnsweredNow(cfg, w, actions[0])) + Answered(cfg, Next(cfg, w, actions[0]), actions[1..])
  {
  }

  lemma {:induction false} RunEntitles(cfg: Config, w: World, actions: seq<Action>, asked: seq<Action>)
    requires Reachable(cfg, w) && Runnable(cfg, w, actions) && AllEntitled(w.h, asked)
    ensures AllEntitled(Run(cfg, w, actions).h, asked + Answered(cfg, w, actions))
    decreases |actions|
  {
    if actions == [] {
      assert asked + [] == asked;
    } else {
      var a, w1 := actions[0], Next(cfg, w, actions[0]);
      AllEntitledNext(cfg, w, a, asked);
      Continues(cfg, w, a);
      AnsweredStep(cfg, w, actions, asked);
      assert Run(cfg, w, actions) == Run(cfg, w1, actions[1..]);
      RunEntitles(cfg, w1, actions[1..], asked + AnsweredNow(cfg, w, a));
    }
  }

  /**
   Whoever is issued tokens, at first or by a refresh, sent the secret the named client registered
   with, unless it registered as public: the n-th tokens went to the n-th request answered.
   */
  lemma TokensGoToTheEntitled(cfg: Config, w0: World, actions: seq<Action>, n: nat)
    requires Initial(w0) && Runnable(cfg, w0, actions)
    requires n < |Run(cfg, w0, actions).h.issued|
    ensures
      var h, asked := Run(cfg, w0, actions).h, Answered(cfg, w0, actions);
      && |asked| == |h.issued| && asked[n].DoToken?
      && var i, cred, form := h.issued[n], asked[n].cred, asked[n].form;
      && cred.id == i.response.access.clientId && cred.id in h.clients
      && (h.clients[cred.id].authMethod == "none"
          || (h.clients[cred.id].secret != "" && cred.secret == h.clients[cred.id].secret))
      && match i.source
         case FromCode(uri, verifier) => form.CodeForm? && form.redirectUri == uri && form.verifier == verifier
         case FromRefresh(presented) => form == RefreshForm(presented)
  {
    assert Runnable(cfg, w0, []) && w0 == Run(cfg, w0, []);
    RunEntitles(cfg, w0, actions, []);
    assert [] + Answered(cfg, w0, actions) == Answered(cfg, w0, actions);
  }
}
