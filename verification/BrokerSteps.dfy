/** The token, revocation and deletion endpoints keep the invariant, and so does every run. */
module BrokerSteps {
  import opened Wrappers
  import opened Records
  import opened DocumentStore
  import opened ClientPolicy
  import opened TokenPolicy
  import opened Handlers
  import opened BrokerRuns
  import opened BrokerInvariant
  import Sessions
  import Text

  // --- lifetimes -------------------------------------------------------------

  lemma NewTimes(c: Client, account: string, scopes: seq<string>, nonce: string, g: string, now: int)
    requires now >= 1000
    ensures TimesOk(c, NewRefresh(c, account, scopes, nonce, g, now), now, now + REFRESH_TTL_MS)
  {
  }

  /** Rotation needs 0.7 of a lifetime from a confidential client and stops at the ceiling. */
  lemma RotatedTimes(c: Client, rt: RefreshToken, now: int, expiresAt: int)
    requires TimesOk(c, rt, now, expiresAt) && ShouldRotate(c, rt, now)
    ensures TimesOk(c, Rotated(rt, now), now, now + REFRESH_TTL_MS)
  {
    assert Unix(now) * 1000 <= now;
  }

  /** A put-back never moves the expiry later, and never reaches the one-second fallback. */
  lemma PutBackTimes(c: Client, rt: RefreshToken, now: int, expiresAt: int, consumed: int)
    requires TimesOk(c, rt, now, expiresAt) && rt.exp > Unix(now) && 0 <= consumed <= Unix(now)
    ensures Remaining(rt.exp, now) == rt.exp * 1000 - now > 0
    ensures now + Remaining(rt.exp, now) <= expiresAt
    ensures TimesOk(c, rt.(consumed := consumed), now, now + Remaining(rt.exp, now))
  {
  }

  // --- redeeming a code ------------------------------------------------------

  lemma RedeemIssuedOk(
    cfg: Config, h: History, c: Client, a: AuthCode, code: string, uri: string, verifier: string,
    f: Files, now: int, jti: string, id: string, h': History)
    requires CodeOk(h, code, a) && GrantOk(h, a.grantId) && c.id == a.clientId && uri == a.redirectUri
    requires VerifyPKCE(cfg, verifier, a.challenge)
    requires h'.grants == h.grants && h'.step == h.step + 1
    requires a.grantId in h'.redeemed && h'.redeemed[a.grantId] == Unix(now)
    ensures
      var (_, response) := Issue(cfg, f, c, a.accountId, Text.Fields(a.scope), a.nonce, a.grantId, true, now, jti, id);
      IssuedOk(cfg, h', Issued(response, a.grantId, FromCode(uri, verifier), h.step))
  {
  }

  lemma RedeemedRefreshOk(
    h: History, c: Client, a: AuthCode, code: string, grants: map<string, seq<string>>, now: int, id: string,
    h': History)
    requires CodeOk(h, code, a) && c.id == a.clientId && now >= 1000 && WantsRefreshToken(c, Text.Fields(a.scope))
    requires c.id in h'.clients && h'.clients[c.id] == c && c.id !in h'.deleted
    requires h'.grants == h.grants && a.grantId !in h'.revoked
    requires a.grantId in h'.redeemed && h'.redeemed[a.grantId] == Unix(now)
    requires id in h'.tokens && h'.tokens[id].grant == a.grantId
    requires a.grantId in grants && RefOf(RefreshKey(id)) in grants[a.grantId]
    ensures
      var rt := NewRefresh(c, a.accountId, Text.Fields(a.scope), a.nonce, a.grantId, now);
      RefreshOk(h', grants, now, id, rt, now + REFRESH_TTL_MS)
  {
    NewTimes(c, a.accountId, Text.Fields(a.scope), a.nonce, a.grantId, now);
    Text.NormalisedIdempotent(a.scope);
    assert Text.Join(Text.Fields(a.scope)) == Text.Normalised(a.scope);
  }

  lemma MintedRefreshOk(
    w: World, w2: World, c: Client, a: AuthCode, code: string, rt: RefreshToken, id: string, b: TokenBirth, w': World)
    requires IndexOk(w2.files.grants, w2.h) && CodeOk(w.h, code, a) && c.id == a.clientId && w.now >= 1000
    requires c.id in w2.h.clients && w2.h.clients[c.id] == c && c.id !in w2.h.deleted
    requires w2.h.grants == w.h.grants && a.grantId !in w2.h.revoked && id !in w2.h.tokens
    requires w2.h.redeemed == w.h.redeemed[a.grantId := Unix(w.now)]
    requires a.grantId != "" && b.grant == a.grantId && WantsRefreshToken(c, Text.Fields(a.scope))
    requires rt == NewRefresh(c, a.accountId, Text.Fields(a.scope), a.nonce, a.grantId, w.now)
    requires w'.h == w2.h.(tokens := w2.h.tokens[id := b]) && w'.files == AfterMint(w2.files, rt, id, w.now)
    ensures RefreshOk(w'.h, w'.files.grants, w.now, id, rt, w.now + REFRESH_TTL_MS)
  {
    IndexAdd(AfterPut(w2.files, RefreshKey(id), RefreshDoc(rt), REFRESH_TTL_MS, w.now), a.grantId, RefreshKey(id),
      w2.h, w'.h);
    RedeemedRefreshOk(w.h, c, a, code, w'.files.grants, w.now, id, w'.h);
  }

  lemma MintedRedeem(
    cfg: Config, w: World, w2: World, c: Client, a: AuthCode, code: string, rt: RefreshToken, id: string,
    b: TokenBirth, w': World)
    requires Inv(cfg, w2) && CodeOk(w.h, code, a) && c.id == a.clientId && w.now == w2.now == w'.now
    requires SetsOk(w.h, w.now)
    requires c.id in w2.h.clients && w2.h.clients[c.id] == c && c.id !in w2.h.deleted
    requires w2.h.grants == w.h.grants && w2.h.revoked == w.h.revoked && w2.h.tokens == w.h.tokens
    requires w2.h.redeemed == w.h.redeemed[a.grantId := Unix(w.now)] && w2.h.step == w.h.step + 1
    requires Minted(id) && id in w2.h.used && id !in w.h.used && a.grantId != ""
    requires b == TokenBirth(a.grantId, None, w.h.step) && WantsRefreshToken(c, Text.Fields(a.scope))
    requires rt == NewRefresh(c, a.accountId, Text.Fields(a.scope), a.nonce, a.grantId, w.now)
    requires w'.h == w2.h.(tokens := w2.h.tokens[id := b]) && w'.files == AfterMint(w2.files, rt, id, w.now)
    ensures Inv(cfg, w')
  {
    MintedRefreshOk(w, w2, c, a, code, rt, id, b, w');
    MintKeeps(cfg, w2, rt, id, b, w');
  }

  /** The state right after a live code has been claimed. */
  function Spent(w: World, code: string, g: string): World {
    World(AfterDestroy(w.files, CodeKey(code)), w.now, w.h.(redeemed := w.h.redeemed[g := Unix(w.now)]))
  }

  lemma RedeemRecorded(
    cfg: Config, w: World, c: Client, a: AuthCode, form: TokenForm, jti: string, id: string, w1: World,
    response: TokenResponse, w2: World)
    requires form.CodeForm? && SetsOk(w.h, w.now) && Inv(cfg, w1) && w1 == Spent(w, form.code, a.grantId)
    requires CodeOk(w.h, form.code, a) && GrantOk(w.h, a.grantId)
    requires a.clientId == c.id && form.redirectUri == a.redirectUri && VerifyPKCE(cfg, form.verifier, a.challenge)
    requires response ==
      Issue(cfg, w1.files, c, a.accountId, Text.Fields(a.scope), a.nonce, a.grantId, true, w.now, jti, id).1
    requires
      var i := Issued(response, a.grantId, FromCode(form.redirectUri, form.verifier), w.h.step);
      w2 == w1.(h := Draw(w1.h.(issued := w1.h.issued + [i]), [jti, id]))
    ensures Inv(cfg, w2)
  {
    var i := Issued(response, a.grantId, FromCode(form.redirectUri, form.verifier), w.h.step);
    RedeemIssuedOk(cfg, w.h, c, a, form.code, form.redirectUri, form.verifier, w1.files, w.now, jti, id, w2.h);
    IssueKeeps(cfg, w1, i, [jti, id], w2);
  }

  lemma RedeemGranted(
    cfg: Config, w: World, c: Client, a: AuthCode, form: TokenForm, jti: string, id: string, w1: World, w': World)
    requires form.CodeForm? && SetsOk(w.h, w.now) && Inv(cfg, w1) && w1 == Spent(w, form.code, a.grantId)
    requires Fresh(w.h.used, [jti, id]) && w'.now == w.now
    requires CodeOk(w.h, form.code, a) && GrantOk(w.h, a.grantId)
    requires c.id in w.h.clients && c.id !in w.h.deleted && w.h.clients[c.id] == c
    requires a.clientId == c.id && form.redirectUri == a.redirectUri && VerifyPKCE(cfg, form.verifier, a.challenge)
    requires
      var (f2, response) :=
        Issue(cfg, w1.files, c, a.accountId, Text.Fields(a.scope), a.nonce, a.grantId, true, w.now, jti, id);
      && w'.files == f2
      && w'.h == Draw(RecordRedeemed(w1.h, a, form, response), [jti, id])
    ensures Inv(cfg, w')
  {
    var drawn := [jti, id];
    assert drawn[1] == id;
    var (f2, response) :=
      Issue(cfg, w1.files, c, a.accountId, Text.Fields(a.scope), a.nonce, a.grantId, true, w.now, jti, id);
    var i := Issued(response, a.grantId, FromCode(form.redirectUri, form.verifier), w.h.step);
    var w2 := w1.(h := Draw(w1.h.(issued := w1.h.issued + [i]), drawn));
    RedeemRecorded(cfg, w, c, a, form, jti, id, w1, response, w2);
    if response.refresh.None? {
      assert w' == w2;
    } else {
      var b := TokenBirth(a.grantId, None, w.h.step);
      var rt := NewRefresh(c, a.accountId, Text.Fields(a.scope), a.nonce, a.grantId, w.now);
      assert w'.h == w2.h.(tokens := w2.h.tokens[id := b]);
      MintedRedeem(cfg, w, w2, c, a, form.code, rt, id, b, w');
    }
  }

  lemma RedeemKeeps(
    cfg: Config, w: World, c: Client, form: TokenForm, jti: string, id: string, reply: TokenReply, w': World)
    requires Inv(cfg, w) && Fresh(w.h.used, [jti, id]) && form.CodeForm? && w'.now == w.now
    requires c.id in w.h.clients && c.id !in w.h.deleted && w.h.clients[c.id] == c
    requires (w'.files, reply) ==
      RedeemCode(cfg, w.files, c, form.code, form.redirectUri, form.verifier, w.now, jti, id)
    requires w'.h == Draw(RecordRedeem(w, form, reply), [jti, id])
    ensures Inv(cfg, w')
  {
    if Found(w.files, CodeKey(form.code), w.now).None? {
      RemovalKeeps(cfg, w, w'.files, 0);
      DrawKeeps(cfg, World(w'.files, w.now, w.h), [jti, id]);
    } else {
      CodeFacts(cfg, w, form.code);
      var a := Found(w.files, CodeKey(form.code), w.now).value.code;
      var w1 := Spent(w, form.code, a.grantId);
      SpendKeeps(cfg, w, form.code, a.grantId, w1);
      if reply.Rejected? {
        DrawKeeps(cfg, w1, [jti, id]);
      } else {
        RedeemGranted(cfg, w, c, a, form, jti, id, w1, w');
      }
    }
  }

  // --- refreshing ------------------------------------------------------------

  lemma RefreshFacts(cfg: Config, w: World, presented: string)
    requires Inv(cfg, w) && Found(w.files, RefreshKey(presented), w.now).Some?
    ensures
      var d := w.files.docs[RefreshKey(presented)];
      && d.payload == Found(w.files, RefreshKey(presented), w.now).value && d.payload.RefreshDoc?
      && RefreshOk(w.h, w.files.grants, w.now, presented, d.payload.token, d.expiresAt)
      && GrantOk(w.h, d.payload.token.grantId) && TokenOk(w.h, presented)
      && Minted(presented) && presented in w.h.used
  {
    var k := RefreshKey(presented);
    assert DocOk(w.h, w.files.grants, w.now, k, w.files.docs[k]);
    assert GrantOk(w.h, w.files.docs[k].payload.token.grantId);
    assert TokenOk(w.h, presented);
  }

  lemma RefreshIssuedOk(
    cfg: Config, h: History, c: Client, rt: RefreshToken, presented: string, grants: map<string, seq<string>>,
    expiresAt: int, f: Files, now: int, jti: string, id: string, refresh: Option<string>, h': History)
    requires RefreshOk(h, grants, now, presented, rt, expiresAt) && GrantOk(h, rt.grantId) && TokenOk(h, presented)
    requires c.id == rt.clientId && rt.exp > Unix(now)
    requires Extends(h, h') && h'.step == h.step + 1
    ensures
      var (_, response) :=
        Issue(cfg, f, c, rt.accountId, Text.Fields(rt.scope), rt.nonce, rt.grantId, false, now, jti, id);
      IssuedOk(cfg, h', Issued(response.(refresh := refresh), rt.grantId, FromRefresh(presented), h.step))
  {
    Text.NormalisedIdempotent(h.grants[rt.grantId].request.scope);
    assert Text.Join(Text.Fields(rt.scope)) == rt.scope;
  }

  /** The token that comes out of a refresh: its successor's record, or its own put back. */
  lemma RefreshOkAgain(
    h: History, grants: map<string, seq<string>>, now: int, presented: string, rt: RefreshToken, expiresAt: int,
    h': History, grants': map<string, seq<string>>, id: string, rt': RefreshToken, expiresAt': int)
    requires RefreshOk(h, grants, now, presented, rt, expiresAt) && Extends(h, h')
    requires h'.revoked == h.revoked && h'.deleted == h.deleted
    requires id in h'.tokens && h'.tokens[id].grant == rt.grantId
    requires rt.grantId in grants' && RefOf(RefreshKey(id)) in grants'[rt.grantId]
    requires rt' == rt.(rotations := rt'.rotations, iat := rt'.iat, exp := rt'.exp, consumed := rt'.consumed)
    requires TimesOk(h.clients[rt.clientId], rt', now, expiresAt')
    ensures RefreshOk(h', grants', now, id, rt', expiresAt')
  {
  }

  lemma PutBackAgain(
    cfg: Config, w: World, w2: World, c: Client, presented: string, rt: RefreshToken, expiresAt: int, consumed: int,
    w': World)
    requires RefreshOk(w.h, w.files.grants, w.now, presented, rt, expiresAt) && Minted(presented)
    requires presented in w.h.used && rt.clientId == c.id && w.h.clients[c.id] == c
    requires rt.exp > Unix(w.now) && 0 <= consumed <= Unix(w.now)
    requires Inv(cfg, w2) && Extends(w.h, w2.h) && w2.h.revoked == w.h.revoked && w2.h.deleted == w.h.deleted
    requires w2.now == w.now == w'.now && w'.h == w2.h
    requires rt.grantId in w2.files.grants && RefOf(RefreshKey(presented)) in w2.files.grants[rt.grantId]
    requires w'.files ==
      AfterPut(w2.files, RefreshKey(presented), RefreshDoc(rt.(consumed := consumed)), Remaining(rt.exp, w.now), w.now)
    ensures Inv(cfg, w')
  {
    PutBackTimes(c, rt, w.now, expiresAt, consumed);
    var rt' := rt.(consumed := consumed);
    var ttl := Remaining(rt.exp, w.now);
    RefreshOkAgain(w.h, w.files.grants, w.now, presented, rt, expiresAt,
      w2.h, w2.files.grants, presented, rt', w.now + ttl);
    PutBackKeeps(cfg, w2, rt', presented, ttl, w');
  }

  lemma MintSuccessor(
    cfg: Config, w: World, w2: World, c: Client, presented: string, rt: RefreshToken, expiresAt: int, id: string,
    b: TokenBirth, w': World)
    requires RefreshOk(w.h, w.files.grants, w.now, presented, rt, expiresAt) && TokenOk(w.h, presented)
    requires rt.clientId == c.id && w.h.clients[c.id] == c && ShouldRotate(c, rt, w.now) && rt.grantId != ""
    requires Inv(cfg, w2) && Extends(w.h, w2.h) && w2.h.revoked == w.h.revoked && w2.h.deleted == w.h.deleted
    requires w2.now == w.now == w'.now && w2.h.tokens == w.h.tokens && w2.h.step == w.h.step + 1
    requires Minted(id) && id in w2.h.used && id !in w.h.tokens
    requires b == TokenBirth(rt.grantId, Some(presented), w.h.step)
    requires w'.h == w2.h.(tokens := w2.h.tokens[id := b])
    requires w'.files == AfterMint(w2.files, Rotated(rt, w.now), id, w.now)
    ensures Inv(cfg, w')
  {
    SuccessorOk(w, w2, c, presented, rt, expiresAt, id, b, w');
    MintKeeps(cfg, w2, Rotated(rt, w.now), id, b, w');
  }

  lemma SuccessorIndexed(w2: World, rt: RefreshToken, id: string, b: TokenBirth, now: int, w': World)
    requires IndexOk(w2.files.grants, w2.h) && id !in w2.h.tokens && b.grant == rt.grantId && rt.grantId != ""
    requires w'.h == w2.h.(tokens := w2.h.tokens[id := b])
    requires w'.files == AfterMint(w2.files, Rotated(rt, now), id, now)
    ensures Extends(w2.h, w'.h)
    ensures rt.grantId in w'.files.grants && RefOf(RefreshKey(id)) in w'.files.grants[rt.grantId]
    ensures rt.grantId in w2.files.grants ==>
      forall ref :: ref in w2.files.grants[rt.grantId] ==> ref in w'.files.grants[rt.grantId]
  {
    var f := AfterPut(w2.files, RefreshKey(id), RefreshDoc(Rotated(rt, now)), REFRESH_TTL_MS, now);
    IndexAdd(f, rt.grantId, RefreshKey(id), w2.h, w'.h);
  }

  lemma SuccessorOk(
    w: World, w2: World, c: Client, presented: string, rt: RefreshToken, expiresAt: int, id: string, b: TokenBirth,
    w': World)
    requires RefreshOk(w.h, w.files.grants, w.now, presented, rt, expiresAt)
    requires rt.clientId == c.id && w.h.clients[c.id] == c && ShouldRotate(c, rt, w.now) && rt.grantId != ""
    requires IndexOk(w2.files.grants, w2.h) && Extends(w.h, w2.h)
    requires w2.h.revoked == w.h.revoked && w2.h.deleted == w.h.deleted
    requires w2.h.tokens == w.h.tokens && id !in w.h.tokens && b.grant == rt.grantId
    requires w'.h == w2.h.(tokens := w2.h.tokens[id := b])
    requires w'.files == AfterMint(w2.files, Rotated(rt, w.now), id, w.now)
    ensures RefreshOk(w'.h, w'.files.grants, w.now, id, Rotated(rt, w.now), w.now + REFRESH_TTL_MS)
    ensures Extends(w.h, w'.h)
    ensures rt.grantId in w2.files.grants ==>
      && rt.grantId in w'.files.grants
      && forall ref :: ref in w2.files.grants[rt.grantId] ==> ref in w'.files.grants[rt.grantId]
  {
    RotatedTimes(c, rt, w.now, expiresAt);
    SuccessorIndexed(w2, rt, id, b, w.now, w');
    RefreshOkAgain(w.h, w.files.grants, w.now, presented, rt, expiresAt,
      w'.h, w'.files.grants, id, Rotated(rt, w.now), w.now + REFRESH_TTL_MS);
  }

  /** The state once the presented token is claimed and the new access token recorded. */
  function Refreshing(w: World, presented: string, i: Issued, drawn: seq<string>): World {
    World(AfterDestroy(w.files, RefreshKey(presented)), w.now, Draw(w.h.(issued := w.h.issued + [i]), drawn))
  }

  lemma RefreshRecorded(
    cfg: Config, w: World, c: Client, presented: string, jti: string, id: string, refresh: Option<string>,
    i: Issued, w2: World)
    requires Inv(cfg, w) && Live(w.files, RefreshKey(presented), w.now)
    requires w.files.docs[RefreshKey(presented)].payload.RefreshDoc?
    requires c.id in w.h.clients && w.h.clients[c.id] == c
    requires
      var rt := w.files.docs[RefreshKey(presented)].payload.token;
      var (_, response) :=
        Issue(cfg, w2.files, c, rt.accountId, Text.Fields(rt.scope), rt.nonce, rt.grantId, false, w.now, jti, id);
      && rt.clientId == c.id && rt.exp > Unix(w.now)
      && i == Issued(response.(refresh := refresh), rt.grantId, FromRefresh(presented), w.h.step)
    requires w2 == Refreshing(w, presented, i, [jti, id])
    ensures Inv(cfg, w2)
  {
    RefreshFacts(cfg, w, presented);
    var d := w.files.docs[RefreshKey(presented)];
    RefreshIssuedOk(cfg, w.h, c, d.payload.token, presented, w.files.grants, d.expiresAt, w2.files, w.now, jti, id,
      refresh, w2.h);
    RemovalKeeps(cfg, w, w2.files, 0);
    IssueKeeps(cfg, w2.(h := w.h), i, [jti, id], w2);
  }

  lemma RefreshRotated(
    cfg: Config, w: World, w2: World, c: Client, presented: string, rt: RefreshToken, expiresAt: int, id: string,
    w3: World, w': World)
    requires RefreshOk(w.h, w.files.grants, w.now, presented, rt, expiresAt) && TokenOk(w.h, presented)
    requires Minted(presented) && presented in w.h.used && rt.exp > Unix(w.now)
    requires rt.clientId == c.id && w.h.clients[c.id] == c && ShouldRotate(c, rt, w.now) && rt.grantId != ""
    requires Inv(cfg, w2) && Extends(w.h, w2.h) && w2.h.revoked == w.h.revoked && w2.h.deleted == w.h.deleted
    requires w2.now == w.now == w'.now && w2.h.tokens == w.h.tokens && w2.h.step == w.h.step + 1
    requires w2.files.grants == w.files.grants
    requires Minted(id) && id in w2.h.used && id !in w.h.tokens
    requires w3.now == w.now && w3.files == AfterMint(w2.files, Rotated(rt, w.now), id, w.now)
    requires w3.h == w'.h == w2.h.(tokens := w2.h.tokens[id := TokenBirth(rt.grantId, Some(presented), w.h.step)])
    requires w'.files ==
      AfterPut(w3.files, RefreshKey(presented), RefreshDoc(rt.(consumed := Unix(w.now))),
        Remaining(rt.exp, w.now), w.now)
    ensures Inv(cfg, w')
  {
    var b := TokenBirth(rt.grantId, Some(presented), w.h.step);
    MintSuccessor(cfg, w, w2, c, presented, rt, expiresAt, id, b, w3);
    SuccessorOk(w, w2, c, presented, rt, expiresAt, id, b, w3);
    PutBackAgain(cfg, w, w3, c, presented, rt, expiresAt, Unix(w.now), w');
  }

  /** The two ways a refresh ends: the presented token is replaced, or put back as it was. */
  lemma RefreshGrantedRotating(
    cfg: Config, w: World, c: Client, presented: string, rt: RefreshToken, jti: string, id: string,
    i: Issued, w2: World, w': World)
    requires Inv(cfg, w) && Fresh(w.h.used, [jti, id]) && Live(w.files, RefreshKey(presented), w.now)
    requires w.files.docs[RefreshKey(presented)].payload == RefreshDoc(rt)
    requires rt.clientId == c.id && c.id in w.h.clients && w.h.clients[c.id] == c
    requires rt.exp > Unix(w.now) && ShouldRotate(c, rt, w.now)
    requires Inv(cfg, w2) && w2 == Refreshing(w, presented, i, [jti, id])
    requires w'.now == w.now
    requires w'.h == w2.h.(tokens := w2.h.tokens[id := TokenBirth(rt.grantId, Some(presented), w.h.step)])
    requires w'.files == AfterPut(AfterMint(w2.files, Rotated(rt, w.now), id, w.now),
      RefreshKey(presented), RefreshDoc(rt.(consumed := Unix(w.now))), Remaining(rt.exp, w.now), w.now)
    ensures Inv(cfg, w')
  {
    assert [jti, id][1] == id;
    RefreshFacts(cfg, w, presented);
    DrawFacts(w.h.(issued := w.h.issued + [i]), [jti, id]);
    var w3 := World(AfterMint(w2.files, Rotated(rt, w.now), id, w.now), w.now, w'.h);
    RefreshRotated(cfg, w, w2, c, presented, rt, w.files.docs[RefreshKey(presented)].expiresAt, id, w3, w');
  }

  lemma RefreshGrantedKeeping(
    cfg: Config, w: World, c: Client, presented: string, rt: RefreshToken, drawn: seq<string>,
    i: Issued, w2: World, w': World)
    requires Inv(cfg, w) && Live(w.files, RefreshKey(presented), w.now)
    requires w.files.docs[RefreshKey(presented)].payload == RefreshDoc(rt)
    requires rt.clientId == c.id && c.id in w.h.clients && w.h.clients[c.id] == c && rt.exp > Unix(w.now)
    requires Inv(cfg, w2) && w2 == Refreshing(w, presented, i, drawn)
    requires w'.now == w.now && w'.h == w2.h
    requires w'.files ==
      AfterPut(w2.files, RefreshKey(presented), RefreshDoc(rt), Remaining(rt.exp, w.now), w.now)
    ensures Inv(cfg, w')
  {
    RefreshFacts(cfg, w, presented);
    DrawFacts(w.h.(issued := w.h.issued + [i]), drawn);
    assert rt.(consumed := rt.consumed) == rt;
    PutBackAgain(cfg, w, w2, c, presented, rt, w.files.docs[RefreshKey(presented)].expiresAt, rt.consumed, w');
  }

  lemma RefreshGranted(
    cfg: Config, w: World, c: Client, presented: string, jti: string, id: string, response: TokenResponse, w': World)
    requires Inv(cfg, w) && Fresh(w.h.used, [jti, id]) && w'.now == w.now
    requires c.id in w.h.clients && w.h.clients[c.id] == c
    requires (w'.files, Granted(response)) == Refresh(cfg, w.files, c, presented, w.now, jti, id)
    requires w'.h == Draw(RecordRefresh(w, presented, Granted(response)), [jti, id])
    ensures Inv(cfg, w')
  {
    var rt := w.files.docs[RefreshKey(presented)].payload.token;
    var i := Issued(response, rt.grantId, FromRefresh(presented), w.h.step);
    var w2 := Refreshing(w, presented, i, [jti, id]);
    assert presented in w.h.used && rt.exp != 0 by { RefreshFacts(cfg, w, presented); }
    assert [jti, id][1] == id;
    RefreshRecorded(cfg, w, c, presented, jti, id, response.refresh, i, w2);
    if ShouldRotate(c, rt, w.now) {
      RefreshGrantedRotating(cfg, w, c, presented, rt, jti, id, i, w2, w');
    } else {
      RefreshGrantedKeeping(cfg, w, c, presented, rt, [jti, id], i, w2, w');
    }
  }

  /** What `Refresh` and the record of it amount to when it is refused. */
  lemma RefusedRefresh(cfg: Config, w: World, c: Client, presented: string, jti: string, id: string)
    requires Refresh(cfg, w.files, c, presented, w.now, jti, id).1.Rejected?
    ensures
      var k := RefreshKey(presented);
      var f1 := AfterClaim(w.files, k);
      var (f', reply) := Refresh(cfg, w.files, c, presented, w.now, jti, id);
      if reply.fault == TokenReused then
        && Found(w.files, k, w.now).Some? && w.files.docs[k].payload.RefreshDoc?
        && var rt := w.files.docs[k].payload.token;
        && rt.clientId == c.id && (rt.exp != 0 ==> rt.exp > Unix(w.now)) && PastGrace(rt, w.now)
        && f' == (if rt.grantId != "" then AfterRevokeGrant(f1, rt.grantId) else f1)
        && RecordRefresh(w, presented, reply) == w.h.(revoked := w.h.revoked + {rt.grantId})
      else f' == f1 && RecordRefresh(w, presented, reply) == w.h
  {
  }

  lemma RefreshReusedKeeps(cfg: Config, w: World, presented: string, drawn: seq<string>, g: string, w': World)
    requires Inv(cfg, w) && Found(w.files, RefreshKey(presented), w.now).Some? && w'.now == w.now
    requires w.files.docs[RefreshKey(presented)].payload.RefreshDoc?
    requires g == w.files.docs[RefreshKey(presented)].payload.token.grantId
    requires w'.files == AfterRevokeGrant(AfterClaim(w.files, RefreshKey(presented)), g)
    requires w'.h == Draw(w.h.(revoked := w.h.revoked + {g}), drawn)
    ensures Inv(cfg, w')
  {
    RefreshFacts(cfg, w, presented);
    var w1 := World(AfterClaim(w.files, RefreshKey(presented)), w.now, w.h);
    RemovalKeeps(cfg, w, w1.files, 0);
    var w2 := World(w'.files, w.now, w.h.(revoked := w.h.revoked + {g}));
    RevokeKeeps(cfg, w1, g, w2);
    DrawKeeps(cfg, w2, drawn);
  }

  lemma RefreshRefusedKeeps(cfg: Config, w: World, presented: string, drawn: seq<string>, w': World)
    requires Inv(cfg, w) && w'.now == w.now && w'.files == AfterClaim(w.files, RefreshKey(presented))
    requires w'.h == Draw(w.h, drawn)
    ensures Inv(cfg, w')
  {
    RemovalKeeps(cfg, w, w'.files, 0);
    DrawKeeps(cfg, World(w'.files, w.now, w.h), drawn);
  }

  lemma RefreshKeeps(
    cfg: Config, w: World, c: Client, presented: string, jti: string, id: string, reply: TokenReply, w': World)
    requires Inv(cfg, w) && Fresh(w.h.used, [jti, id]) && w'.now == w.now
    requires c.id in w.h.clients && c.id !in w.h.deleted && w.h.clients[c.id] == c
    requires (w'.files, reply) == Refresh(cfg, w.files, c, presented, w.now, jti, id)
    requires w'.h == Draw(RecordRefresh(w, presented, reply), [jti, id])
    ensures Inv(cfg, w')
  {
    if reply.Granted? {
      RefreshGranted(cfg, w, c, presented, jti, id, reply.response, w');
    } else {
      RefusedRefresh(cfg, w, c, presented, jti, id);
      if reply.fault == TokenReused {
        GrantHasName(cfg, w, presented);
        RefreshReusedKeeps(cfg, w, presented, [jti, id], w.files.docs[RefreshKey(presented)].payload.token.grantId, w');
      } else {
        RefreshRefusedKeeps(cfg, w, presented, [jti, id], w');
      }
    }
  }

  lemma GrantHasName(cfg: Config, w: World, presented: string)
    requires Inv(cfg, w) && Found(w.files, RefreshKey(presented), w.now).Some?
    ensures
      var d := w.files.docs[RefreshKey(presented)];
      d.payload.RefreshDoc? && d.payload.token.grantId != ""
  {
    RefreshFacts(cfg, w, presented);
  }

  // --- revocation and deletion -----------------------------------------------

  lemma DropTokenKeeps(cfg: Config, w: World, clientId: string, token: string, w': World)
    requires Inv(cfg, w) && w'.now == w.now
    requires w'.files == DropToken(w.files, clientId, token, w.now)
    requires w'.h == w.h.(revoked := w.h.revoked + GrantSet(OwnGrant(w.files, clientId, token, w.now)))
    ensures Inv(cfg, w')
  {
    match OwnGrant(w.files, clientId, token, w.now) {
      case None =>
        assert w'.h == w.h;
        RemovalKeeps(cfg, w, w'.files, 0);
      case Some(g) =>
        RefreshFacts(cfg, w, token);
        var w1 := w'.(files := AfterRevokeGrant(w.files, g));
        RevokeKeeps(cfg, w, g, w1);
        RemovalKeeps(cfg, w1, w'.files, 0);
    }
  }

  lemma {:induction false} DropTokensKeep(cfg: Config, w: World, clientId: string, ids: seq<string>, w': World)
    requires Inv(cfg, w) && w'.now == w.now
    requires w'.files == DropTokens(w.files, clientId, ids, w.now)
    requires w'.h == w.h.(revoked := w.h.revoked + DroppedGrants(w.files, clientId, ids, w.now))
    ensures Inv(cfg, w')
    decreases |ids|
  {
    if ids == [] {
      assert w'.h == w.h;
    } else {
      var before, last := ids[..|ids| - 1], ids[|ids| - 1];
      var w1 := World(
        DropTokens(w.files, clientId, before, w.now), w.now,
        w.h.(revoked := w.h.revoked + DroppedGrants(w.files, clientId, before, w.now)));
      DropTokensKeep(cfg, w, clientId, before, w1);
      assert w'.h == w1.h.(revoked := w1.h.revoked + GrantSet(OwnGrant(w1.files, clientId, last, w.now)));
      DropTokenKeeps(cfg, w1, clientId, last, w');
    }
  }

  /** Whatever the order of the listing, no listed token of this client is left. */
  lemma {:induction false} DropTokensRemove(f: Files, clientId: string, ids: seq<string>, now: int)
    requires forall k :: k in f.docs ==> k.id != ""
    ensures
      var f' := DropTokens(f, clientId, ids, now);
      forall k :: k in f'.docs ==>
        && k in f.docs && f'.docs[k] == f.docs[k]
        && !(k.model.RefreshModel? && k.id in ids && f.docs[k].payload.RefreshDoc?
            && f.docs[k].payload.token.clientId == clientId)
    decreases |ids|
  {
    if ids != [] {
      var before, last := ids[..|ids| - 1], ids[|ids| - 1];
      assert ids == before + [last];
      DropTokensRemove(f, clientId, before, now);
    }
  }

  lemma DeletedHistory(cfg: Config, w: World, id: string, w': World)
    requires SetsOk(w.h, w.now) && id in w.h.clients && w' == w.(h := w.h.(deleted := w.h.deleted + {id}))
    ensures Grows(cfg, w, w')
  {
  }

  lemma DeletedUndisturbed(cfg: Config, w: World, id: string, w': World)
    requires Inv(cfg, w) && ClientKey(id) !in w.files.docs
    requires forall k :: k in w.files.docs && w.files.docs[k].payload.RefreshDoc? ==>
      w.files.docs[k].payload.token.clientId != id
    requires w' == w.(h := w.h.(deleted := w.h.deleted + {id}))
    ensures Otherwise(w, w', {})
  {
    forall k | k in w.files.docs
      ensures Undisturbed(w'.h, w.files.grants, w'.files.grants, k, w.files.docs[k])
    {
      assert DocOk(w.h, w.files.grants, w.now, k, w.files.docs[k]);
    }
  }

  lemma MarkDeleted(cfg: Config, w: World, id: string, w': World)
    requires Inv(cfg, w) && id in w.h.clients && ClientKey(id) !in w.files.docs
    requires forall k :: k in w.files.docs && w.files.docs[k].payload.RefreshDoc? ==>
      w.files.docs[k].payload.token.clientId != id
    requires w' == w.(h := w.h.(deleted := w.h.deleted + {id}))
    ensures Inv(cfg, w')
  {
    DeletedHistory(cfg, w, id, w');
    DeletedUndisturbed(cfg, w, id, w');
    IndexCarries(w.files.grants, w'.files.grants, w.h, w'.h);
    Assemble(cfg, w, w', {});
  }

  /** After the deletion loop no refresh token of the client is stored. */
  lemma DeletionIsComplete(cfg: Config, w: World, id: string, order: seq<string>)
    requires Inv(cfg, w) && Enumerates(order, LiveIds(w.files, RefreshModel, w.now))
    ensures
      var f := DropTokens(Cleaned(w.files, [RefreshModel], w.now), id, order, w.now);
      && (forall k :: k in f.docs ==> k in w.files.docs && f.docs[k] == w.files.docs[k])
      && forall k :: k in f.docs && f.docs[k].payload.RefreshDoc? ==> f.docs[k].payload.token.clientId != id
  {
    var start := Cleaned(w.files, [RefreshModel], w.now);
    forall k | k in start.docs
      ensures k.id != "" && (start.docs[k].payload.RefreshDoc? ==> k.model.RefreshModel? && k.id in order)
    {
      assert DocOk(w.h, w.files.grants, w.now, k, w.files.docs[k]);
      if start.docs[k].payload.RefreshDoc? {
        assert Live(w.files, k, w.now);
        assert k.id in LiveIds(w.files, RefreshModel, w.now);
      }
    }
    DropTokensRemove(start, id, order, w.now);
  }

  lemma DeleteKeeps(cfg: Config, w: World, id: string, order: seq<string>, w': World)
    requires Inv(cfg, w) && w'.now == w.now
    requires LoadClient(w.files, id, w.now).Some?
    requires Enumerates(order, LiveIds(ClientGone(w.files, id, w.now), RefreshModel, w.now))
    requires
      var start := Cleaned(ClientGone(w.files, id, w.now), [RefreshModel], w.now);
      && w'.files == DropTokens(start, id, order, w.now)
      && w'.h == w.h.(deleted := w.h.deleted + {id}, revoked := w.h.revoked + DroppedGrants(start, id, order, w.now))
    ensures Inv(cfg, w')
  {
    ClientFacts(cfg, w, id);
    var gone := World(ClientGone(w.files, id, w.now), w.now, w.h);
    RemovalKeeps(cfg, w, gone.files, 0);
    var start := Cleaned(gone.files, [RefreshModel], w.now);
    RemovalKeeps(cfg, gone, start, 0);
    var w1 := w'.(h := w.h.(revoked := w.h.revoked + DroppedGrants(start, id, order, w.now)));
    DropTokensKeep(cfg, World(start, w.now, w.h), id, order, w1);
    DeletionIsComplete(cfg, gone, id, order);
    MarkDeleted(cfg, w1, id, w');
  }

  // --- every step, every run -------------------------------------------------

  lemma TokenKeeps(cfg: Config, w: World, a: Action)
    requires Inv(cfg, w) && Enabled(w, a) && a.DoToken?
    ensures Inv(cfg, Next(cfg, w, a))
  {
    var w' := Next(cfg, w, a);
    AuthenticatedFacts(cfg, w, a.cred);
    match Authenticate(w.files, a.cred, w.now) {
      case None =>
        DrawKeeps(cfg, w, Drawn(a));
        assert w' == w.(h := Draw(w.h, Drawn(a)));
      case Some(c) =>
        var reply := Token(cfg, w.files, a.cred, a.form, w.now, a.jti, a.id).1;
        match a.form {
          case CodeForm(_, _, _) => RedeemKeeps(cfg, w, c, a.form, a.jti, a.id, reply, w');
          case RefreshForm(presented) => RefreshKeeps(cfg, w, c, presented, a.jti, a.id, reply, w');
          case OtherForm(_) => DrawKeeps(cfg, w, Drawn(a));
        }
    }
  }

  lemma RevokeActionKeeps(cfg: Config, w: World, a: Action)
    requires Inv(cfg, w) && a.DoRevoke?
    ensures Inv(cfg, Act(cfg, w, a))
  {
    AuthenticatedFacts(cfg, w, a.cred);
    var client := Authenticate(w.files, a.cred, w.now);
    if client.Some? {
      DropTokenKeeps(cfg, w, client.value.id, a.token, Act(cfg, w, a));
    }
  }

  lemma DeleteActionKeeps(cfg: Config, w: World, a: Action)
    requires Inv(cfg, w) && Enabled(w, a) && a.DoDelete?
    ensures Inv(cfg, Act(cfg, w, a))
  {
    ClientFacts(cfg, w, a.id);
    if LoadClient(w.files, a.id, w.now).Some? {
      DeleteKeeps(cfg, w, a.id, a.order, Act(cfg, w, a));
    }
  }

  lemma AuthorizeActionKeeps(cfg: Config, w: World, a: Action)
    requires Inv(cfg, w) && Enabled(w, a) && a.DoAuthorize?
    ensures Inv(cfg, Next(cfg, w, a))
  {
    ClientFacts(cfg, w, a.q.clientId);
    var (f', reply) := Authorize(cfg, w.files, a.q, a.id, w.now);
    if reply.Pending? {
      var c := LoadClient(w.files, a.q.clientId, w.now).value;
      AuthorizeKeeps(cfg, w, c, a.q, a.id, Next(cfg, w, a));
    } else {
      DrawKeeps(cfg, w, Drawn(a));
    }
  }

  lemma InteractActionKeeps(cfg: Config, w: World, a: Action)
    requires Inv(cfg, w) && Enabled(w, a) && a.DoInteract?
    ensures Inv(cfg, Next(cfg, w, a))
  {
    var w' := Next(cfg, w, a);
    var k := RequestKey(a.uid);
    var (f', reply) := Interact(w.files, a.uid, a.browsers, a.cookie, a.grant, a.code, w.now);
    if reply.CodeSent? {
      assert DocOk(w.h, w.files.grants, w.now, k, w.files.docs[k]);
      var b := GrantBirth(
        a.uid, w.files.docs[k].payload.request, a.code, a.browsers, a.cookie,
        Sessions.Found(a.browsers, a.cookie, w.now).value, w.now, w.h.step);
      InteractKeeps(cfg, w, b, a.grant, w');
    } else {
      RemovalKeeps(cfg, w, f', 0);
      DrawKeeps(cfg, World(f', w.now, w.h), Drawn(a));
    }
  }

  lemma RegisterActionKeeps(cfg: Config, w: World, a: Action)
    requires Inv(cfg, w) && Enabled(w, a) && a.DoRegister?
    ensures Inv(cfg, Next(cfg, w, a))
  {
    var (f', reply) := Register(cfg, w.files, a.r, a.id, a.secret, a.rat, w.now);
    if reply.Registered? {
      RegisterKeeps(cfg, w, reply.client, a.rat, a.secret, Next(cfg, w, a));
    } else {
      DrawKeeps(cfg, w, Drawn(a));
    }
  }

  lemma NextKeeps(cfg: Config, w: World, a: Action)
    requires Inv(cfg, w) && Enabled(w, a)
    ensures Inv(cfg, Next(cfg, w, a))
  {
    match a {
      case DoRegister(_, _, _, _) => RegisterActionKeeps(cfg, w, a);
      case DoAuthorize(_, _) => AuthorizeActionKeeps(cfg, w, a);
      case DoInteract(_, _, _, _, _) => InteractActionKeeps(cfg, w, a);
      case DoToken(_, _, _, _) => TokenKeeps(cfg, w, a);
      case DoRevoke(_, _) =>
        RevokeActionKeeps(cfg, w, a);
        DrawKeeps(cfg, Act(cfg, w, a), Drawn(a));
      case DoDelete(_, _) =>
        DeleteActionKeeps(cfg, w, a);
        DrawKeeps(cfg, Act(cfg, w, a), Drawn(a));
      case Wait(ms) =>
        RemovalKeeps(cfg, w, w.files, ms);
        DrawKeeps(cfg, Act(cfg, w, a), Drawn(a));
      case _ =>
        RemovalKeeps(cfg, w, Act(cfg, w, a).files, 0);
        DrawKeeps(cfg, Act(cfg, w, a), Drawn(a));
    }
  }

  lemma {:induction false} RunKeeps(cfg: Config, w: World, actions: seq<Action>)
    requires Inv(cfg, w) && Runnable(cfg, w, actions)
    ensures Inv(cfg, Run(cfg, w, actions))
    decreases |actions|
  {
    if actions != [] {
      NextKeeps(cfg, w, actions[0]);
      RunKeeps(cfg, Next(cfg, w, actions[0]), actions[1..]);
    }
  }
}
