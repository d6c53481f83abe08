/**
 Sweeping, looking documents up and listing them are nobody's business: a run of the broker
 gives the same answers at every endpoint without them.
 */
module Housekeeping {
  import opened Wrappers
  import opened Records
  import opened DocumentStore
  import opened ClientPolicy
  import opened TokenPolicy
  import opened Handlers
  import opened BrokerRuns
  import opened BrokerInvariant
  import opened Cleaning
  import Sessions
  import Text

  predicate Chore(a: Action) {
    a.DoSweep? || a.DoRead? || a.DoList?
  }

  datatype Reply =
    | Registering(registered: RegisterReply)
    | Authorizing(authorized: AuthorizeReply)
    | Interacting(interacted: InteractReply)
    | Tokens(tokens: TokenReply)
    | Revoking(accepted: bool)
    | Deleting(existed: bool)

  /** What the caller of an endpoint sees. */
  function ReplyOf(cfg: Config, w: World, a: Action): seq<Reply> {
    var f, now := w.files, w.now;
    match a
    case DoRegister(r, id, secret, rat) => [Registering(Register(cfg, f, r, id, secret, rat, now).1)]
    case DoAuthorize(q, id) => [Authorizing(Authorize(cfg, f, q, id, now).1)]
    case DoInteract(uid, browsers, cookie, grant, code) =>
      [Interacting(Interact(f, uid, browsers, cookie, grant, code, now).1)]
    case DoToken(cred, form, jti, id) => [Tokens(Token(cfg, f, cred, form, now, jti, id).1)]
    case DoRevoke(cred, token) => [Revoking(Revoke(f, cred, token, now).1)]
    case DoDelete(id, order) => [Deleting(DeleteClient(f, id, order, now).1)]
    case _ => []
  }

  function Replies(cfg: Config, w: World, actions: seq<Action>): seq<Reply>
    decreases |actions|
  {
    if actions == [] then []
    else ReplyOf(cfg, w, actions[0]) + Replies(cfg, Next(cfg, w, actions[0]), actions[1..])
  }

  function Endpoints(actions: seq<Action>): seq<Action> {
    if actions == [] then []
    else (if Chore(actions[0]) then [] else [actions[0]]) + Endpoints(actions[1..])
  }

  /** `kept` holds what `w` holds and otherwise only expired documents. */
  ghost predicate Like(kept: World, w: World) {
    Covers(kept.files, w.files, w.now) && kept.now == w.now && kept.h.used == w.h.used
  }

  // --- both stores through one operation -----------------------------------------

  lemma SameFound(kept: Files, f: Files, k: Key, now: int)
    requires Covers(kept, f, now)
    ensures Found(kept, k, now) == Found(f, k, now)
  {
  }

  lemma SameStep(kept: Files, f: Files, op: Op, now: int)
    requires Covers(kept, f, now)
    ensures Covers(Step(kept, op, now), Step(f, op, now), Later(op, now))
  {
  }

  lemma GetCovers(kept: Files, f: Files, k: Key, now: int)
    requires Covers(kept, f, now)
    ensures Covers(AfterGet(kept, k, now), AfterGet(f, k, now), now)
  {
    SameStep(kept, f, GetOp(k), now);
  }

  lemma PutCovers(kept: Files, f: Files, k: Key, payload: Payload, ttl: int, now: int)
    requires Covers(kept, f, now)
    ensures Covers(AfterPut(kept, k, payload, ttl, now), AfterPut(f, k, payload, ttl, now), now)
  {
    SameStep(kept, f, PutOp(k, payload, ttl), now);
  }

  lemma MintCovers(kept: Files, f: Files, rt: RefreshToken, id: string, now: int)
    requires Covers(kept, f, now)
    ensures Covers(AfterMint(kept, rt, id, now), AfterMint(f, rt, id, now), now)
  {
    var k := RefreshKey(id);
    PutCovers(kept, f, k, RefreshDoc(rt), REFRESH_TTL_MS, now);
    SameStep(AfterPut(kept, k, RefreshDoc(rt), REFRESH_TTL_MS, now),
      AfterPut(f, k, RefreshDoc(rt), REFRESH_TTL_MS, now),
      AddToGrantOp(rt.grantId, k), now);
  }

  lemma SameAuthentication(kept: Files, f: Files, cred: Credentials, now: int)
    requires Covers(kept, f, now)
    ensures Authenticate(kept, cred, now) == Authenticate(f, cred, now)
    ensures LoadClient(kept, cred.id, now) == LoadClient(f, cred.id, now)
  {
    SameFound(kept, f, ClientKey(cred.id), now);
  }

  // --- the endpoints ----------------------------------------------------------------

  lemma RegisterAlike(
    cfg: Config, kept: Files, f: Files, r: RegistrationRequest, id: string, secret: string, rat: string, now: int)
    requires Covers(kept, f, now)
    ensures
      var (kept', reply) := Register(cfg, kept, r, id, secret, rat, now);
      var (f', reply') := Register(cfg, f, r, id, secret, rat, now);
      reply == reply' && Covers(kept', f', now)
  {
    if Refusal(r, cfg.validRedirect).None? {
      var c := NewClient(r, id, secret, now);
      PutCovers(kept, f, ClientKey(id), ClientDoc(c), 0, now);
      PutCovers(AfterPut(kept, ClientKey(id), ClientDoc(c), 0, now), AfterPut(f, ClientKey(id), ClientDoc(c), 0, now),
        Key(RegistrationModel, rat), RegistrationDoc(id), 0, now);
    }
  }

  lemma AuthorizeAlike(cfg: Config, kept: Files, f: Files, q: AuthorizeQuery, id: string, now: int)
    requires Covers(kept, f, now)
    ensures
      var (kept', reply) := Authorize(cfg, kept, q, id, now);
      var (f', reply') := Authorize(cfg, f, q, id, now);
      reply == reply' && Covers(kept', f', now)
  {
    SameFound(kept, f, ClientKey(q.clientId), now);
    GetCovers(kept, f, ClientKey(q.clientId), now);
    var c := LoadClient(f, q.clientId, now);
    if c.Some? {
      PutCovers(AfterGet(kept, ClientKey(q.clientId), now), AfterGet(f, ClientKey(q.clientId), now),
        RequestKey(id), RequestDoc(NewRequest(cfg, c.value, q)), REQUEST_TTL_MS, now);
    }
  }

  lemma InteractAlike(
    kept: Files, f: Files, uid: string, browsers: Sessions.Table, cookie: string, grant: string, code: string, now: int)
    requires Covers(kept, f, now)
    ensures
      var (kept', reply) := Interact(kept, uid, browsers, cookie, grant, code, now);
      var (f', reply') := Interact(f, uid, browsers, cookie, grant, code, now);
      reply == reply' && Covers(kept', f', now)
  {
    var k := RequestKey(uid);
    SameFound(kept, f, k, now);
    GetCovers(kept, f, k, now);
    var found := Found(f, k, now);
    if found.Some? && found.value.RequestDoc? {
      var doc := CodeDoc(NewCode(found.value.request, HumanSubject(browsers, cookie, now), grant));
      var kept1, f1 := AfterGet(kept, k, now), AfterGet(f, k, now);
      PutCovers(kept1, f1, CodeKey(code), doc, CODE_TTL_MS, now);
      SameStep(AfterPut(kept1, CodeKey(code), doc, CODE_TTL_MS, now),
        AfterPut(f1, CodeKey(code), doc, CODE_TTL_MS, now),
        DestroyOp(k), now);
    }
  }

  lemma IssueAlike(
    cfg: Config, kept: Files, f: Files, c: Client, account: string, scopes: seq<string>, nonce: string, grant: string,
    withRefresh: bool, now: int, jti: string, id: string)
    requires Covers(kept, f, now)
    ensures
      var (kept', reply) := Issue(cfg, kept, c, account, scopes, nonce, grant, withRefresh, now, jti, id);
      var (f', reply') := Issue(cfg, f, c, account, scopes, nonce, grant, withRefresh, now, jti, id);
      reply == reply' && Covers(kept', f', now)
  {
    MintCovers(kept, f, NewRefresh(c, account, scopes, nonce, grant, now), id, now);
  }

  lemma RedeemFoundAlike(
    cfg: Config, kept: Files, f: Files, c: Client, a: AuthCode, form: TokenForm, now: int, jti: string, id: string)
    requires Covers(kept, f, now) && form.CodeForm? && Found(f, CodeKey(form.code), now) == Some(CodeDoc(a))
    ensures
      var (kept', reply) := RedeemCode(cfg, kept, c, form.code, form.redirectUri, form.verifier, now, jti, id);
      var (f', reply') := RedeemCode(cfg, f, c, form.code, form.redirectUri, form.verifier, now, jti, id);
      reply == reply' && Covers(kept', f', now)
  {
    var k, scopes := CodeKey(form.code), Text.Fields(a.scope);
    SameFound(kept, f, k, now);
    SameStep(kept, f, ClaimOp(k), now);
    IssueAlike(cfg, AfterClaim(kept, k), AfterClaim(f, k), c, a.accountId, scopes, a.nonce, a.grantId, true, now, jti,
      id);
  }

  lemma RedeemAlike(cfg: Config, kept: Files, f: Files, c: Client, form: TokenForm, now: int, jti: string, id: string)
    requires Covers(kept, f, now) && form.CodeForm?
    ensures
      var (kept', reply) := RedeemCode(cfg, kept, c, form.code, form.redirectUri, form.verifier, now, jti, id);
      var (f', reply') := RedeemCode(cfg, f, c, form.code, form.redirectUri, form.verifier, now, jti, id);
      reply == reply' && Covers(kept', f', now)
  {
    match Found(f, CodeKey(form.code), now) {
      case Some(CodeDoc(a)) => RedeemFoundAlike(cfg, kept, f, c, a, form, now, jti, id);
      case _ =>
        SameFound(kept, f, CodeKey(form.code), now);
        SameStep(kept, f, ClaimOp(CodeKey(form.code)), now);
    }
  }

  lemma RotateAlike(kept: Files, f: Files, rt: RefreshToken, presented: string, now: int, id: string)
    requires Covers(kept, f, now)
    ensures
      var k, spent := RefreshKey(presented), RefreshDoc(rt.(consumed := Unix(now)));
      Covers(
        AfterPut(AfterMint(kept, Rotated(rt, now), id, now), k, spent, Remaining(rt.exp, now), now),
        AfterPut(AfterMint(f, Rotated(rt, now), id, now), k, spent, Remaining(rt.exp, now), now), now)
  {
    MintCovers(kept, f, Rotated(rt, now), id, now);
    PutCovers(AfterMint(kept, Rotated(rt, now), id, now), AfterMint(f, Rotated(rt, now), id, now),
      RefreshKey(presented), RefreshDoc(rt.(consumed := Unix(now))), Remaining(rt.exp, now), now);
  }

  /** The token presented is not one to answer. */
  predicate Unfit(c: Client, rt: RefreshToken, now: int) {
    rt.clientId != c.id || (rt.exp != 0 && rt.exp <= Unix(now)) || PastGrace(rt, now)
  }

  lemma RefusedAlike(
    cfg: Config, kept: Files, f: Files, c: Client, rt: RefreshToken, presented: string, now: int, jti: string,
    id: string)
    requires Covers(kept, f, now) && Found(f, RefreshKey(presented), now) == Some(RefreshDoc(rt))
    requires Unfit(c, rt, now)
    ensures
      var (kept', reply) := Refresh(cfg, kept, c, presented, now, jti, id);
      var (f', reply') := Refresh(cfg, f, c, presented, now, jti, id);
      reply == reply' && Covers(kept', f', now)
  {
    var k := RefreshKey(presented);
    SameFound(kept, f, k, now);
    SameStep(kept, f, ClaimOp(k), now);
    SameStep(AfterClaim(kept, k), AfterClaim(f, k), RevokeGrantOp(rt.grantId), now);
  }

  lemma AnsweredAlike(
    cfg: Config, kept: Files, f: Files, c: Client, rt: RefreshToken, presented: string, now: int, jti: string,
    id: string)
    requires Covers(kept, f, now) && Found(f, RefreshKey(presented), now) == Some(RefreshDoc(rt))
    requires !Unfit(c, rt, now)
    ensures
      var (kept', reply) := Refresh(cfg, kept, c, presented, now, jti, id);
      var (f', reply') := Refresh(cfg, f, c, presented, now, jti, id);
      reply == reply' && Covers(kept', f', now)
  {
    var k := RefreshKey(presented);
    SameFound(kept, f, k, now);
    SameStep(kept, f, ClaimOp(k), now);
    var kept1, f1 := AfterClaim(kept, k), AfterClaim(f, k);
    if ShouldRotate(c, rt, now) {
      RotateAlike(kept1, f1, rt, presented, now, id);
    } else {
      PutCovers(kept1, f1, k, RefreshDoc(rt), Remaining(rt.exp, now), now);
    }
  }

  lemma RefreshAlike(
    cfg: Config, kept: Files, f: Files, c: Client, presented: string, now: int, jti: string, id: string)
    requires Covers(kept, f, now)
    ensures
      var (kept', reply) := Refresh(cfg, kept, c, presented, now, jti, id);
      var (f', reply') := Refresh(cfg, f, c, presented, now, jti, id);
      reply == reply' && Covers(kept', f', now)
  {
    match Found(f, RefreshKey(presented), now) {
      case Some(RefreshDoc(rt)) =>
        if Unfit(c, rt, now) {
          RefusedAlike(cfg, kept, f, c, rt, presented, now, jti, id);
        } else {
          AnsweredAlike(cfg, kept, f, c, rt, presented, now, jti, id);
        }
      case _ =>
        SameFound(kept, f, RefreshKey(presented), now);
        SameStep(kept, f, ClaimOp(RefreshKey(presented)), now);
    }
  }

  lemma LookUpCovers(kept: Files, f: Files, cred: Credentials, now: int)
    requires Covers(kept, f, now)
    ensures Authenticate(kept, cred, now) == Authenticate(f, cred, now)
    ensures Covers(
      if cred.id == "" then kept else AfterGet(kept, ClientKey(cred.id), now),
      if cred.id == "" then f else AfterGet(f, ClientKey(cred.id), now), now)
  {
    SameAuthentication(kept, f, cred, now);
    GetCovers(kept, f, ClientKey(cred.id), now);
  }

  lemma TokenAlike(
    cfg: Config, kept: Files, f: Files, cred: Credentials, form: TokenForm, now: int, jti: string, id: string)
    requires Covers(kept, f, now)
    ensures
      var (kept', reply) := Token(cfg, kept, cred, form, now, jti, id);
      var (f', reply') := Token(cfg, f, cred, form, now, jti, id);
      reply == reply' && Covers(kept', f', now)
  {
    LookUpCovers(kept, f, cred, now);
    if Authenticate(f, cred, now).Some? {
      var c := Authenticate(f, cred, now).value;
      var kept1, f1 := AfterGet(kept, ClientKey(cred.id), now), AfterGet(f, ClientKey(cred.id), now);
      match form {
        case CodeForm(_, _, _) => RedeemAlike(cfg, kept1, f1, c, form, now, jti, id);
        case RefreshForm(presented) => RefreshAlike(cfg, kept1, f1, c, presented, now, jti, id);
        case OtherForm(_) =>
      }
    }
  }

  lemma DropAlike(kept: Files, f: Files, clientId: string, token: string, now: int)
    requires Covers(kept, f, now)
    ensures Covers(DropToken(kept, clientId, token, now), DropToken(f, clientId, token, now), now)
  {
    var k := RefreshKey(token);
    SameFound(kept, f, k, now);
    GetCovers(kept, f, k, now);
    var kept1, f1 := AfterGet(kept, k, now), AfterGet(f, k, now);
    SameStep(kept1, f1, DestroyOp(k), now);
    var grant := OwnGrant(f, clientId, token, now);
    if grant.Some? {
      SameStep(kept1, f1, RevokeGrantOp(grant.value), now);
      SameStep(AfterRevokeGrant(kept1, grant.value), AfterRevokeGrant(f1, grant.value), DestroyOp(k), now);
    }
  }

  lemma {:induction false} DropsAlike(kept: Files, f: Files, clientId: string, ids: seq<string>, now: int)
    requires Covers(kept, f, now)
    ensures Covers(DropTokens(kept, clientId, ids, now), DropTokens(f, clientId, ids, now), now)
    decreases |ids|
  {
    if ids != [] {
      var before := ids[..|ids| - 1];
      DropsAlike(kept, f, clientId, before, now);
      DropAlike(DropTokens(kept, clientId, before, now), DropTokens(f, clientId, before, now), clientId,
        ids[|ids| - 1], now);
    }
  }

  lemma GoneAlike(kept: Files, f: Files, id: string, now: int)
    requires Covers(kept, f, now)
    ensures Covers(ClientGone(kept, id, now), ClientGone(f, id, now), now)
    ensures LoadClient(kept, id, now) == LoadClient(f, id, now)
    ensures LiveIds(ClientGone(kept, id, now), RefreshModel, now) == LiveIds(ClientGone(f, id, now), RefreshModel, now)
  {
    SameFound(kept, f, ClientKey(id), now);
    GetCovers(kept, f, ClientKey(id), now);
    SameStep(AfterGet(kept, ClientKey(id), now), AfterGet(f, ClientKey(id), now), DestroyOp(ClientKey(id)), now);
    CoversAnswers(ClientGone(kept, id, now), ClientGone(f, id, now), ListOp(RefreshModel), now);
  }

  lemma DeleteAlike(kept: Files, f: Files, id: string, order: seq<string>, now: int)
    requires Covers(kept, f, now)
    ensures
      var (kept', reply) := DeleteClient(kept, id, order, now);
      var (f', reply') := DeleteClient(f, id, order, now);
      reply == reply' && Covers(kept', f', now)
  {
    GoneAlike(kept, f, id, now);
    GetCovers(kept, f, ClientKey(id), now);
    var kept1, f1 := ClientGone(kept, id, now), ClientGone(f, id, now);
    SameStep(kept1, f1, ListOp(RefreshModel), now);
    DropsAlike(Cleaned(kept1, [RefreshModel], now), Cleaned(f1, [RefreshModel], now), id, order, now);
  }

  // --- runs ----------------------------------------------------------------------------

  lemma RevokeAlike(kept: Files, f: Files, cred: Credentials, token: string, now: int)
    requires Covers(kept, f, now)
    ensures
      var (kept', reply) := Revoke(kept, cred, token, now);
      var (f', reply') := Revoke(f, cred, token, now);
      reply == reply' && Covers(kept', f', now)
  {
    LookUpCovers(kept, f, cred, now);
    if Authenticate(f, cred, now).Some? {
      DropAlike(AfterGet(kept, ClientKey(cred.id), now), AfterGet(f, ClientKey(cred.id), now),
        Authenticate(f, cred, now).value.id, token, now);
    }
  }

  lemma ActAlike(cfg: Config, kept: World, w: World, a: Action)
    requires Like(kept, w) && !Chore(a)
    ensures ReplyOf(cfg, kept, a) == ReplyOf(cfg, w, a)
    ensures Act(cfg, kept, a).now == Act(cfg, w, a).now
    ensures Covers(Act(cfg, kept, a).files, Act(cfg, w, a).files, Act(cfg, w, a).now)
  {
    var now := w.now;
    match a {
      case Wait(ms) => SameStep(kept.files, w.files, WaitOp(ms), now);
      case DoRegister(r, id, secret, rat) => RegisterAlike(cfg, kept.files, w.files, r, id, secret, rat, now);
      case DoAuthorize(q, id) => AuthorizeAlike(cfg, kept.files, w.files, q, id, now);
      case DoInteract(uid, browsers, cookie, grant, code) =>
        InteractAlike(kept.files, w.files, uid, browsers, cookie, grant, code, now);
      case DoToken(cred, form, jti, id) => TokenAlike(cfg, kept.files, w.files, cred, form, now, jti, id);
      case DoRevoke(cred, token) => RevokeAlike(kept.files, w.files, cred, token, now);
      case DoDelete(id, order) => DeleteAlike(kept.files, w.files, id, order, now);
    }
  }

  lemma EnabledAlike(kept: World, w: World, a: Action)
    requires Like(kept, w)
    ensures Enabled(kept, a) <==> Enabled(w, a)
  {
    if a.DoDelete? {
      GoneAlike(kept.files, w.files, a.id, w.now);
    }
  }

  lemma NextAlike(cfg: Config, kept: World, w: World, a: Action)
    requires Like(kept, w) && !Chore(a)
    ensures Like(Next(cfg, kept, a), Next(cfg, w, a))
  {
    ActAlike(cfg, kept, w, a);
    NextExtends(cfg, kept, a);
    NextExtends(cfg, w, a);
  }

  /** A chore answers nobody, is always possible, and removes at most expired documents. */
  lemma ChoreDoesNothing(cfg: Config, kept: World, w: World, a: Action)
    requires Like(kept, w) && Chore(a)
    ensures Enabled(w, a) && ReplyOf(cfg, w, a) == [] && Like(kept, Next(cfg, w, a))
  {
    NextExtends(cfg, w, a);
  }

  /**
   Leaving out every sweep, lookup and listing, a run stays possible, each endpoint gives the
   same answers, and the store ends the same but for expired documents.
   */
  lemma {:induction false} HousekeepingIsInvisible(cfg: Config, kept: World, w: World, actions: seq<Action>)
    requires Like(kept, w)
    ensures Runnable(cfg, w, actions) <==> Runnable(cfg, kept, Endpoints(actions))
    ensures Replies(cfg, w, actions) == Replies(cfg, kept, Endpoints(actions))
    ensures Like(Run(cfg, kept, Endpoints(actions)), Run(cfg, w, actions))
    decreases |actions|
  {
    if actions != [] {
      var a, rest := actions[0], Endpoints(actions[1..]);
      if Chore(a) {
        assert Endpoints(actions) == rest;
        ChoreDoesNothing(cfg, kept, w, a);
        HousekeepingIsInvisible(cfg, kept, Next(cfg, w, a), actions[1..]);
      } else {
        assert Endpoints(actions) == [a] + rest && ([a] + rest)[1..] == rest;
        ActAlike(cfg, kept, w, a);
        EnabledAlike(kept, w, a);
        NextAlike(cfg, kept, w, a);
        HousekeepingIsInvisible(cfg, Next(cfg, kept, a), Next(cfg, w, a), actions[1..]);
      }
    }
  }
}
