/**
 What is stored stays stored: a registration until its client is deleted, a pending request and
 a code until they are used up or their time is over.
 */
module KeptDocuments {
  import opened Wrappers
  import opened Records
  import opened DocumentStore
  import opened ClientPolicy
  import opened TokenPolicy
  import opened Handlers
  import opened BrokerRuns
  import opened BrokerInvariant
  import opened BrokerSteps
  import Sessions
  import Text

  // --- the invariant -----------------------------------------------------------

  ghost predicate ClientKept(w: World, id: string)
    requires id in w.h.clients
  {
    id !in w.h.deleted ==> ClientKey(id) in w.files.docs
  }

  /** What every registration that was accepted looks like. */
  ghost predicate WellRegistered(cfg: Config, c: Client) {
    && c.redirectUris != [] && c.applicationType != ""
    && (forall i :: 0 <= i < |c.redirectUris| ==> cfg.validRedirect(c.redirectUris[i], c.applicationType))
    && (c.authMethod == "none" || c.authMethod == "client_secret_basic" || c.authMethod == "client_secret_post")
    && (c.authMethod == "none" <==> c.secret == "")
    && c.grantTypes != []
    && (forall g :: g in c.grantTypes ==> g == "authorization_code" || g == "refresh_token")
    && c.responseTypes != [] && (forall t :: t in c.responseTypes ==> t == "code")
  }

  /** A human has answered this request. */
  ghost predicate Asked(h: History, uid: string) {
    exists g :: g in h.grants && h.grants[g].requestId == uid
  }

  ghost predicate RequestKept(w: World, uid: string)
    requires uid in w.h.requests
  {
    var k, until := RequestKey(uid), w.h.requests[uid].nowMs + 3600000;
    && 1000 <= w.h.requests[uid].nowMs <= w.now
    && (k in w.files.docs ==> w.files.docs[k].expiresAt == until && !Asked(w.h, uid))
    && (k in w.files.docs || Asked(w.h, uid) || until < w.now)
  }

  ghost predicate CodeKept(w: World, g: string)
    requires g in w.h.grants
  {
    var k, until := CodeKey(w.h.grants[g].code), w.h.grants[g].nowMs + 600000;
    && 1000 <= w.h.grants[g].nowMs <= w.now && k.id in w.h.used
    && (k in w.files.docs ==> w.files.docs[k].expiresAt == until && g !in w.h.redeemed)
    && (k in w.files.docs || g in w.h.redeemed || until < w.now)
  }

  ghost predicate CodesDistinct(h: History) {
    forall g, g' :: g in h.grants && g' in h.grants && h.grants[g].code == h.grants[g'].code ==> g == g'
  }

  ghost predicate DocumentsKept(w: World) {
    && (forall id {:trigger ClientKept(w, id)} :: id in w.h.clients ==> ClientKept(w, id))
    && (forall uid {:trigger RequestKept(w, uid)} :: uid in w.h.requests ==> RequestKept(w, uid))
    && (forall g {:trigger CodeKept(w, g)} :: g in w.h.grants ==> CodeKept(w, g))
    && CodesDistinct(w.h)
  }

  // --- what an action does to the history --------------------------------------

  lemma RefreshRecords(w: World, presented: string, reply: TokenReply)
    ensures
      var h := RecordRefresh(w, presented, reply);
      h.requests == w.h.requests && h.grants == w.h.grants && h.redeemed == w.h.redeemed && h.clients == w.h.clients
  {
  }

  /** A code that is found is spent by its redemption. */
  lemma RedeemRecords(w: World, form: TokenForm, reply: TokenReply)
    requires form.CodeForm?
    ensures
      var h := RecordRedeem(w, form, reply);
      && h.requests == w.h.requests && h.grants == w.h.grants && h.clients == w.h.clients
      && h.redeemed == match Found(w.files, CodeKey(form.code), w.now)
                       case Some(CodeDoc(a)) => w.h.redeemed[a.grantId := Unix(w.now)]
                       case _ => w.h.redeemed
  {
  }

  lemma TokenRecords(w: World, cred: Credentials, form: TokenForm, reply: TokenReply)
    ensures
      var h := RecordToken(w, cred, form, reply);
      && h.requests == w.h.requests && h.grants == w.h.grants && h.clients == w.h.clients && h.deleted == w.h.deleted
      && h.redeemed == match (Authenticate(w.files, cred, w.now), form)
                       case (Some(_), CodeForm(code, _, _)) =>
                         (match Found(w.files, CodeKey(code), w.now)
                          case Some(CodeDoc(a)) => w.h.redeemed[a.grantId := Unix(w.now)]
                          case _ => w.h.redeemed)
                       case _ => w.h.redeemed
  {
    match form {
      case CodeForm(_, _, _) => RedeemRecords(w, form, reply);
      case RefreshForm(presented) => RefreshRecords(w, presented, reply);
      case OtherForm(_) =>
    }
  }

  lemma ActRecords(cfg: Config, w: World, a: Action)
    ensures
      var h := Next(cfg, w, a).h;
      && (!a.DoRegister? ==> h.clients == w.h.clients)
      && (!a.DoDelete? ==> h.deleted == w.h.deleted)
      && (!a.DoAuthorize? ==> h.requests == w.h.requests)
      && (!a.DoInteract? ==> h.grants == w.h.grants)
      && (!a.DoToken? ==> h.redeemed == w.h.redeemed)
  {
    if a.DoToken? {
      TokenRecords(w, a.cred, a.form, Token(cfg, w.files, a.cred, a.form, w.now, a.jti, a.id).1);
    }
  }

  // --- what an action does to the documents -------------------------------------

  /** `k` is as it was, or was removed for having expired. */
  predicate Left(f: Files, f': Files, k: Key, now: int) {
    if k in f.docs then (if k in f'.docs then f'.docs[k] == f.docs[k] else Expired(f.docs[k], now))
    else k !in f'.docs
  }

  lemma MintLeaves(f: Files, rt: RefreshToken, id: string, now: int, k: Key)
    requires !k.model.RefreshModel?
    ensures Left(f, AfterMint(f, rt, id, now), k, now)
  {
  }

  lemma RevokeLeaves(f: Files, h: History, g: string, k: Key, now: int)
    requires IndexOk(f.grants, h) && !k.model.RefreshModel?
    ensures Left(f, AfterRevokeGrant(f, g), k, now) && k in f.docs ==> k in AfterRevokeGrant(f, g).docs
    ensures IndexOk(AfterRevokeGrant(f, g).grants, h)
  {
  }

  lemma RefreshLeaves(
    cfg: Config, f: Files, h: History, c: Client, presented: string, now: int, jti: string, id: string, k: Key)
    requires IndexOk(f.grants, h) && !k.model.RefreshModel?
    ensures Left(f, Refresh(cfg, f, c, presented, now, jti, id).0, k, now)
  {
    match Found(f, RefreshKey(presented), now) {
      case Some(RefreshDoc(rt)) =>
        RevokeLeaves(AfterClaim(f, RefreshKey(presented)), h, rt.grantId, k, now);
        MintLeaves(AfterClaim(f, RefreshKey(presented)), Rotated(rt, now), id, now, k);
      case _ =>
    }
  }

  lemma RedeemLeaves(cfg: Config, f: Files, c: Client, form: TokenForm, now: int, jti: string, id: string, k: Key)
    requires form.CodeForm? && !k.model.RefreshModel? && k != CodeKey(form.code)
    ensures Left(f, RedeemCode(cfg, f, c, form.code, form.redirectUri, form.verifier, now, jti, id).0, k, now)
  {
  }

  lemma TokenLeaves(
    cfg: Config, f: Files, h: History, cred: Credentials, form: TokenForm, now: int, jti: string, id: string, k: Key)
    requires IndexOk(f.grants, h) && !k.model.RefreshModel?
    requires form.CodeForm? && Authenticate(f, cred, now).Some? ==> k != CodeKey(form.code)
    ensures Left(f, Token(cfg, f, cred, form, now, jti, id).0, k, now)
  {
    if Authenticate(f, cred, now).Some? {
      var c, f1 := Authenticate(f, cred, now).value, AfterGet(f, ClientKey(cred.id), now);
      assert f1.grants == f.grants;
      match form {
        case CodeForm(_, _, _) => RedeemLeaves(cfg, f1, c, form, now, jti, id, k);
        case RefreshForm(presented) => RefreshLeaves(cfg, f1, h, c, presented, now, jti, id, k);
        case OtherForm(_) =>
      }
    }
  }

  lemma DropLeaves(f: Files, h: History, clientId: string, token: string, now: int, k: Key)
    requires IndexOk(f.grants, h) && !k.model.RefreshModel?
    ensures Left(f, DropToken(f, clientId, token, now), k, now)
    ensures IndexOk(DropToken(f, clientId, token, now).grants, h)
  {
    var f1 := AfterGet(f, RefreshKey(token), now);
    match OwnGrant(f, clientId, token, now) {
      case None =>
      case Some(g) => RevokeLeaves(f1, h, g, k, now);
    }
  }

  lemma {:induction false} DropsLeave(f: Files, h: History, clientId: string, ids: seq<string>, now: int, k: Key)
    requires IndexOk(f.grants, h) && !k.model.RefreshModel?
    ensures Left(f, DropTokens(f, clientId, ids, now), k, now)
    ensures IndexOk(DropTokens(f, clientId, ids, now).grants, h)
    decreases |ids|
  {
    if ids != [] {
      var before := ids[..|ids| - 1];
      DropsLeave(f, h, clientId, before, now, k);
      DropLeaves(DropTokens(f, clientId, before, now), h, clientId, ids[|ids| - 1], now, k);
    }
  }

  lemma DeleteLeaves(f: Files, h: History, id: string, order: seq<string>, now: int, k: Key)
    requires IndexOk(f.grants, h) && !k.model.RefreshModel?
    requires LoadClient(f, id, now).Some? ==> k != ClientKey(id)
    ensures Left(f, DeleteClient(f, id, order, now).0, k, now)
  {
    var start := Cleaned(ClientGone(f, id, now), [RefreshModel], now);
    if LoadClient(f, id, now).Some? {
      assert start.grants == f.grants;
      DropsLeave(start, h, id, order, now, k);
    }
  }

  /** The document the action itself writes or uses up. */
  predicate Touches(w: World, a: Action, k: Key) {
    match a
    case DoRegister(_, id, _, rat) => k == ClientKey(id) || k == Key(RegistrationModel, rat)
    case DoAuthorize(_, id) => k == RequestKey(id)
    case DoInteract(uid, _, _, _, code) => k == RequestKey(uid) || k == CodeKey(code)
    case DoToken(cred, form, _, _) =>
      form.CodeForm? && Authenticate(w.files, cred, w.now).Some? && k == CodeKey(form.code)
    case DoDelete(id, _) => LoadClient(w.files, id, w.now).Some? && k == ClientKey(id)
    case _ => false
  }

  lemma FrontLeaves(cfg: Config, w: World, a: Action, k: Key)
    requires (a.DoRegister? || a.DoAuthorize? || a.DoInteract?) && !Touches(w, a, k)
    ensures Left(w.files, Next(cfg, w, a).files, k, w.now)
  {
  }

  lemma ActLeaves(cfg: Config, w: World, a: Action, k: Key)
    requires IndexOk(w.files.grants, w.h) && !k.model.RefreshModel? && !Touches(w, a, k)
    ensures Left(w.files, Next(cfg, w, a).files, k, w.now)
  {
    match a {
      case DoToken(cred, form, jti, id) => TokenLeaves(cfg, w.files, w.h, cred, form, w.now, jti, id, k);
      case DoRevoke(cred, token) =>
        if Authenticate(w.files, cred, w.now).Some? {
          var f1 := AfterGet(w.files, ClientKey(cred.id), w.now);
          assert f1.grants == w.files.grants;
          DropLeaves(f1, w.h, Authenticate(w.files, cred, w.now).value.id, token, w.now, k);
        }
      case DoDelete(id, order) => DeleteLeaves(w.files, w.h, id, order, w.now, k);
      case DoRegister(_, _, _, _) => FrontLeaves(cfg, w, a, k);
      case DoAuthorize(_, _) => FrontLeaves(cfg, w, a, k);
      case DoInteract(_, _, _, _, _) => FrontLeaves(cfg, w, a, k);
      case _ =>
    }
  }

  // --- every step keeps it ---------------------------------------------------------

  lemma ClientNext(cfg: Config, w: World, a: Action, id: string)
    requires Inv(cfg, w) && Enabled(w, a) && id in w.h.clients && ClientKept(w, id)
    requires id in Next(cfg, w, a).h.clients
    ensures ClientKept(Next(cfg, w, a), id)
  {
    var k := ClientKey(id);
    ActRecords(cfg, w, a);
    NextOnlyDeletes(cfg, w, a);
    if k in w.files.docs {
      assert DocOk(w.h, w.files.grants, w.now, k, w.files.docs[k]);
      if a.DoRegister? {
        assert Drawn(a)[0] == a.id;
      }
      if !Touches(w, a, k) {
        ActLeaves(cfg, w, a, k);
      }
    }
  }

  lemma NextOnlyDeletes(cfg: Config, w: World, a: Action)
    ensures
      Next(cfg, w, a).h.deleted ==
        w.h.deleted + if a.DoDelete? && LoadClient(w.files, a.id, w.now).Some? then {a.id} else {}
  {
    ActRecords(cfg, w, a);
  }

  lemma RegisteredIsKept(cfg: Config, w: World, a: Action, id: string)
    requires Inv(cfg, w) && Enabled(w, a) && id !in w.h.clients && id in Next(cfg, w, a).h.clients
    ensures ClientKept(Next(cfg, w, a), id)
  {
    ActRecords(cfg, w, a);
  }

  lemma AskedGrows(cfg: Config, w: World, a: Action, uid: string)
    requires Inv(cfg, w) && Enabled(w, a)
    ensures
      var asks := a.DoInteract? && a.uid == uid
        && Interact(w.files, a.uid, a.browsers, a.cookie, a.grant, a.code, w.now).1.CodeSent?;
      Asked(Next(cfg, w, a).h, uid) <==> Asked(w.h, uid) || asks
  {
    var h' := Next(cfg, w, a).h;
    ActRecords(cfg, w, a);
    if a.DoInteract? {
      assert Drawn(a)[0] == a.grant;
      if Interact(w.files, a.uid, a.browsers, a.cookie, a.grant, a.code, w.now).1.CodeSent? {
        assert h'.grants == w.h.grants[a.grant := h'.grants[a.grant]] && h'.grants[a.grant].requestId == a.uid;
      } else {
        assert h'.grants == w.h.grants;
      }
    }
    if Asked(w.h, uid) {
      var g :| g in w.h.grants && w.h.grants[g].requestId == uid;
      assert g in h'.grants && h'.grants[g] == w.h.grants[g];
    }
  }

  lemma RequestNext(cfg: Config, w: World, a: Action, uid: string)
    requires Inv(cfg, w) && Enabled(w, a) && uid in w.h.requests && RequestKept(w, uid)
    requires uid in Next(cfg, w, a).h.requests && Next(cfg, w, a).h.requests[uid] == w.h.requests[uid]
    ensures RequestKept(Next(cfg, w, a), uid)
  {
    var k := RequestKey(uid);
    AskedGrows(cfg, w, a, uid);
    if a.DoAuthorize? {
      assert Drawn(a)[0] == a.id;
    }
    if !Touches(w, a, k) {
      ActLeaves(cfg, w, a, k);
    } else {
      assert a.DoInteract? && a.uid == uid;
      InteractTouches(cfg, w, a);
    }
  }

  lemma InteractTouches(cfg: Config, w: World, a: Action)
    requires a.DoInteract?
    ensures
      var k, f' := RequestKey(a.uid), Next(cfg, w, a).files;
      if Interact(w.files, a.uid, a.browsers, a.cookie, a.grant, a.code, w.now).1.CodeSent? then k !in f'.docs
      else Left(w.files, f', k, w.now)
  {
  }

  lemma NewRequestIsKept(cfg: Config, w: World, a: Action, uid: string)
    requires Inv(cfg, w) && Enabled(w, a) && uid !in w.h.requests && uid in Next(cfg, w, a).h.requests
    ensures RequestKept(Next(cfg, w, a), uid)
  {
    ActRecords(cfg, w, a);
    AskedGrows(cfg, w, a, uid);
    if Asked(w.h, uid) {
      AskedWasMade(cfg, w, uid);
    }
  }

  lemma AskedWasMade(cfg: Config, w: World, uid: string)
    requires Inv(cfg, w) && Asked(w.h, uid)
    ensures uid in w.h.requests
  {
    var g :| g in w.h.grants && w.h.grants[g].requestId == uid;
    assert GrantOk(w.h, g);
  }

  lemma NewCodeIsKept(cfg: Config, w: World, a: Action, g: string)
    requires Inv(cfg, w) && Enabled(w, a) && g !in w.h.grants && g in Next(cfg, w, a).h.grants
    ensures CodeKept(Next(cfg, w, a), g)
    ensures a.DoInteract? && Next(cfg, w, a).h.grants[g].code == a.code
  {
    ActRecords(cfg, w, a);
    NextExtends(cfg, w, a);
    assert Drawn(a)[0] == a.grant && Drawn(a)[1] == a.code;
  }

  /** The grant whose code is redeemed. */
  lemma SpendsItsGrant(cfg: Config, w: World, g: string)
    requires Inv(cfg, w) && DocumentsKept(w) && g in w.h.grants && CodeKey(w.h.grants[g].code) in w.files.docs
    ensures
      var d := w.files.docs[CodeKey(w.h.grants[g].code)];
      d.payload.CodeDoc? && d.payload.code.grantId == g && CodeOk(w.h, w.h.grants[g].code, d.payload.code)
  {
    var k := CodeKey(w.h.grants[g].code);
    assert DocOk(w.h, w.files.grants, w.now, k, w.files.docs[k]);
  }

  lemma CodeRedeemed(cfg: Config, w: World, a: Action, g: string)
    requires Inv(cfg, w) && DocumentsKept(w) && g in w.h.grants && CodeKept(w, g)
    requires a.DoToken? && Touches(w, a, CodeKey(w.h.grants[g].code)) && CodeKey("") !in w.files.docs
    ensures g in Next(cfg, w, a).h.grants && Next(cfg, w, a).h.grants[g] == w.h.grants[g]
    ensures CodeKept(Next(cfg, w, a), g)
  {
    var k := CodeKey(w.h.grants[g].code);
    ActRecords(cfg, w, a);
    NextExtends(cfg, w, a);
    TokenRecords(w, a.cred, a.form, Token(cfg, w.files, a.cred, a.form, w.now, a.jti, a.id).1);
    CodeIsClaimed(cfg, w, a);
    if k in w.files.docs {
      SpendsItsGrant(cfg, w, g);
    }
  }

  lemma CodeIsClaimed(cfg: Config, w: World, a: Action)
    requires a.DoToken? && a.form.CodeForm? && Authenticate(w.files, a.cred, w.now).Some?
    requires CodeKey("") !in w.files.docs
    ensures CodeKey(a.form.code) !in Next(cfg, w, a).files.docs
  {
  }

  lemma OtherRedeemed(cfg: Config, w: World, a: Action, g: string)
    requires Inv(cfg, w) && DocumentsKept(w) && g in w.h.grants && CodeKey(w.h.grants[g].code) in w.files.docs
    requires a.DoToken? && !Touches(w, a, CodeKey(w.h.grants[g].code)) && g !in w.h.redeemed
    ensures g !in Next(cfg, w, a).h.redeemed
  {
    TokenRecords(w, a.cred, a.form, Token(cfg, w.files, a.cred, a.form, w.now, a.jti, a.id).1);
    if a.form.CodeForm? && Found(w.files, CodeKey(a.form.code), w.now).Some? {
      CodeFacts(cfg, w, a.form.code);
    }
  }

  lemma CodeUntouched(cfg: Config, w: World, a: Action, g: string)
    requires Inv(cfg, w) && DocumentsKept(w) && g in w.h.grants && CodeKept(w, g)
    requires g in Next(cfg, w, a).h.grants && Next(cfg, w, a).h.grants[g] == w.h.grants[g]
    requires !Touches(w, a, CodeKey(w.h.grants[g].code)) && w.h.used <= Next(cfg, w, a).h.used
    ensures CodeKept(Next(cfg, w, a), g)
  {
    var k := CodeKey(w.h.grants[g].code);
    ActLeaves(cfg, w, a, k);
    if g in w.h.redeemed {
      RedeemedGrows(cfg, w, a, g);
    } else if k in w.files.docs {
      ActRecords(cfg, w, a);
      if a.DoToken? {
        OtherRedeemed(cfg, w, a, g);
      }
    }
  }

  lemma CodeNext(cfg: Config, w: World, a: Action, g: string)
    requires Inv(cfg, w) && Enabled(w, a) && DocumentsKept(w) && g in w.h.grants
    requires g in Next(cfg, w, a).h.grants && Next(cfg, w, a).h.grants[g] == w.h.grants[g]
    ensures CodeKept(Next(cfg, w, a), g)
  {
    var k := CodeKey(w.h.grants[g].code);
    assert CodeKept(w, g);
    if a.DoInteract? {
      assert Drawn(a)[1] == a.code;
    }
    if !Touches(w, a, k) {
      NextExtends(cfg, w, a);
      CodeUntouched(cfg, w, a, g);
    } else {
      NoEmptyCode(cfg, w);
      CodeRedeemed(cfg, w, a, g);
    }
  }

  lemma RedeemedGrows(cfg: Config, w: World, a: Action, g: string)
    requires g in w.h.redeemed
    ensures g in Next(cfg, w, a).h.redeemed
  {
    if a.DoToken? {
      TokenRecords(w, a.cred, a.form, Token(cfg, w.files, a.cred, a.form, w.now, a.jti, a.id).1);
    } else {
      ActRecords(cfg, w, a);
    }
  }

  lemma NoEmptyCode(cfg: Config, w: World)
    requires Inv(cfg, w)
    ensures CodeKey("") !in w.files.docs
  {
    if CodeKey("") in w.files.docs {
      StoredIsUsed(cfg, w, CodeKey(""));
    }
  }

  lemma OldRecordsStay(cfg: Config, w: World, a: Action)
    requires Inv(cfg, w) && Enabled(w, a)
    ensures
      var h, h' := w.h, Next(cfg, w, a).h;
      && (forall uid :: uid in h.requests ==> uid in h'.requests && h'.requests[uid] == h.requests[uid])
      && (forall g :: g in h.grants ==> g in h'.grants && h'.grants[g] == h.grants[g])
      && h.clients.Keys <= h'.clients.Keys
  {
    ActRecords(cfg, w, a);
    if a.DoAuthorize? {
      assert Drawn(a)[0] == a.id;
    } else if a.DoInteract? {
      assert Drawn(a)[0] == a.grant;
    }
  }

  lemma CodesDistinctNext(cfg: Config, w: World, a: Action)
    requires Inv(cfg, w) && Enabled(w, a) && DocumentsKept(w)
    ensures CodesDistinct(Next(cfg, w, a).h)
  {
    var h, h' := w.h, Next(cfg, w, a).h;
    OldRecordsStay(cfg, w, a);
    forall g, g' | g in h'.grants && g' in h'.grants && h'.grants[g].code == h'.grants[g'].code ensures g == g' {
      if g !in h.grants {
        NewCodeIsOther(cfg, w, a, g, g');
      } else if g' !in h.grants {
        NewCodeIsOther(cfg, w, a, g', g);
      }
    }
  }

  lemma NewCodeIsOther(cfg: Config, w: World, a: Action, g: string, g': string)
    requires Inv(cfg, w) && Enabled(w, a) && DocumentsKept(w) && g !in w.h.grants
    requires g in Next(cfg, w, a).h.grants && g' in Next(cfg, w, a).h.grants
    requires Next(cfg, w, a).h.grants[g].code == Next(cfg, w, a).h.grants[g'].code
    ensures g == g'
  {
    NewCodeIsKept(cfg, w, a, g);
    OldRecordsStay(cfg, w, a);
    assert Drawn(a)[1] == a.code;
    if g' in w.h.grants {
      CodeIsUsed(w, g');
    } else {
      OneNewGrant(cfg, w, a, g);
      OneNewGrant(cfg, w, a, g');
    }
  }

  lemma CodeIsUsed(w: World, g: string)
    requires DocumentsKept(w) && g in w.h.grants
    ensures w.h.grants[g].code in w.h.used
  {
    assert CodeKept(w, g);
  }

  lemma OneNewGrant(cfg: Config, w: World, a: Action, g: string)
    requires g !in w.h.grants && g in Next(cfg, w, a).h.grants
    ensures a.DoInteract? && g == a.grant
  {
    ActRecords(cfg, w, a);
  }

  lemma KeptNext(cfg: Config, w: World, a: Action)
    requires Inv(cfg, w) && Enabled(w, a) && DocumentsKept(w)
    ensures DocumentsKept(Next(cfg, w, a))
  {
    var w' := Next(cfg, w, a);
    OldRecordsStay(cfg, w, a);
    CodesDistinctNext(cfg, w, a);
    forall id | id in w'.h.clients ensures ClientKept(w', id) {
      if id in w.h.clients {
        assert ClientKept(w, id);
        ClientNext(cfg, w, a, id);
      } else {
        RegisteredIsKept(cfg, w, a, id);
      }
    }
    forall uid | uid in w'.h.requests ensures RequestKept(w', uid) {
      if uid in w.h.requests {
        assert RequestKept(w, uid);
        RequestNext(cfg, w, a, uid);
      } else {
        NewRequestIsKept(cfg, w, a, uid);
      }
    }
    forall g | g in w'.h.grants ensures CodeKept(w', g) {
      if g in w.h.grants {
        CodeNext(cfg, w, a, g);
      } else {
        NewCodeIsKept(cfg, w, a, g);
      }
    }
  }

  lemma {:induction false} RunKeepsDocuments(cfg: Config, w: World, actions: seq<Action>)
    requires Inv(cfg, w) && DocumentsKept(w) && Runnable(cfg, w, actions)
    ensures DocumentsKept(Run(cfg, w, actions))
    decreases |actions|
  {
    if actions != [] {
      KeptNext(cfg, w, actions[0]);
      NextKeeps(cfg, w, actions[0]);
      RunKeepsDocuments(cfg, Next(cfg, w, actions[0]), actions[1..]);
    }
  }

  // --- registrations ------------------------------------------------------------------

  ghost predicate AllWell(cfg: Config, w: World) {
    forall id :: id in w.h.clients ==> WellRegistered(cfg, w.h.clients[id])
  }

  lemma RegisteredIsWell(
    cfg: Config, f: Files, r: RegistrationRequest, id: string, secret: string, rat: string, now: int)
    requires secret != "" && Register(cfg, f, r, id, secret, rat, now).1.Registered?
    ensures WellRegistered(cfg, Register(cfg, f, r, id, secret, rat, now).1.client)
  {
    var c := Register(cfg, f, r, id, secret, rat, now).1.client;
    assert forall g :: g in GRANT_TYPES ==> g == "authorization_code" || g == "refresh_token";
  }

  lemma AllWellNext(cfg: Config, w: World, a: Action)
    requires AllWell(cfg, w) && Enabled(w, a)
    ensures AllWell(cfg, Next(cfg, w, a))
  {
    ActRecords(cfg, w, a);
    if a.DoRegister? && Register(cfg, w.files, a.r, a.id, a.secret, a.rat, w.now).1.Registered? {
      assert Drawn(a)[1] == a.secret;
      RegisteredIsWell(cfg, w.files, a.r, a.id, a.secret, a.rat, w.now);
    }
  }

  lemma {:induction false} RunKeepsWell(cfg: Config, w: World, actions: seq<Action>)
    requires AllWell(cfg, w) && Runnable(cfg, w, actions)
    ensures AllWell(cfg, Run(cfg, w, actions))
    decreases |actions|
  {
    if actions != [] {
      AllWellNext(cfg, w, actions[0]);
      RunKeepsWell(cfg, Next(cfg, w, actions[0]), actions[1..]);
    }
  }
}
