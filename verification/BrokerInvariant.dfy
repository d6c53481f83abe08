/** Every step of the broker keeps the invariant of `BrokerRuns`. */
module BrokerInvariant {
  import opened Wrappers
  import opened Records
  import opened DocumentStore
  import opened TokenPolicy
  import opened Handlers
  import opened BrokerRuns
  import Sessions

  lemma InitialInv(cfg: Config, w: World)
    requires Initial(w)
    ensures Inv(cfg, w)
  {
  }

  lemma StoredIsUsed(cfg: Config, w: World, k: Key)
    requires Inv(cfg, w) && k in w.files.docs
    ensures k.id in w.h.used && k.id != ""
  {
    assert DocOk(w.h, w.files.grants, w.now, k, w.files.docs[k]);
  }

  /** Clients never expire, so looking one up changes nothing and finds what was registered. */
  lemma ClientFacts(cfg: Config, w: World, id: string)
    requires Inv(cfg, w)
    ensures AfterGet(w.files, ClientKey(id), w.now) == w.files
    ensures LoadClient(w.files, id, w.now).Some? ==>
      && id in w.h.clients && id !in w.h.deleted && ClientKey(id) in w.files.docs
      && LoadClient(w.files, id, w.now).value == w.h.clients[id]
      && w.h.clients[id].id == id
    ensures ClientKey(id) in w.files.docs ==> LoadClient(w.files, id, w.now).Some?
  {
    var k := ClientKey(id);
    if k in w.files.docs {
      assert DocOk(w.h, w.files.grants, w.now, k, w.files.docs[k]);
    }
  }

  lemma AuthenticatedFacts(cfg: Config, w: World, cred: Credentials)
    requires Inv(cfg, w)
    ensures AfterGet(w.files, ClientKey(cred.id), w.now) == w.files
    ensures Authenticate(w.files, cred, w.now).Some? ==>
      && cred.id in w.h.clients && cred.id !in w.h.deleted
      && Authenticate(w.files, cred, w.now).value == w.h.clients[cred.id]
      && w.h.clients[cred.id].id == cred.id
  {
    ClientFacts(cfg, w, cred.id);
  }

  // --- history -------------------------------------------------------------

  /** The records a step added are in order. */
  ghost predicate NewRecordsOk(cfg: Config, h: History, h': History) {
    && (forall id {:trigger RequestOk(cfg, h', id)} :: id in h'.requests && id !in h.requests ==>
        RequestOk(cfg, h', id))
    && (forall g {:trigger GrantOk(h', g)} :: g in h'.grants && g !in h.grants ==> GrantOk(h', g))
    && (forall id {:trigger TokenOk(h', id)} :: id in h'.tokens && id !in h.tokens ==> TokenOk(h', id))
    && h.issued <= h'.issued
    && (forall n :: |h.issued| <= n < |h'.issued| ==> IssuedOk(cfg, h', h'.issued[n]))
  }

  lemma RecordsGrow(cfg: Config, h: History, h': History)
    requires RecordsOk(cfg, h) && Extends(h, h') && NewRecordsOk(cfg, h, h')
    ensures RecordsOk(cfg, h')
  {
    forall n | 0 <= n < |h'.issued| ensures IssuedOk(cfg, h', h'.issued[n]) {
      if n < |h.issued| {
        assert h'.issued[n] == h.issued[n];
        IssuedCarries(cfg, h, h', h.issued[n]);
      }
    }
    forall id | id in h.requests ensures RequestOk(cfg, h', id) {
      assert RequestOk(cfg, h, id);
    }
    forall g | g in h.grants ensures GrantOk(h', g) {
      assert GrantOk(h, g);
    }
    forall id | id in h.tokens ensures TokenOk(h', id) {
      assert TokenOk(h, id);
    }
  }

  lemma DrawFacts(h: History, drawn: seq<string>)
    ensures Extends(h, Draw(h, drawn))
    ensures forall i :: 0 <= i < |drawn| ==> drawn[i] in Draw(h, drawn).used
  {
  }

  lemma RefreshRecordsNoClient(w: World, presented: string, reply: TokenReply)
    ensures RecordRefresh(w, presented, reply).clients == w.h.clients
    ensures RecordRefresh(w, presented, reply).used == w.h.used
  {
  }

  lemma RedeemRecordsNoClient(w: World, form: TokenForm, reply: TokenReply)
    requires form.CodeForm?
    ensures RecordRedeem(w, form, reply).clients == w.h.clients && RecordRedeem(w, form, reply).used == w.h.used
  {
  }

  lemma TokenRecordsNoClient(w: World, cred: Credentials, form: TokenForm, reply: TokenReply)
    ensures RecordToken(w, cred, form, reply).clients == w.h.clients
    ensures RecordToken(w, cred, form, reply).used == w.h.used
  {
    match form {
      case CodeForm(_, _, _) => RedeemRecordsNoClient(w, form, reply);
      case RefreshForm(presented) => RefreshRecordsNoClient(w, presented, reply);
      case OtherForm(_) =>
    }
  }

  /** Only registration adds a client, and a step uses up what it draws. */
  lemma NextExtends(cfg: Config, w: World, a: Action)
    ensures Next(cfg, w, a).h.used == w.h.used + (set i | 0 <= i < |Drawn(a)| :: Drawn(a)[i])
    ensures !a.DoRegister? ==> Next(cfg, w, a).h.clients == w.h.clients
  {
    if a.DoToken? {
      TokenRecordsNoClient(w, a.cred, a.form, Token(cfg, w.files, a.cred, a.form, w.now, a.jti, a.id).1);
    }
  }

  // --- steps that only remove documents, or only move the clock --------------

  ghost predicate Subset(f': Files, f: Files) {
    && f'.grants == f.grants
    && forall k :: k in f'.docs ==> k in f.docs && f'.docs[k] == f.docs[k]
  }

  lemma RemovalKeeps(cfg: Config, w: World, f': Files, ms: nat)
    requires Inv(cfg, w) && Subset(f', w.files)
    ensures Inv(cfg, World(f', w.now + ms, w.h))
  {
    forall k | k in f'.docs ensures DocOk(w.h, f'.grants, w.now + ms, k, f'.docs[k]) {
      assert DocOk(w.h, w.files.grants, w.now, k, w.files.docs[k]);
      DocCarries(w.h, w.h, w.files.grants, f'.grants, w.now, w.now + ms, k, w.files.docs[k]);
    }
  }

  lemma DrawKeeps(cfg: Config, w: World, drawn: seq<string>)
    requires Inv(cfg, w)
    ensures Inv(cfg, w.(h := Draw(w.h, drawn)))
  {
    var h' := Draw(w.h, drawn);
    DrawFacts(w.h, drawn);
    RecordsGrow(cfg, w.h, h');
    forall k | k in w.files.docs ensures DocOk(h', w.files.grants, w.now, k, w.files.docs[k]) {
      DocCarries(w.h, h', w.files.grants, w.files.grants, w.now, w.now, k, w.files.docs[k]);
    }
  }

  // --- putting the parts together --------------------------------------------

  /** Documents outside `written` are as they were and lose nothing they rely on. */
  ghost predicate Otherwise(w: World, w': World, written: set<Key>) {
    forall k :: k in w'.files.docs && k !in written ==>
      && k in w.files.docs && w'.files.docs[k] == w.files.docs[k]
      && Undisturbed(w'.h, w.files.grants, w'.files.grants, k, w.files.docs[k])
  }

  ghost predicate WrittenOk(w': World, written: set<Key>) {
    forall k :: k in w'.files.docs && k in written ==>
      DocOk(w'.h, w'.files.grants, w'.now, k, w'.files.docs[k])
  }

  /** What a step does to the history is in order. */
  ghost predicate Grows(cfg: Config, w: World, w': World) {
    && Extends(w.h, w'.h) && w.now <= w'.now
    && SetsOk(w'.h, w'.now) && NewRecordsOk(cfg, w.h, w'.h)
  }

  lemma IndexCarries(grants: map<string, seq<string>>, grants': map<string, seq<string>>, h: History, h': History)
    requires IndexOk(grants, h) && Extends(h, h')
    requires forall g :: g in grants' ==> g in grants && grants'[g] == grants[g]
    ensures IndexOk(grants', h')
  {
  }

  lemma Assemble(cfg: Config, w: World, w': World, written: set<Key>)
    requires Inv(cfg, w) && Grows(cfg, w, w') && IndexOk(w'.files.grants, w'.h)
    requires Otherwise(w, w', written) && WrittenOk(w', written)
    ensures Inv(cfg, w')
  {
    RecordsGrow(cfg, w.h, w'.h);
    forall k | k in w'.files.docs ensures DocOk(w'.h, w'.files.grants, w'.now, k, w'.files.docs[k]) {
      if k !in written {
        DocCarries(w.h, w'.h, w.files.grants, w'.files.grants, w.now, w'.now, k, w.files.docs[k]);
      }
    }
  }

  /** Nothing is spent, revoked or deleted, and the index only grows. */
  ghost predicate OnlyAdds(w: World, w': World, written: set<Key>) {
    && w'.h.deleted == w.h.deleted && w'.h.redeemed == w.h.redeemed && w'.h.revoked == w.h.revoked
    && (forall g :: g in w.files.grants ==>
        g in w'.files.grants && forall ref :: ref in w.files.grants[g] ==> ref in w'.files.grants[g])
    && (forall k :: k in w'.files.docs && k !in written ==>
        k in w.files.docs && w'.files.docs[k] == w.files.docs[k])
  }

  lemma AddsKeep(cfg: Config, w: World, w': World, written: set<Key>)
    requires Inv(cfg, w) && Grows(cfg, w, w') && IndexOk(w'.files.grants, w'.h)
    requires OnlyAdds(w, w', written) && WrittenOk(w', written)
    ensures Inv(cfg, w')
  {
    forall k | k in w'.files.docs && k !in written
      ensures Undisturbed(w'.h, w.files.grants, w'.files.grants, k, w.files.docs[k])
    {
      assert DocOk(w.h, w.files.grants, w.now, k, w.files.docs[k]);
    }
    Assemble(cfg, w, w', written);
  }

  // --- registration and authorization ----------------------------------------

  lemma RegisterHistory(cfg: Config, w: World, c: Client, drawn: seq<string>, w': World)
    requires SetsOk(w.h, w.now) && Fresh(w.h.used, drawn) && c.id in drawn
    requires w'.h == Draw(w.h.(clients := w.h.clients[c.id := c]), drawn) && w'.now == w.now
    ensures Grows(cfg, w, w')
  {
  }

  lemma RegisterKeeps(cfg: Config, w: World, c: Client, rat: string, secret: string, w': World)
    requires Inv(cfg, w) && Fresh(w.h.used, [c.id, secret, rat]) && w'.now == w.now
    requires w'.h == Draw(w.h.(clients := w.h.clients[c.id := c]), [c.id, secret, rat])
    requires w'.files ==
      AfterPut(AfterPut(w.files, ClientKey(c.id), ClientDoc(c), 0, w.now),
        Key(RegistrationModel, rat), RegistrationDoc(c.id), 0, w.now)
    ensures Inv(cfg, w')
  {
    var drawn := [c.id, secret, rat];
    assert drawn[0] == c.id && drawn[2] == rat;
    RegisterHistory(cfg, w, c, drawn, w');
    IndexCarries(w.files.grants, w'.files.grants, w.h, w'.h);
    AddsKeep(cfg, w, w', {ClientKey(c.id), Key(RegistrationModel, rat)});
  }

  lemma AuthorizeHistory(cfg: Config, w: World, c: Client, q: AuthorizeQuery, id: string, w': World)
    requires SetsOk(w.h, w.now) && Fresh(w.h.used, [id])
    requires c.id in w.h.clients && w.h.clients[c.id] == c && Acceptable(cfg, c, q)
    requires
      var b := RequestBirth(q, NewRequest(cfg, c, q), w.now, w.h.step);
      w'.h == Draw(w.h.(requests := w.h.requests[id := b]), [id])
    requires w'.now == w.now
    ensures Grows(cfg, w, w')
  {
    assert [id][0] == id;
  }

  lemma AuthorizeKeeps(cfg: Config, w: World, c: Client, q: AuthorizeQuery, id: string, w': World)
    requires Inv(cfg, w) && Fresh(w.h.used, [id]) && w'.now == w.now
    requires c.id in w.h.clients && w.h.clients[c.id] == c && Acceptable(cfg, c, q)
    requires
      var b := RequestBirth(q, NewRequest(cfg, c, q), w.now, w.h.step);
      w'.h == Draw(w.h.(requests := w.h.requests[id := b]), [id])
    requires w'.files == AfterPut(w.files, RequestKey(id), RequestDoc(NewRequest(cfg, c, q)), REQUEST_TTL_MS, w.now)
    ensures Inv(cfg, w')
  {
    assert [id][0] == id;
    AuthorizeHistory(cfg, w, c, q, id, w');
    IndexCarries(w.files.grants, w'.files.grants, w.h, w'.h);
    AddsKeep(cfg, w, w', {RequestKey(id)});
  }

  // --- a code is born --------------------------------------------------------

  lemma InteractHistory(cfg: Config, w: World, b: GrantBirth, g: string, w': World)
    requires SetsOk(w.h, w.now) && Fresh(w.h.used, [g, b.code])
    requires b.requestId in w.h.requests && RequestOk(cfg, w.h, b.requestId)
    requires w.h.requests[b.requestId].request == b.request && b.at == w.h.step
    requires b.session.oidcSub != "" && Sessions.Found(b.browsers, b.cookie, b.nowMs) == Some(b.session)
    requires w'.h == Draw(w.h.(grants := w.h.grants[g := b]), [g, b.code]) && w'.now == w.now
    ensures Grows(cfg, w, w')
  {
    assert [g, b.code][0] == g;
    assert w'.h.requests[b.requestId].at < b.at < w'.h.step;
    assert GrantOk(w'.h, g);
  }

  lemma InteractAdds(w: World, b: GrantBirth, g: string, w': World)
    requires SetsOk(w.h, w.now) && g !in w.h.used && Minted(b.code) && b.code in w'.h.used && w'.now == w.now
    requires w'.h == Draw(w.h.(grants := w.h.grants[g := b]), [g, b.code])
    requires w'.files ==
      AfterDestroy(
        AfterPut(w.files, CodeKey(b.code), CodeDoc(NewCode(b.request, b.session.oidcSub, g)), CODE_TTL_MS, w.now),
        RequestKey(b.requestId))
    ensures OnlyAdds(w, w', {CodeKey(b.code)}) && WrittenOk(w', {CodeKey(b.code)})
  {
  }

  lemma InteractKeeps(cfg: Config, w: World, b: GrantBirth, g: string, w': World)
    requires Inv(cfg, w) && Fresh(w.h.used, [g, b.code]) && w'.now == w.now
    requires b.requestId in w.h.requests && w.h.requests[b.requestId].request == b.request && b.at == w.h.step
    requires b.session.oidcSub != "" && Sessions.Found(b.browsers, b.cookie, b.nowMs) == Some(b.session)
    requires w'.h == Draw(w.h.(grants := w.h.grants[g := b]), [g, b.code])
    requires w'.files ==
      AfterDestroy(
        AfterPut(w.files, CodeKey(b.code), CodeDoc(NewCode(b.request, b.session.oidcSub, g)), CODE_TTL_MS, w.now),
        RequestKey(b.requestId))
    ensures Inv(cfg, w')
  {
    assert [g, b.code][0] == g && [g, b.code][1] == b.code;
    assert RequestOk(cfg, w.h, b.requestId);
    InteractHistory(cfg, w, b, g, w');
    InteractAdds(w, b, g, w');
    IndexCarries(w.files.grants, w'.files.grants, w.h, w'.h);
    AddsKeep(cfg, w, w', {CodeKey(b.code)});
  }

  // --- a code is spent -------------------------------------------------------

  lemma CodeFacts(cfg: Config, w: World, code: string)
    requires Inv(cfg, w) && Found(w.files, CodeKey(code), w.now).Some?
    ensures
      var p := Found(w.files, CodeKey(code), w.now).value;
      && p.CodeDoc? && CodeOk(w.h, code, p.code) && GrantOk(w.h, p.code.grantId)
      && w.h.grants[p.code.grantId].requestId in w.h.requests
      && RequestOk(cfg, w.h, w.h.grants[p.code.grantId].requestId)
  {
    assert DocOk(w.h, w.files.grants, w.now, CodeKey(code), w.files.docs[CodeKey(code)]);
    var g := w.files.docs[CodeKey(code)].payload.code.grantId;
    assert GrantOk(w.h, g);
    assert RequestOk(cfg, w.h, w.h.grants[g].requestId);
  }

  lemma SpendHistory(cfg: Config, w: World, g: string, w': World)
    requires SetsOk(w.h, w.now) && g in w.h.grants && g !in w.h.redeemed
    requires w'.h == w.h.(redeemed := w.h.redeemed[g := Unix(w.now)])
    requires w'.now == w.now && w'.files.grants == w.files.grants
    ensures Grows(cfg, w, w')
  {
  }

  lemma SpendUndisturbed(cfg: Config, w: World, code: string, g: string, w': World)
    requires DocsOk(w.files, w.h, w.now)
    requires g in w.h.grants && w.h.grants[g].code == code
    requires w'.h == w.h.(redeemed := w.h.redeemed[g := Unix(w.now)])
    requires w'.files == AfterDestroy(w.files, CodeKey(code))
    ensures Otherwise(w, w', {})
  {
    forall k | k in w'.files.docs
      ensures Undisturbed(w'.h, w.files.grants, w'.files.grants, k, w.files.docs[k])
    {
      assert DocOk(w.h, w.files.grants, w.now, k, w.files.docs[k]);
    }
  }

  /** Claiming a code uses up its grant's one redemption. */
  lemma SpendKeeps(cfg: Config, w: World, code: string, g: string, w': World)
    requires Inv(cfg, w) && w'.now == w.now
    requires g in w.h.grants && g !in w.h.redeemed && w.h.grants[g].code == code
    requires w'.h == w.h.(redeemed := w.h.redeemed[g := Unix(w.now)])
    requires w'.files == AfterDestroy(w.files, CodeKey(code))
    ensures Inv(cfg, w')
  {
    SpendHistory(cfg, w, g, w');
    SpendUndisturbed(cfg, w, code, g, w');
    IndexCarries(w.files.grants, w'.files.grants, w.h, w'.h);
    Assemble(cfg, w, w', {});
  }

  lemma IssueHistory(cfg: Config, w: World, i: Issued, drawn: seq<string>, w': World)
    requires SetsOk(w.h, w.now)
    requires IssuedOk(cfg, w'.h, i) && w'.now == w.now && w'.files == w.files
    requires w'.h == Draw(w.h.(issued := w.h.issued + [i]), drawn)
    ensures Grows(cfg, w, w')
  {
  }

  lemma IssueKeeps(cfg: Config, w: World, i: Issued, drawn: seq<string>, w': World)
    requires Inv(cfg, w) && IssuedOk(cfg, w'.h, i) && w'.now == w.now && w'.files == w.files
    requires w'.h == Draw(w.h.(issued := w.h.issued + [i]), drawn)
    ensures Inv(cfg, w')
  {
    IssueHistory(cfg, w, i, drawn, w');
    IndexCarries(w.files.grants, w'.files.grants, w.h, w'.h);
    AddsKeep(cfg, w, w', {});
  }

  // --- refresh tokens are written --------------------------------------------

  lemma IndexAdd(f: Files, g: string, k: Key, h: History, h': History)
    requires IndexOk(f.grants, h) && Extends(h, h')
    requires g != "" && k.model.RefreshModel? && k.id in h'.tokens && h'.tokens[k.id].grant == g
    ensures
      var f' := AfterAddToGrant(f, g, k);
      && f'.docs == f.docs && IndexOk(f'.grants, h')
      && g in f'.grants && RefOf(k) in f'.grants[g]
      && forall g2 :: g2 in f.grants ==>
           g2 in f'.grants && forall ref :: ref in f.grants[g2] ==> ref in f'.grants[g2]
  {
    var f' := AfterAddToGrant(f, g, k);
    if RefOf(k) !in RefsOf(f, g) {
      var refs := f'.grants[g];
      assert refs == RefsOf(f, g) + [RefOf(k)];
      NamedStep(refs, |refs| - 1);
      assert refs[..|refs|] == refs && refs[..|refs| - 1] == RefsOf(f, g);
      RefDecodes(k);
    }
  }

  ghost predicate BirthOk(h: History, id: string, b: TokenBirth) {
    && id in h.used && id !in h.tokens && b.grant in h.redeemed && b.at < h.step
    && (b.parent.Some? ==>
        && b.parent.value in h.tokens
        && h.tokens[b.parent.value].grant == b.grant
        && h.tokens[b.parent.value].at < b.at)
  }

  lemma MintHistory(cfg: Config, w: World, id: string, b: TokenBirth, w': World)
    requires SetsOk(w.h, w.now) && BirthOk(w.h, id, b)
    requires w'.h == w.h.(tokens := w.h.tokens[id := b]) && w'.now == w.now
    ensures Grows(cfg, w, w')
  {
    assert TokenOk(w'.h, id);
  }

  lemma MintAdds(w: World, rt: RefreshToken, id: string, b: TokenBirth, w': World)
    requires IndexOk(w.files.grants, w.h) && id !in w.h.tokens && id in w.h.used && Minted(id)
    requires rt.grantId != "" && b.grant == rt.grantId && w'.now == w.now
    requires w'.h == w.h.(tokens := w.h.tokens[id := b]) && w'.files == AfterMint(w.files, rt, id, w.now)
    ensures OnlyAdds(w, w', {RefreshKey(id)}) && IndexOk(w'.files.grants, w'.h)
    ensures w'.files.docs == w.files.docs[RefreshKey(id) := Document(RefreshDoc(rt), w.now + REFRESH_TTL_MS)]
  {
    var f1 := AfterPut(w.files, RefreshKey(id), RefreshDoc(rt), REFRESH_TTL_MS, w.now);
    IndexAdd(f1, rt.grantId, RefreshKey(id), w.h, w'.h);
  }

  /** A new refresh token, written together with its index line. */
  lemma MintKeeps(cfg: Config, w: World, rt: RefreshToken, id: string, b: TokenBirth, w': World)
    requires Inv(cfg, w) && BirthOk(w.h, id, b) && Minted(id)
    requires rt.grantId != "" && b.grant == rt.grantId && w'.now == w.now
    requires w'.h == w.h.(tokens := w.h.tokens[id := b]) && w'.files == AfterMint(w.files, rt, id, w.now)
    requires RefreshOk(w'.h, w'.files.grants, w.now, id, rt, w.now + REFRESH_TTL_MS)
    ensures Inv(cfg, w')
  {
    MintHistory(cfg, w, id, b, w');
    MintAdds(w, rt, id, b, w');
    AddsKeep(cfg, w, w', {RefreshKey(id)});
  }

  /** A claimed refresh token written back under its own name. */
  lemma PutBackKeeps(cfg: Config, w: World, rt: RefreshToken, id: string, ttl: int, w': World)
    requires Inv(cfg, w) && w'.now == w.now && w'.h == w.h
    requires Minted(id) && id in w.h.used && ttl > 0
    requires w'.files == AfterPut(w.files, RefreshKey(id), RefreshDoc(rt), ttl, w.now)
    requires RefreshOk(w.h, w.files.grants, w.now, id, rt, w.now + ttl)
    ensures Inv(cfg, w')
  {
    IndexCarries(w.files.grants, w'.files.grants, w.h, w'.h);
    AddsKeep(cfg, w, w', {RefreshKey(id)});
  }

  // --- revocation ------------------------------------------------------------

  /** Revoking a grant removes its stored refresh tokens, all of them, and nothing else. */
  lemma RevokeIsExact(cfg: Config, w: World, g: string)
    requires Inv(cfg, w)
    ensures forall k :: k in AfterRevokeGrant(w.files, g).docs <==>
      k in w.files.docs && !(w.files.docs[k].payload.RefreshDoc? && w.files.docs[k].payload.token.grantId == g)
  {
    var refs := RefsOf(w.files, g);
    forall k | k in w.files.docs
      ensures k in Named(refs) <==> w.files.docs[k].payload.RefreshDoc? && w.files.docs[k].payload.token.grantId == g
    {
      assert DocOk(w.h, w.files.grants, w.now, k, w.files.docs[k]);
      if w.files.docs[k].payload.RefreshDoc? && w.files.docs[k].payload.token.grantId == g {
        assert k == RefreshKey(k.id);
        NamedHas(refs, k);
      }
    }
  }

  lemma RevokeHistory(cfg: Config, w: World, g: string, w': World)
    requires SetsOk(w.h, w.now) && g in w.h.redeemed && w'.now == w.now
    requires w'.h == w.h.(revoked := w.h.revoked + {g}) && w'.files == AfterRevokeGrant(w.files, g)
    ensures Grows(cfg, w, w')
  {
  }

  lemma RevokeUndisturbed(cfg: Config, w: World, g: string, w': World)
    requires Inv(cfg, w)
    requires w'.h == w.h.(revoked := w.h.revoked + {g}) && w'.files == AfterRevokeGrant(w.files, g)
    ensures Otherwise(w, w', {})
  {
    RevokeIsExact(cfg, w, g);
    forall k | k in w'.files.docs
      ensures Undisturbed(w'.h, w.files.grants, w'.files.grants, k, w.files.docs[k])
    {
      assert DocOk(w.h, w.files.grants, w.now, k, w.files.docs[k]);
    }
  }

  lemma RevokeKeeps(cfg: Config, w: World, g: string, w': World)
    requires Inv(cfg, w) && g in w.h.redeemed && w'.now == w.now
    requires w'.h == w.h.(revoked := w.h.revoked + {g}) && w'.files == AfterRevokeGrant(w.files, g)
    ensures Inv(cfg, w')
  {
    RevokeHistory(cfg, w, g, w');
    RevokeUndisturbed(cfg, w, g, w');
    IndexCarries(w.files.grants, w'.files.grants, w.h, w'.h);
    Assemble(cfg, w, w', {});
  }
}
