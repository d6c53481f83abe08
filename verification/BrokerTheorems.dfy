/** What the broker promises over whole runs. */
module BrokerTheorems {
  import opened Wrappers
  import opened Records
  import opened DocumentStore
  import opened ClientPolicy
  import opened TokenPolicy
  import opened Handlers
  import opened BrokerRuns
  import opened BrokerInvariant
  import opened BrokerSteps
  import Sessions
  import Text

  ghost predicate Reachable(cfg: Config, w: World) {
    exists w0, actions :: Initial(w0) && Runnable(cfg, w0, actions) && w == Run(cfg, w0, actions)
  }

  lemma ReachableInv(cfg: Config, w: World)
    requires Reachable(cfg, w)
    ensures Inv(cfg, w)
  {
    var w0, actions :| Initial(w0) && Runnable(cfg, w0, actions) && w == Run(cfg, w0, actions);
    InitialInv(cfg, w0);
    RunKeeps(cfg, w0, actions);
  }

  // --- revocation is final ---------------------------------------------------

  /** No code and no refresh token of this grant is stored. */
  ghost predicate NothingStored(f: Files, g: string) {
    forall k :: k in f.docs ==>
      && (f.docs[k].payload.RefreshDoc? ==> f.docs[k].payload.token.grantId != g)
      && (f.docs[k].payload.CodeDoc? ==> f.docs[k].payload.code.grantId != g)
  }

  lemma RevokedIsGone(cfg: Config, w: World, g: string)
    requires Inv(cfg, w) && g in w.h.revoked
    ensures NothingStored(w.files, g)
  {
    forall k | k in w.files.docs
      ensures w.files.docs[k].payload.RefreshDoc? ==> w.files.docs[k].payload.token.grantId != g
      ensures w.files.docs[k].payload.CodeDoc? ==> w.files.docs[k].payload.code.grantId != g
    {
      assert DocOk(w.h, w.files.grants, w.now, k, w.files.docs[k]);
    }
  }

  /** The grant and client of the token response a step gives, if it gives one. */
  ghost predicate StepIssues(w: World, w': World) {
    || w'.h.issued == w.h.issued
    || exists i :: w'.h.issued == w.h.issued + [i] && i.grant !in w.h.revoked
                   && i.response.access.clientId !in w.h.deleted
  }

  lemma RedeemIssues(cfg: Config, w: World, c: Client, form: TokenForm, reply: TokenReply)
    requires Inv(cfg, w) && form.CodeForm? && c.id !in w.h.deleted
    requires reply.Granted? ==> reply.response.access.clientId == c.id
    ensures StepIssues(w, w.(h := RecordRedeem(w, form, reply)))
  {
    if Found(w.files, CodeKey(form.code), w.now).Some? {
      CodeFacts(cfg, w, form.code);
    }
  }

  lemma RefreshIssues(cfg: Config, w: World, c: Client, presented: string, reply: TokenReply)
    requires Inv(cfg, w) && c.id !in w.h.deleted
    requires reply.Granted? ==> reply.response.access.clientId == c.id
    ensures StepIssues(w, w.(h := RecordRefresh(w, presented, reply)))
  {
    if Found(w.files, RefreshKey(presented), w.now).Some? {
      RefreshFacts(cfg, w, presented);
    }
  }

  lemma NextIssues(cfg: Config, w: World, a: Action)
    requires Inv(cfg, w)
    ensures StepIssues(w, Next(cfg, w, a))
  {
    if a.DoToken? {
      AuthenticatedFacts(cfg, w, a.cred);
      var reply := Token(cfg, w.files, a.cred, a.form, w.now, a.jti, a.id).1;
      if Authenticate(w.files, a.cred, w.now).Some? {
        var c := Authenticate(w.files, a.cred, w.now).value;
        match a.form {
          case CodeForm(_, _, _) => RedeemIssues(cfg, w, c, a.form, reply);
          case RefreshForm(presented) => RefreshIssues(cfg, w, c, presented, reply);
          case OtherForm(_) =>
        }
      }
    }
  }

  lemma NextOnlyAdds(cfg: Config, w: World, a: Action)
    ensures w.h.revoked <= Next(cfg, w, a).h.revoked && w.h.deleted <= Next(cfg, w, a).h.deleted
  {
    var h1 := Act(cfg, w, a).h;
    assert w.h.revoked <= h1.revoked && w.h.deleted <= h1.deleted;
  }

  lemma {:induction false} RunNeverReturns(cfg: Config, w: World, actions: seq<Action>)
    requires Inv(cfg, w) && Runnable(cfg, w, actions)
    ensures
      var w' := Run(cfg, w, actions);
      && w.h.revoked <= w'.h.revoked && w.h.deleted <= w'.h.deleted
      && w.h.issued <= w'.h.issued
      && forall n :: |w.h.issued| <= n < |w'.h.issued| ==>
           w'.h.issued[n].grant !in w.h.revoked && w'.h.issued[n].response.access.clientId !in w.h.deleted
    decreases |actions|
  {
    if actions != [] {
      var w1 := Next(cfg, w, actions[0]);
      NextKeeps(cfg, w, actions[0]);
      NextIssues(cfg, w, actions[0]);
      NextOnlyAdds(cfg, w, actions[0]);
      RunNeverReturns(cfg, w1, actions[1..]);
    }
  }

  /** However the run goes on, a revoked grant yields no token response and nothing of it is stored. */
  lemma RevocationIsFinal(cfg: Config, w: World, g: string, actions: seq<Action>)
    requires Reachable(cfg, w) && g in w.h.revoked && Runnable(cfg, w, actions)
    ensures
      var w' := Run(cfg, w, actions);
      && NothingStored(w'.files, g)
      && w.h.issued <= w'.h.issued
      && forall n :: |w.h.issued| <= n < |w'.h.issued| ==> w'.h.issued[n].grant != g
  {
    ReachableInv(cfg, w);
    RunNeverReturns(cfg, w, actions);
    RunKeeps(cfg, w, actions);
    RevokedIsGone(cfg, Run(cfg, w, actions), g);
  }

  lemma Continues(cfg: Config, w: World, a: Action)
    requires Reachable(cfg, w) && Enabled(w, a)
    ensures Reachable(cfg, Next(cfg, w, a))
  {
    var w0, before :| Initial(w0) && Runnable(cfg, w0, before) && w == Run(cfg, w0, before);
    RunAppend(cfg, w0, before, a);
    assert Next(cfg, w, a) == Run(cfg, w0, before + [a]);
  }

  lemma {:induction false} RunAppend(cfg: Config, w: World, actions: seq<Action>, a: Action)
    requires Runnable(cfg, w, actions) && Enabled(Run(cfg, w, actions), a)
    ensures Runnable(cfg, w, actions + [a])
    ensures Run(cfg, w, actions + [a]) == Next(cfg, Run(cfg, w, actions), a)
    decreases |actions|
  {
    if actions == [] {
      assert (actions + [a])[0] == a && (actions + [a])[1..] == [];
      assert Run(cfg, Next(cfg, w, a), []) == Next(cfg, w, a);
    } else {
      assert (actions + [a])[0] == actions[0] && (actions + [a])[1..] == actions[1..] + [a];
      RunAppend(cfg, Next(cfg, w, actions[0]), actions[1..], a);
    }
  }

  /** Section 2 of RFC 7009: an accepted revocation of a live token of the client's own is final. */
  lemma RevocationEndpointIsFinal(
    cfg: Config, w: World, cred: Credentials, token: string, g: string, actions: seq<Action>)
    requires Reachable(cfg, w) && Authenticate(w.files, cred, w.now).Some?
    requires OwnGrant(w.files, Authenticate(w.files, cred, w.now).value.id, token, w.now) == Some(g)
    requires Runnable(cfg, Next(cfg, w, DoRevoke(cred, token)), actions)
    ensures
      var w1 := Next(cfg, w, DoRevoke(cred, token));
      var w' := Run(cfg, w1, actions);
      && NothingStored(w1.files, g) && NothingStored(w'.files, g)
      && w.h.issued <= w'.h.issued
      && forall n :: |w.h.issued| <= n < |w'.h.issued| ==> w'.h.issued[n].grant != g
  {
    var a := DoRevoke(cred, token);
    Continues(cfg, w, a);
    RevocationIsFinal(cfg, Next(cfg, w, a), g, []);
    RevocationIsFinal(cfg, Next(cfg, w, a), g, actions);
  }

  /** A deleted client never gets another token, and none of its refresh tokens is ever stored again. */
  lemma ClientDeletionIsFinal(cfg: Config, w: World, id: string, order: seq<string>, actions: seq<Action>)
    requires Reachable(cfg, w) && Enabled(w, DoDelete(id, order)) && LoadClient(w.files, id, w.now).Some?
    requires Runnable(cfg, Next(cfg, w, DoDelete(id, order)), actions)
    ensures
      var w' := Run(cfg, Next(cfg, w, DoDelete(id, order)), actions);
      && ClientKey(id) !in w'.files.docs
      && (forall k :: k in w'.files.docs && w'.files.docs[k].payload.RefreshDoc? ==>
            w'.files.docs[k].payload.token.clientId != id)
      && w.h.issued <= w'.h.issued
      && forall n :: |w.h.issued| <= n < |w'.h.issued| ==> w'.h.issued[n].response.access.clientId != id
  {
    var a := DoDelete(id, order);
    var w1 := Next(cfg, w, a);
    Continues(cfg, w, a);
    ReachableInv(cfg, w1);
    assert id in w1.h.deleted;
    RunNeverReturns(cfg, w1, actions);
    RunKeeps(cfg, w1, actions);
    var w' := Run(cfg, w1, actions);
    forall k | k in w'.files.docs
      ensures k != ClientKey(id)
      ensures w'.files.docs[k].payload.RefreshDoc? ==> w'.files.docs[k].payload.token.clientId != id
    {
      assert DocOk(w'.h, w'.files.grants, w'.now, k, w'.files.docs[k]);
    }
  }

  // --- reuse ends the lineage ------------------------------------------------

  /** `path` runs from an ancestor to a token, each the parent of the next. */
  ghost predicate Lineal(h: History, path: seq<string>) {
    && |path| > 0
    && (forall n :: 0 <= n < |path| ==> path[n] in h.tokens)
    && forall n :: 0 < n < |path| ==> h.tokens[path[n]].parent == Some(path[n - 1])
  }

  ghost predicate Descends(h: History, ancestor: string, id: string) {
    exists path :: Lineal(h, path) && path[0] == ancestor && path[|path| - 1] == id
  }

  /** Two refresh tokens that come from the same original one by any number of rotations. */
  ghost predicate Kin(h: History, x: string, y: string) {
    exists root :: Descends(h, root, x) && Descends(h, root, y)
  }

  lemma {:induction false} LinealGrant(cfg: Config, h: History, path: seq<string>)
    requires RecordsOk(cfg, h) && Lineal(h, path)
    ensures h.tokens[path[0]].grant == h.tokens[path[|path| - 1]].grant
    decreases |path|
  {
    if |path| > 1 {
      var before := path[..|path| - 1];
      LinealGrant(cfg, h, before);
      assert TokenOk(h, path[|path| - 1]);
    }
  }

  lemma KinShareGrant(cfg: Config, h: History, x: string, y: string)
    requires RecordsOk(cfg, h) && Kin(h, x, y)
    ensures x in h.tokens && y in h.tokens && h.tokens[x].grant == h.tokens[y].grant
  {
    var root :| Descends(h, root, x) && Descends(h, root, y);
    var px :| Lineal(h, px) && px[0] == root && px[|px| - 1] == x;
    var py :| Lineal(h, py) && py[0] == root && py[|py| - 1] == y;
    LinealGrant(cfg, h, px);
    LinealGrant(cfg, h, py);
  }

  /** A grant's refresh tokens all come from one original. */
  ghost predicate OneRoot(h: History) {
    forall x, y | x in h.tokens && y in h.tokens && h.tokens[x].grant == h.tokens[y].grant ::
      h.tokens[x].parent == None && h.tokens[y].parent == None ==> x == y
  }

  lemma RedeemKeepsOneRoot(cfg: Config, w: World, form: TokenForm, reply: TokenReply)
    requires Inv(cfg, w) && OneRoot(w.h) && form.CodeForm?
    ensures OneRoot(RecordRedeem(w, form, reply))
  {
    if Found(w.files, CodeKey(form.code), w.now).Some? {
      CodeFacts(cfg, w, form.code);
      var g := Found(w.files, CodeKey(form.code), w.now).value.code.grantId;
      forall x | x in w.h.tokens ensures w.h.tokens[x].grant != g {
        assert TokenOk(w.h, x);
      }
    }
  }

  lemma RefreshKeepsOneRoot(w: World, presented: string, reply: TokenReply)
    requires OneRoot(w.h)
    ensures OneRoot(RecordRefresh(w, presented, reply))
  {
  }

  lemma OnlyTokensMakeTokens(cfg: Config, w: World, a: Action)
    requires !a.DoToken?
    ensures Next(cfg, w, a).h.tokens == w.h.tokens
  {
  }

  lemma TokenKeepsOneRoot(cfg: Config, w: World, a: Action)
    requires Inv(cfg, w) && OneRoot(w.h) && a.DoToken?
    ensures OneRoot(Next(cfg, w, a).h)
  {
    var reply := Token(cfg, w.files, a.cred, a.form, w.now, a.jti, a.id).1;
    assert Next(cfg, w, a).h.tokens == RecordToken(w, a.cred, a.form, reply).tokens;
    match a.form {
      case CodeForm(_, _, _) => RedeemKeepsOneRoot(cfg, w, a.form, reply);
      case RefreshForm(presented) => RefreshKeepsOneRoot(w, presented, reply);
      case OtherForm(_) =>
    }
  }

  lemma NextKeepsOneRoot(cfg: Config, w: World, a: Action)
    requires Inv(cfg, w) && OneRoot(w.h)
    ensures OneRoot(Next(cfg, w, a).h)
  {
    if a.DoToken? {
      TokenKeepsOneRoot(cfg, w, a);
    } else {
      OnlyTokensMakeTokens(cfg, w, a);
    }
  }

  lemma {:induction false} RunKeepsOneRoot(cfg: Config, w: World, actions: seq<Action>)
    requires Inv(cfg, w) && OneRoot(w.h) && Runnable(cfg, w, actions)
    ensures OneRoot(Run(cfg, w, actions).h)
    decreases |actions|
  {
    if actions != [] {
      NextKeeps(cfg, w, actions[0]);
      NextKeepsOneRoot(cfg, w, actions[0]);
      RunKeepsOneRoot(cfg, Next(cfg, w, actions[0]), actions[1..]);
    }
  }

  lemma {:induction false} PathToRoot(cfg: Config, h: History, x: string) returns (path: seq<string>)
    requires RecordsOk(cfg, h) && x in h.tokens
    ensures Lineal(h, path) && path[|path| - 1] == x && h.tokens[path[0]].parent == None
    decreases h.tokens[x].at
  {
    assert TokenOk(h, x);
    match h.tokens[x].parent {
      case None => path := [x];
      case Some(p) =>
        var before := PathToRoot(cfg, h, p);
        path := before + [x];
    }
  }

  /** In every reachable state a grant's refresh tokens are exactly one lineage. */
  lemma LineageIsGrant(cfg: Config, w: World, x: string, y: string)
    requires Reachable(cfg, w)
    ensures Kin(w.h, x, y) <==>
      x in w.h.tokens && y in w.h.tokens && w.h.tokens[x].grant == w.h.tokens[y].grant
  {
    ReachableInv(cfg, w);
    if Kin(w.h, x, y) {
      KinShareGrant(cfg, w.h, x, y);
    }
    if x in w.h.tokens && y in w.h.tokens && w.h.tokens[x].grant == w.h.tokens[y].grant {
      var w0, actions :| Initial(w0) && Runnable(cfg, w0, actions) && w == Run(cfg, w0, actions);
      InitialInv(cfg, w0);
      RunKeepsOneRoot(cfg, w0, actions);
      var px := PathToRoot(cfg, w.h, x);
      var py := PathToRoot(cfg, w.h, y);
      LinealGrant(cfg, w.h, px);
      LinealGrant(cfg, w.h, py);
      assert Descends(w.h, px[0], x) && Descends(w.h, px[0], y);
    }
  }

  // --- reuse ends the lineage, and only the lineage --------------------------

  ghost predicate LateReuse(w: World, cred: Credentials, presented: string) {
    && Authenticate(w.files, cred, w.now).Some?
    && Live(w.files, RefreshKey(presented), w.now)
    && var d := w.files.docs[RefreshKey(presented)];
    && d.payload.RefreshDoc? && d.payload.token.clientId == Authenticate(w.files, cred, w.now).value.id
    && d.payload.token.exp > Unix(w.now) && d.payload.token.consumed != 0
    && w.now > (d.payload.token.consumed + 30) * 1000
  }

  lemma ReuseStep(cfg: Config, w: World, cred: Credentials, presented: string, jti: string, id: string)
    requires Inv(cfg, w) && LateReuse(w, cred, presented)
    ensures
      var w' := Next(cfg, w, DoToken(cred, RefreshForm(presented), jti, id));
      var g := w.files.docs[RefreshKey(presented)].payload.token.grantId;
      && Token(cfg, w.files, cred, RefreshForm(presented), w.now, jti, id).1 == Rejected(TokenReused)
      && w'.files == AfterRevokeGrant(AfterDestroy(w.files, RefreshKey(presented)), g)
      && g in w'.h.revoked && presented in w.h.tokens && w.h.tokens[presented].grant == g
  {
    AuthenticatedFacts(cfg, w, cred);
    RefreshFacts(cfg, w, presented);
  }

  lemma GrantDocsAreKin(cfg: Config, w: World, presented: string, k: Key)
    requires Reachable(cfg, w) && presented in w.h.tokens && k in w.files.docs
    ensures w.files.docs[k].payload.RefreshDoc? && w.files.docs[k].payload.token.grantId == w.h.tokens[presented].grant
      <==> k.model.RefreshModel? && Kin(w.h, presented, k.id)
  {
    ReachableInv(cfg, w);
    assert DocOk(w.h, w.files.grants, w.now, k, w.files.docs[k]);
    LineageIsGrant(cfg, w, presented, k.id);
  }

  lemma GrantRemoved(cfg: Config, w: World, presented: string, k: Key)
    requires Inv(cfg, w) && presented in w.h.tokens
    ensures k in AfterRevokeGrant(AfterDestroy(w.files, RefreshKey(presented)), w.h.tokens[presented].grant).docs <==>
      k in w.files.docs
      && !(w.files.docs[k].payload.RefreshDoc? && w.files.docs[k].payload.token.grantId == w.h.tokens[presented].grant)
  {
    var f := w.files;
    RevokeIsExact(cfg, w, w.h.tokens[presented].grant);
    if RefreshKey(presented) in f.docs {
      assert DocOk(w.h, f.grants, w.now, RefreshKey(presented), f.docs[RefreshKey(presented)]);
    }
  }

  lemma KinRemoved(cfg: Config, w: World, presented: string, k: Key)
    requires Reachable(cfg, w) && presented in w.h.tokens
    ensures k in AfterRevokeGrant(AfterDestroy(w.files, RefreshKey(presented)), w.h.tokens[presented].grant).docs <==>
      k in w.files.docs && !(k.model.RefreshModel? && Kin(w.h, presented, k.id))
  {
    assert Inv(cfg, w) by { ReachableInv(cfg, w); }
    GrantRemoved(cfg, w, presented, k);
    if k in w.files.docs {
      GrantDocsAreKin(cfg, w, presented, k);
    }
  }

  /**
   Section 4.14.2 of RFC 9700. A token rotated away any number of generations ago, presented by
   its own client after the grace window, is refused; every relative of it leaves the store and
   no other document does.
   */
  lemma ReuseEndsTheLineage(
    cfg: Config, w: World, cred: Credentials, presented: string, jti: string, id: string, k: Key)
    requires Reachable(cfg, w) && LateReuse(w, cred, presented)
    ensures Token(cfg, w.files, cred, RefreshForm(presented), w.now, jti, id).1 == Rejected(TokenReused)
    ensures ErrorCode(TokenReused) == "invalid_grant"
    ensures
      var w' := Next(cfg, w, DoToken(cred, RefreshForm(presented), jti, id));
      && presented in w.h.tokens && w.h.tokens[presented].grant in w'.h.revoked
      && (k in w'.files.docs <==> k in w.files.docs && !(k.model.RefreshModel? && Kin(w.h, presented, k.id)))
  {
    assert Inv(cfg, w) by { ReachableInv(cfg, w); }
    ReuseStep(cfg, w, cred, presented, jti, id);
    KinRemoved(cfg, w, presented, k);
  }

  // --- only the owner revokes ------------------------------------------------

  lemma OwnGrantIsOwned(cfg: Config, w: World, clientId: string, token: string)
    requires Inv(cfg, w)
    ensures
      var g := OwnGrant(w.files, clientId, token, w.now);
      g.Some? ==> g.value in w.h.grants && w.h.grants[g.value].request.clientId == clientId
  {
    var k := RefreshKey(token);
    if Live(w.files, k, w.now) {
      assert DocOk(w.h, w.files.grants, w.now, k, w.files.docs[k]);
    }
  }

  lemma {:induction false} DroppedAreOwned(cfg: Config, w: World, clientId: string, ids: seq<string>, g: string)
    requires Inv(cfg, w) && g in DroppedGrants(w.files, clientId, ids, w.now)
    ensures g in w.h.grants && w.h.grants[g].request.clientId == clientId
    decreases |ids|
  {
    var before, last := ids[..|ids| - 1], ids[|ids| - 1];
    if g in DroppedGrants(w.files, clientId, before, w.now) {
      DroppedAreOwned(cfg, w, clientId, before, g);
    } else {
      var w1 := World(
        DropTokens(w.files, clientId, before, w.now), w.now,
        w.h.(revoked := w.h.revoked + DroppedGrants(w.files, clientId, before, w.now)));
      DropTokensKeep(cfg, w, clientId, before, w1);
      OwnGrantIsOwned(cfg, w1, clientId, last);
    }
  }

  lemma RefreshRevokes(cfg: Config, w: World, c: Client, presented: string, jti: string, id: string, g: string)
    requires
      var reply := Refresh(cfg, w.files, c, presented, w.now, jti, id).1;
      g in RecordRefresh(w, presented, reply).revoked && g !in w.h.revoked
    ensures Refresh(cfg, w.files, c, presented, w.now, jti, id).1 == Rejected(TokenReused)
    ensures Found(w.files, RefreshKey(presented), w.now).Some?
      && w.files.docs[RefreshKey(presented)].payload.RefreshDoc?
    ensures g == w.files.docs[RefreshKey(presented)].payload.token.grantId
  {
  }

  lemma RedeemRevokesNothing(w: World, form: TokenForm, reply: TokenReply)
    requires form.CodeForm?
    ensures RecordRedeem(w, form, reply).revoked == w.h.revoked
  {
  }

  lemma TokenRevokesOwn(cfg: Config, w: World, a: Action, g: string)
    requires Inv(cfg, w) && a.DoToken? && g in Act(cfg, w, a).h.revoked && g !in w.h.revoked
    ensures a.form.RefreshForm? && LateReuse(w, a.cred, a.form.presented)
    ensures g in w.h.grants && w.h.grants[g].request.clientId == a.cred.id
  {
    AuthenticatedFacts(cfg, w, a.cred);
    var client := Authenticate(w.files, a.cred, w.now);
    assert client.Some?;
    var reply := Token(cfg, w.files, a.cred, a.form, w.now, a.jti, a.id).1;
    if a.form.CodeForm? {
      RedeemRevokesNothing(w, a.form, reply);
    }
    var presented := a.form.presented;
    RefreshRevokes(cfg, w, client.value, presented, a.jti, a.id, g);
    RefusedRefresh(cfg, w, client.value, presented, a.jti, a.id);
    ReuseIsOwn(cfg, w, a.cred, presented);
  }

  lemma ReuseIsOwn(cfg: Config, w: World, cred: Credentials, presented: string)
    requires Inv(cfg, w) && Authenticate(w.files, cred, w.now).Some?
    requires Found(w.files, RefreshKey(presented), w.now).Some?
      && w.files.docs[RefreshKey(presented)].payload.RefreshDoc?
    requires
      var rt := w.files.docs[RefreshKey(presented)].payload.token;
      && rt.clientId == Authenticate(w.files, cred, w.now).value.id
      && (rt.exp != 0 ==> rt.exp > Unix(w.now)) && PastGrace(rt, w.now)
    ensures LateReuse(w, cred, presented)
    ensures
      var g := w.files.docs[RefreshKey(presented)].payload.token.grantId;
      g in w.h.grants && w.h.grants[g].request.clientId == cred.id
  {
    AuthenticatedFacts(cfg, w, cred);
    RefreshFacts(cfg, w, presented);
  }

  /**
   A grant is revoked only on behalf of the client it belongs to: by its own revocation request,
   by its own late reuse of a spent token, or by its deletion.
   */
  lemma OnlyTheOwnerRevokes(cfg: Config, w: World, a: Action, g: string)
    requires Reachable(cfg, w) && g in Next(cfg, w, a).h.revoked && g !in w.h.revoked
    ensures g in w.h.grants
    ensures
      var owner := w.h.grants[g].request.clientId;
      || (a.DoRevoke? && Authenticate(w.files, a.cred, w.now).Some? && a.cred.id == owner)
      || (a.DoToken? && a.form.RefreshForm? && LateReuse(w, a.cred, a.form.presented) && a.cred.id == owner)
      || (a.DoDelete? && a.id == owner)
  {
    assert Inv(cfg, w) by { ReachableInv(cfg, w); }
    assert g in Act(cfg, w, a).h.revoked;
    if a.DoToken? {
      TokenRevokesOwn(cfg, w, a, g);
    } else if a.DoRevoke? {
      AuthenticatedFacts(cfg, w, a.cred);
      OwnGrantIsOwned(cfg, w, a.cred.id, a.token);
    } else if a.DoDelete? {
      DeletionRevokesOwn(cfg, w, a.id, a.order, g);
    }
  }

  lemma DeletionRevokesOwn(cfg: Config, w: World, clientId: string, order: seq<string>, g: string)
    requires Inv(cfg, w) && g in Act(cfg, w, DoDelete(clientId, order)).h.revoked && g !in w.h.revoked
    ensures g in w.h.grants && w.h.grants[g].request.clientId == clientId
  {
    ClientFacts(cfg, w, clientId);
    var gone := World(ClientGone(w.files, clientId, w.now), w.now, w.h);
    RemovalKeeps(cfg, w, gone.files, 0);
    var start := World(Cleaned(gone.files, [RefreshModel], w.now), w.now, w.h);
    RemovalKeeps(cfg, gone, start.files, 0);
    DroppedAreOwned(cfg, start, clientId, order, g);
  }

  // --- the grant index -------------------------------------------------------

  /**
   Every stored refresh token is listed under its grant by a reference that decodes to it, and
   every listed reference names a refresh token of that grant; so revoking the grant removes
   exactly its stored refresh tokens.
   */
  lemma IndexAgrees(cfg: Config, w: World, k: Key, g: string)
    requires Reachable(cfg, w)
    ensures k in w.files.docs && w.files.docs[k].payload.RefreshDoc? && w.files.docs[k].payload.token.grantId == g ==>
      && g in w.files.grants && RefOf(k) in w.files.grants[g] && KeyOf(RefOf(k)) == Some(k)
    ensures g in w.files.grants && k in Named(w.files.grants[g]) && k in w.files.docs ==>
      w.files.docs[k].payload.RefreshDoc? && w.files.docs[k].payload.token.grantId == g
    ensures k in AfterRevokeGrant(w.files, g).docs <==>
      k in w.files.docs && !(w.files.docs[k].payload.RefreshDoc? && w.files.docs[k].payload.token.grantId == g)
  {
    ReachableInv(cfg, w);
    RevokeIsExact(cfg, w, g);
    RefDecodes(k);
    if k in w.files.docs {
      assert DocOk(w.h, w.files.grants, w.now, k, w.files.docs[k]);
    }
  }

  // --- lifetimes -------------------------------------------------------------

  /** A confidential client's token has been rotated at most five times. */
  lemma RotationDepthBound(cfg: Config, w: World, id: string)
    requires Reachable(cfg, w) && RefreshKey(id) in w.files.docs
    ensures
      var d := w.files.docs[RefreshKey(id)];
      && d.payload.RefreshDoc? && d.payload.token.clientId in w.h.clients
      && (w.h.clients[d.payload.token.clientId].authMethod == "none" || d.payload.token.rotations <= 5)
  {
    ReachableInv(cfg, w);
    var k := RefreshKey(id);
    assert DocOk(w.h, w.files.grants, w.now, k, w.files.docs[k]);
  }

  /**
   A grant dies one year and ninety days after its code was redeemed, whatever is rotated in
   between, and its last access token an hour later.
   */
  lemma AbsoluteGrantLifetime(cfg: Config, w: World, g: string)
    requires Reachable(cfg, w) && g in w.h.redeemed
    ensures forall k |
        k in w.files.docs && w.files.docs[k].payload.RefreshDoc? && w.files.docs[k].payload.token.grantId == g ::
      && w.files.docs[k].payload.token.iiat == w.h.redeemed[g]
      && w.files.docs[k].payload.token.exp <= w.h.redeemed[g] + 31557600 + 7776000
    ensures forall n :: 0 <= n < |w.h.issued| && w.h.issued[n].grant == g ==>
      w.h.issued[n].response.access.exp < w.h.redeemed[g] + 31557600 + 7776000 + 3600
  {
    ReachableInv(cfg, w);
    forall k | k in w.files.docs && w.files.docs[k].payload.RefreshDoc? && w.files.docs[k].payload.token.grantId == g
      ensures w.files.docs[k].payload.token.iiat == w.h.redeemed[g]
      ensures w.files.docs[k].payload.token.exp <= w.h.redeemed[g] + ABSOLUTE_MAX + REFRESH_TTL
    {
      assert DocOk(w.h, w.files.grants, w.now, k, w.files.docs[k]);
    }
    forall n | 0 <= n < |w.h.issued| && w.h.issued[n].grant == g
      ensures w.h.issued[n].response.access.exp < w.h.redeemed[g] + ABSOLUTE_MAX + REFRESH_TTL + ACCESS_TTL
    {
      assert IssuedOk(cfg, w.h, w.h.issued[n]);
    }
  }

  /**
   The seconds in a stored refresh token and the milliseconds around it agree to within one
   second, and refreshing it never moves its own expiry later nor reaches the one-second fallback.
   */
  lemma TwoClocksAgree(cfg: Config, w: World, c: Client, presented: string, jti: string, id: string)
    requires Reachable(cfg, w) && RefreshKey(presented) in w.files.docs && id !in w.h.used
    ensures
      var d := w.files.docs[RefreshKey(presented)];
      && d.payload.RefreshDoc?
      && d.payload.token.exp * 1000 <= d.expiresAt < d.payload.token.exp * 1000 + 1000
      && var (f', reply) := Refresh(cfg, w.files, c, presented, w.now, jti, id);
         reply.Granted? ==>
           && Remaining(d.payload.token.exp, w.now) == d.payload.token.exp * 1000 - w.now
           && RefreshKey(presented) in f'.docs
           && w.now < f'.docs[RefreshKey(presented)].expiresAt == d.payload.token.exp * 1000 <= d.expiresAt
  {
    ReachableInv(cfg, w);
    var k := RefreshKey(presented);
    assert DocOk(w.h, w.files.grants, w.now, k, w.files.docs[k]);
  }

  // --- no token is lost ------------------------------------------------------

  ghost predicate LiveToken(f: Files, id: string, now: int) {
    Live(f, RefreshKey(id), now) && f.docs[RefreshKey(id)].payload.RefreshDoc?
  }

  ghost predicate StillThere(f: Files, f': Files, id: string) {
    RefreshKey(id) in f'.docs && (RefreshKey(id) in f.docs ==> f'.docs[RefreshKey(id)] == f.docs[RefreshKey(id)])
  }

  lemma DropTokenLoses(cfg: Config, w: World, clientId: string, token: string, id: string, w': World)
    requires Inv(cfg, w) && LiveToken(w.files, id, w.now)
    requires w'.files == DropToken(w.files, clientId, token, w.now)
    requires w'.h == w.h.(revoked := w.h.revoked + GrantSet(OwnGrant(w.files, clientId, token, w.now)))
    ensures StillThere(w.files, w'.files, id)
      || w.files.docs[RefreshKey(id)].payload.token.grantId in w'.h.revoked
  {
    match OwnGrant(w.files, clientId, token, w.now) {
      case None =>
      case Some(g) => RevokeIsExact(cfg, w, g);
    }
  }

  lemma {:induction false} DropTokensLose(cfg: Config, w: World, clientId: string, ids: seq<string>, id: string)
    requires Inv(cfg, w) && LiveToken(w.files, id, w.now)
    ensures StillThere(w.files, DropTokens(w.files, clientId, ids, w.now), id)
      || w.files.docs[RefreshKey(id)].payload.token.grantId
           in DroppedGrants(w.files, clientId, ids, w.now) + w.h.revoked
    decreases |ids|
  {
    if ids != [] {
      var before, last := ids[..|ids| - 1], ids[|ids| - 1];
      var w1 := World(
        DropTokens(w.files, clientId, before, w.now), w.now,
        w.h.(revoked := w.h.revoked + DroppedGrants(w.files, clientId, before, w.now)));
      DropTokensKeep(cfg, w, clientId, before, w1);
      DropTokensLose(cfg, w, clientId, before, id);
      if StillThere(w.files, w1.files, id) {
        var w2 := World(
          DropToken(w1.files, clientId, last, w.now), w.now,
          w1.h.(revoked := w1.h.revoked + GrantSet(OwnGrant(w1.files, clientId, last, w.now))));
        DropTokenLoses(cfg, w1, clientId, last, id, w2);
      }
    }
  }

  lemma RefreshLoses(cfg: Config, w: World, c: Client, presented: string, jti: string, newId: string, id: string)
    requires Inv(cfg, w) && LiveToken(w.files, id, w.now)
    ensures
      var (f', reply) := Refresh(cfg, w.files, c, presented, w.now, jti, newId);
      || RefreshKey(id) in f'.docs
      || w.files.docs[RefreshKey(id)].payload.token.grantId in RecordRefresh(w, presented, reply).revoked
      || (presented == id && reply in {Rejected(TokenOfOtherClient), Rejected(TokenExpired)})
  {
    if Refresh(cfg, w.files, c, presented, w.now, jti, newId).1 == Rejected(TokenReused) {
      RefreshFacts(cfg, w, presented);
      var g := w.files.docs[RefreshKey(presented)].payload.token.grantId;
      var w1 := World(AfterDestroy(w.files, RefreshKey(presented)), w.now, w.h);
      RemovalKeeps(cfg, w, w1.files, 0);
      RevokeIsExact(cfg, w1, g);
    }
  }

  lemma DeleteLoses(cfg: Config, w: World, clientId: string, order: seq<string>, id: string)
    requires Inv(cfg, w) && LiveToken(w.files, id, w.now)
    ensures RefreshKey(id) in Act(cfg, w, DoDelete(clientId, order)).files.docs
      || w.files.docs[RefreshKey(id)].payload.token.grantId in Act(cfg, w, DoDelete(clientId, order)).h.revoked
  {
    ClientFacts(cfg, w, clientId);
    var gone := World(ClientGone(w.files, clientId, w.now), w.now, w.h);
    RemovalKeeps(cfg, w, gone.files, 0);
    var start := World(Cleaned(gone.files, [RefreshModel], w.now), w.now, w.h);
    RemovalKeeps(cfg, gone, start.files, 0);
    DropTokensLose(cfg, start, clientId, order, id);
  }

  lemma TokenLoses(cfg: Config, w: World, a: Action, id: string)
    requires Inv(cfg, w) && LiveToken(w.files, id, w.now) && a.DoToken?
    ensures
      var w1 := Act(cfg, w, a);
      || RefreshKey(id) in w1.files.docs
      || w.files.docs[RefreshKey(id)].payload.token.grantId in w1.h.revoked
      || (a.form == RefreshForm(id)
          && Token(cfg, w.files, a.cred, a.form, w.now, a.jti, a.id).1
             in {Rejected(TokenOfOtherClient), Rejected(TokenExpired)})
  {
    AuthenticatedFacts(cfg, w, a.cred);
    var client := Authenticate(w.files, a.cred, w.now);
    if client.Some? && a.form.RefreshForm? {
      RefreshLoses(cfg, w, client.value, a.form.presented, a.jti, a.id, id);
    }
  }

  lemma RevokeLoses(cfg: Config, w: World, a: Action, id: string)
    requires Inv(cfg, w) && LiveToken(w.files, id, w.now) && a.DoRevoke?
    ensures
      var w1 := Act(cfg, w, a);
      || RefreshKey(id) in w1.files.docs
      || w.files.docs[RefreshKey(id)].payload.token.grantId in w1.h.revoked
  {
    AuthenticatedFacts(cfg, w, a.cred);
    var client := Authenticate(w.files, a.cred, w.now);
    if client.Some? {
      DropTokenLoses(cfg, w, client.value.id, a.token, id, Act(cfg, w, a));
    }
  }

  /** Every other action leaves live refresh tokens where they are. */
  lemma OthersLoseNothing(cfg: Config, w: World, a: Action, id: string)
    requires LiveToken(w.files, id, w.now) && !a.DoToken? && !a.DoRevoke? && !a.DoDelete?
    ensures RefreshKey(id) in Act(cfg, w, a).files.docs
  {
  }

  /**
   A live refresh token, spent or not, leaves the store only with its revoked grant, or because
   it was itself presented and refused: by another client, or in the last second of its life.
   */
  lemma NoTokenIsLost(cfg: Config, w: World, a: Action, id: string)
    requires Reachable(cfg, w) && LiveToken(w.files, id, w.now)
    ensures
      var w1 := Next(cfg, w, a);
      || RefreshKey(id) in w1.files.docs
      || w.files.docs[RefreshKey(id)].payload.token.grantId in w1.h.revoked
      || (a.DoToken? && a.form == RefreshForm(id)
          && Token(cfg, w.files, a.cred, a.form, w.now, a.jti, a.id).1
             in {Rejected(TokenOfOtherClient), Rejected(TokenExpired)})
  {
    assert Inv(cfg, w) by { ReachableInv(cfg, w); }
    var w1 := Act(cfg, w, a);
    assert Next(cfg, w, a).files == w1.files && Next(cfg, w, a).h.revoked == w1.h.revoked;
    if a.DoToken? {
      TokenLoses(cfg, w, a, id);
    } else if a.DoRevoke? {
      RevokeLoses(cfg, w, a, id);
    } else if a.DoDelete? {
      DeleteLoses(cfg, w, a.id, a.order, id);
    } else {
      OthersLoseNothing(cfg, w, a, id);
    }
  }

  // --- provenance ------------------------------------------------------------

  /**
   Every access token ever issued, at first or through any chain of refreshes, goes back to an
   interaction under a live session with the subject it names, and that to an accepted
   authorization request of the client it names, with an S256 challenge and a redirect URI
   that client registered; its scope is the one authorized then.
   */
  lemma EveryAccessTokenWasAuthorized(cfg: Config, w: World, n: nat)
    requires Reachable(cfg, w) && n < |w.h.issued|
    ensures
      var i := w.h.issued[n];
      && i.grant in w.h.grants && w.h.grants[i.grant].requestId in w.h.requests
      && var b := w.h.grants[i.grant];
      && var r := w.h.requests[b.requestId];
      && r.at < b.at < i.at
      && i.response.access.clientId in w.h.clients && r.request.clientId == i.response.access.clientId
      && var c := w.h.clients[r.request.clientId];
      && r.request.redirectUri in c.redirectUris && r.request.state == r.query.state
      && r.query.responseType == "code" && (c.grantTypes == [] || "authorization_code" in c.grantTypes)
      && (r.query.resource == "" || cfg.validResource(r.query.resource))
      && r.query.challengeMethod == "S256" && r.request.challenge == r.query.challenge != ""
      && b.cookie != "" && b.cookie in b.browsers && b.browsers[b.cookie] == b.session && b.nowMs <= b.session.expires
      && b.session.oidcSub == i.response.access.sub != ""
      && i.response.scope == i.response.access.scope == Text.Normalised(RequestScope(cfg, r.query.scope))
      && (Text.SingleSpaced(cfg.scope) ==> i.response.access.scope == RequestScope(cfg, r.query.scope))
      && (i.source.FromCode? ==>
            && i.source.redirectUri == r.request.redirectUri
            && cfg.s256(i.source.verifier) == r.query.challenge && 43 <= |i.source.verifier| <= 128
            && forall x :: x in i.source.verifier ==>
                 'A' <= x <= 'Z' || 'a' <= x <= 'z' || '0' <= x <= '9' || x in "-._~")
  {
    ReachableInv(cfg, w);
    var i := w.h.issued[n];
    assert IssuedOk(cfg, w.h, i);
    assert GrantOk(w.h, i.grant);
    assert RequestOk(cfg, w.h, w.h.grants[i.grant].requestId);
    RequestScopeIsStable(cfg, w.h.requests[w.h.grants[i.grant].requestId].query.scope);
  }

  /** So does every stored refresh token, and its client is one that may hold it. */
  lemma EveryRefreshTokenWasAuthorized(cfg: Config, w: World, id: string)
    requires Reachable(cfg, w) && RefreshKey(id) in w.files.docs
    ensures
      var d := w.files.docs[RefreshKey(id)];
      && d.payload.RefreshDoc? && d.payload.token.grantId in w.h.grants
      && var t, b := d.payload.token, w.h.grants[d.payload.token.grantId];
      && b.requestId in w.h.requests && t.clientId in w.h.clients
      && t.clientId == b.request.clientId && t.accountId == b.session.oidcSub != ""
      && t.scope == Text.Normalised(RequestScope(cfg, w.h.requests[b.requestId].query.scope))
      && var c := w.h.clients[t.clientId];
      && "refresh_token" in c.grantTypes
      && ("offline_access" in Text.Fields(t.scope) || (c.applicationType in {"", "web"} && c.authMethod == "none"))
      && t.clientId !in w.h.deleted && t.grantId !in w.h.revoked
  {
    ReachableInv(cfg, w);
    var d := w.files.docs[RefreshKey(id)];
    assert DocOk(w.h, w.files.grants, w.now, RefreshKey(id), d);
    assert GrantOk(w.h, d.payload.token.grantId);
    assert RequestOk(cfg, w.h, w.h.grants[d.payload.token.grantId].requestId);
  }

  lemma AuthorizeRedirects(cfg: Config, w: World, q: AuthorizeQuery, id: string)
    requires Inv(cfg, w)
    ensures
      var reply := Authorize(cfg, w.files, q, id, w.now).1;
      reply.SentBack? ==>
        && q.clientId in w.h.clients && q.clientId !in w.h.deleted
        && reply.redirectUri in w.h.clients[q.clientId].redirectUris && reply.state == q.state
  {
    ClientFacts(cfg, w, q.clientId);
  }

  lemma InteractRedirects(
    cfg: Config, w: World, uid: string, browsers: Sessions.Table, cookie: string, grant: string, code: string)
    requires Inv(cfg, w)
    ensures
      var reply := Interact(w.files, uid, browsers, cookie, grant, code, w.now).1;
      reply.CodeSent? ==>
        && uid in w.h.requests && w.h.requests[uid].request.clientId in w.h.clients
        && var b := w.h.requests[uid];
        && var uris := w.h.clients[b.request.clientId].redirectUris;
        && reply.redirectUri in uris
        && reply.redirectUri == (if b.query.redirectUri == "" && |uris| == 1 then uris[0] else b.query.redirectUri)
        && reply.state == b.query.state
        && cookie in browsers && w.now <= browsers[cookie].expires && browsers[cookie].oidcSub != ""
  {
    var k := RequestKey(uid);
    if Live(w.files, k, w.now) {
      assert DocOk(w.h, w.files.grants, w.now, k, w.files.docs[k]);
      assert RequestOk(cfg, w.h, uid);
    }
  }

  /**
   No open redirect: an answer to an authorization request, an error included, and later the
   code go only to a redirect URI the named client registered, with that request's own state.
   */
  lemma OnlyRegisteredUrisAreRedirectedTo(
    cfg: Config, w: World, q: AuthorizeQuery, id: string, uid: string, browsers: Sessions.Table,
    cookie: string, grant: string, code: string)
    requires Reachable(cfg, w)
    ensures
      var reply := Authorize(cfg, w.files, q, id, w.now).1;
      reply.SentBack? ==>
        && q.clientId in w.h.clients && q.clientId !in w.h.deleted
        && reply.redirectUri in w.h.clients[q.clientId].redirectUris && reply.state == q.state
    ensures
      var reply := Interact(w.files, uid, browsers, cookie, grant, code, w.now).1;
      reply.CodeSent? ==>
        && uid in w.h.requests && w.h.requests[uid].request.clientId in w.h.clients
        && var b := w.h.requests[uid];
        && var uris := w.h.clients[b.request.clientId].redirectUris;
        && reply.redirectUri in uris
        && reply.redirectUri == (if b.query.redirectUri == "" && |uris| == 1 then uris[0] else b.query.redirectUri)
        && reply.state == b.query.state
        && cookie in browsers && w.now <= browsers[cookie].expires && browsers[cookie].oidcSub != ""
  {
    assert Inv(cfg, w) by { ReachableInv(cfg, w); }
    AuthorizeRedirects(cfg, w, q, id);
    InteractRedirects(cfg, w, uid, browsers, cookie, grant, code);
  }
}
