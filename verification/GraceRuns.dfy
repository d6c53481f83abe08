/**
 How long a spent refresh token is still accepted. Every rotation within the grace period
 marks the token as spent anew, so the period counts from the last one.
 */
module GraceRuns {
  import opened Wrappers
  import opened Records
  import opened DocumentStore
  import opened ClientPolicy
  import opened TokenPolicy
  import opened Handlers
  import opened BrokerRuns
  import opened BrokerInvariant
  import opened BrokerSteps
  import opened BrokerTheorems

  /** A presentation of `id` that is answered with another refresh token. */
  predicate Rotates(cfg: Config, w: World, a: Action, id: string) {
    && a.DoToken? && a.form == RefreshForm(id)
    && var reply := Token(cfg, w.files, a.cred, a.form, w.now, a.jti, a.id).1;
    && reply.Granted? && reply.response.refresh != Some(id)
  }

  function Rotation(cfg: Config, w: World, a: Action, id: string, last: int): int {
    if Rotates(cfg, w, a, id) then Unix(w.now) else last
  }

  /** The second in which the run last rotated `id` away, or `last`. */
  function LastRotation(cfg: Config, w: World, actions: seq<Action>, id: string, last: int): int
    decreases |actions|
  {
    if actions == [] then last
    else LastRotation(cfg, Next(cfg, w, actions[0]), actions[1..], id, Rotation(cfg, w, actions[0], id, last))
  }

  // --- the mark in the document is the last rotation ---------------------------

  /** Spent when the policy would rotate it, and so again at any later time below the ceiling. */
  predicate SpentByRule(c: Client, t: RefreshToken) {
    t.consumed == 0 || IsPublic(c) || 10 * (t.consumed - t.iat) > 7 * (t.exp - t.iat)
  }

  ghost predicate MarkedDoc(h: History, d: Document, last: int) {
    && d.payload.RefreshDoc? && d.payload.token.consumed == last
    && d.payload.token.clientId in h.clients
    && SpentByRule(h.clients[d.payload.token.clientId], d.payload.token)
  }

  ghost predicate Marked(w: World, id: string, last: int) {
    && (last != 0 ==> id in w.h.used)
    && (RefreshKey(id) in w.files.docs ==> MarkedDoc(w.h, w.files.docs[RefreshKey(id)], last))
  }

  lemma DeletionWritesNoToken(cfg: Config, w: World, a: Action, k: Key)
    requires Inv(cfg, w) && a.DoDelete? && k in Act(cfg, w, a).files.docs
    ensures k in w.files.docs && Act(cfg, w, a).files.docs[k] == w.files.docs[k]
  {
    var start := Cleaned(ClientGone(w.files, a.id, w.now), [RefreshModel], w.now);
    forall j | j in start.docs ensures j.id != "" {
      assert DocOk(w.h, w.files.grants, w.now, j, w.files.docs[j]);
    }
    DropTokensRemove(start, a.id, a.order, w.now);
  }

  lemma FrontWritesNoToken(cfg: Config, w: World, a: Action, k: Key)
    requires (a.DoRegister? || a.DoAuthorize? || a.DoInteract?) && k.model.RefreshModel?
    requires k in Act(cfg, w, a).files.docs
    ensures k in w.files.docs && Act(cfg, w, a).files.docs[k] == w.files.docs[k]
  {
  }

  lemma OthersWriteNoToken(cfg: Config, w: World, a: Action, k: Key)
    requires Inv(cfg, w) && !a.DoToken? && k.model.RefreshModel? && k in Act(cfg, w, a).files.docs
    ensures k in w.files.docs && Act(cfg, w, a).files.docs[k] == w.files.docs[k]
  {
    match a {
      case DoDelete(_, _) => DeletionWritesNoToken(cfg, w, a, k);
      case DoRegister(_, _, _, _) => FrontWritesNoToken(cfg, w, a, k);
      case DoAuthorize(_, _) => FrontWritesNoToken(cfg, w, a, k);
      case DoInteract(_, _, _, _, _) => FrontWritesNoToken(cfg, w, a, k);
      case _ =>
    }
  }

  /** The document a refresh leaves under each name but the new token's. */
  lemma RefreshLeaves(
    cfg: Config, f: Files, c: Client, presented: string, now: int, jti: string, newId: string, id: string)
    requires RefreshKey(id) in Refresh(cfg, f, c, presented, now, jti, newId).0.docs && id != newId && id != ""
    ensures
      var (f', reply) := Refresh(cfg, f, c, presented, now, jti, newId);
      && RefreshKey(id) in f.docs
      && if presented != id then f'.docs[RefreshKey(id)] == f.docs[RefreshKey(id)]
         else
           && reply.Granted? && f.docs[RefreshKey(id)].payload.RefreshDoc?
           && var rt := f.docs[RefreshKey(id)].payload.token;
           && rt.clientId == c.id
           && f'.docs[RefreshKey(id)].payload ==
                RefreshDoc(if ShouldRotate(c, rt, now) then rt.(consumed := Unix(now)) else rt)
           && (ShouldRotate(c, rt, now) <==> reply.response.refresh != Some(id))
  {
  }

  lemma NewTokenIsUnspent(
    cfg: Config, f: Files, c: Client, presented: string, now: int, jti: string, newId: string)
    requires RefreshKey(newId) !in f.docs && RefreshKey(newId) in Refresh(cfg, f, c, presented, now, jti, newId).0.docs
    requires newId != presented
    ensures
      var d := Refresh(cfg, f, c, presented, now, jti, newId).0.docs[RefreshKey(newId)];
      d.payload.RefreshDoc? && d.payload.token.consumed == 0 && d.payload.token.clientId == c.id
  {
  }

  lemma NotYetStored(cfg: Config, w: World, id: string)
    requires Inv(cfg, w) && id !in w.h.used
    ensures RefreshKey(id) !in w.files.docs
  {
    if RefreshKey(id) in w.files.docs {
      StoredIsUsed(cfg, w, RefreshKey(id));
    }
  }

  lemma RefreshHasName(
    cfg: Config, w: World, c: Client, presented: string, jti: string, newId: string, id: string)
    requires Inv(cfg, w) && RefreshKey(id) in Refresh(cfg, w.files, c, presented, w.now, jti, newId).0.docs
        && id != newId
    ensures id != ""
  {
    if RefreshKey(id) in w.files.docs {
      StoredIsUsed(cfg, w, RefreshKey(id));
    }
  }

  lemma RefreshMarks(
    cfg: Config, w: World, c: Client, presented: string, jti: string, newId: string, id: string, last: int)
    requires Inv(cfg, w) && Marked(w, id, last) && newId !in w.h.used
    requires c.id in w.h.clients && w.h.clients[c.id] == c
    requires RefreshKey(id) in Refresh(cfg, w.files, c, presented, w.now, jti, newId).0.docs
    ensures
      var (f', reply) := Refresh(cfg, w.files, c, presented, w.now, jti, newId);
      var rotated := presented == id && reply.Granted? && reply.response.refresh != Some(id);
      MarkedDoc(w.h, f'.docs[RefreshKey(id)], if rotated then Unix(w.now) else last)
  {
    NotYetStored(cfg, w, newId);
    if id != newId {
      RefreshHasName(cfg, w, c, presented, jti, newId, id);
      RefreshLeaves(cfg, w.files, c, presented, w.now, jti, newId, id);
    } else if presented != newId {
      NewTokenIsUnspent(cfg, w.files, c, presented, w.now, jti, newId);
    }
  }

  /** Only a stored token is ever rotated. */
  lemma RotatedWasStored(
    cfg: Config, w: World, c: Client, presented: string, jti: string, newId: string)
    requires Inv(cfg, w) && Refresh(cfg, w.files, c, presented, w.now, jti, newId).1.Granted?
    ensures presented in w.h.used
  {
    RefreshFacts(cfg, w, presented);
    assert DocOk(w.h, w.files.grants, w.now, RefreshKey(presented), w.files.docs[RefreshKey(presented)]);
  }

  lemma RedeemMarks(
    cfg: Config, w: World, c: Client, form: TokenForm, jti: string, newId: string, id: string, last: int)
    requires Inv(cfg, w) && Marked(w, id, last) && newId !in w.h.used && form.CodeForm?
    requires c.id in w.h.clients && w.h.clients[c.id] == c
    ensures
      var f' := RedeemCode(cfg, w.files, c, form.code, form.redirectUri, form.verifier, w.now, jti, newId).0;
      RefreshKey(id) in f'.docs ==> MarkedDoc(w.h, f'.docs[RefreshKey(id)], last)
  {
  }

  lemma TokenMarks(cfg: Config, w: World, a: Action, id: string, last: int)
    requires Inv(cfg, w) && Enabled(w, a) && a.DoToken? && Marked(w, id, last)
    ensures Marked(Next(cfg, w, a), id, Rotation(cfg, w, a, id, last))
  {
    AuthenticatedFacts(cfg, w, a.cred);
    assert Drawn(a)[1] == a.id;
    assert Next(cfg, w, a).h.clients == w.h.clients && w.h.used <= Next(cfg, w, a).h.used by {
      NextExtends(cfg, w, a);
    }
    match Authenticate(w.files, a.cred, w.now) {
      case None =>
      case Some(c) =>
        match a.form {
          case CodeForm(_, _, _) => RedeemMarks(cfg, w, c, a.form, a.jti, a.id, id, last);
          case RefreshForm(presented) =>
            if RefreshKey(id) in Next(cfg, w, a).files.docs {
              RefreshMarks(cfg, w, c, presented, a.jti, a.id, id, last);
            }
            if Rotates(cfg, w, a, id) {
              RotatedWasStored(cfg, w, c, presented, a.jti, a.id);
            }
          case OtherForm(_) =>
        }
    }
  }

  lemma NextMarks(cfg: Config, w: World, a: Action, id: string, last: int)
    requires Inv(cfg, w) && Enabled(w, a) && Marked(w, id, last)
    ensures Marked(Next(cfg, w, a), id, Rotation(cfg, w, a, id, last))
  {
    var w' := Next(cfg, w, a);
    if a.DoToken? {
      TokenMarks(cfg, w, a, id, last);
    } else {
      NextExtends(cfg, w, a);
      if RefreshKey(id) in w'.files.docs {
        OthersWriteNoToken(cfg, w, a, RefreshKey(id));
        assert a.DoRegister? ==> Drawn(a)[0] == a.id;
      }
    }
  }

  lemma {:induction false} RunMarks(cfg: Config, w: World, actions: seq<Action>, id: string, last: int)
    requires Inv(cfg, w) && Runnable(cfg, w, actions) && Marked(w, id, last)
    ensures Marked(Run(cfg, w, actions), id, LastRotation(cfg, w, actions, id, last))
    decreases |actions|
  {
    if actions != [] {
      NextMarks(cfg, w, actions[0], id, last);
      NextKeeps(cfg, w, actions[0]);
      RunMarks(cfg, Next(cfg, w, actions[0]), actions[1..], id, Rotation(cfg, w, actions[0], id, last));
    }
  }

  // --- the theorem ---------------------------------------------------------------

  ghost predicate OwnToken(w: World, cred: Credentials, id: string) {
    && LiveToken(w.files, id, w.now)
    && Authenticate(w.files, cred, w.now).Some?
    && w.files.docs[RefreshKey(id)].payload.token.clientId == Authenticate(w.files, cred, w.now).value.id
  }

  lemma AcceptedNow(cfg: Config, w: World, cred: Credentials, id: string, jti: string, newId: string)
    requires Inv(cfg, w) && OwnToken(w, cred, id) && w.files.docs[RefreshKey(id)].payload.token.consumed != 0
    ensures
      var rt := w.files.docs[RefreshKey(id)].payload.token;
      var reply := Token(cfg, w.files, cred, RefreshForm(id), w.now, jti, newId).1;
      && (reply.Granted? <==> Unix(w.now) < rt.exp && w.now <= (rt.consumed + GRACE) * 1000)
      && (reply.Rejected? ==> reply.fault == if rt.exp <= Unix(w.now) then TokenExpired else TokenReused)
  {
    AuthenticatedFacts(cfg, w, cred);
    RefreshFacts(cfg, w, id);
  }

  /**
   A token that a run has rotated away is accepted from its own client exactly up to 30 seconds
   after the second of its last rotation, and not past its own expiry; after that it is reuse.
   */
  lemma SpentTokenIsAcceptedExactly(
    cfg: Config, w0: World, actions: seq<Action>, cred: Credentials, id: string, jti: string, newId: string)
    requires Initial(w0) && Runnable(cfg, w0, actions)
    requires OwnToken(Run(cfg, w0, actions), cred, id) && LastRotation(cfg, w0, actions, id, 0) != 0
    ensures
      var w, last := Run(cfg, w0, actions), LastRotation(cfg, w0, actions, id, 0);
      var exp := w.files.docs[RefreshKey(id)].payload.token.exp;
      var reply := Token(cfg, w.files, cred, RefreshForm(id), w.now, jti, newId).1;
      && (reply.Granted? <==> Unix(w.now) < exp && w.now <= (last + 30) * 1000)
      && (reply.Rejected? ==> reply.fault == if exp <= Unix(w.now) then TokenExpired else TokenReused)
  {
    InitialInv(cfg, w0);
    RunMarks(cfg, w0, actions, id, 0);
    RunKeeps(cfg, w0, actions);
    AcceptedNow(cfg, Run(cfg, w0, actions), cred, id, jti, newId);
  }

  // --- retries that are never detected ---------------------------------------------

  function Sum(waits: seq<nat>): nat {
    if waits == [] then 0 else waits[0] + Sum(waits[1..])
  }

  /** The token is neither past its own expiry nor its grant past the ceiling. */
  predicate Extendable(t: RefreshToken, now: int) {
    now < t.exp * 1000 && now <= (t.iiat + ABSOLUTE_MAX) * 1000
  }

  /** The token has just been rotated away and its client can still present it at `until`. */
  ghost predicate JustSpent(w: World, cred: Credentials, id: string, until: int) {
    && OwnToken(w, cred, id)
    && var t := w.files.docs[RefreshKey(id)].payload.token;
    && t.consumed == Unix(w.now) && Extendable(t, until)
    && SpentByRule(Authenticate(w.files, cred, w.now).value, t)
  }

  function Retry(cred: Credentials, id: string, jti: string, newId: string): Action {
    DoToken(cred, RefreshForm(id), jti, newId)
  }

  lemma AuthenticatedLater(cfg: Config, w: World, cred: Credentials, later: int)
    requires Inv(cfg, w)
    ensures Authenticate(w.files, cred, later) == Authenticate(w.files, cred, w.now)
  {
    if ClientKey(cred.id) in w.files.docs {
      assert DocOk(w.h, w.files.grants, w.now, ClientKey(cred.id), w.files.docs[ClientKey(cred.id)]);
    }
  }

  lemma LiveLater(cfg: Config, w: World, id: string, later: int)
    requires Inv(cfg, w) && LiveToken(w.files, id, w.now)
    requires later < w.files.docs[RefreshKey(id)].payload.token.exp * 1000
    ensures LiveToken(w.files, id, later)
  {
    assert DocOk(w.h, w.files.grants, w.now, RefreshKey(id), w.files.docs[RefreshKey(id)]);
  }

  lemma WaitKeepsToken(cfg: Config, w: World, cred: Credentials, id: string, ms: nat)
    requires Inv(cfg, w) && OwnToken(w, cred, id)
    requires w.now + ms < w.files.docs[RefreshKey(id)].payload.token.exp * 1000
    ensures
      var w1 := Next(cfg, w, Wait(ms));
      && Inv(cfg, w1) && w1 == World(w.files, w.now + ms, w.h.(step := w.h.step + 1))
      && OwnToken(w1, cred, id) && Authenticate(w1.files, cred, w1.now) == Authenticate(w.files, cred, w.now)
  {
    assert Next(cfg, w, Wait(ms)).h.used == w.h.used;
    NextKeeps(cfg, w, Wait(ms));
    AuthenticatedLater(cfg, w, cred, w.now + ms);
    LiveLater(cfg, w, id, w.now + ms);
  }

  /** What a refresh that rotates leaves and answers. */
  lemma RotationIs(cfg: Config, f: Files, c: Client, id: string, now: int, jti: string, newId: string)
    requires Live(f, RefreshKey(id), now) && f.docs[RefreshKey(id)].payload.RefreshDoc?
    requires
      var t := f.docs[RefreshKey(id)].payload.token;
      t.clientId == c.id && t.exp > Unix(now) && !PastGrace(t, now) && ShouldRotate(c, t, now)
    ensures
      var t := f.docs[RefreshKey(id)].payload.token;
      var (f', reply) := Refresh(cfg, f, c, id, now, jti, newId);
      && reply.Granted? && reply.response.refresh == Some(newId)
      && f' == AfterPut(AfterMint(AfterClaim(f, RefreshKey(id)), Rotated(t, now), newId, now), RefreshKey(id),
           RefreshDoc(t.(consumed := Unix(now))), Remaining(t.exp, now), now)
  {
  }

  lemma StillAuthenticated(f: Files, f': Files, cred: Credentials, now: int)
    requires ClientKey(cred.id) in f.docs && ClientKey(cred.id) in f'.docs
    requires f'.docs[ClientKey(cred.id)] == f.docs[ClientKey(cred.id)]
    ensures Authenticate(f', cred, now) == Authenticate(f, cred, now)
  {
  }

  /** Nothing was revoked, and each of the `n` answers given was to a refresh with `id`. */
  predicate Answered(h: History, h': History, n: nat, id: string) {
    && h'.revoked == h.revoked && |h'.issued| == |h.issued| + n && h.issued <= h'.issued
    && forall i :: |h.issued| <= i < |h'.issued| ==> h'.issued[i].source == FromRefresh(id)
  }

  /** Presented now, the token is rotated, and its client may still present it at `until`. */
  ghost predicate Rotatable(w: World, cred: Credentials, id: string, until: int) {
    && OwnToken(w, cred, id) && w.now <= until
    && var t := w.files.docs[RefreshKey(id)].payload.token;
    && Extendable(t, until) && !PastGrace(t, w.now) && ShouldRotate(Authenticate(w.files, cred, w.now).value, t, w.now)
  }

  lemma RefreshRecords(w: World, id: string, response: TokenResponse)
    requires LiveToken(w.files, id, w.now)
    ensures
      var h' := RecordRefresh(w, id, Granted(response));
      && h'.revoked == w.h.revoked && h'.step == w.h.step
      && h'.issued == w.h.issued
           + [Issued(response, w.files.docs[RefreshKey(id)].payload.token.grantId, FromRefresh(id), w.h.step)]
  {
  }

  lemma RetryRecorded(cfg: Config, w: World, cred: Credentials, id: string, jti: string, newId: string)
    requires Authenticate(w.files, cred, w.now).Some? && LiveToken(w.files, id, w.now)
    requires Token(cfg, w.files, cred, RefreshForm(id), w.now, jti, newId).1.Granted?
    ensures Answered(w.h, Next(cfg, w, Retry(cred, id, jti, newId)).h, 1, id)
  {
    var reply := Token(cfg, w.files, cred, RefreshForm(id), w.now, jti, newId).1;
    RefreshRecords(w, id, reply.response);
    assert RecordToken(w, cred, RefreshForm(id), reply) == RecordRefresh(w, id, reply);
  }

  lemma RetryLeaves(cfg: Config, w: World, cred: Credentials, id: string, jti: string, newId: string, until: int)
    requires Inv(cfg, w) && Rotatable(w, cred, id, until) && newId !in w.h.used
    ensures
      var (f', reply) := Token(cfg, w.files, cred, RefreshForm(id), w.now, jti, newId);
      var t := w.files.docs[RefreshKey(id)].payload.token;
      && reply.Granted? && reply.response.refresh == Some(newId)
      && RefreshKey(id) in f'.docs
      && f'.docs[RefreshKey(id)] == Document(RefreshDoc(t.(consumed := Unix(w.now))), t.exp * 1000)
      && ClientKey(cred.id) in w.files.docs && ClientKey(cred.id) in f'.docs
      && f'.docs[ClientKey(cred.id)] == w.files.docs[ClientKey(cred.id)]
  {
    AuthenticatedFacts(cfg, w, cred);
    RefreshFacts(cfg, w, id);
    RotationIs(cfg, w.files, Authenticate(w.files, cred, w.now).value, id, w.now, jti, newId);
    assert newId != id by {
      assert DocOk(w.h, w.files.grants, w.now, RefreshKey(id), w.files.docs[RefreshKey(id)]);
    }
  }

  /** Whenever a token is rotated away, for the first time or again, its grace period starts anew. */
  lemma RotationStartsTheGrace(
    cfg: Config, w: World, cred: Credentials, id: string, jti: string, newId: string, until: int)
    requires Inv(cfg, w) && Rotatable(w, cred, id, until) && newId !in w.h.used
    ensures
      var w' := Next(cfg, w, Retry(cred, id, jti, newId));
      w'.now == w.now && Answered(w.h, w'.h, 1, id) && JustSpent(w', cred, id, until)
  {
    RetryLeaves(cfg, w, cred, id, jti, newId, until);
    RetryRecorded(cfg, w, cred, id, jti, newId);
    var w' := Next(cfg, w, Retry(cred, id, jti, newId));
    assert w'.files == Token(cfg, w.files, cred, RefreshForm(id), w.now, jti, newId).0;
    StillAuthenticated(w.files, w'.files, cred, w.now);
  }

  lemma StillRotatable(cfg: Config, w: World, cred: Credentials, id: string, ms: nat, until: int)
    requires Inv(cfg, w) && JustSpent(w, cred, id, until) && ms <= 29000 && w.now + ms <= until
    ensures Rotatable(Next(cfg, w, Wait(ms)), cred, id, until)
  {
    WaitKeepsToken(cfg, w, cred, id, ms);
    RefreshFacts(cfg, w, id);
  }

  /** One more retry, at most 29 seconds after the last. */
  lemma RetryOnce(cfg: Config, w: World, cred: Credentials, id: string, ms: nat, until: int) returns (retry: Action)
    requires Inv(cfg, w) && JustSpent(w, cred, id, until) && ms <= 29000 && w.now + ms <= until
    ensures Enabled(Next(cfg, w, Wait(ms)), retry)
    ensures
      var w' := Next(cfg, Next(cfg, w, Wait(ms)), retry);
      Inv(cfg, w') && w'.now == w.now + ms && Answered(w.h, w'.h, 1, id) && JustSpent(w', cred, id, until)
  {
    WaitKeepsToken(cfg, w, cred, id, ms);
    var w1 := Next(cfg, w, Wait(ms));
    var jti := FreshExists(w1.h.used);
    var newId := FreshExists(w1.h.used + {jti});
    retry := Retry(cred, id, jti, newId);
    StillRotatable(cfg, w, cred, id, ms, until);
    assert Drawn(retry) == [jti, newId];
    RotationStartsTheGrace(cfg, w1, cred, id, jti, newId, until);
    NextKeeps(cfg, w1, retry);
  }

  lemma OneAction(cfg: Config, w: World, a: Action, rest: seq<Action>)
    requires Enabled(w, a) && Runnable(cfg, Next(cfg, w, a), rest)
    ensures Runnable(cfg, w, [a] + rest) && Run(cfg, w, [a] + rest) == Run(cfg, Next(cfg, w, a), rest)
  {
    assert ([a] + rest)[1..] == rest;
  }

  lemma TwoActions(cfg: Config, w: World, a: Action, b: Action, rest: seq<Action>)
    requires Enabled(w, a) && Enabled(Next(cfg, w, a), b) && Runnable(cfg, Next(cfg, Next(cfg, w, a), b), rest)
    ensures Runnable(cfg, w, [a, b] + rest)
    ensures Run(cfg, w, [a, b] + rest) == Run(cfg, Next(cfg, Next(cfg, w, a), b), rest)
  {
    OneAction(cfg, Next(cfg, w, a), b, rest);
    OneAction(cfg, w, a, [b] + rest);
    assert [a, b] + rest == [a] + ([b] + rest);
  }

  /**
   A client that presents a spent token again and again, never more than 29 seconds apart, is
   answered every time and nothing is revoked, for as long as the token and its grant live.
   */
  lemma {:induction false} RetriesGoUndetected(
    cfg: Config, w: World, cred: Credentials, id: string, waits: seq<nat>) returns (actions: seq<Action>)
    requires Inv(cfg, w) && JustSpent(w, cred, id, w.now + Sum(waits))
    requires forall i :: 0 <= i < |waits| ==> waits[i] <= 29000
    ensures Runnable(cfg, w, actions)
    ensures
      var w' := Run(cfg, w, actions);
      w'.now == w.now + Sum(waits) && OwnToken(w', cred, id) && Answered(w.h, w'.h, |waits|, id)
    decreases |waits|
  {
    actions := [];
    if waits != [] {
      var wait := Wait(waits[0]);
      var retry := RetryOnce(cfg, w, cred, id, waits[0], w.now + Sum(waits));
      var rest := RetriesGoUndetected(cfg, Next(cfg, Next(cfg, w, wait), retry), cred, id, waits[1..]);
      TwoActions(cfg, w, wait, retry, rest);
      actions := [wait, retry] + rest;
    }
  }
}
