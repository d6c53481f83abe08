/**
 Cookies over whole runs, under one fixed configuration: sessions are minted by the two logins,
 presented, revoked, swept and carried over restarts, and none is ever answered with a 403.
 */
module GateRuns {
  import opened Wrappers
  import opened Records
  import opened Sessions
  import opened Gate
  import RelyingParty

  datatype World = World(m: Table, now: int)

  datatype Act =
    | PasswordLogin(user: string, pass: string, id: string)
    | OidcLogin(token: RelyingParty.IdToken, id: string)
    | Present(cookie: string)
    | Logout(cookie: string)
    | Revocation(pred: (string, Session) -> bool)
    | Sweep
    | Restart
    | Wait(ms: nat)

  /** Identifiers are random, so a new session never replaces one. */
  predicate Possible(w: World, a: Act) {
    match a
    case PasswordLogin(_, _, id) => id != "" && id !in w.m
    case OidcLogin(_, id) => id != "" && id !in w.m
    case _ => true
  }

  /** The end of a callback that verified its ID token: refused before anything is minted. */
  function AfterOidc(cfg: Config, m: Table, t: RelyingParty.IdToken, id: string, now: int): Table {
    if GroupsAllowed(cfg.requiredGroups, t.groups) then m[id := RelyingParty.OidcSession(cfg, t, now)] else m
  }

  /** A callback touches the sessions only in this way, and a refused one not at all. */
  lemma CallbackIsOidcLogin(
    cfg: RelyingParty.Config, p: RelyingParty.Party, m: Table, origin: string, error: string, state: string,
    exchange: (string, string) -> Option<RelyingParty.IdToken>, a: RelyingParty.Attempt, pick: string, now: int,
    id: string)
    ensures
      var (p', m', reply) := RelyingParty.Callback(cfg, p, m, origin, error, state, exchange, a, pick, now, id);
      if reply.LoggedIn? then
        exists uri, verifier :: exchange(uri, verifier).Some?
          && GroupsAllowed(cfg.gate.requiredGroups, exchange(uri, verifier).value.groups)
          && m' == AfterOidc(cfg.gate, m, exchange(uri, verifier).value, id, now) && reply.cookie == id && id in m'
      else m' == m
  {
    var q := RelyingParty.AfterEnsure(cfg, p, origin, a, pick);
    var f := RelyingParty.Taken(q.flows, state, now);
    if f.Some? {
      var uri := RelyingParty.RedirectUri(q, origin);
      assert exchange(uri, f.value.verifier) == exchange(uri, f.value.verifier);
    }
  }

  /**
   A callback logs someone in exactly if the party is registered, the provider reports no error, the
   state is that of a login begun in the last ten minutes, the provider exchanges the code for this
   redirect_uri and that login's verifier, and the groups are enough.
   */
  lemma CallbackLogsInExactly(
    cfg: RelyingParty.Config, p: RelyingParty.Party, m: Table, origin: string, error: string, state: string,
    exchange: (string, string) -> Option<RelyingParty.IdToken>, a: RelyingParty.Attempt, pick: string, now: int,
    id: string)
    ensures
      var q := RelyingParty.AfterEnsure(cfg, p, origin, a, pick);
      var (p', m', reply) := RelyingParty.Callback(cfg, p, m, origin, error, state, exchange, a, pick, now, id);
      var uri := (if origin in q.origins || q.fallback == "" then origin else q.fallback) + "/nhl-auth/oidc/callback";
      var ready := q.reg.Some? && error == "";
      var current := state in q.flows && now <= q.flows[state].created + 600000;
      var answer := if current then exchange(uri, q.flows[state].verifier) else None;
      && p' == (if ready then q.(flows := q.flows - {state}) else q)
      && (reply.LoggedIn? <==>
           && ready && current && answer.Some?
           && (cfg.gate.requiredGroups == [] || exists g :: g in cfg.gate.requiredGroups && g in answer.value.groups))
      && if reply.LoggedIn? then
           var t := answer.value;
           var user := if t.preferredUsername != "" then t.preferredUsername
             else if t.email != "" then t.email else t.subject;
           var claims := Claims(t.subject, user, t.email, t.name, t.groups);
           && reply.cookie == id
           && reply.target == (if q.flows[state].originalUri == "" then "/" else q.flows[state].originalUri)
           && m' == m[id := Session(now + cfg.gate.sessionDuration, "", t.subject, Some(claims), t.raw, t.sid)]
         else m' == m
  {
  }

  function After(cfg: Config, w: World, a: Act): World {
    match a
    case PasswordLogin(user, pass, id) =>
      if Accepts(cfg, user, pass) then w.(m := w.m[id := PasswordSession(cfg, w.now)]) else w
    case OidcLogin(token, id) => w.(m := AfterOidc(cfg, w.m, token, id, w.now))
    case Present(cookie) => w.(m := AfterRequest(cfg, w.m, cookie, w.now))
    case Logout(cookie) => w.(m := w.m - {cookie})
    case Revocation(pred) => w.(m := Without(w.m, pred))
    case Sweep => w.(m := Without(w.m, (id: string, s: Session) => Lapsed(s, w.now)))
    case Restart => w.(m := Reopened(Written(w.m), w.now))
    case Wait(ms) => w.(now := w.now + ms)
  }

  predicate Possibles(cfg: Config, w: World, acts: seq<Act>)
    decreases |acts|
  {
    acts == [] || (Possible(w, acts[0]) && Possibles(cfg, After(cfg, w, acts[0]), acts[1..]))
  }

  function Run(cfg: Config, w: World, acts: seq<Act>): World
    decreases |acts|
  {
    if acts == [] then w else Run(cfg, After(cfg, w, acts[0]), acts[1..])
  }

  /** Minted by one of the two logins under this configuration. */
  predicate Proper(cfg: Config, s: Session) {
    if s.claims.Some? then GroupsAllowed(cfg.requiredGroups, s.claims.value.groups)
    else s.oidcSub == "" && s.passwordHash == cfg.passwordHash
  }

  predicate AllProper(cfg: Config, m: Table) {
    forall id :: id in m ==> Proper(cfg, m[id])
  }

  /** The session's own identity, as the gate passes it on. */
  function IdentityOf(cfg: Config, s: Session): Identity {
    if s.claims.Some? then OidcIdentity(s) else Identity(ByPassword, "", cfg.username, "", "", [])
  }

  lemma {:induction false} RunKeepsProper(cfg: Config, w: World, acts: seq<Act>)
    requires AllProper(cfg, w.m) && Possibles(cfg, w, acts)
    ensures AllProper(cfg, Run(cfg, w, acts).m)
    decreases |acts|
  {
    if acts != [] {
      RunKeepsProper(cfg, After(cfg, w, acts[0]), acts[1..]);
    }
  }

  /**
   The gate's 403 is unreachable: after any run from an empty store no cookie is ever refused
   for its groups, and every live session is accepted as the identity it was minted for.
   `passwordHash` is a hexadecimal digest, so never empty.
   */
  lemma ForbiddenIsUnreachable(cfg: Config, start: int, acts: seq<Act>, cookie: string)
    requires cfg.passwordHash != "" && Possibles(cfg, World(map[], start), acts)
    ensures
      var w := Run(cfg, World(map[], start), acts);
      SessionOutcome(cfg, w.m, cookie, w.now) ==
        match Found(w.m, cookie, w.now)
        case None => Anonymous
        case Some(s) => Allowed(IdentityOf(cfg, s))
  {
    RunKeepsProper(cfg, World(map[], start), acts);
  }

  /** The only acts that take a session out of the store. */
  predicate Ends(w: World, a: Act, id: string)
    requires id in w.m
  {
    match a
    case Logout(cookie) => cookie == id
    case Revocation(pred) => pred(id, w.m[id])
    case Restart => w.m[id].passwordHash == "" && w.m[id].oidcSub == ""
    case _ => false
  }

  predicate NeverEnded(cfg: Config, w: World, acts: seq<Act>, id: string)
    decreases |acts|
  {
    acts != [] && id in w.m ==> !Ends(w, acts[0], id) && NeverEnded(cfg, After(cfg, w, acts[0]), acts[1..], id)
  }

  lemma {:induction false} TimePasses(cfg: Config, w: World, acts: seq<Act>)
    ensures w.now <= Run(cfg, w, acts).now
    decreases |acts|
  {
    if acts != [] {
      TimePasses(cfg, After(cfg, w, acts[0]), acts[1..]);
    }
  }

  lemma SessionStays(cfg: Config, w: World, a: Act, id: string)
    requires cfg.passwordHash != "" && AllProper(cfg, w.m) && Possible(w, a)
    requires id in w.m && !Lapsed(w.m[id], w.now) && !Ends(w, a, id)
    ensures id in After(cfg, w, a).m && After(cfg, w, a).m[id] == w.m[id]
  {
    assert Proper(cfg, w.m[id]);
  }

  lemma {:induction false} LiveSessionStaysGood(cfg: Config, w: World, acts: seq<Act>, id: string)
    requires cfg.passwordHash != "" && AllProper(cfg, w.m) && Possibles(cfg, w, acts)
    requires id != "" && id in w.m && NeverEnded(cfg, w, acts, id)
    ensures
      var w' := Run(cfg, w, acts);
      !Lapsed(w.m[id], w'.now) ==> SessionOutcome(cfg, w'.m, id, w'.now) == Allowed(IdentityOf(cfg, w.m[id]))
    decreases |acts|
  {
    TimePasses(cfg, w, acts);
    if acts == [] {
      assert Proper(cfg, w.m[id]);
    } else if !Lapsed(w.m[id], Run(cfg, w, acts).now) {
      SessionStays(cfg, w, acts[0], id);
      RunKeepsProper(cfg, w, [acts[0]]);
      assert Run(cfg, w, [acts[0]]) == Run(cfg, After(cfg, w, acts[0]), []);
      LiveSessionStaysGood(cfg, After(cfg, w, acts[0]), acts[1..], id);
    }
  }

  lemma {:induction false} PossiblesSplit(cfg: Config, w: World, first: seq<Act>, second: seq<Act>)
    requires Possibles(cfg, w, first + second)
    ensures Possibles(cfg, w, first) && Possibles(cfg, Run(cfg, w, first), second)
    ensures Run(cfg, w, first + second) == Run(cfg, Run(cfg, w, first), second)
    decreases |first|
  {
    if first == [] {
      assert first + second == second;
    } else {
      assert (first + second)[1..] == first[1..] + second;
      PossiblesSplit(cfg, After(cfg, w, first[0]), first[1..], second);
    }
  }

  /** A later login is given the same random identifier. */
  ghost predicate DrawnAgain(acts: seq<Act>, id: string) {
    exists a :: a in acts && (a.PasswordLogin? || a.OidcLogin?) && a.id == id
  }

  lemma {:induction false} SessionOnlyGoes(cfg: Config, w: World, acts: seq<Act>, id: string)
    requires !DrawnAgain(acts, id)
    ensures
      var m := Run(cfg, w, acts).m;
      id in m ==> id in w.m && m[id] == w.m[id]
    decreases |acts|
  {
    if acts != [] {
      assert acts[0] in acts;
      assert !DrawnAgain(acts[1..], id);
      SessionOnlyGoes(cfg, After(cfg, w, acts[0]), acts[1..], id);
    }
  }

  /**
   In any run from an empty store, a cookie minted by the OIDC login is good from then on,
   whatever else happens, for the groups and claims of its ID token, until its session expires
   or someone logs it out, revokes it, or restarts the process on a session with no subject.
   */
  lemma CookieStaysGood(
    cfg: Config, start: int, before: seq<Act>, t: RelyingParty.IdToken, id: string, after: seq<Act>)
    requires cfg.passwordHash != "" && GroupsAllowed(cfg.requiredGroups, t.groups)
    requires Possibles(cfg, World(map[], start), before + ([OidcLogin(t, id)] + after))
    requires NeverEnded(cfg, After(cfg, Run(cfg, World(map[], start), before), OidcLogin(t, id)), after, id)
    ensures
      var minted := Run(cfg, World(map[], start), before).now;
      var w := Run(cfg, World(map[], start), before + ([OidcLogin(t, id)] + after));
      var user := if t.preferredUsername != "" then t.preferredUsername else if t.email != "" then t.email
        else t.subject;
      && (w.now <= minted + cfg.sessionDuration ==>
           SessionOutcome(cfg, w.m, id, w.now) == Allowed(Identity(ByOidc, t.subject, user, t.email, t.name, t.groups)))
      && (w.now > minted + cfg.sessionDuration && !DrawnAgain(after, id) ==>
           SessionOutcome(cfg, w.m, id, w.now) == Anonymous)
  {
    var w0 := World(map[], start);
    PossiblesSplit(cfg, w0, before, [OidcLogin(t, id)] + after);
    var w1 := Run(cfg, w0, before);
    assert ([OidcLogin(t, id)] + after)[1..] == after;
    RunKeepsProper(cfg, w0, before);
    LiveSessionStaysGood(cfg, After(cfg, w1, OidcLogin(t, id)), after, id);
    if !DrawnAgain(after, id) {
      SessionOnlyGoes(cfg, After(cfg, w1, OidcLogin(t, id)), after, id);
    }
  }

  // --- where sessions come from --------------------------------------------------------

  /** The login that minted the session, with the configured name and password or with allowed groups. */
  ghost predicate MintedBy(cfg: Config, s: Session, id: string, a: Act) {
    || (a == PasswordLogin(cfg.username, cfg.password, id) && cfg.mode == CredentialsMode
        && s.passwordHash == cfg.passwordHash && s.oidcSub == "" && s.claims == None)
    || (a.OidcLogin? && a.id == id
        && (cfg.requiredGroups == [] || exists g :: g in cfg.requiredGroups && g in a.token.groups)
        && s.passwordHash == "" && s.oidcSub == a.token.subject && s.idToken == a.token.raw && s.oidcSid == a.token.sid
        && s.claims.Some? && s.claims.value.sub == a.token.subject && s.claims.value.groups == a.token.groups)
  }

  ghost predicate AllMinted(cfg: Config, m: Table, acts: seq<Act>) {
    forall id :: id in m ==> exists a :: a in acts && MintedBy(cfg, m[id], id, a)
  }

  lemma AllMintedNext(cfg: Config, w: World, done: seq<Act>, a: Act)
    requires AllMinted(cfg, w.m, done)
    ensures AllMinted(cfg, After(cfg, w, a).m, done + [a])
  {
    var m' := After(cfg, w, a).m;
    forall id | id in m' ensures exists x :: x in done + [a] && MintedBy(cfg, m'[id], id, x) {
      if id in w.m && m'[id] == w.m[id] {
        var x :| x in done && MintedBy(cfg, w.m[id], id, x);
        assert x in done + [a];
      } else {
        assert a in done + [a] && MintedBy(cfg, m'[id], id, a);
      }
    }
  }

  lemma {:induction false} RunMints(cfg: Config, w: World, done: seq<Act>, acts: seq<Act>)
    requires AllMinted(cfg, w.m, done)
    ensures AllMinted(cfg, Run(cfg, w, acts).m, done + acts)
    decreases |acts|
  {
    if acts == [] {
      assert done + acts == done;
    } else {
      AllMintedNext(cfg, w, done, acts[0]);
      RunMints(cfg, After(cfg, w, acts[0]), done + [acts[0]], acts[1..]);
      assert done + acts == done + [acts[0]] + acts[1..];
    }
  }

  /**
   In any run from an empty store a session exists only because someone presented exactly the
   configured name and password, in credentials mode, or an ID token with allowed groups.
   */
  lemma EverySessionWasMinted(cfg: Config, start: int, acts: seq<Act>, id: string)
    requires id in Run(cfg, World(map[], start), acts).m
    ensures
      var s := Run(cfg, World(map[], start), acts).m[id];
      if s.claims == None then
        && cfg.mode == CredentialsMode && PasswordLogin(cfg.username, cfg.password, id) in acts
        && s.passwordHash == cfg.passwordHash
      else
        exists t :: OidcLogin(t, id) in acts && t.subject == s.oidcSub && t.groups == s.claims.value.groups
          && (cfg.requiredGroups == [] || exists g :: g in cfg.requiredGroups && g in t.groups)
  {
    RunMints(cfg, World(map[], start), [], acts);
    assert [] + acts == acts;
    var s := Run(cfg, World(map[], start), acts).m[id];
    var a :| a in acts && MintedBy(cfg, s, id, a);
    if s.claims != None {
      assert OidcLogin(a.token, id) in acts;
    }
  }

  /** The right password always gets in, and for the configured time. */
  lemma PasswordGetsIn(cfg: Config, w: World, id: string, later: int)
    requires cfg.mode == CredentialsMode && cfg.passwordHash != "" && id != ""
    ensures
      var m := After(cfg, w, PasswordLogin(cfg.username, cfg.password, id)).m;
      SessionOutcome(cfg, m, id, later) ==
        if later <= w.now + cfg.sessionDuration then Allowed(Identity(ByPassword, "", cfg.username, "", "", []))
        else Anonymous
  {
  }

  // --- a changed configuration -----------------------------------------------------------

  /**
   The process starts again under another configuration: a password session is good exactly if the
   password is still the same, an OIDC session exactly if its groups are still enough, and it is
   for its groups alone that anyone is answered with a 403.
   */
  lemma ReconfiguredExactly(cfg: Config, cfg': Config, start: int, acts: seq<Act>, cookie: string)
    requires cfg.passwordHash != "" && cookie != ""
    ensures
      var w := Run(cfg, World(map[], start), acts);
      var outcome := SessionOutcome(cfg', w.m, cookie, w.now);
      if cookie !in w.m || w.m[cookie].expires < w.now then outcome == Anonymous
      else
        var s := w.m[cookie];
        if s.claims == None then
          && outcome == (if cfg'.passwordHash == cfg.passwordHash
                         then Allowed(Identity(ByPassword, "", cfg'.username, "", "", [])) else Anonymous)
          && (cookie in AfterRequest(cfg', w.m, cookie, w.now) <==> cfg'.passwordHash == cfg.passwordHash)
        else
          && (outcome.Allowed? <==>
               cfg'.requiredGroups == [] || exists g :: g in cfg'.requiredGroups && g in s.claims.value.groups)
          && (outcome.Forbidden? <==> !outcome.Allowed?)
          && cookie in AfterRequest(cfg', w.m, cookie, w.now)
  {
    RunMints(cfg, World(map[], start), [], acts);
    assert [] + acts == acts;
  }
}
