/**
 The OIDC relying party (internal/oidcrp/oidcrp.go): lazy registration, the set of origins
 it accepts, and the table of logins in flight.
 */
module RelyingParty {
  import opened Wrappers
  import opened Records
  import Gate
  import Sessions

  const CALLBACK_PATH := "/nhl-auth/oidc/callback"
  const FLOW_TTL_MS := 600000

  /** `originOf` is scheme and host of a URL that parses and has both. */
  datatype Config = Config(gate: Gate.Config, originOf: string -> Option<string>)

  datatype Registration = Registration(clientId: string, clientSecret: string, issuer: string, endSession: string)

  datatype Flow = Flow(verifier: string, originalUri: string, created: int)

  /** What a try at registering met: the registrar's answer, then the provider's metadata. */
  datatype Answer = Answer(clientId: string, clientSecret: string, issuer: string, redirectUris: seq<string>)
  datatype Attempt = Attempt(answer: Option<Answer>, endSession: Option<string>)

  datatype Party = Party(reg: Option<Registration>, origins: set<string>, fallback: string, flows: map<string, Flow>)

  function Elements(uris: seq<string>): set<string> {
    set u | u in uris
  }

  function OriginsOf(cfg: Config, uris: set<string>): set<string> {
    set u | u in uris && cfg.originOf(u).Some? :: cfg.originOf(u).value
  }

  /** The host list adopted; `pick` is the one of them that fills an empty fallback. */
  function AfterAdopt(cfg: Config, p: Party, uris: set<string>, pick: string): Party {
    var origins := OriginsOf(cfg, uris);
    if origins == {} then p
    else p.(origins := origins, fallback := if p.fallback == "" then pick else p.fallback)
  }

  function CallbackUris(origins: set<string>): set<string> {
    set o | o in origins :: o + CALLBACK_PATH
  }

  function Guessed(p: Party, origin: string): set<string> {
    if p.origins != {} then CallbackUris(p.origins)
    else if origin == "" then {}
    else {origin + CALLBACK_PATH}
  }

  function Callbacks(p: Party, origin: string, a: Answer): set<string> {
    if |a.redirectUris| == 0 then Guessed(p, origin) else Elements(a.redirectUris)
  }

  predicate Adopts(p: Party, a: Attempt) {
    p.reg.None? && a.answer.Some? && a.answer.value.clientId != "" && a.answer.value.issuer != ""
  }

  /** `pick` is some element of the adopted host list: map iteration order decides which. */
  predicate Pickable(cfg: Config, p: Party, origin: string, a: Attempt, pick: string) {
    Adopts(p, a) ==>
      var origins := OriginsOf(cfg, Callbacks(p, origin, a.answer.value));
      origins == {} || pick in origins
  }

  /** Registration succeeds once; a failure is not remembered, but a host list adopted before it is. */
  function AfterEnsure(cfg: Config, p: Party, origin: string, a: Attempt, pick: string): Party {
    if p.reg.Some? then p
    else
      match a.answer
      case None => p
      case Some(r) =>
        if r.clientId == "" || r.issuer == "" then p
        else
          var q := AfterAdopt(cfg, p, Callbacks(p, origin, r), pick);
          match a.endSession
          case None => q
          case Some(end) => q.(reg := Some(Registration(r.clientId, r.clientSecret, r.issuer, end)))
  }

  function ChosenOrigin(p: Party, origin: string): string {
    if origin in p.origins then origin
    else if p.fallback != "" then p.fallback
    else origin
  }

  function RedirectUri(p: Party, origin: string): string {
    ChosenOrigin(p, origin) + CALLBACK_PATH
  }

  // --- flows ---------------------------------------------------------------

  predicate Stale(f: Flow, now: int) {
    now - f.created > FLOW_TTL_MS
  }

  function Swept(flows: map<string, Flow>, now: int): map<string, Flow> {
    map state | state in flows && !Stale(flows[state], now) :: flows[state]
  }

  function AfterInsert(p: Party, state: string, f: Flow): Party {
    p.(flows := Swept(p.flows, f.created)[state := f])
  }

  /** The flow the callback may go on with. */
  function Taken(flows: map<string, Flow>, state: string, now: int): Option<Flow> {
    if state in flows && !Stale(flows[state], now) then Some(flows[state]) else None
  }

  function AfterTake(p: Party, state: string): Party {
    p.(flows := p.flows - {state})
  }

  // --- the identity of a login ------------------------------------------------

  datatype IdToken = IdToken(
    subject: string, preferredUsername: string, email: string, name: string, groups: seq<string>, sid: string,
    raw: string)

  function ClaimsFrom(t: IdToken): Claims {
    var user := if t.preferredUsername != "" then t.preferredUsername else if t.email != "" then t.email else t.subject;
    Claims(t.subject, user, t.email, t.name, t.groups)
  }

  function OidcSession(cfg: Gate.Config, t: IdToken, now: int): Session {
    Session(now + cfg.sessionDuration, "", t.subject, Some(ClaimsFrom(t)), t.raw, t.sid)
  }

  // --- the handlers --------------------------------------------------------------

  datatype LoginReply = LoginUnavailable | SentToProvider(redirectUri: string, state: string, verifier: string)

  datatype CallbackReply =
    | CallbackUnavailable
    | NotCompleted
    | LinkExpired
    | ExchangeFailed
    | Refused
    | LoggedIn(cookie: string, target: string)

  function Login(cfg: Config, p: Party, origin: string, target: string, state: string, verifier: string,
    a: Attempt, pick: string, now: int): (Party, LoginReply)
  {
    var q := AfterEnsure(cfg, p, origin, a, pick);
    if q.reg.None? then (q, LoginUnavailable)
    else (AfterInsert(q, state, Flow(verifier, target, now)), SentToProvider(RedirectUri(q, origin), state, verifier))
  }

  /** `exchange` is what the provider makes of a redirect_uri and a code verifier. */
  function Callback(cfg: Config, p: Party, m: Sessions.Table, origin: string, error: string, state: string,
    exchange: (string, string) -> Option<IdToken>, a: Attempt, pick: string, now: int, id: string)
    : (Party, Sessions.Table, CallbackReply)
  {
    var q := AfterEnsure(cfg, p, origin, a, pick);
    if q.reg.None? then (q, m, CallbackUnavailable)
    else if error != "" then (q, m, NotCompleted)
    else
      var q1 := AfterTake(q, state);
      match Taken(q.flows, state, now)
      case None => (q1, m, LinkExpired)
      case Some(f) =>
        match exchange(RedirectUri(q, origin), f.verifier)
        case None => (q1, m, ExchangeFailed)
        case Some(t) =>
          if !Gate.GroupsAllowed(cfg.gate.requiredGroups, t.groups) then (q1, m, Refused)
          else
            (q1, m[id := OidcSession(cfg.gate, t, now)],
             LoggedIn(id, if f.originalUri == "" then "/" else f.originalUri))
  }

  class Client {
    const cfg: Config
    const sessions: Sessions.Store
    var reg: Option<Registration>
    var origins: set<string>
    var fallback: string
    var flows: map<string, Flow>

    ghost function Contents(): Party
      reads this
    {
      Party(reg, origins, fallback, flows)
    }

    constructor (cfg: Config, sessions: Sessions.Store, allowed: set<string>, canonical: string)
      ensures this.cfg == cfg && this.sessions == sessions
      ensures Contents() == Party(None, allowed, canonical, map[])
    {
      this.cfg := cfg;
      this.sessions := sessions;
      reg := None;
      origins := allowed;
      fallback := canonical;
      flows := map[];
    }

    method GuessRedirectUris(origin: string) returns (out: seq<string>)
      ensures Elements(out) == Guessed(Contents(), origin)
      ensures origins != {} ==> |out| == |origins|
    {
      out := [];
      if origins == {} {
        if origin != "" {
          out := [origin + CALLBACK_PATH];
        }
        return;
      }
      var left := origins;
      while left != {}
        invariant left <= origins && |out| == |origins| - |left|
        invariant Elements(out) == CallbackUris(origins - left)
        decreases |left|
      {
        var o :| o in left;
        assert CallbackUris(origins - (left - {o})) == CallbackUris(origins - left) + {o + CALLBACK_PATH};
        left := left - {o};
        out := out + [o + CALLBACK_PATH];
      }
    }

    method AdoptRedirectUris(uris: seq<string>) returns (ghost pick: string)
      modifies this`origins, this`fallback
      ensures OriginsOf(cfg, Elements(uris)) == {} || pick in OriginsOf(cfg, Elements(uris))
      ensures Contents() == AfterAdopt(cfg, old(Contents()), Elements(uris), pick)
    {
      pick := "";
      var found: set<string> := {};
      for i := 0 to |uris|
        invariant found == OriginsOf(cfg, Elements(uris[..i]))
      {
        var origin := cfg.originOf(uris[i]);
        assert Elements(uris[..i + 1]) == Elements(uris[..i]) + {uris[i]};
        if origin.Some? {
          found := found + {origin.value};
        }
      }
      assert uris[..|uris|] == uris;
      if found == {} {
        return;
      }
      origins := found;
      pick :| pick in found;
      if fallback == "" {
        var o :| o in found;
        fallback := o;
        pick := o;
      }
    }

    method Ensure(origin: string, a: Attempt) returns (ok: bool, ghost pick: string)
      modifies this`reg, this`origins, this`fallback
      ensures Pickable(cfg, old(Contents()), origin, a, pick)
      ensures Contents() == AfterEnsure(cfg, old(Contents()), origin, a, pick)
      ensures ok == reg.Some?
    {
      pick := "";
      if reg.Some? {
        return true, pick;
      }
      var guessed := GuessRedirectUris(origin);
      if a.answer.None? {
        return false, pick;
      }
      var r := a.answer.value;
      if r.clientId == "" || r.issuer == "" {
        return false, pick;
      }
      var callbacks := r.redirectUris;
      if |callbacks| == 0 {
        callbacks := guessed;
      }
      pick := AdoptRedirectUris(callbacks);
      if a.endSession.None? {
        return false, pick;
      }
      reg := Some(Registration(r.clientId, r.clientSecret, r.issuer, a.endSession.value));
      return true, pick;
    }

    method HandleLogin(origin: string, target: string, state: string, verifier: string, a: Attempt, now: int)
      returns (reply: LoginReply, ghost pick: string)
      modifies this
      ensures Pickable(cfg, old(Contents()), origin, a, pick)
      ensures (Contents(), reply) == Login(cfg, old(Contents()), origin, target, state, verifier, a, pick, now)
    {
      var ok;
      ok, pick := Ensure(origin, a);
      if !ok {
        return LoginUnavailable, pick;
      }
      SweepFlowsLocked(now);
      flows := flows[state := Flow(verifier, target, now)];
      reply := SentToProvider(RedirectUriFor(origin), state, verifier);
    }

    function RedirectUriFor(origin: string): (uri: string)
      reads this
      ensures uri == RedirectUri(Contents(), origin)
    {
      if origin in origins then origin + CALLBACK_PATH
      else if fallback != "" then fallback + CALLBACK_PATH
      else origin + CALLBACK_PATH
    }

    /** Drops abandoned logins: exactly those older than the cutoff. */
    method SweepFlowsLocked(now: int)
      modifies this`flows
      ensures flows == Swept(old(flows), now)
    {
      ghost var before := flows;
      var cutoff := now - FLOW_TTL_MS;
      var left := flows.Keys;
      while left != {}
        invariant left <= flows.Keys && flows.Keys <= before.Keys
        invariant forall s :: s in flows ==> flows[s] == before[s]
        invariant forall s :: s in before && s !in left ==> (s in flows <==> !Stale(before[s], now))
        decreases |left|
      {
        var state :| state in left;
        left := left - {state};
        if flows[state].created < cutoff {
          flows := flows - {state};
        }
      }
    }

    method HandleCallback(origin: string, error: string, state: string,
        exchange: (string, string) -> Option<IdToken>, a: Attempt, now: int, id: string)
      returns (reply: CallbackReply, ghost pick: string)
      requires sessions.Valid()
      modifies this, sessions
      ensures sessions.Valid() && Pickable(cfg, old(Contents()), origin, a, pick)
      ensures (Contents(), sessions.sessions, reply) ==
        Callback(cfg, old(Contents()), old(sessions.sessions), origin, error, state, exchange, a, pick, now, id)
    {
      var ok;
      ok, pick := Ensure(origin, a);
      if !ok {
        return CallbackUnavailable, pick;
      }
      if error != "" {
        return NotCompleted, pick;
      }
      var f := if state in flows then Some(flows[state]) else None;
      flows := flows - {state};
      if f.None? || now - f.value.created > FLOW_TTL_MS {
        return LinkExpired, pick;
      }
      var token := exchange(RedirectUriFor(origin), f.value.verifier);
      if token.None? {
        return ExchangeFailed, pick;
      }
      var allowed := Gate.CheckGroups(cfg.gate.requiredGroups, token.value.groups);
      if !allowed {
        return Refused, pick;
      }
      sessions.Create(OidcSession(cfg.gate, token.value, now), id);
      return LoggedIn(id, if f.value.originalUri == "" then "/" else f.value.originalUri), pick;
    }
  }
}
