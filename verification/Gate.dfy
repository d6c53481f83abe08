/**
 The per-request decision over browser sessions, and the logins and logouts that feed it
 (internal/authn/authn.go).
 */
module Gate {
  import opened Wrappers
  import opened Records
  import Sessions

  datatype Mode = CredentialsMode | OidcMode | NoLogin

  datatype Config = Config(
    mode: Mode,
    username: string,
    password: string,
    passwordHash: string,
    requiredGroups: seq<string>,
    sessionDuration: int)

  datatype Means = ByOidc | ByPassword | ByOAuth

  datatype Identity = Identity(means: Means, sub: string, user: string, email: string, name: string,
    groups: seq<string>)

  datatype Outcome = Anonymous | Allowed(identity: Identity) | Forbidden

  /** OIDC_REQUIRED_GROUPS: any one of them is enough, none configured is no requirement. */
  predicate GroupsAllowed(required: seq<string>, groups: seq<string>) {
    required == [] || exists g :: g in required && g in groups
  }

  method CheckGroups(required: seq<string>, groups: seq<string>) returns (ok: bool)
    ensures ok == GroupsAllowed(required, groups)
  {
    if |required| == 0 {
      return true;
    }
    for i := 0 to |required|
      invariant forall g :: g in required[..i] ==> g !in groups
    {
      for j := 0 to |groups|
        invariant required[i] !in groups[..j]
      {
        if groups[j] == required[i] {
          assert required[i] in required && required[i] in groups;
          return true;
        }
      }
      assert groups[..|groups|] == groups;
    }
    assert required[..|required|] == required;
    return false;
  }

  function OidcIdentity(s: Session): Identity {
    match s.claims
    case None => Identity(ByOidc, s.oidcSub, "", "", "", [])
    case Some(c) => Identity(ByOidc, if c.sub != "" then c.sub else s.oidcSub, c.user, c.email, c.name, c.groups)
  }

  /** What a live session is worth; `None` for one that has to be thrown away. */
  function Judged(cfg: Config, s: Session): Option<Outcome> {
    if s.oidcSub != "" || s.claims.Some? then
      if |cfg.requiredGroups| > 0 && s.claims.None? then None
      else if GroupsAllowed(cfg.requiredGroups, OidcIdentity(s).groups) then Some(Allowed(OidcIdentity(s)))
      else Some(Forbidden)
    else if s.passwordHash != "" then
      if s.passwordHash == cfg.passwordHash then Some(Allowed(Identity(ByPassword, "", cfg.username, "", "", [])))
      else None
    else Some(Anonymous)
  }

  function SessionOutcome(cfg: Config, m: Sessions.Table, cookie: string, now: int): Outcome {
    match Sessions.Found(m, cookie, now)
    case None => Anonymous
    case Some(s) =>
      match Judged(cfg, s)
      case None => Anonymous
      case Some(outcome) => outcome
  }

  function AfterRequest(cfg: Config, m: Sessions.Table, cookie: string, now: int): Sessions.Table {
    match Sessions.Found(m, cookie, now)
    case None => Sessions.AfterGet(m, cookie, now)
    case Some(s) => if Judged(cfg, s).None? then m - {cookie} else m
  }

  /**
   Sessions that no login of this version mints: one without claims counts for its subject as long
   as no group is required and is thrown away otherwise; one without a credential is nobody's.
   */
  lemma OldSessionsExactly(cfg: Config, m: Sessions.Table, cookie: string, now: int)
    requires cookie != "" && cookie in m && now <= m[cookie].expires && m[cookie].claims == None
    ensures
      var s, outcome := m[cookie], SessionOutcome(cfg, m, cookie, now);
      if s.oidcSub != "" then
        && outcome == (if cfg.requiredGroups == [] then Allowed(Identity(ByOidc, s.oidcSub, "", "", "", []))
            else Anonymous)
        && AfterRequest(cfg, m, cookie, now) == (if cfg.requiredGroups == [] then m else m - {cookie})
      else if s.passwordHash == "" then outcome == Anonymous && AfterRequest(cfg, m, cookie, now) == m
      else
        && outcome == (if s.passwordHash == cfg.passwordHash
                       then Allowed(Identity(ByPassword, "", cfg.username, "", "", [])) else Anonymous)
        && AfterRequest(cfg, m, cookie, now) == (if s.passwordHash == cfg.passwordHash then m else m - {cookie})
  {
  }

  predicate Accepts(cfg: Config, user: string, pass: string) {
    user == cfg.username && pass == cfg.password && cfg.mode == CredentialsMode
  }

  function PasswordSession(cfg: Config, now: int): Session {
    Session(now + cfg.sessionDuration, cfg.passwordHash, "", None, "", "")
  }

  datatype LogoutReply = LogoutRefused | LoggedOut(ended: Option<Session>)

  class Gate {
    const cfg: Config
    const sessions: Sessions.Store

    constructor (cfg: Config, sessions: Sessions.Store)
      ensures this.cfg == cfg && this.sessions == sessions
    {
      this.cfg := cfg;
      this.sessions := sessions;
    }

    /** `cookie` is the value of the session cookie, empty without one. */
    method SessionIdentity(cookie: string, now: int) returns (r: Outcome)
      requires sessions.Valid()
      modifies sessions
      ensures sessions.Valid() && r == SessionOutcome(cfg, old(sessions.sessions), cookie, now)
      ensures sessions.sessions == AfterRequest(cfg, old(sessions.sessions), cookie, now)
    {
      var found := sessions.Get(cookie, now);
      if found.None? {
        return Anonymous;
      }
      var s := found.value;
      if s.oidcSub != "" || s.claims.Some? {
        if |cfg.requiredGroups| > 0 && s.claims.None? {
          sessions.Delete(cookie);
          return Anonymous;
        }
        var id := Identity(ByOidc, s.oidcSub, "", "", "", []);
        if s.claims.Some? {
          var c := s.claims.value;
          id := Identity(ByOidc, if c.sub != "" then c.sub else s.oidcSub, c.user, c.email, c.name, c.groups);
        }
        var ok := CheckGroups(cfg.requiredGroups, id.groups);
        if !ok {
          return Forbidden;
        }
        return Allowed(id);
      }
      if s.passwordHash != "" {
        if s.passwordHash != cfg.passwordHash {
          sessions.Delete(cookie);
          return Anonymous;
        }
        return Allowed(Identity(ByPassword, "", cfg.username, "", "", []));
      }
      return Anonymous;
    }

    /** `id` is the fresh session identifier, used only if the login is accepted. */
    method HandleLogin(user: string, pass: string, id: string, now: int) returns (cookie: Option<string>)
      requires sessions.Valid()
      modifies sessions
      ensures sessions.Valid() && cookie == (if Accepts(cfg, user, pass) then Some(id) else None)
      ensures cookie.Some? <==> cfg.mode == CredentialsMode && user == cfg.username && pass == cfg.password
      ensures sessions.sessions ==
        if Accepts(cfg, user, pass) then old(sessions.sessions)[id := PasswordSession(cfg, now)]
        else old(sessions.sessions)
    {
      var userOk := user == cfg.username;
      var passOk := pass == cfg.password;
      if !userOk || !passOk || cfg.mode != CredentialsMode {
        return None;
      }
      sessions.Create(Session(now + cfg.sessionDuration, cfg.passwordHash, "", None, "", ""), id);
      return Some(id);
    }

    /**
     Refuses a cross-site sub-resource request untouched; otherwise ends the session behind the cookie, if there
     is one, and tells whose it was if it was live. `site` and `dest` are the Fetch metadata.
     */
    method HandleLogout(site: string, dest: string, cookie: Option<string>, now: int) returns (reply: LogoutReply)
      requires sessions.Valid()
      modifies sessions
      ensures sessions.Valid()
      ensures site == "cross-site" && dest !in {"", "document"} ==>
        reply == LogoutRefused && sessions.sessions == old(sessions.sessions)
      ensures !(site == "cross-site" && dest !in {"", "document"}) ==>
        if cookie.None? then reply == LoggedOut(None) && sessions.sessions == old(sessions.sessions)
        else
          && reply == LoggedOut(Sessions.Found(old(sessions.sessions), cookie.value, now))
          && sessions.sessions == old(sessions.sessions) - {cookie.value}
    {
      if site == "cross-site" {
        if dest != "" && dest != "document" {
          return LogoutRefused;
        }
      }
      var ended := None;
      if cookie.Some? {
        ended := sessions.Get(cookie.value, now);
        sessions.Delete(cookie.value);
      }
      return LoggedOut(ended);
    }
  }
}
