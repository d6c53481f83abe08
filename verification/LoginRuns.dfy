/**
 Logins in flight, over whole runs. Handlers interleave: `ensure` runs under the registration
 mutex, the flow table is touched under its own, and building a redirect_uri is a step apart.
 */
module LoginRuns {
  import opened RelyingParty

  datatype Handler =
    | LoginReady(origin: string, target: string)
    | LoginStored(origin: string, state: string)
    | CallbackReady(origin: string, state: string)
    | Holding(origin: string, state: string, flow: Flow, taken: int)

  datatype Event =
    | StoredFlow(state: string, flow: Flow)
    | Redirected(state: string, origin: string, redirectUri: string)
    | Exchanged(state: string, origin: string, redirectUri: string, flow: Flow, taken: int)

  datatype State = State(p: Party, handlers: map<nat, Handler>, now: int, used: set<string>, log: seq<Event>)

  datatype Step =
    | Tick(ms: nat)
    | BeginLogin(h: nat, origin: string, target: string, attempt: Attempt, pick: string)
    | BeginCallback(h: nat, origin: string, error: string, state: string, attempt: Attempt, pick: string)
    | StoreFlow(h: nat, state: string, verifier: string)
    | Redirect(h: nat)
    | Take(h: nat)
    | Exchange(h: nat)

  predicate Enabled(cfg: Config, s: State, step: Step) {
    match step
    case Tick(_) => true
    case BeginLogin(h, origin, _, a, pick) => h !in s.handlers && Pickable(cfg, s.p, origin, a, pick)
    case BeginCallback(h, origin, _, _, a, pick) => h !in s.handlers && Pickable(cfg, s.p, origin, a, pick)
    case StoreFlow(h, state, _) => h in s.handlers && s.handlers[h].LoginReady? && state !in s.used
    case Redirect(h) => h in s.handlers && s.handlers[h].LoginStored?
    case Take(h) => h in s.handlers && s.handlers[h].CallbackReady?
    case Exchange(h) => h in s.handlers && s.handlers[h].Holding?
  }

  /** `sweeps` is false for the variant that never clears an abandoned login. */
  function Next(cfg: Config, s: State, step: Step, sweeps: bool): State
    requires Enabled(cfg, s, step)
  {
    match step
    case Tick(ms) => s.(now := s.now + ms)
    case BeginLogin(h, origin, target, a, pick) =>
      var p := AfterEnsure(cfg, s.p, origin, a, pick);
      s.(p := p, handlers := if p.reg.Some? then s.handlers[h := LoginReady(origin, target)] else s.handlers)
    case BeginCallback(h, origin, error, state, a, pick) =>
      var p := AfterEnsure(cfg, s.p, origin, a, pick);
      s.(p := p,
         handlers := if p.reg.Some? && error == "" then s.handlers[h := CallbackReady(origin, state)] else s.handlers)
    case StoreFlow(h, state, verifier) =>
      var f := Flow(verifier, s.handlers[h].target, s.now);
      s.(p := if sweeps then AfterInsert(s.p, state, f) else s.p.(flows := s.p.flows[state := f]),
         handlers := s.handlers[h := LoginStored(s.handlers[h].origin, state)],
         used := s.used + {state}, log := s.log + [StoredFlow(state, f)])
    case Redirect(h) =>
      var x := s.handlers[h];
      s.(handlers := s.handlers - {h}, log := s.log + [Redirected(x.state, x.origin, RedirectUri(s.p, x.origin))])
    case Take(h) =>
      var x := s.handlers[h];
      var f := Taken(s.p.flows, x.state, s.now);
      s.(p := AfterTake(s.p, x.state),
         handlers := if f.None? then s.handlers - {h} else s.handlers[h := Holding(x.origin, x.state, f.value, s.now)])
    case Exchange(h) =>
      var x := s.handlers[h];
      s.(handlers := s.handlers - {h},
         log := s.log + [Exchanged(x.state, x.origin, RedirectUri(s.p, x.origin), x.flow, x.taken)])
  }

  predicate Runnable(cfg: Config, s: State, steps: seq<Step>)
    decreases |steps|
  {
    steps == [] || (Enabled(cfg, s, steps[0]) && Runnable(cfg, Next(cfg, s, steps[0], true), steps[1..]))
  }

  function Run(cfg: Config, s: State, steps: seq<Step>): State
    requires Runnable(cfg, s, steps)
    decreases |steps|
  {
    if steps == [] then s else Run(cfg, Next(cfg, s, steps[0], true), steps[1..])
  }

  /** A fresh process: nothing registered, the hosts the configuration lists, no login in flight. */
  predicate Initial(s: State) {
    s.p.reg.None? && s.p.flows == map[] && s.handlers == map[] && s.used == {} && s.log == []
  }

  ghost predicate Reachable(cfg: Config, s: State) {
    exists s0, steps :: Initial(s0) && Runnable(cfg, s0, steps) && s == Run(cfg, s0, steps)
  }

  // --- invariant ---------------------------------------------------------------

  predicate Registered(s: State) {
    s.p.reg.None? ==> s.p.flows == map[] && s.handlers == map[] && s.log == []
  }

  /** Every redirect_uri ever used is the one the party would use now for that origin. */
  predicate UrisAgree(s: State) {
    forall i :: 0 <= i < |s.log| && !s.log[i].StoredFlow? ==> s.log[i].redirectUri == RedirectUri(s.p, s.log[i].origin)
  }

  predicate HasExchanged(log: seq<Event>, state: string) {
    exists i :: 0 <= i < |log| && log[i].Exchanged? && log[i].state == state
  }

  predicate Genuine(s: State, state: string, f: Flow) {
    state in s.used && StoredFlow(state, f) in s.log
  }

  ghost predicate FlowsUnspent(s: State) {
    forall state :: state in s.p.flows ==> Genuine(s, state, s.p.flows[state]) && !HasExchanged(s.log, state)
  }

  ghost predicate HoldersUnspent(s: State) {
    && (forall h :: h in s.handlers && s.handlers[h].Holding? ==>
        && Genuine(s, s.handlers[h].state, s.handlers[h].flow)
        && s.handlers[h].taken - s.handlers[h].flow.created <= FLOW_TTL_MS
        && s.handlers[h].state !in s.p.flows && !HasExchanged(s.log, s.handlers[h].state))
    && (forall g, h ::
        g in s.handlers && h in s.handlers && g != h && s.handlers[g].Holding? && s.handlers[h].Holding? ==>
        s.handlers[g].state != s.handlers[h].state)
  }

  ghost predicate SpentOnce(s: State) {
    && (forall i :: 0 <= i < |s.log| && s.log[i].Exchanged? ==>
        Genuine(s, s.log[i].state, s.log[i].flow) && s.log[i].taken - s.log[i].flow.created <= FLOW_TTL_MS)
    && (forall i, j :: 0 <= i < j < |s.log| && s.log[i].Exchanged? && s.log[j].Exchanged? ==>
        s.log[i].state != s.log[j].state)
  }

  /** A login is in the table, or with one callback, or has been exchanged; never two of these. */
  ghost predicate SingleUse(s: State) {
    FlowsUnspent(s) && HoldersUnspent(s) && SpentOnce(s)
  }

  ghost predicate Inv(s: State) {
    Registered(s) && UrisAgree(s) && SingleUse(s)
  }

  lemma ExchangedGrows(log: seq<Event>, e: Event, state: string)
    ensures HasExchanged(log + [e], state) <==> HasExchanged(log, state) || (e.Exchanged? && e.state == state)
  {
    if i :| 0 <= i < |log| && log[i].Exchanged? && log[i].state == state {
      assert (log + [e])[i].Exchanged?;
    } else {
      assert (log + [e])[|log|] == e;
    }
  }

  lemma UrisKept(cfg: Config, s: State, step: Step, sweeps: bool)
    requires Registered(s) && UrisAgree(s) && Enabled(cfg, s, step)
    ensures Registered(Next(cfg, s, step, sweeps)) && UrisAgree(Next(cfg, s, step, sweeps))
  {
  }

  lemma ExchangedNext(cfg: Config, s: State, step: Step, sweeps: bool)
    requires Enabled(cfg, s, step)
    ensures
      var s' := Next(cfg, s, step, sweeps);
      && s.used <= s'.used && s.log <= s'.log
      && forall state :: HasExchanged(s'.log, state) <==>
        HasExchanged(s.log, state) || (step.Exchange? && s.handlers[step.h].state == state)
  {
    var s' := Next(cfg, s, step, sweeps);
    if s'.log != s.log {
      var e := s'.log[|s.log|];
      forall state
        ensures HasExchanged(s'.log, state) <==> (HasExchanged(s.log, state) || (e.Exchanged? && e.state == state))
      {
        ExchangedGrows(s.log, e, state);
      }
    }
  }

  lemma UnspentNeedsUse(s: State, state: string)
    requires SpentOnce(s) && state !in s.used
    ensures !HasExchanged(s.log, state)
  {
  }

  lemma FlowsKept(cfg: Config, s: State, step: Step, sweeps: bool)
    requires SingleUse(s) && Enabled(cfg, s, step)
    ensures FlowsUnspent(Next(cfg, s, step, sweeps))
  {
    ExchangedNext(cfg, s, step, sweeps);
    var s' := Next(cfg, s, step, sweeps);
    forall x | x in s'.p.flows ensures Genuine(s', x, s'.p.flows[x]) && !HasExchanged(s'.log, x) {
      if x in s.p.flows {
        assert Genuine(s, x, s.p.flows[x]);
      } else {
        UnspentNeedsUse(s, x);
      }
    }
  }

  lemma HoldersKept(cfg: Config, s: State, step: Step, sweeps: bool)
    requires SingleUse(s) && Enabled(cfg, s, step)
    ensures HoldersUnspent(Next(cfg, s, step, sweeps))
  {
    ExchangedNext(cfg, s, step, sweeps);
    var s' := Next(cfg, s, step, sweeps);
    forall h | h in s'.handlers && s'.handlers[h].Holding?
      ensures
        && Genuine(s', s'.handlers[h].state, s'.handlers[h].flow)
        && s'.handlers[h].taken - s'.handlers[h].flow.created <= FLOW_TTL_MS
        && s'.handlers[h].state !in s'.p.flows && !HasExchanged(s'.log, s'.handlers[h].state)
    {
      if h in s.handlers && s.handlers[h].Holding? {
        assert Genuine(s, s.handlers[h].state, s.handlers[h].flow);
      } else {
        assert Genuine(s, s'.handlers[h].state, s'.handlers[h].flow);
      }
    }
  }

  lemma SpentKept(cfg: Config, s: State, step: Step, sweeps: bool)
    requires SingleUse(s) && Enabled(cfg, s, step)
    ensures SpentOnce(Next(cfg, s, step, sweeps))
  {
    ExchangedNext(cfg, s, step, sweeps);
  }

  lemma SingleUseKept(cfg: Config, s: State, step: Step, sweeps: bool)
    requires SingleUse(s) && Enabled(cfg, s, step)
    ensures SingleUse(Next(cfg, s, step, sweeps))
  {
    FlowsKept(cfg, s, step, sweeps);
    HoldersKept(cfg, s, step, sweeps);
    SpentKept(cfg, s, step, sweeps);
  }

  lemma {:induction false} RunKeeps(cfg: Config, s: State, steps: seq<Step>)
    requires Inv(s) && Runnable(cfg, s, steps)
    ensures Inv(Run(cfg, s, steps))
    decreases |steps|
  {
    if steps != [] {
      UrisKept(cfg, s, steps[0], true);
      SingleUseKept(cfg, s, steps[0], true);
      RunKeeps(cfg, Next(cfg, s, steps[0], true), steps[1..]);
    }
  }

  lemma ReachableInv(cfg: Config, s: State)
    requires Reachable(cfg, s)
    ensures Inv(s)
  {
    var s0, steps :| Initial(s0) && Runnable(cfg, s0, steps) && s == Run(cfg, s0, steps);
    RunKeeps(cfg, s0, steps);
  }

  // --- redirect_uri stability ------------------------------------------------------

  /** A registration, and with it the accepted origins and the fallback, is never replaced. */
  lemma {:induction false} RegistrationFreezesOrigins(cfg: Config, s: State, steps: seq<Step>)
    requires s.p.reg.Some? && Runnable(cfg, s, steps)
    ensures
      var p := Run(cfg, s, steps).p;
      p.reg == s.p.reg && p.origins == s.p.origins && p.fallback == s.p.fallback
    decreases |steps|
  {
    if steps != [] {
      RegistrationFreezesOrigins(cfg, Next(cfg, s, steps[0], true), steps[1..]);
    }
  }

  /** The fallback is filled at most once; a configured one never moves. */
  lemma {:induction false} FallbackNeverMoves(cfg: Config, s: State, steps: seq<Step>)
    requires s.p.fallback != "" && Runnable(cfg, s, steps)
    ensures Run(cfg, s, steps).p.fallback == s.p.fallback
    decreases |steps|
  {
    if steps != [] {
      FallbackNeverMoves(cfg, Next(cfg, s, steps[0], true), steps[1..]);
    }
  }

  /**
   While any login is in flight the party is registered, and whatever registrations failed
   before, a login and a callback that came in on one public origin name one redirect_uri.
   */
  lemma RedirectUriIsStable(cfg: Config, s: State, i: nat, j: nat)
    requires Reachable(cfg, s)
    requires i < |s.log| && j < |s.log| && s.log[i].Redirected? && s.log[j].Exchanged?
    requires s.log[i].origin == s.log[j].origin
    ensures s.log[i].redirectUri == s.log[j].redirectUri
    ensures s.p.reg.Some?
  {
    ReachableInv(cfg, s);
  }

  /**
   Every redirect_uri of a run is the callback of the origin the browser came in on, if that is
   accepted or there is no fallback, and otherwise the fallback's.
   */
  lemma RedirectUriIsTheOrigins(cfg: Config, s: State, i: nat)
    requires Reachable(cfg, s) && i < |s.log| && !s.log[i].StoredFlow?
    ensures s.log[i].redirectUri ==
      (if s.log[i].origin in s.p.origins || s.p.fallback == "" then s.log[i].origin else s.p.fallback)
        + "/nhl-auth/oidc/callback"
  {
    ReachableInv(cfg, s);
  }

  lemma FlowsNeedRegistration(cfg: Config, s: State)
    requires Reachable(cfg, s) && (s.p.flows != map[] || s.handlers != map[])
    ensures s.p.reg.Some?
  {
    ReachableInv(cfg, s);
  }

  // --- what the party answers, told from the request ------------------------------------

  /**
   The party is registered after a try exactly if it was before, or if the registrar named a client
   and an issuer and the provider's metadata could be read; it adopts the origins of the callbacks
   the registrar named, or else of those it offered itself.
   */
  lemma EnsuresExactly(cfg: Config, p: Party, origin: string, a: Attempt, pick: string)
    ensures
      var q := AfterEnsure(cfg, p, origin, a, pick);
      var named := a.answer.Some? && a.answer.value.clientId != "" && a.answer.value.issuer != "";
      && (q.reg.Some? <==> p.reg.Some? || (named && a.endSession.Some?))
      && q.flows == p.flows
      && if p.reg.Some? || !named then q == p
         else
           var r := a.answer.value;
           var offered := if p.origins != {} then set o | o in p.origins :: o + "/nhl-auth/oidc/callback"
             else if origin == "" then {} else {origin + "/nhl-auth/oidc/callback"};
           var uris := if r.redirectUris == [] then offered else set u | u in r.redirectUris;
           var found := set u | u in uris && cfg.originOf(u).Some? :: cfg.originOf(u).value;
           && (q.reg.Some? ==> q.reg.value == Registration(r.clientId, r.clientSecret, r.issuer, a.endSession.value))
           && q.origins == (if found == {} then p.origins else found)
           && q.fallback == if found == {} || p.fallback != "" then p.fallback else pick
  {
  }

  /** A login that can be sent to the provider is stored under its state, with the verifier to be proved later. */
  lemma LoginsExactly(
    cfg: Config, p: Party, origin: string, target: string, state: string, verifier: string, a: Attempt, pick: string,
    now: int)
    ensures
      var q := AfterEnsure(cfg, p, origin, a, pick);
      var (p', reply) := Login(cfg, p, origin, target, state, verifier, a, pick, now);
      if q.reg.None? then reply == LoginUnavailable && p' == q
      else
        && reply.SentToProvider? && reply.state == state && reply.verifier == verifier
        && reply.redirectUri ==
             (if origin in q.origins || q.fallback == "" then origin else q.fallback) + "/nhl-auth/oidc/callback"
        && state in p'.flows && p'.flows[state] == Flow(verifier, target, now)
        && (forall x :: x != state ==> (x in p'.flows <==> x in q.flows && now <= q.flows[x].created + 600000))
        && (forall x :: x in p'.flows && x != state ==> p'.flows[x] == q.flows[x])
  {
  }

  // --- single use ---------------------------------------------------------------------

  /** A state reaches the provider's token endpoint at most once in a whole run. */
  lemma StateIsExchangedOnce(cfg: Config, s: State, i: nat, j: nat)
    requires Reachable(cfg, s) && i < |s.log| && j < |s.log|
    requires s.log[i].Exchanged? && s.log[j].Exchanged? && s.log[i].state == s.log[j].state
    ensures i == j
  {
    ReachableInv(cfg, s);
  }

  /** And only for a login this party began, with its verifier, taken within ten minutes. */
  lemma ExchangeIsTimely(cfg: Config, s: State, i: nat)
    requires Reachable(cfg, s) && i < |s.log| && s.log[i].Exchanged?
    ensures StoredFlow(s.log[i].state, s.log[i].flow) in s.log
    ensures s.log[i].taken <= s.log[i].flow.created + 600000
  {
    ReachableInv(cfg, s);
    assert Genuine(s, s.log[i].state, s.log[i].flow);
  }

  // --- sweeping ----------------------------------------------------------------------

  /** A sweep drops exactly the logins a callback would reject at that moment. */
  lemma SweepDropsTheRejected(flows: map<string, Flow>, state: string, now: int)
    ensures state in Swept(flows, now) <==> Taken(flows, state, now).Some?
    ensures Taken(flows, state, now) == Taken(Swept(flows, now), state, now)
  {
  }

  /** `kept` has the same logins and otherwise only ones a callback would reject. */
  ghost predicate Covers(kept: State, s: State) {
    && kept == s.(p := s.p.(flows := kept.p.flows))
    && (forall x :: x in s.p.flows ==> x in kept.p.flows && kept.p.flows[x] == s.p.flows[x])
    && (forall x :: x in kept.p.flows && x !in s.p.flows ==> Stale(kept.p.flows[x], s.now))
  }

  lemma CoversNext(cfg: Config, kept: State, s: State, step: Step)
    requires Covers(kept, s) && Enabled(cfg, s, step)
    ensures Enabled(cfg, kept, step) && Covers(Next(cfg, kept, step, false), Next(cfg, s, step, true))
  {
    if step.BeginLogin? {
      EnsureIgnoresFlows(cfg, kept.p, s.p, step.origin, step.attempt, step.pick);
    }
    if step.BeginCallback? {
      EnsureIgnoresFlows(cfg, kept.p, s.p, step.origin, step.attempt, step.pick);
    }
  }

  lemma EnsureIgnoresFlows(cfg: Config, kept: Party, p: Party, origin: string, a: Attempt, pick: string)
    requires kept == p.(flows := kept.flows)
    ensures Pickable(cfg, p, origin, a, pick) <==> Pickable(cfg, kept, origin, a, pick)
    ensures AfterEnsure(cfg, kept, origin, a, pick) == AfterEnsure(cfg, p, origin, a, pick).(flows := kept.flows)
    ensures AfterEnsure(cfg, p, origin, a, pick).flows == p.flows
  {
  }

  predicate RunnableKept(cfg: Config, s: State, steps: seq<Step>)
    decreases |steps|
  {
    steps == [] || (Enabled(cfg, s, steps[0]) && RunnableKept(cfg, Next(cfg, s, steps[0], false), steps[1..]))
  }

  function RunKept(cfg: Config, s: State, steps: seq<Step>): State
    requires RunnableKept(cfg, s, steps)
    decreases |steps|
  {
    if steps == [] then s else RunKept(cfg, Next(cfg, s, steps[0], false), steps[1..])
  }

  /** No login, callback or exchange of any run comes out differently because abandoned logins are swept. */
  lemma {:induction false} FlowSweepIsInvisible(cfg: Config, kept: State, s: State, steps: seq<Step>)
    requires Covers(kept, s) && Runnable(cfg, s, steps)
    ensures RunnableKept(cfg, kept, steps)
    ensures RunKept(cfg, kept, steps).log == Run(cfg, s, steps).log
    ensures RunKept(cfg, kept, steps).handlers == Run(cfg, s, steps).handlers
    decreases |steps|
  {
    if steps != [] {
      CoversNext(cfg, kept, s, steps[0]);
      FlowSweepIsInvisible(cfg, Next(cfg, kept, steps[0], false), Next(cfg, s, steps[0], true), steps[1..]);
    }
  }
}
