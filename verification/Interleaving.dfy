/**
 The token endpoints at the granularity of single store operations.

 Any number of handlers run at once. What one handler does between two of its own file
 operations is invisible to the others, so each step here is one rename, read, write, remove
 or index update (internal/broker/store.go), with the clock moving in between.
 */
module Interleaving {
  import opened Wrappers
  import opened Records
  import opened DocumentStore
  import opened ClientPolicy
  import opened TokenPolicy
  import opened Handlers
  import Text

  /** A file: its document and when it was last written. A rename keeps both. */
  datatype Stored = Stored(doc: Document, writtenAt: int)

  const HOUR_MS := 3600000

  datatype Request =
    | RedeemRequest(client: Client, code: string, redirectUri: string, verifier: string)
    | RefreshRequest(client: Client, presented: string)
    | RevokeRequest(client: Client, token: string)

  /** What a refresh writes back under the presented name, and for how long. */
  datatype Back = NoBack | Back(token: RefreshToken, ttl: int)

  datatype Phase =
    | Begun
    | Renamed(entry: Stored, present: bool)
    | Minting(next: RefreshToken, back: Back)
    | Indexing(grant: string, id: string, back: Back)
    | PuttingBack(token: RefreshToken, ttl: int)
    | Responding(grant: string)
    | Revoking(grant: string)
    | Destroying(grant: string, left: set<string>)
    | Dropping
    | Finished

  datatype Thread = Thread(request: Request, phase: Phase)

  datatype Event =
    | Claimed(thread: nat, key: Key)
    | Restored(thread: nat, key: Key)
    | Succeeded(thread: nat, request: Request, grant: string)
    | Revoked(thread: nat, grant: string)

  /** `index` holds, per grant, the refresh token ids listed; `lock` is the grant mutex. */
  datatype State = State(
    files: map<Key, Stored>,
    index: map<string, set<string>>,
    lock: Option<nat>,
    threads: map<nat, Thread>,
    now: int,
    used: set<string>,
    log: seq<Event>)

  const START := State(map[], map[], None, map[], 1000, {}, [])

  function KeyOfRequest(r: Request): Key {
    match r
    case RedeemRequest(_, code, _, _) => CodeKey(code)
    case RefreshRequest(_, presented) => RefreshKey(presented)
    case RevokeRequest(_, token) => RefreshKey(token)
  }

  // --- what a handler decides from the document it claimed --------------------

  function Write(s: State, k: Key, payload: Payload, ttl: int): map<Key, Stored> {
    s.files[k := Stored(Document(payload, if ttl > 0 then s.now + ttl else 0), s.now)]
  }

  function AfterCode(cfg: Config, c: Client, r: Request, a: AuthCode, now: int): Phase
    requires r.RedeemRequest?
  {
    if a.clientId != c.id || r.redirectUri != a.redirectUri || !VerifyPKCE(cfg, r.verifier, a.challenge) then Finished
    else
      var scopes := Text.Fields(a.scope);
      if WantsRefreshToken(c, scopes) then Minting(NewRefresh(c, a.accountId, scopes, a.nonce, a.grantId, now), NoBack)
      else Responding(a.grantId)
  }

  function AfterToken(c: Client, rt: RefreshToken, now: int): Phase {
    if rt.clientId != c.id || (rt.exp != 0 && rt.exp <= Unix(now)) then Finished
    else if PastGrace(rt, now) then if rt.grantId != "" then Revoking(rt.grantId) else Finished
    else if ShouldRotate(c, rt, now) then
      Minting(Rotated(rt, now), Back(rt.(consumed := Unix(now)), Remaining(rt.exp, now)))
    else PuttingBack(rt, Remaining(rt.exp, now))
  }

  /** Where a handler goes once it has read the file it renamed. */
  function AfterRead(cfg: Config, r: Request, entry: Stored, present: bool, now: int): Phase {
    if !present || Expired(entry.doc, now) then Finished
    else
      match (r, entry.doc.payload)
      case (RedeemRequest(c, _, _, _), CodeDoc(a)) => AfterCode(cfg, c, r, a, now)
      case (RefreshRequest(c, _), RefreshDoc(rt)) => AfterToken(c, rt, now)
      case _ => Finished
  }

  function AfterIndex(grant: string, back: Back): Phase {
    match back
    case NoBack => Responding(grant)
    case Back(token, ttl) => PuttingBack(token, ttl)
  }

  // --- steps ---------------------------------------------------------------

  datatype Step =
    | Tick(ms: nat)
    | NewCode(id: string, code: AuthCode)
    | Spawn(t: nat, request: Request)
    | Rename(t: nat)
    | SweepClaim(t: nat)
    | Read(t: nat)
    | PutNew(t: nat, id: string)
    | AddIndex(t: nat)
    | PutBack(t: nat)
    | Respond(t: nat)
    | Look(t: nat)
    | Lock(t: nat)
    | Remove(t: nat, id: string)
    | Unlock(t: nat)
    | Drop(t: nat)
    | SweepFile(k: Key)

  /** The steps a handler takes; the rest belong to the clock, the front end and the sweeper. */
  predicate OfThread(step: Step) {
    !step.Tick? && !step.NewCode? && !step.Spawn? && !step.SweepFile?
  }

  predicate At(s: State, t: nat) {
    t in s.threads
  }

  ghost predicate Enabled(s: State, step: Step) {
    match step
    case Tick(_) => true
    case NewCode(id, code) =>
      && Minted(id) && Minted(code.grantId) && id != code.grantId
      && id !in s.used && code.grantId !in s.used
    case Spawn(t, _) => t !in s.threads
    case Rename(t) => At(s, t) && s.threads[t].phase.Begun? && !s.threads[t].request.RevokeRequest?
    case SweepClaim(t) =>
      && At(s, t) && s.threads[t].phase.Renamed? && s.threads[t].phase.present
      && s.now - s.threads[t].phase.entry.writtenAt > HOUR_MS
    case Read(t) => At(s, t) && s.threads[t].phase.Renamed?
    case PutNew(t, id) => At(s, t) && s.threads[t].phase.Minting? && Minted(id) && id !in s.used
    case AddIndex(t) => At(s, t) && s.threads[t].phase.Indexing? && (s.lock == None || s.threads[t].phase.grant == "")
    case PutBack(t) => At(s, t) && s.threads[t].phase.PuttingBack?
    case Respond(t) => At(s, t) && s.threads[t].phase.Responding?
    case Look(t) => At(s, t) && s.threads[t].phase.Begun? && s.threads[t].request.RevokeRequest?
    case Lock(t) => At(s, t) && s.threads[t].phase.Revoking? && s.lock == None
    case Remove(t, id) => At(s, t) && s.threads[t].phase.Destroying? && id in s.threads[t].phase.left
    case Unlock(t) => At(s, t) && s.threads[t].phase.Destroying? && s.threads[t].phase.left == {}
    case Drop(t) => At(s, t) && s.threads[t].phase.Dropping?
    case SweepFile(k) => k in s.files && Expired(s.files[k].doc, s.now)
  }

  function Moved(s: State, t: nat, phase: Phase): map<nat, Thread>
    requires t in s.threads
  {
    s.threads[t := s.threads[t].(phase := phase)]
  }

  /** The directory holds a file under this name. */
  predicate Present(s: State, k: Key) {
    k.id != "" && k in s.files
  }

  /** Reading a token for revocation: the grant to revoke, if the token is live and the client's own. */
  function LookedUp(s: State, c: Client, k: Key): Phase {
    if !Present(s, k) || Expired(s.files[k].doc, s.now) then Finished
    else
      match s.files[k].doc.payload
      case RefreshDoc(rt) =>
        if rt.clientId != c.id then Finished else if rt.grantId != "" then Revoking(rt.grantId) else Dropping
      case _ => Finished
  }

  // What one step of a handler in `phase` does to each part of the state.

  function PhaseAfter(cfg: Config, s: State, step: Step, r: Request, phase: Phase): Phase {
    var k := KeyOfRequest(r);
    match (step, phase)
    case (Rename(_), Begun) => if Present(s, k) then Renamed(s.files[k], true) else Finished
    case (SweepClaim(_), Renamed(entry, _)) => Renamed(entry, false)
    case (Read(_), Renamed(entry, present)) => AfterRead(cfg, r, entry, present, s.now)
    case (PutNew(_, id), Minting(next, back)) => Indexing(next.grantId, id, back)
    case (AddIndex(_), Indexing(grant, _, back)) => AfterIndex(grant, back)
    case (PutBack(_), PuttingBack(token, _)) => Responding(token.grantId)
    case (Respond(_), Responding(_)) => Finished
    case (Look(_), Begun) => LookedUp(s, r.client, k)
    case (Lock(_), Revoking(grant)) => Destroying(grant, Listed(s, grant))
    case (Remove(_, id), Destroying(grant, left)) => Destroying(grant, left - {id})
    case (Unlock(_), Destroying(_, _)) => if r.RevokeRequest? then Dropping else Finished
    case (Drop(_), Dropping) => Finished
    case _ => phase
  }

  /** Looking a token up removes it if it has expired. */
  function FilesAfter(s: State, step: Step, r: Request, phase: Phase): map<Key, Stored> {
    var k := KeyOfRequest(r);
    match (step, phase)
    case (Rename(_), Begun) => if Present(s, k) then s.files - {k} else s.files
    case (PutNew(_, id), Minting(next, _)) => Write(s, RefreshKey(id), RefreshDoc(next), REFRESH_TTL_MS)
    case (PutBack(_), PuttingBack(token, ttl)) => Write(s, k, RefreshDoc(token), ttl)
    case (Look(_), Begun) => if Present(s, k) && Expired(s.files[k].doc, s.now) then s.files - {k} else s.files
    case (Remove(_, id), Destroying(_, _)) => s.files - {RefreshKey(id)}
    case (Drop(_), Dropping) => s.files - {k}
    case _ => s.files
  }

  function IndexAfter(s: State, step: Step, phase: Phase): map<string, set<string>> {
    match (step, phase)
    case (AddIndex(_), Indexing(grant, id, _)) =>
      if grant == "" then s.index else s.index[grant := Listed(s, grant) + {id}]
    case (Unlock(_), Destroying(grant, _)) => s.index - {grant}
    case _ => s.index
  }

  function LockAfter(s: State, step: Step, phase: Phase): Option<nat> {
    match (step, phase)
    case (Lock(t), Revoking(_)) => Some(t)
    case (Unlock(_), Destroying(_, _)) => None
    case _ => s.lock
  }

  function Events(s: State, step: Step, r: Request, phase: Phase): seq<Event> {
    var k := KeyOfRequest(r);
    match (step, phase)
    case (Rename(t), Begun) => if Present(s, k) then [Claimed(t, k)] else []
    case (PutBack(t), PuttingBack(_, _)) => [Restored(t, k)]
    case (Respond(t), Responding(grant)) => [Succeeded(t, r, grant)]
    case (Unlock(t), Destroying(grant, _)) => [Revoked(t, grant)]
    case _ => []
  }

  function NextOf(cfg: Config, s: State, step: Step, r: Request, phase: Phase): State
    requires OfThread(step) && step.t in s.threads
  {
    State(
      FilesAfter(s, step, r, phase),
      IndexAfter(s, step, phase),
      LockAfter(s, step, phase),
      Moved(s, step.t, PhaseAfter(cfg, s, step, r, phase)),
      s.now,
      if step.PutNew? then s.used + {step.id} else s.used,
      s.log + Events(s, step, r, phase))
  }

  function Next(cfg: Config, s: State, step: Step): State {
    match step
    case Tick(ms) => s.(now := s.now + ms)
    case NewCode(id, code) =>
      s.(files := Write(s, CodeKey(id), CodeDoc(code), CODE_TTL_MS), used := s.used + {id, code.grantId})
    case Spawn(t, request) => s.(threads := s.threads[t := Thread(request, Begun)])
    case SweepFile(k) => s.(files := s.files - {k})
    case _ =>
      if step.t !in s.threads then s
      else NextOf(cfg, s, step, s.threads[step.t].request, s.threads[step.t].phase)
  }

  function Listed(s: State, grant: string): set<string> {
    if grant in s.index then s.index[grant] else {}
  }

  ghost predicate Runnable(cfg: Config, s: State, steps: seq<Step>)
    decreases |steps|
  {
    steps == [] || (Enabled(s, steps[0]) && Runnable(cfg, Next(cfg, s, steps[0]), steps[1..]))
  }

  function Run(cfg: Config, s: State, steps: seq<Step>): State
    decreases |steps|
  {
    if steps == [] then s else Run(cfg, Next(cfg, s, steps[0]), steps[1..])
  }

  // --- a claim is an exclusive lock -------------------------------------------

  /** The document a handler has taken out of the directory and not given back. */
  function Holds(th: Thread): Option<Key> {
    var k := KeyOfRequest(th.request);
    match th.phase
    case Renamed(_, _) => Some(k)
    case Minting(_, back) => if back.Back? then Some(k) else None
    case Indexing(_, _, back) => if back.Back? then Some(k) else None
    case PuttingBack(_, _) => Some(k)
    case _ => None
  }

  ghost predicate Exclusive(s: State) {
    && (forall k :: k in s.files ==> k.id in s.used)
    && (forall t :: t in s.threads && Holds(s.threads[t]).Some? ==>
        Holds(s.threads[t]).value !in s.files && Holds(s.threads[t]).value.id in s.used)
    && (forall t, u :: t in s.threads && u in s.threads && t != u && Holds(s.threads[t]).Some? ==>
        Holds(s.threads[t]) != Holds(s.threads[u]))
  }

  /** A step of one thread that takes at most one file and gives back at most the one it held. */
  ghost predicate FairMove(s: State, s': State, t: nat) {
    && t in s.threads && t in s'.threads && s'.threads == s.threads[t := s'.threads[t]]
    && s.used <= s'.used
    && var before, after := Holds(s.threads[t]), Holds(s'.threads[t]);
    && (forall k :: k in s'.files ==>
        && k.id in s'.used
        && (k in s.files || before == Some(k) || k.id !in s.used))
    && (after.Some? ==> after.value !in s'.files && (after == before || after.value in s.files))
  }

  lemma FairMoveKeeps(s: State, s': State, t: nat)
    requires Exclusive(s) && FairMove(s, s', t)
    ensures Exclusive(s')
  {
    forall u | u in s'.threads && Holds(s'.threads[u]).Some?
      ensures Holds(s'.threads[u]).value !in s'.files && Holds(s'.threads[u]).value.id in s'.used
    {
      if u != t {
        assert s'.threads[u] == s.threads[u];
      }
    }
  }

  lemma FilesAreFair(cfg: Config, s: State, step: Step, k: Key)
    requires Exclusive(s) && Enabled(s, step) && OfThread(step) && k in Next(cfg, s, step).files
    ensures k.id in Next(cfg, s, step).used
    ensures k in s.files || Holds(s.threads[step.t]) == Some(k) || k.id !in s.used
  {
    var r, phase := s.threads[step.t].request, s.threads[step.t].phase;
    assert Next(cfg, s, step) == NextOf(cfg, s, step, r, phase);
  }

  lemma StepIsFair(cfg: Config, s: State, step: Step)
    requires Exclusive(s) && Enabled(s, step) && OfThread(step)
    ensures FairMove(s, Next(cfg, s, step), step.t)
  {
    var r, phase := s.threads[step.t].request, s.threads[step.t].phase;
    var s' := Next(cfg, s, step);
    assert s' == NextOf(cfg, s, step, r, phase);
    forall k | k in s'.files
      ensures k.id in s'.used && (k in s.files || Holds(s.threads[step.t]) == Some(k) || k.id !in s.used)
    {
      FilesAreFair(cfg, s, step, k);
    }
  }

  lemma ExclusiveKept(cfg: Config, s: State, step: Step)
    requires Exclusive(s) && Enabled(s, step)
    ensures Exclusive(Next(cfg, s, step))
  {
    if OfThread(step) {
      StepIsFair(cfg, s, step);
      FairMoveKeeps(s, Next(cfg, s, step), step.t);
    }
  }
}
