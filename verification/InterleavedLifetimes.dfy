/**
 Lifetimes while handlers interleave: what bounds a refresh token's times and rotations in every
 state, on disk and in hand, and how its envelope comes to end later than the token itself.
 */
module InterleavedLifetimes {
  import opened Wrappers
  import opened Records
  import opened DocumentStore
  import opened ClientPolicy
  import opened TokenPolicy
  import opened Handlers
  import opened Interleaving
  import opened InterleavingTheorems
  import opened InterleavedRevocation

  // --- where documents are ---------------------------------------------------------

  datatype Site = OnDisk(k: Key) | InHand(t: nat)

  function CarriedBack(back: Back): set<Payload> {
    match back
    case NoBack => {}
    case Back(token, _) => {RefreshDoc(token)}
  }

  /** The documents a handler in this phase has read or will write. */
  function Carried(phase: Phase): set<Payload> {
    match phase
    case Renamed(entry, _) => {entry.doc.payload}
    case Minting(next, back) => {RefreshDoc(next)} + CarriedBack(back)
    case Indexing(_, _, back) => CarriedBack(back)
    case PuttingBack(token, _) => {RefreshDoc(token)}
    case _ => {}
  }

  function DocsAt(s: State, x: Site): set<Payload> {
    match x
    case OnDisk(k) => if k in s.files then {s.files[k].doc.payload} else {}
    case InHand(t) => if t in s.threads then Carried(s.threads[t].phase) else {}
  }

  /** What the handler has taken from the directory and not read yet. */
  predicate Reads(s: State, step: Step, p: Payload) {
    && step.Read? && step.t in s.threads && s.threads[step.t].phase.Renamed?
    && p == s.threads[step.t].phase.entry.doc.payload
  }

  // --- where they come from -----------------------------------------------------------

  /** A code that is read becomes the grant's first refresh token. */
  predicate FromCode(s: State, step: Step, source: Payload, p: Payload) {
    && Reads(s, step, source) && source.CodeDoc? && p.RefreshDoc?
    && p.token.grantId == source.code.grantId && p.token.iiat == p.token.iat == Unix(s.now)
    && p.token.exp == p.token.iat + REFRESH_TTL && p.token.rotations == 0 == p.token.consumed
  }

  /** A refresh token that is read comes back marked, and as its successor. */
  predicate FromToken(s: State, step: Step, source: Payload, p: Payload) {
    && Reads(s, step, source) && source.RefreshDoc? && p.RefreshDoc?
    && var c := s.threads[step.t].request.client;
    && c.id == source.token.clientId
    && (p.token == source.token.(consumed := Unix(s.now))
        || (ShouldRotate(c, source.token, s.now) && p.token == Rotated(source.token, s.now)))
  }

  lemma ReadMakes(cfg: Config, s: State, step: Step, p: Payload)
    requires Enabled(s, step) && step.Read?
    requires p in Carried(PhaseAfter(cfg, s, step, s.threads[step.t].request, s.threads[step.t].phase))
    ensures
      var source := s.threads[step.t].phase.entry.doc.payload;
      p == source || FromCode(s, step, source, p) || FromToken(s, step, source, p)
  {
  }

  /** The document was at `x` before, or was the handler's own. */
  predicate Moved(s: State, step: Step, x: Site, p: Payload) {
    || p in DocsAt(s, x)
    || (OfThread(step) && step.t in s.threads
        && (p in DocsAt(s, InHand(step.t))
            || (step.Rename? && p in DocsAt(s, OnDisk(KeyOfRequest(s.threads[step.t].request))))))
  }

  /** The document a reading handler has in hand. */
  function SourceOf(s: State, step: Step): Payload
    requires step.Read? && Enabled(s, step)
  {
    s.threads[step.t].phase.entry.doc.payload
  }

  lemma DiskOrigin(cfg: Config, s: State, step: Step, k: Key, p: Payload)
    requires Enabled(s, step) && p in DocsAt(Next(cfg, s, step), OnDisk(k))
    ensures
      || p in DocsAt(s, OnDisk(k))
      || (OfThread(step) && p.RefreshDoc? && p in DocsAt(s, InHand(step.t)))
      || (step.NewCode? && k == CodeKey(step.id) && p == CodeDoc(step.code))
  {
    if OfThread(step) {
      var r, phase := s.threads[step.t].request, s.threads[step.t].phase;
      assert Next(cfg, s, step).files == FilesAfter(s, step, r, phase);
    }
  }

  lemma HandOrigin(cfg: Config, s: State, step: Step, t: nat, p: Payload)
    requires Enabled(s, step) && p in DocsAt(Next(cfg, s, step), InHand(t))
    ensures
      || p in DocsAt(s, InHand(t))
      || (step.Rename? && t == step.t && p in DocsAt(s, OnDisk(KeyOfRequest(s.threads[t].request))))
      || (step.Read? && t == step.t
          && (FromCode(s, step, SourceOf(s, step), p) || FromToken(s, step, SourceOf(s, step), p)))
  {
    if OfThread(step) {
      var r, phase := s.threads[step.t].request, s.threads[step.t].phase;
      ThreadsMove(cfg, s, step);
      assert Next(cfg, s, step).threads[step.t].phase == PhaseAfter(cfg, s, step, r, phase);
      if step.Read? && t == step.t {
        ReadMakes(cfg, s, step, p);
      }
    }
  }

  lemma Origin(cfg: Config, s: State, step: Step, x: Site, p: Payload)
    requires Enabled(s, step) && p in DocsAt(Next(cfg, s, step), x)
    ensures
      || Moved(s, step, x, p)
      || (step.NewCode? && x == OnDisk(CodeKey(step.id)) && p == CodeDoc(step.code))
      || (step.Read? && x == InHand(step.t)
          && (FromCode(s, step, SourceOf(s, step), p) || FromToken(s, step, SourceOf(s, step), p)))
  {
    match x {
      case OnDisk(k) => DiskOrigin(cfg, s, step, k, p);
      case InHand(t) => HandOrigin(cfg, s, step, t, p);
    }
  }

  /** Unless it is a new code, a document goes back to one of the same grant. */
  lemma Predecessor(cfg: Config, s: State, step: Step, x: Site, p: Payload) returns (y: Site, q: Payload)
    requires Enabled(s, step) && p in DocsAt(Next(cfg, s, step), x)
    requires !(step.NewCode? && x == OnDisk(CodeKey(step.id)) && p == CodeDoc(step.code))
    ensures q in DocsAt(s, y) && GrantOf(q) == GrantOf(p)
    ensures p == q || (step.Read? && x == y == InHand(step.t) && q == SourceOf(s, step) && p.RefreshDoc?)
    ensures p.RefreshDoc? && q.RefreshDoc? ==> p.token.iiat == q.token.iiat
    ensures p.RefreshDoc? && !q.RefreshDoc? ==> q.CodeDoc? && p.token.iiat == Unix(s.now)
  {
    Origin(cfg, s, step, x, p);
    y, q := x, p;
    if p !in DocsAt(s, x) {
      y := InHand(step.t);
      if step.Read? && p !in DocsAt(s, y) {
        q := SourceOf(s, step);
      } else if p !in DocsAt(s, y) {
        y := OnDisk(KeyOfRequest(s.threads[step.t].request));
      }
    }
  }

  // --- times and rotations ---------------------------------------------------------------

  predicate Bounded(t: RefreshToken, now: int) {
    && 1 <= t.iiat <= t.iat <= Unix(now) && t.exp == t.iat + REFRESH_TTL && t.iat <= t.iiat + ABSOLUTE_MAX
    && 0 <= t.rotations && 0 <= t.consumed <= Unix(now)
  }

  /** Every handler so far that named this client found it confidential. */
  ghost predicate Confidential(s: State, id: string) {
    forall t :: t in s.threads && s.threads[t].request.client.id == id ==> !IsPublic(s.threads[t].request.client)
  }

  /** Each rotation of a confidential client's token took 0.7 of a lifetime. */
  predicate Paced(t: RefreshToken) {
    t.iiat + 5443200 * t.rotations <= t.iat
  }

  ghost predicate TokenOk(s: State, t: RefreshToken) {
    Bounded(t, s.now) && (Confidential(s, t.clientId) ==> Paced(t))
  }

  ghost predicate AllOk(s: State) {
    s.now >= 1000 && forall x, t :: RefreshDoc(t) in DocsAt(s, x) ==> TokenOk(s, t)
  }

  lemma ConfidentialBefore(cfg: Config, s: State, step: Step, id: string)
    requires Enabled(s, step) && Confidential(Next(cfg, s, step), id)
    ensures Confidential(s, id)
  {
    var s' := Next(cfg, s, step);
    forall t | t in s.threads && s.threads[t].request.client.id == id ensures !IsPublic(s.threads[t].request.client) {
      assert t in s'.threads && s'.threads[t].request == s.threads[t].request;
    }
  }

  lemma StillOk(cfg: Config, s: State, step: Step, t: RefreshToken)
    requires Enabled(s, step) && TokenOk(s, t)
    ensures TokenOk(Next(cfg, s, step), t)
  {
    if Confidential(Next(cfg, s, step), t.clientId) {
      ConfidentialBefore(cfg, s, step, t.clientId);
    }
  }

  lemma SuccessorOk(s: State, step: Step, t: RefreshToken)
    requires s.now >= 1000 && step.Read? && Enabled(s, step)
    requires SourceOf(s, step).RefreshDoc? && TokenOk(s, SourceOf(s, step).token)
    requires FromToken(s, step, SourceOf(s, step), RefreshDoc(t))
    ensures TokenOk(s, t)
  {
    if Confidential(s, t.clientId) {
      assert !IsPublic(s.threads[step.t].request.client);
    }
  }

  lemma AllOkKept(cfg: Config, s: State, step: Step)
    requires AllOk(s) && Enabled(s, step)
    ensures AllOk(Next(cfg, s, step))
  {
    var s' := Next(cfg, s, step);
    forall x, t | RefreshDoc(t) in DocsAt(s', x) ensures TokenOk(s', t) {
      Origin(cfg, s, step, x, RefreshDoc(t));
      if step.Read? {
        assert SourceOf(s, step) in DocsAt(s, InHand(step.t));
        if FromToken(s, step, SourceOf(s, step), RefreshDoc(t)) {
          SuccessorOk(s, step, t);
        }
      }
      StillOk(cfg, s, step, t);
    }
  }

  // --- one lifetime per grant ---------------------------------------------------------------

  /** As long as a grant's code has not been read, it is the only document of the grant. */
  ghost predicate CodesFirst(s: State, g: string) {
    && (forall x, p :: p in DocsAt(s, x) && GrantOf(p) == Some(g) ==> g in s.used)
    && (forall x, a, y, p ::
        CodeDoc(a) in DocsAt(s, x) && a.grantId == g && p in DocsAt(s, y) && GrantOf(p) == Some(g)
        ==> x == y && p == CodeDoc(a))
  }

  /** All refresh tokens of the grant were first issued at `v`. */
  ghost predicate StartedAt(s: State, g: string, v: int) {
    forall x, t :: RefreshDoc(t) in DocsAt(s, x) && t.grantId == g ==> t.iiat == v
  }

  lemma GrantUsed(cfg: Config, s: State, step: Step, x: Site, p: Payload, g: string)
    requires CodesFirst(s, g) && Enabled(s, step) && p in DocsAt(Next(cfg, s, step), x) && GrantOf(p) == Some(g)
    ensures g in Next(cfg, s, step).used
    ensures g in s.used || (step.NewCode? && p == CodeDoc(step.code) && x == OnDisk(CodeKey(step.id)))
  {
    if !(step.NewCode? && p == CodeDoc(step.code) && x == OnDisk(CodeKey(step.id))) {
      var y, q := Predecessor(cfg, s, step, x, p);
      assert g in s.used;
      UsedGrows(cfg, s, step);
    }
  }

  lemma UsedGrows(cfg: Config, s: State, step: Step)
    requires Enabled(s, step)
    ensures s.used <= Next(cfg, s, step).used
  {
  }

  /** Where a code now stored or in hand was before. */
  function Before(s: State, step: Step, x: Site): Site
    requires OfThread(step) ==> step.t in s.threads
  {
    if step.Rename? && x == InHand(step.t) then OnDisk(KeyOfRequest(s.threads[step.t].request)) else x
  }

  lemma ReadTakesNoCode(cfg: Config, s: State, step: Step, a: AuthCode)
    requires Enabled(s, step) && step.Read?
    ensures CodeDoc(a) !in Carried(PhaseAfter(cfg, s, step, s.threads[step.t].request, s.threads[step.t].phase))
  {
  }

  lemma CodeStayed(cfg: Config, s: State, step: Step, x: Site, a: AuthCode)
    requires Enabled(s, step) && !step.NewCode? && CodeDoc(a) in DocsAt(Next(cfg, s, step), x)
    ensures CodeDoc(a) in DocsAt(s, Before(s, step, x))
    ensures !(step.Read? && x == InHand(step.t))
  {
    match x {
      case OnDisk(k) => DiskOrigin(cfg, s, step, k, CodeDoc(a));
      case InHand(t) =>
        HandOrigin(cfg, s, step, t, CodeDoc(a));
        if step.Read? {
          ReadTakesNoCode(cfg, s, step, a);
        }
        if step.Rename? && t == step.t {
          assert DocsAt(s, InHand(t)) == {};
        }
    }
  }

  lemma NotInBoth(cfg: Config, s: State, step: Step)
    requires Enabled(s, step) && step.Rename?
    ensures
      var s' := Next(cfg, s, step);
      DocsAt(s', InHand(step.t)) == {} || DocsAt(s', OnDisk(KeyOfRequest(s.threads[step.t].request))) == {}
  {
  }

  lemma OneSite(cfg: Config, s: State, step: Step, x: Site, y: Site, p: Payload)
    requires Enabled(s, step) && Before(s, step, x) == Before(s, step, y)
    requires p in DocsAt(Next(cfg, s, step), x) && p in DocsAt(Next(cfg, s, step), y)
    ensures x == y
  {
    if step.Rename? {
      NotInBoth(cfg, s, step);
    }
  }

  lemma CodeIsOnce(cfg: Config, s: State, step: Step, g: string, x: Site, a: AuthCode, y: Site, p: Payload)
    requires CodesFirst(s, g) && Enabled(s, step) && !step.NewCode?
    requires CodeDoc(a) in DocsAt(Next(cfg, s, step), x) && a.grantId == g
    requires p in DocsAt(Next(cfg, s, step), y) && GrantOf(p) == Some(g)
    ensures x == y && p == CodeDoc(a)
  {
    CodeStayed(cfg, s, step, x, a);
    var z, q := Predecessor(cfg, s, step, y, p);
    assert q == CodeDoc(a) && z == Before(s, step, x);
    CodeStayed(cfg, s, step, y, a);
    OneSite(cfg, s, step, x, y, p);
  }

  lemma CodesFirstKept(cfg: Config, s: State, step: Step, g: string)
    requires CodesFirst(s, g) && Enabled(s, step)
    ensures CodesFirst(Next(cfg, s, step), g)
  {
    var s' := Next(cfg, s, step);
    forall x, p | p in DocsAt(s', x) && GrantOf(p) == Some(g) ensures g in s'.used {
      GrantUsed(cfg, s, step, x, p, g);
    }
    forall x, a, y, p | CodeDoc(a) in DocsAt(s', x) && a.grantId == g && p in DocsAt(s', y) && GrantOf(p) == Some(g)
      ensures x == y && p == CodeDoc(a)
    {
      if step.NewCode? {
        GrantUsed(cfg, s, step, x, CodeDoc(a), g);
        GrantUsed(cfg, s, step, y, p, g);
        NewCodeElsewhere(cfg, s, step, g, x, CodeDoc(a), y, p);
      } else {
        CodeIsOnce(cfg, s, step, g, x, a, y, p);
      }
    }
  }

  lemma NewCodeElsewhere(cfg: Config, s: State, step: Step, g: string, x: Site, q: Payload, y: Site, p: Payload)
    requires CodesFirst(s, g) && Enabled(s, step) && step.NewCode? && q.CodeDoc?
    requires q in DocsAt(Next(cfg, s, step), x) && GrantOf(q) == Some(g)
    requires p in DocsAt(Next(cfg, s, step), y) && GrantOf(p) == Some(g)
    ensures x == y && p == q
  {
    Origin(cfg, s, step, x, q);
    Origin(cfg, s, step, y, p);
    if g !in s.used {
      assert p !in DocsAt(s, y) && q !in DocsAt(s, x);
    } else {
      assert step.code.grantId != g;
      assert q in DocsAt(s, x) && p in DocsAt(s, y);
    }
  }

  ghost predicate Started(s: State, g: string) {
    exists v :: StartedAt(s, g, v)
  }

  lemma StartedKept(cfg: Config, s: State, step: Step, g: string)
    requires CodesFirst(s, g) && Started(s, g) && Enabled(s, step)
    ensures Started(Next(cfg, s, step), g)
  {
    var s' := Next(cfg, s, step);
    var v :| StartedAt(s, g, v);
    var redeemed := step.Read? && SourceOf(s, step).CodeDoc? && SourceOf(s, step).code.grantId == g;
    var v' := if redeemed then Unix(s.now) else v;
    forall x, t | RefreshDoc(t) in DocsAt(s', x) && t.grantId == g ensures t.iiat == v' {
      var y, q := Predecessor(cfg, s, step, x, RefreshDoc(t));
      if redeemed {
        assert SourceOf(s, step) in DocsAt(s, InHand(step.t));
      }
    }
    assert StartedAt(s', g, v');
  }

  // --- every reachable state ------------------------------------------------------------------

  lemma {:induction false} RunKeepsTimes(cfg: Config, s: State, steps: seq<Step>, g: string)
    requires AllOk(s) && CodesFirst(s, g) && Started(s, g) && Runnable(cfg, s, steps)
    ensures
      var s' := Run(cfg, s, steps);
      AllOk(s') && CodesFirst(s', g) && Started(s', g)
    decreases |steps|
  {
    if steps != [] {
      AllOkKept(cfg, s, steps[0]);
      CodesFirstKept(cfg, s, steps[0], g);
      StartedKept(cfg, s, steps[0], g);
      RunKeepsTimes(cfg, Next(cfg, s, steps[0]), steps[1..], g);
    }
  }

  /**
   Whatever interleaves, every refresh token on disk or in a handler's hands expires ninety days
   after its own issue and at most that after its grant's ceiling; if its client was always found
   confidential it has been rotated at most five times.
   */
  lemma LifetimesHold(cfg: Config, s: State, x: Site, t: RefreshToken)
    requires Reachable(cfg, s) && RefreshDoc(t) in DocsAt(s, x)
    ensures 1 <= t.iiat <= t.iat <= Unix(s.now) && t.exp == t.iat + 7776000
    ensures t.exp <= t.iiat + 31557600 + 7776000
    ensures Confidential(s, t.clientId) ==> t.iiat + 5443200 * t.rotations <= t.iat && t.rotations <= 5
  {
    var steps :| Runnable(cfg, START, steps) && s == Run(cfg, START, steps);
    assert StartedAt(START, t.grantId, 0);
    RunKeepsTimes(cfg, START, steps, t.grantId);
    assert TokenOk(s, t);
  }

  /** And all refresh tokens of one grant keep the time its first one was issued. */
  lemma FirstIssueIsKept(cfg: Config, s: State, x: Site, t: RefreshToken, y: Site, u: RefreshToken)
    requires Reachable(cfg, s) && RefreshDoc(t) in DocsAt(s, x) && RefreshDoc(u) in DocsAt(s, y)
    requires t.grantId == u.grantId
    ensures t.iiat == u.iiat
  {
    var steps :| Runnable(cfg, START, steps) && s == Run(cfg, START, steps);
    assert StartedAt(START, t.grantId, 0);
    RunKeepsTimes(cfg, START, steps, t.grantId);
  }

  // --- how late an envelope ends -----------------------------------------------------------------

  /** When each handler read its claim, and which handler wrote each file last. */
  datatype Journal = Journal(readAt: map<nat, int>, writer: map<Key, nat>)

  const NOTHING := Journal(map[], map[])

  function Noted(s: State, step: Step, j: Journal): Journal
    requires OfThread(step) ==> step.t in s.threads
  {
    match step
    case Read(t) => j.(readAt := j.readAt[t := s.now])
    case PutNew(t, id) => j.(writer := j.writer[RefreshKey(id) := t])
    case PutBack(t) => j.(writer := j.writer[KeyOfRequest(s.threads[t].request) := t])
    case _ => j
  }

  function JournalOf(cfg: Config, s: State, steps: seq<Step>, j: Journal): Journal
    requires Runnable(cfg, s, steps)
    decreases |steps|
  {
    if steps == [] then j else JournalOf(cfg, Next(cfg, s, steps[0]), steps[1..], Noted(s, steps[0], j))
  }

  /** Past the read, whose instant cannot change any more. */
  predicate HasRead(s: State, t: nat, j: Journal) {
    t in s.threads && !s.threads[t].phase.Begun? && !s.threads[t].phase.Renamed? && t in j.readAt
      && j.readAt[t] <= s.now
  }

  /** What is to be written back expires, if written at once, with the token. */
  predicate BackOnTime(back: Back, r: int) {
    back.Back? ==> back.ttl == back.token.exp * 1000 - r > 0
  }

  predicate OnTime(phase: Phase, r: int) {
    match phase
    case Minting(next, back) => next.exp == Unix(r) + REFRESH_TTL && BackOnTime(back, r)
    case Indexing(_, _, back) => BackOnTime(back, r)
    case PuttingBack(token, ttl) => BackOnTime(Back(token, ttl), r)
    case _ => true
  }

  predicate Writes(phase: Phase) {
    phase.Minting? || phase.Indexing? || phase.PuttingBack?
  }

  ghost predicate ThreadTimed(s: State, t: nat, j: Journal)
    requires t in s.threads
  {
    Writes(s.threads[t].phase) ==> HasRead(s, t, j) && OnTime(s.threads[t].phase, j.readAt[t])
  }

  /** The envelope outlives the token by the writer's delay, and less than a second. */
  predicate LateBy(f: Stored, exp: int, delay: int) {
    0 <= f.doc.expiresAt - exp * 1000 - delay < 1000
  }

  ghost predicate FileTimed(s: State, k: Key, j: Journal)
    requires k in s.files
  {
    s.files[k].doc.payload.RefreshDoc? ==>
      && k in j.writer && HasRead(s, j.writer[k], j)
      && j.readAt[j.writer[k]] <= s.files[k].writtenAt <= s.now
      && LateBy(s.files[k], s.files[k].doc.payload.token.exp, s.files[k].writtenAt - j.readAt[j.writer[k]])
  }

  ghost predicate Timed(s: State, j: Journal) {
    && (forall t {:trigger ThreadTimed(s, t, j)} :: t in s.threads ==> ThreadTimed(s, t, j))
    && (forall k {:trigger FileTimed(s, k, j)} :: k in s.files ==> FileTimed(s, k, j))
  }

  lemma HasReadStays(cfg: Config, s: State, step: Step, t: nat, j: Journal)
    requires Enabled(s, step) && HasRead(s, t, j)
    ensures HasRead(Next(cfg, s, step), t, Noted(s, step, j)) && Noted(s, step, j).readAt[t] == j.readAt[t]
  {
    if OfThread(step) {
      ThreadsMove(cfg, s, step);
      assert Next(cfg, s, step).threads[step.t].phase ==
        PhaseAfter(cfg, s, step, s.threads[step.t].request, s.threads[step.t].phase);
    }
  }

  lemma ReadIsOnTime(cfg: Config, s: State, step: Step)
    requires AllOk(s) && Enabled(s, step) && step.Read?
    ensures OnTime(PhaseAfter(cfg, s, step, s.threads[step.t].request, s.threads[step.t].phase), s.now)
  {
    assert SourceOf(s, step) in DocsAt(s, InHand(step.t));
  }

  lemma MoverTimed(cfg: Config, s: State, step: Step, j: Journal)
    requires AllOk(s) && Enabled(s, step) && OfThread(step) && ThreadTimed(s, step.t, j)
    ensures
      var s' := Next(cfg, s, step);
      step.t in s'.threads && ThreadTimed(s', step.t, Noted(s, step, j))
  {
    ThreadsMove(cfg, s, step);
    assert Next(cfg, s, step).threads[step.t].phase ==
      PhaseAfter(cfg, s, step, s.threads[step.t].request, s.threads[step.t].phase);
    if step.Read? {
      ReadIsOnTime(cfg, s, step);
    } else if Writes(s.threads[step.t].phase) {
      HasReadStays(cfg, s, step, step.t, j);
    }
  }

  lemma ThreadsTimed(cfg: Config, s: State, step: Step, t: nat, j: Journal)
    requires AllOk(s) && Timed(s, j) && Enabled(s, step) && t in Next(cfg, s, step).threads
    ensures ThreadTimed(Next(cfg, s, step), t, Noted(s, step, j))
  {
    if t in s.threads {
      assert ThreadTimed(s, t, j);
      if OfThread(step) && t == step.t {
        MoverTimed(cfg, s, step, j);
      } else if Writes(s.threads[t].phase) {
        HasReadStays(cfg, s, step, t, j);
      }
    }
  }

  lemma FileWrittenTimed(cfg: Config, s: State, step: Step, k: Key, j: Journal)
    requires Timed(s, j) && Enabled(s, step) && (step.PutNew? || step.PutBack?)
    requires k == if step.PutNew? then RefreshKey(step.id) else KeyOfRequest(s.threads[step.t].request)
    ensures
      var s' := Next(cfg, s, step);
      k in s'.files && FileTimed(s', k, Noted(s, step, j))
  {
    assert ThreadTimed(s, step.t, j);
    HasReadStays(cfg, s, step, step.t, j);
  }

  lemma FileStaysTimed(cfg: Config, s: State, step: Step, k: Key, j: Journal)
    requires Timed(s, j) && Enabled(s, step) && k in s.files && k in Next(cfg, s, step).files
    requires Next(cfg, s, step).files[k] == s.files[k]
    requires k in j.writer ==> k in Noted(s, step, j).writer && Noted(s, step, j).writer[k] == j.writer[k]
    ensures FileTimed(Next(cfg, s, step), k, Noted(s, step, j))
  {
    assert FileTimed(s, k, j);
    if s.files[k].doc.payload.RefreshDoc? {
      HasReadStays(cfg, s, step, j.writer[k], j);
    }
  }

  lemma FilesTimed(cfg: Config, s: State, step: Step, k: Key, j: Journal)
    requires Timed(s, j) && Enabled(s, step) && k in Next(cfg, s, step).files
    ensures FileTimed(Next(cfg, s, step), k, Noted(s, step, j))
  {
    if step.PutNew? && k == RefreshKey(step.id) {
      FileWrittenTimed(cfg, s, step, k, j);
    } else if step.PutBack? && k == KeyOfRequest(s.threads[step.t].request) {
      FileWrittenTimed(cfg, s, step, k, j);
    } else if !(step.NewCode? && k == CodeKey(step.id)) {
      FileStaysTimed(cfg, s, step, k, j);
    }
  }

  lemma {:induction false} RunKeepsJournal(cfg: Config, s: State, steps: seq<Step>, j: Journal)
    requires AllOk(s) && Timed(s, j) && Runnable(cfg, s, steps)
    ensures Timed(Run(cfg, s, steps), JournalOf(cfg, s, steps, j))
    decreases |steps|
  {
    if steps != [] {
      var s', j' := Next(cfg, s, steps[0]), Noted(s, steps[0], j);
      AllOkKept(cfg, s, steps[0]);
      forall t | t in s'.threads ensures ThreadTimed(s', t, j') {
        ThreadsTimed(cfg, s, steps[0], t, j);
      }
      forall k | k in s'.files ensures FileTimed(s', k, j') {
        FilesTimed(cfg, s, steps[0], k, j);
      }
      RunKeepsJournal(cfg, s', steps[1..], j');
    }
  }

  /**
   In every interleaved run the envelope of a stored refresh token ends later than the token by
   exactly the time its last writer took from reading its claim to writing, and less than a
   second; no delay of an earlier handler adds to it.
   */
  lemma EnvelopeEndsLateByTheDelay(cfg: Config, steps: seq<Step>, k: Key)
    requires Runnable(cfg, START, steps)
    requires k in Run(cfg, START, steps).files && Run(cfg, START, steps).files[k].doc.payload.RefreshDoc?
    ensures
      var f, j := Run(cfg, START, steps).files[k], JournalOf(cfg, START, steps, NOTHING);
      && k in j.writer && j.writer[k] in j.readAt
      && var delay := f.writtenAt - j.readAt[j.writer[k]];
      && 0 <= delay && f.doc.payload.token.exp * 1000 + delay <= f.doc.expiresAt
      && f.doc.expiresAt < f.doc.payload.token.exp * 1000 + delay + 1000
  {
    RunKeepsJournal(cfg, START, steps, NOTHING);
    assert FileTimed(Run(cfg, START, steps), k, JournalOf(cfg, START, steps, NOTHING));
  }
}
