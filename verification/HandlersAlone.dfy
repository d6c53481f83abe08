/**
 The two granularities describe the same endpoints: a handler whose store operations are not
 interleaved with anyone else's ends in the store, and with the answer, that `Handlers` states.
 */
module HandlersAlone {
  import opened Wrappers
  import opened Records
  import opened DocumentStore
  import opened TokenPolicy
  import opened Handlers
  import opened Interleaving
  import opened InterleavedRevocation
  import opened InterleavingTheorems

  /** The same documents, and an index that lists the same refresh tokens per grant. */
  ghost predicate Matches(s: State, f: Files) {
    && s.files.Keys == f.docs.Keys
    && (forall k :: k in s.files ==> s.files[k].doc == f.docs[k])
    && Indexed(s, f)
  }

  ghost predicate Indexed(s: State, f: Files) {
    forall g {:trigger Listed(s, g)} {:trigger RefsOf(f, g)} :: SameList(Listed(s, g), RefsOf(f, g))
  }

  function RefreshKeys(ids: set<string>): set<Key> {
    set id | id in ids :: RefreshKey(id)
  }

  ghost predicate SameList(ids: set<string>, refs: seq<string>) {
    Named(refs) == RefreshKeys(ids)
  }

  lemma IndexUntouched(s: State, f: Files, s': State, f': Files)
    requires Indexed(s, f) && s'.index == s.index && f'.grants == f.grants
    ensures Indexed(s', f')
  {
    forall g ensures SameList(Listed(s', g), RefsOf(f', g)) {
      assert SameList(Listed(s, g), RefsOf(f, g));
    }
  }

  lemma ListedAgain(ids: set<string>, refs: seq<string>, id: string)
    requires SameList(ids, refs)
    ensures SameList(ids + {id}, if RefOf(RefreshKey(id)) in refs then refs else refs + [RefOf(RefreshKey(id))])
  {
    var k, ref := RefreshKey(id), RefOf(RefreshKey(id));
    assert RefreshKeys(ids + {id}) == RefreshKeys(ids) + {k};
    if ref in refs {
      NamedHas(refs, k);
    } else {
      RefDecodes(k);
      NamedStep(refs + [ref], |refs|);
      assert (refs + [ref])[..|refs|] == refs && (refs + [ref])[..|refs| + 1] == refs + [ref];
    }
  }

  // --- schedules ----------------------------------------------------------------------

  /** Every step is the handler's own; only the sweeper takes claim files. */
  predicate OwnStep(step: Step, t: nat) {
    OfThread(step) && step.t == t && !step.SweepClaim?
  }

  predicate Own(steps: seq<Step>, t: nat) {
    forall i :: 0 <= i < |steps| ==> OwnStep(steps[i], t)
  }

  predicate Done(s: State, t: nat) {
    t in s.threads && s.threads[t].phase.Finished?
  }

  /** The id of the refresh token the handler stores, if it stores one. */
  function NewId(steps: seq<Step>): string {
    if steps == [] then "" else if steps[0].PutNew? then steps[0].id else NewId(steps[1..])
  }

  /** The run from `before` to `after` wrote a successful answer to the log. */
  predicate Answers(before: State, after: State) {
    exists i :: |before.log| <= i < |after.log| && after.log[i].Succeeded?
  }

  // --- what a handler has yet to do ------------------------------------------------------

  function Rewritten(f: Files, k: Key, back: Back, now: int): Files {
    match back
    case NoBack => f
    case Back(token, ttl) => AfterPut(f, k, RefreshDoc(token), ttl, now)
  }

  function Dropped(f: Files, r: Request): Files {
    if r.RevokeRequest? then AfterDestroy(f, KeyOfRequest(r)) else f
  }

  /** The store a handler in this phase ends with, `id` being the new token's. */
  function Rest(f: Files, r: Request, phase: Phase, id: string, now: int): Files {
    var k := KeyOfRequest(r);
    match phase
    case Minting(next, back) => Rewritten(AfterMint(f, next, id, now), k, back, now)
    case Indexing(grant, i, back) => Rewritten(AfterAddToGrant(f, grant, RefreshKey(i)), k, back, now)
    case PuttingBack(token, ttl) => AfterPut(f, k, RefreshDoc(token), ttl, now)
    case Revoking(grant) => Dropped(AfterRevokeGrant(f, grant), r)
    case Destroying(grant, left) => Dropped(Files(f.docs - RefreshKeys(left), f.grants - {grant}), r)
    case Dropping => AfterDestroy(f, k)
    case _ => f
  }

  function Decided(cfg: Config, r: Request, phase: Phase, now: int): Phase {
    match phase
    case Renamed(entry, present) => AfterRead(cfg, r, entry, present, now)
    case _ => phase
  }

  predicate WillAnswer(phase: Phase) {
    phase.Minting? || phase.Indexing? || phase.PuttingBack? || phase.Responding?
  }

  /** What one of its own steps does to the store, on the whole-handler model's side. */
  function Stepped(f: Files, r: Request, step: Step, phase: Phase, now: int): Files {
    match (step, phase)
    case (PutNew(_, id), Minting(next, _)) => AfterPut(f, RefreshKey(id), RefreshDoc(next), REFRESH_TTL_MS, now)
    case (AddIndex(_), Indexing(grant, id, _)) => AfterAddToGrant(f, grant, RefreshKey(id))
    case (PutBack(_), PuttingBack(token, ttl)) => AfterPut(f, KeyOfRequest(r), RefreshDoc(token), ttl, now)
    case (Remove(_, id), Destroying(_, _)) => AfterDestroy(f, RefreshKey(id))
    case (Unlock(_), Destroying(grant, _)) => f.(grants := f.grants - {grant})
    case (Drop(_), Dropping) => AfterDestroy(f, KeyOfRequest(r))
    case _ => f
  }

  lemma SteppedIndex(s: State, f: Files, step: Step, r: Request, phase: Phase, s': State)
    requires Indexed(s, f) && s'.index == IndexAfter(s, step, phase)
    ensures Indexed(s', Stepped(f, r, step, phase, s.now))
  {
    var f' := Stepped(f, r, step, phase, s.now);
    forall g ensures SameList(Listed(s', g), RefsOf(f', g)) {
      assert SameList(Listed(s, g), RefsOf(f, g));
      if step.AddIndex? && phase.Indexing? && g == phase.grant && g != "" {
        ListedAgain(Listed(s, g), RefsOf(f, g), phase.id);
      }
    }
  }

  lemma SteppedMatches(cfg: Config, s: State, f: Files, t: nat, step: Step)
    requires Matches(s, f) && Enabled(s, step) && OwnStep(step, t) && t in s.threads && !s.threads[t].phase.Begun?
    ensures
      var r, phase := s.threads[t].request, s.threads[t].phase;
      Matches(Next(cfg, s, step), Stepped(f, r, step, phase, s.now))
  {
    var r, phase := s.threads[t].request, s.threads[t].phase;
    assert Next(cfg, s, step) == NextOf(cfg, s, step, r, phase);
    SteppedIndex(s, f, step, r, phase, Next(cfg, s, step));
  }

  lemma ListRevoked(s: State, f: Files, g: string)
    requires Indexed(s, f)
    ensures AfterRevokeGrant(f, g) == Files(f.docs - RefreshKeys(Listed(s, g)), f.grants - {g})
  {
    assert SameList(Listed(s, g), RefsOf(f, g));
  }

  lemma RemovedOne(docs: map<Key, Document>, left: set<string>, id: string)
    requires id in left
    ensures (docs - {RefreshKey(id)}) - RefreshKeys(left - {id}) == docs - RefreshKeys(left)
  {
    assert RefreshKeys(left) == {RefreshKey(id)} + RefreshKeys(left - {id});
  }

  lemma RemovedAll(docs: map<Key, Document>)
    ensures docs - RefreshKeys({}) == docs
  {
  }

  /** A step moves work from the rest into the store, and changes nothing of the outcome. */
  lemma RestKept(cfg: Config, s: State, f: Files, t: nat, step: Step, id: string)
    requires Indexed(s, f) && Enabled(s, step) && OwnStep(step, t) && t in s.threads && !s.threads[t].phase.Begun?
    requires step.PutNew? ==> step.id == id
    ensures
      var r, phase := s.threads[t].request, s.threads[t].phase;
      var phase' := PhaseAfter(cfg, s, step, r, phase);
      && Rest(Stepped(f, r, step, phase, s.now), r, Decided(cfg, r, phase', s.now), id, s.now)
         == Rest(f, r, Decided(cfg, r, phase, s.now), id, s.now)
  {
    match s.threads[t].phase {
      case Revoking(grant) => ListRevoked(s, f, grant);
      case Destroying(grant, left) =>
        if step.Remove? {
          RemovedOne(f.docs, left, step.id);
        } else {
          RemovedAll(f.docs);
        }
      case _ =>
    }
  }

  lemma AnswerKept(cfg: Config, s: State, t: nat, step: Step)
    requires Enabled(s, step) && OwnStep(step, t) && t in s.threads && !s.threads[t].phase.Begun?
    ensures
      var r, phase := s.threads[t].request, s.threads[t].phase;
      WillAnswer(Decided(cfg, r, phase, s.now)) <==>
        step.Respond? || WillAnswer(Decided(cfg, r, PhaseAfter(cfg, s, step, r, phase), s.now))
  {
  }

  lemma AnswersNext(cfg: Config, s: State, step: Step, rest: seq<Step>)
    requires Enabled(s, step) && Runnable(cfg, Next(cfg, s, step), rest)
    ensures
      var s' := Run(cfg, Next(cfg, s, step), rest);
      Answers(s, s') <==> step.Respond? || Answers(Next(cfg, s, step), s')
  {
    var s1 := Next(cfg, s, step);
    var s' := Run(cfg, s1, rest);
    LogAppends(cfg, s, step);
    LogPrefix(cfg, s1, rest);
    if step.Respond? {
      assert s'.log[|s.log|] == s1.log[|s.log|];
    }
  }

  lemma {:induction false} OwnRun(cfg: Config, s: State, f: Files, t: nat, steps: seq<Step>)
    requires Matches(s, f) && t in s.threads && !s.threads[t].phase.Begun?
    requires Runnable(cfg, s, steps) && Own(steps, t) && Done(Run(cfg, s, steps), t)
    ensures
      var s', r, phase := Run(cfg, s, steps), s.threads[t].request,
        Decided(cfg, s.threads[t].request, s.threads[t].phase, s.now);
      && Matches(s', Rest(f, r, phase, NewId(steps), s.now))
      && (Answers(s, s') <==> WillAnswer(phase))
    decreases |steps|
  {
    if steps != [] {
      var step, s1 := steps[0], Next(cfg, s, steps[0]);
      var r, phase := s.threads[t].request, s.threads[t].phase;
      ThreadsMove(cfg, s, step);
      assert s1.threads[t] == Thread(r, PhaseAfter(cfg, s, step, r, phase));
      SteppedMatches(cfg, s, f, t, step);
      RestKept(cfg, s, f, t, step, NewId(steps));
      AnswerKept(cfg, s, t, step);
      AnswersNext(cfg, s, step, steps[1..]);
      OwnRun(cfg, s1, Stepped(f, r, step, phase, s.now), t, steps[1..]);
    }
  }

  // --- whole handlers ---------------------------------------------------------------------

  /** The first step renames the file, or reads it for a revocation. */
  function Opening(f: Files, r: Request, now: int): Files {
    if r.RevokeRequest? then AfterGet(f, KeyOfRequest(r), now) else AfterClaim(f, KeyOfRequest(r))
  }

  lemma FirstStep(cfg: Config, s: State, f: Files, t: nat, steps: seq<Step>)
    requires Matches(s, f) && t in s.threads && s.threads[t].phase.Begun?
    requires Runnable(cfg, s, steps) && Own(steps, t) && Done(Run(cfg, s, steps), t)
    ensures steps != []
    ensures
      var s1, r := Next(cfg, s, steps[0]), s.threads[t].request;
      && Matches(s1, Opening(f, r, s.now)) && t in s1.threads && !s1.threads[t].phase.Begun?
      && s1.threads[t].request == r && s1.now == s.now
      && Decided(cfg, r, s1.threads[t].phase, s.now) ==
           (if r.RevokeRequest? then LookedUp(s, r.client, KeyOfRequest(r))
            else if Live(f, KeyOfRequest(r), s.now) then AfterRead(cfg, r, s.files[KeyOfRequest(r)], true, s.now)
            else Finished)
  {
    var r, k := s.threads[t].request, KeyOfRequest(s.threads[t].request);
    var step, s1 := steps[0], Next(cfg, s, steps[0]);
    assert s1 == NextOf(cfg, s, step, r, Begun);
    IndexUntouched(s, f, s1, Opening(f, r, s.now));
    assert k !in f.docs ==> f.docs - {k} == f.docs;
  }

  lemma HandlerRun(cfg: Config, s: State, f: Files, t: nat, steps: seq<Step>)
    requires Matches(s, f) && t in s.threads && s.threads[t].phase.Begun?
    requires Runnable(cfg, s, steps) && Own(steps, t) && Done(Run(cfg, s, steps), t)
    ensures steps != []
    ensures
      var s', s1, r := Run(cfg, s, steps), Next(cfg, s, steps[0]), s.threads[t].request;
      && t in s1.threads
      && var phase := Decided(cfg, r, s1.threads[t].phase, s.now);
      && Matches(s', Rest(Opening(f, r, s.now), r, phase, NewId(steps), s.now))
      && (Answers(s, s') <==> WillAnswer(phase))
  {
    FirstStep(cfg, s, f, t, steps);
    OwnRun(cfg, Next(cfg, s, steps[0]), Opening(f, s.threads[t].request, s.now), t, steps[1..]);
    AnswersNext(cfg, s, steps[0], steps[1..]);
  }

  /**
   In whatever order a refresh handler takes its own steps, uninterrupted and to the end, it
   leaves the store and gives the answer that `Refresh` states.
   */
  lemma RefreshAlone(cfg: Config, s: State, f: Files, t: nat, steps: seq<Step>, jti: string)
    requires Matches(s, f) && t in s.threads && s.threads[t].phase.Begun? && s.threads[t].request.RefreshRequest?
    requires Runnable(cfg, s, steps) && Own(steps, t) && Done(Run(cfg, s, steps), t)
    ensures
      var s', r := Run(cfg, s, steps), s.threads[t].request;
      var (f', reply) := Refresh(cfg, f, r.client, r.presented, s.now, jti, NewId(steps));
      Matches(s', f') && (Answers(s, s') <==> reply.Granted?)
  {
    FirstStep(cfg, s, f, t, steps);
    HandlerRun(cfg, s, f, t, steps);
    RefreshIs(cfg, s, f, s.threads[t].request, NewId(steps), jti);
  }

  /** Where a claimed document sends the handler. */
  function Verdict(cfg: Config, s: State, f: Files, r: Request): Phase
    requires s.files.Keys == f.docs.Keys
  {
    var k := KeyOfRequest(r);
    if Live(f, k, s.now) then AfterRead(cfg, r, s.files[k], true, s.now) else Finished
  }

  lemma RefreshIs(cfg: Config, s: State, f: Files, r: Request, id: string, jti: string)
    requires Matches(s, f) && r.RefreshRequest?
    ensures
      var (f', reply) := Refresh(cfg, f, r.client, r.presented, s.now, jti, id);
      && f' == Rest(AfterClaim(f, KeyOfRequest(r)), r, Verdict(cfg, s, f, r), id, s.now)
      && (reply.Granted? <==> WillAnswer(Verdict(cfg, s, f, r)))
  {
  }

  /** Likewise the code redemption handler and `RedeemCode`. */
  lemma RedeemAlone(cfg: Config, s: State, f: Files, t: nat, steps: seq<Step>, jti: string)
    requires Matches(s, f) && t in s.threads && s.threads[t].phase.Begun? && s.threads[t].request.RedeemRequest?
    requires Runnable(cfg, s, steps) && Own(steps, t) && Done(Run(cfg, s, steps), t)
    ensures
      var s', r := Run(cfg, s, steps), s.threads[t].request;
      var (f', reply) := RedeemCode(cfg, f, r.client, r.code, r.redirectUri, r.verifier, s.now, jti, NewId(steps));
      Matches(s', f') && (Answers(s, s') <==> reply.Granted?)
  {
    FirstStep(cfg, s, f, t, steps);
    HandlerRun(cfg, s, f, t, steps);
    RedeemIs(cfg, s, f, s.threads[t].request, NewId(steps), jti);
  }

  lemma RedeemIs(cfg: Config, s: State, f: Files, r: Request, id: string, jti: string)
    requires Matches(s, f) && r.RedeemRequest?
    ensures
      var (f', reply) := RedeemCode(cfg, f, r.client, r.code, r.redirectUri, r.verifier, s.now, jti, id);
      && f' == Rest(AfterClaim(f, KeyOfRequest(r)), r, Verdict(cfg, s, f, r), id, s.now)
      && (reply.Granted? <==> WillAnswer(Verdict(cfg, s, f, r)))
  {
  }

  /** And the revocation handler and `DropToken`; reading an expired token also removes it. */
  lemma RevocationAlone(cfg: Config, s: State, f: Files, t: nat, steps: seq<Step>)
    requires Matches(s, f) && t in s.threads && s.threads[t].phase.Begun? && s.threads[t].request.RevokeRequest?
    requires Runnable(cfg, s, steps) && Own(steps, t) && Done(Run(cfg, s, steps), t)
    ensures
      var s', r := Run(cfg, s, steps), s.threads[t].request;
      Matches(s', DropToken(f, r.client.id, r.token, s.now)) && !Answers(s, s')
  {
    var r := s.threads[t].request;
    FirstStep(cfg, s, f, t, steps);
    HandlerRun(cfg, s, f, t, steps);
    DropIs(s, f, r, NewId(steps));
  }

  lemma DropIs(s: State, f: Files, r: Request, id: string)
    requires Matches(s, f) && r.RevokeRequest?
    ensures
      var phase := LookedUp(s, r.client, KeyOfRequest(r));
      && DropToken(f, r.client.id, r.token, s.now) == Rest(AfterGet(f, KeyOfRequest(r), s.now), r, phase, id, s.now)
      && !WillAnswer(phase)
  {
  }

  // --- such a schedule exists ----------------------------------------------------------------

  function Ahead(phase: Phase): nat {
    match phase
    case Begun => 9
    case Renamed(_, _) => 8
    case Revoking(_) => 7
    case Destroying(_, _) => 6
    case Minting(_, _) => 5
    case Indexing(_, _, _) => 4
    case PuttingBack(_, _) => 3
    case Responding(_) => 2
    case Dropping => 1
    case Finished => 0
  }

  function Pending(phase: Phase): nat {
    match phase
    case Destroying(_, left) => |left|
    case _ => 0
  }

  lemma SomeOwnStep(cfg: Config, s: State, t: nat) returns (step: Step)
    requires t in s.threads && !s.threads[t].phase.Finished?
    requires s.lock == if s.threads[t].phase.Destroying? then Some(t) else None
    ensures Enabled(s, step) && OwnStep(step, t)
    ensures
      var s' := Next(cfg, s, step);
      && t in s'.threads && s'.lock == (if s'.threads[t].phase.Destroying? then Some(t) else None)
      && (Ahead(s'.threads[t].phase) < Ahead(s.threads[t].phase)
          || (Ahead(s'.threads[t].phase) == Ahead(s.threads[t].phase)
              && Pending(s'.threads[t].phase) < Pending(s.threads[t].phase)))
  {
    match s.threads[t].phase {
      case Begun => step := if s.threads[t].request.RevokeRequest? then Look(t) else Rename(t);
      case Renamed(_, _) => step := Read(t);
      case Minting(_, _) =>
        var id := FreshExists(s.used);
        step := PutNew(t, id);
      case Indexing(_, _, _) => step := AddIndex(t);
      case PuttingBack(_, _) => step := PutBack(t);
      case Responding(_) => step := Respond(t);
      case Revoking(_) => step := Lock(t);
      case Destroying(_, left) =>
        step := Unlock(t);
        if id :| id in left {
          step := Remove(t, id);
        }
      case Dropping => step := Drop(t);
    }
    assert Next(cfg, s, step) == NextOf(cfg, s, step, s.threads[t].request, s.threads[t].phase);
  }

  /** A handler that nobody interrupts can finish, as soon as nobody else holds the index mutex. */
  lemma {:induction false} OwnScheduleExists(cfg: Config, s: State, t: nat) returns (steps: seq<Step>)
    requires t in s.threads && s.lock == if s.threads[t].phase.Destroying? then Some(t) else None
    ensures Runnable(cfg, s, steps) && Own(steps, t) && Done(Run(cfg, s, steps), t)
    decreases Ahead(s.threads[t].phase), Pending(s.threads[t].phase)
  {
    if s.threads[t].phase.Finished? {
      steps := [];
    } else {
      var step := SomeOwnStep(cfg, s, t);
      var rest := OwnScheduleExists(cfg, Next(cfg, s, step), t);
      OneStep(cfg, s, step, rest);
      steps := [step] + rest;
    }
  }
}
