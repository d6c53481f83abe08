/**
 When revocation is final although other handlers are in the middle of their work: exactly
 when no handler that already took a document of the grant can still answer or write.
 */
module InterleavedRevocation {
  import opened Wrappers
  import opened Records
  import opened DocumentStore
  import opened TokenPolicy
  import opened Interleaving
  import opened InterleavingTheorems

  /** The grant a document was issued under. */
  function GrantOf(p: Payload): Option<string> {
    match p
    case CodeDoc(a) => Some(a.grantId)
    case RefreshDoc(rt) => Some(rt.grantId)
    case _ => None
  }

  predicate Absent(files: map<Key, Stored>, g: string) {
    forall k :: k in files ==> GrantOf(files[k].doc.payload) != Some(g)
  }

  predicate NoneAnswered(log: seq<Event>, from: nat, g: string) {
    forall i :: from <= i < |log| && log[i].Succeeded? ==> log[i].grant != g
  }

  /** The handler is past every check and will write or answer for the grant. */
  predicate Heading(phase: Phase, g: string) {
    match phase
    case Minting(next, _) => next.grantId == g
    case Indexing(grant, _, _) => grant == g
    case PuttingBack(token, _) => token.grantId == g
    case Responding(grant) => grant == g
    case _ => false
  }

  /** As `Heading`, or the handler's own document, read now, would send it there. */
  predicate InFlight(cfg: Config, s: State, t: nat, g: string)
    requires t in s.threads
  {
    var th := s.threads[t];
    match th.phase
    case Renamed(entry, present) => Heading(AfterRead(cfg, th.request, entry, present, s.now), g)
    case phase => Heading(phase, g)
  }

  // --- what every state keeps ---------------------------------------------------

  predicate BackAgrees(phase: Phase) {
    match phase
    case Minting(next, Back(token, _)) => token.grantId == next.grantId
    case Indexing(grant, _, Back(token, _)) => token.grantId == grant
    case _ => true
  }

  /** The index mutex is held by a handler that is destroying what it listed. */
  ghost predicate Orderly(s: State) {
    (forall t :: t in s.threads ==> BackAgrees(s.threads[t].phase)) && Locked(s)
  }

  ghost predicate Locked(s: State) {
    && (s.lock.Some? ==> s.lock.value in s.threads && s.threads[s.lock.value].phase.Destroying?)
    && (forall t :: t in s.threads && s.threads[t].phase.Destroying? ==> s.lock == Some(t))
  }

  lemma BackKept(cfg: Config, s: State, step: Step, t: nat)
    requires Orderly(s) && Enabled(s, step) && t in Next(cfg, s, step).threads
    ensures BackAgrees(Next(cfg, s, step).threads[t].phase)
  {
    if t in s.threads {
      assert BackAgrees(s.threads[t].phase);
    }
  }

  lemma LockMoves(cfg: Config, s: State, step: Step)
    requires Locked(s) && Enabled(s, step) && OfThread(step)
    ensures
      var s', t := Next(cfg, s, step), step.t;
      t in s'.threads && (s'.threads[t].phase.Destroying? <==> s'.lock == Some(t)) && (s'.lock != Some(t) ==>
        (if s.lock == Some(t) then s'.lock == None else s'.lock == s.lock))
      && (s'.lock == Some(t) ==> s.lock == None || s.lock == Some(t))
  {
    assert Next(cfg, s, step) == NextOf(cfg, s, step, s.threads[step.t].request, s.threads[step.t].phase);
  }

  lemma OrderlyKept(cfg: Config, s: State, step: Step)
    requires Orderly(s) && Enabled(s, step)
    ensures Orderly(Next(cfg, s, step))
  {
    var s' := Next(cfg, s, step);
    forall t | t in s'.threads ensures BackAgrees(s'.threads[t].phase) {
      BackKept(cfg, s, step, t);
    }
    if OfThread(step) {
      ThreadsMove(cfg, s, step);
      LockMoves(cfg, s, step);
    }
  }

  lemma {:induction false} RunKeepsOrder(cfg: Config, s: State, steps: seq<Step>)
    requires Orderly(s) && Runnable(cfg, s, steps)
    ensures Orderly(Run(cfg, s, steps))
    decreases |steps|
  {
    if steps != [] {
      OrderlyKept(cfg, s, steps[0]);
      RunKeepsOrder(cfg, Next(cfg, s, steps[0]), steps[1..]);
    }
  }

  // --- a dead grant stays dead -----------------------------------------------------

  ghost predicate Dead(cfg: Config, s: State, g: string) {
    && g in s.used
    && Absent(s.files, g)
    && forall t :: t in s.threads ==> !InFlight(cfg, s, t, g)
  }

  lemma ReadLater(cfg: Config, r: Request, entry: Stored, present: bool, now: int, later: int, g: string)
    requires now <= later && Heading(AfterRead(cfg, r, entry, present, later), g)
    ensures Heading(AfterRead(cfg, r, entry, present, now), g)
    ensures GrantOf(entry.doc.payload) == Some(g)
  {
  }

  lemma MoverStaysOut(cfg: Config, s: State, step: Step, g: string)
    requires Orderly(s) && Dead(cfg, s, g) && Enabled(s, step) && OfThread(step)
    ensures
      var s' := Next(cfg, s, step);
      step.t in s'.threads && !InFlight(cfg, s', step.t, g)
  {
    ThreadsMove(cfg, s, step);
    assert !InFlight(cfg, s, step.t, g);
    var r, phase := s.threads[step.t].request, s.threads[step.t].phase;
    assert Next(cfg, s, step) == NextOf(cfg, s, step, r, phase);
  }

  lemma NoDocumentReturns(cfg: Config, s: State, step: Step, g: string)
    requires Dead(cfg, s, g) && Enabled(s, step)
    ensures Absent(Next(cfg, s, step).files, g)
  {
    if OfThread(step) {
      assert !InFlight(cfg, s, step.t, g);
    }
  }

  lemma NoAnswerComes(cfg: Config, s: State, step: Step, g: string)
    requires Dead(cfg, s, g) && Enabled(s, step)
    ensures NoneAnswered(Next(cfg, s, step).log, |s.log|, g)
  {
    LogAppends(cfg, s, step);
    if OfThread(step) {
      assert !InFlight(cfg, s, step.t, g);
    }
  }

  lemma DeadStays(cfg: Config, s: State, step: Step, g: string)
    requires Orderly(s) && Dead(cfg, s, g) && Enabled(s, step)
    ensures Dead(cfg, Next(cfg, s, step), g)
    ensures NoneAnswered(Next(cfg, s, step).log, |s.log|, g)
  {
    var s' := Next(cfg, s, step);
    NoDocumentReturns(cfg, s, step, g);
    NoAnswerComes(cfg, s, step, g);
    if OfThread(step) {
      ThreadsMove(cfg, s, step);
      MoverStaysOut(cfg, s, step, g);
    } else {
      forall t | t in s'.threads ensures !InFlight(cfg, s', t, g) {
        if t in s.threads && s.threads[t].phase.Renamed? && InFlight(cfg, s', t, g) {
          var phase := s.threads[t].phase;
          ReadLater(cfg, s.threads[t].request, phase.entry, phase.present, s.now, s'.now, g);
        }
      }
    }
  }

  lemma {:induction false} DeadForever(cfg: Config, s: State, steps: seq<Step>, g: string)
    requires Orderly(s) && Dead(cfg, s, g) && Runnable(cfg, s, steps)
    ensures Dead(cfg, Run(cfg, s, steps), g)
    ensures |s.log| <= |Run(cfg, s, steps).log| && NoneAnswered(Run(cfg, s, steps).log, |s.log|, g)
    decreases |steps|
  {
    if steps != [] {
      var s1 := Next(cfg, s, steps[0]);
      OrderlyKept(cfg, s, steps[0]);
      DeadStays(cfg, s, steps[0], g);
      DeadForever(cfg, s1, steps[1..], g);
      LogAppends(cfg, s, steps[0]);
      LogPrefix(cfg, s1, steps[1..]);
    }
  }

  lemma {:induction false} LogPrefix(cfg: Config, s: State, steps: seq<Step>)
    requires Runnable(cfg, s, steps)
    ensures s.log <= Run(cfg, s, steps).log
    decreases |steps|
  {
    if steps != [] {
      LogAppends(cfg, s, steps[0]);
      LogPrefix(cfg, Next(cfg, s, steps[0]), steps[1..]);
    }
  }

  // --- a handler in flight can finish ------------------------------------------------

  lemma OneStep(cfg: Config, s: State, step: Step, rest: seq<Step>)
    requires Enabled(s, step) && Runnable(cfg, Next(cfg, s, step), rest)
    ensures Runnable(cfg, s, [step] + rest)
    ensures Run(cfg, s, [step] + rest) == Run(cfg, Next(cfg, s, step), rest)
  {
    assert ([step] + rest)[1..] == rest;
  }

  /** Whoever holds the index mutex can let it go, leaving the other handlers as they are. */
  lemma {:induction false} LockIsReleased(cfg: Config, s: State, t: nat) returns (steps: seq<Step>)
    requires Orderly(s) && t in s.threads && !s.threads[t].phase.Destroying?
    ensures Runnable(cfg, s, steps)
    ensures
      var s' := Run(cfg, s, steps);
      s'.lock == None && Orderly(s') && t in s'.threads && s'.threads[t] == s.threads[t] && s'.now == s.now
    decreases if s.lock.Some? then |s.threads[s.lock.value].phase.left| + 1 else 0
  {
    if s.lock == None {
      steps := [];
    } else {
      var u := s.lock.value;
      var left := s.threads[u].phase.left;
      var step := Unlock(u);
      if id :| id in left {
        step := Remove(u, id);
      }
      OrderlyKept(cfg, s, step);
      var rest := LockIsReleased(cfg, Next(cfg, s, step), t);
      OneStep(cfg, s, step, rest);
      steps := [step] + rest;
    }
  }

  /** How many of its own steps a handler in flight still has to take. */
  function ToGo(phase: Phase): nat {
    match phase
    case Renamed(_, _) => 5
    case Minting(_, _) => 4
    case Indexing(_, _, _) => 3
    case PuttingBack(_, _) => 2
    case Responding(_) => 1
    case _ => 0
  }

  lemma OwnStep(cfg: Config, s: State, t: nat, g: string) returns (step: Step)
    requires Orderly(s) && s.lock == None && t in s.threads && InFlight(cfg, s, t, g)
    requires !s.threads[t].phase.Responding?
    ensures
      var s' := Next(cfg, s, step);
      && Enabled(s, step) && s'.lock == None && |s.log| <= |s'.log|
      && t in s'.threads && InFlight(cfg, s', t, g) && s'.threads[t].request == s.threads[t].request
      && ToGo(s'.threads[t].phase) < ToGo(s.threads[t].phase)
  {
    match s.threads[t].phase {
      case Renamed(_, _) => step := Read(t);
      case Minting(_, _) =>
        var id := FreshExists(s.used);
        step := PutNew(t, id);
      case Indexing(_, _, _) => step := AddIndex(t);
      case PuttingBack(_, _) => step := PutBack(t);
    }
    assert Next(cfg, s, step) == NextOf(cfg, s, step, s.threads[t].request, s.threads[t].phase);
  }

  lemma {:induction false} Completes(cfg: Config, s: State, t: nat, g: string) returns (steps: seq<Step>)
    requires Orderly(s) && s.lock == None && t in s.threads && InFlight(cfg, s, t, g)
    ensures Runnable(cfg, s, steps) && !NoneAnswered(Run(cfg, s, steps).log, |s.log|, g)
    decreases ToGo(s.threads[t].phase)
  {
    if s.threads[t].phase.Responding? {
      steps := [Respond(t)];
      var s' := Next(cfg, s, Respond(t));
      OneStep(cfg, s, Respond(t), []);
      assert s'.log[|s.log|] == Succeeded(t, s.threads[t].request, g);
    } else {
      var step := OwnStep(cfg, s, t, g);
      OrderlyKept(cfg, s, step);
      var rest := Completes(cfg, Next(cfg, s, step), t, g);
      OneStep(cfg, s, step, rest);
      steps := [step] + rest;
    }
  }

  // --- the theorem --------------------------------------------------------------------

  ghost predicate Final(cfg: Config, s: State, g: string) {
    forall steps {:trigger Runnable(cfg, s, steps)} :: Runnable(cfg, s, steps) ==>
      Absent(Run(cfg, s, steps).files, g) && NoneAnswered(Run(cfg, s, steps).log, |s.log|, g)
  }

  /**
   Once no document of a grant is left in the directory, no continuation brings one back or
   answers for the grant if and only if no handler is in flight with one.
   */
  lemma RevocationIsFinalExactly(cfg: Config, s: State, g: string)
    requires Reachable(cfg, s) && g in s.used && Absent(s.files, g)
    ensures Final(cfg, s, g) <==> forall t :: t in s.threads ==> !InFlight(cfg, s, t, g)
  {
    var before :| Runnable(cfg, START, before) && s == Run(cfg, START, before);
    RunKeepsOrder(cfg, START, before);
    if Dead(cfg, s, g) {
      forall steps | Runnable(cfg, s, steps)
        ensures Absent(Run(cfg, s, steps).files, g) && NoneAnswered(Run(cfg, s, steps).log, |s.log|, g)
      {
        DeadForever(cfg, s, steps, g);
      }
    } else {
      var t :| t in s.threads && InFlight(cfg, s, t, g);
      SomeoneAnswers(cfg, s, t, g);
    }
  }

  lemma SomeoneAnswers(cfg: Config, s: State, t: nat, g: string)
    requires Orderly(s) && t in s.threads && InFlight(cfg, s, t, g)
    ensures !Final(cfg, s, g)
  {
    var first := LockIsReleased(cfg, s, t);
    var s1 := Run(cfg, s, first);
    var second := Completes(cfg, s1, t, g);
    RunConcat(cfg, s, first, second);
    LogPrefix(cfg, s, first);
    assert Runnable(cfg, s, first + second);
  }

  lemma {:induction false} RunConcat(cfg: Config, s: State, first: seq<Step>, second: seq<Step>)
    requires Runnable(cfg, s, first) && Runnable(cfg, Run(cfg, s, first), second)
    ensures Runnable(cfg, s, first + second)
    ensures Run(cfg, s, first + second) == Run(cfg, Run(cfg, s, first), second)
    decreases |first|
  {
    if first == [] {
      assert first + second == second;
    } else {
      var s1 := Next(cfg, s, first[0]);
      RunConcat(cfg, s1, first[1..], second);
      assert first + second == [first[0]] + (first[1..] + second);
      OneStep(cfg, s, first[0], first[1..] + second);
    }
  }
}
