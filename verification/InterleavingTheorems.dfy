/** What holds of the token endpoints under every interleaving of store operations. */
module InterleavingTheorems {
  import opened Wrappers
  import opened Records
  import opened TokenPolicy
  import opened Handlers
  import opened Interleaving

  // --- claims in the log ------------------------------------------------------

  /** The claim at position `a` has been given back. */
  ghost predicate Settled(log: seq<Event>, a: nat)
    requires a < |log| && log[a].Claimed?
  {
    Restored(log[a].thread, log[a].key) in log[a + 1..]
  }

  predicate IsClaim(log: seq<Event>, a: int, k: Key) {
    0 <= a < |log| && log[a].Claimed? && log[a].key == k
  }

  /** Between two claims of one document the first claimant gives it back. */
  ghost predicate Ordered(log: seq<Event>) {
    forall a: nat, b: nat, k :: a < b && IsClaim(log, a, k) && IsClaim(log, b, k) ==>
      Restored(log[a].thread, k) in log[a + 1..b]
  }

  /** No handler answers twice. */
  predicate AnsweredOnce(log: seq<Event>) {
    forall i, j :: 0 <= i < j < |log| && log[i].Succeeded? && log[j].Succeeded? ==> log[i].thread != log[j].thread
  }

  ghost predicate HasClaimed(s: State, t: nat) {
    t in s.threads && Claimed(t, KeyOfRequest(s.threads[t].request)) in s.log
  }

  ghost predicate EventOk(s: State, e: Event) {
    && e.thread in s.threads && !s.threads[e.thread].phase.Begun?
    && match e
       case Claimed(t, k) => k == KeyOfRequest(s.threads[t].request) && k.id in s.used
       case Restored(t, k) =>
         && k == KeyOfRequest(s.threads[t].request) && s.threads[t].request.RefreshRequest?
         && (s.threads[t].phase.Responding? || s.threads[t].phase.Finished?)
       case Succeeded(t, r, _) =>
         && s.threads[t] == Thread(r, Finished) && HasClaimed(s, t)
         && (r.RefreshRequest? ==> Restored(t, KeyOfRequest(r)) in s.log)
       case Revoked(_, _) => true
  }

  /** The handler still has the presented refresh token to write back. */
  predicate Returning(phase: Phase) {
    match phase
    case Minting(_, back) => back.Back?
    case Indexing(_, _, back) => back.Back?
    case PuttingBack(_, _) => true
    case _ => false
  }

  ghost predicate ThreadOk(s: State, t: nat)
    requires t in s.threads
  {
    var th := s.threads[t];
    && (th.phase.Renamed? || th.phase.Minting? || th.phase.Indexing? || th.phase.PuttingBack? || th.phase.Responding?
        ==> HasClaimed(s, t) && !th.request.RevokeRequest?)
    && (th.phase.Minting? || th.phase.Indexing? || th.phase.PuttingBack?
        ==> (Returning(th.phase) <==> th.request.RefreshRequest?))
    && (th.phase.Responding? && th.request.RefreshRequest? ==> Restored(t, KeyOfRequest(th.request)) in s.log)
  }

  ghost predicate LogOk(s: State) {
    && Exclusive(s)
    && (forall e {:trigger EventOk(s, e)} :: e in s.log ==> EventOk(s, e))
    && (forall t {:trigger ThreadOk(s, t)} :: t in s.threads ==> ThreadOk(s, t))
    && Ordered(s.log)
    && AnsweredOnce(s.log)
    && (forall a: nat, k | IsClaim(s.log, a, k) && k in s.files :: Settled(s.log, a))
    && (forall a: nat, k, t | IsClaim(s.log, a, k) && t in s.threads && Holds(s.threads[t]) == Some(k)
        && s.log[a].thread != t :: Settled(s.log, a))
  }

  lemma SettledGrows(log: seq<Event>, added: seq<Event>, a: nat)
    requires a < |log| && log[a].Claimed? && (Settled(log, a) || Restored(log[a].thread, log[a].key) in added)
    ensures Settled(log + added, a)
  {
    assert (log + added)[a + 1..] == log[a + 1..] + added;
  }

  lemma OrderedGrows(log: seq<Event>, e: Event)
    requires Ordered(log)
    requires e.Claimed? ==> forall a: nat :: IsClaim(log, a, e.key) ==> Settled(log, a)
    ensures Ordered(log + [e])
  {
    var log' := log + [e];
    forall a: nat, b: nat, k | a < b && IsClaim(log', a, k) && IsClaim(log', b, k)
      ensures Restored(log'[a].thread, k) in log'[a + 1..b]
    {
      assert IsClaim(log, a, k);
      if b < |log| {
        assert IsClaim(log, b, k);
        assert log'[a + 1..b] == log[a + 1..b];
      } else {
        assert log'[a + 1..b] == log[a + 1..];
      }
    }
  }

  // --- one step --------------------------------------------------------------

  /** The events a step writes to the log. */
  function Logged(s: State, step: Step): seq<Event>
    requires OfThread(step) ==> step.t in s.threads
  {
    if OfThread(step) then Events(s, step, s.threads[step.t].request, s.threads[step.t].phase) else []
  }

  lemma LogAppends(cfg: Config, s: State, step: Step)
    requires Enabled(s, step)
    ensures Next(cfg, s, step).log == s.log + Logged(s, step)
  {
  }

  lemma ThreadsMove(cfg: Config, s: State, step: Step)
    requires Enabled(s, step) && OfThread(step)
    ensures
      var s', t := Next(cfg, s, step), step.t;
      && t in s'.threads && s'.threads == s.threads[t := s'.threads[t]]
      && s'.threads[t].request == s.threads[t].request
      && !s'.threads[t].phase.Begun? && !s.threads[t].phase.Finished? && s.used <= s'.used
  {
  }

  lemma EventsKept(cfg: Config, s: State, step: Step)
    requires LogOk(s) && Enabled(s, step)
    ensures
      var s' := Next(cfg, s, step);
      forall e {:trigger EventOk(s', e)} :: e in s'.log ==> EventOk(s', e)
  {
    var s' := Next(cfg, s, step);
    LogAppends(cfg, s, step);
    if OfThread(step) {
      ThreadsMove(cfg, s, step);
      assert ThreadOk(s, step.t);
    }
    forall e | e in s'.log ensures EventOk(s', e) {
      if e in s.log {
        assert EventOk(s, e);
      }
    }
  }

  lemma MoverKept(cfg: Config, s: State, step: Step)
    requires Enabled(s, step) && OfThread(step) && ThreadOk(s, step.t)
    ensures
      var s' := Next(cfg, s, step);
      step.t in s'.threads && ThreadOk(s', step.t)
  {
    ThreadsMove(cfg, s, step);
    LogAppends(cfg, s, step);
  }

  lemma ThreadsKept(cfg: Config, s: State, step: Step)
    requires LogOk(s) && Enabled(s, step)
    ensures
      var s' := Next(cfg, s, step);
      forall t {:trigger ThreadOk(s', t)} :: t in s'.threads ==> ThreadOk(s', t)
  {
    var s' := Next(cfg, s, step);
    LogAppends(cfg, s, step);
    if OfThread(step) {
      ThreadsMove(cfg, s, step);
      assert ThreadOk(s, step.t);
      MoverKept(cfg, s, step);
    }
    forall t | t in s'.threads ensures ThreadOk(s', t) {
      if t in s.threads && !(OfThread(step) && t == step.t) {
        assert ThreadOk(s, t);
      }
    }
  }

  lemma AnswersKept(cfg: Config, s: State, step: Step)
    requires LogOk(s) && Enabled(s, step)
    ensures AnsweredOnce(Next(cfg, s, step).log)
  {
    LogAppends(cfg, s, step);
    forall i | 0 <= i < |s.log| && s.log[i].Succeeded? && OfThread(step) && step.Respond?
      ensures s.log[i].thread != step.t
    {
      assert EventOk(s, s.log[i]);
    }
  }

  lemma OrderKept(cfg: Config, s: State, step: Step)
    requires LogOk(s) && Enabled(s, step)
    ensures Ordered(Next(cfg, s, step).log)
  {
    LogAppends(cfg, s, step);
    var added := Logged(s, step);
    if added != [] {
      assert added == [added[0]];
      OrderedGrows(s.log, added[0]);
    } else {
      assert s.log + added == s.log;
    }
  }

  /** A file was there before, is new, or has just been put back by the handler that held it. */
  lemma FileOrigin(cfg: Config, s: State, step: Step, k: Key)
    requires Exclusive(s) && Enabled(s, step) && k in Next(cfg, s, step).files
    ensures
      || k in s.files
      || k.id !in s.used
      || (OfThread(step) && Holds(s.threads[step.t]) == Some(k) && Logged(s, step) == [Restored(step.t, k)])
  {
  }

  /** A handler held the document before, or has just taken it. */
  lemma HolderOrigin(cfg: Config, s: State, step: Step, k: Key, u: nat)
    requires Exclusive(s) && Enabled(s, step)
    requires
      var s' := Next(cfg, s, step);
      u in s'.threads && Holds(s'.threads[u]) == Some(k)
    ensures k in s.files || (u in s.threads && Holds(s.threads[u]) == Some(k))
  {
    if OfThread(step) {
      StepIsFair(cfg, s, step);
    }
  }

  lemma FilesSettled(cfg: Config, s: State, step: Step, a: nat, k: Key)
    requires LogOk(s) && Enabled(s, step)
    requires IsClaim(Next(cfg, s, step).log, a, k) && k in Next(cfg, s, step).files
    ensures Settled(Next(cfg, s, step).log, a)
  {
    LogAppends(cfg, s, step);
    FileOrigin(cfg, s, step, k);
    assert a < |s.log| && IsClaim(s.log, a, k);
    assert EventOk(s, s.log[a]);
    SettledGrows(s.log, Logged(s, step), a);
  }

  lemma HoldersSettled(cfg: Config, s: State, step: Step, a: nat, k: Key, u: nat)
    requires LogOk(s) && Enabled(s, step)
    requires
      var s' := Next(cfg, s, step);
      IsClaim(s'.log, a, k) && u in s'.threads && Holds(s'.threads[u]) == Some(k) && s'.log[a].thread != u
    ensures Settled(Next(cfg, s, step).log, a)
  {
    LogAppends(cfg, s, step);
    if a < |s.log| {
      assert IsClaim(s.log, a, k);
      HolderOrigin(cfg, s, step, k, u);
      SettledGrows(s.log, Logged(s, step), a);
    } else {
      ExclusiveKept(cfg, s, step);
    }
  }

  lemma LogKept(cfg: Config, s: State, step: Step)
    requires LogOk(s) && Enabled(s, step)
    ensures LogOk(Next(cfg, s, step))
  {
    var s' := Next(cfg, s, step);
    ExclusiveKept(cfg, s, step);
    EventsKept(cfg, s, step);
    ThreadsKept(cfg, s, step);
    OrderKept(cfg, s, step);
    AnswersKept(cfg, s, step);
    forall a: nat, k | IsClaim(s'.log, a, k) && k in s'.files ensures Settled(s'.log, a) {
      FilesSettled(cfg, s, step, a, k);
    }
    forall a: nat, k, u | IsClaim(s'.log, a, k) && u in s'.threads && Holds(s'.threads[u]) == Some(k)
      && s'.log[a].thread != u
      ensures Settled(s'.log, a)
    {
      HoldersSettled(cfg, s, step, a, k, u);
    }
  }

  lemma {:induction false} RunKeepsLog(cfg: Config, s: State, steps: seq<Step>)
    requires LogOk(s) && Runnable(cfg, s, steps)
    ensures LogOk(Run(cfg, s, steps))
    decreases |steps|
  {
    if steps != [] {
      LogKept(cfg, s, steps[0]);
      RunKeepsLog(cfg, Next(cfg, s, steps[0]), steps[1..]);
    }
  }

  ghost predicate Reachable(cfg: Config, s: State) {
    exists steps :: Runnable(cfg, START, steps) && s == Run(cfg, START, steps)
  }

  lemma ReachableLogOk(cfg: Config, s: State)
    requires Reachable(cfg, s)
    ensures LogOk(s)
  {
    var steps :| Runnable(cfg, START, steps) && s == Run(cfg, START, steps);
    RunKeepsLog(cfg, START, steps);
  }

  // --- codes: at most one success ---------------------------------------------

  predicate Redeems(e: Event, code: string) {
    e.Succeeded? && e.request.RedeemRequest? && e.request.code == code
  }

  /**
   However many handlers redeem one authorization code at once, and whatever else runs
   between their file operations, the run holds at most one successful answer for it.
   */
  lemma AtMostOneSuccessPerCode(cfg: Config, s: State, code: string, i: nat, j: nat)
    requires Reachable(cfg, s)
    requires i < |s.log| && j < |s.log| && Redeems(s.log[i], code) && Redeems(s.log[j], code)
    ensures i == j
  {
    ReachableLogOk(cfg, s);
    var t, u, k := s.log[i].thread, s.log[j].thread, CodeKey(code);
    assert EventOk(s, s.log[i]) && EventOk(s, s.log[j]);
    if t != u {
      var a: nat :| a < |s.log| && s.log[a] == Claimed(t, k);
      var b: nat :| b < |s.log| && s.log[b] == Claimed(u, k);
      NeverRestored(s, t, u, k, a, b);
    }
  }

  lemma NeverRestored(s: State, t: nat, u: nat, k: Key, a: nat, b: nat)
    requires LogOk(s) && a < |s.log| && b < |s.log| && a != b
    requires s.log[a] == Claimed(t, k) && s.log[b] == Claimed(u, k)
    ensures Restored(t, k) in s.log || Restored(u, k) in s.log
    ensures t in s.threads && u in s.threads
    ensures s.threads[t].request.RefreshRequest? || s.threads[u].request.RefreshRequest?
  {
    assert IsClaim(s.log, a, k) && IsClaim(s.log, b, k);
    assert EventOk(s, s.log[a]) && EventOk(s, s.log[b]);
    if a < b {
      assert Restored(t, k) in s.log[a + 1..b];
      assert EventOk(s, Restored(t, k));
    } else {
      assert Restored(u, k) in s.log[b + 1..a];
      assert EventOk(s, Restored(u, k));
    }
  }

  // --- refresh tokens: a claim is a lock ---------------------------------------

  function Holders(s: State, k: Key): set<nat> {
    set t | t in s.threads && Holds(s.threads[t]) == Some(k)
  }

  /** The stored copies of a document and the handlers that have it in hand never exceed one. */
  lemma ClaimIsALock(cfg: Config, s: State, k: Key)
    requires Reachable(cfg, s)
    ensures |Holders(s, k)| + (if k in s.files then 1 else 0) <= 1
  {
    ReachableLogOk(cfg, s);
    if t :| t in Holders(s, k) {
      assert Holders(s, k) == {t};
    } else {
      assert Holders(s, k) == {};
    }
  }

  /** `t` had given the document back before `u` took it. */
  ghost predicate Before(log: seq<Event>, t: nat, u: nat, k: Key) {
    exists i: nat, j: nat :: i < j < |log| && log[i] == Restored(t, k) && log[j] == Claimed(u, k)
  }

  /** Two successful refreshes of one presented value never overlap. */
  lemma RefreshesAreOrdered(cfg: Config, s: State, i: nat, j: nat, presented: string)
    requires Reachable(cfg, s)
    requires i < j < |s.log| && s.log[i].Succeeded? && s.log[j].Succeeded?
    requires s.log[i].request.RefreshRequest? && s.log[i].request.presented == presented
    requires s.log[j].request.RefreshRequest? && s.log[j].request.presented == presented
    ensures
      var t, u, k := s.log[i].thread, s.log[j].thread, RefreshKey(presented);
      t != u && (Before(s.log, t, u, k) || Before(s.log, u, t, k))
  {
    ReachableLogOk(cfg, s);
    var t, u, k := s.log[i].thread, s.log[j].thread, RefreshKey(presented);
    assert EventOk(s, s.log[i]) && EventOk(s, s.log[j]);
    var a: nat :| a < |s.log| && s.log[a] == Claimed(t, k);
    var b: nat :| b < |s.log| && s.log[b] == Claimed(u, k);
    if a < b {
      RestoredBetween(s.log, a, b, k);
    } else {
      RestoredBetween(s.log, b, a, k);
    }
  }

  lemma RestoredBetween(log: seq<Event>, a: nat, b: nat, k: Key)
    requires Ordered(log) && a < b && IsClaim(log, a, k) && IsClaim(log, b, k)
    ensures Before(log, log[a].thread, log[b].thread, k)
  {
    var between := log[a + 1..b];
    var n :| 0 <= n < |between| && between[n] == Restored(log[a].thread, k);
    assert log[a + 1 + n] == Restored(log[a].thread, k) && log[b] == Claimed(log[b].thread, k);
  }
}
