/**
 Saving the sessions: mutators, timer callbacks, direct flushes and shutdown interleaved
 (saveSoon, Flush and Close of internal/session/session.go), for a store that has a file.

 A mutator changes the map under one mutex and arms the timer under another, so both are
 steps of their own. A flush copies the map and later renames the copy into place.
 `copies` records every copy taken; `copies[0]` is what the file held at the start.
 */
module Debounce {
  import opened Wrappers
  import opened Records
  import opened Sessions

  datatype Worker =
    | Changed
    | Fired
    | Flushing
    | Copied(n: nat)

  datatype State = State(
    memory: Table,
    file: File,
    timerSet: bool,
    pending: bool,
    closed: bool,
    workers: map<nat, Worker>,
    copies: seq<File>,
    onDisk: nat,
    changedSinceCopy: bool)

  datatype Step =
    | Change(w: nat, memory: Table)
    | SaveSoon(w: nat)
    | Fire(w: nat)
    | ClearTimer(w: nat)
    | Copy(w: nat)
    | Rename(w: nat)
    | Flush(w: nat)
    | Close(w: nat)

  /** Right after `Open` at `now`. */
  function Opened(file: File, now: int): State {
    State(Reopened(file, now), file, false, false, false, map[], [file], 0, false)
  }

  predicate Enabled(s: State, step: Step) {
    match step
    case SaveSoon(w) => w in s.workers && s.workers[w] == Changed
    case Fire(w) => w !in s.workers && s.pending
    case ClearTimer(w) => w in s.workers && s.workers[w] == Fired
    case Copy(w) => w in s.workers && s.workers[w] == Flushing
    case Rename(w) => w in s.workers && s.workers[w].Copied? && s.workers[w].n < |s.copies|
    case _ => step.w !in s.workers
  }

  function Next(s: State, step: Step): State
    requires Enabled(s, step)
  {
    match step
    case Change(w, memory) => s.(memory := memory, workers := s.workers[w := Changed], changedSinceCopy := true)
    case SaveSoon(w) =>
      if s.closed || s.timerSet then s.(workers := s.workers - {w})
      else s.(workers := s.workers - {w}, timerSet := true, pending := true)
    case Fire(w) => s.(pending := false, workers := s.workers[w := Fired])
    case ClearTimer(w) => s.(timerSet := false, workers := s.workers[w := Flushing])
    case Copy(w) =>
      s.(copies := s.copies + [Written(s.memory)], workers := s.workers[w := Copied(|s.copies|)],
         changedSinceCopy := false)
    case Rename(w) =>
      s.(file := s.copies[s.workers[w].n], onDisk := s.workers[w].n, workers := s.workers - {w})
    case Flush(w) => s.(workers := s.workers[w := Flushing])
    case Close(w) => s.(closed := true, timerSet := false, pending := false, workers := s.workers[w := Flushing])
  }

  predicate Runnable(s: State, steps: seq<Step>)
    decreases |steps|
  {
    steps == [] || (Enabled(s, steps[0]) && Runnable(Next(s, steps[0]), steps[1..]))
  }

  function Run(s: State, steps: seq<Step>): State
    requires Runnable(s, steps)
    decreases |steps|
  {
    if steps == [] then s else Run(Next(s, steps[0]), steps[1..])
  }

  predicate Quiet(s: State) {
    s.workers == map[] && !s.pending
  }

  /** Some worker is in the given phase. */
  predicate Has(s: State, phase: Worker) {
    exists w :: w in s.workers && s.workers[w] == phase
  }

  function Newest(s: State): nat
    requires s.copies != []
  {
    |s.copies| - 1
  }

  // --- what every interleaving keeps ---------------------------------------------

  /** The newest copy is as good as the memory, or a new copy is on its way. */
  ghost predicate Caught(s: State, since: int) {
    && s.copies != []
    && s.onDisk < |s.copies| && s.file == s.copies[s.onDisk]
    && (!s.changedSinceCopy ==> Saved(s.copies[Newest(s)], s.memory, since))
    && (!s.changedSinceCopy && Newest(s) > 0 ==> s.copies[Newest(s)] == Written(s.memory))
    && (forall w :: w in s.workers && s.workers[w].Copied? ==> 1 <= s.workers[w].n < |s.copies|)
  }

  /** Before `Close`: a change not yet copied has a timer, a callback or its own mutator behind it. */
  predicate Coming(s: State) {
    && (s.timerSet && !s.closed ==> s.pending || Has(s, Fired))
    && (s.changedSinceCopy && !s.closed ==> s.timerSet || Has(s, Changed) || Has(s, Flushing))
    && (s.closed ==> !s.pending && (Has(s, Flushing) || |s.copies| > 1))
  }

  lemma CaughtKept(s: State, step: Step, since: int)
    requires Caught(s, since) && Enabled(s, step)
    ensures Caught(Next(s, step), since)
  {
  }

  lemma OthersStay(s: State, step: Step, phase: Worker)
    requires Enabled(s, step) && Has(s, phase) && !(step.w in s.workers && s.workers[step.w] == phase)
    ensures Has(Next(s, step), phase)
  {
    var w :| w in s.workers && s.workers[w] == phase;
    assert w in Next(s, step).workers && Next(s, step).workers[w] == phase;
  }

  lemma ComingKept(s: State, step: Step)
    requires Coming(s) && s.copies != [] && Enabled(s, step)
    ensures Coming(Next(s, step))
  {
    var s', w := Next(s, step), step.w;
    forall phase | Has(s, phase) && !(w in s.workers && s.workers[w] == phase) ensures Has(s', phase) {
      OthersStay(s, step, phase);
    }
    assert w in s'.workers ==> Has(s', s'.workers[w]);
  }

  lemma {:induction false} RunKeeps(s: State, steps: seq<Step>, since: int)
    requires Caught(s, since) && Coming(s) && Runnable(s, steps)
    ensures Caught(Run(s, steps), since) && Coming(Run(s, steps))
    decreases |steps|
  {
    if steps != [] {
      CaughtKept(s, steps[0], since);
      ComingKept(s, steps[0]);
      RunKeeps(Next(s, steps[0]), steps[1..], since);
    }
  }

  lemma OpenedKeeps(file: File, now: int, steps: seq<Step>)
    requires Runnable(Opened(file, now), steps)
    ensures Caught(Run(Opened(file, now), steps), now) && Coming(Run(Opened(file, now), steps))
  {
    ReopenedIsSaved(file, now);
    RunKeeps(Opened(file, now), steps, now);
  }

  /**
   In every interleaving, while the store is open: the newest copy is as good as the memory,
   or the timer is armed, or a callback has it in hand, or a mutator has not reached saveSoon.
   With flushes one at a time the same holds of the file, but for a newest copy that still
   waits for its rename.
   */
  lemma NoChangeIsForgotten(file: File, now: int, steps: seq<Step>)
    requires Runnable(Opened(file, now), steps)
    ensures
      var s := Run(Opened(file, now), steps);
      && s.copies != []
      && (s.closed || s.pending || Has(s, Fired) || Has(s, Flushing) || Has(s, Changed)
          || Saved(s.copies[Newest(s)], s.memory, now))
      && (OneAtATime(Opened(file, now), steps) ==>
            s.closed || s.pending || Has(s, Fired) || Has(s, Flushing) || Has(s, Changed)
            || Has(s, Copied(Newest(s))) || Saved(s.file, s.memory, now))
  {
    OpenedKeeps(file, now, steps);
    if OneAtATime(Opened(file, now), steps) {
      ReopenedIsSaved(file, now);
      InOrderRun(Opened(file, now), steps, now);
    }
  }

  // --- flushes that do not overlap --------------------------------------------------

  /** No copy is taken while another one still waits for its rename. */
  predicate OneAtATime(s: State, steps: seq<Step>)
    requires Runnable(s, steps)
    decreases |steps|
  {
    steps != [] ==>
      && (steps[0].Copy? ==> forall w :: w in s.workers ==> !s.workers[w].Copied?)
      && OneAtATime(Next(s, steps[0]), steps[1..])
  }

  /** Only the newest copy waits for its rename, and until then it is the one not on disk. */
  predicate InOrder(s: State) {
    && s.copies != []
    && (forall w :: w in s.workers && s.workers[w].Copied? ==> s.workers[w].n == Newest(s))
    && (s.onDisk == Newest(s) || Has(s, Copied(Newest(s))))
  }

  lemma {:induction false} InOrderRun(s: State, steps: seq<Step>, since: int)
    requires InOrder(s) && Caught(s, since) && Runnable(s, steps) && OneAtATime(s, steps)
    ensures InOrder(Run(s, steps))
    decreases |steps|
  {
    if steps != [] {
      var s' := Next(s, steps[0]);
      CaughtKept(s, steps[0], since);
      InOrderKept(s, steps[0]);
      InOrderRun(s', steps[1..], since);
    }
  }

  lemma InOrderKept(s: State, step: Step)
    requires InOrder(s) && Enabled(s, step)
    requires step.Copy? ==> forall w :: w in s.workers ==> !s.workers[w].Copied?
    ensures InOrder(Next(s, step))
  {
    var s', w := Next(s, step), step.w;
    if Has(s, Copied(Newest(s))) && !step.Copy? && !(w in s.workers && s.workers[w] == Copied(Newest(s))) {
      OthersStay(s, step, Copied(Newest(s)));
    }
    assert w in s'.workers ==> Has(s', s'.workers[w]);
  }

  /** With flushes one at a time no write is lost: when all is quiet the file reopens as the memory. */
  lemma NoWriteIsLost(file: File, now: int, steps: seq<Step>, later: int)
    requires Runnable(Opened(file, now), steps) && OneAtATime(Opened(file, now), steps)
    requires Quiet(Run(Opened(file, now), steps)) && !Run(Opened(file, now), steps).closed && now <= later
    ensures
      var s := Run(Opened(file, now), steps);
      Reopened(s.file, later) == StillUsable(s.memory, later)
  {
    var s := Run(Opened(file, now), steps);
    OpenedKeeps(file, now, steps);
    ReopenedIsSaved(file, now);
    InOrderRun(Opened(file, now), steps, now);
    assert Saved(s.file, s.memory, now);
  }

  // --- flushes that do overlap --------------------------------------------------------

  predicate OnlyRenamesLeft(s: State) {
    forall w :: w in s.workers ==> s.workers[w].Copied?
  }

  /** No copy still waiting for its rename differs from the newest; with none waiting, the file is that copy. */
  predicate NoneStale(s: State)
    requires Copies(s)
  {
    if s.workers == map[] then s.file == s.copies[Newest(s)]
    else forall w :: w in s.workers && s.workers[w].Copied? ==> s.copies[s.workers[w].n] == s.copies[Newest(s)]
  }

  predicate Copies(s: State) {
    s.copies != [] && forall w :: w in s.workers && s.workers[w].Copied? ==> s.workers[w].n < |s.copies|
  }

  /** An order in which all outstanding renames happen. */
  predicate Settles(s: State, order: seq<Step>) {
    && Runnable(s, order) && (forall i :: 0 <= i < |order| ==> order[i].Rename?)
    && Run(s, order).workers == map[]
  }

  lemma {:induction false} NothingStaleLands(s: State, order: seq<Step>)
    requires Copies(s) && OnlyRenamesLeft(s) && NoneStale(s) && Settles(s, order)
    ensures Run(s, order).file == s.copies[Newest(s)]
    decreases |order|
  {
    if order != [] {
      assert order[0].Rename?;
      var s1 := Next(s, order[0]);
      assert s.file == s.copies[Newest(s)] || s.workers != map[];
      assert s1.file == s.copies[Newest(s)];
      NothingStaleLands(s1, order[1..]);
    }
  }

  /** Any outstanding rename can come last. */
  lemma {:induction false} LandsLast(s: State, w: nat) returns (order: seq<Step>)
    requires Copies(s) && OnlyRenamesLeft(s) && w in s.workers
    ensures Settles(s, order) && Run(s, order).file == s.copies[s.workers[w].n]
    decreases |s.workers|
  {
    if u :| u in s.workers && u != w {
      var s1 := Next(s, Rename(u));
      assert s1.workers.Keys == s.workers.Keys - {u};
      var rest := LandsLast(s1, w);
      order := [Rename(u)] + rest;
      assert order[1..] == rest;
      LeadsTo(s, order, Run(s1, rest));
    } else {
      assert s.workers == map[w := s.workers[w]];
      OneLeft(s, w);
      order := [Rename(w)];
    }
  }

  lemma OneLeft(s: State, w: nat)
    requires Copies(s) && w in s.workers && s.workers[w].Copied? && s.workers == map[w := s.workers[w]]
    ensures Settles(s, [Rename(w)]) && Run(s, [Rename(w)]).file == s.copies[s.workers[w].n]
  {
    assert [Rename(w)][1..] == [];
    LeadsTo(s, [Rename(w)], Next(s, Rename(w)));
    assert Next(s, Rename(w)).workers == map[];
  }

  lemma SettledExactly(s: State)
    requires Copies(s) && OnlyRenamesLeft(s)
    ensures (forall order | Settles(s, order) :: Run(s, order).file == s.copies[Newest(s)]) <==> NoneStale(s)
  {
    if NoneStale(s) {
      forall order | Settles(s, order) ensures Run(s, order).file == s.copies[Newest(s)] {
        NothingStaleLands(s, order);
      }
    } else if s.workers == map[] {
      assert Settles(s, []);
    } else {
      var w :| w in s.workers && s.copies[s.workers[w].n] != s.copies[Newest(s)];
      var order := LandsLast(s, w);
      assert Settles(s, order);
    }
  }

  /**
   When only renames are left and the map has not changed since the newest copy, every order
   of the renames ends with the memory's file exactly when none of the copies still waiting
   differs from the newest. This holds before and after `Close`.
   */
  lemma QuietFileIsCurrentExactly(file: File, now: int, steps: seq<Step>)
    requires Runnable(Opened(file, now), steps)
    requires OnlyRenamesLeft(Run(Opened(file, now), steps)) && !Run(Opened(file, now), steps).changedSinceCopy
    ensures
      var s := Run(Opened(file, now), steps);
      && Copies(s)
      && (Newest(s) == 0 ==> s.workers == map[] && Saved(s.file, s.memory, now))
      && (Newest(s) > 0 ==>
            ((forall order | Settles(s, order) :: Run(s, order).file == Written(s.memory)) <==> NoneStale(s)))
  {
    OpenedKeeps(file, now, steps);
    var s := Run(Opened(file, now), steps);
    SettledExactly(s);
    if Newest(s) == 0 {
      assert forall w :: w !in s.workers;
      assert s.workers == map[];
    }
  }

  const SLOW_FIRST_FLUSH: seq<Step> := [ClearTimer(1), Copy(1), Change(0, map[]), SaveSoon(0)] + SECOND_FLUSH
  const SECOND_FLUSH: seq<Step> := [Fire(2), ClearTimer(2), Copy(2), Rename(2), Rename(1)]

  /** The first callback has its copy, and the timer is armed again. */
  function BetweenFlushes(m: Table): State {
    State(map[], None, true, true, false, map[1 := Copied(1)], [None, Written(m)], 0, true)
  }

  lemma SecondFlush(m: Table)
    ensures
      var s := BetweenFlushes(m);
      && Runnable(s, SECOND_FLUSH) && Quiet(Run(s, SECOND_FLUSH)) && !Run(s, SECOND_FLUSH).closed
      && Run(s, SECOND_FLUSH).memory == map[] && Run(s, SECOND_FLUSH).file == Written(m)
  {
    var s4 := BetweenFlushes(m);
    var s5 := Next(s4, Fire(2));
    var s6 := Next(s5, ClearTimer(2));
    var s7 := Next(s6, Copy(2));
    var s8 := Next(s7, Rename(2));
    var s9 := Next(s8, Rename(1));
    LeadsTo(s8, SECOND_FLUSH[4..], s9);
    LeadsTo(s7, SECOND_FLUSH[3..], s9);
    LeadsTo(s6, SECOND_FLUSH[2..], s9);
    LeadsTo(s5, SECOND_FLUSH[1..], s9);
    LeadsTo(s4, SECOND_FLUSH, s9);
    assert s9.workers == map[];
  }

  /**
   Flushes that overlap can lose one: two callbacks, the older one renaming last, leave a
   deleted session in the file for good (until the next change).
   */
  lemma OverlappingFlushesLoseAWrite(id: string, session: Session)
    ensures
      var s := Next(Next(Next(Opened(None, 0), Change(0, map[id := session])), SaveSoon(0)), Fire(1));
      && Runnable(s, SLOW_FIRST_FLUSH) && Quiet(Run(s, SLOW_FIRST_FLUSH)) && !Run(s, SLOW_FIRST_FLUSH).closed
      && Run(s, SLOW_FIRST_FLUSH).memory == map[]
      && Run(s, SLOW_FIRST_FLUSH).file == Written(map[id := session])
  {
    var m := map[id := session];
    var s0 := Next(Next(Next(Opened(None, 0), Change(0, m)), SaveSoon(0)), Fire(1));
    var s1 := Next(s0, ClearTimer(1));
    var s2 := Next(s1, Copy(1));
    var s3 := Next(s2, Change(0, map[]));
    var s4 := Next(s3, SaveSoon(0));
    assert s4.workers == map[1 := Copied(1)];
    assert s4 == BetweenFlushes(m);
    SecondFlush(m);
    var steps := SLOW_FIRST_FLUSH;
    assert steps[4..] == SECOND_FLUSH;
    var s9 := Run(s4, SECOND_FLUSH);
    LeadsTo(s3, steps[3..], s9);
    LeadsTo(s2, steps[2..], s9);
    LeadsTo(s1, steps[1..], s9);
    LeadsTo(s0, steps, s9);
  }

  lemma LeadsTo(s: State, steps: seq<Step>, end: State)
    requires steps != [] && Enabled(s, steps[0])
    requires Runnable(Next(s, steps[0]), steps[1..]) && Run(Next(s, steps[0]), steps[1..]) == end
    ensures Runnable(s, steps) && Run(s, steps) == end
  {
  }

  // --- shutdown -----------------------------------------------------------------------

  predicate NoChange(steps: seq<Step>) {
    forall i :: 0 <= i < |steps| ==> !steps[i].Change?
  }

  /** After `Close` a change made before it is covered by a copy that is still to come. */
  lemma {:induction false} ClosedRun(s: State, steps: seq<Step>)
    requires s.closed && Runnable(s, steps) && NoChange(steps)
    requires s.changedSinceCopy ==> Has(s, Flushing)
    ensures
      var s' := Run(s, steps);
      s'.closed && s'.memory == s.memory && (s'.changedSinceCopy ==> Has(s', Flushing))
    decreases |steps|
  {
    if steps != [] {
      var step := steps[0];
      if Has(s, Flushing) && !step.Copy? {
        OthersStay(s, step, Flushing);
      }
      ClosedRun(Next(s, step), steps[1..]);
    }
  }

  /**
   After `Close`, reopening gives exactly the sessions in memory at `Close` that are unexpired
   and carry a credential, provided nothing changes the map afterwards.
   */
  lemma CloseSavesEverything(file: File, now: int, before: seq<Step>, w: nat, after: seq<Step>, later: int)
    requires Runnable(Opened(file, now), before + [Close(w)] + after)
    requires OneAtATime(Opened(file, now), before + [Close(w)] + after)
    requires NoChange(after) && Quiet(Run(Opened(file, now), before + [Close(w)] + after)) && now <= later
    ensures Runnable(Opened(file, now), before)
    ensures
      var m := Run(Opened(file, now), before).memory;
      Reopened(Run(Opened(file, now), before + [Close(w)] + after).file, later)
      == StillUsable(m, later)
  {
    var start := Opened(file, now);
    var all := before + [Close(w)] + after;
    var end := Run(start, all);
    OpenedKeeps(file, now, all);
    ReopenedIsSaved(file, now);
    InOrderRun(start, all, now);
    assert all == before + ([Close(w)] + after);
    RunSplits(start, before, [Close(w)] + after);
    var s := Run(start, before);
    assert ([Close(w)] + after)[1..] == after;
    assert Next(s, Close(w)).workers[w] == Flushing;
    ClosedRun(Next(s, Close(w)), after);
    assert Saved(end.file, end.memory, now);
  }

  lemma {:induction false} RunSplits(s: State, first: seq<Step>, second: seq<Step>)
    requires Runnable(s, first + second)
    ensures Runnable(s, first) && Runnable(Run(s, first), second)
    ensures Run(s, first + second) == Run(Run(s, first), second)
    decreases |first|
  {
    if first == [] {
      assert first + second == second;
    } else {
      assert (first + second)[1..] == first[1..] + second;
      RunSplits(Next(s, first[0]), first[1..], second);
    }
  }

  /**
   If a flush overlaps the shutdown the same holds exactly when no copy still waiting differs
   from the newest: `Close` must not be overtaken by an older flush.
   */
  lemma CloseSavesExactly(file: File, now: int, before: seq<Step>, w: nat, after: seq<Step>)
    requires Runnable(Opened(file, now), before + [Close(w)] + after)
    requires NoChange(after) && OnlyRenamesLeft(Run(Opened(file, now), before + [Close(w)] + after))
    ensures Runnable(Opened(file, now), before)
    ensures
      var s := Run(Opened(file, now), before + [Close(w)] + after);
      && Copies(s)
      && ((forall order | Settles(s, order) :: Run(s, order).file == Written(Run(Opened(file, now), before).memory))
          <==> NoneStale(s))
  {
    var start := Opened(file, now);
    var all := before + [Close(w)] + after;
    OpenedKeeps(file, now, all);
    assert all == before + ([Close(w)] + after);
    RunSplits(start, before, [Close(w)] + after);
    var s := Run(start, before);
    assert ([Close(w)] + after)[1..] == after;
    assert Next(s, Close(w)).workers[w] == Flushing;
    ClosedRun(Next(s, Close(w)), after);
    QuietFileIsCurrentExactly(file, now, all);
  }

  // --- after shutdown --------------------------------------------------------------------

  predicate Drained(s: State) {
    s.closed && !s.pending && forall w :: w in s.workers ==> s.workers[w] == Changed
  }

  lemma {:induction false} DrainedRun(s: State, steps: seq<Step>)
    requires Drained(s) && Runnable(s, steps)
    requires forall i :: 0 <= i < |steps| ==> !steps[i].Flush? && !steps[i].Close?
    ensures Run(s, steps).file == s.file && forall i :: 0 <= i < |steps| ==> !steps[i].Fire?
    decreases |steps|
  {
    if steps != [] {
      DrainedRun(Next(s, steps[0]), steps[1..]);
    }
  }

  /**
   Once the store is closed and its flushes are over, whatever still happens short of a new
   flush leaves the file as it is: the timer never fires again, so a later change is not saved.
   */
  lemma LateChangeIsLost(file: File, now: int, before: seq<Step>, after: seq<Step>)
    requires Runnable(Opened(file, now), before + after)
    requires Runnable(Opened(file, now), before) && Run(Opened(file, now), before).closed
    requires forall w :: w in Run(Opened(file, now), before).workers ==>
        Run(Opened(file, now), before).workers[w] == Changed
    requires forall i :: 0 <= i < |after| ==> !after[i].Flush? && !after[i].Close?
    ensures Run(Opened(file, now), before + after).file == Run(Opened(file, now), before).file
    ensures forall i :: 0 <= i < |after| ==> !after[i].Fire?
  {
    OpenedKeeps(file, now, before);
    RunSplits(Opened(file, now), before, after);
    DrainedRun(Run(Opened(file, now), before), after);
  }

  /** The position of the last copy taken; -1 without one. */
  function LastCopy(steps: seq<Step>): (i: int)
    ensures -1 <= i < |steps| && (i >= 0 ==> steps[i].Copy?)
    ensures forall j :: i < j < |steps| ==> !steps[j].Copy?
  {
    if steps == [] then -1
    else if steps[|steps| - 1].Copy? then |steps| - 1
    else LastCopy(steps[..|steps| - 1])
  }

  /** The map after `steps`, which changed it or left it at `m`. */
  function LastMap(steps: seq<Step>, m: Table): Table {
    if steps == [] then m else LastMap(steps[1..], if steps[0].Change? then steps[0].memory else m)
  }

  lemma {:induction false} MapAfter(s: State, steps: seq<Step>)
    requires Runnable(s, steps) && forall i :: 0 <= i < |steps| ==> !steps[i].Copy?
    ensures Run(s, steps).memory == LastMap(steps, s.memory) && Run(s, steps).copies == s.copies
    decreases |steps|
  {
    if steps != [] {
      MapAfter(Next(s, steps[0]), steps[1..]);
    }
  }

  lemma {:induction false} UnchangedMap(steps: seq<Step>, m: Table)
    requires NoChange(steps)
    ensures LastMap(steps, m) == m
  {
    if steps != [] {
      UnchangedMap(steps[1..], m);
    }
  }

  lemma ClosedHasCopied(file: File, now: int, steps: seq<Step>)
    requires Runnable(Opened(file, now), steps)
    requires Quiet(Run(Opened(file, now), steps)) && Run(Opened(file, now), steps).closed
    ensures LastCopy(steps) >= 0
  {
    OpenedKeeps(file, now, steps);
    if LastCopy(steps) < 0 {
      MapAfter(Opened(file, now), steps);
    }
  }

  /** From a copy on, as long as none follows. */
  lemma AfterCopy(s: State, step: Step, after: seq<Step>)
    requires Enabled(s, step) && step.Copy? && Runnable(Next(s, step), after)
    requires forall i :: 0 <= i < |after| ==> !after[i].Copy?
    ensures
      var end := Run(Next(s, step), after);
      && end.memory == LastMap(after, s.memory)
      && end.copies != [] && end.copies[Newest(end)] == Written(s.memory)
  {
    MapAfter(Next(s, step), after);
  }

  lemma CopyBetween(s: State, before: seq<Step>, rest: seq<Step>)
    requires Runnable(s, before + rest) && rest != [] && rest[0].Copy?
    requires forall i :: 1 <= i < |rest| ==> !rest[i].Copy?
    ensures Runnable(s, before)
    ensures
      var end, copied := Run(s, before + rest), Run(s, before).memory;
      && end.memory == LastMap(rest[1..], copied)
      && end.copies != [] && end.copies[Newest(end)] == Written(copied)
  {
    RunSplits(s, before, rest);
    AfterCopy(Run(s, before), rest[0], rest[1..]);
  }

  lemma AfterLastCopy(s: State, steps: seq<Step>)
    requires Runnable(s, steps) && LastCopy(steps) >= 0
    ensures Runnable(s, steps[..LastCopy(steps)])
    ensures
      var end, i := Run(s, steps), LastCopy(steps);
      var copied := Run(s, steps[..i]).memory;
      && end.memory == LastMap(steps[i + 1..], copied)
      && end.copies != [] && end.copies[Newest(end)] == Written(copied)
  {
    var i := LastCopy(steps);
    assert steps == steps[..i] + steps[i..] && steps[i..][1..] == steps[i + 1..];
    CopyBetween(s, steps[..i], steps[i..]);
  }

  /**
   After shutdown the quiet file is the final memory's exactly when no change follows the last
   copy taken, or the last such change puts the same map back.
   */
  lemma ClosedFileIsCurrentExactly(file: File, now: int, steps: seq<Step>)
    requires Runnable(Opened(file, now), steps) && OneAtATime(Opened(file, now), steps)
    requires Quiet(Run(Opened(file, now), steps)) && Run(Opened(file, now), steps).closed
    ensures LastCopy(steps) >= 0 && Runnable(Opened(file, now), steps[..LastCopy(steps)])
    ensures
      var end, i := Run(Opened(file, now), steps), LastCopy(steps);
      var copied := Run(Opened(file, now), steps[..i]).memory;
      end.file == Written(end.memory) <==> NoChange(steps[i + 1..]) || LastMap(steps[i + 1..], copied) == copied
  {
    var start, i := Opened(file, now), LastCopy(steps);
    OpenedKeeps(file, now, steps);
    ReopenedIsSaved(file, now);
    InOrderRun(start, steps, now);
    ClosedHasCopied(file, now, steps);
    AfterLastCopy(start, steps);
    if NoChange(steps[i + 1..]) {
      UnchangedMap(steps[i + 1..], Run(start, steps[..i]).memory);
    }
  }

  const LATE_CHANGE: seq<Step> := [Close(0), Copy(0), Rename(0)]

  /** A run from `Opened` that loses a session created after shutdown. */
  lemma LateChangeRun(m: Table)
    ensures
      var steps := LATE_CHANGE + [Change(1, m), SaveSoon(1)];
      && Runnable(Opened(None, 0), steps) && Quiet(Run(Opened(None, 0), steps))
      && Run(Opened(None, 0), steps).memory == m && Run(Opened(None, 0), steps).file == Written(map[])
  {
    var steps := LATE_CHANGE + [Change(1, m), SaveSoon(1)];
    var s0 := Opened(None, 0);
    var s1 := Next(s0, Close(0));
    var s2 := Next(s1, Copy(0));
    var s3 := Next(s2, Rename(0));
    var s4 := Next(s3, Change(1, m));
    var s5 := Next(s4, SaveSoon(1));
    LeadsTo(s4, steps[4..], s5);
    LeadsTo(s3, steps[3..], s5);
    LeadsTo(s2, steps[2..], s5);
    LeadsTo(s1, steps[1..], s5);
    LeadsTo(s0, steps, s5);
    assert s5.workers == map[];
  }
}
