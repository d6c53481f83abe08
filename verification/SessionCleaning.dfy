/**
 Expiry housekeeping of the session store cannot be observed: reads drop lapsed sessions,
 so do sweeps and restarts, yet every read is answered as by a map that never drops one.
 */
module SessionCleaning {
  import opened Wrappers
  import opened Records
  import opened Sessions

  datatype Op =
    | GetOp(id: string)
    | CreateOp(id: string, session: Session)
    | DeleteOp(id: string)
    | RevokeOp(pred: (string, Session) -> bool)
    | SweepOp
    | RestartOp
    | WaitOp(ms: nat)

  /** The store as it is; a restart closes it and opens it again. */
  function Step(m: Table, op: Op, now: int): Table {
    match op
    case GetOp(id) => AfterGet(m, id, now)
    case CreateOp(id, session) => m[id := session]
    case DeleteOp(id) => m - {id}
    case RevokeOp(pred) => Without(m, pred)
    case SweepOp => Without(m, (id: string, s: Session) => Lapsed(s, now))
    case RestartOp => Reopened(Written(m), now)
    case WaitOp(_) => m
  }

  /** A map that only forgets what it is told to, and at a restart what carries no credential. */
  function StepKept(m: Table, op: Op): Table {
    match op
    case CreateOp(id, session) => m[id := session]
    case DeleteOp(id) => m - {id}
    case RevokeOp(pred) => Without(m, pred)
    case RestartOp => Without(m, (id: string, s: Session) => s.passwordHash == "" && s.oidcSub == "")
    case _ => m
  }

  function Later(op: Op, now: int): int {
    if op.WaitOp? then now + op.ms else now
  }

  function Answers(m: Table, ops: seq<Op>, now: int): seq<Option<Session>>
    decreases |ops|
  {
    if ops == [] then []
    else
      (if ops[0].GetOp? then [Found(m, ops[0].id, now)] else [])
      + Answers(Step(m, ops[0], now), ops[1..], Later(ops[0], now))
  }

  function AnswersKept(m: Table, ops: seq<Op>, now: int): seq<Option<Session>>
    decreases |ops|
  {
    if ops == [] then []
    else
      (if ops[0].GetOp? then [Found(m, ops[0].id, now)] else [])
      + AnswersKept(StepKept(m, ops[0]), ops[1..], Later(ops[0], now))
  }

  ghost predicate Covers(kept: Table, m: Table, now: int) {
    && (forall id :: id in m ==> id in kept && kept[id] == m[id])
    && (forall id :: id in kept && id !in m ==> Lapsed(kept[id], now))
  }

  lemma CoversStep(kept: Table, m: Table, op: Op, now: int)
    requires Covers(kept, m, now)
    ensures Covers(StepKept(kept, op), Step(m, op, now), Later(op, now))
  {
    if op == RestartOp {
      var m' := Reopened(Written(m), now);
      assert forall id :: id in m' <==> id in m && Usable(m[id], now);
    }
  }

  /** Whatever was swept, read or restarted before, a read finds a session iff it is there and has not lapsed. */
  lemma {:induction false} SessionCleaningIsInvisible(kept: Table, m: Table, ops: seq<Op>, now: int)
    requires Covers(kept, m, now)
    ensures Answers(m, ops, now) == AnswersKept(kept, ops, now)
    decreases |ops|
  {
    if ops != [] {
      CoversStep(kept, m, ops[0], now);
      SessionCleaningIsInvisible(StepKept(kept, ops[0]), Step(m, ops[0], now), ops[1..], Later(ops[0], now));
    }
  }

  // --- the number a revocation reports ------------------------------------------------

  function End(m: Table, ops: seq<Op>, now: int): Table
    decreases |ops|
  {
    if ops == [] then m else End(Step(m, ops[0], now), ops[1..], Later(ops[0], now))
  }

  function EndKept(m: Table, ops: seq<Op>): Table
    decreases |ops|
  {
    if ops == [] then m else EndKept(StepKept(m, ops[0]), ops[1..])
  }

  /** A read of this session, a sweep or a restart: each drops the session if it has lapsed. */
  predicate Housekeeps(op: Op, id: string) {
    (op.GetOp? && op.id == id && id != "") || op.SweepOp? || op.RestartOp?
  }

  function Created(ops: seq<Op>): set<string> {
    if ops == [] then {}
    else (if ops[0].CreateOp? then {ops[0].id} else {}) + Created(ops[1..])
  }

  /** Sessions that housekeeping came across after they had lapsed, and that were not created anew. */
  function Met(m: Table, ops: seq<Op>, now: int): set<string>
    decreases |ops|
  {
    if ops == [] then {}
    else
      (set id | id in m && Housekeeps(ops[0], id) && Lapsed(m[id], now) && id !in Created(ops[1..]))
      + Met(StepKept(m, ops[0]), ops[1..], Later(ops[0], now))
  }

  /** `m` is `kept` but for the sessions in `gone`. */
  predicate LessThese(kept: Table, m: Table, gone: set<string>) {
    && (forall id :: id in m ==> id in kept && kept[id] == m[id])
    && (forall id :: id in kept ==> (id in m <==> id !in gone))
  }

  /** And those have lapsed. */
  ghost predicate Lacks(kept: Table, m: Table, gone: set<string>, now: int) {
    Covers(kept, m, now) && LessThese(kept, m, gone)
  }

  lemma LacksNext(kept: Table, m: Table, gone: set<string>, op: Op, now: int)
    requires Lacks(kept, m, gone, now)
    ensures
      var met := set id | id in kept && Housekeeps(op, id) && Lapsed(kept[id], now);
      var gone' := (gone + met) - (if op.CreateOp? then {op.id} else {});
      Lacks(StepKept(kept, op), Step(m, op, now), gone', Later(op, now))
  {
    CoversStep(kept, m, op, now);
    var m' := Step(m, op, now);
    if op == RestartOp {
      assert forall id :: id in m' <==> id in m && Usable(m[id], now);
    }
  }

  lemma GoneSplits(kept: Table, gone: set<string>, ops: seq<Op>, now: int)
    requires ops != []
    ensures
      var op := ops[0];
      var met := set id | id in kept && Housekeeps(op, id) && Lapsed(kept[id], now);
      var gone' := (gone + met) - (if op.CreateOp? then {op.id} else {});
      (gone' - Created(ops[1..])) + Met(StepKept(kept, op), ops[1..], Later(op, now))
        == (gone - Created(ops)) + Met(kept, ops, now)
  {
  }

  lemma {:induction false} EndLacks(kept: Table, m: Table, gone: set<string>, ops: seq<Op>, now: int)
    requires Lacks(kept, m, gone, now)
    ensures LessThese(EndKept(kept, ops), End(m, ops, now), (gone - Created(ops)) + Met(kept, ops, now))
    decreases |ops|
  {
    if ops != [] {
      var op := ops[0];
      var met := set id | id in kept && Housekeeps(op, id) && Lapsed(kept[id], now);
      var gone' := (gone + met) - (if op.CreateOp? then {op.id} else {});
      LacksNext(kept, m, gone, op, now);
      EndLacks(StepKept(kept, op), Step(m, op, now), gone', ops[1..], Later(op, now));
      GoneSplits(kept, gone, ops, now);
    }
  }

  /**
   The number a revocation returns counts the matching sessions still in memory, lapsed or not.
   After any run it is what a map that never drops one would report exactly when no read, sweep
   or restart came across a matching session after it had lapsed.
   */
  lemma RevokeCountShowsHousekeeping(m: Table, ops: seq<Op>, now: int, pred: (string, Session) -> bool)
    ensures |Matching(End(m, ops, now), pred)| <= |Matching(EndKept(m, ops), pred)|
    ensures |Matching(End(m, ops, now), pred)| == |Matching(EndKept(m, ops), pred)|
      <==> forall id :: id in Met(m, ops, now) && id in EndKept(m, ops) ==> !pred(id, EndKept(m, ops)[id])
  {
    EndLacks(m, m, {}, ops, now);
    assert ({} - Created(ops)) + Met(m, ops, now) == Met(m, ops, now);
    MatchingWithout(EndKept(m, ops), End(m, ops, now), Met(m, ops, now), pred);
  }

  lemma MatchingWithout(kept: Table, m: Table, gone: set<string>, pred: (string, Session) -> bool)
    requires LessThese(kept, m, gone)
    ensures |Matching(m, pred)| <= |Matching(kept, pred)|
    ensures |Matching(m, pred)| == |Matching(kept, pred)| <==>
      forall id :: id in gone && id in kept ==> !pred(id, kept[id])
  {
    var dropped := set id | id in kept && id in gone && pred(id, kept[id]);
    assert Matching(kept, pred) == Matching(m, pred) + dropped;
    assert |Matching(kept, pred)| == |Matching(m, pred)| + |dropped|;
    if forall id :: id in gone && id in kept ==> !pred(id, kept[id]) {
      assert dropped == {};
    } else {
      var id :| id in gone && id in kept && pred(id, kept[id]);
      assert id in dropped;
    }
  }

  /** The same lapsed session is counted before the sweeper has run and not after. */
  lemma SweepChangesTheCount(id: string, session: Session, now: int)
    requires Lapsed(session, now)
    ensures
      var all := (i: string, s: Session) => true;
      && |Matching(End(map[id := session], [], now), all)| == 1
      && |Matching(End(map[id := session], [SweepOp], now), all)| == 0
  {
    var all := (i: string, s: Session) => true;
    assert Matching(map[id := session], all) == {id};
    var swept := Step(map[id := session], SweepOp, now);
    assert [SweepOp][1..] == [] && End(map[id := session], [SweepOp], now) == End(swept, [], now) == swept;
    assert Matching(swept, all) == {};
  }
}
