/**
 Expiry housekeeping cannot be observed.

 The store drops an expired document whenever a read, a claim, a listing or the
 sweeper comes across it. `Kept` is the same store without any of that: a plain map
 from which only an explicit destroy, a successful claim or a grant revocation removes
 anything. Under a clock that never goes back the two answer every sequence of
 operations alike, however many sweeps are interposed.
 */
module Cleaning {
  import opened Wrappers
  import opened Records
  import opened DocumentStore

  datatype Op =
    | PutOp(k: Key, payload: Payload, ttl: int)
    | GetOp(k: Key)
    | ClaimOp(k: Key)
    | DestroyOp(k: Key)
    | ListOp(model: Model)
    | AddToGrantOp(grant: string, k: Key)
    | RevokeGrantOp(grant: string)
    | SweepOp
    | WaitOp(ms: nat)

  datatype Answer = Silent | Content(found: Option<Payload>) | Ids(ids: set<string>)

  /** What a caller learns from an operation; it depends only on what is live. */
  function Ask(f: Files, op: Op, now: int): Answer {
    match op
    case GetOp(k) => Content(Found(f, k, now))
    case ClaimOp(k) => Content(Found(f, k, now))
    case ListOp(model) => Ids(LiveIds(f, model, now))
    case _ => Silent
  }

  /** The store as it is. */
  function Step(f: Files, op: Op, now: int): Files {
    match op
    case PutOp(k, payload, ttl) => AfterPut(f, k, payload, ttl, now)
    case GetOp(k) => AfterGet(f, k, now)
    case ClaimOp(k) => AfterClaim(f, k)
    case DestroyOp(k) => AfterDestroy(f, k)
    case ListOp(model) => Cleaned(f, [model], now)
    case AddToGrantOp(grant, k) => AfterAddToGrant(f, grant, k)
    case RevokeGrantOp(grant) => AfterRevokeGrant(f, grant)
    case SweepOp => Cleaned(f, EXPIRING, now)
    case WaitOp(_) => f
  }

  /** The store that never removes a document for being expired. */
  function StepKept(f: Files, op: Op, now: int): Files {
    match op
    case PutOp(k, payload, ttl) => AfterPut(f, k, payload, ttl, now)
    case ClaimOp(k) => if Live(f, k, now) then AfterDestroy(f, k) else f
    case DestroyOp(k) => AfterDestroy(f, k)
    case AddToGrantOp(grant, k) => AfterAddToGrant(f, grant, k)
    case RevokeGrantOp(grant) => AfterRevokeGrant(f, grant)
    case _ => f
  }

  function Later(op: Op, now: int): int {
    if op.WaitOp? then now + op.ms else now
  }

  function Answers(f: Files, ops: seq<Op>, now: int): seq<Answer>
    decreases |ops|
  {
    if ops == [] then []
    else [Ask(f, ops[0], now)] + Answers(Step(f, ops[0], now), ops[1..], Later(ops[0], now))
  }

  function AnswersKept(f: Files, ops: seq<Op>, now: int): seq<Answer>
    decreases |ops|
  {
    if ops == [] then []
    else [Ask(f, ops[0], now)] + AnswersKept(StepKept(f, ops[0], now), ops[1..], Later(ops[0], now))
  }

  /** `kept` holds what `f` holds and otherwise only documents that have expired. */
  ghost predicate Covers(kept: Files, f: Files, now: int) {
    && kept.grants == f.grants
    && (forall k :: k in f.docs ==> k in kept.docs && kept.docs[k] == f.docs[k])
    && (forall k :: k in kept.docs && k !in f.docs ==> Expired(kept.docs[k], now))
  }

  lemma CoversAnswers(kept: Files, f: Files, op: Op, now: int)
    requires Covers(kept, f, now)
    ensures Ask(kept, op, now) == Ask(f, op, now)
  {
    match op {
      case ListOp(model) =>
        assert LiveIds(kept, model, now) == LiveIds(f, model, now) by {
          forall id ensures id in LiveIds(kept, model, now) <==> id in LiveIds(f, model, now) {
            var k := Key(model, id);
            assert Live(kept, k, now) <==> Live(f, k, now);
            assert id in LiveIds(f, model, now) <==> Live(f, k, now);
            assert id in LiveIds(kept, model, now) <==> Live(kept, k, now);
          }
        }
      case _ =>
    }
  }

  lemma CoversStep(kept: Files, f: Files, op: Op, now: int)
    requires Covers(kept, f, now)
    ensures Covers(StepKept(kept, op, now), Step(f, op, now), Later(op, now))
  {
  }

  /** Sweeps and lazy deletions never change an answer. */
  lemma {:induction false} CleaningIsInvisible(kept: Files, f: Files, ops: seq<Op>, now: int)
    requires Covers(kept, f, now)
    ensures Answers(f, ops, now) == AnswersKept(kept, ops, now)
    decreases |ops|
  {
    if ops != [] {
      CoversAnswers(kept, f, ops[0], now);
      CoversStep(kept, f, ops[0], now);
      CleaningIsInvisible(StepKept(kept, ops[0], now), Step(f, ops[0], now), ops[1..], Later(ops[0], now));
    }
  }

  function DropSweeps(ops: seq<Op>): seq<Op> {
    if ops == [] then []
    else (if ops[0].SweepOp? then [] else [ops[0]]) + DropSweeps(ops[1..])
  }

  function Spoken(answers: seq<Answer>): seq<Answer> {
    if answers == [] then []
    else (if answers[0].Silent? then [] else [answers[0]]) + Spoken(answers[1..])
  }

  lemma {:induction false} KeptIgnoresSweeps(kept: Files, ops: seq<Op>, now: int)
    ensures Spoken(AnswersKept(kept, ops, now)) == Spoken(AnswersKept(kept, DropSweeps(ops), now))
    decreases |ops|
  {
    if ops != [] {
      var op := ops[0];
      var next := StepKept(kept, op, now);
      KeptIgnoresSweeps(next, ops[1..], Later(op, now));
      var rest := AnswersKept(next, ops[1..], Later(op, now));
      assert ([Ask(kept, op, now)] + rest)[1..] == rest;
      if !op.SweepOp? {
        assert DropSweeps(ops)[1..] == DropSweeps(ops[1..]);
        var restKept := AnswersKept(next, DropSweeps(ops[1..]), Later(op, now));
        assert ([Ask(kept, op, now)] + restKept)[1..] == restKept;
      } else {
        assert DropSweeps(ops) == DropSweeps(ops[1..]);
      }
    }
  }

  /** Two schedules that differ only in when the sweeper runs give the same answers. */
  lemma SweepScheduleIsInvisible(f: Files, ops: seq<Op>, ops': seq<Op>, now: int)
    requires DropSweeps(ops) == DropSweeps(ops')
    ensures Spoken(Answers(f, ops, now)) == Spoken(Answers(f, ops', now))
  {
    CleaningIsInvisible(f, f, ops, now);
    CleaningIsInvisible(f, f, ops', now);
    KeptIgnoresSweeps(f, ops, now);
    KeptIgnoresSweeps(f, ops', now);
  }
}
