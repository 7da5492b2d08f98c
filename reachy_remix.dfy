/** The motion engine of the Reachy Remix app
    (src/apps/reachy-remix/reachy_remix.py): the move registry,
    `execute_move`, `get_micro_feedback` and `execute_sequence`. What a move
    does on the robot is not modelled: each move body either returns or
    raises an exception, as an oracle says. */
module ReachyRemix {
  import opened Util

  /** The keys of MOVE_REGISTRY, in declaration order. */
  const MoveIds: seq<string> := ["wave", "robot_pose", "spin", "stretch", "dab", "pause"]

  predicate IsMove(id: string)
  {
    id in MoveIds
  }

  /** ExecutionResult: whether the whole sequence ran, how many moves
      completed, and the error message of a failed run. */
  datatype ExecutionResult = ExecutionResult(success: bool, movesCompleted: nat, errorMessage: Option<string>)

  /** What `execute_move(id)` does when the move's body, if it runs, raises
      an exception whose message is `raised.value` (or returns, for None):
      an unknown id raises ValueError("Unknown move: <id>") before any body
      runs; a raising body's exception propagates; otherwise it returns
      True. */
  function MoveOutcome(id: string, raised: Option<string>): Result<bool>
  {
    if !IsMove(id) then Err("Unknown move: " + id)
    else if raised.Some? then Err(raised.value)
    else Ok(true)
  }

  /** The oracle for the move bodies of a sequence: `body(i, id)` is the
      message the i-th move's body raises, or None if it returns. */
  type Bodies = (nat, string) -> Option<string>

  function OutcomeAt(sequence: seq<string>, body: Bodies, i: nat): Result<bool>
    requires i < |sequence|
  {
    MoveOutcome(sequence[i], body(i, sequence[i]))
  }

  /** The index of the first move from `from` on that fails, or the length
      of the sequence if none does. */
  function FirstFailureFrom(sequence: seq<string>, body: Bodies, from: nat): (k: nat)
    requires from <= |sequence|
    ensures from <= k <= |sequence|
    ensures forall i :: from <= i < k ==> OutcomeAt(sequence, body, i).Ok?
    ensures k < |sequence| ==> OutcomeAt(sequence, body, k).Err?
    decreases |sequence| - from
  {
    if from == |sequence| then from
    else if OutcomeAt(sequence, body, from).Err? then from
    else FirstFailureFrom(sequence, body, from + 1)
  }

  function FirstFailure(sequence: seq<string>, body: Bodies): nat
  {
    FirstFailureFrom(sequence, body, 0)
  }

  /** The first failure is the one position with every earlier move
      succeeding and itself failing (or the end). */
  lemma FirstFailureIs(sequence: seq<string>, body: Bodies, k: nat)
    requires k <= |sequence|
    requires forall i :: 0 <= i < k ==> OutcomeAt(sequence, body, i).Ok?
    requires k < |sequence| ==> OutcomeAt(sequence, body, k).Err?
    ensures FirstFailure(sequence, body) == k
  {
    FirstFailureFromIs(sequence, body, 0, k);
  }

  lemma {:induction false} FirstFailureFromIs(sequence: seq<string>, body: Bodies, from: nat, k: nat)
    requires from <= k <= |sequence|
    requires forall i :: from <= i < k ==> OutcomeAt(sequence, body, i).Ok?
    requires k < |sequence| ==> OutcomeAt(sequence, body, k).Err?
    ensures FirstFailureFrom(sequence, body, from) == k
    decreases k - from
  {
    if from < k {
      assert OutcomeAt(sequence, body, from).Ok?;
      FirstFailureFromIs(sequence, body, from + 1, k);
    }
  }

  /** The result `execute_sequence` returns. */
  function SequenceResult(sequence: seq<string>, body: Bodies): ExecutionResult
  {
    var k := FirstFailure(sequence, body);
    if k == |sequence| then ExecutionResult(true, k, None)
    else ExecutionResult(false, k, Some(OutcomeAt(sequence, body, k).message))
  }

  /** The number of moves whose bodies run: those that complete, and a
      registered move whose body raises. */
  function RanCount(sequence: seq<string>, body: Bodies): (n: nat)
    ensures n <= |sequence|
  {
    var k := FirstFailure(sequence, body);
    if k < |sequence| && IsMove(sequence[k]) then k + 1 else k
  }

  /** The feedback nods requested once `done` moves of `n` have completed:
      one after each completed move except the last move of the sequence. */
  function FeedbackCount(n: nat, done: nat): nat
  {
    if done < n then done else if n == 0 then 0 else n - 1
  }

  /** The engine, with the robot reduced to two logs: the moves whose bodies
      ran and the moves after which a feedback nod was requested. */
  class MotionEngine {
    /** No robot was given. */
    const demoMode: bool
    var ran: seq<string>
    var nods: seq<string>

    constructor(hasRobot: bool)
      ensures demoMode == !hasRobot && ran == [] && nods == []
    {
      demoMode := !hasRobot;
      ran := [];
      nods := [];
    }

    /** `execute_move`: a registered move's body runs, whatever it then
        does; an unknown id runs nothing. */
    method ExecuteMove(id: string, raised: Option<string>) returns (r: Result<bool>)
      modifies this
      ensures r == MoveOutcome(id, raised)
      ensures ran == old(ran) + (if IsMove(id) then [id] else []) && nods == old(nods)
    {
      if id !in MoveIds {
        return Err("Unknown move: " + id);
      }
      ran := ran + [id];
      if raised.Some? {
        return Err(raised.value);
      }
      r := Ok(true);
    }

    /** `get_micro_feedback`: nothing in demo mode; otherwise a nod is
        requested (its failure is logged and swallowed). */
    method GetMicroFeedback(id: string)
      modifies this
      ensures nods == old(nods) + (if demoMode then [] else [id]) && ran == old(ran)
    {
      if demoMode {
        return;
      }
      nods := nods + [id];
    }

    /** `execute_sequence`. The moves run in order until the first one
        that fails; its exception becomes the result's message and no later
        move runs. Between moves (never after the last one) a feedback nod
        is requested when `withFeedback` holds outside demo mode. Since
        `execute_move` returns True whenever it returns, its "failed"
        branch never runs and is not modelled. */
    method ExecuteSequence(sequence: seq<string>, withFeedback: bool, body: Bodies) returns (res: ExecutionResult)
      modifies this
      ensures res == SequenceResult(sequence, body)
      ensures ran == old(ran) + sequence[..RanCount(sequence, body)]
      ensures nods == old(nods)
        + (if withFeedback && !demoMode then sequence[..FeedbackCount(|sequence|, res.movesCompleted)] else [])
    {
      var completed := 0;
      var i := 0;
      while i < |sequence|
        invariant 0 <= i <= |sequence| && completed == i
        invariant forall j :: 0 <= j < i ==> OutcomeAt(sequence, body, j).Ok?
        invariant ran == old(ran) + sequence[..i]
        invariant nods == old(nods)
          + (if withFeedback && !demoMode then sequence[..FeedbackCount(|sequence|, i)] else [])
      {
        var id := sequence[i];
        var r := ExecuteMove(id, body(i, id));
        if r.Err? {
          FirstFailureIs(sequence, body, i);
          assert sequence[..i] + (if IsMove(id) then [id] else []) == sequence[..RanCount(sequence, body)];
          return ExecutionResult(false, completed, Some(r.message));
        }
        completed := completed + 1;
        assert sequence[..i + 1] == sequence[..i] + [id];
        if withFeedback && i < |sequence| - 1 && !demoMode {
          GetMicroFeedback(id);
        }
        i := i + 1;
      }
      FirstFailureIs(sequence, body, i);
      res := ExecutionResult(true, completed, None);
    }
  }

  /** A sequence succeeds exactly when every move is registered and no
      body raises, and then every move completes. */
  lemma SuccessIffAllMovesRun(sequence: seq<string>, body: Bodies)
    ensures SequenceResult(sequence, body).success
        <==> forall i :: 0 <= i < |sequence| ==> IsMove(sequence[i]) && body(i, sequence[i]).None?
    ensures SequenceResult(sequence, body).success ==>
      SequenceResult(sequence, body).movesCompleted == |sequence|
      && SequenceResult(sequence, body).errorMessage.None?
  {
    var k := FirstFailure(sequence, body);
    if k < |sequence| {
      assert !(IsMove(sequence[k]) && body(k, sequence[k]).None?);
    } else {
      forall i | 0 <= i < |sequence| ensures IsMove(sequence[i]) && body(i, sequence[i]).None? {
        assert OutcomeAt(sequence, body, i).Ok?;
      }
    }
  }

  /** A failed run reports the first failing move's index as the number of
      moves completed, and that move's exception as its message; an
      unknown move becomes a failed result, not an escaping exception. */
  lemma FailureReported(sequence: seq<string>, body: Bodies, k: nat)
    requires k < |sequence|
    requires forall i :: 0 <= i < k ==> IsMove(sequence[i]) && body(i, sequence[i]).None?
    requires !IsMove(sequence[k]) || body(k, sequence[k]).Some?
    ensures var res := SequenceResult(sequence, body);
      && !res.success && res.movesCompleted == k
      && res.errorMessage == Some(if IsMove(sequence[k]) then body(k, sequence[k]).value
                                  else "Unknown move: " + sequence[k])
  {
    FirstFailureIs(sequence, body, k);
  }

  /** Never more moves complete than the sequence holds, and no move after
      the first failure runs. */
  lemma CompletedBounded(sequence: seq<string>, body: Bodies)
    ensures SequenceResult(sequence, body).movesCompleted <= RanCount(sequence, body) <= |sequence|
    ensures RanCount(sequence, body) <= SequenceResult(sequence, body).movesCompleted + 1
  {
  }

  /** The nods a run requests: one after each completed move of a run that
      stops at a failure, one fewer than the moves of a run that completes,
      and so never one after the last move. */
  lemma FeedbackBetweenMoves(sequence: seq<string>, body: Bodies)
    ensures var r := SequenceResult(sequence, body);
      && (r.success && |sequence| > 0 ==> FeedbackCount(|sequence|, r.movesCompleted) == |sequence| - 1)
      && (!r.success ==> FeedbackCount(|sequence|, r.movesCompleted) == r.movesCompleted)
      && (|sequence| > 0 ==> FeedbackCount(|sequence|, r.movesCompleted) < |sequence|)
  {
    SuccessIffAllMovesRun(sequence, body);
    CompletedBounded(sequence, body);
  }

  /** The registry holds six distinct moves. */
  lemma RegistryHasSixMoves()
    ensures |MoveIds| == 6
    ensures forall i, j :: 0 <= i < j < |MoveIds| ==> MoveIds[i] != MoveIds[j]
    ensures IsMove("wave") && IsMove("pause") && !IsMove("moonwalk")
  {
  }
}
