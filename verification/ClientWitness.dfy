/**
 Runs of a client with one I/O thread, one user thread and one request: each operation can
 succeed, and a cancelRequest can abort one.
 */
module ClientWitness {
  import opened Text
  import opened ClientModel
  import opened ClientRuns

  // ---- pieces of runs --------------------------------------------------------------------------

  /** Steps of the client's own threads only. */
  predicate Plain(acts: seq<Action>) {
    forall i :: 0 <= i < |acts| ==> acts[i].Step? || acts[i].Dispatch?
  }

  lemma Three(s: State, a: Action, b: Action, c: Action, s1: State, s2: State, z: State)
    requires Next(s, a, s1) && Next(s1, b, s2) && Next(s2, c, z)
    ensures Runs(s, [a, b, c], z)
  {
    assert [a, b, c][1..] == [b, c] && [b, c][1..] == [c] && [c][1..] == [];
    assert Runs(z, [], z);
    assert Runs(s2, [c], z);
    assert Runs(s1, [b, c], z);
  }

  lemma Two(s: State, a: Action, b: Action, s1: State, z: State)
    requires Next(s, a, s1) && Next(s1, b, z)
    ensures Runs(s, [a, b], z)
  {
    assert [a, b][1..] == [b] && [b][1..] == [];
    assert Runs(z, [], z);
    assert Runs(s1, [b], z);
  }

  /** The states of these runs: `io` and `user` are the two threads, `x` is the request. */
  function One(io: Pc, user: Pc, x: Session, mapGuard: Option<nat>, ops: map<nat, Op>, nextOp: nat): State {
    State(1, [io, user], [x], map[7 := 0], mapGuard, ops, nextOp, true)
  }

  /** The same before the request is in the map, or after it has been removed. */
  function Unlisted(io: Pc, user: Pc, x: Session, mapGuard: Option<nat>, nextOp: nat): State {
    State(1, [io, user], [x], map[], mapGuard, map[], nextOp, true)
  }

  function InHand(sid: nat, kind: OpKind, ec: ErrorCode, data: string, at: HandlerAt): Pc {
    Handling(sid, kind, ec, data, false, at)
  }

  function Waiting(kind: OpKind, hit: bool): Op { Op(0, kind, Pending(hit)) }

  function Answered(kind: OpKind, ec: ErrorCode, data: string): Op { Op(0, kind, OpState.Ready(ec, data)) }

  // ---- submitting ----------------------------------------------------------------------------------

  function Submitted(duration: nat): Session { NewSession(1, 7, Request(CALC_KEYWORD, duration)) }

  lemma Inserts(x: Session)
    requires x.id == 7
    ensures Runs(Unlisted(Polling, Submitting(0, SubLock), x, None, 0), [Step(1), Step(1), Step(1)],
                 One(Polling, Submitting(0, SubConnect), x, None, map[], 0))
  {
    Three(Unlisted(Polling, Submitting(0, SubLock), x, None, 0), Step(1), Step(1), Step(1),
          Unlisted(Polling, Submitting(0, SubInsert), x, Some(1), 0),
          One(Polling, Submitting(0, SubUnlock), x, Some(1), map[], 0),
          One(Polling, Submitting(0, SubConnect), x, None, map[], 0));
  }

  lemma Connects(x: Session, y: Session)
    requires y == x.(token := InFlight(0))
    ensures Runs(One(Polling, Submitting(0, SubConnect), x, None, map[], 0), [Step(1), Step(1)],
                 One(Polling, Idle, y, None, map[0 := Waiting(Connect, false)], 1))
  {
    Two(One(Polling, Submitting(0, SubConnect), x, None, map[], 0), Step(1), Step(1),
        One(Polling, Submitting(0, SubReturn), y, None, map[0 := Waiting(Connect, false)], 1),
        One(Polling, Idle, y, None, map[0 := Waiting(Connect, false)], 1));
  }

  /** From the call of `emulateLongComputationOp` to the connect in flight. */
  lemma Submits(x: Session, y: Session) returns (acts: seq<Action>)
    requires x.id == 7 && y == x.(token := InFlight(0))
    ensures Plain(acts)
    ensures Runs(Unlisted(Polling, Submitting(0, SubLock), x, None, 0), acts,
                 One(Polling, Idle, y, None, map[0 := Waiting(Connect, false)], 1))
  {
    Inserts(x);
    Connects(x, y);
    acts := [Step(1), Step(1), Step(1)] + [Step(1), Step(1)];
    JoinRuns(Unlisted(Polling, Submitting(0, SubLock), x, None, 0), [Step(1), Step(1), Step(1)],
             One(Polling, Submitting(0, SubConnect), x, None, map[], 0), [Step(1), Step(1)],
             One(Polling, Idle, y, None, map[0 := Waiting(Connect, false)], 1));
  }

  // ---- a successful connect or write starts the next operation ------------------------------------

  lemma TakesHandler(k: nat, kind: OpKind, ec: ErrorCode, data: string, x: Session, y: Session)
    requires y == x.(token := OnThread(0), trail := x.trail + [ec])
    ensures Next(One(Polling, Idle, x, None, map[k := Answered(kind, ec, data)], k + 1), Dispatch(0, k),
                 One(InHand(0, kind, ec, data, Enter), Idle, y, None, map[], k + 1))
  {
    assert map[k := Answered(kind, ec, data)] - {k} == map[];
  }

  lemma PassesGuard(k: nat, kind: OpKind, x: Session)
    requires kind != ReadUntil && x.cancelGuard == None && !x.wasCancelled
    ensures Runs(One(InHand(0, kind, Success, "", Enter), Idle, x, None, map[], k + 1), [Step(0), Step(0), Step(0)],
                 One(InHand(0, kind, Success, "", UnlockGuard), Idle, x.(cancelGuard := Some(0)), None, map[], k + 1))
  {
    Three(One(InHand(0, kind, Success, "", Enter), Idle, x, None, map[], k + 1), Step(0), Step(0), Step(0),
          One(InHand(0, kind, Success, "", LockGuard), Idle, x, None, map[], k + 1),
          One(InHand(0, kind, Success, "", TestFlag), Idle, x.(cancelGuard := Some(0)), None, map[], k + 1),
          One(InHand(0, kind, Success, "", UnlockGuard), Idle, x.(cancelGuard := Some(0)), None, map[], k + 1));
  }

  lemma StartsNext(k: nat, kind: OpKind, x: Session, y: Session)
    requires x.cancelGuard == Some(0) && y == x.(cancelGuard := None, token := InFlight(k + 1))
    ensures Runs(One(InHand(0, kind, Success, "", UnlockGuard), Idle, x, None, map[], k + 1),
                 [Step(0), Step(0), Step(0)],
                 One(Polling, Idle, y, None, map[k + 1 := Waiting(NextKind(kind), false)], k + 2))
  {
    Three(One(InHand(0, kind, Success, "", UnlockGuard), Idle, x, None, map[], k + 1), Step(0), Step(0), Step(0),
          One(InHand(0, kind, Success, "", Initiate), Idle, x.(cancelGuard := None), None, map[], k + 1),
          One(InHand(0, kind, Success, "", Return), Idle, y, None, map[k + 1 := Waiting(NextKind(kind), false)], k + 2),
          One(Polling, Idle, y, None, map[k + 1 := Waiting(NextKind(kind), false)], k + 2));
  }

  /** From the result of a connect or write to the next operation in flight. */
  lemma Continues(k: nat, kind: OpKind, x: Session, y: Session) returns (acts: seq<Action>)
    requires kind != ReadUntil && x.cancelGuard == None && !x.wasCancelled
    requires y == x.(token := InFlight(k + 1), trail := x.trail + [Success])
    ensures Plain(acts)
    ensures Runs(One(Polling, Idle, x, None, map[k := Answered(kind, Success, "")], k + 1), acts,
                 One(Polling, Idle, y, None, map[k + 1 := Waiting(NextKind(kind), false)], k + 2))
  {
    var s := One(Polling, Idle, x, None, map[k := Answered(kind, Success, "")], k + 1);
    var z := One(Polling, Idle, y, None, map[k + 1 := Waiting(NextKind(kind), false)], k + 2);
    var x1 := x.(token := OnThread(0), trail := x.trail + [Success]);
    TakesHandler(k, kind, Success, "", x, x1);
    PassesGuard(k, kind, x1);
    StartsNext(k, kind, x1.(cancelGuard := Some(0)), y);
    var three := [Step(0), Step(0), Step(0)];
    JoinRuns(Apply(s, Dispatch(0, k)), three,
             One(InHand(0, kind, Success, "", UnlockGuard), Idle, x1.(cancelGuard := Some(0)), None, map[], k + 1),
             three, z);
    acts := [Dispatch(0, k)] + (three + three);
    assert acts[1..] == three + three;
  }

  // ---- the last operation ends the request ---------------------------------------------------------

  /** What the last handler leaves in the session's result fields. */
  function Recorded(x: Session, ec: ErrorCode, data: string): Session {
    if ec != Success then x.(ec := ec) else x.(response := LineOf(data))
  }

  lemma Removes(k: nat, kind: OpKind, ec: ErrorCode, data: string, x: Session)
    requires (kind == ReadUntil || ec != Success) && x.id == 7
    ensures Runs(One(InHand(0, kind, ec, data, Enter), Idle, x, None, map[], k), [Step(0), Step(0), Step(0)],
                 One(InHand(0, kind, ec, data, Erase), Idle, Recorded(x, ec, data), Some(0), map[], k))
  {
    var y := Recorded(x, ec, data);
    Three(One(InHand(0, kind, ec, data, Enter), Idle, x, None, map[], k), Step(0), Step(0), Step(0),
          One(InHand(0, kind, ec, data, Shutdown), Idle, y, None, map[], k),
          One(InHand(0, kind, ec, data, LockMap), Idle, y, None, map[], k),
          One(InHand(0, kind, ec, data, Erase), Idle, y, Some(0), map[], k));
  }

  lemma Erases(k: nat, kind: OpKind, ec: ErrorCode, data: string, x: Session, y: Session)
    requires x.id == 7 && y == x.(erased := true)
    ensures Runs(One(InHand(0, kind, ec, data, Erase), Idle, x, Some(0), map[], k), [Step(0), Step(0)],
                 Unlisted(InHand(0, kind, ec, data, ComputeEc), Idle, y, None, k))
  {
    assert map[7 := 0] - {7} == map[];
    Two(One(InHand(0, kind, ec, data, Erase), Idle, x, Some(0), map[], k), Step(0), Step(0),
        Unlisted(InHand(0, kind, ec, data, UnlockMap), Idle, y, Some(0), k),
        Unlisted(InHand(0, kind, ec, data, ComputeEc), Idle, y, None, k));
  }

  lemma CallsBack(k: nat, kind: OpKind, ec: ErrorCode, data: string, x: Session, y: Session)
    requires var verdict := if x.ec == Success && x.wasCancelled then OperationAborted else x.ec;
      y == x.(calls := x.calls + [Call(x.response, verdict)], token := Finished)
    ensures Runs(Unlisted(InHand(0, kind, ec, data, ComputeEc), Idle, x, None, k), [Step(0), Step(0)],
                 Unlisted(InHand(0, kind, ec, data, Unwind), Idle, y, None, k))
  {
    var verdict := if x.ec == Success && x.wasCancelled then OperationAborted else x.ec;
    Two(Unlisted(InHand(0, kind, ec, data, ComputeEc), Idle, x, None, k), Step(0), Step(0),
        Unlisted(InHand(0, kind, ec, data, RunCallback(verdict)), Idle, x, None, k),
        Unlisted(InHand(0, kind, ec, data, Unwind), Idle, y, None, k));
  }

  /** From the last result, the read's or an error, to the callback. */
  lemma Finishes(k: nat, kind: OpKind, ec: ErrorCode, data: string, x: Session, y: Session) returns (acts: seq<Action>)
    requires (kind == ReadUntil || ec != Success) && x.id == 7 && x.calls == [] && x.ec == Success
    requires var r := Recorded(x, ec, data);
      var verdict := if ec == Success && x.wasCancelled then OperationAborted else ec;
      y == r.(trail := x.trail + [ec], erased := true, token := Finished, calls := [Call(r.response, verdict)])
    ensures Plain(acts)
    ensures Runs(One(Polling, Idle, x, None, map[k := Answered(kind, ec, data)], k + 1), acts,
                 Unlisted(InHand(0, kind, ec, data, Unwind), Idle, y, None, k + 1))
  {
    var s := One(Polling, Idle, x, None, map[k := Answered(kind, ec, data)], k + 1);
    var x1 := x.(token := OnThread(0), trail := x.trail + [ec]);
    var x2 := Recorded(x1, ec, data);
    var s1 := One(InHand(0, kind, ec, data, Enter), Idle, x1, None, map[], k + 1);
    var s2 := One(InHand(0, kind, ec, data, Erase), Idle, x2, Some(0), map[], k + 1);
    var s3 := Unlisted(InHand(0, kind, ec, data, ComputeEc), Idle, x2.(erased := true), None, k + 1);
    var z := Unlisted(InHand(0, kind, ec, data, Unwind), Idle, y, None, k + 1);
    TakesHandler(k, kind, ec, data, x, x1);
    Removes(k + 1, kind, ec, data, x1);
    Erases(k + 1, kind, ec, data, x2, x2.(erased := true));
    CallsBack(k + 1, kind, ec, data, x2.(erased := true), y);
    var two, three := [Step(0), Step(0)], [Step(0), Step(0), Step(0)];
    JoinRuns(s1, three, s2, two, s3);
    JoinRuns(s1, three + two, s3, two, z);
    acts := [Dispatch(0, k)] + (three + two + two);
    assert acts[1..] == three + two + two;
  }

  // ---- a cancelRequest during the connect aborts it ---------------------------------------------------

  lemma LooksUp(x: Session, ops: map<nat, Op>)
    ensures Runs(One(Polling, Idle, x, None, ops, 1), [CallCancel(1, 7), Step(1), Step(1)],
                 One(Polling, Cancelling(7, 0, CanLockGuard), x.(finds := x.finds + 1), Some(1), ops, 1))
  {
    Three(One(Polling, Idle, x, None, ops, 1), CallCancel(1, 7), Step(1), Step(1),
          One(Polling, Cancelling(7, 0, CanLock), x, None, ops, 1),
          One(Polling, Cancelling(7, 0, CanFind), x, Some(1), ops, 1),
          One(Polling, Cancelling(7, 0, CanLockGuard), x.(finds := x.finds + 1), Some(1), ops, 1));
  }

  lemma Flags(x: Session, y: Session)
    requires x.cancelGuard == None && x.token == InFlight(0)
    requires y == x.(cancelGuard := Some(1), wasCancelled := true)
    ensures Runs(One(Polling, Cancelling(7, 0, CanLockGuard), x, Some(1), map[0 := Waiting(Connect, false)], 1),
                 [Step(1), Step(1), Step(1)],
                 One(Polling, Cancelling(7, 0, CanUnlockGuard), y, Some(1), map[0 := Waiting(Connect, true)], 1))
  {
    Three(One(Polling, Cancelling(7, 0, CanLockGuard), x, Some(1), map[0 := Waiting(Connect, false)], 1),
          Step(1), Step(1), Step(1),
          One(Polling, Cancelling(7, 0, CanSetFlag), x.(cancelGuard := Some(1)), Some(1),
              map[0 := Waiting(Connect, false)], 1),
          One(Polling, Cancelling(7, 0, CanCancelSocket), y, Some(1), map[0 := Waiting(Connect, false)], 1),
          One(Polling, Cancelling(7, 0, CanUnlockGuard), y, Some(1), map[0 := Waiting(Connect, true)], 1));
  }

  lemma Unlocks(x: Session, ops: map<nat, Op>)
    ensures Runs(One(Polling, Cancelling(7, 0, CanUnlockGuard), x, Some(1), ops, 1), [Step(1), Step(1)],
                 One(Polling, Idle, x.(cancelGuard := None), None, ops, 1))
  {
    Two(One(Polling, Cancelling(7, 0, CanUnlockGuard), x, Some(1), ops, 1), Step(1), Step(1),
        One(Polling, Cancelling(7, 0, CanUnlock), x.(cancelGuard := None), Some(1), ops, 1),
        One(Polling, Idle, x.(cancelGuard := None), None, ops, 1));
  }

  /** A whole cancelRequest(7) call while the connect is in flight. */
  lemma Cancels(x: Session, y: Session) returns (acts: seq<Action>)
    requires x.cancelGuard == None && x.token == InFlight(0)
    requires y == x.(finds := x.finds + 1, wasCancelled := true)
    ensures Runs(One(Polling, Idle, x, None, map[0 := Waiting(Connect, false)], 1), acts,
                 One(Polling, Idle, y, None, map[0 := Waiting(Connect, true)], 1))
  {
    var s := One(Polling, Idle, x, None, map[0 := Waiting(Connect, false)], 1);
    var x1 := x.(finds := x.finds + 1);
    var x2 := x1.(cancelGuard := Some(1), wasCancelled := true);
    var s1 := One(Polling, Cancelling(7, 0, CanLockGuard), x1, Some(1), map[0 := Waiting(Connect, false)], 1);
    var s2 := One(Polling, Cancelling(7, 0, CanUnlockGuard), x2, Some(1), map[0 := Waiting(Connect, true)], 1);
    LooksUp(x, map[0 := Waiting(Connect, false)]);
    Flags(x1, x2);
    Unlocks(x2, map[0 := Waiting(Connect, true)]);
    var a, b, c := [CallCancel(1, 7), Step(1), Step(1)], [Step(1), Step(1), Step(1)], [Step(1), Step(1)];
    JoinRuns(s, a, s1, b, s2);
    JoinRuns(s, a + b, s2, c, One(Polling, Idle, y, None, map[0 := Waiting(Connect, true)], 1));
    acts := a + b + c;
  }

  lemma OneMore(s: State, a: Action, z: State)
    requires Reachable(s) && Next(s, a, z)
    ensures Reachable(z)
  {
    assert [a][1..] == [];
    assert Runs(z, [], z);
    StaysReachable(s, [a], z);
  }

  lemma StartsOut(duration: nat)
    ensures Reachable(Unlisted(Polling, Submitting(0, SubLock), Submitted(duration), None, 0))
  {
    assert Init(1, 1).threads == [Polling, Idle];
    assert Runs(Init(1, 1), [], Init(1, 1));
    OneMore(Init(1, 1), CallSubmit(1, 7, duration),
            Unlisted(Polling, Submitting(0, SubLock), Submitted(duration), None, 0));
  }

  lemma Aborts(x: Session)
    ensures Next(One(Polling, Idle, x, None, map[0 := Waiting(Connect, true)], 1), Complete(0, OperationAborted, ""),
                 One(Polling, Idle, x, None, map[0 := Answered(Connect, OperationAborted, "")], 1))
  {
  }

  /** A request that is cancelled while it connects can end as aborted, with nothing read. */
  lemma AbortHappens(duration: nat) returns (s: State)
    ensures Reachable(s) && |s.sessions| == 1 && s.sessions[0].finds == 1
    ensures s.sessions[0].trail == [OperationAborted] && s.sessions[0].calls == [Call("", OperationAborted)]
  {
    var x := Submitted(duration);
    StartsOut(duration);
    var acts := Submits(x, x.(token := InFlight(0)));
    x := x.(token := InFlight(0));
    s := One(Polling, Idle, x, None, map[0 := Waiting(Connect, false)], 1);
    StaysReachable(Unlisted(Polling, Submitting(0, SubLock), Submitted(duration), None, 0), acts, s);
    var y := x.(finds := 1, wasCancelled := true);
    acts := Cancels(x, y);
    StaysReachable(s, acts, One(Polling, Idle, y, None, map[0 := Waiting(Connect, true)], 1));
    s := AbortedEnds(y);
  }

  lemma AbortedEnds(y: Session) returns (s: State)
    requires Reachable(One(Polling, Idle, y, None, map[0 := Waiting(Connect, true)], 1))
    requires y.id == 7 && y.ec == Success && y.response == "" && y.trail == [] && y.calls == [] && y.finds == 1
    ensures Reachable(s) && |s.sessions| == 1 && s.sessions[0].finds == 1
    ensures s.sessions[0].trail == [OperationAborted] && s.sessions[0].calls == [Call("", OperationAborted)]
  {
    Aborts(y);
    OneMore(One(Polling, Idle, y, None, map[0 := Waiting(Connect, true)], 1), Complete(0, OperationAborted, ""),
            One(Polling, Idle, y, None, map[0 := Answered(Connect, OperationAborted, "")], 1));
    var z := Recorded(y, OperationAborted, "").(trail := [OperationAborted], erased := true, token := Finished,
                                                calls := [Call("", OperationAborted)]);
    s := AbortReported(y, z);
  }

  lemma AbortReported(y: Session, z: Session) returns (s: State)
    requires Reachable(One(Polling, Idle, y, None, map[0 := Answered(Connect, OperationAborted, "")], 1))
    requires y.id == 7 && y.ec == Success && y.response == "" && y.trail == [] && y.calls == []
    requires z == Recorded(y, OperationAborted, "").(trail := [OperationAborted], erased := true, token := Finished,
                                                     calls := [Call("", OperationAborted)])
    ensures Reachable(s) && s.sessions == [z]
  {
    var acts := Finishes(0, Connect, OperationAborted, "", y, z);
    s := Unlisted(InHand(0, Connect, OperationAborted, "", Unwind), Idle, z, None, 1);
    StaysReachable(One(Polling, Idle, y, None, map[0 := Answered(Connect, OperationAborted, "")], 1), acts, s);
  }
}
