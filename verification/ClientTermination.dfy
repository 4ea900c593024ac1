/** Once submissions are over every run is finite, and where it ends everything is done. */
module ClientTermination {
  import opened Sums
  import opened ClientModel
  import opened ClientInvariant
  import opened ClientRuns
  import opened ClientProgress
  import opened ClientDeadlock

  // ---- remaining work ------------------------------------------------------------------

  /** What is left for the operations that follow `kind`. */
  function After(kind: OpKind): nat {
    match kind
    case Connect => 30
    case Write => 15
    case ReadUntil => 0
  }

  function PcRank(pc: Pc, ioThreads: nat): nat {
    match pc
    case Polling => 1
    case Handling(_, kind, _, _, _, at) => (
      match at
      case Enter => 14 + After(kind)
      case LockGuard => 13 + After(kind)
      case TestFlag => 12 + After(kind)
      case UnlockGuard => 11 + After(kind)
      case Initiate => 10 + After(kind)
      case Shutdown => 9
      case LockMap => 8
      case Erase => 7
      case UnlockMap => 6
      case ComputeEc => 5
      case RunCallback(_) => 4
      case Unwind => 3
      case Return => 2)
    case Submitting(_, at) => (
      match at
      case SubLock => 50
      case SubInsert => 49
      case SubUnlock => 48
      case SubConnect => 47
      case SubReturn => 1)
    case Cancelling(_, _, at) => (
      match at
      case CanLock => 7
      case CanFind => 6
      case CanLockGuard => 5
      case CanSetFlag => 4
      case CanCancelSocket => 3
      case CanUnlockGuard => 2
      case CanUnlock => 1)
    case Joining(next) => if next <= ioThreads then 1 + ioThreads - next else 1
    case _ => 0
  }

  /** What is left for a session whose token an operation has. */
  function TokenRank(token: Token, ops: map<nat, Op>): nat {
    if token.InFlight? && token.k in ops then
      var op := ops[token.k];
      After(op.kind) + if op.state.Pending? then 15 else 14
    else 0
  }

  function PcRanks(s: State): seq<nat> {
    seq(|s.threads|, t requires 0 <= t < |s.threads| => PcRank(s.threads[t], s.ioThreads))
  }

  function TokenRanks(s: State): seq<nat> {
    seq(|s.sessions|, sid requires 0 <= sid < |s.sessions| => TokenRank(s.sessions[sid].token, s.ops))
  }

  /** The steps that threads, handlers and the network still have to make. */
  function Remaining(s: State): nat {
    Sum(PcRanks(s)) + Sum(TokenRanks(s))
  }

  // ---- each step reduces it ---------------------------------------------------------------

  function ViewRank(v: View): nat {
    PcRank(v.pc, 0) + TokenRank(v.x.token, v.ops)
  }

  /** One thread and at most one session change: the sum changes by their difference. */
  lemma MoveRank(s: State, t: nat, sid: nat, w: View)
    requires t < |s.threads| && !w.pc.Joining? && !s.threads[t].Joining?
    requires forall j :: 0 <= j < |s.sessions| && j != sid ==>
      TokenRank(s.sessions[j].token, w.ops) == TokenRank(s.sessions[j].token, s.ops)
    requires ViewRank(w) < ViewRank(LookAt(s, t, sid))
    requires sid >= |s.sessions| ==> PcRank(w.pc, 0) < PcRank(s.threads[t], 0)
    ensures Remaining(Put(s, t, sid, w)) < Remaining(s)
  {
    var z := Put(s, t, sid, w);
    SumUpdate(PcRanks(s), t, PcRank(w.pc, s.ioThreads));
    assert PcRanks(z) == PcRanks(s)[t := PcRank(w.pc, s.ioThreads)];
    if sid < |s.sessions| {
      SumUpdate(TokenRanks(s), sid, TokenRank(w.x.token, w.ops));
      assert TokenRanks(z) == TokenRanks(s)[sid := TokenRank(w.x.token, w.ops)];
    } else {
      assert TokenRanks(z) == TokenRanks(s);
    }
  }

  lemma LambdaRank(t: nat, sid: nat, v: View)
    requires Poised(t, sid, v) && v.pc.Handling? && (v.pc.at == Enter || Continues(v.pc.at))
    ensures ViewRank(StepView(t, v)) < ViewRank(v)
  {
  }

  lemma CompletionRank(t: nat, sid: nat, v: View)
    requires Poised(t, sid, v) && v.pc.Handling? && !(v.pc.at == Enter || Continues(v.pc.at))
    ensures ViewRank(StepView(t, v)) < ViewRank(v)
  {
  }

  lemma UserRank(t: nat, sid: nat, v: View)
    requires Poised(t, sid, v) && !v.pc.Handling?
    ensures var w := StepView(t, v);
      ViewRank(w) < ViewRank(v) && (!Touches(v) ==> PcRank(w.pc, 0) < PcRank(v.pc, 0))
  {
  }

  lemma StepRank(t: nat, sid: nat, v: View)
    requires Poised(t, sid, v)
    ensures var w := StepView(t, v);
      ViewRank(w) < ViewRank(v) && (!Touches(v) ==> PcRank(w.pc, 0) < PcRank(v.pc, 0))
  {
    if !v.pc.Handling? {
      UserRank(t, sid, v);
    } else if v.pc.at == Enter || Continues(v.pc.at) {
      LambdaRank(t, sid, v);
    } else {
      CompletionRank(t, sid, v);
    }
  }

  lemma WorkRank(s: State, t: nat)
    requires Inv(s) && t < |s.threads| && Works(s.threads[t]) && CanStep(s, t)
    ensures Remaining(StepThread(s, t)) < Remaining(s)
  {
    var sid, v := Focus(s, t), Look(s, t);
    var w := StepView(t, v);
    FocusedIsPoised(s, t);
    StepRank(t, sid, v);
    StepIsGoodMove(s, t);
    GoodMoveRank(s, t, sid, w);
  }

  lemma GoodMoveRank(s: State, t: nat, sid: nat, w: View)
    requires Inv(s) && t < |s.threads| && GoodMove(s, t, sid, w)
    requires !w.pc.Joining? && !s.threads[t].Joining?
    requires ViewRank(w) < ViewRank(LookAt(s, t, sid))
    requires sid >= |s.sessions| ==> PcRank(w.pc, 0) < PcRank(s.threads[t], 0)
    ensures Remaining(Put(s, t, sid, w)) < Remaining(s)
  {
    forall j | 0 <= j < |s.sessions| && j != sid
      ensures TokenRank(s.sessions[j].token, w.ops) == TokenRank(s.sessions[j].token, s.ops)
    {
      assert SessionOk(s, j);
    }
    MoveRank(s, t, sid, w);
  }

  lemma PcRankDrops(s: State, t: nat, pc: Pc)
    requires t < |s.threads| && PcRank(pc, s.ioThreads) < PcRank(s.threads[t], s.ioThreads)
    ensures Remaining(SetPc(s, t, pc)) < Remaining(s)
  {
    var z := SetPc(s, t, pc);
    SumUpdate(PcRanks(s), t, PcRank(pc, s.ioThreads));
    assert PcRanks(z) == PcRanks(s)[t := PcRank(pc, s.ioThreads)];
    assert TokenRanks(z) == TokenRanks(s);
  }

  lemma CompleteRank(s: State, k: nat, ec: ErrorCode, data: string)
    requires Inv(s) && Enabled(s, Complete(k, ec, data))
    ensures Remaining(Apply(s, Complete(k, ec, data))) < Remaining(s)
  {
    var z := Apply(s, Complete(k, ec, data));
    assert OpTokenOk(s, k);
    var sid := s.ops[k].sid;
    forall j | 0 <= j < |s.sessions| && j != sid
      ensures TokenRank(s.sessions[j].token, z.ops) == TokenRank(s.sessions[j].token, s.ops)
    {
      assert SessionOk(s, j);
    }
    var r := TokenRank(s.sessions[sid].token, z.ops);
    SumUpdate(TokenRanks(s), sid, r);
    assert TokenRanks(z) == TokenRanks(s)[sid := r];
    assert PcRanks(z) == PcRanks(s);
  }

  /** Everything but a new user call brings the client closer to its end. */
  lemma ActionRank(s: State, a: Action)
    requires Inv(s) && Winding(s) && Enabled(s, a) && !IsCall(a)
    ensures Remaining(Apply(s, a)) < Remaining(s)
  {
    match a
    case Step(t) =>
      if Works(s.threads[t]) {
        WorkRank(s, t);
      } else {
        assert ThreadWinds(s, t);
        PcRankDrops(s, t, StepThread(s, t).threads[t]);
      }
    case Complete(k, ec, data) => CompleteRank(s, k, ec, data);
    case Dispatch(t, k) =>
      DispatchIsGoodMove(s, t, k);
      assert OpTokenOk(s, k);
      GoodMoveRank(s, t, s.ops[k].sid, DispatchView(s, t, k));
    case ExitRun(t) => PcRankDrops(s, t, Exited);
  }

  /** A cancelRequest call adds its own steps, and nothing else does once submissions are over. */
  lemma CancelRank(s: State, a: Action)
    requires Enabled(s, a) && a.CallCancel?
    ensures Remaining(Apply(s, a)) == Remaining(s) + 7
  {
    var z := Apply(s, a);
    var rank := PcRank(Cancelling(a.id, 0, CanLock), s.ioThreads);
    SumUpdate(PcRanks(s), a.t, rank);
    assert PcRanks(z) == PcRanks(s)[a.t := rank];
    assert TokenRanks(z) == TokenRanks(s);
  }

  // ---- maximal runs --------------------------------------------------------------------------

  /** No request is submitted, and no close begins. */
  predicate NothingNew(acts: seq<Action>) {
    forall i :: 0 <= i < |acts| ==> !acts[i].CallSubmit? && !acts[i].CallClose?
  }

  function Cancellations(acts: seq<Action>): nat {
    if acts == [] then 0 else (if acts[0].CallCancel? then 1 else 0) + Cancellations(acts[1..])
  }

  lemma {:induction false} RunsAreFinite(from: State, acts: seq<Action>, to: State)
    requires Inv(from) && Winding(from) && Runs(from, acts, to) && NothingNew(acts)
    ensures |acts| + Remaining(to) <= Remaining(from) + 8 * Cancellations(acts)
    decreases |acts|
  {
    if acts != [] {
      if acts[0].CallCancel? {
        CancelRank(from, acts[0]);
      } else {
        ActionRank(from, acts[0]);
      }
      InvStep(from, acts[0]);
      WindingStays(from, acts[0]);
      RunsAreFinite(Apply(from, acts[0]), acts[1..], to);
    }
  }

  predicate Closes(pc: Pc) {
    pc.Joining? || pc.Closed?
  }

  lemma {:induction false} CloserStays(from: State, acts: seq<Action>, to: State, t: nat)
    requires Runs(from, acts, to) && t < |from.threads| && Closes(from.threads[t])
    ensures t < |to.threads| && Closes(to.threads[t])
    decreases |acts|
  {
    if acts != [] {
      CloserStays(Apply(from, acts[0]), acts[1..], to, t);
    }
  }

  lemma {:induction false} NothingNewAfterClose(from: State, acts: seq<Action>, to: State)
    requires Runs(from, acts, to) && !from.work
    ensures NothingNew(acts)
    decreases |acts|
  {
    if acts != [] {
      WorkEnds(from, acts[0]);
      NothingNewAfterClose(Apply(from, acts[0]), acts[1..], to);
    }
  }

  /** Where a closing client can only wait and is not deadlocked, everything is done. */
  lemma ClosedAtTheEnd(z: State, t: nat)
    requires Inv(z) && Winding(z) && z.ioThreads > 0 && Stuck(z)
    requires t < |z.threads| && Closes(z.threads[t])
    requires forall u, v :: !Deadlocked(z, u, v)
    ensures z.threads[t] == Closed && z.active == map[]
    ensures forall sid :: 0 <= sid < |z.sessions| ==> |z.sessions[sid].calls| == 1
  {
    StuckWithoutDeadlock(z);
    assert ThreadWinds(z, t) && HasJoined(z.threads[t], 0);
    assert ThreadWinds(z, 0);
    DrainedMeansDone(z);
  }

  /**
   Main result: once a thread is in `close()`, every schedule ends after at most
   `Remaining` steps and eight more per cancelRequest call. And unless some id was passed
   to cancelRequest twice, it ends with `close()` returned, every callback run exactly
   once, and nothing left in the map.
   */
  lemma CloseAlwaysReturns(n: nat, u: nat, before: seq<Action>, s: State, t: nat, acts: seq<Action>, z: State)
    requires n > 0 && Runs(Init(n, u), before, s) && t < |s.threads| && Closes(s.threads[t])
    requires Runs(s, acts, z)
    ensures |acts| <= Remaining(s) + 8 * Cancellations(acts)
    ensures Stuck(z) && CancelsAtMost(before + acts, 1) ==>
      && t < |z.threads| && z.threads[t] == Closed && z.active == map[]
      && forall sid :: 0 <= sid < |z.sessions| ==> |z.sessions[sid].calls| == 1
  {
    InvInit(n, u);
    WindingRuns(Init(n, u), before, s);
    assert ThreadWinds(s, t);
    NothingNewAfterClose(s, acts, z);
    RunsAreFinite(s, acts, z);
    WindingRuns(s, acts, z);
    CloserStays(s, acts, z, t);
    if Stuck(z) && CancelsAtMost(before + acts, 1) {
      JoinRuns(Init(n, u), before, s, acts, z);
      forall u', v ensures !Deadlocked(z, u', v) {
        NoDeadlock(n, u, before + acts, z, u', v);
      }
      ClosedAtTheEnd(z, t);
    }
  }
}
