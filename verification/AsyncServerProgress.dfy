/** The asynchronous server never blocks, and `Stop` returns. */
module AsyncServerProgress {
  import opened Text
  import opened Sums
  import opened AsyncServerModel
  import opened AsyncServerInvariant

  // ---- remaining work once the I/O service is stopped -----------------------------------------------

  function PcRank(pc: Pc, pool: nat): nat {
    match pc
    case Polling => 1
    case Exited => 0
    case Accepting(_, at) => (
      match at
      case NewService => 8
      case StartRead => 7
      case TestStop => 5
      case Rearm => 4
      case CloseAcceptor => 3
      case AcceptDone => 2)
    case Receiving(_, _, _, at) => (
      match at
      case CheckRead => 6
      case ProcessRequest => 5
      case StartWrite => 4
      case DeleteUnread => 3
      case ReceiveDone => 2)
    case Sending(_, _, _, at) => (
      match at
      case CheckWrite => 4
      case DeleteSent => 3
      case SendDone => 2)
    case Running => pool + 4
    case StopAcceptor => pool + 3
    case StopIos => pool + 2
    case Joining(next) => if next <= pool then 1 + pool - next else 1
    case Stopped => 0
  }

  /** The operations the network has not finished. */
  function Pending(ops: map<nat, Op>): set<nat> {
    set k | k in ops && ops[k].result.None?
  }

  function PcRanks(s: State): seq<nat> {
    seq(|s.threads|, t requires 0 <= t < |s.threads| => PcRank(s.threads[t], s.pool))
  }

  function Remaining(s: State): nat {
    Sum(PcRanks(s)) + |Pending(s.ops)|
  }

  lemma RankUpdate(s: State, z: State, t: nat)
    requires t < |s.threads| && z.pool == s.pool && t < |z.threads| && z.threads == s.threads[t := z.threads[t]]
    ensures Sum(PcRanks(z)) + PcRank(s.threads[t], s.pool) == Sum(PcRanks(s)) + PcRank(z.threads[t], s.pool)
  {
    SumUpdate(PcRanks(s), t, PcRank(z.threads[t], s.pool));
    assert PcRanks(z) == PcRanks(s)[t := PcRank(z.threads[t], s.pool)];
  }

  /** The thread's next step initiates an operation. */
  predicate Starts(pc: Pc) {
    || (pc.Accepting? && (pc.aat == StartRead || pc.aat == Rearm))
    || (pc.Receiving? && pc.rat == StartWrite)
  }

  function StartedKind(pc: Pc): Kind {
    match pc
    case Accepting(svc, at) => if at == StartRead then ReadOp(svc) else AcceptOp
    case Receiving(svc, _, _, _) => WriteOp(svc)
    case _ => AcceptOp
  }

  lemma StartSpends(s: State, t: nat)
    requires Enabled(s, Step(t)) && Starts(s.threads[t])
    ensures var z := Apply(s, Step(t));
      && z.pool == s.pool && z.iosStopped == s.iosStopped && t < |z.threads|
      && z.threads == s.threads[t := z.threads[t]] && z.ops == s.ops[s.nextOp := Op(StartedKind(s.threads[t]), None)]
      && PcRank(z.threads[t], s.pool) + 1 < PcRank(s.threads[t], s.pool)
  {
  }

  lemma StepSpends(s: State, t: nat)
    requires Enabled(s, Step(t)) && !Starts(s.threads[t])
    ensures var z := Apply(s, Step(t));
      && z.pool == s.pool && (s.iosStopped ==> z.iosStopped) && t < |z.threads|
      && z.threads == s.threads[t := z.threads[t]] && z.ops == s.ops
      && PcRank(z.threads[t], s.pool) < PcRank(s.threads[t], s.pool)
  {
  }

  lemma StepRank(s: State, t: nat)
    requires Inv(s) && Enabled(s, Step(t))
    ensures Remaining(Apply(s, Step(t))) < Remaining(s) && (s.iosStopped ==> Apply(s, Step(t)).iosStopped)
  {
    var z := Apply(s, Step(t));
    if Starts(s.threads[t]) {
      StartSpends(s, t);
      assert s.nextOp in s.ops ==> OpTokenOk(s, s.nextOp);
      assert Pending(z.ops) == Pending(s.ops) + {s.nextOp};
    } else {
      StepSpends(s, t);
    }
    RankUpdate(s, z, t);
  }

  lemma ActionRank(s: State, act: Action)
    requires Inv(s) && s.iosStopped && Enabled(s, act)
    ensures Remaining(Apply(s, act)) < Remaining(s) && Apply(s, act).iosStopped
  {
    var z := Apply(s, act);
    match act
    case CallStop => RankUpdate(s, z, s.pool);
    case ExitRun(t) => RankUpdate(s, z, t);
    case Step(t) => StepRank(s, t);
    case Complete(k, _) =>
      assert Pending(z.ops) == Pending(s.ops) - {k};
      assert PcRanks(z) == PcRanks(s);
  }

  lemma {:induction false} StoppedRunsAreFinite(from: State, acts: seq<Action>, to: State)
    requires Inv(from) && from.iosStopped && Runs(from, acts, to)
    ensures |acts| + Remaining(to) <= Remaining(from) && to.iosStopped && Inv(to)
    decreases |acts|
  {
    if acts != [] {
      ActionRank(from, acts[0]);
      InvStep(from, acts[0]);
      StoppedRunsAreFinite(Apply(from, acts[0]), acts[1..], to);
    }
  }

  // ---- nothing blocks ---------------------------------------------------------------------------------

  /** Only the network, or a call of `Stop`, can make the server go on. */
  ghost predicate Quiet(s: State) {
    forall act :: Enabled(s, act) ==> act.Complete? || act.CallStop?
  }

  /** No handler of the pool ever waits for another thread. */
  lemma QuietPool(s: State, t: nat)
    requires Inv(s) && Quiet(s) && t < s.pool
    ensures s.threads[t] == if s.iosStopped then Exited else Polling
  {
    assert ThreadOk(s, t);
    assert !Enabled(s, Step(t)) && !Enabled(s, ExitRun(t));
  }

  /**
   Main result: once the I/O service is stopped every schedule ends, and where only the
   network could make it go on, the whole pool has exited and `Stop` has returned.
   */
  lemma StopAlwaysReturns(s: State, acts: seq<Action>, z: State)
    requires Reachable(s) && s.iosStopped && Runs(s, acts, z)
    ensures |acts| <= Remaining(s)
    ensures (forall act :: Enabled(z, act) ==> act.Complete?) ==>
      z.pool < |z.threads| && z.threads[z.pool] == Stopped && forall t :: 0 <= t < z.pool ==> z.threads[t] == Exited
  {
    ReachableInv(s);
    StoppedRunsAreFinite(s, acts, z);
    if forall act :: Enabled(z, act) ==> act.Complete? {
      forall t | 0 <= t < z.pool ensures z.threads[t] == Exited {
        QuietPool(z, t);
      }
      assert ThreadOk(z, z.pool);
      assert !Enabled(z, Step(z.pool)) && !Enabled(z, CallStop);
    }
  }

  /** How far the thread that calls `Stop` is from having stopped the I/O service. */
  predicate Stopping(s: State, steps: nat) {
    && s.pool < |s.threads|
    && if steps == 0 then s.iosStopped && (s.threads[s.pool].Joining? || s.threads[s.pool].Stopped?)
       else s.threads[s.pool] == if steps == 1 then StopIos else StopAcceptor
  }

  /** A step of the stopping thread brings it one step on; no other action sets it back. */
  lemma StoppingStays(s: State, act: Action, steps: nat)
    requires Inv(s) && Stopping(s, steps) && steps <= 2 && Enabled(s, act)
    ensures Stopping(Apply(s, act), if steps > 0 && act == Step(s.pool) then steps - 1 else steps)
  {
    assert ThreadOk(s, s.pool);
  }

  lemma {:induction false} StoppingRuns(from: State, acts: seq<Action>, to: State, steps: nat)
    requires Inv(from) && Stopping(from, steps) && steps <= 2 && Runs(from, acts, to)
    ensures multiset(acts)[Step(from.pool)] >= steps ==> Stopping(to, 0)
    decreases |acts|
  {
    if acts != [] {
      assert acts == [acts[0]] + acts[1..];
      var next := Apply(from, acts[0]);
      StoppingStays(from, acts[0], steps);
      InvStep(from, acts[0]);
      PoolStays(from, [acts[0]], next);
      StoppingRuns(next, acts[1..], to, if steps > 0 && acts[0] == Step(from.pool) then steps - 1 else steps);
    }
  }

  /** Two steps of its thread after the call, whatever others do, `Stop` has stopped the I/O service. */
  lemma StopStopsTheService(s: State, acts: seq<Action>, z: State)
    requires Reachable(s) && Enabled(s, CallStop) && Runs(Apply(s, CallStop), acts, z)
    requires multiset(acts)[Step(s.pool)] >= 2
    ensures z.iosStopped && z.acceptor.isStopped
  {
    ReachableInv(s);
    InvStep(s, CallStop);
    StoppingRuns(Apply(s, CallStop), acts, z, 2);
    PoolStays(Apply(s, CallStop), acts, z);
    InvRuns(Apply(s, CallStop), acts, z);
    assert ThreadOk(z, z.pool);
  }

  lemma {:induction false} PoolStays(from: State, acts: seq<Action>, to: State)
    requires Runs(from, acts, to)
    ensures to.pool == from.pool && |to.threads| == |from.threads|
    decreases |acts|
  {
    if acts != [] {
      PoolStays(Apply(from, acts[0]), acts[1..], to);
    }
  }

  lemma ReachablePool(s: State)
    requires Reachable(s)
    ensures Inv(s) && s.pool > 0
  {
    var pool: nat, acts: seq<Action> :| pool > 0 && Runs(Started(pool), acts, s);
    PoolStays(Started(pool), acts, s);
    ReachableInv(s);
  }

  /**
   A server that has nothing to do before its I/O service is stopped waits for the network:
   its pool is idle, `Stop` has not been called, every operation is with the network, every
   live service has one, and so has the acceptor.
   */
  lemma IdleMeansWaiting(s: State)
    requires Reachable(s) && Quiet(s) && !s.iosStopped
    ensures s.pool < |s.threads| && s.threads[s.pool] == Running
    ensures forall t :: 0 <= t < s.pool ==> s.threads[t] == Polling
    ensures forall k :: k in s.ops ==> s.ops[k].result == None
    ensures forall svc :: 0 <= svc < |s.services| && s.services[svc].deletes == 0 ==>
      s.services[svc].token.InFlight? && s.services[svc].token.k in s.ops
    ensures s.acceptor.isOpen ==> s.acceptor.token.InFlight? && s.acceptor.token.k in s.ops
  {
    ReachablePool(s);
    forall t | 0 <= t < s.pool ensures s.threads[t] == Polling {
      QuietPool(s, t);
    }
    forall k | k in s.ops ensures s.ops[k].result == None {
      assert !Enabled(s, Dispatch(0, k));
    }
    assert ThreadOk(s, s.pool) && !Enabled(s, Step(s.pool));
    forall svc | 0 <= svc < |s.services| && s.services[svc].deletes == 0
      ensures s.services[svc].token.InFlight? && s.services[svc].token.k in s.ops
    {
      assert ServiceOk(s, svc);
    }
  }
}
