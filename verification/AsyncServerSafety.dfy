/** Ownership of services, the accept chain, stopping, and equivalence with the iterative server. */
module AsyncServerSafety {
  import opened Connections
  import opened AsyncServerModel
  import opened AsyncServerInvariant
  import SyncServers

  // ---- longer runs --------------------------------------------------------------------------

  lemma {:induction false} AppendRuns(from: State, acts: seq<Action>, mid: State, more: seq<Action>, to: State)
    requires Runs(from, acts, mid) && Runs(mid, more, to)
    ensures Runs(from, acts + more, to)
    decreases |acts|
  {
    if acts == [] {
      assert acts + more == more;
    } else {
      assert (acts + more)[1..] == acts[1..] + more && (acts + more)[0] == acts[0];
      AppendRuns(Apply(from, acts[0]), acts[1..], mid, more, to);
    }
  }

  lemma StaysReachable(s: State, acts: seq<Action>, z: State)
    requires Reachable(s) && Runs(s, acts, z)
    ensures Reachable(z)
  {
    var pool: nat, before: seq<Action> :| pool > 0 && Runs(Started(pool), before, s);
    AppendRuns(Started(pool), before, s, acts, z);
  }

  // ---- ownership --------------------------------------------------------------------------

  /** Service `svc` is in the hands of an operation or a running handler, or has deleted itself. */
  predicate HeldBy(s: State, svc: nat, p: Token)
    requires svc < |s.services|
  {
    match p
    case InFlight(k) => k in s.ops && s.ops[k].kind in {ReadOp(svc), WriteOp(svc)}
    case OnThread(t) => t < |s.threads| && Uses(s.threads[t], svc)
    case Nowhere => s.services[svc].deletes == 1
  }

  /** Live services and outstanding operations or running handlers match one to one. */
  lemma ServiceOwnership(s: State, svc: nat, p: Token)
    requires Reachable(s) && svc < |s.services|
    ensures HeldBy(s, svc, p) <==> p == s.services[svc].token
    ensures s.services[svc].deletes <= 1
  {
    ReachableInv(s);
    assert ServiceOk(s, svc);
    match p
    case InFlight(k) => if HeldBy(s, svc, p) { assert OpTokenOk(s, k); }
    case OnThread(t) => if HeldBy(s, svc, p) { assert ThreadOk(s, t); }
    case Nowhere =>
  }

  /** No handler and no operation's buffer refers to a deleted service. */
  lemma NoUseAfterDelete(s: State, t: nat, k: nat, svc: nat)
    requires Reachable(s)
    requires || (t < |s.threads| && Uses(s.threads[t], svc))
             || (k in s.ops && s.ops[k].kind in {ReadOp(svc), WriteOp(svc)})
    ensures svc < |s.services| && s.services[svc].deletes == 0
  {
    ReachableInv(s);
    if t < |s.threads| && Uses(s.threads[t], svc) {
      assert ThreadOk(s, t);
    } else {
      assert OpTokenOk(s, k);
    }
  }

  function Live(s: State): set<int> {
    set svc | 0 <= svc < |s.services| && s.services[svc].deletes == 0
  }

  function Deleted(s: State): set<int> {
    set svc | 0 <= svc < |s.services| && s.services[svc].deletes == 1
  }

  lemma {:induction false} CountBelow(n: nat, c: set<int>)
    requires forall i :: i in c <==> 0 <= i < n
    ensures |c| == n
  {
    if n == 0 {
      assert forall i :: i !in c;
    } else {
      CountBelow(n - 1, c - {n - 1});
    }
  }

  /** Every accepted connection has one service, alive or deleted. */
  lemma Accounting(s: State)
    requires Reachable(s)
    ensures s.acceptor.accepted == |Live(s)| + |Deleted(s)| + Unbuilt(s)
  {
    ReachableInv(s);
    forall svc | 0 <= svc < |s.services| ensures s.services[svc].deletes <= 1 {
      assert ServiceOk(s, svc);
    }
    CountBelow(|s.services|, Live(s) + Deleted(s));
  }

  // ---- the accept chain ------------------------------------------------------------------------

  predicate ChainHeldBy(s: State, p: Token) {
    match p
    case InFlight(k) => k in s.ops && s.ops[k].kind == AcceptOp
    case OnThread(t) => t < |s.threads| && HasChain(s.threads[t])
    case Nowhere => !s.acceptor.isOpen
  }

  /** One outstanding accept or one handler before its rearm, until the acceptor closes, once. */
  lemma AcceptChain(s: State, p: Token)
    requires Reachable(s)
    ensures ChainHeldBy(s, p) <==> p == s.acceptor.token
    ensures s.acceptor.closes <= 1 && (s.acceptor.closes == 1 <==> !s.acceptor.isOpen)
    ensures !s.acceptor.isOpen ==> s.acceptor.isStopped
  {
    ReachableInv(s);
    if s.acceptor.token.OnThread? {
      assert ThreadOk(s, s.acceptor.token.t);
    }
    match p
    case InFlight(k) => if ChainHeldBy(s, p) { assert OpTokenOk(s, k); }
    case OnThread(t) => if ChainHeldBy(s, p) { assert ThreadOk(s, t); }
    case Nowhere =>
  }

  /** After Acceptor::Stop at most one more service is created, and none by a closed acceptor. */
  lemma AtMostOneLateService(s: State)
    requires Reachable(s)
    ensures s.acceptor.createdLate <= 1
    ensures !s.acceptor.isStopped ==> s.acceptor.createdLate == 0
  {
    ReachableInv(s);
  }

  /** Whoever initiates an accept finds the acceptor open. */
  lemma NoAcceptAfterClose(s: State, a: Action, k: nat)
    requires Reachable(s) && Enabled(s, a) && k in Apply(s, a).ops && k !in s.ops
    requires Apply(s, a).ops[k].kind == AcceptOp
    ensures s.acceptor.isOpen && s.acceptor.token == OnThread(a.t) && k == s.nextOp
  {
    ReachableInv(s);
    assert ThreadOk(s, a.t);
  }

  // ---- stopping ----------------------------------------------------------------------------------

  predicate HasJoined(pc: Pc, i: nat) {
    pc.Stopped? || (pc.Joining? && i < pc.next)
  }

  predicate JoinedExited(s: State) {
    |s.threads| == s.pool + 1
    && forall i :: 0 <= i < s.pool && HasJoined(s.threads[s.pool], i) ==> s.threads[i].Exited?
  }

  lemma JoinStays(s: State, a: Action)
    requires Inv(s) && JoinedExited(s) && Enabled(s, a)
    ensures JoinedExited(Apply(s, a))
  {
    assert ThreadOk(s, s.pool);
    InvStep(s, a);
    var z := Apply(s, a);
    forall i | 0 <= i < s.pool && HasJoined(z.threads[s.pool], i) ensures z.threads[i].Exited? {
      assert ThreadOk(s, i);
    }
  }

  lemma {:induction false} JoinRuns(from: State, acts: seq<Action>, to: State)
    requires Inv(from) && JoinedExited(from) && Runs(from, acts, to)
    ensures JoinedExited(to)
    decreases |acts|
  {
    if acts != [] {
      InvStep(from, acts[0]);
      JoinStays(from, acts[0]);
      JoinRuns(Apply(from, acts[0]), acts[1..], to);
    }
  }

  /** When Stop has returned, the pool has exited. */
  lemma StoppedMeansExited(s: State)
    requires Reachable(s) && s.pool < |s.threads| && s.threads[s.pool] == Stopped
    ensures forall t :: 0 <= t < s.pool ==> s.threads[t] == Exited
  {
    var pool: nat, acts: seq<Action> :| pool > 0 && Runs(Started(pool), acts, s);
    InvStarted(pool);
    JoinRuns(Started(pool), acts, s);
    forall t | 0 <= t < s.pool ensures s.threads[t] == Exited {
      assert HasJoined(s.threads[s.pool], t);
    }
  }

  /**
   When Stop has returned, nothing runs any more, and the services still alive are
   exactly those whose operation `m_ios.stop()` has abandoned.
   */
  lemma OnlyAbandonedLive(s: State, svc: nat)
    requires Reachable(s) && s.pool < |s.threads| && s.threads[s.pool] == Stopped && svc < |s.services|
    ensures forall t :: 0 <= t < s.pool ==> s.threads[t] == Exited
    ensures s.services[svc].deletes == 0 <==>
      s.services[svc].token.InFlight? && s.services[svc].token.k in s.ops
    ensures s.acceptor.accepted == |s.services|
  {
    StoppedMeansExited(s);
    ReachableInv(s);
    assert ServiceOk(s, svc);
    assert ThreadOk(s, s.pool);
  }

  /** Once no connection has an operation or a handler left, every service is deleted. */
  lemma DrainedDeletesAll(s: State, svc: nat)
    requires Reachable(s) && svc < |s.services|
    requires forall k :: k in s.ops ==> s.ops[k].kind == AcceptOp
    requires forall t :: 0 <= t < |s.threads| ==> !UsesSome(s.threads[t])
    ensures s.services[svc].deletes == 1 && s.services[svc].conn.stage == Gone
  {
    ReachableInv(s);
    assert ServiceOk(s, svc);
  }

  // ---- equivalence with the iterative server -----------------------------------------------------

  function Conns(s: State): seq<Conn> {
    seq(|s.services|, svc requires 0 <= svc < |s.services| => s.services[svc].conn)
  }

  /** What an action means for the connections. */
  function EventOf(s: State, a: Action): seq<Event>
    requires Enabled(s, a)
  {
    if !a.Step? then []
    else
      match s.threads[a.t]
      case Accepting(_, at) => if at == NewService then [Open(|s.services|)] else []
      case Receiving(svc, ok, data, at) => (
        match at
        case CheckRead => [At(svc, if ok then ReadLine(data) else ReadFails)]
        case ProcessRequest => [At(svc, Process)]
        case DeleteUnread => [At(svc, Finish)]
        case _ => [])
      case Sending(svc, ok, count, at) => (
        match at
        case CheckWrite => [At(svc, if ok then WriteAll else WriteFails(count))]
        case DeleteSent => [At(svc, Finish)]
        case SendDone => [])
      case _ => []
  }

  lemma OneEvent(conns: seq<Conn>, e: Event)
    requires ParallelCan(conns, e)
    ensures Parallel(conns, [e], Next(conns, e))
  {
    assert [e][1..] == [];
  }

  /** The connection's part of a handler's step. */
  lemma ConnMoves(t: nat, svc: nat, v: View)
    requires UsesSome(v.pc) && FocusOf(v.pc, svc) == svc && LocalOk(t, v)
    ensures var w := StepView(t, v);
      match v.pc {
        case Receiving(_, ok, data, at) => (
          match at
          case CheckRead =>
            var m := if ok then ReadLine(data) else ReadFails;
            Can(v.x.conn, m) && w.x.conn == Do(v.x.conn, m)
          case ProcessRequest => Can(v.x.conn, Process) && w.x.conn == Do(v.x.conn, Process)
          case DeleteUnread => Can(v.x.conn, Finish) && w.x.conn == Do(v.x.conn, Finish)
          case _ => w.x.conn == v.x.conn)
        case Sending(_, ok, count, at) => (
          match at
          case CheckWrite =>
            var m := if ok then WriteAll else WriteFails(count);
            Can(v.x.conn, m) && w.x.conn == Do(v.x.conn, m)
          case _ => Can(v.x.conn, Finish) && w.x.conn == Do(v.x.conn, Finish))
        case _ => w.x.conn == v.x.conn
      }
  {
  }

  lemma ActionIsEvent(s: State, a: Action)
    requires Inv(s) && Enabled(s, a)
    ensures Parallel(Conns(s), EventOf(s, a), Conns(Apply(s, a)))
  {
    var events, z := EventOf(s, a), Apply(s, a);
    if a.Step? && UsesSome(s.threads[a.t]) {
      var svc := Focus(s, a.t);
      assert ThreadOk(s, a.t);
      ConnMoves(a.t, svc, LookAt(s, a.t, svc));
      if events == [] {
        assert Conns(z) == Conns(s);
      } else {
        OneEvent(Conns(s), events[0]);
        assert events == [events[0]] && Conns(z) == Next(Conns(s), events[0]);
      }
    } else if a.Step? && s.threads[a.t].Accepting? && s.threads[a.t].aat == NewService {
      OneEvent(Conns(s), Open(|s.services|));
      assert Conns(z) == Next(Conns(s), Open(|s.services|));
    } else {
      assert Conns(z) == Conns(s);
    }
  }

  function Trace(from: State, acts: seq<Action>): seq<Event>
    decreases |acts|
  {
    if acts == [] || !Enabled(from, acts[0]) then []
    else EventOf(from, acts[0]) + Trace(Apply(from, acts[0]), acts[1..])
  }

  lemma {:induction false} RunsAreParallel(from: State, acts: seq<Action>, to: State)
    requires Inv(from) && Runs(from, acts, to)
    ensures Parallel(Conns(from), Trace(from, acts), Conns(to))
    decreases |acts|
  {
    if acts != [] {
      var next := Apply(from, acts[0]);
      ActionIsEvent(from, acts[0]);
      InvStep(from, acts[0]);
      RunsAreParallel(next, acts[1..], to);
      Paste(Conns(from), EventOf(from, acts[0]), Conns(next), Trace(next, acts[1..]), Conns(to));
    }
  }

  /**
   Main result: for any pool size and any schedule, a drained run of the asynchronous
   server is, after exchanging steps of different connections only, a run of the
   iterative server's loop that gives every connection the same bytes.
   */
  lemma AsyncIsSerial(pool: nat, acts: seq<Action>, s: State)
    requires pool > 0 && Runs(Started(pool), acts, s)
    requires forall svc :: 0 <= svc < |s.services| ==> s.services[svc].deletes == 1
    ensures var trace := Trace(Started(pool), acts);
      Reorders(trace, Serialize(trace)) && SyncServers.IterativeRun(Serialize(trace), Conns(s))
  {
    InvStarted(pool);
    InvRuns(Started(pool), acts, s);
    RunsAreParallel(Started(pool), acts, s);
    assert Conns(Started(pool)) == [];
    forall svc | 0 <= svc < |s.services| ensures s.services[svc].conn.stage == Gone {
      assert ServiceOk(s, svc);
    }
    SyncServers.ParallelIsIterative(Trace(Started(pool), acts), Conns(s));
  }
}
