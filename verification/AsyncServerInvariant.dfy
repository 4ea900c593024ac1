/** The inductive invariant of the asynchronous server, again by rely and guarantee. */
module AsyncServerInvariant {
  import opened Connections
  import opened AsyncServerModel

  // ---- what a program counter implies ---------------------------------------------------

  predicate HasChain(pc: Pc) {
    pc.Accepting? && pc.aat != AcceptDone
  }

  /** The thread may touch the service object. */
  predicate Uses(pc: Pc, svc: nat) {
    || (pc.Accepting? && pc.aat == StartRead && pc.svc == svc)
    || (pc.Receiving? && pc.rat != ReceiveDone && pc.svc == svc)
    || (pc.Sending? && pc.sat != SendDone && pc.svc == svc)
  }

  predicate UsesSome(pc: Pc) {
    || (pc.Accepting? && pc.aat == StartRead)
    || (pc.Receiving? && pc.rat != ReceiveDone)
    || (pc.Sending? && pc.sat != SendDone)
  }

  predicate PoolPc(pc: Pc) {
    pc.Polling? || pc.Exited? || Works(pc)
  }

  function StageAt(pc: Pc): Stage
    requires UsesSome(pc)
  {
    match pc
    case Accepting(_, _) => Reading
    case Receiving(_, _, _, at) => (
      match at
      case CheckRead => Reading
      case ProcessRequest => Processing
      case StartWrite => Writing
      case DeleteUnread => Finishing
      case ReceiveDone => Gone)
    case Sending(_, _, _, at) => if at == CheckWrite then Writing else Finishing
    case _ => Gone
  }

  // ---- the invariant, piece by piece -----------------------------------------------------------

  /** The object's strings are what its connection has seen. */
  predicate Faithful(x: Service) {
    && x.request == x.conn.request && x.response == x.conn.response
    && (x.conn.stage == Writing ==> x.response == RESPONSE)
    && x.deletes == (if x.token == Nowhere then 1 else 0)
    && (x.token == Nowhere <==> x.conn.stage == Gone)
  }

  predicate LocalOk(t: nat, v: View) {
    var pc, x, acc := v.pc, v.x, v.acceptor;
    && (HasChain(pc) ==> acc.token == OnThread(t) && acc.isOpen)
    && (pc.Accepting? && pc.aat == CloseAcceptor ==> acc.isStopped)
    && (UsesSome(pc) ==> x.token == OnThread(t) && Faithful(x) && x.conn.stage == StageAt(pc))
    && (pc.Receiving? && pc.rat == CheckRead && pc.ok ==> '\n' in pc.data)
    && (pc.Sending? && pc.sat == CheckWrite && !pc.ok ==> pc.count <= |x.response|)
  }

  predicate ThreadOk(s: State, t: nat)
    requires t < |s.threads|
  {
    var pc := s.threads[t];
    && (t < s.pool <==> PoolPc(pc))
    && (UsesSome(pc) ==> Focus(s, t) < |s.services|)
    && (pc.Exited? || pc.Joining? || pc.Stopped? ==> s.iosStopped)
    && (pc.Running? || pc.StopAcceptor? <==> t == s.pool && !s.acceptor.isStopped)
    && LocalOk(t, LookAt(s, t, Focus(s, t)))
  }

  predicate OpOk(x: Service, op: Op) {
    match op.kind
    case AcceptOp => true
    case ReadOp(_) =>
      Faithful(x) && x.conn.stage == Reading && (op.result.Some? && op.result.value.ok ==> '\n' in op.result.value.data)
    case WriteOp(_) =>
      Faithful(x) && x.conn.stage == Writing
      && (op.result.Some? && !op.result.value.ok ==> op.result.value.count <= |x.response|)
  }

  predicate OpTokenOk(s: State, k: nat)
    requires k in s.ops
  {
    var op := s.ops[k];
    && k < s.nextOp
    && if op.kind == AcceptOp then s.acceptor.token == InFlight(k)
       else
         var svc := OpFocus(op.kind, 0);
         svc < |s.services| && s.services[svc].token == InFlight(k) && OpOk(s.services[svc], op)
  }

  predicate ServiceOk(s: State, svc: nat)
    requires svc < |s.services|
  {
    var x := s.services[svc];
    && Faithful(x)
    && match x.token
       case OnThread(t) => t < |s.threads| && Uses(s.threads[t], svc)
       case InFlight(k) => k in s.ops && s.ops[k].kind in {ReadOp(svc), WriteOp(svc)}
       case Nowhere => true
  }

  /** How many services the accept chain may still create once `Stop` has been called. */
  function Potential(s: State): nat {
    match s.acceptor.token
    case InFlight(_) => 1
    case OnThread(t) =>
      if t < |s.threads| && s.threads[t].Accepting? && (s.threads[t].aat == NewService || s.threads[t].aat == Rearm)
      then 1 else 0
    case Nowhere => 0
  }

  /** A successful accept whose service object is not built yet. */
  function Unbuilt(s: State): nat {
    match s.acceptor.token
    case OnThread(t) =>
      if t < |s.threads| && s.threads[t].Accepting? && s.threads[t].aat == NewService then 1 else 0
    case _ => 0
  }

  predicate ChainOk(s: State) {
    var acc := s.acceptor;
    && (match acc.token
        case OnThread(t) => t < |s.threads| && HasChain(s.threads[t])
        case InFlight(k) => k in s.ops && s.ops[k].kind == AcceptOp && acc.isOpen
        case Nowhere => !acc.isOpen)
    && acc.closes == (if acc.isOpen then 0 else 1)
    && (acc.token == Nowhere ==> acc.isStopped)
    && (if acc.isStopped then acc.createdLate + Potential(s) <= 1 else acc.createdLate == 0)
    && acc.accepted == |s.services| + Unbuilt(s)
  }

  ghost predicate Inv(s: State) {
    && |s.threads| == s.pool + 1
    && (forall t :: 0 <= t < |s.threads| ==> ThreadOk(s, t))
    && (forall svc :: 0 <= svc < |s.services| ==> ServiceOk(s, svc))
    && (forall k :: k in s.ops ==> OpTokenOk(s, k))
    && ChainOk(s)
  }

  lemma InvStarted(pool: nat)
    requires pool > 0
    ensures Inv(Started(pool))
  {
  }

  // ---- steps that touch one service -----------------------------------------------------------

  predicate Own(token: Token, t: nat) {
    token.OnThread? ==> token.t == t
  }

  /** Thread `t` may turn its view of service `svc` into `w`. */
  ghost predicate ServiceMove(t: nat, svc: nat, v: View, w: View) {
    && w.acceptor == v.acceptor && Own(v.x.token, t) && Own(w.x.token, t)
    && LocalOk(t, w) && PoolPc(w.pc) && PoolPc(v.pc) && !w.pc.Exited?
    && (UsesSome(v.pc) ==> FocusOf(v.pc, svc) == svc) && (UsesSome(w.pc) ==> FocusOf(w.pc, svc) == svc)
    && (HasChain(v.pc) ==> v.pc.aat == StartRead && HasChain(w.pc) && w.pc.aat == TestStop)
    && (HasChain(w.pc) ==> HasChain(v.pc))
    && Faithful(w.x)
    && (match w.x.token
        case OnThread(_) => Uses(w.pc, svc)
        case InFlight(k) => k in w.ops && w.ops[k].kind in {ReadOp(svc), WriteOp(svc)}
        case Nowhere => true)
  }

  ghost predicate OpsMove(svc: nat, v: View, w: View) {
    && w.nextOp >= v.nextOp
    && (forall k :: k in v.ops && v.ops[k].kind !in {ReadOp(svc), WriteOp(svc)} ==> k in w.ops && w.ops[k] == v.ops[k])
    && (forall k :: k in w.ops ==>
          if w.ops[k].kind in {ReadOp(svc), WriteOp(svc)}
          then w.x.token == InFlight(k) && k < w.nextOp && OpOk(w.x, w.ops[k])
          else k in v.ops && w.ops[k] == v.ops[k])
  }

  ghost predicate MyOps(svc: nat, v: View) {
    forall k :: k in v.ops ==>
      k < v.nextOp && (v.ops[k].kind in {ReadOp(svc), WriteOp(svc)} ==> v.x.token == InFlight(k))
  }

  lemma StepMovesOps(t: nat, svc: nat, v: View)
    requires UsesSome(v.pc) && FocusOf(v.pc, svc) == svc && LocalOk(t, v) && MyOps(svc, v)
    ensures OpsMove(svc, v, StepView(t, v))
  {
  }

  lemma StepMovesService(t: nat, svc: nat, v: View)
    requires UsesSome(v.pc) && FocusOf(v.pc, svc) == svc && LocalOk(t, v) && MyOps(svc, v)
    ensures ServiceMove(t, svc, v, StepView(t, v)) && OpsMove(svc, v, StepView(t, v))
  {
    StepMovesOps(t, svc, v);
  }

  lemma DispatchMovesService(t: nat, k: nat, svc: nat, v: View)
    requires v.pc == Polling && MyOps(svc, v) && k in v.ops && v.ops[k].result.Some?
    requires v.ops[k].kind in {ReadOp(svc), WriteOp(svc)} && OpOk(v.x, v.ops[k]) && v.x.token == InFlight(k)
    ensures ServiceMove(t, svc, v, DispatchView(t, k, v)) && OpsMove(svc, v, DispatchView(t, k, v))
  {
  }

  lemma PutThread(s: State, t: nat, svc: nat, w: View, u: nat)
    requires t < |s.threads| && u < |s.threads| && svc < |s.services|
    requires ServiceMove(t, svc, LookAt(s, t, svc), w) && ThreadOk(s, u) && ThreadOk(s, t)
    ensures ThreadOk(Put(s, t, svc, w), u)
  {
    var z := Put(s, t, svc, w);
    if u == t {
      assert UsesSome(w.pc) ==> LookAt(z, t, Focus(z, t)) == w;
    }
  }

  lemma PutService(s: State, t: nat, svc: nat, w: View, j: nat)
    requires t < |s.threads| && j < |s.services| && svc < |s.services|
    requires ServiceMove(t, svc, LookAt(s, t, svc), w) && OpsMove(svc, LookAt(s, t, svc), w)
    requires ServiceOk(s, j)
    ensures ServiceOk(Put(s, t, svc, w), j)
  {
  }

  lemma PutOp(s: State, t: nat, svc: nat, w: View, k: nat)
    requires t < |s.threads| && svc < |s.services| && k in w.ops && (k in s.ops ==> OpTokenOk(s, k))
    requires ServiceMove(t, svc, LookAt(s, t, svc), w) && OpsMove(svc, LookAt(s, t, svc), w)
    ensures OpTokenOk(Put(s, t, svc, w), k)
  {
  }

  lemma PutChain(s: State, t: nat, svc: nat, w: View)
    requires t < |s.threads| && svc < |s.services| && ChainOk(s) && ThreadOk(s, t)
    requires ServiceMove(t, svc, LookAt(s, t, svc), w) && OpsMove(svc, LookAt(s, t, svc), w)
    ensures ChainOk(Put(s, t, svc, w))
  {
  }

  lemma ServiceMoveKeepsInv(s: State, t: nat, svc: nat, w: View)
    requires Inv(s) && t < |s.threads| && svc < |s.services|
    requires ServiceMove(t, svc, LookAt(s, t, svc), w) && OpsMove(svc, LookAt(s, t, svc), w)
    ensures Inv(Put(s, t, svc, w))
  {
    var z := Put(s, t, svc, w);
    forall u | 0 <= u < |z.threads| ensures ThreadOk(z, u) {
      PutThread(s, t, svc, w, u);
    }
    forall j | 0 <= j < |z.services| ensures ServiceOk(z, j) {
      PutService(s, t, svc, w, j);
    }
    forall k | k in z.ops ensures OpTokenOk(z, k) {
      PutOp(s, t, svc, w, k);
    }
    PutChain(s, t, svc, w);
  }

  // ---- the other steps -------------------------------------------------------------------------

  /** Steps of a thread that holds nothing, or lets go: the rest of the state stays. */
  lemma FreePcKeepsInv(s: State, t: nat, pc: Pc)
    requires Inv(s) && t < |s.threads| && !UsesSome(s.threads[t]) && !HasChain(s.threads[t])
    requires !UsesSome(pc) && !HasChain(pc) && PoolPc(pc) == PoolPc(s.threads[t])
    requires pc.Exited? || pc.Joining? || pc.Stopped? ==> s.iosStopped
    requires (pc.Running? || pc.StopAcceptor?) == (s.threads[t].Running? || s.threads[t].StopAcceptor?)
    ensures Inv(SetPc(s, t, pc))
  {
    var z := SetPc(s, t, pc);
    forall u | 0 <= u < |z.threads| ensures ThreadOk(z, u) {
      assert ThreadOk(s, u) && ThreadOk(s, t);
    }
    forall j | 0 <= j < |z.services| ensures ServiceOk(z, j) {
      assert ServiceOk(s, j);
    }
    forall k | k in z.ops ensures OpTokenOk(z, k) {
      assert OpTokenOk(s, k);
    }
  }

  lemma ChainStepKeepsInv(s: State, t: nat)
    requires Inv(s) && Enabled(s, Step(t)) && s.threads[t].Accepting?
    requires s.threads[t].aat == TestStop || s.threads[t].aat == Rearm || s.threads[t].aat == CloseAcceptor
    ensures Inv(Apply(s, Step(t)))
  {
    var z := Apply(s, Step(t));
    assert ThreadOk(s, t);
    forall u | 0 <= u < |z.threads| ensures ThreadOk(z, u) {
      assert ThreadOk(s, u);
    }
    forall j | 0 <= j < |z.services| ensures ServiceOk(z, j) {
      assert ServiceOk(s, j);
    }
    forall k | k in z.ops ensures OpTokenOk(z, k) {
      if k in s.ops {
        assert OpTokenOk(s, k);
      }
    }
  }

  lemma NewServiceKeepsInv(s: State, t: nat)
    requires Inv(s) && Enabled(s, Step(t)) && s.threads[t].Accepting? && s.threads[t].aat == NewService
    ensures Inv(Apply(s, Step(t)))
  {
    var z := Apply(s, Step(t));
    assert ThreadOk(s, t);
    forall u | 0 <= u < |z.threads| ensures ThreadOk(z, u) {
      assert ThreadOk(s, u);
    }
    forall j | 0 <= j < |z.services| ensures ServiceOk(z, j) {
      if j < |s.services| {
        assert ServiceOk(s, j);
      }
    }
    forall k | k in z.ops ensures OpTokenOk(z, k) {
      assert OpTokenOk(s, k);
    }
  }

  lemma DispatchAcceptKeepsInv(s: State, t: nat, k: nat)
    requires Inv(s) && Enabled(s, Dispatch(t, k)) && s.ops[k].kind == AcceptOp
    ensures Inv(Apply(s, Dispatch(t, k)))
  {
    var z := Apply(s, Dispatch(t, k));
    assert ThreadOk(s, t) && OpTokenOk(s, k);
    forall u | 0 <= u < |z.threads| ensures ThreadOk(z, u) {
      assert ThreadOk(s, u);
    }
    forall j | 0 <= j < |z.services| ensures ServiceOk(z, j) {
      assert ServiceOk(s, j);
    }
    forall i | i in z.ops ensures OpTokenOk(z, i) {
      assert OpTokenOk(s, i);
    }
  }

  lemma CompleteKeepsInv(s: State, k: nat, result: Result)
    requires Inv(s) && Enabled(s, Complete(k, result))
    ensures Inv(Apply(s, Complete(k, result)))
  {
    var z := Apply(s, Complete(k, result));
    forall u | 0 <= u < |z.threads| ensures ThreadOk(z, u) {
      assert ThreadOk(s, u);
    }
    forall j | 0 <= j < |z.services| ensures ServiceOk(z, j) {
      assert ServiceOk(s, j);
    }
    forall i | i in z.ops ensures OpTokenOk(z, i) {
      assert OpTokenOk(s, i);
    }
  }

  lemma StopKeepsInv(s: State, t: nat)
    requires Inv(s) && Enabled(s, Step(t)) && !Works(s.threads[t])
    ensures Inv(Apply(s, Step(t)))
  {
    var z := Apply(s, Step(t));
    assert ThreadOk(s, t);
    forall u | 0 <= u < |z.threads| ensures ThreadOk(z, u) {
      assert ThreadOk(s, u);
    }
    forall j | 0 <= j < |z.services| ensures ServiceOk(z, j) {
      assert ServiceOk(s, j);
    }
    forall k | k in z.ops ensures OpTokenOk(z, k) {
      assert OpTokenOk(s, k);
    }
  }

  lemma ServiceStepKeepsInv(s: State, t: nat)
    requires Inv(s) && Enabled(s, Step(t)) && UsesSome(s.threads[t])
    ensures Inv(Apply(s, Step(t)))
  {
    var svc := Focus(s, t);
    assert ThreadOk(s, t);
    var v := LookAt(s, t, svc);
    forall k | k in v.ops
      ensures k < v.nextOp && (v.ops[k].kind in {ReadOp(svc), WriteOp(svc)} ==> v.x.token == InFlight(k))
    {
      assert OpTokenOk(s, k);
    }
    StepMovesService(t, svc, v);
    ServiceMoveKeepsInv(s, t, svc, StepView(t, v));
  }

  lemma DispatchServiceKeepsInv(s: State, t: nat, k: nat)
    requires Inv(s) && Enabled(s, Dispatch(t, k)) && s.ops[k].kind != AcceptOp
    ensures Inv(Apply(s, Dispatch(t, k)))
  {
    var svc := OpFocus(s.ops[k].kind, 0);
    assert OpTokenOk(s, k);
    var v := LookAt(s, t, svc);
    forall i | i in v.ops
      ensures i < v.nextOp && (v.ops[i].kind in {ReadOp(svc), WriteOp(svc)} ==> v.x.token == InFlight(i))
    {
      assert OpTokenOk(s, i);
    }
    DispatchMovesService(t, k, svc, v);
    ServiceMoveKeepsInv(s, t, svc, DispatchView(t, k, v));
  }

  lemma InvStep(s: State, a: Action)
    requires Inv(s) && Enabled(s, a)
    ensures Inv(Apply(s, a))
  {
    match a
    case CallStop =>
      assert ThreadOk(s, s.pool);
      FreePcKeepsInv(s, s.pool, StopAcceptor);
    case Complete(k, result) => CompleteKeepsInv(s, k, result);
    case Dispatch(t, k) =>
      if s.ops[k].kind == AcceptOp {
        DispatchAcceptKeepsInv(s, t, k);
      } else {
        DispatchServiceKeepsInv(s, t, k);
      }
    case ExitRun(t) => FreePcKeepsInv(s, t, Exited);
    case Step(t) =>
      var pc := s.threads[t];
      if UsesSome(pc) {
        ServiceStepKeepsInv(s, t);
      } else if !Works(pc) {
        StopKeepsInv(s, t);
      } else if pc.Accepting? && pc.aat == NewService {
        NewServiceKeepsInv(s, t);
      } else if HasChain(pc) {
        ChainStepKeepsInv(s, t);
      } else {
        assert Apply(s, a) == SetPc(s, t, Polling);
        FreePcKeepsInv(s, t, Polling);
      }
  }

  lemma {:induction false} InvRuns(from: State, acts: seq<Action>, to: State)
    requires Inv(from) && Runs(from, acts, to)
    ensures Inv(to)
    decreases |acts|
  {
    if acts != [] {
      InvStep(from, acts[0]);
      InvRuns(Apply(from, acts[0]), acts[1..], to);
    }
  }

  lemma ReachableInv(s: State)
    requires Reachable(s)
    ensures Inv(s)
  {
    var pool: nat, acts: seq<Action> :| pool > 0 && Runs(Started(pool), acts, s);
    InvStarted(pool);
    InvRuns(Started(pool), acts, s);
  }
}
