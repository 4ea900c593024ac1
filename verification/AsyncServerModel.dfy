/**
 The asynchronous server: a self-rearming accept chain, one `Service` object per
 connection that deletes itself, and a pool of threads running `io_service::run()`.
 Threads `0 .. pool` are the pool; thread `pool` is the one that calls `Stop`.
 */
module AsyncServerModel {
  import opened Text
  import opened Connections

  datatype Kind = AcceptOp | ReadOp(svc: nat) | WriteOp(svc: nat)

  datatype Result = Result(ok: bool, data: string, count: nat)

  datatype Op = Op(kind: Kind, result: Option<Result>)

  /** Which operation or thread has a service, or the accept chain, in hand. */
  datatype Token = InFlight(k: nat) | OnThread(t: nat) | Nowhere

  datatype Service = Service(request: string, response: string, token: Token, deletes: nat, conn: Conn)

  datatype Acceptor = Acceptor(
    isOpen: bool,
    isStopped: bool,
    token: Token,
    closes: nat,
    accepted: nat,      // successful accepts whose handler has started
    createdLate: nat)   // services created after Acceptor::Stop

  datatype AcceptAt = NewService | StartRead | TestStop | Rearm | CloseAcceptor | AcceptDone

  datatype ReceiveAt = CheckRead | ProcessRequest | StartWrite | DeleteUnread | ReceiveDone

  datatype SendAt = CheckWrite | DeleteSent | SendDone

  datatype Pc =
    | Polling
    | Exited
    | Accepting(svc: nat, aat: AcceptAt)
    | Receiving(svc: nat, ok: bool, data: string, rat: ReceiveAt)
    | Sending(svc: nat, ok: bool, count: nat, sat: SendAt)
    | Running
    | StopAcceptor
    | StopIos
    | Joining(next: nat)
    | Stopped

  datatype State = State(
    pool: nat,
    threads: seq<Pc>,
    services: seq<Service>,
    acceptor: Acceptor,
    ops: map<nat, Op>,
    nextOp: nat,
    iosStopped: bool)

  datatype Action =
    | CallStop
    | Step(t: nat)
    | Complete(k: nat, result: Result)
    | Dispatch(t: nat, k: nat)
    | ExitRun(t: nat)

  /** The server right after `Start`: the first accept is initiated. */
  function Started(pool: nat): State {
    State(pool, seq(pool, _ => Polling) + [Running], [],
          Acceptor(true, false, InFlight(0), 0, 0, 0), map[0 := Op(AcceptOp, None)], 1, false)
  }

  // ---- views -------------------------------------------------------------------------------

  datatype View = View(pc: Pc, x: Service, acceptor: Acceptor, ops: map<nat, Op>, nextOp: nat)

  const BLANK: Service := Service("", "", Nowhere, 1, Conn(Gone, "", "", ""))

  function NewlyBuilt(t: nat): Service { Service("", "", OnThread(t), 0, NEW) }

  /** The service a thread's next step touches, or `none`. */
  function FocusOf(pc: Pc, none: nat): nat {
    match pc
    case Accepting(svc, at) => if at == StartRead then svc else none
    case Receiving(svc, _, _, at) => if at != ReceiveDone then svc else none
    case Sending(svc, _, _, at) => if at != SendDone then svc else none
    case _ => none
  }

  function LookAt(s: State, t: nat, svc: nat): View
    requires t < |s.threads|
  {
    View(s.threads[t], if svc < |s.services| then s.services[svc] else BLANK, s.acceptor, s.ops, s.nextOp)
  }

  function Put(s: State, t: nat, svc: nat, v: View): State
    requires t < |s.threads|
  {
    s.(threads := s.threads[t := v.pc],
       services := if svc < |s.services| then s.services[svc := v.x] else s.services,
       acceptor := v.acceptor, ops := v.ops, nextOp := v.nextOp)
  }

  predicate Works(pc: Pc) {
    pc.Accepting? || pc.Receiving? || pc.Sending?
  }

  // ---- Acceptor::onAccept (the object built at NewService is added by Apply) --------------------

  function StepAccept(t: nat, v: View): View
    requires v.pc.Accepting?
  {
    var pc, acc := v.pc, v.acceptor;
    match pc.aat
    case NewService =>
      v.(acceptor := acc.(createdLate := acc.createdLate + if acc.isStopped then 1 else 0), pc := pc.(aat := StartRead))
    case StartRead =>
      v.(x := v.x.(token := InFlight(v.nextOp)), ops := v.ops[v.nextOp := Op(ReadOp(pc.svc), None)],
         nextOp := v.nextOp + 1, pc := pc.(aat := TestStop))
    case TestStop => v.(pc := pc.(aat := if acc.isStopped then CloseAcceptor else Rearm))
    case Rearm =>
      v.(acceptor := acc.(token := InFlight(v.nextOp)), ops := v.ops[v.nextOp := Op(AcceptOp, None)],
         nextOp := v.nextOp + 1, pc := pc.(aat := AcceptDone))
    case CloseAcceptor =>
      v.(acceptor := acc.(isOpen := false, closes := acc.closes + 1, token := Nowhere), pc := pc.(aat := AcceptDone))
    case AcceptDone => v.(pc := Polling)
  }

  // ---- Service -----------------------------------------------------------------------------------

  function Moved(x: Service, m: Move): Service {
    if Can(x.conn, m) then x.(conn := Do(x.conn, m)) else x
  }

  function Delete(x: Service): Service {
    Moved(x, Finish).(deletes := x.deletes + 1, token := Nowhere)
  }

  /** `onRequestReceived`. */
  function StepReceive(t: nat, v: View): View
    requires v.pc.Receiving?
  {
    var pc, x := v.pc, v.x;
    match pc.rat
    case CheckRead =>
      if pc.ok then v.(x := Moved(x, ReadLine(pc.data)).(request := pc.data), pc := pc.(rat := ProcessRequest))
      else v.(x := Moved(x, ReadFails), pc := pc.(rat := DeleteUnread))
    case ProcessRequest =>
      v.(x := Moved(x, Process).(response := RESPONSE), pc := pc.(rat := StartWrite))
    case StartWrite =>
      v.(x := x.(token := InFlight(v.nextOp)), ops := v.ops[v.nextOp := Op(WriteOp(pc.svc), None)],
         nextOp := v.nextOp + 1, pc := pc.(rat := ReceiveDone))
    case DeleteUnread => v.(x := Delete(x), pc := pc.(rat := ReceiveDone))
    case ReceiveDone => v.(pc := Polling)
  }

  /** `onResponseSent`. */
  function StepSend(t: nat, v: View): View
    requires v.pc.Sending?
  {
    var pc, x := v.pc, v.x;
    match pc.sat
    case CheckWrite =>
      v.(x := Moved(x, if pc.ok then WriteAll else WriteFails(pc.count)), pc := pc.(sat := DeleteSent))
    case DeleteSent => v.(x := Delete(x), pc := pc.(sat := SendDone))
    case SendDone => v.(pc := Polling)
  }

  function StepView(t: nat, v: View): View
    requires Works(v.pc)
  {
    if v.pc.Accepting? then StepAccept(t, v)
    else if v.pc.Receiving? then StepReceive(t, v)
    else StepSend(t, v)
  }

  // ---- the system -------------------------------------------------------------------------------

  function Focus(s: State, t: nat): nat
    requires t < |s.threads|
  {
    FocusOf(s.threads[t], |s.services|)
  }

  function SetPc(s: State, t: nat, pc: Pc): State
    requires t < |s.threads|
  {
    s.(threads := s.threads[t := pc])
  }

  predicate CanStep(s: State, t: nat)
    requires t < |s.threads|
  {
    var pc := s.threads[t];
    Works(pc) || pc.StopAcceptor? || pc.StopIos?
    || (pc.Joining? && (pc.next < s.pool ==> pc.next < |s.threads| && s.threads[pc.next] == Exited))
  }

  /** A step of the stopping thread. */
  function StepStop(s: State, t: nat): State
    requires t < |s.threads| && CanStep(s, t) && !Works(s.threads[t])
  {
    match s.threads[t]
    case StopAcceptor => SetPc(s.(acceptor := s.acceptor.(isStopped := true)), t, StopIos)
    case StopIos => SetPc(s.(iosStopped := true), t, Joining(0))
    case Joining(next) => SetPc(s, t, if next < s.pool then Joining(next + 1) else Stopped)
  }

  /** The operation may end like this. */
  predicate Possible(s: State, k: nat, result: Result)
    requires k in s.ops
  {
    match s.ops[k].kind
    case AcceptOp => true
    case ReadOp(_) => result.ok ==> '\n' in result.data
    case WriteOp(svc) => !result.ok && svc < |s.services| ==> result.count <= |s.services[svc].response|
  }

  predicate Enabled(s: State, a: Action) {
    match a
    case CallStop => s.pool < |s.threads| && s.threads[s.pool] == Running
    case Step(t) => t < |s.threads| && CanStep(s, t)
    case Complete(k, result) => k in s.ops && s.ops[k].result == None && Possible(s, k, result)
    case Dispatch(t, k) =>
      && t < |s.threads| && s.threads[t] == Polling && !s.iosStopped
      && k in s.ops && s.ops[k].result.Some?
    case ExitRun(t) => t < |s.threads| && s.threads[t] == Polling && s.iosStopped
  }

  /** The service of an operation, or `none`. */
  function OpFocus(kind: Kind, none: nat): nat {
    match kind
    case AcceptOp => none
    case ReadOp(svc) => svc
    case WriteOp(svc) => svc
  }

  /** Thread `t` starts the handler of operation `k`. */
  function DispatchView(t: nat, k: nat, v: View): View
    requires k in v.ops && v.ops[k].result.Some?
  {
    var r := v.ops[k].result.value;
    var w := v.(ops := v.ops - {k});
    match v.ops[k].kind
    case AcceptOp =>
      w.(acceptor := v.acceptor.(token := OnThread(t), accepted := v.acceptor.accepted + if r.ok then 1 else 0),
         pc := Accepting(0, if r.ok then NewService else TestStop))
    case ReadOp(svc) => w.(x := v.x.(token := OnThread(t)), pc := Receiving(svc, r.ok, r.data, CheckRead))
    case WriteOp(svc) => w.(x := v.x.(token := OnThread(t)), pc := Sending(svc, r.ok, r.count, CheckWrite))
  }

  function Apply(s: State, a: Action): State
    requires Enabled(s, a)
  {
    match a
    case CallStop => SetPc(s, s.pool, StopAcceptor)
    case Step(t) =>
      if s.threads[t].Accepting? && s.threads[t].aat == NewService then
        var w := StepAccept(t, LookAt(s, t, |s.services|));
        s.(threads := s.threads[t := Accepting(|s.services|, StartRead)],
           services := s.services + [NewlyBuilt(t)], acceptor := w.acceptor)
      else if Works(s.threads[t]) then
        Put(s, t, Focus(s, t), StepView(t, LookAt(s, t, Focus(s, t))))
      else StepStop(s, t)
    case Complete(k, result) => s.(ops := s.ops[k := s.ops[k].(result := Some(result))])
    case Dispatch(t, k) =>
      var svc := OpFocus(s.ops[k].kind, |s.services|);
      Put(s, t, svc, DispatchView(t, k, LookAt(s, t, svc)))
    case ExitRun(t) => SetPc(s, t, Exited)
  }

  ghost predicate Runs(from: State, acts: seq<Action>, to: State)
    decreases |acts|
  {
    if acts == [] then from == to
    else Enabled(from, acts[0]) && Runs(Apply(from, acts[0]), acts[1..], to)
  }

  /** Reachable with a pool of at least one thread, as `Start` asserts. */
  ghost predicate Reachable(s: State) {
    exists pool: nat, acts: seq<Action> :: pool > 0 && Runs(Started(pool), acts, s)
  }
}
