/**
 The asynchronous, cancellable TCP client as a step system.

 Threads `0 .. ioThreads` run `io_service::run()`; the others are user threads.
 Every lock acquisition, shared access, initiation and callback of the client is a
 step of its own, so a run of this system is an interleaving of the source's
 critical actions. The network appears only through `Complete`.
 */
module ClientModel {
  import opened Text

  datatype ErrorCode = Success | OperationAborted | Transport(code: int)

  datatype OpKind = Connect | Write | ReadUntil

  /** An asynchronous operation is in flight, or its handler is queued with a result. */
  datatype OpState = Pending(cancelHit: bool) | Ready(ec: ErrorCode, data: string)

  datatype Op = Op(sid: nat, kind: OpKind, state: OpState)

  /** One invocation of the user's callback. */
  datatype Call = Call(response: string, ec: ErrorCode)

  /** Who may touch a session next. */
  datatype Token = Submitter(t: nat) | InFlight(k: nat) | OnThread(t: nat) | Finished

  /** A session: the source's fields, then history variables that no step reads. */
  datatype Session = Session(
    id: nat,
    request: string,
    wasCancelled: bool,
    cancelGuard: Option<nat>,
    ec: ErrorCode,
    response: string,
    token: Token,
    trail: seq<ErrorCode>,   // results its handlers were given, in order
    finds: nat,              // cancelRequest calls that found it in the map
    erased: bool,            // its own onRequestComplete has passed the erase
    calls: seq<Call>)        // callback invocations

  datatype SubmitAt = SubLock | SubInsert | SubUnlock | SubConnect | SubReturn

  datatype CancelAt =
    | CanLock | CanFind | CanLockGuard | CanSetFlag | CanCancelSocket | CanUnlockGuard | CanUnlock

  datatype HandlerAt =
    | Enter | LockGuard | TestFlag | UnlockGuard | Initiate
    | Shutdown | LockMap | Erase | UnlockMap | ComputeEc | RunCallback(verdict: ErrorCode)
    | Unwind | Return

  datatype Pc =
    | Polling
    | Exited
    | Handling(sid: nat, kind: OpKind, ec: ErrorCode, data: string, guarded: bool, at: HandlerAt)
    | Idle
    | Submitting(sid: nat, sat: SubmitAt)
    | Cancelling(id: nat, sid: nat, cat: CancelAt)
    | Joining(next: nat)
    | Closed

  datatype State = State(
    ioThreads: nat,
    threads: seq<Pc>,
    sessions: seq<Session>,
    active: map<nat, nat>,
    mapGuard: Option<nat>,
    ops: map<nat, Op>,
    nextOp: nat,
    work: bool)

  datatype Action =
    | CallSubmit(t: nat, id: nat, duration: nat)
    | CallCancel(t: nat, id: nat)
    | CallClose(t: nat)
    | Step(t: nat)
    | Complete(k: nat, ec: ErrorCode, data: string)
    | Dispatch(t: nat, k: nat)
    | ExitRun(t: nat)

  function Init(ioThreads: nat, userThreads: nat): State {
    State(ioThreads, seq(ioThreads, _ => Polling) + seq(userThreads, _ => Idle),
          [], map[], None, map[], 0, true)
  }

  // ---- what one micro-step reads and writes -------------------------------------

  /** A thread's program counter, one session, and the tables all threads share. */
  datatype View = View(
    pc: Pc,
    x: Session,
    mapGuard: Option<nat>,
    active: map<nat, nat>,
    ops: map<nat, Op>,
    nextOp: nat)

  const BLANK: Session := Session(0, "", false, None, Success, "", Finished, [], 0, false, [])

  /** The session thread `t` is about to touch, or `|s.sessions|` if there is none. */
  function Focus(s: State, t: nat): nat
    requires t < |s.threads|
  {
    match s.threads[t]
    case Handling(sid, _, _, _, _, _) => sid
    case Submitting(sid, _) => sid
    case Cancelling(id, sid, at) =>
      if at == CanFind && id in s.active then s.active[id]
      else if at == CanLock || at == CanFind || at == CanUnlock then |s.sessions|
      else sid
    case _ => |s.sessions|
  }

  function Look(s: State, t: nat): View
    requires t < |s.threads|
  {
    LookAt(s, t, Focus(s, t))
  }

  function LookAt(s: State, t: nat, sid: nat): View
    requires t < |s.threads|
  {
    View(s.threads[t], if sid < |s.sessions| then s.sessions[sid] else BLANK,
         s.mapGuard, s.active, s.ops, s.nextOp)
  }

  function Put(s: State, t: nat, sid: nat, v: View): State
    requires t < |s.threads|
  {
    s.(threads := s.threads[t := v.pc],
       sessions := if sid < |s.sessions| then s.sessions[sid := v.x] else s.sessions,
       mapGuard := v.mapGuard, active := v.active, ops := v.ops, nextOp := v.nextOp)
  }

  /** Initiating an operation hands the session's token to it. */
  function Start(v: View, sid: nat, kind: OpKind): View {
    v.(x := v.x.(token := InFlight(v.nextOp)),
       ops := v.ops[v.nextOp := Op(sid, kind, Pending(false))],
       nextOp := v.nextOp + 1)
  }

  function NextKind(kind: OpKind): OpKind {
    if kind == Connect then Write else ReadUntil
  }

  // ---- a completion handler: the nested lambdas and onRequestComplete ---------------

  function StepHandler(t: nat, v: View): View
    requires v.pc.Handling?
  {
    var pc, x := v.pc, v.x;
    match pc.at
    case Enter =>
      if pc.ec != Success then v.(x := x.(ec := pc.ec), pc := pc.(at := Shutdown))
      else if pc.kind == ReadUntil then
        v.(x := x.(response := LineOf(pc.data)), pc := pc.(at := Shutdown))
      else v.(pc := pc.(at := LockGuard))
    case LockGuard => v.(x := x.(cancelGuard := Some(t)), pc := pc.(at := TestFlag))
    case TestFlag =>
      if x.wasCancelled then v.(pc := pc.(guarded := true, at := Shutdown))
      else v.(pc := pc.(at := UnlockGuard))
    case UnlockGuard => v.(x := x.(cancelGuard := None), pc := pc.(at := Initiate))
    case Initiate => Start(v, pc.sid, NextKind(pc.kind)).(pc := pc.(at := Return))
    case Shutdown => v.(pc := pc.(at := LockMap))
    case LockMap => v.(mapGuard := Some(t), pc := pc.(at := Erase))
    case Erase => v.(x := x.(erased := true), active := v.active - {x.id}, pc := pc.(at := UnlockMap))
    case UnlockMap => v.(mapGuard := None, pc := pc.(at := ComputeEc))
    case ComputeEc =>
      var verdict := if x.ec == Success && x.wasCancelled then OperationAborted else x.ec;
      v.(pc := pc.(at := RunCallback(verdict)))
    case RunCallback(verdict) =>
      v.(x := x.(calls := x.calls + [Call(x.response, verdict)], token := Finished), pc := pc.(at := Unwind))
    case Unwind =>
      if pc.guarded then v.(x := x.(cancelGuard := None), pc := pc.(guarded := false, at := Return))
      else v.(pc := pc.(at := Return))
    case Return => v.(pc := Polling)
  }

  // ---- cancelRequest -------------------------------------------------------------------

  function StepCancel(t: nat, v: View): View
    requires v.pc.Cancelling?
  {
    var pc, x := v.pc, v.x;
    match pc.cat
    case CanLock => v.(mapGuard := Some(t), pc := pc.(cat := CanFind))
    case CanFind =>
      if pc.id in v.active then
        v.(x := x.(finds := x.finds + 1), pc := pc.(sid := v.active[pc.id], cat := CanLockGuard))
      else v.(pc := pc.(cat := CanUnlock))
    case CanLockGuard => v.(x := x.(cancelGuard := Some(t)), pc := pc.(cat := CanSetFlag))
    case CanSetFlag => v.(x := x.(wasCancelled := true), pc := pc.(cat := CanCancelSocket))
    case CanCancelSocket => v.(ops := CancelSocket(x.token, v.ops), pc := pc.(cat := CanUnlockGuard))
    case CanUnlockGuard => v.(x := x.(cancelGuard := None), pc := pc.(cat := CanUnlock))
    case CanUnlock => v.(mapGuard := None, pc := Idle)
  }

  /** `m_sock.cancel()`: the operation in flight, if any, may now complete as aborted. */
  function CancelSocket(token: Token, ops: map<nat, Op>): map<nat, Op> {
    if token.InFlight? && token.k in ops && ops[token.k].state.Pending? then
      ops[token.k := ops[token.k].(state := Pending(true))]
    else ops
  }

  // ---- emulateLongComputationOp ------------------------------------------------------------

  function NewSession(t: nat, id: nat, request: string): Session {
    Session(id, request, false, None, Success, "", Submitter(t), [], 0, false, [])
  }

  function StepSubmit(t: nat, v: View): View
    requires v.pc.Submitting?
  {
    var pc := v.pc;
    match pc.sat
    case SubLock => v.(mapGuard := Some(t), pc := pc.(sat := SubInsert))
    case SubInsert => v.(active := v.active[v.x.id := pc.sid], pc := pc.(sat := SubUnlock))
    case SubUnlock => v.(mapGuard := None, pc := pc.(sat := SubConnect))
    case SubConnect => Start(v, pc.sid, Connect).(pc := pc.(sat := SubReturn))
    case SubReturn => v.(pc := Idle)
  }

  // ---- blocking ------------------------------------------------------------------------------

  predicate WantsMap(pc: Pc) {
    || (pc.Handling? && pc.at == LockMap)
    || (pc.Submitting? && pc.sat == SubLock)
    || (pc.Cancelling? && pc.cat == CanLock)
  }

  predicate WantsGuard(pc: Pc) {
    || (pc.Handling? && pc.at == LockGuard)
    || (pc.Cancelling? && pc.cat == CanLockGuard)
  }

  predicate Unblocked(v: View) {
    && (WantsMap(v.pc) ==> v.mapGuard == None)
    && (WantsGuard(v.pc) ==> v.x.cancelGuard == None)
  }

  predicate Works(pc: Pc) {
    pc.Handling? || pc.Cancelling? || pc.Submitting?
  }

  function StepView(t: nat, v: View): View
    requires Works(v.pc)
  {
    if v.pc.Handling? then StepHandler(t, v)
    else if v.pc.Cancelling? then StepCancel(t, v)
    else StepSubmit(t, v)
  }

  // ---- the system ---------------------------------------------------------------

  predicate Drained(s: State) {
    !s.work && s.ops == map[] && forall t :: 0 <= t < |s.threads| ==> !s.threads[t].Handling?
  }

  predicate CanStep(s: State, t: nat)
    requires t < |s.threads|
  {
    if Works(s.threads[t]) then Unblocked(Look(s, t))
    else
      && s.threads[t].Joining?
      && (s.threads[t].next < s.ioThreads ==>
            s.threads[t].next < |s.threads| && s.threads[s.threads[t].next] == Exited)
  }

  function StepThread(s: State, t: nat): State
    requires t < |s.threads| && CanStep(s, t)
  {
    if Works(s.threads[t]) then Put(s, t, Focus(s, t), StepView(t, Look(s, t)))
    else
      var next := s.threads[t].next;
      SetPc(s, t, if next < s.ioThreads then Joining(next + 1) else Closed)
  }

  function SetPc(s: State, t: nat, pc: Pc): State
    requires t < |s.threads|
  {
    s.(threads := s.threads[t := pc])
  }

  /** The client is used as documented: `close` runs once, after every submission has returned. */
  predicate Enabled(s: State, a: Action) {
    match a
    case CallSubmit(t, _, _) => t < |s.threads| && s.threads[t] == Idle && s.work
    case CallCancel(t, _) => t < |s.threads| && s.threads[t] == Idle
    case CallClose(t) =>
      && t < |s.threads| && s.threads[t] == Idle && s.work
      && forall u :: 0 <= u < |s.threads| ==> !s.threads[u].Submitting?
    case Step(t) => t < |s.threads| && CanStep(s, t)
    case Complete(k, ec, data) =>
      && k in s.ops && s.ops[k].state.Pending?
      && (ec == OperationAborted ==> s.ops[k].state.cancelHit)
      && (s.ops[k].kind == ReadUntil && ec == Success ==> '\n' in data)
    case Dispatch(t, k) =>
      && t < |s.threads| && s.threads[t] == Polling
      && k in s.ops && s.ops[k].state.Ready? && s.ops[k].sid < |s.sessions|
    case ExitRun(t) => t < |s.threads| && s.threads[t] == Polling && Drained(s)
  }

  /** Thread `t` starts the queued handler of operation `k`. */
  function DispatchView(s: State, t: nat, k: nat): View
    requires Enabled(s, Dispatch(t, k))
  {
    var op := s.ops[k];
    var x := s.sessions[op.sid];
    View(Handling(op.sid, op.kind, op.state.ec, op.state.data, false, Enter),
         x.(token := OnThread(t), trail := x.trail + [op.state.ec]),
         s.mapGuard, s.active, s.ops - {k}, s.nextOp)
  }

  function Apply(s: State, a: Action): State
    requires Enabled(s, a)
  {
    match a
    case CallSubmit(t, id, duration) =>
      SetPc(s.(sessions := s.sessions + [NewSession(t, id, Request(CALC_KEYWORD, duration))]),
            t, Submitting(|s.sessions|, SubLock))
    case CallCancel(t, id) => SetPc(s, t, Cancelling(id, 0, CanLock))
    case CallClose(t) => SetPc(s, t, Joining(0)).(work := false)
    case Step(t) => StepThread(s, t)
    case Complete(k, ec, data) => s.(ops := s.ops[k := s.ops[k].(state := Ready(ec, data))])
    case Dispatch(t, k) => Put(s, t, s.ops[k].sid, DispatchView(s, t, k))
    case ExitRun(t) => SetPc(s, t, Exited)
  }

  /** `to` is what the schedule `acts` makes of `from`. */
  ghost predicate Runs(from: State, acts: seq<Action>, to: State)
    decreases |acts|
  {
    if acts == [] then from == to
    else Enabled(from, acts[0]) && Runs(Apply(from, acts[0]), acts[1..], to)
  }

  ghost predicate Reachable(s: State) {
    exists n: nat, u: nat, acts: seq<Action> :: Runs(Init(n, u), acts, s)
  }
}
