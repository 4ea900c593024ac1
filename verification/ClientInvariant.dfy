/**
 The inductive invariant of the asynchronous client, over all interleavings.

 The proof is by rely and guarantee: `Guarantee` says what a step of one thread may
 do to the shared state, and every other thread's part of the invariant survives it.
 */
module ClientInvariant {
  import opened Text
  import opened ClientModel

  // ---- what a program counter implies ------------------------------------------

  predicate HoldsMap(pc: Pc) {
    match pc
    case Handling(_, _, _, _, _, at) => at == Erase || at == UnlockMap
    case Submitting(_, at) => at == SubInsert || at == SubUnlock
    case Cancelling(_, _, at) => at != CanLock
    case _ => false
  }

  predicate HoldsGuard(pc: Pc, sid: nat) {
    match pc
    case Handling(h, _, _, _, guarded, at) => h == sid && (at == TestFlag || at == UnlockGuard || guarded)
    case Cancelling(_, c, at) => c == sid && (at == CanSetFlag || at == CanCancelSocket || at == CanUnlockGuard)
    case _ => false
  }

  predicate CarriesToken(pc: Pc, sid: nat) {
    pc.Handling? && pc.sid == sid && pc.at != Unwind && pc.at != Return
  }

  predicate Submits(pc: Pc, sid: nat) {
    pc.Submitting? && pc.sid == sid && pc.sat != SubReturn
  }

  predicate AboutToInsert(pc: Pc) {
    pc.Submitting? && (pc.sat == SubLock || pc.sat == SubInsert)
  }

  predicate HasFound(pc: Pc) {
    pc.Cancelling? && pc.cat != CanLock && pc.cat != CanFind && pc.cat != CanUnlock
  }

  predicate AboutToFlag(pc: Pc, sid: nat) {
    pc.Cancelling? && pc.sid == sid && (pc.cat == CanLockGuard || pc.cat == CanSetFlag)
  }

  predicate Continues(at: HandlerAt) {
    at == LockGuard || at == TestFlag || at == UnlockGuard || at == Initiate
  }

  predicate AfterErase(at: HandlerAt) {
    at == UnlockMap || at == ComputeEc || at.RunCallback?
  }

  /** The results of the operations that precede `kind` in the chain. */
  function Before(kind: OpKind): seq<ErrorCode> {
    match kind
    case Connect => []
    case Write => [Success]
    case ReadUntil => [Success, Success]
  }

  /** The result of a request as a function of what the network and the user did. */
  function Verdict(trail: seq<ErrorCode>, cancelled: bool): ErrorCode
    requires trail != []
  {
    var last := trail[|trail| - 1];
    if last == Success && cancelled then OperationAborted else last
  }

  // ---- the invariant, thread by thread and session by session ----------------------

  predicate Untouched(x: Session) {
    x.ec == Success && !x.erased && x.calls == []
  }

  predicate HandlerOk(x: Session, pc: Pc)
    requires pc.Handling?
  {
    && x.trail == Before(pc.kind) + [pc.ec]
    && (pc.ec == OperationAborted ==> x.wasCancelled)
    && (pc.kind == ReadUntil && pc.ec == Success ==> '\n' in pc.data)
    && if pc.at == Enter then
         Untouched(x)
       else if Continues(pc.at) then
         Untouched(x) && pc.ec == Success && pc.kind != ReadUntil
       else
         && x.ec == pc.ec && x.calls == []
         && (x.erased <==> AfterErase(pc.at))
         && (pc.ec != Success || pc.kind == ReadUntil || pc.guarded)
         && (pc.at.RunCallback? ==> pc.at.verdict == Verdict(x.trail, x.wasCancelled))
  }

  predicate GuardedOk(x: Session, pc: Pc)
    requires pc.Handling?
  {
    pc.guarded ==>
      && x.wasCancelled && pc.kind != ReadUntil && pc.ec == Success
      && pc.at != Enter && pc.at != Return && !Continues(pc.at)
  }

  predicate Maps(active: map<nat, nat>, id: nat, sid: nat) {
    id in active && active[id] == sid
  }

  /** What thread `t` knows about its own view. */
  predicate LocalOk(t: nat, v: View) {
    var pc, x := v.pc, v.x;
    && (HoldsMap(pc) ==> v.mapGuard == Some(t))
    && match pc {
         case Handling(sid, _, _, _, _, _) =>
           && GuardedOk(x, pc)
           && (HoldsGuard(pc, sid) ==> x.cancelGuard == Some(t))
           && (CarriesToken(pc, sid) ==> x.token == OnThread(t) && HandlerOk(x, pc))
         case Submitting(sid, at) =>
           && (Submits(pc, sid) ==> x.token == Submitter(t) && Untouched(x) && x.trail == [])
           && (AboutToInsert(pc) ==> !Maps(v.active, x.id, sid) && !x.wasCancelled && x.finds == 0)
         case Cancelling(id, sid, _) =>
           HasFound(pc) ==>
             && Maps(v.active, id, sid)
             && (HoldsGuard(pc, sid) ==> x.cancelGuard == Some(t))
             && (if AboutToFlag(pc, sid) then x.finds >= (if x.wasCancelled then 2 else 1)
                 else x.wasCancelled)
         case _ => true
       }
  }

  predicate ThreadOk(s: State, t: nat)
    requires t < |s.threads|
  {
    var pc := s.threads[t];
    && (t < s.ioThreads <==> pc.Polling? || pc.Exited? || pc.Handling?)
    && (pc.Handling? || pc.Submitting? || HasFound(pc) ==> pc.sid < |s.sessions|)
    && LocalOk(t, Look(s, t))
  }

  predicate OpOk(x: Session, op: Op) {
    && Untouched(x) && x.trail == Before(op.kind)
    && match op.state {
         case Pending(cancelHit) => cancelHit ==> x.wasCancelled
         case Ready(ec, data) =>
           && (ec == OperationAborted ==> x.wasCancelled)
           && (op.kind == ReadUntil && ec == Success ==> '\n' in data)
       }
  }

  /** A finished request: its one callback was given the verdict its history calls for. */
  predicate FinishedOk(x: Session) {
    && x.erased && |x.calls| == 1
    && x.calls[0].response == x.response
    && 1 <= |x.trail| <= 3
    && x.ec == x.trail[|x.trail| - 1] && x.calls[0].ec == Verdict(x.trail, x.wasCancelled)
    && (forall i :: 0 <= i < |x.trail| - 1 ==> x.trail[i] == Success)
    && (OperationAborted in x.trail ==> x.wasCancelled)
    && (|x.trail| < 3 && x.trail[|x.trail| - 1] == Success ==> x.wasCancelled)
  }

  predicate SessionOk(s: State, sid: nat)
    requires sid < |s.sessions|
  {
    var x := s.sessions[sid];
    && (match x.token
        case Submitter(t) => t < |s.threads| && Submits(s.threads[t], sid)
        case OnThread(t) => t < |s.threads| && CarriesToken(s.threads[t], sid)
        case InFlight(k) => k in s.ops && s.ops[k].sid == sid && OpOk(x, s.ops[k])
        case Finished => FinishedOk(x))
    && (x.cancelGuard.Some? ==>
          x.cancelGuard.value < |s.threads| && HoldsGuard(s.threads[x.cancelGuard.value], sid))
    && (x.wasCancelled ==> x.finds >= 1)
    && (x.finds > 0 && !x.wasCancelled ==>
          && s.mapGuard.Some? && s.mapGuard.value < |s.threads|
          && AboutToFlag(s.threads[s.mapGuard.value], sid))
  }

  predicate OpTokenOk(s: State, k: nat)
    requires k in s.ops
  {
    k < s.nextOp && s.ops[k].sid < |s.sessions| && s.sessions[s.ops[k].sid].token == InFlight(k)
  }

  predicate EntryOk(s: State, id: nat)
    requires id in s.active
  {
    && s.active[id] < |s.sessions|
    && s.sessions[s.active[id]].id == id && !s.sessions[s.active[id]].erased
  }

  predicate MapGuardOk(s: State) {
    s.mapGuard.Some? ==> s.mapGuard.value < |s.threads| && HoldsMap(s.threads[s.mapGuard.value])
  }

  ghost predicate Inv(s: State) {
    && s.ioThreads <= |s.threads|
    && (forall t :: 0 <= t < |s.threads| ==> ThreadOk(s, t))
    && (forall sid :: 0 <= sid < |s.sessions| ==> SessionOk(s, sid))
    && (forall k :: k in s.ops ==> OpTokenOk(s, k))
    && (forall id :: id in s.active ==> EntryOk(s, id))
    && MapGuardOk(s)
  }

  // ---- what a step of thread t may do to the others' world ---------------------------

  predicate OwnToken(token: Token, t: nat) {
    match token
    case Submitter(u) => u == t
    case OnThread(u) => u == t
    case _ => true
  }

  predicate OwnLock(guard: Option<nat>, t: nat) {
    guard.None? || guard == Some(t)
  }

  /** What a step of `t` may make of session `sid`, currently `x`. */
  predicate MayBecome(t: nat, mapGuard: Option<nat>, active: map<nat, nat>, sid: nat, x: Session, y: Session) {
    && y.id == x.id && y.request == x.request
    && (x.erased ==> y.erased)
    && (y.token != x.token ==> OwnToken(x.token, t) && OwnToken(y.token, t))
    && (y.cancelGuard != x.cancelGuard ==> OwnLock(x.cancelGuard, t) && OwnLock(y.cancelGuard, t))
    && (y.wasCancelled != x.wasCancelled ==>
          y.wasCancelled && mapGuard == Some(t) && x.cancelGuard == Some(t) && Maps(active, x.id, sid))
    && (y.finds != x.finds ==> y.finds == x.finds + 1 && mapGuard == Some(t) && Maps(active, x.id, sid))
    && ((y.ec, y.response, y.erased, y.calls) != (x.ec, x.response, x.erased, x.calls) ==>
          x.token == OnThread(t))
    && (y.trail != x.trail ==> x.token.InFlight?)
  }

  /** What a step of `t` may change in a view that is focused on session `sid`. */
  predicate MayChange(t: nat, sid: nat, v: View, w: View) {
    && MayBecome(t, v.mapGuard, v.active, sid, v.x, w.x)
    && (w.mapGuard != v.mapGuard ==> OwnLock(v.mapGuard, t) && OwnLock(w.mapGuard, t))
    && (w.active != v.active ==> v.mapGuard == Some(t))
    && (Maps(w.active, v.x.id, sid) ==> Maps(v.active, v.x.id, sid) || v.x.token == Submitter(t))
  }

  /** The rely side: what another thread knows survives every such change. */
  lemma RelyHolds(t: nat, u: nat, sid: nat, v: View, w: View)
    requires u != t && LocalOk(u, v) && w.pc == v.pc
    requires Works(v.pc) ==> v.pc.sid == sid
    requires Maps(v.active, v.x.id, sid) ==> !v.x.erased
    requires MayChange(t, sid, v, w)
    ensures LocalOk(u, w)
  {
  }

  // ---- the guarantee side, on views ---------------------------------------------------------

  /** What a session must show of the thread `t` that touches it. */
  predicate SelfOk(t: nat, sid: nat, v: View) {
    var x := v.x;
    && (match x.token
        case Submitter(u) => u == t ==> Submits(v.pc, sid)
        case OnThread(u) => u == t ==> CarriesToken(v.pc, sid)
        case InFlight(k) => k in v.ops && v.ops[k].sid == sid && OpOk(x, v.ops[k])
        case Finished => FinishedOk(x))
    && (x.cancelGuard == Some(t) ==> HoldsGuard(v.pc, sid))
    && (x.wasCancelled ==> x.finds >= 1)
    && (x.finds > 0 && !x.wasCancelled ==>
          v.mapGuard.Some? && (v.mapGuard == Some(t) ==> AboutToFlag(v.pc, sid)))
  }

  predicate Touches(v: View) {
    v.pc.Polling? || v.pc.Handling? || v.pc.Submitting? || HasFound(v.pc)
    || (v.pc.Cancelling? && v.pc.cat == CanFind && v.pc.id in v.active)
  }

  predicate IoPc(pc: Pc) {
    pc.Polling? || pc.Exited? || pc.Handling?
  }

  predicate RefersTo(pc: Pc, sid: nat) {
    pc.Handling? || pc.Submitting? || HasFound(pc) ==> pc.sid == sid
  }

  predicate PcMoves(sid: nat, v: View, w: View) {
    && IoPc(w.pc) == IoPc(v.pc)
    && RefersTo(v.pc, sid) && RefersTo(w.pc, sid)
    && (w.pc.Handling? || w.pc.Submitting? || HasFound(w.pc) ==> Touches(v))
  }

  /** How the shared tables move along with the session. */
  ghost predicate TablesMove(t: nat, sid: nat, v: View, w: View) {
    && (w.mapGuard == Some(t) <==> HoldsMap(w.pc))
    && (forall id :: id in w.active ==>
          || (Maps(v.active, id, w.active[id]) && (w.x.erased && !v.x.erased ==> id != v.x.id))
          || (id == v.x.id && w.active[id] == sid && v.x.token == Submitter(t) && !w.x.erased))
    && (!Touches(v) ==> w.active == v.active && w.ops == v.ops)
    && w.nextOp >= v.nextOp
    && (forall k :: k in v.ops && v.ops[k].sid != sid ==> k in w.ops && w.ops[k] == v.ops[k])
    && (forall k :: k in w.ops && w.ops[k].sid != sid ==> k in v.ops && w.ops[k] == v.ops[k])
    && (forall k :: k in w.ops && w.ops[k].sid == sid ==> w.x.token == InFlight(k) && k < w.nextOp)
  }

  ghost predicate MyOps(sid: nat, v: View) {
    forall k :: k in v.ops ==> k < v.nextOp && (v.ops[k].sid == sid ==> v.x.token == InFlight(k))
  }

  /** Thread `t` is about to step, and `sid` is the session it touches, if any. */
  predicate Poised(t: nat, sid: nat, v: View) {
    && Works(v.pc) && Unblocked(v) && LocalOk(t, v)
    && (v.mapGuard == Some(t) ==> HoldsMap(v.pc))
    && (Touches(v) ==> SelfOk(t, sid, v))
    && (v.pc.Handling? || v.pc.Submitting? || HasFound(v.pc) ==> v.pc.sid == sid)
    && (v.pc.Cancelling? && Touches(v) ==> Maps(v.active, v.pc.id, sid) && v.x.id == v.pc.id && !v.x.erased)
  }

  lemma EnterMoves(t: nat, sid: nat, v: View)
    requires Poised(t, sid, v)
    requires v.pc.Handling? && v.pc.at == Enter
    ensures var w := StepHandler(t, v); MayChange(t, sid, v, w) && LocalOk(t, w) && PcMoves(sid, v, w)
  {
  }

  lemma EarlyMoves(t: nat, sid: nat, v: View)
    requires Poised(t, sid, v)
    requires v.pc.Handling? && (v.pc.at == Enter || Continues(v.pc.at))
    ensures var w := StepHandler(t, v); MayChange(t, sid, v, w) && LocalOk(t, w) && PcMoves(sid, v, w)
  {
    if v.pc.at == Enter {
      EnterMoves(t, sid, v);
    }
  }

  lemma EnterSelf(t: nat, sid: nat, v: View)
    requires Poised(t, sid, v) && Touches(v)
    requires v.pc.Handling? && (v.pc.at == Enter || v.pc.at == Initiate)
    ensures SelfOk(t, sid, StepHandler(t, v))
  {
  }

  lemma EarlySelf(t: nat, sid: nat, v: View)
    requires Poised(t, sid, v) && Touches(v)
    requires v.pc.Handling? && (v.pc.at == Enter || Continues(v.pc.at))
    ensures SelfOk(t, sid, StepHandler(t, v))
  {
    if v.pc.at == Enter || v.pc.at == Initiate {
      EnterSelf(t, sid, v);
    }
  }

  lemma InitiateTables(t: nat, sid: nat, v: View)
    requires Poised(t, sid, v) && MyOps(sid, v)
    requires v.pc.Handling? && v.pc.at == Initiate
    ensures TablesMove(t, sid, v, StepHandler(t, v))
  {
  }

  lemma EarlyTables(t: nat, sid: nat, v: View)
    requires Poised(t, sid, v) && MyOps(sid, v)
    requires v.pc.Handling? && (v.pc.at == Enter || Continues(v.pc.at))
    ensures TablesMove(t, sid, v, StepHandler(t, v))
  {
    if v.pc.at == Initiate {
      InitiateTables(t, sid, v);
    } else {
      assert StepHandler(t, v).ops == v.ops;
    }
  }

  lemma MiddleMoves(t: nat, sid: nat, v: View)
    requires Poised(t, sid, v)
    requires v.pc.Handling? && v.pc.at in {Shutdown, LockMap, Erase, UnlockMap}
    ensures var w := StepHandler(t, v); MayChange(t, sid, v, w) && LocalOk(t, w) && PcMoves(sid, v, w)
  {
  }

  lemma MiddleSelf(t: nat, sid: nat, v: View)
    requires Poised(t, sid, v) && Touches(v)
    requires v.pc.Handling? && v.pc.at in {Shutdown, LockMap, Erase, UnlockMap}
    ensures SelfOk(t, sid, StepHandler(t, v))
  {
  }

  lemma MiddleTables(t: nat, sid: nat, v: View)
    requires Poised(t, sid, v) && MyOps(sid, v)
    requires v.pc.Handling? && v.pc.at in {Shutdown, LockMap, Erase, UnlockMap}
    ensures TablesMove(t, sid, v, StepHandler(t, v))
  {
  }

  lemma CallbackMoves(t: nat, sid: nat, v: View)
    requires Poised(t, sid, v)
    requires v.pc.Handling? && (v.pc.at == ComputeEc || v.pc.at.RunCallback?)
    ensures var w := StepHandler(t, v); MayChange(t, sid, v, w) && LocalOk(t, w) && PcMoves(sid, v, w)
  {
  }

  lemma LateMoves(t: nat, sid: nat, v: View)
    requires Poised(t, sid, v)
    requires v.pc.Handling? && (v.pc.at in {ComputeEc, Unwind, Return} || v.pc.at.RunCallback?)
    ensures var w := StepHandler(t, v); MayChange(t, sid, v, w) && LocalOk(t, w) && PcMoves(sid, v, w)
  {
    if v.pc.at == ComputeEc || v.pc.at.RunCallback? {
      CallbackMoves(t, sid, v);
    }
  }

  lemma LateSelf(t: nat, sid: nat, v: View)
    requires Poised(t, sid, v) && Touches(v)
    requires v.pc.Handling? && (v.pc.at in {ComputeEc, Unwind, Return} || v.pc.at.RunCallback?)
    ensures SelfOk(t, sid, StepHandler(t, v))
  {
  }

  lemma LateTables(t: nat, sid: nat, v: View)
    requires Poised(t, sid, v) && MyOps(sid, v)
    requires v.pc.Handling? && (v.pc.at in {ComputeEc, Unwind, Return} || v.pc.at.RunCallback?)
    ensures TablesMove(t, sid, v, StepHandler(t, v))
  {
  }

  lemma CancelMoves(t: nat, sid: nat, v: View)
    requires Poised(t, sid, v)
    requires v.pc.Cancelling?
    ensures var w := StepCancel(t, v); MayChange(t, sid, v, w) && LocalOk(t, w) && PcMoves(sid, v, w)
  {
  }

  lemma CancelSelf(t: nat, sid: nat, v: View)
    requires Poised(t, sid, v) && Touches(v)
    requires v.pc.Cancelling?
    ensures SelfOk(t, sid, StepCancel(t, v))
  {
  }

  lemma CancelTables(t: nat, sid: nat, v: View)
    requires Poised(t, sid, v) && MyOps(sid, v)
    requires v.pc.Cancelling?
    ensures TablesMove(t, sid, v, StepCancel(t, v))
  {
  }

  lemma SubmitMoves(t: nat, sid: nat, v: View)
    requires Poised(t, sid, v)
    requires v.pc.Submitting?
    ensures var w := StepSubmit(t, v); MayChange(t, sid, v, w) && LocalOk(t, w) && PcMoves(sid, v, w)
  {
  }

  lemma SubmitSelf(t: nat, sid: nat, v: View)
    requires Poised(t, sid, v) && Touches(v)
    requires v.pc.Submitting?
    ensures SelfOk(t, sid, StepSubmit(t, v))
  {
  }

  lemma SubmitTables(t: nat, sid: nat, v: View)
    requires Poised(t, sid, v) && MyOps(sid, v)
    requires v.pc.Submitting?
    ensures TablesMove(t, sid, v, StepSubmit(t, v))
  {
  }

  ghost predicate GoodChange(t: nat, sid: nat, v: View, w: View) {
    MayChange(t, sid, v, w) && LocalOk(t, w) && PcMoves(sid, v, w) && TablesMove(t, sid, v, w)
  }

  lemma ViewStep(t: nat, sid: nat, v: View)
    requires Poised(t, sid, v) && MyOps(sid, v)
    ensures GoodChange(t, sid, v, StepView(t, v))
    ensures Touches(v) ==> SelfOk(t, sid, StepView(t, v))
  {
    if v.pc.Cancelling? {
      CancelMoves(t, sid, v);
      CancelTables(t, sid, v);
      if Touches(v) {
        CancelSelf(t, sid, v);
      }
    } else if v.pc.Submitting? {
      SubmitMoves(t, sid, v);
      SubmitTables(t, sid, v);
      SubmitSelf(t, sid, v);
    } else if v.pc.at == Enter || Continues(v.pc.at) {
      EarlyMoves(t, sid, v);
      EarlyTables(t, sid, v);
      EarlySelf(t, sid, v);
    } else if v.pc.at in {Shutdown, LockMap, Erase, UnlockMap} {
      MiddleMoves(t, sid, v);
      MiddleTables(t, sid, v);
      MiddleSelf(t, sid, v);
    } else {
      LateMoves(t, sid, v);
      LateTables(t, sid, v);
      LateSelf(t, sid, v);
    }
  }

  // ---- from views to states ------------------------------------------------------------

  lemma FocusedIsPoised(s: State, t: nat)
    requires Inv(s) && t < |s.threads| && Works(s.threads[t]) && CanStep(s, t)
    ensures Poised(t, Focus(s, t), Look(s, t)) && MyOps(Focus(s, t), Look(s, t))
    ensures Touches(Look(s, t)) <==> Focus(s, t) < |s.sessions|
  {
    var sid, v := Focus(s, t), Look(s, t);
    assert ThreadOk(s, t);
    if v.pc.Cancelling? && v.pc.id in s.active {
      assert EntryOk(s, v.pc.id);
    }
    if sid < |s.sessions| {
      assert SessionOk(s, sid);
    }
    forall k | k in v.ops ensures k < v.nextOp && (v.ops[k].sid == sid ==> v.x.token == InFlight(k)) {
      assert OpTokenOk(s, k);
    }
  }

  /** Thread `t` may turn its view of session `sid` into `w`. */
  ghost predicate GoodMove(s: State, t: nat, sid: nat, w: View)
    requires t < |s.threads|
  {
    var v := LookAt(s, t, sid);
    && GoodChange(t, sid, v, w)
    && (if sid < |s.sessions| then SelfOk(t, sid, w) else !Touches(v))
  }

  lemma PutOwnThread(s: State, t: nat, sid: nat, w: View)
    requires t < |s.threads| && GoodMove(s, t, sid, w) && ThreadOk(s, t)
    ensures ThreadOk(Put(s, t, sid, w), t)
  {
    assert LocalOk(t, Look(Put(s, t, sid, w), t));
  }

  /** Another thread that works on the same session: what it knows survives. */
  lemma PutSharingThread(s: State, t: nat, sid: nat, w: View, u: nat)
    requires t < |s.threads| && u < |s.threads| && u != t && ThreadOk(s, u)
    requires MayChange(t, sid, LookAt(s, t, sid), w)
    requires sid < |s.sessions| && (s.sessions[sid].id in s.active ==> EntryOk(s, s.sessions[sid].id))
    requires Works(s.threads[u]) && s.threads[u].sid == sid
    ensures LocalOk(u, LookAt(s, u, sid).(x := w.x, mapGuard := w.mapGuard, active := w.active))
  {
    var v := LookAt(s, u, sid);
    RelyHolds(t, u, sid, v, w.(pc := v.pc));
  }

  /** A thread that works on another session. */
  lemma PutApartThread(s: State, t: nat, sid: nat, w: View, u: nat)
    requires t < |s.threads| && u < |s.threads| && u != t && ThreadOk(s, u)
    requires MayChange(t, sid, LookAt(s, t, sid), w)
    requires s.threads[u].Handling? || s.threads[u].Submitting? || HasFound(s.threads[u])
    requires s.threads[u].sid != sid
    requires forall id :: id in w.active ==>
               Maps(s.active, id, w.active[id]) || w.active[id] == sid
    ensures LocalOk(u, Look(Put(s, t, sid, w), u))
  {
  }

  lemma PutOtherThread(s: State, t: nat, sid: nat, w: View, u: nat)
    requires t < |s.threads| && u < |s.threads| && u != t && ThreadOk(s, u)
    requires MayChange(t, sid, LookAt(s, t, sid), w)
    requires sid < |s.sessions| && s.sessions[sid].id in s.active ==> EntryOk(s, s.sessions[sid].id)
    requires forall id :: id in w.active ==>
               Maps(s.active, id, w.active[id]) || w.active[id] == sid
    ensures ThreadOk(Put(s, t, sid, w), u)
  {
    var z := Put(s, t, sid, w);
    if Works(s.threads[u]) && s.threads[u].sid == sid && sid < |s.sessions| {
      PutSharingThread(s, t, sid, w, u);
    } else if s.threads[u].Handling? || s.threads[u].Submitting? || HasFound(s.threads[u]) {
      PutApartThread(s, t, sid, w, u);
    } else {
      assert LocalOk(u, Look(z, u));
    }
  }

  lemma PutOwnSession(s: State, t: nat, sid: nat, w: View)
    requires t < |s.threads| && sid < |s.sessions| && GoodMove(s, t, sid, w)
    requires SessionOk(s, sid)
    ensures SessionOk(Put(s, t, sid, w), sid)
  {
  }

  lemma PutOtherSession(s: State, t: nat, sid: nat, w: View, j: nat)
    requires t < |s.threads| && j < |s.sessions| && j != sid
    requires MayChange(t, sid, LookAt(s, t, sid), w) && RefersTo(s.threads[t], sid)
    requires forall k :: k in s.ops && s.ops[k].sid != sid ==> k in w.ops && w.ops[k] == s.ops[k]
    requires SessionOk(s, j)
    ensures SessionOk(Put(s, t, sid, w), j)
  {
  }

  lemma PutOp(s: State, t: nat, sid: nat, w: View, k: nat)
    requires t < |s.threads| && GoodMove(s, t, sid, w)
    requires k in s.ops ==> OpTokenOk(s, k)
    requires k in w.ops
    ensures OpTokenOk(Put(s, t, sid, w), k)
  {
  }

  lemma PutEntry(s: State, t: nat, sid: nat, w: View, id: nat)
    requires t < |s.threads| && GoodMove(s, t, sid, w)
    requires id in s.active ==> EntryOk(s, id)
    requires id in w.active
    ensures EntryOk(Put(s, t, sid, w), id)
  {
  }

  lemma GoodMoveKeepsInv(s: State, t: nat, sid: nat, w: View)
    requires Inv(s) && t < |s.threads| && GoodMove(s, t, sid, w)
    ensures Inv(Put(s, t, sid, w))
  {
    var z := Put(s, t, sid, w);
    forall u | 0 <= u < |z.threads| ensures ThreadOk(z, u) {
      assert ThreadOk(s, u) && ThreadOk(s, t);
      if u == t {
        PutOwnThread(s, t, sid, w);
      } else {
        PutOtherThread(s, t, sid, w, u);
      }
    }
    forall j | 0 <= j < |z.sessions| ensures SessionOk(z, j) {
      if j == sid {
        PutOwnSession(s, t, sid, w);
      } else {
        PutOtherSession(s, t, sid, w, j);
      }
    }
    forall k | k in z.ops ensures OpTokenOk(z, k) {
      PutOp(s, t, sid, w, k);
    }
    forall id | id in z.active ensures EntryOk(z, id) {
      PutEntry(s, t, sid, w, id);
    }
  }

  lemma StepIsGoodMove(s: State, t: nat)
    requires Inv(s) && t < |s.threads| && Works(s.threads[t]) && CanStep(s, t)
    ensures GoodMove(s, t, Focus(s, t), StepView(t, Look(s, t)))
  {
    FocusedIsPoised(s, t);
    ViewStep(t, Focus(s, t), Look(s, t));
  }

  lemma DispatchTables(s: State, t: nat, k: nat)
    requires Enabled(s, Dispatch(t, k)) && OpTokenOk(s, k) && MapGuardOk(s)
    requires forall j :: j in s.ops && j != k ==> s.ops[j].sid != s.ops[k].sid && j < s.nextOp
    ensures TablesMove(t, s.ops[k].sid, LookAt(s, t, s.ops[k].sid), DispatchView(s, t, k))
  {
    var v, w := LookAt(s, t, s.ops[k].sid), DispatchView(s, t, k);
    forall id | id in s.active ensures Maps(v.active, id, w.active[id]) {
    }
  }

  lemma DispatchIsGoodMove(s: State, t: nat, k: nat)
    requires Inv(s) && Enabled(s, Dispatch(t, k))
    ensures GoodMove(s, t, s.ops[k].sid, DispatchView(s, t, k))
  {
    assert ThreadOk(s, t) && OpTokenOk(s, k) && SessionOk(s, s.ops[k].sid);
    forall j | j in s.ops && j != k ensures s.ops[j].sid != s.ops[k].sid && j < s.nextOp {
      assert OpTokenOk(s, j);
    }
    DispatchTables(s, t, k);
    DispatchedOk(s, t, k);
  }

  lemma DispatchedOk(s: State, t: nat, k: nat)
    requires Enabled(s, Dispatch(t, k)) && ThreadOk(s, t) && OpTokenOk(s, k) && SessionOk(s, s.ops[k].sid)
    ensures var sid, w := s.ops[k].sid, DispatchView(s, t, k);
      && MayChange(t, sid, LookAt(s, t, sid), w) && LocalOk(t, w) && PcMoves(sid, LookAt(s, t, sid), w)
      && SelfOk(t, sid, w)
  {
  }

  predicate HoldsNothing(pc: Pc) {
    !Works(pc) || (pc.Cancelling? && pc.cat == CanLock)
  }

  /** Steps that move only a thread that holds nothing: calls, joins, leaving `run()`. */
  lemma FreePcKeepsInv(s: State, t: nat, pc: Pc)
    requires Inv(s) && t < |s.threads| && !Works(s.threads[t]) && HoldsNothing(pc)
    requires IoPc(pc) == IoPc(s.threads[t])
    ensures Inv(SetPc(s, t, pc))
  {
    forall u | 0 <= u < |s.threads| ensures ThreadOk(SetPc(s, t, pc), u) {
      assert ThreadOk(s, u);
    }
    forall j | 0 <= j < |s.sessions| ensures SessionOk(SetPc(s, t, pc), j) {
      assert SessionOk(s, j);
    }
    forall k | k in s.ops ensures OpTokenOk(SetPc(s, t, pc), k) {
      assert OpTokenOk(s, k);
    }
    forall id | id in s.active ensures EntryOk(SetPc(s, t, pc), id) {
      assert EntryOk(s, id);
    }
  }

  lemma CompleteKeepsInv(s: State, k: nat, ec: ErrorCode, data: string)
    requires Inv(s) && Enabled(s, Complete(k, ec, data))
    ensures Inv(Apply(s, Complete(k, ec, data)))
  {
    var z := Apply(s, Complete(k, ec, data));
    forall u | 0 <= u < |z.threads| ensures ThreadOk(z, u) {
      assert ThreadOk(s, u);
    }
    forall j | 0 <= j < |z.sessions| ensures SessionOk(z, j) {
      assert SessionOk(s, j);
    }
    forall i | i in z.ops ensures OpTokenOk(z, i) {
      assert OpTokenOk(s, i);
    }
    forall id | id in z.active ensures EntryOk(z, id) {
      assert EntryOk(s, id);
    }
  }

  lemma SubmitCallKeepsInv(s: State, t: nat, id: nat, duration: nat)
    requires Inv(s) && Enabled(s, CallSubmit(t, id, duration))
    ensures Inv(Apply(s, CallSubmit(t, id, duration)))
  {
    var z := Apply(s, CallSubmit(t, id, duration));
    forall u | 0 <= u < |z.threads| ensures ThreadOk(z, u) {
      assert ThreadOk(s, u) && ThreadOk(s, t);
      if u == t {
        assert forall i :: i in s.active ==> EntryOk(s, i);
      }
    }
    forall j | 0 <= j < |z.sessions| ensures SessionOk(z, j) {
      if j < |s.sessions| {
        assert SessionOk(s, j);
      }
    }
    forall k | k in z.ops ensures OpTokenOk(z, k) {
      assert OpTokenOk(s, k);
    }
    forall i | i in z.active ensures EntryOk(z, i) {
      assert EntryOk(s, i);
    }
  }

  /** The guarantee as a statement about actions: who may change a session, and when. */
  lemma ActionGuarantee(s: State, a: Action, sid: nat)
    requires Inv(s) && Enabled(s, a) && sid < |s.sessions|
    ensures var x, y := s.sessions[sid], Apply(s, a).sessions[sid];
            y != x ==> (a.Step? || a.Dispatch?) && MayBecome(a.t, s.mapGuard, s.active, sid, x, y)
    ensures |Apply(s, a).sessions| >= |s.sessions|
  {
    if a.Step? && Works(s.threads[a.t]) {
      StepIsGoodMove(s, a.t);
    } else if a.Dispatch? {
      DispatchIsGoodMove(s, a.t, a.k);
    }
  }

  lemma CalledIsFinished(s: State, sid: nat)
    requires Inv(s) && sid < |s.sessions|
    ensures s.sessions[sid].calls == [] <==> !s.sessions[sid].token.Finished?
  {
    var token := s.sessions[sid].token;
    assert SessionOk(s, sid);
    if token.Submitter? || token.OnThread? {
      assert ThreadOk(s, token.t);
    }
  }

  // ---- runs ----------------------------------------------------------------------------

  lemma InvInit(n: nat, u: nat)
    ensures Inv(Init(n, u))
  {
  }

  lemma InvStep(s: State, a: Action)
    requires Inv(s) && Enabled(s, a)
    ensures Inv(Apply(s, a))
  {
    match a
    case CallSubmit(t, id, duration) => SubmitCallKeepsInv(s, t, id, duration);
    case CallCancel(t, id) =>
      assert ThreadOk(s, t);
      FreePcKeepsInv(s, t, Cancelling(id, 0, CanLock));
    case CallClose(t) =>
      assert ThreadOk(s, t);
      FreePcKeepsInv(s, t, Joining(0));
      WorkIsIrrelevant(SetPc(s, t, Joining(0)), false);
    case Step(t) =>
      if Works(s.threads[t]) {
        StepIsGoodMove(s, t);
        GoodMoveKeepsInv(s, t, Focus(s, t), StepView(t, Look(s, t)));
      } else {
        assert ThreadOk(s, t);
        FreePcKeepsInv(s, t, StepThread(s, t).threads[t]);
      }
    case Complete(k, ec, data) => CompleteKeepsInv(s, k, ec, data);
    case Dispatch(t, k) =>
      DispatchIsGoodMove(s, t, k);
      GoodMoveKeepsInv(s, t, s.ops[k].sid, DispatchView(s, t, k));
    case ExitRun(t) =>
      assert ThreadOk(s, t);
      FreePcKeepsInv(s, t, Exited);
  }

  lemma WorkIsIrrelevant(s: State, work: bool)
    requires Inv(s)
    ensures Inv(s.(work := work))
  {
    var z := s.(work := work);
    forall u | 0 <= u < |z.threads| ensures ThreadOk(z, u) {
      assert ThreadOk(s, u);
    }
    forall j | 0 <= j < |z.sessions| ensures SessionOk(z, j) {
      assert SessionOk(s, j);
    }
    forall k | k in z.ops ensures OpTokenOk(z, k) {
      assert OpTokenOk(s, k);
    }
    forall id | id in z.active ensures EntryOk(z, id) {
      assert EntryOk(s, id);
    }
  }

  lemma {:induction false} InvRuns(from: State, acts: seq<Action>, to: State)
    requires Inv(from) && Runs(from, acts, to)
    ensures Inv(to)
    decreases |acts|
  {
    if acts != [] {
      InvStep(from, acts[0]);
      InvRuns(Apply(from, acts[0]), acts[1..], to);
    }
  }

  lemma ReachableInv(s: State)
    requires Reachable(s)
    ensures Inv(s)
  {
    var n: nat, u: nat, acts: seq<Action> :| Runs(Init(n, u), acts, s);
    InvInit(n, u);
    InvRuns(Init(n, u), acts, s);
  }
}
