/** What the invariant gives over every run: tokens, outcomes, races and lifetimes. */
module ClientSafety {
  import opened Text
  import opened ClientModel
  import opened ClientInvariant

  // ---- one token per session -------------------------------------------------------

  /** Session `sid` is in the hands of `p`: a submitter, an operation, a handler, or nobody any more. */
  predicate HeldBy(s: State, sid: nat, p: Token)
    requires sid < |s.sessions|
  {
    match p
    case Submitter(t) => t < |s.threads| && Submits(s.threads[t], sid)
    case InFlight(k) => k in s.ops && s.ops[k].sid == sid
    case OnThread(t) => t < |s.threads| && CarriesToken(s.threads[t], sid)
    case Finished => s.sessions[sid].calls != []
  }

  /** Every session is in exactly one pair of hands, and in nobody's once its callback has run. */
  lemma OneToken(s: State, sid: nat, p: Token)
    requires Reachable(s) && sid < |s.sessions|
    ensures HeldBy(s, sid, p) <==> p == s.sessions[sid].token
  {
    ReachableInv(s);
    assert SessionOk(s, sid);
    match p
    case Submitter(t) => if HeldBy(s, sid, p) { assert ThreadOk(s, t); }
    case OnThread(t) => if HeldBy(s, sid, p) { assert ThreadOk(s, t); }
    case InFlight(k) => if HeldBy(s, sid, p) { assert OpTokenOk(s, k); }
    case Finished => CalledIsFinished(s, sid);
  }

  // ---- outcomes ------------------------------------------------------------------------

  /** Past its erase, a session was cancelled exactly if some cancelRequest found it. */
  lemma FlagIsFinds(s: State, sid: nat)
    requires Inv(s) && sid < |s.sessions| && s.sessions[sid].erased
    ensures s.sessions[sid].wasCancelled <==> s.sessions[sid].finds > 0
  {
    var x := s.sessions[sid];
    assert SessionOk(s, sid);
    if s.mapGuard.Some? && s.mapGuard.value < |s.threads| {
      var pc := s.threads[s.mapGuard.value];
      assert ThreadOk(s, s.mapGuard.value);
      if pc.Cancelling? && pc.id in s.active {
        assert EntryOk(s, pc.id);
      }
    }
  }

  /** The callback runs at most once, and is told what the network and the user did to the request. */
  lemma Outcome(s: State, sid: nat)
    requires Reachable(s) && sid < |s.sessions| && s.sessions[sid].calls != []
    ensures var x := s.sessions[sid];
            && |x.calls| == 1 && x.calls[0].response == x.response
            && (x.calls[0].ec == Success <==> x.trail == [Success, Success, Success] && x.finds == 0)
            && (x.calls[0].ec == OperationAborted ==> x.finds > 0)
            && x.trail != [] && x.calls[0].ec == Verdict(x.trail, x.finds > 0)
  {
    ReachableInv(s);
    var x := s.sessions[sid];
    OneToken(s, sid, Finished);
    assert SessionOk(s, sid) && FinishedOk(x);
    FlagIsFinds(s, sid);
    if x.calls[0].ec == Success {
      assert |x.trail| == 3;
      assert x.trail[0] == Success && x.trail[1] == Success;
    }
  }

  // ---- the flag and its lock-free read -----------------------------------------------------

  /** Who writes the flag: a thread inside both critical sections, while the session is in the map. */
  lemma FlagWriter(s: State, a: Action, sid: nat)
    requires Reachable(s) && Enabled(s, a) && sid < |s.sessions|
    requires Apply(s, a).sessions[sid].wasCancelled != s.sessions[sid].wasCancelled
    ensures && a.Step? && s.mapGuard == Some(a.t) && s.sessions[sid].cancelGuard == Some(a.t)
            && Maps(s.active, s.sessions[sid].id, sid) && !s.sessions[sid].erased
  {
    ReachableInv(s);
    ActionGuarantee(s, a, sid);
    assert EntryOk(s, s.sessions[sid].id);
  }

  /** Once its own completion has erased it, nothing about a session's cancellation changes. */
  lemma FlagIsStable(s: State, a: Action, sid: nat)
    requires Reachable(s) && Enabled(s, a) && sid < |s.sessions| && s.sessions[sid].erased
    ensures var x, y := s.sessions[sid], Apply(s, a).sessions[sid];
            y.erased && y.wasCancelled == x.wasCancelled && y.finds == x.finds
  {
    ReachableInv(s);
    ActionGuarantee(s, a, sid);
    if s.sessions[sid].id in s.active {
      assert EntryOk(s, s.sessions[sid].id);
    }
  }

  datatype Location = Flag(sid: nat) | Ec(sid: nat) | Response(sid: nat) | Table

  function Reads(pc: Pc): set<Location> {
    match pc
    case Handling(sid, _, _, _, _, at) =>
      if at == TestFlag then {Flag(sid)}
      else if at == Erase then {Table}
      else if at == ComputeEc then {Flag(sid), Ec(sid)}
      else if at.RunCallback? then {Response(sid)}
      else {}
    case Cancelling(_, _, at) => if at == CanFind then {Table} else {}
    case _ => {}
  }

  function Writes(pc: Pc): set<Location> {
    match pc
    case Handling(sid, kind, ec, _, _, at) =>
      if at == Enter then (if ec != Success then {Ec(sid)} else if kind == ReadUntil then {Response(sid)} else {})
      else if at == Erase then {Table}
      else {}
    case Cancelling(_, sid, at) => if at == CanSetFlag then {Flag(sid)} else {}
    case Submitting(_, at) => if at == SubInsert then {Table} else {}
    case _ => {}
  }

  /** The location holds something else in `z` than in `s`. */
  predicate Differs(s: State, z: State, l: Location) {
    match l
    case Table => z.active != s.active
    case _ =>
      && l.sid < |s.sessions| && l.sid < |z.sessions|
      && var x, y := s.sessions[l.sid], z.sessions[l.sid];
      match l
      case Flag(_) => y.wasCancelled != x.wasCancelled
      case Ec(_) => y.ec != x.ec
      case Response(_) => y.response != x.response
      case Table => false
  }

  /** The location holds the same in the view `w` as in `v`. */
  predicate SameAt(v: View, w: View, l: Location) {
    match l
    case Table => w.active == v.active
    case Flag(_) => w.x.wasCancelled == v.x.wasCancelled
    case Ec(_) => w.x.ec == v.x.ec
    case Response(_) => w.x.response == v.x.response
  }

  lemma HandlerWrites(t: nat, v: View, l: Location)
    requires v.pc.Handling? && l !in Writes(v.pc) && (!l.Table? ==> l.sid == v.pc.sid)
    ensures SameAt(v, StepHandler(t, v), l)
  {
  }

  lemma StepWrites(s: State, t: nat, l: Location)
    requires t < |s.threads| && CanStep(s, t) && Works(s.threads[t]) && l !in Writes(s.threads[t])
    ensures !Differs(s, StepThread(s, t), l)
  {
    if s.threads[t].Handling? && (!l.Table? ==> l.sid == s.threads[t].sid) {
      HandlerWrites(t, Look(s, t), l);
    }
  }

  /** `Writes` is complete: whatever changes a location is a step that lists it. */
  lemma WritesAreListed(s: State, a: Action, l: Location)
    requires Enabled(s, a)
    ensures Differs(s, Apply(s, a), l) ==> a.Step? && l in Writes(s.threads[a.t])
  {
    if a.Step? && Works(s.threads[a.t]) && l !in Writes(s.threads[a.t]) {
      StepWrites(s, a.t, l);
    }
  }

  /** The view with the location's content taken from elsewhere. */
  function Alter(v: View, l: Location, y: Session, active: map<nat, nat>): View {
    match l
    case Table => v.(active := active)
    case Flag(_) => v.(x := v.x.(wasCancelled := y.wasCancelled))
    case Ec(_) => v.(x := v.x.(ec := y.ec))
    case Response(_) => v.(x := v.x.(response := y.response))
  }

  /** `Reads` is complete: a step does the same whatever is in a location it does not list. */
  lemma ReadsAreListed(t: nat, sid: nat, v: View, l: Location, y: Session, active: map<nat, nat>)
    requires Works(v.pc) && (v.pc.Handling? || HasFound(v.pc) ==> v.pc.sid == sid)
    requires l !in Reads(v.pc) && (if l.Table? then l !in Writes(v.pc) else l.sid == sid)
    ensures StepView(t, Alter(v, l, y, active))
            == if l in Writes(v.pc) then StepView(t, v) else Alter(StepView(t, v), l, y, active)
  {
    if v.pc.Handling? {
      HandlerReads(t, v, l, y, active);
    } else if v.pc.Cancelling? {
      CancelReads(t, sid, v, l, y, active);
    } else {
      SubmitReads(t, v, l, y, active);
    }
  }

  /** The view with these contents of its session's locations. */
  function With(v: View, flag: bool, ec: ErrorCode, response: string): View {
    v.(x := v.x.(wasCancelled := flag, ec := ec, response := response))
  }

  lemma CancelReads(t: nat, sid: nat, v: View, l: Location, y: Session, active: map<nat, nat>)
    requires v.pc.Cancelling? && (HasFound(v.pc) ==> v.pc.sid == sid)
    requires l !in Reads(v.pc) && (!l.Table? ==> l.sid == sid)
    ensures StepCancel(t, Alter(v, l, y, active))
            == if l in Writes(v.pc) then StepCancel(t, v) else Alter(StepCancel(t, v), l, y, active)
  {
    match l
    case Table => CancelReadsTable(t, v, active);
    case Flag(_) => CancelReadsNothing(t, v, y.wasCancelled, v.x.ec, v.x.response);
    case Ec(_) => CancelReadsNothing(t, v, v.x.wasCancelled, y.ec, v.x.response);
    case Response(_) => CancelReadsNothing(t, v, v.x.wasCancelled, v.x.ec, y.response);
  }

  lemma CancelReadsTable(t: nat, v: View, active: map<nat, nat>)
    requires v.pc.Cancelling? && v.pc.cat != CanFind
    ensures StepCancel(t, v.(active := active)) == StepCancel(t, v).(active := active)
  {
  }

  lemma CancelReadsNothing(t: nat, v: View, flag: bool, ec: ErrorCode, response: string)
    requires v.pc.Cancelling?
    ensures StepCancel(t, With(v, flag, ec, response))
            == With(StepCancel(t, v), flag || v.pc.cat == CanSetFlag, ec, response)
  {
    if v.pc.cat in {CanFind, CanSetFlag, CanCancelSocket} {
      FoundReadsNothing(t, v, flag, ec, response);
    }
  }

  lemma FoundReadsNothing(t: nat, v: View, flag: bool, ec: ErrorCode, response: string)
    requires v.pc.Cancelling? && v.pc.cat in {CanFind, CanSetFlag, CanCancelSocket}
    ensures StepCancel(t, With(v, flag, ec, response))
            == With(StepCancel(t, v), flag || v.pc.cat == CanSetFlag, ec, response)
  {
  }

  lemma SubmitReads(t: nat, v: View, l: Location, y: Session, active: map<nat, nat>)
    requires v.pc.Submitting? && (l.Table? ==> l !in Writes(v.pc))
    ensures StepSubmit(t, Alter(v, l, y, active)) == Alter(StepSubmit(t, v), l, y, active)
  {
    match l
    case Table =>
    case Flag(_) => SubmitReadsNothing(t, v, y.wasCancelled, v.x.ec, v.x.response);
    case Ec(_) => SubmitReadsNothing(t, v, v.x.wasCancelled, y.ec, v.x.response);
    case Response(_) => SubmitReadsNothing(t, v, v.x.wasCancelled, v.x.ec, y.response);
  }

  lemma SubmitReadsNothing(t: nat, v: View, flag: bool, ec: ErrorCode, response: string)
    requires v.pc.Submitting?
    ensures StepSubmit(t, With(v, flag, ec, response)) == With(StepSubmit(t, v), flag, ec, response)
  {
  }

  lemma HandlerReads(t: nat, v: View, l: Location, y: Session, active: map<nat, nat>)
    requires v.pc.Handling? && l !in Reads(v.pc) && (if l.Table? then l !in Writes(v.pc) else l.sid == v.pc.sid)
    ensures StepHandler(t, Alter(v, l, y, active))
            == if l in Writes(v.pc) then StepHandler(t, v) else Alter(StepHandler(t, v), l, y, active)
  {
    match l
    case Table => HandlerReadsTable(t, v, active);
    case Flag(_) => HandlerReadsFlag(t, v, y.wasCancelled);
    case Ec(_) => HandlerReadsEc(t, v, y.ec);
    case Response(_) => HandlerReadsResponse(t, v, y.response);
  }

  lemma HandlerReadsTable(t: nat, v: View, active: map<nat, nat>)
    requires v.pc.Handling? && v.pc.at != Erase
    ensures StepHandler(t, v.(active := active)) == StepHandler(t, v).(active := active)
  {
  }

  lemma HandlerReadsFlag(t: nat, v: View, flag: bool)
    requires v.pc.Handling? && v.pc.at != TestFlag && v.pc.at != ComputeEc
    ensures var v', w := v.(x := v.x.(wasCancelled := flag)), StepHandler(t, v);
      StepHandler(t, v') == w.(x := w.x.(wasCancelled := flag))
  {
  }

  lemma HandlerReadsEc(t: nat, v: View, ec: ErrorCode)
    requires v.pc.Handling? && v.pc.at != ComputeEc
    ensures var v', w := v.(x := v.x.(ec := ec)), StepHandler(t, v);
      StepHandler(t, v') == if v.pc.at == Enter && v.pc.ec != Success then w else w.(x := w.x.(ec := ec))
  {
  }

  lemma HandlerReadsResponse(t: nat, v: View, response: string)
    requires v.pc.Handling? && !v.pc.at.RunCallback?
    ensures var v', w := v.(x := v.x.(response := response)), StepHandler(t, v);
      StepHandler(t, v')
        == if v.pc.at == Enter && v.pc.ec == Success && v.pc.kind == ReadUntil then w
           else w.(x := w.x.(response := response))
  {
  }

  /** No two threads are ever about to make conflicting accesses to a field or to the map. */
  lemma RaceFree(s: State, t: nat, u: nat, l: Location)
    requires Reachable(s) && t < |s.threads| && u < |s.threads| && t != u
    requires l in Writes(s.threads[t])
    ensures l !in Reads(s.threads[u]) && l !in Writes(s.threads[u])
  {
    ReachableInv(s);
    assert ThreadOk(s, t) && ThreadOk(s, u);
    if l.Flag? {
      assert EntryOk(s, s.threads[t].id);
    }
  }

  // ---- lifetimes -----------------------------------------------------------------------------

  /** The thread keeps a shared_ptr: a submitter's local or a handler's capture. */
  predicate Owns(pc: Pc, sid: nat) {
    (pc.Handling? || pc.Submitting?) && pc.sid == sid
  }

  /** The thread may dereference the session; cancelRequest does so through the map entry. */
  predicate Uses(pc: Pc, sid: nat) {
    Owns(pc, sid) || (HasFound(pc) && pc.sid == sid)
  }

  /** The reference count is not zero: a thread, an operation's handler or a map entry refers to it. */
  ghost predicate Owned(s: State, sid: nat) {
    || (exists t :: 0 <= t < |s.threads| && Owns(s.threads[t], sid))
    || (exists k :: k in s.ops && s.ops[k].sid == sid)
    || (exists id :: id in s.active && s.active[id] == sid)
  }

  /** Nothing refers to a freed session, and no freed session's mutex is locked. */
  lemma NoDanglingUse(s: State, sid: nat)
    requires Reachable(s) && sid < |s.sessions| && !Owned(s, sid)
    ensures forall t :: 0 <= t < |s.threads| ==> !Uses(s.threads[t], sid)
    ensures s.sessions[sid].cancelGuard == None
    ensures |s.sessions[sid].calls| == 1
  {
    ReachableInv(s);
    forall t | 0 <= t < |s.threads| ensures !Uses(s.threads[t], sid) {
      assert ThreadOk(s, t);
    }
    assert SessionOk(s, sid);
    if s.sessions[sid].cancelGuard.Some? {
      assert Uses(s.threads[s.sessions[sid].cancelGuard.value], sid);
    }
  }

  lemma FocusIsUsed(s: State, t: nat)
    requires Inv(s) && t < |s.threads| && Focus(s, t) < |s.sessions|
    ensures Uses(s.threads[t], Focus(s, t)) || Maps(s.active, s.threads[t].id, Focus(s, t))
  {
    assert ThreadOk(s, t);
  }

  /** A freed session is never written again. */
  lemma NoUseAfterFree(s: State, a: Action, sid: nat)
    requires Reachable(s) && Enabled(s, a) && sid < |s.sessions| && !Owned(s, sid)
    ensures Apply(s, a).sessions[sid] == s.sessions[sid]
  {
    NoDanglingUse(s, sid);
    ReachableInv(s);
    if a.Step? && Focus(s, a.t) < |s.sessions| {
      FocusIsUsed(s, a.t);
    }
  }

  lemma StepStaysFreed(s: State, t: nat, sid: nat)
    requires Inv(s) && t < |s.threads| && Works(s.threads[t]) && CanStep(s, t)
    requires sid < |s.sessions| && !Owned(s, sid)
    ensures !Owned(StepThread(s, t), sid)
  {
    StepIsGoodMove(s, t);
    assert ThreadOk(s, t);
    if Focus(s, t) < |s.sessions| {
      FocusIsUsed(s, t);
    }
  }

  /** A freed session stays freed. */
  lemma NoResurrection(s: State, a: Action, sid: nat)
    requires Reachable(s) && Enabled(s, a) && sid < |s.sessions| && !Owned(s, sid)
    ensures !Owned(Apply(s, a), sid)
  {
    ReachableInv(s);
    if a.Step? && Works(s.threads[a.t]) {
      StepStaysFreed(s, a.t, sid);
    }
  }
}
