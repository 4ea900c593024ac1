/**
 What a cancelRequest call does to the request it finds: it reaches the operation in
 flight, which may then end as aborted, and it ends the chain of operations.
 */
module ClientCancel {
  import opened ClientModel
  import opened ClientInvariant

  // ---- the socket is cancelled ---------------------------------------------------------------

  predicate CancelsSocket(s: State, a: Action, k: nat) {
    && a.Step? && a.t < |s.threads| && s.threads[a.t].Cancelling? && s.threads[a.t].cat == CanCancelSocket
    && s.threads[a.t].sid < |s.sessions| && s.sessions[s.threads[a.t].sid].token == InFlight(k)
  }

  /** `m_sock.cancel()` lets the session's operation in flight end as aborted, and touches no other. */
  lemma CancelReachesSocket(s: State, t: nat, k: nat)
    requires Inv(s) && CancelsSocket(s, Step(t), k) && k in s.ops && s.ops[k].state.Pending?
    ensures Enabled(s, Step(t)) && Enabled(Apply(s, Step(t)), Complete(k, OperationAborted, ""))
    ensures Apply(s, Step(t)).ops == s.ops[k := s.ops[k].(state := Pending(true))]
  {
    assert ThreadOk(s, t) && SessionOk(s, s.threads[t].sid);
  }

  /** Without an operation waiting for the network there is nothing to cancel. */
  lemma CancelMissesSocket(s: State, t: nat)
    requires Inv(s) && t < |s.threads| && s.threads[t].Cancelling? && s.threads[t].cat == CanCancelSocket
    requires forall k :: CancelsSocket(s, Step(t), k) ==> !(k in s.ops && s.ops[k].state.Pending?)
    ensures Enabled(s, Step(t)) && Apply(s, Step(t)).ops == s.ops
  {
    assert ThreadOk(s, t);
    var token := s.sessions[s.threads[t].sid].token;
    assert token.InFlight? ==> CancelsSocket(s, Step(t), token.k);
  }

  predicate Hit(s: State, k: nat) {
    k in s.ops && s.ops[k].state == Pending(true)
  }

  predicate Waits(s: State, k: nat) {
    k in s.ops && s.ops[k].state.Pending?
  }

  lemma HandlerHits(t: nat, v: View, k: nat)
    requires v.pc.Handling? && k < v.nextOp
    ensures var w := StepHandler(t, v); (k in w.ops <==> k in v.ops) && (k in v.ops ==> w.ops[k] == v.ops[k])
  {
  }

  lemma CancelHits(t: nat, v: View, k: nat)
    requires v.pc.Cancelling?
    ensures var w := StepCancel(t, v);
      && (k in w.ops <==> k in v.ops)
      && (k in v.ops ==>
            w.ops[k] == if v.pc.cat == CanCancelSocket && v.x.token == InFlight(k) && v.ops[k].state.Pending?
                        then v.ops[k].(state := Pending(true)) else v.ops[k])
  {
  }

  /** What a step makes of an operation that exists. */
  lemma StepHits(s: State, t: nat, k: nat)
    requires t < |s.threads| && Works(s.threads[t]) && CanStep(s, t) && k < s.nextOp
    requires HasFound(s.threads[t]) ==> s.threads[t].sid < |s.sessions|
    ensures var z := StepThread(s, t);
      && (k in z.ops <==> k in s.ops)
      && (k in s.ops ==>
            z.ops[k] == if CancelsSocket(s, Step(t), k) && s.ops[k].state.Pending?
                        then s.ops[k].(state := Pending(true)) else s.ops[k])
  {
    if s.threads[t].Handling? {
      HandlerHits(t, Look(s, t), k);
    } else if s.threads[t].Cancelling? {
      CancelHits(t, Look(s, t), k);
    }
  }

  /** An operation may end as aborted after this action iff it could before, or this is its cancel. */
  lemma ActionHits(s: State, a: Action, k: nat)
    requires Inv(s) && Enabled(s, a) && k < s.nextOp
    ensures Waits(Apply(s, a), k) ==> Waits(s, k) && (Hit(Apply(s, a), k) <==> Hit(s, k) || CancelsSocket(s, a, k))
  {
    if a.Step? {
      assert ThreadOk(s, a.t);
      if Works(s.threads[a.t]) {
        StepHits(s, a.t, k);
      }
    }
  }

  /** A new operation has not been cancelled. */
  lemma NewOpsAreClean(s: State, a: Action, k: nat)
    requires Inv(s) && Enabled(s, a) && k >= s.nextOp
    ensures k !in s.ops && !Hit(Apply(s, a), k) && !CancelsSocket(s, a, k)
    ensures k in Apply(s, a).ops ==> Waits(Apply(s, a), k)
  {
    assert k in s.ops ==> OpTokenOk(s, k);
    if a.Step? {
      assert ThreadOk(s, a.t);
      assert HasFound(s.threads[a.t]) ==> SessionOk(s, s.threads[a.t].sid);
      if Works(s.threads[a.t]) {
        FreshOps(s, a.t, k);
      }
    }
  }

  lemma FreshOps(s: State, t: nat, k: nat)
    requires t < |s.threads| && Works(s.threads[t]) && CanStep(s, t) && k >= s.nextOp && k !in s.ops
    ensures k in StepThread(s, t).ops ==> StepThread(s, t).ops[k].state == Pending(false)
  {
  }

  lemma NextOpGrows(s: State, a: Action)
    requires Inv(s) && Enabled(s, a)
    ensures Apply(s, a).nextOp >= s.nextOp
  {
    if a.Step? && Works(s.threads[a.t]) {
      StepIsGoodMove(s, a.t);
    }
  }

  /** Some cancelRequest of the run reaches operation `k` while it is in flight. */
  predicate Reached(from: State, acts: seq<Action>, k: nat)
    decreases |acts|
  {
    acts != [] && Enabled(from, acts[0])
    && (CancelsSocket(from, acts[0], k) || Reached(Apply(from, acts[0]), acts[1..], k))
  }

  /** An operation the network is not working on any more stays so. */
  lemma {:induction false} PastStays(from: State, acts: seq<Action>, to: State, k: nat)
    requires Inv(from) && Runs(from, acts, to) && k < from.nextOp && !Waits(from, k)
    ensures !Waits(to, k)
    decreases |acts|
  {
    if acts != [] {
      ActionHits(from, acts[0], k);
      NextOpGrows(from, acts[0]);
      InvStep(from, acts[0]);
      PastStays(Apply(from, acts[0]), acts[1..], to, k);
    }
  }

  /** The network may abort an operation in flight exactly if a cancelRequest has reached it. */
  lemma {:induction false} HitExactly(from: State, acts: seq<Action>, to: State, k: nat)
    requires Inv(from) && Runs(from, acts, to) && Waits(to, k)
    ensures Hit(to, k) <==> Hit(from, k) || Reached(from, acts, k)
    decreases |acts|
  {
    if acts != [] {
      var next := Apply(from, acts[0]);
      InvStep(from, acts[0]);
      HitExactly(next, acts[1..], to, k);
      if k < from.nextOp {
        NextOpGrows(from, acts[0]);
        if !Waits(next, k) {
          PastStays(next, acts[1..], to, k);
        }
        ActionHits(from, acts[0], k);
      } else {
        NewOpsAreClean(from, acts[0], k);
      }
    }
  }

  /** Main result: in any run, an operation in flight can be aborted iff a cancelRequest reached it. */
  lemma AbortableExactly(n: nat, u: nat, acts: seq<Action>, s: State, k: nat)
    requires Runs(Init(n, u), acts, s) && Waits(s, k)
    ensures Enabled(s, Complete(k, OperationAborted, "")) <==> Reached(Init(n, u), acts, k)
  {
    InvInit(n, u);
    HitExactly(Init(n, u), acts, s, k);
  }

  // ---- every flagged session has its socket cancelled -----------------------------------------------

  /** The session that thread `t` flags with this action, and the one whose socket it cancels. */
  function FlagOf(s: State, a: Action, t: nat): seq<nat> {
    if a == Step(t) && t < |s.threads| && s.threads[t].Cancelling? && s.threads[t].cat == CanSetFlag
    then [s.threads[t].sid] else []
  }

  function SocketOf(s: State, a: Action, t: nat): seq<nat> {
    if a == Step(t) && t < |s.threads| && s.threads[t].Cancelling? && s.threads[t].cat == CanCancelSocket
    then [s.threads[t].sid] else []
  }

  /** The session that thread `t` has flagged and whose socket it is about to cancel. */
  function ToCancel(s: State, t: nat): seq<nat> {
    if t < |s.threads| && s.threads[t].Cancelling? && s.threads[t].cat == CanCancelSocket
    then [s.threads[t].sid] else []
  }

  lemma OwnSocket(s: State, t: nat)
    requires Enabled(s, Step(t)) && Works(s.threads[t])
    ensures ToCancel(s, t) + FlagOf(s, Step(t), t) == SocketOf(s, Step(t), t) + ToCancel(StepThread(s, t), t)
  {
    if s.threads[t].Handling? {
      HandlerIsNoCancel(t, Look(s, t));
    }
  }

  lemma HandlerIsNoCancel(t: nat, v: View)
    requires v.pc.Handling?
    ensures !StepHandler(t, v).pc.Cancelling?
  {
  }

  lemma OneSocket(s: State, a: Action, t: nat)
    requires Enabled(s, a)
    ensures ToCancel(s, t) + FlagOf(s, a, t) == SocketOf(s, a, t) + ToCancel(Apply(s, a), t)
  {
    if a == Step(t) && Works(s.threads[t]) {
      OwnSocket(s, t);
    }
  }

  function Flagged(from: State, acts: seq<Action>, t: nat): seq<nat>
    decreases |acts|
  {
    if acts == [] || !Enabled(from, acts[0]) then []
    else FlagOf(from, acts[0], t) + Flagged(Apply(from, acts[0]), acts[1..], t)
  }

  function SocketsCancelled(from: State, acts: seq<Action>, t: nat): seq<nat>
    decreases |acts|
  {
    if acts == [] || !Enabled(from, acts[0]) then []
    else SocketOf(from, acts[0], t) + SocketsCancelled(Apply(from, acts[0]), acts[1..], t)
  }

  lemma Chained(open: seq<nat>, flag: seq<nat>, socket: seq<nat>, open': seq<nat>,
                flags: seq<nat>, sockets: seq<nat>, end: seq<nat>)
    requires open + flag == socket + open' && open' + flags == sockets + end
    ensures open + (flag + flags) == (socket + sockets) + end
  {
    assert open + (flag + flags) == (open + flag) + flags == socket + (open' + flags);
  }

  /** A cancelRequest call that flags a session cancels that session's socket next. */
  lemma {:induction false} EachFlagCancels(from: State, acts: seq<Action>, to: State, t: nat)
    requires Runs(from, acts, to)
    ensures ToCancel(from, t) + Flagged(from, acts, t) == SocketsCancelled(from, acts, t) + ToCancel(to, t)
    decreases |acts|
  {
    if acts != [] {
      var next := Apply(from, acts[0]);
      OneSocket(from, acts[0], t);
      EachFlagCancels(next, acts[1..], to, t);
      Chained(ToCancel(from, t), FlagOf(from, acts[0], t), SocketOf(from, acts[0], t), ToCancel(next, t),
              Flagged(next, acts[1..], t), SocketsCancelled(next, acts[1..], t), ToCancel(to, t));
    }
  }

  // ---- the chain of operations ends ---------------------------------------------------------------

  /** A cancelled session that has no more than `limit` results, counting the one in flight. */
  predicate Ending(s: State, sid: nat, limit: nat) {
    && sid < |s.sessions|
    && var x := s.sessions[sid];
    && x.wasCancelled
    && match x.token
       case Submitter(_) => |x.trail| + 1 <= limit
       case InFlight(_) => |x.trail| + 1 <= limit
       case OnThread(t) =>
         |x.trail| <= limit && t < |s.threads| && s.threads[t].Handling?
         && s.threads[t].at != UnlockGuard && s.threads[t].at != Initiate
       case Finished => |x.trail| <= limit
  }

  predicate ViewEnding(t: nat, v: View, limit: nat) {
    var x := v.x;
    && x.wasCancelled
    && match x.token
       case Submitter(_) => |x.trail| + 1 <= limit
       case InFlight(_) => |x.trail| + 1 <= limit
       case OnThread(u) =>
         |x.trail| <= limit && (u == t ==> v.pc.Handling? && v.pc.at != UnlockGuard && v.pc.at != Initiate)
       case Finished => |x.trail| <= limit
  }

  lemma HandlerEnds(t: nat, sid: nat, v: View, limit: nat)
    requires Poised(t, sid, v) && v.pc.Handling? && ViewEnding(t, v, limit)
    ensures ViewEnding(t, StepHandler(t, v), limit)
  {
  }

  lemma UserEnds(t: nat, sid: nat, v: View, limit: nat)
    requires Poised(t, sid, v) && !v.pc.Handling? && Touches(v) && ViewEnding(t, v, limit)
    ensures ViewEnding(t, StepView(t, v), limit)
  {
  }

  lemma OwnEnds(s: State, t: nat, sid: nat, w: View, limit: nat)
    requires t < |s.threads| && sid < |s.sessions| && Ending(s, sid, limit) && ViewEnding(t, w, limit)
    requires w.x.token.OnThread? && w.x.token.t != t ==> w.x.token == s.sessions[sid].token
    ensures Ending(Put(s, t, sid, w), sid, limit)
  {
  }

  lemma StepEnds(s: State, t: nat, sid: nat, limit: nat)
    requires Inv(s) && t < |s.threads| && Works(s.threads[t]) && CanStep(s, t) && Ending(s, sid, limit)
    ensures Ending(StepThread(s, t), sid, limit)
  {
    var f, v := Focus(s, t), Look(s, t);
    assert SessionOk(s, sid) && ThreadOk(s, t);
    if f == sid {
      FocusedIsPoised(s, t);
      if v.pc.Handling? {
        HandlerEnds(t, sid, v, limit);
      } else {
        UserEnds(t, sid, v, limit);
      }
      ActionGuarantee(s, Step(t), sid);
      OwnEnds(s, t, sid, StepView(t, v), limit);
    }
  }

  lemma ActionEnds(s: State, a: Action, sid: nat, limit: nat)
    requires Inv(s) && Enabled(s, a) && Ending(s, sid, limit)
    ensures Ending(Apply(s, a), sid, limit)
  {
    assert SessionOk(s, sid);
    match a
    case Step(t) =>
      if Works(s.threads[t]) {
        StepEnds(s, t, sid, limit);
      }
    case Dispatch(_, k) => assert OpTokenOk(s, k);
    case _ =>
  }

  lemma {:induction false} EndingRuns(from: State, acts: seq<Action>, to: State, sid: nat, limit: nat)
    requires Inv(from) && Runs(from, acts, to) && Ending(from, sid, limit)
    ensures Ending(to, sid, limit)
    decreases |acts|
  {
    if acts != [] {
      ActionEnds(from, acts[0], sid, limit);
      InvStep(from, acts[0]);
      EndingRuns(Apply(from, acts[0]), acts[1..], to, sid, limit);
    }
  }

  /**
   Main result: once a session is flagged while an operation of its is in flight, that
   operation is its last, whatever its result: no other is ever initiated.
   */
  lemma CancelEndsTheChain(s: State, acts: seq<Action>, z: State, sid: nat)
    requires Reachable(s) && Runs(s, acts, z)
    requires sid < |s.sessions| && s.sessions[sid].wasCancelled && s.sessions[sid].token.InFlight?
    ensures sid < |z.sessions| && |z.sessions[sid].trail| <= |s.sessions[sid].trail| + 1
    ensures z.sessions[sid].token.InFlight? ==> |z.sessions[sid].trail| == |s.sessions[sid].trail|
  {
    ReachableInv(s);
    EndingRuns(s, acts, z, sid, |s.sessions[sid].trail| + 1);
    TrailGrows(s, acts, z, sid);
  }

  lemma {:induction false} TrailGrows(from: State, acts: seq<Action>, to: State, sid: nat)
    requires Inv(from) && Runs(from, acts, to) && sid < |from.sessions|
    ensures sid < |to.sessions| && |from.sessions[sid].trail| <= |to.sessions[sid].trail|
    decreases |acts|
  {
    if acts != [] {
      ActionGrows(from, acts[0], sid);
      InvStep(from, acts[0]);
      TrailGrows(Apply(from, acts[0]), acts[1..], to, sid);
    }
  }

  lemma ActionGrows(s: State, a: Action, sid: nat)
    requires Inv(s) && Enabled(s, a) && sid < |s.sessions|
    ensures sid < |Apply(s, a).sessions| && |s.sessions[sid].trail| <= |Apply(s, a).sessions[sid].trail|
  {
    if a.Step? && Works(s.threads[a.t]) {
      StepKeepsTrail(a.t, Look(s, a.t));
    }
  }

  lemma StepKeepsTrail(t: nat, v: View)
    requires Works(v.pc)
    ensures StepView(t, v).x.trail == v.x.trail
  {
  }

  // ---- who found the session ------------------------------------------------------------------------

  /** The action is a cancelRequest's lookup that finds session `sid`. */
  function LookupOf(s: State, a: Action, sid: nat): nat {
    if a.Step? && a.t < |s.threads| && s.threads[a.t].Cancelling? && s.threads[a.t].cat == CanFind
       && Maps(s.active, s.threads[a.t].id, sid) then 1 else 0
  }

  function Lookups(from: State, acts: seq<Action>, sid: nat): nat
    decreases |acts|
  {
    if acts == [] || !Enabled(from, acts[0]) then 0
    else LookupOf(from, acts[0], sid) + Lookups(Apply(from, acts[0]), acts[1..], sid)
  }

  function FindsOf(s: State, sid: nat): nat {
    if sid < |s.sessions| then s.sessions[sid].finds else 0
  }

  lemma StepLooksUp(s: State, t: nat, sid: nat)
    requires t < |s.threads| && Works(s.threads[t]) && CanStep(s, t)
    requires s.threads[t].Cancelling? && s.threads[t].id in s.active ==> s.active[s.threads[t].id] < |s.sessions|
    ensures FindsOf(StepThread(s, t), sid) == FindsOf(s, sid) + LookupOf(s, Step(t), sid)
  {
    if s.threads[t].Handling? {
      HandlerKeepsFinds(t, Look(s, t));
    }
  }

  lemma HandlerKeepsFinds(t: nat, v: View)
    requires v.pc.Handling?
    ensures StepHandler(t, v).x.finds == v.x.finds
  {
  }

  lemma ActionLooksUp(s: State, a: Action, sid: nat)
    requires Inv(s) && Enabled(s, a)
    ensures FindsOf(Apply(s, a), sid) == FindsOf(s, sid) + LookupOf(s, a, sid)
  {
    if a.Step? && Works(s.threads[a.t]) {
      var pc := s.threads[a.t];
      assert pc.Cancelling? && pc.id in s.active ==> EntryOk(s, pc.id);
      StepLooksUp(s, a.t, sid);
    }
  }

  /** The times a session was found are the lookups of cancelRequest calls that found it. */
  lemma {:induction false} FindsAreLookups(from: State, acts: seq<Action>, to: State, sid: nat)
    requires Inv(from) && Runs(from, acts, to)
    ensures FindsOf(to, sid) == FindsOf(from, sid) + Lookups(from, acts, sid)
    decreases |acts|
  {
    if acts != [] {
      ActionLooksUp(from, acts[0], sid);
      InvStep(from, acts[0]);
      FindsAreLookups(Apply(from, acts[0]), acts[1..], to, sid);
    }
  }
}
