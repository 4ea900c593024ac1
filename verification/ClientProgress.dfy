/** Closing, draining, deadlock and termination of the asynchronous client. */
module ClientProgress {
  import opened Text
  import opened ClientModel
  import opened ClientInvariant
  import opened ClientRuns
  import Safety = ClientSafety

  // ---- closing -------------------------------------------------------------------------

  predicate HasJoined(pc: Pc, i: nat) {
    pc.Closed? || (pc.Joining? && i < pc.next)
  }

  ghost predicate ThreadWinds(s: State, t: nat)
    requires t < |s.threads| && s.ioThreads <= |s.threads|
  {
    var pc := s.threads[t];
    && (pc.Submitting? ==> s.work)
    && (pc.Exited? ==> Drained(s))
    && (pc.Joining? || pc.Closed? ==> !s.work)
    && (pc.Joining? ==> pc.next <= s.ioThreads)
    && (forall i :: 0 <= i < s.ioThreads && HasJoined(pc, i) ==> s.threads[i].Exited?)
  }

  ghost predicate Winding(s: State) {
    s.ioThreads <= |s.threads| && forall t :: 0 <= t < |s.threads| ==> ThreadWinds(s, t)
  }

  /** Nothing starts again once everything has drained. */
  lemma DrainedStays(s: State, a: Action)
    requires Inv(s) && Winding(s) && Enabled(s, a) && Drained(s)
    ensures Drained(Apply(s, a))
  {
    if a.Step? && Works(s.threads[a.t]) {
      assert ThreadWinds(s, a.t);
      StepIsGoodMove(s, a.t);
    }
  }

  lemma PcOfView(t: nat, v: View)
    requires Works(v.pc)
    ensures var q := StepView(t, v).pc;
      && (q.Submitting? ==> v.pc.Submitting?) && (q.Handling? ==> v.pc.Handling?)
      && !q.Exited? && !q.Joining? && !q.Closed?
  {
  }

  /** How one thread's program counter may move, as far as closing is concerned. */
  lemma PcWinds(s: State, a: Action, u: nat)
    requires Enabled(s, a) && u < |s.threads|
    ensures |Apply(s, a).threads| == |s.threads| && Apply(s, a).ioThreads == s.ioThreads
    ensures var p, q := s.threads[u], Apply(s, a).threads[u];
      && (q.Submitting? ==> p.Submitting? || a.CallSubmit?)
      && (q.Exited? ==> p.Exited? || Drained(s)) && (p.Exited? ==> q.Exited?)
      && (q.Joining? || q.Closed? ==> p.Joining? || p.Closed? || a.CallClose?)
      && (q.Joining? ==> q.next <= s.ioThreads || (p.Joining? && p.next > s.ioThreads))
      && (forall i :: 0 <= i < s.ioThreads <= |s.threads| && HasJoined(q, i) ==> 
            HasJoined(p, i) || s.threads[i].Exited? || (p.Joining? && p.next > s.ioThreads))
  {
    if a.Step? && Works(s.threads[a.t]) {
      PcOfView(a.t, Look(s, a.t));
    }
  }

  lemma WorkEnds(s: State, a: Action)
    requires Enabled(s, a)
    ensures Apply(s, a).work == (s.work && !a.CallClose?)
  {
  }

  lemma WindingStays(s: State, a: Action)
    requires Inv(s) && Winding(s) && Enabled(s, a)
    ensures Winding(Apply(s, a))
  {
    var z := Apply(s, a);
    WorkEnds(s, a);
    if Drained(s) {
      DrainedStays(s, a);
    }
    forall u | 0 <= u < |s.threads|
      ensures |z.threads| == |s.threads| && z.ioThreads == s.ioThreads && ThreadWinds(z, u)
    {
      assert ThreadWinds(s, u);
      PcWinds(s, a, u);
      forall i | 0 <= i < s.ioThreads && HasJoined(z.threads[u], i) ensures z.threads[i].Exited? {
        PcWinds(s, a, i);
      }
    }
  }

  lemma {:induction false} WindingRuns(from: State, acts: seq<Action>, to: State)
    requires Inv(from) && Winding(from) && Runs(from, acts, to)
    ensures Inv(to) && Winding(to) && to.ioThreads == from.ioThreads
    decreases |acts|
  {
    if acts != [] {
      InvStep(from, acts[0]);
      WindingStays(from, acts[0]);
      WindingRuns(Apply(from, acts[0]), acts[1..], to);
    }
  }

  lemma ReachableWinding(s: State)
    requires Reachable(s)
    ensures Inv(s) && Winding(s)
  {
    var n: nat, u: nat, acts: seq<Action> :| Runs(Init(n, u), acts, s);
    InvInit(n, u);
    WindingRuns(Init(n, u), acts, s);
  }

  lemma EntriesAreUnfinished(s: State)
    requires Inv(s)
    ensures forall id :: id in s.active ==> s.active[id] < |s.sessions| && !s.sessions[s.active[id]].erased
  {
    forall id | id in s.active ensures s.active[id] < |s.sessions| && !s.sessions[s.active[id]].erased {
      assert EntryOk(s, id);
    }
  }

  lemma DrainedMeansDone(s: State)
    requires Inv(s) && Winding(s) && Drained(s)
    ensures forall sid :: 0 <= sid < |s.sessions| ==> |s.sessions[sid].calls| == 1 && s.sessions[sid].erased
    ensures s.active == map[]
  {
    EntriesAreUnfinished(s);
    forall t | 0 <= t < |s.threads| ensures !s.threads[t].Submitting? {
      assert ThreadWinds(s, t);
    }
    forall sid | 0 <= sid < |s.sessions| ensures |s.sessions[sid].calls| == 1 && s.sessions[sid].erased {
      assert SessionOk(s, sid);
    }
  }

  /** When `close` has returned, every callback has run exactly once, whatever ids were used. */
  lemma CloseDrains(s: State, t: nat)
    requires Reachable(s) && s.ioThreads > 0 && t < |s.threads| && s.threads[t] == Closed
    ensures forall sid :: 0 <= sid < |s.sessions| ==> |s.sessions[sid].calls| == 1
    ensures s.active == map[] && s.ops == map[]
  {
    ReachableWinding(s);
    assert ThreadWinds(s, t) && HasJoined(s.threads[t], 0);
    assert ThreadWinds(s, 0);
    DrainedMeansDone(s);
  }

  /** When `close` has returned, no shared_ptr to any session is left. */
  lemma CloseFreesSessions(s: State, t: nat, sid: nat)
    requires Reachable(s) && s.ioThreads > 0 && t < |s.threads| && s.threads[t] == Closed
    ensures !Safety.Owned(s, sid)
  {
    CloseDrains(s, t);
    ReachableWinding(s);
    assert ThreadWinds(s, t) && HasJoined(s.threads[t], 0);
    assert ThreadWinds(s, 0);
    forall u | 0 <= u < |s.threads| ensures !Safety.Owns(s.threads[u], sid) {
      assert ThreadWinds(s, u);
    }
  }

  // ---- deadlock ------------------------------------------------------------------------------

  /** The user starts something new; everything else happens by itself. */
  predicate IsCall(a: Action) {
    a.CallSubmit? || a.CallCancel? || a.CallClose?
  }

  ghost predicate Stuck(s: State) {
    forall a :: Enabled(s, a) ==> IsCall(a)
  }

  /** Nothing is left to do: no operation, no busy thread, and a closed pool has exited. */
  ghost predicate AtRest(s: State) {
    && s.ops == map[]
    && forall t :: 0 <= t < |s.threads| ==>
         var pc := s.threads[t];
         (pc.Polling? && s.work) || pc.Exited? || pc.Idle? || pc.Closed?
  }

  /**
   `u` is in cancelRequest with the map guard, waiting for a session's cancel guard;
   `t` runs that session's handler with the cancel guard, waiting for the map guard.
   */
  predicate Deadlocked(s: State, u: nat, t: nat) {
    && u < |s.threads| && t < |s.threads|
    && s.threads[u].Cancelling? && s.threads[u].cat == CanLockGuard
    && s.threads[t].Handling? && s.threads[t].at == LockMap && s.threads[t].guarded
    && s.threads[t].sid == s.threads[u].sid
  }

  /** In a stuck state a waiting thread is waiting for the other half of a deadlocked pair. */
  lemma BlockedMeansDeadlock(s: State, x: nat)
    requires Inv(s) && Stuck(s) && x < |s.threads| && Works(s.threads[x])
    ensures exists u, t :: Deadlocked(s, u, t)
  {
    assert !Enabled(s, Step(x));
    assert ThreadOk(s, x);
    if WantsMap(s.threads[x]) {
      MapHolderIsDeadlocked(s);
    } else {
      assert WantsGuard(s.threads[x]);
      var sid := Focus(s, x);
      assert SessionOk(s, sid);
      var t := s.sessions[sid].cancelGuard.value;
      assert ThreadOk(s, t) && !Enabled(s, Step(t));
      MapHolderIsDeadlocked(s);
    }
  }

  lemma MapHolderIsDeadlocked(s: State)
    requires Inv(s) && Stuck(s) && s.mapGuard.Some?
    ensures exists u, t :: Deadlocked(s, u, t)
  {
    var u := s.mapGuard.value;
    assert ThreadOk(s, u) && !Enabled(s, Step(u));
    var sid := s.threads[u].sid;
    assert SessionOk(s, sid);
    var t := s.sessions[sid].cancelGuard.value;
    assert ThreadOk(s, t) && !Enabled(s, Step(t));
    assert Deadlocked(s, u, t);
  }

  /** With no thread busy, whatever is unfinished can go on. */
  lemma SomethingToDo(s: State) returns (a: Action)
    requires Inv(s) && Winding(s) && s.ioThreads > 0 && !AtRest(s)
    requires forall t :: 0 <= t < |s.threads| ==> !Works(s.threads[t])
    ensures Enabled(s, a) && !IsCall(a)
  {
    assert ThreadOk(s, 0) && ThreadWinds(s, 0);
    if s.ops != map[] {
      var k :| k in s.ops;
      assert OpTokenOk(s, k);
      a := if s.ops[k].state.Pending? then Complete(k, Transport(1), "") else Dispatch(0, k);
    } else {
      var t :| 0 <= t < |s.threads| && !((s.threads[t].Polling? && s.work) || s.threads[t].Exited?
                                         || s.threads[t].Idle? || s.threads[t].Closed?);
      assert ThreadOk(s, t) && ThreadWinds(s, t);
      if s.threads[t].Joining? && s.threads[t].next < s.ioThreads && !s.threads[s.threads[t].next].Exited? {
        assert ThreadOk(s, s.threads[t].next);
        a := ExitRun(s.threads[t].next);
      } else {
        a := if s.threads[t].Joining? then Step(t) else ExitRun(t);
      }
    }
  }

  lemma StuckWithoutDeadlock(s: State)
    requires Inv(s) && Winding(s) && s.ioThreads > 0 && Stuck(s)
    requires forall u, t :: !Deadlocked(s, u, t)
    ensures AtRest(s)
  {
    forall t | 0 <= t < |s.threads| ensures !Works(s.threads[t]) {
      if Works(s.threads[t]) {
        BlockedMeansDeadlock(s, t);
      }
    }
    if !AtRest(s) {
      var a := SomethingToDo(s);
    }
  }

  /** A deadlocked pair never moves again, and `close` cannot return. */
  lemma DeadlockIsForever(s: State, u: nat, t: nat, a: Action)
    requires Inv(s) && Deadlocked(s, u, t) && Enabled(s, a)
    ensures Deadlocked(Apply(s, a), u, t)
  {
    assert ThreadOk(s, u) && ThreadOk(s, t);
  }

  /**
   Stuck states, exactly: either everything is done, or a cancelRequest and a handler
   of one session wait for each other's lock.
   */
  lemma StuckExactly(s: State)
    requires Reachable(s) && s.ioThreads > 0 && Stuck(s)
    ensures !AtRest(s) <==> exists u, t :: Deadlocked(s, u, t)
  {
    ReachableWinding(s);
    if forall u, t :: !Deadlocked(s, u, t) {
      StuckWithoutDeadlock(s);
    }
  }

  /** The waiting cancelRequest is at least the second one that found its session. */
  lemma DeadlockTakesTwo(s: State, u: nat, t: nat)
    requires Inv(s) && Deadlocked(s, u, t)
    ensures s.threads[u].sid < |s.sessions| && s.sessions[s.threads[u].sid].finds >= 2
  {
    assert ThreadOk(s, u) && ThreadOk(s, t);
  }

  // ---- without I/O threads nothing drains ----------------------------------------------------

  predicate CloseReturned(s: State, t: nat) {
    t < |s.threads| && s.threads[t] == Closed
  }

  predicate AllCalled(s: State) {
    forall sid :: 0 <= sid < |s.sessions| ==> |s.sessions[sid].calls| == 1
  }

  /** A client without I/O threads, its one user thread and one session. */
  function Threadless(user: Pc, x: Session, mapGuard: Option<nat>, active: map<nat, nat>, ops: map<nat, Op>,
                      work: bool): State
  {
    State(0, [user], [x], active, mapGuard, ops, if 0 in ops then 1 else 0, work)
  }

  lemma SubmittedWithoutThreads(x: Session)
    requires x == NewSession(0, 7, Request(CALC_KEYWORD, 10))
    ensures ReachableBy(Threadless(Submitting(0, SubUnlock), x, Some(0), map[7 := 0], map[], true), 0)
  {
    var s := Init(0, 1);
    Initially(0, 1);
    assert s.threads == [Idle];
    Go(s, 0, CallSubmit(0, 7, 10), Step(0), Step(0), Threadless(Submitting(0, SubLock), x, None, map[], map[], true),
       Threadless(Submitting(0, SubInsert), x, Some(0), map[], map[], true),
       Threadless(Submitting(0, SubUnlock), x, Some(0), map[7 := 0], map[], true));
  }

  lemma ConnectingWithoutThreads(x: Session, y: Session)
    requires x == NewSession(0, 7, Request(CALC_KEYWORD, 10)) && y == x.(token := InFlight(0))
    ensures ReachableBy(Threadless(Idle, y, None, map[7 := 0], CONNECTING, true), 0)
  {
    SubmittedWithoutThreads(x);
    Go(Threadless(Submitting(0, SubUnlock), x, Some(0), map[7 := 0], map[], true), 0, Step(0), Step(0), Step(0),
       Threadless(Submitting(0, SubConnect), x, None, map[7 := 0], map[], true),
       Threadless(Submitting(0, SubReturn), y, None, map[7 := 0], CONNECTING, true),
       Threadless(Idle, y, None, map[7 := 0], CONNECTING, true));
  }

  lemma ClosedWithoutThreads(y: Session)
    requires ReachableBy(Threadless(Idle, y, None, map[7 := 0], CONNECTING, true), 0)
    ensures ReachableBy(Threadless(Closed, y, None, map[7 := 0], CONNECTING, false), 0)
  {
    var s := Threadless(Idle, y, None, map[7 := 0], CONNECTING, true);
    ReachableOn(s, 0, CallClose(0));
    assert Apply(s, CallClose(0)) == Threadless(Joining(0), y, None, map[7 := 0], CONNECTING, false);
    ReachableOn(Apply(s, CallClose(0)), 0, Step(0));
    assert Apply(Apply(s, CallClose(0)), Step(0)) == Threadless(Closed, y, None, map[7 := 0], CONNECTING, false);
  }

  /** `close` drains the client exactly when it was given I/O threads. */
  lemma DrainsExactly(ioThreads: nat)
    ensures (forall s, t :: Reachable(s) && s.ioThreads == ioThreads && CloseReturned(s, t) ==> AllCalled(s))
            <==> ioThreads > 0
  {
    if ioThreads > 0 {
      forall s, t | Reachable(s) && s.ioThreads == ioThreads && CloseReturned(s, t) ensures AllCalled(s) {
        CloseDrains(s, t);
      }
    } else {
      var x := NewSession(0, 7, Request(CALC_KEYWORD, 10));
      var y := x.(token := InFlight(0));
      ConnectingWithoutThreads(x, y);
      ClosedWithoutThreads(y);
      var s := Threadless(Closed, y, None, map[7 := 0], CONNECTING, false);
      ReachableByRuns(s, 0);
      assert CloseReturned(s, 0) && s.sessions[0] == y && !AllCalled(s);
    }
  }
}
