/**
 When the client deadlocks, in terms of what its user does: two `cancelRequest` calls for
 one id can do it, and with at most one call per id it cannot happen.
 */
module ClientDeadlock {
  import opened Text
  import opened Sums
  import opened ClientModel
  import opened ClientInvariant
  import opened ClientRuns
  import opened ClientProgress

  // ---- finds are cancelRequest calls ---------------------------------------------------------

  /** The thread has called `cancelRequest(id)` and not looked the id up yet. */
  function Searches(pc: Pc, id: nat): nat {
    if pc.Cancelling? && pc.id == id && (pc.cat == CanLock || pc.cat == CanFind) then 1 else 0
  }

  function Searching(threads: seq<Pc>, id: nat): nat {
    Sum(seq(|threads|, t requires 0 <= t < |threads| => Searches(threads[t], id)))
  }

  lemma SearchingUpdate(threads: seq<Pc>, t: nat, pc: Pc, id: nat)
    requires t < |threads|
    ensures Searching(threads[t := pc], id) + Searches(threads[t], id) == Searching(threads, id) + Searches(pc, id)
  {
    var xs := seq(|threads|, u requires 0 <= u < |threads| => Searches(threads[u], id));
    SumUpdate(xs, t, Searches(pc, id));
    var ys := seq(|threads|, u requires 0 <= u < |threads| => Searches(threads[t := pc][u], id));
    assert ys == xs[t := Searches(pc, id)];
  }

  /** How often session `sid` has been found under `id`. */
  function Found(s: State, sid: nat, id: nat): nat {
    if sid < |s.sessions| && s.sessions[sid].id == id then s.sessions[sid].finds else 0
  }

  /** The only thread an action moves. */
  lemma OneThreadMoves(s: State, a: Action)
    requires Enabled(s, a) && !a.Complete?
    ensures a.t < |s.threads| && a.t < |Apply(s, a).threads|
    ensures Apply(s, a).threads == s.threads[a.t := Apply(s, a).threads[a.t]]
  {
  }

  lemma HandlerFindsNothing(t: nat, v: View, id: nat)
    requires v.pc.Handling?
    ensures var w := StepHandler(t, v); w.x.id == v.x.id && w.x.finds == v.x.finds && Searches(w.pc, id) == 0
  {
    HandlerSearchesNothing(t, v, id);
  }

  lemma HandlerSearchesNothing(t: nat, v: View, id: nat)
    requires v.pc.Handling?
    ensures Searches(StepHandler(t, v).pc, id) == 0
  {
  }

  /** Each step that finds a session ends a search. */
  lemma StepFinds(s: State, t: nat, sid: nat, id: nat)
    requires t < |s.threads| && Works(s.threads[t]) && CanStep(s, t)
    requires forall i :: i in s.active ==> EntryOk(s, i)
    ensures var z := StepThread(s, t);
      && t < |z.threads|
      && Found(z, sid, id) + Searches(z.threads[t], id) <= Found(s, sid, id) + Searches(s.threads[t], id)
  {
    if s.threads[t].Handling? {
      HandlerFindsNothing(t, Look(s, t), id);
    } else if s.threads[t].Cancelling? && s.threads[t].id in s.active {
      assert EntryOk(s, s.threads[t].id);
    }
  }

  lemma ActionFinds(s: State, a: Action, sid: nat, id: nat)
    requires Inv(s) && Enabled(s, a) && !a.Complete?
    ensures var z := Apply(s, a);
      && a.t < |s.threads| && a.t < |z.threads|
      && Found(z, sid, id) + Searches(z.threads[a.t], id)
           <= Found(s, sid, id) + Searches(s.threads[a.t], id) + CancelOf(a, id)
  {
    if a.Step? && Works(s.threads[a.t]) {
      StepFinds(s, a.t, sid, id);
    }
  }

  lemma FindsAreCalls(s: State, a: Action, sid: nat, id: nat)
    requires Inv(s) && Enabled(s, a)
    ensures var z := Apply(s, a);
      Found(z, sid, id) + Searching(z.threads, id)
        <= Found(s, sid, id) + Searching(s.threads, id) + CancelOf(a, id)
  {
    if !a.Complete? {
      var z := Apply(s, a);
      OneThreadMoves(s, a);
      ActionFinds(s, a, sid, id);
      SearchingUpdate(s.threads, a.t, z.threads[a.t], id);
    }
  }

  /** No session is found under its id more often than the user called `cancelRequest(id)`. */
  lemma {:induction false} RunFinds(from: State, acts: seq<Action>, to: State, sid: nat, id: nat)
    requires Inv(from) && Runs(from, acts, to)
    ensures Found(to, sid, id) + Searching(to.threads, id)
              <= Found(from, sid, id) + Searching(from.threads, id) + CancelCalls(acts, id)
    decreases |acts|
  {
    if acts != [] {
      FindsAreCalls(from, acts[0], sid, id);
      InvStep(from, acts[0]);
      RunFinds(Apply(from, acts[0]), acts[1..], to, sid, id);
    }
  }

  lemma {:induction false} NobodySearches(threads: seq<Pc>, id: nat)
    requires forall t :: 0 <= t < |threads| ==> !threads[t].Cancelling?
    ensures Searching(threads, id) == 0
  {
    if threads != [] {
      NobodySearches(threads[1..], id);
      var xs := seq(|threads|, t requires 0 <= t < |threads| => Searches(threads[t], id));
      assert xs[1..] == seq(|threads| - 1, t requires 0 <= t < |threads| - 1 => Searches(threads[1..][t], id));
    }
  }

  lemma FoundByCalls(n: nat, users: nat, acts: seq<Action>, s: State, sid: nat)
    requires Runs(Init(n, users), acts, s) && sid < |s.sessions|
    ensures s.sessions[sid].finds <= CancelCalls(acts, s.sessions[sid].id)
  {
    var id := s.sessions[sid].id;
    InvInit(n, users);
    RunFinds(Init(n, users), acts, s, sid, id);
    NobodySearches(Init(n, users).threads, id);
  }

  /** With at most one cancelRequest call per id there is no deadlock, whatever ids are reused. */
  lemma NoDeadlock(n: nat, users: nat, acts: seq<Action>, s: State, u: nat, t: nat)
    requires Runs(Init(n, users), acts, s) && CancelsAtMost(acts, 1)
    ensures !Deadlocked(s, u, t)
  {
    InvInit(n, users);
    InvRuns(Init(n, users), acts, s);
    forall sid | 0 <= sid < |s.sessions| ensures s.sessions[sid].finds <= 1 {
      FoundByCalls(n, users, acts, s, sid);
      assert CancelCalls(acts, s.sessions[sid].id) <= 1;
    }
    if Deadlocked(s, u, t) {
      DeadlockTakesTwo(s, u, t);
    }
  }

  // ---- the deadlock happens: two cancelRequest calls, one I/O thread -----------------------

  /** One I/O thread, one user thread and one session with id 7. */
  function Small(io: Pc, user: Pc, x: Session, mapGuard: Option<nat>, ops: map<nat, Op>): State {
    State(1, [io, user], [x], map[7 := 0], mapGuard, ops, 1, true)
  }

  const CONNECTED: map<nat, Op> := map[0 := Op(0, Connect, OpState.Ready(Success, ""))]

  function Victim(): Session { NewSession(1, 7, Request(CALC_KEYWORD, 10)) }

  lemma VictimInserted(x: Session)
    requires x == Victim()
    ensures ReachableBy(State(1, [Polling, Submitting(0, SubUnlock)], [x], map[7 := 0], Some(1), map[], 0, true), 0)
  {
    var s := Init(1, 1);
    Initially(1, 1);
    assert s.threads == [Polling, Idle];
    var s1 := State(1, [Polling, Submitting(0, SubLock)], [x], map[], None, map[], 0, true);
    var s2 := s1.(threads := [Polling, Submitting(0, SubInsert)], mapGuard := Some(1));
    Go(s, 0, CallSubmit(1, 7, 10), Step(1), Step(1), s1, s2,
       State(1, [Polling, Submitting(0, SubUnlock)], [x], map[7 := 0], Some(1), map[], 0, true));
  }

  lemma VictimConnects(x: Session)
    requires x == Victim().(token := InFlight(0))
    ensures ReachableBy(Small(Polling, Submitting(0, SubReturn), x, None, CONNECTED), 0)
  {
    VictimInserted(Victim());
    var s := State(1, [Polling, Submitting(0, SubUnlock)], [Victim()], map[7 := 0], Some(1), map[], 0, true);
    var s1 := s.(threads := [Polling, Submitting(0, SubConnect)], mapGuard := None);
    ConnectStep(Victim(), x);
    ConnectedStep(x);
    Go(s, 0, Step(1), Step(1), Complete(0, Success, ""), s1,
       Small(Polling, Submitting(0, SubReturn), x, None, CONNECTING),
       Small(Polling, Submitting(0, SubReturn), x, None, CONNECTED));
  }

  lemma ConnectStep(v: Session, x: Session)
    requires x == v.(token := InFlight(0))
    ensures Next(State(1, [Polling, Submitting(0, SubConnect)], [v], map[7 := 0], None, map[], 0, true), Step(1),
                 Small(Polling, Submitting(0, SubReturn), x, None, CONNECTING))
  {
  }

  lemma ConnectedStep(x: Session)
    ensures Next(Small(Polling, Submitting(0, SubReturn), x, None, CONNECTING), Complete(0, Success, ""),
                 Small(Polling, Submitting(0, SubReturn), x, None, CONNECTED))
  {
  }

  lemma CancelStarts(x: Session)
    requires ReachableBy(Small(Polling, Submitting(0, SubReturn), x, None, CONNECTED), 0)
    ensures ReachableBy(Small(Polling, Cancelling(7, 0, CanFind), x, Some(1), CONNECTED), 1)
  {
    Go(Small(Polling, Submitting(0, SubReturn), x, None, CONNECTED), 0,
       Step(1), CallCancel(1, 7), Step(1),
       Small(Polling, Idle, x, None, CONNECTED), Small(Polling, Cancelling(7, 0, CanLock), x, None, CONNECTED),
       Small(Polling, Cancelling(7, 0, CanFind), x, Some(1), CONNECTED));
  }

  lemma CancelFinds(k: nat, io: Pc, x: Session, y: Session, ops: map<nat, Op>)
    requires ReachableBy(Small(io, Cancelling(7, 0, CanFind), x, Some(1), ops), k)
    requires y == x.(finds := x.finds + 1)
    ensures ReachableBy(Small(io, Cancelling(7, 0, CanLockGuard), y, Some(1), ops), k)
  {
    FindStep(io, x, y, ops);
    ReachableOn(Small(io, Cancelling(7, 0, CanFind), x, Some(1), ops), k, Step(1));
  }

  lemma FindStep(io: Pc, x: Session, y: Session, ops: map<nat, Op>)
    requires y == x.(finds := x.finds + 1)
    ensures Next(Small(io, Cancelling(7, 0, CanFind), x, Some(1), ops), Step(1),
                 Small(io, Cancelling(7, 0, CanLockGuard), y, Some(1), ops))
  {
  }

  lemma CancelFlags(x: Session, y: Session)
    requires ReachableBy(Small(Polling, Cancelling(7, 0, CanLockGuard), x, Some(1), CONNECTED), 1)
    requires x.cancelGuard == None
    requires y == x.(cancelGuard := Some(1), wasCancelled := true) && x.token == InFlight(0)
    ensures ReachableBy(Small(Polling, Cancelling(7, 0, CanUnlockGuard), y, Some(1), CONNECTED), 1)
  {
    SocketCancelled(y);
    Go(Small(Polling, Cancelling(7, 0, CanLockGuard), x, Some(1), CONNECTED), 1, Step(1), Step(1), Step(1),
       Small(Polling, Cancelling(7, 0, CanSetFlag), x.(cancelGuard := Some(1)), Some(1), CONNECTED),
       Small(Polling, Cancelling(7, 0, CanCancelSocket), y, Some(1), CONNECTED),
       Small(Polling, Cancelling(7, 0, CanUnlockGuard), y, Some(1), CONNECTED));
  }

  /** The connect has already completed, so cancelling the socket changes nothing. */
  lemma SocketCancelled(y: Session)
    requires y.token == InFlight(0)
    ensures Next(Small(Polling, Cancelling(7, 0, CanCancelSocket), y, Some(1), CONNECTED), Step(1),
                 Small(Polling, Cancelling(7, 0, CanUnlockGuard), y, Some(1), CONNECTED))
  {
  }

  lemma CancelReturns(x: Session, y: Session, w: Session)
    requires ReachableBy(Small(Polling, Cancelling(7, 0, CanUnlockGuard), x, Some(1), CONNECTED), 1)
    requires y == x.(cancelGuard := None) && w == y.(token := OnThread(0), trail := x.trail + [Success])
    ensures ReachableBy(Small(Handling(0, Connect, Success, "", false, Enter), Idle, w, None, map[]), 1)
  {
    HandlerTaken(y, w);
    Go(Small(Polling, Cancelling(7, 0, CanUnlockGuard), x, Some(1), CONNECTED), 1, Step(1), Step(1), Dispatch(0, 0),
       Small(Polling, Cancelling(7, 0, CanUnlock), y, Some(1), CONNECTED),
       Small(Polling, Idle, y, None, CONNECTED),
       Small(Handling(0, Connect, Success, "", false, Enter), Idle, w, None, map[]));
  }

  lemma HandlerTaken(y: Session, w: Session)
    requires w == y.(token := OnThread(0), trail := y.trail + [Success])
    ensures Next(Small(Polling, Idle, y, None, CONNECTED), Dispatch(0, 0),
                 Small(Handling(0, Connect, Success, "", false, Enter), Idle, w, None, map[]))
  {
    assert CONNECTED - {0} == map[];
  }

  lemma HandlerSeesFlag(x: Session, y: Session)
    requires x.wasCancelled && x.cancelGuard == None && y == x.(cancelGuard := Some(0))
    requires ReachableBy(Small(Handling(0, Connect, Success, "", false, Enter), Idle, x, None, map[]), 1)
    ensures ReachableBy(Small(Handling(0, Connect, Success, "", true, Shutdown), Idle, y, None, map[]), 1)
  {
    var pc := Handling(0, Connect, Success, "", false, Enter);
    Go(Small(pc, Idle, x, None, map[]), 1, Step(0), Step(0), Step(0),
       Small(pc.(at := LockGuard), Idle, x, None, map[]), Small(pc.(at := TestFlag), Idle, y, None, map[]),
       Small(Handling(0, Connect, Success, "", true, Shutdown), Idle, y, None, map[]));
  }

  lemma SecondCancelStarts(x: Session)
    requires ReachableBy(Small(Handling(0, Connect, Success, "", true, Shutdown), Idle, x, None, map[]), 1)
    ensures ReachableBy(Small(Handling(0, Connect, Success, "", true, LockMap), Cancelling(7, 0, CanFind), x,
                              Some(1), map[]), 2)
  {
    var pc := Handling(0, Connect, Success, "", true, LockMap);
    Go(Small(pc.(at := Shutdown), Idle, x, None, map[]), 1, Step(0), CallCancel(1, 7), Step(1),
       Small(pc, Idle, x, None, map[]), Small(pc, Cancelling(7, 0, CanLock), x, None, map[]),
       Small(pc, Cancelling(7, 0, CanFind), x, Some(1), map[]));
  }

  /** Two cancelRequest(7) calls and one handler lock each other out for good. */
  lemma DeadlockHappens() returns (s: State)
    ensures ReachableBy(s, 2) && Deadlocked(s, 1, 0)
  {
    var x := Victim().(token := InFlight(0));
    VictimConnects(x);
    CancelStarts(x);
    CancelFinds(1, Polling, x, x.(finds := 1), CONNECTED);
    var y := x.(finds := 1, cancelGuard := Some(1), wasCancelled := true);
    CancelFlags(x.(finds := 1), y);
    x := y.(cancelGuard := None, token := OnThread(0), trail := y.trail + [Success]);
    CancelReturns(y, y.(cancelGuard := None), x);
    HandlerSeesFlag(x, x.(cancelGuard := Some(0)));
    x := x.(cancelGuard := Some(0));
    SecondCancelStarts(x);
    var io := Handling(0, Connect, Success, "", true, LockMap);
    CancelFinds(2, io, x, x.(finds := 2), map[]);
    s := Small(io, Cancelling(7, 0, CanLockGuard), x.(finds := 2), Some(1), map[]);
  }

  /**
   Main result: the client is free of deadlock, over all runs in which each id is passed
   to `cancelRequest` at most k times, exactly for k at most 1.
   */
  lemma DeadlockFreeExactly(k: nat)
    ensures (forall s, u, t :: ReachableBy(s, k) ==> !Deadlocked(s, u, t)) <==> k <= 1
  {
    if k <= 1 {
      forall s, u, t | ReachableBy(s, k) ensures !Deadlocked(s, u, t) {
        var n: nat, users: nat, acts: seq<Action> :| Runs(Init(n, users), acts, s) && CancelsAtMost(acts, k);
        forall id: nat ensures CancelCalls(acts, id) <= 1 {
          assert CancelCalls(acts, id) <= k;
        }
        NoDeadlock(n, users, acts, s, u, t);
      }
    } else {
      var s := DeadlockHappens();
      MoreCalls(s, 2, k);
    }
  }

  lemma MoreCalls(s: State, k: nat, more: nat)
    requires ReachableBy(s, k) && k <= more
    ensures ReachableBy(s, more)
  {
    var n: nat, u: nat, acts: seq<Action> :| Runs(Init(n, u), acts, s) && CancelsAtMost(acts, k);
    forall id: nat ensures CancelCalls(acts, id) <= more {
      assert CancelCalls(acts, id) <= k;
    }
    assert CancelsAtMost(acts, more);
  }
}
