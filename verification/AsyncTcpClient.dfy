/**
 The client's classes, with the fields the source updates in place. Each method is what
 one thread does between two scheduling points; its contract is the step system's step.
 */
module AsyncTcpClient {
  import opened Text
  import opened ClientModel
  import opened ClientInvariant
  import opened ClientRuns
  import ClientSafety
  import ClientProgress

  class SessionObject {
    const id: nat
    const request: string
    var wasCancelled: bool
    var cancelGuard: Option<nat>
    var ec: ErrorCode
    var response: string
    var token: Token   // which operation is outstanding on the socket, or who runs its code
    ghost var trail: seq<ErrorCode>
    ghost var finds: nat
    ghost var erased: bool
    var calls: seq<Call>

    constructor (id: nat, request: string, submitter: nat)
      ensures Contents() == NewSession(submitter, id, request)
    {
      this.id, this.request := id, request;
      wasCancelled, cancelGuard, ec, response := false, None, Success, "";
      token, trail, finds, erased, calls := Submitter(submitter), [], 0, false, [];
    }

    ghost function Contents(): Session
      reads this
    {
      Session(id, request, wasCancelled, cancelGuard, ec, response, token, trail, finds, erased, calls)
    }
  }

  /** `++i` on an unsigned char. */
  function Increment(i: nat): nat {
    if i == 255 then 0 else i + 1
  }

  /** The pool's loop counter after `k` rounds. */
  function Counter(k: nat): nat {
    if k == 0 then 1 else Increment(Counter(k - 1))
  }

  /** The counter only depends on the number of rounds modulo 256. */
  lemma {:induction false} CounterWraps(k: nat, q: nat, r: nat)
    requires k == 256 * q + r && r < 256
    ensures Counter(k) == if r == 255 then 0 else r + 1
  {
    if r > 0 {
      CounterWraps(k - 1, q, r - 1);
    } else if q > 0 {
      CounterWraps(k - 1, q - 1, 255);
    }
  }

  lemma {:induction false} CounterIsAByte(k: nat)
    ensures Counter(k) <= 255
  {
    if k > 0 {
      CounterIsAByte(k - 1);
    }
  }

  /** For which unsigned chars the loop `for (i = 1; i <= n; ++i)` ends, and with how many threads. */
  lemma PoolLoopEnds(n: nat)
    requires n <= 255
    ensures (exists k: nat :: Counter(k) > n) <==> n < 255
    ensures n < 255 ==> Counter(n) > n && forall k: nat :: k < n ==> Counter(k) <= n
  {
    forall k: nat ensures Counter(k) <= 255 {
      CounterIsAByte(k);
    }
    if n < 255 {
      forall k: nat | k <= n ensures Counter(k) == k + 1 {
        CounterWraps(k, 0, k);
      }
      assert Counter(n) > n;
    }
  }

  class AsyncTCPClient {
    const ioThreads: nat
    var threads: seq<Pc>
    var sessions: seq<SessionObject>
    var active: map<nat, nat>
    var mapGuard: Option<nat>
    var ops: map<nat, Op>
    var nextOp: nat
    var work: bool

    /** Sessions are separate objects. */
    ghost predicate Valid()
      reads this
    {
      forall i, j :: 0 <= i < j < |sessions| ==> sessions[i] != sessions[j]
    }

    ghost function Contents(): State
      reads this, sessions
    {
      State(ioThreads, threads,
            seq(|sessions|, i requires 0 <= i < |sessions| reads this, sessions => sessions[i].Contents()),
            active, mapGuard, ops, nextOp, work)
    }

    /**
     Starts the pool. The counter is an unsigned char, so 255 threads cannot be asked
     for: see `PoolLoopEnds`.
     */
    constructor (numOfThreads: nat, userThreads: nat)
      requires numOfThreads < 255
      ensures Valid() && Contents() == Init(numOfThreads, userThreads)
    {
      ioThreads := numOfThreads;
      threads, sessions, active, mapGuard, ops, nextOp, work := [], [], map[], None, map[], 0, true;
      new;
      var i := 1;
      while i <= numOfThreads
        invariant 1 <= i <= numOfThreads + 1 && |threads| == i - 1
        invariant forall t :: 0 <= t < |threads| ==> threads[t] == Polling
        invariant sessions == [] && active == map[] && mapGuard == None && ops == map[] && nextOp == 0 && work
        decreases numOfThreads + 1 - i
      {
        threads := threads + [Polling];
        i := Increment(i);
      }
      threads := threads + seq(userThreads, _ => Idle);
    }

    /** What a client with only the session of the current step changed looks like. */
    lemma Changed(s: State, t: nat, sid: nat, w: View)
      requires Valid() && t < |s.threads| && |s.sessions| == |sessions|
      requires threads == s.threads[t := w.pc] && ioThreads == s.ioThreads && work == s.work
      requires active == w.active && mapGuard == w.mapGuard && ops == w.ops && nextOp == w.nextOp
      requires forall i :: 0 <= i < |sessions| ==>
        sessions[i].Contents() == if i == sid then w.x else s.sessions[i]
      ensures Contents() == Put(s, t, sid, w)
    {
    }

    /** A lambda begins: it records the error, or extracts the line after the read. */
    method RecordResult(t: nat)
      requires Valid() && t < |threads| && threads[t].Handling? && CanStep(Contents(), t)
      requires threads[t].sid < |sessions| && threads[t].at == Enter
      modifies this, sessions[threads[t].sid]
      ensures Valid() && sessions == old(sessions) && Contents() == StepThread(old(Contents()), t)
    {
      var pc := threads[t];
      var x := sessions[pc.sid];
      ghost var s, w := Contents(), StepView(t, Look(Contents(), t));
      if pc.ec != Success {
        x.ec := pc.ec;
        pc := pc.(at := Shutdown);
      } else if pc.kind == ReadUntil {
        x.response := LineOf(pc.data);
        pc := pc.(at := Shutdown);
      } else {
        pc := pc.(at := LockGuard);
      }
      threads := threads[t := pc];
      Changed(s, t, pc.sid, w);
    }

    /** Between two operations: test the flag under the cancel guard. */
    method TestCancelled(t: nat)
      requires Valid() && t < |threads| && threads[t].Handling? && CanStep(Contents(), t)
      requires threads[t].sid < |sessions| && Continues(threads[t].at) && threads[t].at != Initiate
      modifies this, sessions[threads[t].sid]
      ensures Valid() && sessions == old(sessions) && Contents() == StepThread(old(Contents()), t)
    {
      var pc := threads[t];
      var x := sessions[pc.sid];
      ghost var s, w := Contents(), StepView(t, Look(Contents(), t));
      match pc.at {
        case LockGuard =>
          x.cancelGuard := Some(t);
          pc := pc.(at := TestFlag);
        case TestFlag =>
          if x.wasCancelled {
            pc := pc.(guarded := true, at := Shutdown);
          } else {
            pc := pc.(at := UnlockGuard);
          }
        case UnlockGuard =>
          x.cancelGuard := None;
          pc := pc.(at := Initiate);
      }
      threads := threads[t := pc];
      Changed(s, t, pc.sid, w);
    }

    /** A lambda ends by initiating the next operation of the chain. */
    method InitiateNext(t: nat)
      requires Valid() && t < |threads| && threads[t].Handling? && CanStep(Contents(), t)
      requires threads[t].sid < |sessions| && threads[t].at == Initiate
      modifies this, sessions[threads[t].sid]
      ensures Valid() && sessions == old(sessions) && Contents() == StepThread(old(Contents()), t)
    {
      var pc := threads[t];
      ghost var s, w := Contents(), StepView(t, Look(Contents(), t));
      StartOperation(sessions[pc.sid], pc.sid, NextKind(pc.kind));
      threads := threads[t := pc.(at := Return)];
      Changed(s, t, pc.sid, w);
    }

    method StartOperation(x: SessionObject, sid: nat, kind: OpKind)
      modifies this`ops, this`nextOp, x`token
      ensures x.token == InFlight(old(nextOp)) && nextOp == old(nextOp) + 1
      ensures ops == old(ops)[old(nextOp) := Op(sid, kind, Pending(false))]
    {
      x.token := InFlight(nextOp);
      ops := ops[nextOp := Op(sid, kind, Pending(false))];
      nextOp := nextOp + 1;
    }

    /** `onRequestComplete`. */
    method OnRequestComplete(t: nat)
      requires Valid() && t < |threads| && threads[t].Handling? && CanStep(Contents(), t)
      requires threads[t].sid < |sessions| && !Continues(threads[t].at)
      requires threads[t].at != Enter && threads[t].at != Unwind && threads[t].at != Return
      modifies this, sessions[threads[t].sid]
      ensures Valid() && sessions == old(sessions) && Contents() == StepThread(old(Contents()), t)
    {
      var pc := threads[t];
      var x := sessions[pc.sid];
      ghost var s, w := Contents(), StepView(t, Look(Contents(), t));
      match pc.at {
        case Shutdown => pc := pc.(at := LockMap);
        case LockMap =>
          mapGuard := Some(t);
          pc := pc.(at := Erase);
        case Erase =>
          active := active - {x.id};
          x.erased := true;
          pc := pc.(at := UnlockMap);
        case UnlockMap =>
          mapGuard := None;
          pc := pc.(at := ComputeEc);
        case ComputeEc =>
          var ec := x.ec;
          if x.ec == Success && x.wasCancelled {
            ec := OperationAborted;
          }
          pc := pc.(at := RunCallback(ec));
        case RunCallback(ec) =>
          x.calls := x.calls + [Call(x.response, ec)];
          x.token := Finished;
          pc := pc.(at := Unwind);
      }
      threads := threads[t := pc];
      Changed(s, t, pc.sid, w);
    }

    /** Leaving the lambda: the cancel guard, if held, is released, then the thread polls again. */
    method LeaveLambda(t: nat)
      requires Valid() && t < |threads| && threads[t].Handling? && CanStep(Contents(), t)
      requires threads[t].sid < |sessions| && (threads[t].at == Unwind || threads[t].at == Return)
      modifies this, sessions[threads[t].sid]
      ensures Valid() && sessions == old(sessions) && Contents() == StepThread(old(Contents()), t)
    {
      var pc := threads[t];
      var x := sessions[pc.sid];
      ghost var s, w := Contents(), StepView(t, Look(Contents(), t));
      if pc.at == Return {
        threads := threads[t := Polling];
      } else {
        if pc.guarded {
          x.cancelGuard := None;
        }
        threads := threads[t := pc.(guarded := false, at := Return)];
      }
      Changed(s, t, pc.sid, w);
    }

    /** `cancelRequest`: look the request up under the map guard. */
    method FindRequest(t: nat)
      requires Valid() && t < |threads| && threads[t].Cancelling? && CanStep(Contents(), t)
      requires !HasFound(threads[t]) && (threads[t].id in active ==> active[threads[t].id] < |sessions|)
      modifies this, if threads[t].id in active then {sessions[active[threads[t].id]]} else {}
      ensures Valid() && sessions == old(sessions) && Contents() == StepThread(old(Contents()), t)
    {
      var pc := threads[t];
      ghost var s, sid, w := Contents(), Focus(Contents(), t), StepView(t, Look(Contents(), t));
      match pc.cat {
        case CanLock =>
          mapGuard := Some(t);
          pc := pc.(cat := CanFind);
        case CanFind =>
          if pc.id in active {
            var found := sessions[active[pc.id]];
            found.finds := found.finds + 1;
            pc := pc.(sid := active[pc.id], cat := CanLockGuard);
          } else {
            pc := pc.(cat := CanUnlock);
          }
        case CanUnlock =>
          mapGuard := None;
          pc := Idle;
      }
      threads := threads[t := pc];
      Changed(s, t, sid, w);
    }

    /** `cancelRequest`: mark the request that was found, under both guards. */
    method MarkRequest(t: nat)
      requires Valid() && t < |threads| && threads[t].Cancelling? && CanStep(Contents(), t)
      requires HasFound(threads[t]) && threads[t].sid < |sessions|
      modifies this, sessions[threads[t].sid]
      ensures Valid() && sessions == old(sessions) && Contents() == StepThread(old(Contents()), t)
    {
      var pc := threads[t];
      var x := sessions[pc.sid];
      ghost var s, w := Contents(), StepView(t, Look(Contents(), t));
      match pc.cat {
        case CanLockGuard =>
          x.cancelGuard := Some(t);
          pc := pc.(cat := CanSetFlag);
        case CanSetFlag =>
          x.wasCancelled := true;
          pc := pc.(cat := CanCancelSocket);
        case CanCancelSocket =>
          ops := CancelSocket(x.token, ops);
          pc := pc.(cat := CanUnlockGuard);
        case CanUnlockGuard =>
          x.cancelGuard := None;
          pc := pc.(cat := CanUnlock);
      }
      threads := threads[t := pc];
      Changed(s, t, pc.sid, w);
    }

    /** `emulateLongComputationOp`: build the request and its session. */
    method BeginSubmit(t: nat, id: nat, duration: nat)
      requires Valid() && Enabled(Contents(), CallSubmit(t, id, duration))
      modifies this
      ensures Valid() && Contents() == Apply(old(Contents()), CallSubmit(t, id, duration))
      ensures forall k :: 0 <= k < |sessions| ==> sessions[k] in old(sessions) || fresh(sessions[k])
    {
      var session := new SessionObject(id, Request(CALC_KEYWORD, duration), t);
      threads := threads[t := Submitting(|sessions|, SubLock)];
      sessions := sessions + [session];
      assert Contents().sessions == old(Contents()).sessions + [session.Contents()];
    }

    /** `emulateLongComputationOp`: enter the session in the map and initiate the connect. */
    method ContinueSubmit(t: nat)
      requires Valid() && t < |threads| && threads[t].Submitting? && CanStep(Contents(), t)
      requires threads[t].sid < |sessions|
      modifies this, sessions[threads[t].sid]
      ensures Valid() && sessions == old(sessions) && Contents() == StepThread(old(Contents()), t)
    {
      var pc := threads[t];
      var x := sessions[pc.sid];
      ghost var s, w := Contents(), StepView(t, Look(Contents(), t));
      var next := pc;
      match pc.sat {
        case SubLock =>
          mapGuard := Some(t);
          next := pc.(sat := SubInsert);
        case SubInsert =>
          active := active[x.id := pc.sid];
          next := pc.(sat := SubUnlock);
        case SubUnlock =>
          mapGuard := None;
          next := pc.(sat := SubConnect);
        case SubConnect =>
          StartOperation(x, pc.sid, Connect);
          next := pc.(sat := SubReturn);
        case SubReturn => next := Idle;
      }
      threads := threads[t := next];
      Changed(s, t, pc.sid, w);
    }

    /** An idle I/O thread takes a queued handler. */
    method DispatchHandler(t: nat, k: nat)
      requires Valid() && Enabled(Contents(), Dispatch(t, k)) && ops[k].sid < |sessions|
      modifies this, sessions[ops[k].sid]
      ensures Valid() && sessions == old(sessions) && Contents() == Apply(old(Contents()), Dispatch(t, k))
    {
      var op := ops[k];
      var x := sessions[op.sid];
      ghost var s, w := Contents(), DispatchView(Contents(), t, k);
      x.token := OnThread(t);
      x.trail := x.trail + [op.state.ec];
      ops := ops - {k};
      threads := threads[t := Handling(op.sid, op.kind, op.state.ec, op.state.data, false, Enter)];
      Changed(s, t, op.sid, w);
    }

    /** One action of the schedule, by whichever part of the client it belongs to. */
    method Perform(a: Action)
      requires Valid() && Inv(Contents()) && Enabled(Contents(), a)
      modifies this, sessions
      ensures Valid() && Contents() == Apply(old(Contents()), a)
      ensures forall k :: 0 <= k < |sessions| ==> sessions[k] in old(sessions) || fresh(sessions[k])
    {
      match a {
        case CallSubmit(t, id, duration) => BeginSubmit(t, id, duration);
        case CallCancel(t, id) => threads := threads[t := Cancelling(id, 0, CanLock)];
        case CallClose(t) =>
          work := false;
          threads := threads[t := Joining(0)];
        case Complete(k, ec, data) => ops := ops[k := ops[k].(state := OpState.Ready(ec, data))];
        case Dispatch(t, k) => DispatchHandler(t, k);
        case ExitRun(t) => threads := threads[t := Exited];
        case Step(t) => Advance(t);
      }
    }

    method Advance(t: nat)
      requires Valid() && Inv(Contents()) && t < |threads| && CanStep(Contents(), t)
      modifies this, sessions
      ensures Valid() && sessions == old(sessions) && Contents() == StepThread(old(Contents()), t)
    {
      ghost var s := Contents();
      assert ThreadOk(s, t);
      var pc := threads[t];
      if pc.Submitting? {
        ContinueSubmit(t);
      } else if pc.Cancelling? {
        if HasFound(pc) {
          MarkRequest(t);
        } else {
          assert pc.id in s.active ==> EntryOk(s, pc.id);
          FindRequest(t);
        }
      } else if pc.Joining? {
        threads := threads[t := if pc.next < ioThreads then Joining(pc.next + 1) else Closed];
      } else if pc.at == Enter {
        RecordResult(t);
      } else if pc.at == Initiate {
        InitiateNext(t);
      } else if Continues(pc.at) {
        TestCancelled(t);
      } else if pc.at == Unwind || pc.at == Return {
        LeaveLambda(t);
      } else {
        OnRequestComplete(t);
      }
    }

    /** The callback ran at most once, and was told what became of the request. */
    ghost predicate Told(x: SessionObject)
      reads x
    {
      && |x.calls| <= 1
      && (x.calls != [] ==>
            && x.calls[0].response == x.response
            && (x.calls[0].ec == Success <==> x.trail == [Success, Success, Success] && x.finds == 0)
            && (x.calls[0].ec == OperationAborted ==> x.finds > 0))
    }

    lemma EverySessionIsTold()
      requires Reachable(Contents())
      ensures forall i :: 0 <= i < |sessions| ==> Told(sessions[i])
      ensures ioThreads > 0 && Closed in threads ==>
        active == map[] && forall i :: 0 <= i < |sessions| ==> |sessions[i].calls| == 1
    {
      var s := Contents();
      forall i | 0 <= i < |sessions| ensures Told(sessions[i]) {
        assert s.sessions[i] == sessions[i].Contents();
        if sessions[i].calls != [] {
          ClientSafety.Outcome(s, i);
        }
      }
      if ioThreads > 0 && Closed in threads {
        var t :| 0 <= t < |threads| && threads[t] == Closed;
        ClientProgress.CloseDrains(s, t);
        assert forall i :: 0 <= i < |sessions| ==> s.sessions[i] == sessions[i].Contents();
      }
    }

    /**
     Every run of the step system is a run of this object. At its end every callback has
     run at most once with the right outcome, and exactly once if `close` has returned.
     */
    method Run(acts: seq<Action>, ghost end: State)
      requires Valid() && Reachable(Contents()) && Runs(Contents(), acts, end)
      modifies this, sessions
      ensures Valid() && Contents() == end
      ensures forall i :: 0 <= i < |sessions| ==> Told(sessions[i])
      ensures ioThreads > 0 && Closed in threads ==>
        active == map[] && forall i :: 0 <= i < |sessions| ==> |sessions[i].calls| == 1
    {
      ReachableInv(Contents());
      StaysReachable(Contents(), acts, end);
      var i := 0;
      while i < |acts|
        invariant 0 <= i <= |acts|
        invariant Valid() && Inv(Contents()) && Runs(Contents(), acts[i..], end)
        invariant forall k :: 0 <= k < |sessions| ==> sessions[k] in old(sessions) || fresh(sessions[k])
      {
        ghost var s := Contents();
        InvStep(s, acts[i]);
        assert acts[i..][1..] == acts[i + 1..];
        Perform(acts[i]);
        i := i + 1;
      }
      EverySessionIsTold();
    }
  }
}
