/**
 The server's classes, with the fields the source updates in place. Each method is what
 one thread does between two scheduling points; its contract is the step system's step.
 */
module AsyncTcpServer {
  import opened Text
  import opened Connections
  import opened AsyncServerModel
  import opened AsyncServerInvariant
  import AsyncServerSafety

  class ServiceObject {
    var request: string
    var response: string
    var token: Token   // which operation is outstanding on the socket, or who runs its code
    ghost var deletes: nat
    ghost var conn: Conn

    constructor (t: nat)
      ensures Contents() == NewlyBuilt(t)
    {
      request, response, token, deletes, conn := "", "", OnThread(t), 0, NEW;
    }

    ghost function Contents(): Service
      reads this
    {
      Service(request, response, token, deletes, conn)
    }

    /** What the step means for the connection. */
    ghost method Record(m: Move)
      modifies this`conn
      ensures Contents() == Moved(old(Contents()), m)
    {
      conn := Moved(Contents(), m).conn;
    }

    /** `onFinish`: `delete this`. */
    method OnFinish()
      modifies this
      ensures Contents() == Delete(old(Contents()))
    {
      Record(Finish);
      deletes := deletes + 1;
      token := Nowhere;
    }
  }

  class AcceptorObject {
    var isOpen: bool
    var isStopped: bool
    var token: Token
    ghost var closes: nat
    ghost var accepted: nat
    ghost var createdLate: nat

    constructor (firstAccept: nat)
      ensures Contents() == Acceptor(true, false, InFlight(firstAccept), 0, 0, 0)
    {
      isOpen, isStopped, token, closes, accepted, createdLate := true, false, InFlight(firstAccept), 0, 0, 0;
    }

    ghost function Contents(): Acceptor
      reads this
    {
      Acceptor(isOpen, isStopped, token, closes, accepted, createdLate)
    }

    /** `Stop`. */
    method Stop()
      modifies this`isStopped
      ensures isStopped
    {
      isStopped := true;
    }

    /** `m_acceptor.close()`. */
    method Close()
      modifies this`isOpen, this`closes, this`token
      ensures !isOpen && closes == old(closes) + 1 && token == Nowhere
    {
      isOpen, closes, token := false, closes + 1, Nowhere;
    }
  }

  class Server {
    const pool: nat
    const acceptor: AcceptorObject
    var threads: seq<Pc>
    var services: seq<ServiceObject>
    var ops: map<nat, Op>
    var nextOp: nat
    var iosStopped: bool

    /** Services are separate objects. */
    ghost predicate Valid()
      reads this
    {
      forall i, j :: 0 <= i < j < |services| ==> services[i] != services[j]
    }

    ghost function Contents(): State
      reads this, services, acceptor
    {
      State(pool, threads,
            seq(|services|, i requires 0 <= i < |services| reads this, services => services[i].Contents()),
            acceptor.Contents(), ops, nextOp, iosStopped)
    }

    /** `Start`: the first accept, then the pool. */
    constructor (threadPoolSize: nat)
      requires threadPoolSize > 0
      ensures Valid() && Contents() == Started(threadPoolSize) && fresh(acceptor)
    {
      pool := threadPoolSize;
      acceptor := new AcceptorObject(0);
      threads, services, ops, nextOp, iosStopped := [], [], map[0 := Op(AcceptOp, None)], 1, false;
      new;
      for i := 0 to threadPoolSize
        invariant |threads| == i && forall t :: 0 <= t < i ==> threads[t] == Polling
        invariant services == [] && ops == map[0 := Op(AcceptOp, None)] && nextOp == 1 && !iosStopped
        invariant acceptor.Contents() == Acceptor(true, false, InFlight(0), 0, 0, 0)
      {
        threads := threads + [Polling];
      }
      threads := threads + [Running];
    }

    /** What a server with only the service of the current step changed looks like. */
    lemma Changed(s: State, t: nat, svc: nat, w: View)
      requires Valid() && t < |s.threads| && |s.services| == |services|
      requires threads == s.threads[t := w.pc] && pool == s.pool && iosStopped == s.iosStopped
      requires acceptor.Contents() == w.acceptor && ops == w.ops && nextOp == w.nextOp
      requires forall i :: 0 <= i < |services| ==>
        services[i].Contents() == if i == svc then w.x else s.services[i]
      ensures Contents() == Put(s, t, svc, w)
    {
    }

    method StartOperation(kind: Kind) returns (token: Token)
      modifies this`ops, this`nextOp
      ensures token == InFlight(old(nextOp)) && nextOp == old(nextOp) + 1
      ensures ops == old(ops)[old(nextOp) := Op(kind, None)]
    {
      token := InFlight(nextOp);
      ops := ops[nextOp := Op(kind, None)];
      nextOp := nextOp + 1;
    }

    /** `onAccept` of a successful accept: the new service, alive until it deletes itself. */
    method CreateService(t: nat)
      requires Valid() && t < |threads| && threads[t].Accepting? && threads[t].aat == NewService
      modifies this, acceptor
      ensures Valid() && Contents() == Apply(old(Contents()), Step(t))
      ensures |services| > 0 && services[..|services| - 1] == old(services) && fresh(services[|services| - 1])
    {
      var service := new ServiceObject(t);
      if acceptor.isStopped {
        acceptor.createdLate := acceptor.createdLate + 1;
      }
      threads := threads[t := Accepting(|services|, StartRead)];
      services := services + [service];
      assert Contents().services == old(Contents()).services + [service.Contents()];
    }

    /** `StartHandling`: the first read of a new service. */
    method StartHandling(t: nat)
      requires Valid() && t < |threads| && threads[t].Accepting? && threads[t].aat == StartRead
      requires threads[t].svc < |services|
      modifies this, services[threads[t].svc]
      ensures Valid() && services == old(services) && Contents() == Apply(old(Contents()), Step(t))
    {
      var pc := threads[t];
      ghost var s, w := Contents(), StepView(t, LookAt(Contents(), t, pc.svc));
      var x := services[pc.svc];
      x.token := StartOperation(ReadOp(pc.svc));
      threads := threads[t := pc.(aat := TestStop)];
      Changed(s, t, pc.svc, w);
    }

    /** The rest of `onAccept`: rearm, or close once stopped. */
    method FinishAccept(t: nat)
      requires Valid() && t < |threads| && threads[t].Accepting?
      requires threads[t].aat != NewService && threads[t].aat != StartRead
      modifies this, acceptor
      ensures Valid() && services == old(services) && Contents() == Apply(old(Contents()), Step(t))
    {
      var pc := threads[t];
      ghost var s, w := Contents(), StepView(t, LookAt(Contents(), t, |services|));
      match pc.aat {
        case TestStop => pc := pc.(aat := if acceptor.isStopped then CloseAcceptor else Rearm);
        case Rearm =>
          acceptor.token := StartOperation(AcceptOp);
          pc := pc.(aat := AcceptDone);
        case CloseAcceptor =>
          acceptor.Close();
          pc := pc.(aat := AcceptDone);
        case AcceptDone => pc := Polling;
      }
      threads := threads[t := pc];
      Changed(s, t, |services|, w);
    }

    /** `onRequestReceived`. */
    method OnRequestReceived(t: nat)
      requires Valid() && t < |threads| && threads[t].Receiving? && threads[t].rat != ReceiveDone
      requires threads[t].svc < |services|
      modifies this, services[threads[t].svc]
      ensures Valid() && services == old(services) && Contents() == Apply(old(Contents()), Step(t))
    {
      var pc := threads[t];
      var x := services[pc.svc];
      ghost var s, w := Contents(), StepView(t, LookAt(Contents(), t, pc.svc));
      match pc.rat {
        case CheckRead =>
          if pc.ok {
            x.Record(ReadLine(pc.data));
            x.request := pc.data;
            pc := pc.(rat := ProcessRequest);
          } else {
            x.Record(ReadFails);
            pc := pc.(rat := DeleteUnread);
          }
        case ProcessRequest =>
          x.Record(Process);
          x.response := RESPONSE;
          pc := pc.(rat := StartWrite);
        case StartWrite =>
          x.token := StartOperation(WriteOp(pc.svc));
          pc := pc.(rat := ReceiveDone);
        case DeleteUnread =>
          x.OnFinish();
          pc := pc.(rat := ReceiveDone);
      }
      threads := threads[t := pc];
      Changed(s, t, pc.svc, w);
    }

    /** `onResponseSent`. */
    method OnResponseSent(t: nat)
      requires Valid() && t < |threads| && threads[t].Sending? && threads[t].sat != SendDone
      requires threads[t].svc < |services|
      modifies this, services[threads[t].svc]
      ensures Valid() && services == old(services) && Contents() == Apply(old(Contents()), Step(t))
    {
      var pc := threads[t];
      var x := services[pc.svc];
      ghost var s, w := Contents(), StepView(t, LookAt(Contents(), t, pc.svc));
      if pc.sat == CheckWrite {
        x.Record(if pc.ok then WriteAll else WriteFails(pc.count));
        pc := pc.(sat := DeleteSent);
      } else {
        x.OnFinish();
        pc := pc.(sat := SendDone);
      }
      threads := threads[t := pc];
      Changed(s, t, pc.svc, w);
    }

    /** `Server::Stop`: stop accepting, stop the I/O service, join the pool. */
    method StopServer(t: nat)
      requires Valid() && t < |threads| && CanStep(Contents(), t) && !Works(threads[t])
      modifies this, acceptor
      ensures Valid() && services == old(services) && Contents() == Apply(old(Contents()), Step(t))
    {
      match threads[t] {
        case StopAcceptor =>
          acceptor.Stop();
          threads := threads[t := StopIos];
        case StopIos =>
          iosStopped := true;
          threads := threads[t := Joining(0)];
        case Joining(next) => threads := threads[t := if next < pool then Joining(next + 1) else Stopped];
      }
      assert Contents().services == old(Contents()).services;
    }

    /** A pool thread takes a queued handler. */
    method DispatchHandler(t: nat, k: nat)
      requires Valid() && Enabled(Contents(), Dispatch(t, k))
      requires OpFocus(ops[k].kind, 0) < |services| || ops[k].kind == AcceptOp
      modifies this, acceptor, if ops[k].kind == AcceptOp then {} else {services[OpFocus(ops[k].kind, 0)]}
      ensures Valid() && services == old(services) && Contents() == Apply(old(Contents()), Dispatch(t, k))
    {
      var op := ops[k];
      var r := op.result.value;
      ghost var svc := OpFocus(op.kind, |services|);
      ghost var s, w := Contents(), DispatchView(t, k, LookAt(Contents(), t, svc));
      ops := ops - {k};
      match op.kind {
        case AcceptOp =>
          acceptor.token := OnThread(t);
          acceptor.accepted := acceptor.accepted + if r.ok then 1 else 0;
          threads := threads[t := Accepting(0, if r.ok then NewService else TestStop)];
        case ReadOp(i) =>
          services[i].token := OnThread(t);
          threads := threads[t := Receiving(i, r.ok, r.data, CheckRead)];
        case WriteOp(i) =>
          services[i].token := OnThread(t);
          threads := threads[t := Sending(i, r.ok, r.count, CheckWrite)];
      }
      Changed(s, t, svc, w);
    }

    /** A pool thread goes back to `io_service::run()`. */
    method Return(t: nat)
      requires Valid() && t < |threads|
      requires || (threads[t].Receiving? && threads[t].rat == ReceiveDone)
               || (threads[t].Sending? && threads[t].sat == SendDone)
      modifies this
      ensures Valid() && services == old(services) && Contents() == Apply(old(Contents()), Step(t))
    {
      ghost var s, w := Contents(), StepView(t, LookAt(Contents(), t, |services|));
      threads := threads[t := Polling];
      Changed(s, t, |services|, w);
    }

    method Advance(t: nat)
      requires Valid() && t < |threads| && CanStep(Contents(), t) && ThreadOk(Contents(), t)
      modifies this, acceptor, services
      ensures Valid() && Contents() == Apply(old(Contents()), Step(t))
      ensures forall k :: 0 <= k < |services| ==> services[k] in old(services) || fresh(services[k])
    {
      var pc := threads[t];
      if !Works(pc) {
        StopServer(t);
      } else if pc.Accepting? {
        if pc.aat == NewService {
          CreateService(t);
        } else if pc.aat == StartRead {
          StartHandling(t);
        } else {
          FinishAccept(t);
        }
      } else if UsesSome(pc) {
        if pc.Receiving? {
          OnRequestReceived(t);
        } else {
          OnResponseSent(t);
        }
      } else {
        Return(t);
      }
    }

    /** One action of the schedule. */
    method Perform(a: Action)
      requires Valid() && Inv(Contents()) && Enabled(Contents(), a)
      modifies this, acceptor, services
      ensures Valid() && Contents() == Apply(old(Contents()), a)
      ensures forall k :: 0 <= k < |services| ==> services[k] in old(services) || fresh(services[k])
    {
      match a {
        case CallStop => threads := threads[pool := StopAcceptor];
        case Step(t) => Advance(t);
        case Complete(k, result) => CompleteOperation(k, result);
        case Dispatch(t, k) =>
          assert OpTokenOk(Contents(), k);
          DispatchHandler(t, k);
        case ExitRun(t) => threads := threads[t := Exited];
      }
    }

    /** The network finishes an operation. */
    method CompleteOperation(k: nat, result: Result)
      requires Valid() && Enabled(Contents(), Complete(k, result))
      modifies this`ops
      ensures Contents() == Apply(old(Contents()), Complete(k, result))
    {
      ops := ops[k := ops[k].(result := Some(result))];
      assert Contents().services == old(Contents()).services;
    }

    /** No service is deleted twice; once stopped, those alive are waiting for an abandoned operation. */
    lemma EveryServiceIsOwned()
      requires Reachable(Contents())
      ensures forall i :: 0 <= i < |services| ==> services[i].deletes <= 1
      ensures pool < |threads| && threads[pool] == Stopped ==>
        forall i :: 0 <= i < |services| ==>
          (services[i].deletes == 0 <==> services[i].token.InFlight? && services[i].token.k in ops)
    {
      var s := Contents();
      forall i | 0 <= i < |services|
        ensures services[i].deletes <= 1
        ensures pool < |threads| && threads[pool] == Stopped ==>
          (services[i].deletes == 0 <==> services[i].token.InFlight? && services[i].token.k in ops)
      {
        assert s.services[i] == services[i].Contents();
        AsyncServerSafety.ServiceOwnership(s, i, Nowhere);
        if pool < |threads| && threads[pool] == Stopped {
          AsyncServerSafety.OnlyAbandonedLive(s, i);
        }
      }
    }

    /**
     Every run of the step system is a run of this object. At its end no service has been
     deleted twice, and after `Stop` only those with an abandoned operation are alive.
     */
    method Run(acts: seq<Action>, ghost end: State)
      requires Valid() && Reachable(Contents()) && Runs(Contents(), acts, end)
      modifies this, acceptor, services
      ensures Valid() && Contents() == end
      ensures forall i :: 0 <= i < |services| ==> services[i].deletes <= 1
      ensures pool < |threads| && threads[pool] == Stopped ==>
        forall i :: 0 <= i < |services| ==>
          (services[i].deletes == 0 <==> services[i].token.InFlight? && services[i].token.k in ops)
    {
      ReachableInv(Contents());
      AsyncServerSafety.StaysReachable(Contents(), acts, end);
      var i := 0;
      while i < |acts|
        invariant 0 <= i <= |acts|
        invariant Valid() && Inv(Contents()) && Runs(Contents(), acts[i..], end)
        invariant forall k :: 0 <= k < |services| ==> services[k] in old(services) || fresh(services[k])
      {
        ghost var s := Contents();
        InvStep(s, acts[i]);
        assert acts[i..][1..] == acts[i + 1..];
        Perform(acts[i]);
        i := i + 1;
      }
      EveryServiceIsOwned();
    }
  }
}
