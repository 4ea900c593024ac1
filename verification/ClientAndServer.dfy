/**
 The asynchronous client and the asynchronous server as one system: the threads of both
 interleave, and each session's byte streams end at the `Service` that accepted it. Every
 run is a run of `EndToEnd`, with the services' connections as the links' ends.
 */
module ClientAndServer {
  import opened Text
  import opened Connections
  import C = ClientModel
  import A = AsyncServerModel
  import AI = AsyncServerInvariant
  import AS = AsyncServerSafety
  import E = EndToEnd

  /** One session's streams, and the service at their other end once it is accepted. */
  datatype Wire = Wire(peer: Option<nat>, sent: nat, atServer: string, replied: nat, atClient: string)

  datatype State = State(client: C.State, server: A.State, wires: seq<Wire>)

  /** `sid` is the session whose connection a new service takes; beyond the sessions it is a stranger's. */
  datatype Action = Net(move: E.Action) | Serve(act: A.Action, sid: nat)

  const FRESH: Wire := Wire(None, 0, "", 0, "")

  function Init(ioThreads: nat, userThreads: nat, pool: nat): State {
    State(C.Init(ioThreads, userThreads), A.Started(pool), [])
  }

  // ---- the links, seen as in EndToEnd -----------------------------------------------------------

  function ConnOf(server: A.State, w: Wire): Conn {
    if w.peer.Some? && w.peer.value < |server.services| then server.services[w.peer.value].conn else NEW
  }

  function LinkOf(server: A.State, w: Wire): E.Link {
    E.Link(w.sent, w.atServer, ConnOf(server, w), w.replied, w.atClient)
  }

  function Project(s: State): E.State {
    E.State(s.client, seq(|s.wires|, i requires 0 <= i < |s.wires| => LinkOf(s.server, s.wires[i])))
  }

  // ---- the system ---------------------------------------------------------------------------------

  /** An operation of the service at the end of `w` ends with what the streams have carried. */
  predicate Delivered(kind: A.Kind, r: A.Result, w: Wire) {
    match kind
    case AcceptOp => true
    case ReadOp(svc) => w.peer == Some(svc) && r.ok ==> r.data == w.atServer
    case WriteOp(svc) => w.peer == Some(svc) ==> if r.ok then w.replied == |RESPONSE| else w.replied == r.count
  }

  /** The service at the end of `w` has a write in flight. */
  predicate Writes(server: A.State, w: Wire) {
    && w.peer.Some? && w.peer.value < |server.services|
    && var token := server.services[w.peer.value].token;
    token.InFlight? && token.k in server.ops && server.ops[token.k].result == None
  }

  predicate Builds(server: A.State, act: A.Action) {
    act.Step? && act.t < |server.threads|
    && server.threads[act.t].Accepting? && server.threads[act.t].aat == A.NewService
  }

  predicate Enabled(s: State, a: Action) {
    match a
    case Net(m) =>
      && !m.ServerMoves? && E.Enabled(Project(s), m)
      && (m.ServerReplies? ==> Writes(s.server, s.wires[m.sid]))
    case Serve(act, sid) =>
      && A.Enabled(s.server, act)
      && (act.Complete? ==>
            forall i :: 0 <= i < |s.wires| ==> Delivered(s.server.ops[act.k].kind, act.result, s.wires[i]))
      && (Builds(s.server, act) && sid < |s.wires| ==> s.wires[sid].peer == None)
  }

  /** The wire that carries what the link `l` does. */
  function Carry(w: Wire, l: E.Link): Wire {
    w.(sent := l.sent, atServer := l.atServer, replied := l.replied, atClient := l.atClient)
  }

  function Apply(s: State, a: Action): State
    requires Enabled(s, a)
  {
    match a
    case Net(m) =>
      var e := E.Apply(Project(s), m);
      if m.Client? then
        s.(client := e.client, wires := if m.act.CallSubmit? then s.wires + [FRESH] else s.wires)
      else s.(wires := s.wires[m.sid := Carry(s.wires[m.sid], e.links[m.sid])])
    case Serve(act, sid) =>
      State(s.client, A.Apply(s.server, act),
            if Builds(s.server, act) && sid < |s.wires| then
              s.wires[sid := s.wires[sid].(peer := Some(|s.server.services|))]
            else s.wires)
  }

  ghost predicate Runs(from: State, acts: seq<Action>, to: State)
    decreases |acts|
  {
    if acts == [] then from == to
    else Enabled(from, acts[0]) && Runs(Apply(from, acts[0]), acts[1..], to)
  }

  // ---- the invariant ---------------------------------------------------------------------------------

  /** What the service at the end of `w` was told is what the streams have carried. */
  predicate HostOk(server: A.State, w: Wire) {
    w.peer.Some? ==>
      var svc := w.peer.value;
      && svc < |server.services|
      && match server.services[svc].token
         case InFlight(k) =>
           k in server.ops && server.ops[k].result.Some? ==>
             Delivered(server.ops[k].kind, server.ops[k].result.value, w)
         case OnThread(t) => t < |server.threads| ==> Told(server.threads[t], svc, w)
         case Nowhere => true
  }

  predicate Told(pc: A.Pc, svc: nat, w: Wire) {
    match pc
    case Receiving(i, ok, data, at) => i == svc && at == A.CheckRead && ok ==> data == w.atServer
    case Sending(i, ok, count, at) =>
      i == svc && at == A.CheckWrite ==> if ok then w.replied == |RESPONSE| else w.replied == count
    case _ => true
  }

  /** No two sessions share a service. */
  predicate PeersDiffer(wires: seq<Wire>) {
    forall i, j :: 0 <= i < j < |wires| && wires[i].peer.Some? ==> wires[i].peer != wires[j].peer
  }

  ghost predicate Inv(s: State) {
    && AI.Inv(s.server) && |s.wires| == |s.client.sessions| && PeersDiffer(s.wires)
    && (forall i :: 0 <= i < |s.wires| ==> HostOk(s.server, s.wires[i]))
  }

  // ---- steps of the client and of the network ---------------------------------------------------------

  lemma NetKeepsHost(server: A.State, request: string, w: Wire, m: E.Action)
    requires AI.Inv(server) && HostOk(server, w) && !m.ServerMoves?
    requires E.CanMove(request, LinkOf(server, w), m) && (m.ServerReplies? ==> Writes(server, w))
    ensures HostOk(server, Carry(w, E.Moved(request, LinkOf(server, w), m)))
  {
    if w.peer.Some? {
      var svc := w.peer.value;
      assert AI.ServiceOk(server, svc);
      match server.services[svc].token
      case InFlight(k) => assert AI.OpTokenOk(server, k);
      case OnThread(t) => assert AI.ThreadOk(server, t);
      case Nowhere =>
    }
  }

  lemma NetKeepsInv(s: State, m: E.Action)
    requires Inv(s) && Enabled(s, Net(m))
    ensures Inv(Apply(s, Net(m)))
  {
    if m.Client? {
      E.SessionCount(s.client, m.act);
    } else {
      assert Project(s).links[m.sid] == LinkOf(s.server, s.wires[m.sid]);
      NetKeepsHost(s.server, s.client.sessions[m.sid].request, s.wires[m.sid], m);
    }
  }

  lemma NetProjects(s: State, m: E.Action)
    requires Enabled(s, Net(m))
    ensures Project(Apply(s, Net(m))) == E.Apply(Project(s), m)
  {
    var z, e := Apply(s, Net(m)), E.Apply(Project(s), m);
    if m.Client? {
      assert LinkOf(s.server, FRESH) == E.FRESH;
    } else {
      assert e.links[m.sid].conn == Project(s).links[m.sid].conn;
    }
    assert Project(z).links == e.links;
  }

  // ---- steps of the server ----------------------------------------------------------------------------

  /** A wire whose service, operation and thread are untouched. */
  lemma HostStays(s: A.State, z: A.State, w: Wire)
    requires HostOk(s, w) && w.peer.Some?
    requires w.peer.value < |z.services| && z.services[w.peer.value].token == s.services[w.peer.value].token
    requires match s.services[w.peer.value].token
             case InFlight(k) => k in z.ops ==> k in s.ops && z.ops[k] == s.ops[k]
             case OnThread(t) => t < |z.threads| ==> t < |s.threads| && z.threads[t] == s.threads[t]
             case Nowhere => true
    ensures HostOk(z, w)
  {
  }

  lemma CompleteKeepsHost(s: A.State, k: nat, result: A.Result, w: Wire)
    requires A.Enabled(s, A.Complete(k, result)) && HostOk(s, w) && Delivered(s.ops[k].kind, result, w)
    ensures HostOk(A.Apply(s, A.Complete(k, result)), w)
  {
  }

  lemma DispatchKeepsHost(s: A.State, t: nat, k: nat, w: Wire)
    requires A.Enabled(s, A.Dispatch(t, k)) && HostOk(s, w) && w.peer.Some?
    requires AI.ServiceOk(s, w.peer.value) && AI.OpTokenOk(s, k)
    ensures HostOk(A.Apply(s, A.Dispatch(t, k)), w)
  {
    var svc, z := w.peer.value, A.Apply(s, A.Dispatch(t, k));
    if s.services[svc].token != A.InFlight(k) {
      HostStays(s, z, w);
    }
  }

  /** A step of the service itself: it is told nothing new, or starts an operation. */
  lemma OwnStepKeepsHost(s: A.State, t: nat, w: Wire)
    requires A.Enabled(s, A.Step(t)) && AI.UsesSome(s.threads[t]) && w.peer == Some(A.Focus(s, t))
    requires AI.ThreadOk(s, t)
    ensures HostOk(A.Apply(s, A.Step(t)), w)
  {
  }

  lemma OtherStepKeepsHost(s: A.State, t: nat, w: Wire)
    requires A.Enabled(s, A.Step(t)) && HostOk(s, w) && w.peer.Some?
    requires AI.UsesSome(s.threads[t]) ==> w.peer != Some(A.Focus(s, t))
    requires AI.ServiceOk(s, w.peer.value) && AI.ThreadOk(s, t)
    requires s.services[w.peer.value].token.InFlight? ==> s.services[w.peer.value].token.k < s.nextOp
    ensures HostOk(A.Apply(s, A.Step(t)), w)
  {
    HostStays(s, A.Apply(s, A.Step(t)), w);
  }

  lemma ServeKeepsHost(s: A.State, act: A.Action, w: Wire)
    requires AI.Inv(s) && A.Enabled(s, act) && HostOk(s, w)
    requires act.Complete? ==> Delivered(s.ops[act.k].kind, act.result, w)
    ensures HostOk(A.Apply(s, act), w)
  {
    if w.peer.Some? {
      var svc := w.peer.value;
      assert AI.ServiceOk(s, svc);
      match act
      case Complete(k, result) => CompleteKeepsHost(s, k, result, w);
      case Dispatch(t, k) =>
        assert AI.OpTokenOk(s, k);
        DispatchKeepsHost(s, t, k, w);
      case Step(t) =>
        assert AI.ThreadOk(s, t);
        if AI.UsesSome(s.threads[t]) && A.Focus(s, t) == svc {
          OwnStepKeepsHost(s, t, w);
        } else {
          assert s.services[svc].token.InFlight? ==> AI.OpTokenOk(s, s.services[svc].token.k);
          OtherStepKeepsHost(s, t, w);
        }
      case _ => HostStays(s, A.Apply(s, act), w);
    }
  }

  lemma BuiltHost(s: A.State, act: A.Action, w: Wire)
    requires A.Enabled(s, act) && Builds(s, act) && w.peer == Some(|s.services|)
    ensures HostOk(A.Apply(s, act), w)
  {
  }

  lemma ServeKeepsInv(s: State, act: A.Action, sid: nat)
    requires Inv(s) && Enabled(s, Serve(act, sid))
    ensures Inv(Apply(s, Serve(act, sid)))
  {
    var z := Apply(s, Serve(act, sid));
    AI.InvStep(s.server, act);
    forall i | 0 <= i < |z.wires| ensures HostOk(z.server, z.wires[i]) {
      if z.wires[i] == s.wires[i] {
        ServeKeepsHost(s.server, act, s.wires[i]);
      } else {
        BuiltHost(s.server, act, z.wires[i]);
      }
    }
    assert forall i :: 0 <= i < |s.wires| ==> HostOk(s.server, s.wires[i]);
  }

  // ---- what a step of the server is in EndToEnd ----------------------------------------------------

  /** The connections change as the event says. */
  lemma ConnsMove(s: A.State, act: A.Action)
    requires AI.Inv(s) && A.Enabled(s, act)
    ensures var events, z := AS.EventOf(s, act), A.Apply(s, act);
      && |events| <= 1
      && (events == [] ==> AS.Conns(z) == AS.Conns(s))
      && (events != [] ==> ParallelCan(AS.Conns(s), events[0]) && AS.Conns(z) == Next(AS.Conns(s), events[0]))
      && (events != [] && events[0].Open? <==> Builds(s, act))
  {
    AS.ActionIsEvent(s, act);
    var events := AS.EventOf(s, act);
    if events != [] {
      assert events[1..] == [];
    }
  }

  /** A service's move agrees with what its streams have carried. */
  lemma MoveIsTrue(s: A.State, act: A.Action, w: Wire)
    requires A.Enabled(s, act) && AS.EventOf(s, act) != [] && AS.EventOf(s, act)[0].At?
    requires HostOk(s, w) && w.peer == Some(AS.EventOf(s, act)[0].conn) && AI.ThreadOk(s, act.t)
    ensures var m := AS.EventOf(s, act)[0].move;
      && (m.ReadLine? ==> m.data == w.atServer)
      && (m.WriteAll? ==> w.replied == |RESPONSE|)
      && (m.WriteFails? ==> w.replied == m.count)
  {
  }

  lemma ConnOfConns(server: A.State, w: Wire)
    ensures ConnOf(server, w)
            == if w.peer.Some? && w.peer.value < |AS.Conns(server)| then AS.Conns(server)[w.peer.value] else NEW
  {
  }

  /** The action moves the connection of the service at the end of wire `i`. */
  predicate Touches(s: State, act: A.Action, i: nat)
    requires A.Enabled(s.server, act) && i < |s.wires|
  {
    var events := AS.EventOf(s.server, act);
    events != [] && events[0].At? && s.wires[i].peer == Some(events[0].conn)
  }

  lemma LinkMoves(s: State, act: A.Action, sid: nat, i: nat)
    requires Inv(s) && Enabled(s, Serve(act, sid)) && i < |s.wires|
    ensures var l, z := LinkOf(s.server, s.wires[i]), Apply(s, Serve(act, sid));
      && |z.wires| == |s.wires|
      && if Touches(s, act, i) then
           var m := AS.EventOf(s.server, act)[0].move;
           Can(l.conn, m) && LinkOf(z.server, z.wires[i]) == l.(conn := Do(l.conn, m))
         else LinkOf(z.server, z.wires[i]) == l
  {
    var z := Apply(s, Serve(act, sid));
    ConnsMove(s.server, act);
    ConnOfConns(s.server, s.wires[i]);
    ConnOfConns(z.server, z.wires[i]);
    assert HostOk(s.server, s.wires[i]);
  }

  lemma TouchedProjects(s: State, act: A.Action, sid: nat, i: nat)
    requires Inv(s) && Enabled(s, Serve(act, sid)) && i < |s.wires| && Touches(s, act, i)
    ensures var m := E.ServerMoves(i, AS.EventOf(s.server, act)[0].move);
      E.Enabled(Project(s), m) && E.Apply(Project(s), m) == Project(Apply(s, Serve(act, sid)))
  {
    var m, z := E.ServerMoves(i, AS.EventOf(s.server, act)[0].move), Apply(s, Serve(act, sid));
    assert HostOk(s.server, s.wires[i]) && AI.ThreadOk(s.server, act.t);
    MoveIsTrue(s.server, act, s.wires[i]);
    LinkMoves(s, act, sid, i);
    assert E.CanMove(s.client.sessions[i].request, Project(s).links[i], m);
    forall j | 0 <= j < |s.wires| && j != i
      ensures |z.wires| == |s.wires| && Project(z).links[j] == Project(s).links[j]
    {
      LinkMoves(s, act, sid, j);
    }
    assert Project(z).links == E.Apply(Project(s), m).links;
  }

  lemma UntouchedProjects(s: State, act: A.Action, sid: nat)
    requires Inv(s) && Enabled(s, Serve(act, sid))
    requires forall i :: 0 <= i < |s.wires| ==> !Touches(s, act, i)
    ensures Project(Apply(s, Serve(act, sid))) == Project(s)
  {
    var z := Apply(s, Serve(act, sid));
    forall i | 0 <= i < |s.wires| ensures |z.wires| == |s.wires| && Project(z).links[i] == Project(s).links[i] {
      LinkMoves(s, act, sid, i);
    }
    assert |z.wires| == |s.wires|;
    assert Project(z).links == Project(s).links;
  }

  /** A step of the server is at most one move of one link. */
  lemma ServeProjects(s: State, act: A.Action, sid: nat) returns (moves: seq<E.Action>)
    requires Inv(s) && Enabled(s, Serve(act, sid))
    ensures |moves| <= 1
    ensures if moves == [] then Project(Apply(s, Serve(act, sid))) == Project(s)
            else E.Enabled(Project(s), moves[0]) && E.Apply(Project(s), moves[0]) == Project(Apply(s, Serve(act, sid)))
  {
    if i :| 0 <= i < |s.wires| && Touches(s, act, i) {
      TouchedProjects(s, act, sid, i);
      moves := [E.ServerMoves(i, AS.EventOf(s.server, act)[0].move)];
    } else {
      UntouchedProjects(s, act, sid);
      moves := [];
    }
  }

  // ---- whole runs -------------------------------------------------------------------------------------

  /** Every run of client and server together is a run of `EndToEnd`. */
  lemma {:induction false} RunsProject(from: State, acts: seq<Action>, to: State) returns (moves: seq<E.Action>)
    requires Inv(from) && Runs(from, acts, to)
    ensures E.Runs(Project(from), moves, Project(to)) && Inv(to)
    decreases |acts|
  {
    moves := [];
    if acts != [] {
      var next, first := Apply(from, acts[0]), [];
      match acts[0] {
        case Net(m) =>
          NetKeepsInv(from, m);
          NetProjects(from, m);
          first := [m];
        case Serve(act, sid) =>
          ServeKeepsInv(from, act, sid);
          first := ServeProjects(from, act, sid);
      }
      var rest := RunsProject(next, acts[1..], to);
      moves := first + rest;
      assert first == [] ==> moves == rest;
      assert first != [] ==> moves[0] == first[0] && moves[1..] == rest;
    }
  }

  /** A connection that has read something belongs to a service that has read it. */
  lemma ReadByService(s: State, sid: nat)
    requires Inv(s) && sid < |s.wires| && ConnOf(s.server, s.wires[sid]).request != ""
    ensures s.wires[sid].peer.Some? && s.wires[sid].peer.value < |s.server.services|
    ensures s.server.services[s.wires[sid].peer.value].request == ConnOf(s.server, s.wires[sid]).request
    ensures forall other :: 0 <= other < |s.wires| && other != sid ==> s.wires[other].peer != s.wires[sid].peer
  {
    assert HostOk(s.server, s.wires[sid]);
    assert AI.ServiceOk(s.server, s.wires[sid].peer.value);
  }

  /**
   Main result: for any numbers of threads on both sides and any schedule, cancellation and
   transport errors, a callback told of success means that one service of the asynchronous
   server has read exactly the session's request, and is given exactly its reply.
   */
  lemma SuccessMeansServed(ioThreads: nat, userThreads: nat, pool: nat, acts: seq<Action>, s: State, sid: nat)
    requires pool > 0 && Runs(Init(ioThreads, userThreads, pool), acts, s)
    requires sid < |s.client.sessions| && s.client.sessions[sid].calls != []
    requires s.client.sessions[sid].calls[0].ec == C.Success
    ensures sid < |s.wires| && s.wires[sid].peer.Some? && s.wires[sid].peer.value < |s.server.services|
    ensures s.server.services[s.wires[sid].peer.value].request == s.client.sessions[sid].request
    ensures s.client.sessions[sid].calls[0].response == "Response"
    ensures forall other :: 0 <= other < |s.wires| && other != sid ==> s.wires[other].peer != s.wires[sid].peer
  {
    var from := Init(ioThreads, userThreads, pool);
    AI.InvStarted(pool);
    var moves := RunsProject(from, acts, s);
    assert Project(from) == E.Init(ioThreads, userThreads);
    E.SuccessMeansAnswered(ioThreads, userThreads, moves, Project(s), sid);
    assert Project(s).links[sid].conn == ConnOf(s.server, s.wires[sid]);
    ReadByService(s, sid);
  }
}
