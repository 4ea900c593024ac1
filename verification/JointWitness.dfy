/** A run of client and server together in which a request succeeds. */
module JointWitness {
  import opened Text
  import opened Connections
  import C = ClientModel
  import W = ClientWitness
  import A = AsyncServerModel
  import E = EndToEnd
  import opened ClientAndServer

  // ---- runs of one side are runs of both ------------------------------------------------------------

  ghost predicate Reachable(s: State) {
    exists n: nat, u: nat, pool: nat, acts: seq<Action> :: pool > 0 && Runs(Init(n, u, pool), acts, s)
  }

  lemma Prepend(from: State, a: Action, rest: seq<Action>, to: State)
    requires Enabled(from, a) && Runs(Apply(from, a), rest, to)
    ensures Runs(from, [a] + rest, to)
  {
    assert ([a] + rest)[1..] == rest && ([a] + rest)[0] == a;
  }

  lemma {:induction false} RunsOn(from: State, acts: seq<Action>, mid: State, a: Action, to: State)
    requires Runs(from, acts, mid) && Enabled(mid, a) && Apply(mid, a) == to
    ensures Runs(from, acts + [a], to)
    decreases |acts|
  {
    if acts == [] {
      Prepend(from, a, [], to);
      assert acts + [a] == [a] + [];
    } else {
      RunsOn(Apply(from, acts[0]), acts[1..], mid, a, to);
      Prepend(from, acts[0], acts[1..] + [a], to);
      assert acts + [a] == [acts[0]] + (acts[1..] + [a]);
    }
  }

  lemma OneMore(s: State, a: Action, z: State)
    requires Reachable(s) && Enabled(s, a) && Apply(s, a) == z
    ensures Reachable(z)
  {
    var n: nat, u: nat, pool: nat, acts: seq<Action> :| pool > 0 && Runs(Init(n, u, pool), acts, s);
    RunsOn(Init(n, u, pool), acts, s, a, z);
  }

  lemma {:induction false} ClientGoesOn(s: State, acts: seq<C.Action>, c: C.State)
    requires Reachable(s) && W.Plain(acts) && C.Runs(s.client, acts, c)
    ensures Reachable(s.(client := c))
    decreases |acts|
  {
    if acts != [] {
      var next := s.(client := C.Apply(s.client, acts[0]));
      assert E.Enabled(Project(s), E.Client(acts[0]));
      OneMore(s, Net(E.Client(acts[0])), next);
      ClientGoesOn(next, acts[1..], c);
    }
  }

  /** A step of the server that neither completes an operation nor builds a service. */
  lemma ServerGoesOn(s: State, act: A.Action, v: A.State)
    requires Reachable(s) && A.Enabled(s.server, act) && A.Apply(s.server, act) == v
    requires !act.Complete? && !Builds(s.server, act)
    ensures Reachable(s.(server := v))
  {
    OneMore(s, Serve(act, 0), s.(server := v));
  }

  // ---- the two sides ---------------------------------------------------------------------------------

  /** The client with the request's operation `k` in flight, or answered. */
  function Asking(x: C.Session, k: nat, op: C.Op): C.State {
    W.One(C.Polling, C.Idle, x, None, map[k := op], k + 1)
  }

  /** A server with a pool of one thread. */
  function Serving(pc: A.Pc, services: seq<A.Service>, token: A.Token, accepted: nat, ops: map<nat, A.Op>,
                   nextOp: nat): A.State
  {
    A.State(1, [pc, A.Running], services, A.Acceptor(true, false, token, 0, accepted, 0), ops, nextOp, false)
  }

  function Read(x: A.Service, request: string): A.Service {
    x.(request := request, conn := x.conn.(stage := Processing, request := request))
  }

  function Replying(x: A.Service): A.Service {
    x.(response := RESPONSE, conn := x.conn.(stage := Writing, response := RESPONSE))
  }

  function Both(client: C.State, server: A.State, w: Wire): State { State(client, server, [w]) }

  const ACCEPTING: map<nat, A.Op> := map[0 := A.Op(A.AcceptOp, None)]
  const REARMED: map<nat, A.Op> := map[1 := A.Op(A.ReadOp(0), None), 2 := A.Op(A.AcceptOp, None)]

  // ---- submitting and connecting ------------------------------------------------------------------------

  lemma Starts(x: C.Session)
    requires x == W.Submitted(10)
    ensures Reachable(Both(W.Unlisted(C.Polling, C.Submitting(0, C.SubLock), x, None, 0), A.Started(1), FRESH))
  {
    var s := Init(1, 1, 1);
    assert Runs(s, [], s);
    assert s.client.threads == [C.Polling, C.Idle];
    OneMore(s, Net(E.Client(C.CallSubmit(1, 7, 10))),
            Both(W.Unlisted(C.Polling, C.Submitting(0, C.SubLock), x, None, 0), A.Started(1), FRESH));
  }

  lemma Submits(x: C.Session, y: C.Session)
    requires x == W.Submitted(10) && y == x.(token := C.InFlight(0))
    ensures Reachable(Both(Asking(y, 0, W.Waiting(C.Connect, false)), A.Started(1), FRESH))
  {
    Starts(x);
    var acts := W.Submits(x, y);
    ClientGoesOn(Both(W.Unlisted(C.Polling, C.Submitting(0, C.SubLock), x, None, 0), A.Started(1), FRESH), acts,
                 Asking(y, 0, W.Waiting(C.Connect, false)));
  }

  /** The network answers the client's operation `k`, truthfully. */
  lemma Answers(x: C.Session, k: nat, kind: C.OpKind, data: string, v: A.State, w: Wire)
    requires Reachable(Both(Asking(x, k, W.Waiting(kind, false)), v, w))
    requires kind == C.Write ==> w.sent == |x.request|
    requires kind == C.ReadUntil ==> data == w.atClient && '\n' in data
    ensures Reachable(Both(Asking(x, k, W.Answered(kind, C.Success, data)), v, w))
  {
    var s := Both(Asking(x, k, W.Waiting(kind, false)), v, w);
    var act := C.Complete(k, C.Success, data);
    assert Project(s).links[0] == LinkOf(v, w);
    assert E.Enabled(Project(s), E.Client(act));
    assert s.client.ops[k := W.Answered(kind, C.Success, data)] == map[k := W.Answered(kind, C.Success, data)];
    OneMore(s, Net(E.Client(act)), Both(Asking(x, k, W.Answered(kind, C.Success, data)), v, w));
  }

  /** A successful connect or write, and the operation after it. */
  lemma MovesOn(x: C.Session, y: C.Session, k: nat, kind: C.OpKind, v: A.State, w: Wire)
    requires Reachable(Both(Asking(x, k, W.Waiting(kind, false)), v, w))
    requires kind != C.ReadUntil && x.cancelGuard == None && !x.wasCancelled
    requires kind == C.Write ==> w.sent == |x.request|
    requires y == x.(token := C.InFlight(k + 1), trail := x.trail + [C.Success])
    ensures Reachable(Both(Asking(y, k + 1, W.Waiting(C.NextKind(kind), false)), v, w))
  {
    Answers(x, k, kind, "", v, w);
    var acts := W.Continues(k, kind, x, y);
    ClientGoesOn(Both(Asking(x, k, W.Answered(kind, C.Success, "")), v, w), acts,
                 Asking(y, k + 1, W.Waiting(C.NextKind(kind), false)));
  }

  // ---- the server accepts ---------------------------------------------------------------------------------

  lemma Accepts(c: C.State)
    requires Reachable(Both(c, A.Started(1), FRESH))
    ensures Reachable(Both(c, Serving(A.Accepting(0, A.NewService), [], A.OnThread(0), 1, map[], 1), FRESH))
  {
    var done := map[0 := A.Op(A.AcceptOp, Some(A.Result(true, "", 0)))];
    assert A.Started(1) == Serving(A.Polling, [], A.InFlight(0), 0, ACCEPTING, 1);
    OneMore(Both(c, A.Started(1), FRESH), Serve(A.Complete(0, A.Result(true, "", 0)), 0),
            Both(c, Serving(A.Polling, [], A.InFlight(0), 0, done, 1), FRESH));
    assert done - {0} == map[];
    ServerGoesOn(Both(c, Serving(A.Polling, [], A.InFlight(0), 0, done, 1), FRESH), A.Dispatch(0, 0),
                 Serving(A.Accepting(0, A.NewService), [], A.OnThread(0), 1, map[], 1));
  }

  lemma Builds1(c: C.State, w: Wire)
    requires Reachable(Both(c, Serving(A.Accepting(0, A.NewService), [], A.OnThread(0), 1, map[], 1), FRESH))
    requires w == FRESH.(peer := Some(0))
    ensures Reachable(Both(c, Serving(A.Accepting(0, A.StartRead), [A.NewlyBuilt(0)], A.OnThread(0), 1, map[], 1), w))
  {
    OneMore(Both(c, Serving(A.Accepting(0, A.NewService), [], A.OnThread(0), 1, map[], 1), FRESH), Serve(A.Step(0), 0),
            Both(c, Serving(A.Accepting(0, A.StartRead), [A.NewlyBuilt(0)], A.OnThread(0), 1, map[], 1), w));
  }

  lemma StartsRead(c: C.State, x: A.Service, w: Wire)
    requires Reachable(Both(c, Serving(A.Accepting(0, A.StartRead), [A.NewlyBuilt(0)], A.OnThread(0), 1, map[], 1), w))
    requires x == A.NewlyBuilt(0).(token := A.InFlight(1))
    ensures Reachable(Both(c, Serving(A.Accepting(0, A.Rearm), [x], A.OnThread(0), 1,
                                      map[1 := A.Op(A.ReadOp(0), None)], 2), w))
  {
    var reading := map[1 := A.Op(A.ReadOp(0), None)];
    var v0 := Serving(A.Accepting(0, A.StartRead), [A.NewlyBuilt(0)], A.OnThread(0), 1, map[], 1);
    var v1 := Serving(A.Accepting(0, A.TestStop), [x], A.OnThread(0), 1, reading, 2);
    ServerGoesOn(Both(c, v0, w), A.Step(0), v1);
    ServerGoesOn(Both(c, v1, w), A.Step(0), Serving(A.Accepting(0, A.Rearm), [x], A.OnThread(0), 1, reading, 2));
  }

  lemma Rearms(c: C.State, x: A.Service, w: Wire)
    requires Reachable(Both(c, Serving(A.Accepting(0, A.Rearm), [x], A.OnThread(0), 1,
                                       map[1 := A.Op(A.ReadOp(0), None)], 2), w))
    ensures Reachable(Both(c, Serving(A.Polling, [x], A.InFlight(2), 1, REARMED, 3), w))
  {
    var reading := map[1 := A.Op(A.ReadOp(0), None)];
    var v2 := Serving(A.Accepting(0, A.Rearm), [x], A.OnThread(0), 1, reading, 2);
    var v3 := Serving(A.Accepting(0, A.AcceptDone), [x], A.InFlight(2), 1, REARMED, 3);
    assert reading[2 := A.Op(A.AcceptOp, None)] == REARMED;
    ServerGoesOn(Both(c, v2, w), A.Step(0), v3);
    ServerGoesOn(Both(c, v3, w), A.Step(0), Serving(A.Polling, [x], A.InFlight(2), 1, REARMED, 3));
  }

  // ---- the request travels ------------------------------------------------------------------------------------

  lemma Sends(x: C.Session, v: A.State, w: Wire)
    requires Reachable(Both(Asking(x, 1, W.Waiting(C.Write, false)), v, w))
    requires x.token == C.InFlight(1) && w.sent == 0
    ensures Reachable(Both(Asking(x, 1, W.Waiting(C.Write, false)), v, w.(sent := |x.request|)))
  {
    var s := Both(Asking(x, 1, W.Waiting(C.Write, false)), v, w);
    assert Project(s).links[0] == LinkOf(v, w);
    OneMore(s, Net(E.ClientSends(0, |x.request|)), Both(s.client, v, w.(sent := |x.request|)));
  }

  lemma Receives(c: C.State, v: A.State, w: Wire)
    requires Reachable(Both(c, v, w)) && |c.sessions| == 1
    requires w.peer == Some(0) && |v.services| == 1 && v.services[0].conn.stage == Reading
    requires w.atServer == "" && w.sent == |c.sessions[0].request|
    ensures Reachable(Both(c, v, w.(atServer := c.sessions[0].request)))
  {
    var s, request := Both(c, v, w), c.sessions[0].request;
    assert Project(s).links[0] == LinkOf(v, w);
    assert request[0..|request|] == request && "" + request == request;
    OneMore(s, Net(E.ServerReceives(0, |request|)), Both(c, v, w.(atServer := request)));
  }

  // ---- the server replies ---------------------------------------------------------------------------------------

  const AFTER_READ: map<nat, A.Op> := map[2 := A.Op(A.AcceptOp, None)]
  const WRITING: map<nat, A.Op> := map[2 := A.Op(A.AcceptOp, None), 3 := A.Op(A.WriteOp(0), None)]

  lemma RequestRead(c: C.State, x: A.Service, request: string, w: Wire)
    requires Reachable(Both(c, Serving(A.Polling, [x], A.InFlight(2), 1, REARMED, 3), w))
    requires w.atServer == request && '\n' in request
    ensures Reachable(Both(c, Serving(A.Polling, [x], A.InFlight(2), 1,
                                      REARMED[1 := A.Op(A.ReadOp(0), Some(A.Result(true, request, 0)))], 3), w))
  {
    var result := A.Result(true, request, 0);
    OneMore(Both(c, Serving(A.Polling, [x], A.InFlight(2), 1, REARMED, 3), w), Serve(A.Complete(1, result), 0),
            Both(c, Serving(A.Polling, [x], A.InFlight(2), 1, REARMED[1 := A.Op(A.ReadOp(0), Some(result))], 3), w));
  }

  lemma TakesRequest(c: C.State, x: A.Service, request: string, w: Wire)
    requires Reachable(Both(c, Serving(A.Polling, [x], A.InFlight(2), 1,
                                       REARMED[1 := A.Op(A.ReadOp(0), Some(A.Result(true, request, 0)))], 3), w))
    ensures Reachable(Both(c, Serving(A.Receiving(0, true, request, A.CheckRead), [x.(token := A.OnThread(0))],
                                      A.InFlight(2), 1, AFTER_READ, 3), w))
  {
    var done := REARMED[1 := A.Op(A.ReadOp(0), Some(A.Result(true, request, 0)))];
    assert done - {1} == AFTER_READ;
    ServerGoesOn(Both(c, Serving(A.Polling, [x], A.InFlight(2), 1, done, 3), w), A.Dispatch(0, 1),
                 Serving(A.Receiving(0, true, request, A.CheckRead), [x.(token := A.OnThread(0))],
                         A.InFlight(2), 1, AFTER_READ, 3));
  }

  lemma Processes(c: C.State, x: A.Service, request: string, w: Wire)
    requires Reachable(Both(c, Serving(A.Receiving(0, true, request, A.CheckRead), [x], A.InFlight(2), 1,
                                       AFTER_READ, 3), w))
    requires x.conn.stage == Reading && '\n' in request
    ensures Reachable(Both(c, Serving(A.Receiving(0, true, request, A.StartWrite), [Replying(Read(x, request))],
                                      A.InFlight(2), 1, AFTER_READ, 3), w))
  {
    var x1, x2 := Read(x, request), Replying(Read(x, request));
    var v0 := Serving(A.Receiving(0, true, request, A.CheckRead), [x], A.InFlight(2), 1, AFTER_READ, 3);
    var v1 := Serving(A.Receiving(0, true, request, A.ProcessRequest), [x1], A.InFlight(2), 1, AFTER_READ, 3);
    ServerGoesOn(Both(c, v0, w), A.Step(0), v1);
    ServerGoesOn(Both(c, v1, w), A.Step(0),
                 Serving(A.Receiving(0, true, request, A.StartWrite), [x2], A.InFlight(2), 1, AFTER_READ, 3));
  }

  lemma StartsReply(c: C.State, x: A.Service, request: string, w: Wire)
    requires Reachable(Both(c, Serving(A.Receiving(0, true, request, A.StartWrite), [x], A.InFlight(2), 1,
                                       AFTER_READ, 3), w))
    ensures Reachable(Both(c, Serving(A.Receiving(0, true, request, A.ReceiveDone), [x.(token := A.InFlight(3))],
                                      A.InFlight(2), 1, WRITING, 4), w))
  {
    assert AFTER_READ[3 := A.Op(A.WriteOp(0), None)] == WRITING;
    ServerGoesOn(Both(c, Serving(A.Receiving(0, true, request, A.StartWrite), [x], A.InFlight(2), 1, AFTER_READ, 3), w),
                 A.Step(0),
                 Serving(A.Receiving(0, true, request, A.ReceiveDone), [x.(token := A.InFlight(3))], A.InFlight(2), 1,
                         WRITING, 4));
  }

  lemma Replies(c: C.State, v: A.State, w: Wire)
    requires Reachable(Both(c, v, w)) && |c.sessions| == 1 && w.peer == Some(0) && w.replied == 0
    requires |v.services| == 1 && v.services[0].conn.stage == Writing && Writes(v, w)
    ensures Reachable(Both(c, v, w.(replied := |RESPONSE|)))
  {
    var s := Both(c, v, w);
    assert Project(s).links[0] == LinkOf(v, w);
    OneMore(s, Net(E.ServerReplies(0, |RESPONSE|)), Both(c, v, w.(replied := |RESPONSE|)));
  }

  lemma ReplyArrives(x: C.Session, v: A.State, w: Wire)
    requires Reachable(Both(Asking(x, 2, W.Waiting(C.ReadUntil, false)), v, w))
    requires x.token == C.InFlight(2) && w.replied == |RESPONSE| && w.atClient == ""
    ensures Reachable(Both(Asking(x, 2, W.Waiting(C.ReadUntil, false)), v, w.(atClient := RESPONSE)))
  {
    var s := Both(Asking(x, 2, W.Waiting(C.ReadUntil, false)), v, w);
    assert Project(s).links[0] == LinkOf(v, w);
    assert RESPONSE[0..|RESPONSE|] == RESPONSE && "" + RESPONSE == RESPONSE;
    OneMore(s, Net(E.ClientReceives(0, |RESPONSE|)), Both(s.client, v, w.(atClient := RESPONSE)));
  }

  // ---- the callback -----------------------------------------------------------------------------------------------

  lemma Reports(x: C.Session, v: A.State, w: Wire) returns (s: State)
    requires Reachable(Both(Asking(x, 2, W.Waiting(C.ReadUntil, false)), v, w)) && w.atClient == RESPONSE
    requires x.id == 7 && x.calls == [] && x.ec == C.Success && !x.wasCancelled
    ensures Reachable(s) && |s.client.sessions| == 1
    ensures s.client.sessions[0].calls == [C.Call("Response", C.Success)]
  {
    E.WholeReply(RESPONSE);
    assert RESPONSE[8] == '\n';
    Answers(x, 2, C.ReadUntil, RESPONSE, v, w);
    var y := x.(response := "Response", trail := x.trail + [C.Success], erased := true, token := C.Finished,
                calls := [C.Call("Response", C.Success)]);
    var acts := W.Finishes(2, C.ReadUntil, C.Success, RESPONSE, x, y);
    var c := W.Unlisted(W.InHand(0, C.ReadUntil, C.Success, RESPONSE, C.Unwind), C.Idle, y, None, 3);
    ClientGoesOn(Both(Asking(x, 2, W.Answered(C.ReadUntil, C.Success, RESPONSE)), v, w), acts, c);
    s := Both(c, v, w);
  }

  /** Until the write is in flight and the connection is accepted. */
  lemma Meets(x: C.Session, y: A.Service, w: Wire)
    requires x == W.Submitted(10).(token := C.InFlight(1), trail := [C.Success])
    requires y == A.NewlyBuilt(0).(token := A.InFlight(1)) && w == FRESH.(peer := Some(0))
    ensures Reachable(Both(Asking(x, 1, W.Waiting(C.Write, false)),
                           Serving(A.Polling, [y], A.InFlight(2), 1, REARMED, 3), w))
  {
    var x0 := W.Submitted(10).(token := C.InFlight(0));
    Submits(W.Submitted(10), x0);
    MovesOn(x0, x, 0, C.Connect, A.Started(1), FRESH);
    var c := Asking(x, 1, W.Waiting(C.Write, false));
    Accepts(c);
    Builds1(c, w);
    StartsRead(c, y, w);
    Rearms(c, y, w);
  }

  /** Until the request is with the server, and the client waits for the reply. */
  lemma Asks(x: C.Session, y: A.Service, w: Wire)
    requires x == W.Submitted(10).(token := C.InFlight(2), trail := [C.Success, C.Success])
    requires y == A.NewlyBuilt(0).(token := A.InFlight(1))
    requires w == FRESH.(peer := Some(0), sent := |x.request|, atServer := x.request)
    ensures Reachable(Both(Asking(x, 2, W.Waiting(C.ReadUntil, false)),
                           Serving(A.Polling, [y], A.InFlight(2), 1, REARMED, 3), w))
  {
    var x1 := W.Submitted(10).(token := C.InFlight(1), trail := [C.Success]);
    var w0 := FRESH.(peer := Some(0));
    var w1 := w0.(sent := |x.request|);
    var v := Serving(A.Polling, [y], A.InFlight(2), 1, REARMED, 3);
    Meets(x1, y, w0);
    Sends(x1, v, w0);
    Receives(Asking(x1, 1, W.Waiting(C.Write, false)), v, w1);
    MovesOn(x1, x, 1, C.Write, v, w);
  }

  /** A request can succeed: some run of client and server ends with its callback told so. */
  lemma SuccessHappens() returns (s: State)
    ensures Reachable(s) && |s.client.sessions| == 1
    ensures s.client.sessions[0].calls == [C.Call("Response", C.Success)]
  {
    var x := W.Submitted(10).(token := C.InFlight(2), trail := [C.Success, C.Success]);
    var y := A.NewlyBuilt(0).(token := A.InFlight(1));
    var w := FRESH.(peer := Some(0), sent := |x.request|, atServer := x.request);
    RequestHasOneNewline(CALC_KEYWORD, 10);
    Asks(x, y, w);
    s := Served(x, y, w);
  }

  lemma Served(x: C.Session, y: A.Service, w: Wire) returns (s: State)
    requires Reachable(Both(Asking(x, 2, W.Waiting(C.ReadUntil, false)),
                            Serving(A.Polling, [y], A.InFlight(2), 1, REARMED, 3), w))
    requires x.token == C.InFlight(2) && x.id == 7 && x.calls == [] && x.ec == C.Success && !x.wasCancelled
    requires y == A.NewlyBuilt(0).(token := A.InFlight(1)) && '\n' in x.request
    requires w.peer == Some(0) && w.atServer == x.request && w.replied == 0 && w.atClient == ""
    ensures Reachable(s) && |s.client.sessions| == 1
    ensures s.client.sessions[0].calls == [C.Call("Response", C.Success)]
  {
    var c := Asking(x, 2, W.Waiting(C.ReadUntil, false));
    var y1 := y.(token := A.OnThread(0));
    var y2 := Replying(Read(y1, x.request));
    var v := Serving(A.Receiving(0, true, x.request, A.ReceiveDone), [y2.(token := A.InFlight(3))], A.InFlight(2), 1,
                     WRITING, 4);
    RequestRead(c, y, x.request, w);
    TakesRequest(c, y, x.request, w);
    Processes(c, y1, x.request, w);
    StartsReply(c, y2, x.request, w);
    Replies(c, v, w);
    ReplyArrives(x, v, w.(replied := |RESPONSE|));
    s := Reports(x, v, w.(replied := |RESPONSE|, atClient := RESPONSE));
  }
}
