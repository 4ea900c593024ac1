/**
 The two synchronous servers. Both run an accept loop that tests a stop flag between
 blocking accepts; the iterative one serves each client inside the loop, the other in
 a detached thread per client.
 */
module SyncServers {
  import opened Connections
  import Sockets

  // ---- one client: HandleClient, the same code in both servers -----------------------------

  lemma JoinSerial(a: seq<Conn>, m1: seq<Event>, b: seq<Conn>, m2: seq<Event>, c: seq<Conn>)
    requires Serial(a, m1, b) && Serial(b, m2, c)
    ensures Serial(a, m1 + m2, c)
    decreases |m1|
  {
    if m1 == [] {
      assert m1 + m2 == m2;
    } else {
      assert (m1 + m2)[1..] == m1[1..] + m2;
      JoinSerial(Next(a, m1[0]), m1[1..], b, m2, c);
    }
  }

  lemma Append(from: seq<Conn>, trace: seq<Event>, mid: seq<Conn>, e: Event)
    requires Serial(from, trace, mid) && SerialCan(mid, e)
    ensures Serial(from, trace + [e], Next(mid, e))
  {
    assert [e][1..] == [];
    JoinSerial(from, trace, mid, [e], Next(mid, e));
  }

  /**
   `HandleClient`: read one line, process, reply; any error ends the connection. The
   moves made on the connection are recorded with the bytes the client gets.
   */
  method HandleClient(sock: Sockets.Socket, ghost from: seq<Conn>, ghost trace: seq<Event>, ghost before: seq<Conn>)
    returns (ghost after: seq<Conn>, ghost extended: seq<Event>)
    requires Serial(from, trace, before) && before != [] && before[|before| - 1] == NEW
    requires sock.outgoing == "" && !sock.failed
    modifies sock
    ensures Serial(from, extended, after) && |after| == |before|
    ensures after == before[..|before| - 1] + [after[|after| - 1]]
    ensures var conn := after[|after| - 1];
      && conn.stage == Gone && conn.sent == sock.outgoing
      && (conn.request != "" ==> old(sock.incoming) == conn.request + sock.incoming && '\n' in conn.request)
      && (sock.outgoing != "" ==> '\n' in old(sock.incoming))
      && sock.outgoing <= RESPONSE && (sock.outgoing == RESPONSE <==> !sock.failed)
  {
    ghost var c := |before| - 1;
    ghost var conn := before[c];
    after, extended := before, trace;
    var ok, request := Sockets.ReadUntil(sock, "", '\n');
    assert "" + old(sock.incoming) == old(sock.incoming);
    ghost var move := if ok then ReadLine(request) else ReadFails;
    Append(from, extended, after, At(c, move));
    after, extended := Next(after, At(c, move)), extended + [At(c, move)];
    if ok {
      Append(from, extended, after, At(c, Process));
      after, extended := Next(after, At(c, Process)), extended + [At(c, Process)];
      var sent, count := Sockets.WriteAll(sock, RESPONSE);
      assert "" + RESPONSE[..count] == RESPONSE[..count];
      move := if sent then Move.WriteAll else WriteFails(count);
      Append(from, extended, after, At(c, move));
      after, extended := Next(after, At(c, move)), extended + [At(c, move)];
    }
    Append(from, extended, after, At(c, Finish));
    after, extended := Next(after, At(c, Finish)), extended + [At(c, Finish)];
  }

  /** The client got what its connection records, and that is the reply unless an operation failed. */
  ghost predicate Served(client: Sockets.Socket, conn: Conn)
    reads client
  {
    client.outgoing == conn.sent && (client.failed || conn.sent == RESPONSE)
  }

  /**
   `Server::Run` of the iterative server, over the clients that connect. The first `clear`
   tests find the stop flag clear: that many clients are accepted, or all there are, and
   when the loop leaves they have been served one by one.
   */
  method RunIterative(clients: seq<Sockets.Socket>, clear: nat)
    returns (ghost conns: seq<Conn>, ghost trace: seq<Event>)
    requires forall i, j :: 0 <= i < j < |clients| ==> clients[i] != clients[j]
    requires forall i :: 0 <= i < |clients| ==> clients[i].outgoing == "" && !clients[i].failed
    modifies clients
    ensures |conns| == if clear < |clients| then clear else |clients|
    ensures Serial([], trace, conns) && AllGone(conns)
    ensures forall i :: 0 <= i < |conns| ==> Served(clients[i], conns[i])
    ensures forall i :: |conns| <= i < |clients| ==> clients[i].outgoing == "" && !clients[i].failed
  {
    conns, trace := [], [];
    var served := 0;
    var stop := clear == 0;
    while !stop && served < |clients|
      invariant served == |conns| <= |clients| && served <= clear && (stop <==> served == clear)
      invariant Serial([], trace, conns) && AllGone(conns)
      invariant forall i :: 0 <= i < |conns| ==> Served(clients[i], conns[i])
      invariant forall i :: |conns| <= i < |clients| ==> clients[i].outgoing == "" && !clients[i].failed
      decreases |clients| - served
    {
      ghost var accepted := conns + [NEW];
      Append([], trace, conns, Open(|conns|));
      ghost var before := conns;
      conns, trace := HandleClient(clients[served], [], trace + [Open(|conns|)], accepted);
      assert conns == before + [conns[|before|]];
      served := served + 1;
      stop := served == clear;
    }
  }

  // ---- the accept loop and its stop flag ---------------------------------------------------------

  datatype LoopAt = Testing | Accepting | Left

  /** `late` counts the connections accepted after the flag was set. */
  datatype Loop = Loop(stop: bool, at: LoopAt, conns: seq<Conn>, late: nat)

  datatype Action = SetStop | Test | Accept | Serve(conn: nat, move: Move)

  /** `iterative` servers come back to the test only when the accepted client is served. */
  predicate Enabled(iterative: bool, s: Loop, a: Action) {
    match a
    case SetStop => !s.stop
    case Test => s.at == Testing && (iterative ==> AllGone(s.conns))
    case Accept => s.at == Accepting
    case Serve(c, m) => c < |s.conns| && Can(s.conns[c], m)
  }

  function Apply(s: Loop, a: Action): Loop
    requires Enabled(false, s, a)
  {
    match a
    case SetStop => s.(stop := true)
    case Test => s.(at := if s.stop then Left else Accepting)
    case Accept => s.(conns := s.conns + [NEW], at := Testing, late := s.late + if s.stop then 1 else 0)
    case Serve(c, m) => s.(conns := s.conns[c := Do(s.conns[c], m)])
  }

  ghost predicate Runs(iterative: bool, from: Loop, acts: seq<Action>, to: Loop)
    decreases |acts|
  {
    if acts == [] then from == to
    else Enabled(iterative, from, acts[0]) && Runs(iterative, Apply(from, acts[0]), acts[1..], to)
  }

  function EventOf(s: Loop, a: Action): seq<Event> {
    match a
    case Accept => [Open(|s.conns|)]
    case Serve(c, m) => [At(c, m)]
    case _ => []
  }

  function Trace(from: Loop, acts: seq<Action>): seq<Event>
    decreases |acts|
  {
    if acts == [] || !Enabled(false, from, acts[0]) then []
    else EventOf(from, acts[0]) + Trace(Apply(from, acts[0]), acts[1..])
  }

  predicate LateOk(s: Loop) {
    if s.stop then s.late + (if s.at == Accepting then 1 else 0) <= 1 else s.late == 0 && s.at != Left
  }

  /** The connections an iterative server is no longer serving. */
  predicate OneAtATime(s: Loop) {
    forall c :: 0 <= c < |s.conns| - (if s.at == Testing then 1 else 0) ==> s.conns[c].stage == Gone
  }

  lemma {:induction false} LoopRuns(iterative: bool, from: Loop, acts: seq<Action>, to: Loop)
    requires Runs(iterative, from, acts, to) && LateOk(from) && (iterative ==> OneAtATime(from))
    ensures LateOk(to)
    ensures Parallel(from.conns, Trace(from, acts), to.conns)
    ensures iterative ==> Serial(from.conns, Trace(from, acts), to.conns)
    decreases |acts|
  {
    if acts != [] {
      var next := Apply(from, acts[0]);
      LoopRuns(iterative, next, acts[1..], to);
      var events := EventOf(from, acts[0]);
      if events == [] {
        assert events + Trace(next, acts[1..]) == Trace(next, acts[1..]);
      } else {
        assert (events + Trace(next, acts[1..]))[1..] == Trace(next, acts[1..]);
      }
    }
  }

  // ---- serial runs are runs of the iterative loop --------------------------------------------

  const STARTED: Loop := Loop(false, Testing, [], 0)

  /** The iterative server has a run that makes exactly these moves, and ends with these connections. */
  ghost predicate IterativeRun(trace: seq<Event>, conns: seq<Conn>) {
    exists acts, z :: Runs(true, STARTED, acts, z) && z.conns == conns && Trace(STARTED, acts) == trace
  }

  lemma {:induction false} LoopServes(s: Loop, trace: seq<Event>, to: seq<Conn>) returns (acts: seq<Action>, z: Loop)
    requires Serial(s.conns, trace, to) && !s.stop && s.at == Testing
    ensures Runs(true, s, acts, z) && z.conns == to && Trace(s, acts) == trace
    decreases |trace|
  {
    acts, z := [], s;
    if trace != [] {
      var e := trace[0];
      if e.Open? {
        var next := Apply(Apply(s, Test), Accept);
        var rest;
        rest, z := LoopServes(next, trace[1..], to);
        StepLoop(Apply(s, Test), Accept, rest, z);
        StepLoop(s, Test, [Accept] + rest, z);
        acts := [Test] + ([Accept] + rest);
      } else {
        var a := Serve(e.conn, e.move);
        var rest;
        rest, z := LoopServes(Apply(s, a), trace[1..], to);
        StepLoop(s, a, rest, z);
        acts := [a] + rest;
      }
      assert trace == [e] + trace[1..];
    }
  }

  lemma StepLoop(s: Loop, a: Action, rest: seq<Action>, z: Loop)
    requires Enabled(true, s, a) && Runs(true, Apply(s, a), rest, z)
    ensures Runs(true, s, [a] + rest, z)
    ensures Trace(s, [a] + rest) == EventOf(s, a) + Trace(Apply(s, a), rest)
  {
    assert ([a] + rest)[1..] == rest;
  }

  /**
   Main result: every drained side-by-side run is, up to exchanging neighbouring steps of
   different connections, a run of the iterative server's accept loop that accepts the
   same connections in the same order and leaves each with the same request and reply.
   */
  lemma ParallelIsIterative(trace: seq<Event>, conns: seq<Conn>)
    requires Parallel([], trace, conns) && AllGone(conns)
    ensures Reorders(trace, Serialize(trace)) && IterativeRun(Serialize(trace), conns)
  {
    ParallelIsSerial(trace, conns);
    var acts, z := LoopServes(STARTED, Serialize(trace), conns);
  }

  /** The iterative loop's runs are exactly the serial runs of its connections. */
  lemma IterativeMeansSerial(trace: seq<Event>, conns: seq<Conn>)
    ensures IterativeRun(trace, conns) <==> Serial([], trace, conns)
  {
    if IterativeRun(trace, conns) {
      var acts, z :| Runs(true, STARTED, acts, z) && z.conns == conns && Trace(STARTED, acts) == trace;
      LoopRuns(true, STARTED, acts, z);
    }
    if Serial([], trace, conns) {
      var acts, z := LoopServes(STARTED, trace, conns);
    }
  }

  /**
   Thread per client or one by one, both loops accept at most one connection after
   `Stop` set the flag; and a drained thread-per-client run is a run of the iterative loop
   up to exchanging steps of different connections.
   */
  lemma SyncServersAgree(iterative: bool, acts: seq<Action>, s: Loop)
    requires Runs(iterative, STARTED, acts, s)
    ensures s.late <= 1
    ensures var trace := Trace(STARTED, acts);
      && (iterative ==> Serial([], trace, s.conns))
      && (AllGone(s.conns) ==> Reorders(trace, Serialize(trace)) && IterativeRun(Serialize(trace), s.conns))
  {
    LoopRuns(iterative, STARTED, acts, s);
    if AllGone(s.conns) {
      ParallelIsIterative(Trace(STARTED, acts), s.conns);
    }
  }

  /** A loop blocked in accept when the flag is set needs one more client before `Stop` can join it. */
  lemma {:induction false} StopWaitsForAClient(from: Loop, acts: seq<Action>, to: Loop)
    requires Runs(false, from, acts, to) && from.at == Accepting
    ensures to.at == Left ==> Accept in acts
    decreases |acts|
  {
    if acts != [] && acts[0] != Accept {
      StopWaitsForAClient(Apply(from, acts[0]), acts[1..], to);
    }
  }

  // ---- stopping ends the loop ------------------------------------------------------------------

  function ConnLeft(c: Conn): nat {
    match c.stage
    case Reading => 4
    case Processing => 3
    case Writing => 2
    case Finishing => 1
    case Gone => 0
  }

  function ConnsLeft(conns: seq<Conn>): nat {
    if conns == [] then 0 else ConnLeft(conns[0]) + ConnsLeft(conns[1..])
  }

  lemma {:induction false} ConnsLeftUpdate(conns: seq<Conn>, c: nat, conn: Conn)
    requires c < |conns|
    ensures ConnsLeft(conns[c := conn]) + ConnLeft(conns[c]) == ConnsLeft(conns) + ConnLeft(conn)
  {
    if c > 0 {
      assert conns[c := conn][1..] == conns[1..][c - 1 := conn];
      ConnsLeftUpdate(conns[1..], c - 1, conn);
    } else {
      assert conns[c := conn][1..] == conns[1..];
    }
  }

  lemma {:induction false} ConnsLeftAppend(conns: seq<Conn>, conn: Conn)
    ensures ConnsLeft(conns + [conn]) == ConnsLeft(conns) + ConnLeft(conn)
  {
    if conns != [] {
      assert (conns + [conn])[1..] == conns[1..] + [conn];
      ConnsLeftAppend(conns[1..], conn);
    } else {
      assert [conn][1..] == [];
    }
  }

  /** What the loop and its clients still have to do once the flag is set. */
  function LoopLeft(s: Loop): nat {
    ConnsLeft(s.conns) + match s.at case Testing => 1 case Accepting => 6 case Left => 0
  }

  lemma {:induction false} StoppingRuns(iterative: bool, from: Loop, acts: seq<Action>, to: Loop)
    requires Runs(iterative, from, acts, to) && from.stop
    ensures to.stop && |acts| + LoopLeft(to) <= LoopLeft(from)
    decreases |acts|
  {
    if acts != [] {
      match acts[0] {
        case Accept => ConnsLeftAppend(from.conns, NEW);
        case Serve(c, m) => ConnsLeftUpdate(from.conns, c, Do(from.conns[c], m));
        case _ =>
      }
      StoppingRuns(iterative, Apply(from, acts[0]), acts[1..], to);
    }
  }

  lemma SomethingToServe(s: Loop, c: nat) returns (m: Move)
    requires c < |s.conns| && s.conns[c].stage != Gone
    ensures Enabled(true, s, Serve(c, m)) && Enabled(false, s, Serve(c, m))
  {
    m := match s.conns[c].stage
      case Reading => ReadFails
      case Processing => Process
      case Writing => WriteFails(0)
      case Finishing => Finish
      case Gone => Finish;
  }

  /**
   Main result: from the call of `Stop` on, every schedule of either server ends. Where only
   a new client could make it go on, all accepted clients are done with, and the loop has
   left, so that `Stop` can join it, or is blocked in accept.
   */
  lemma StopEndsTheLoop(iterative: bool, s: Loop, acts: seq<Action>, to: Loop)
    requires Enabled(iterative, s, SetStop) && Runs(iterative, Apply(s, SetStop), acts, to)
    ensures |acts| <= LoopLeft(s) && to.stop
    ensures (forall a :: Enabled(iterative, to, a) ==> a == Accept) ==> AllGone(to.conns) && to.at != Testing
    ensures (forall a :: !Enabled(iterative, to, a)) ==> to.at == Left
  {
    StoppingRuns(iterative, Apply(s, SetStop), acts, to);
    if forall a :: Enabled(iterative, to, a) ==> a == Accept {
      forall c | 0 <= c < |to.conns| ensures to.conns[c].stage == Gone {
        if to.conns[c].stage != Gone {
          var m := SomethingToServe(to, c);
        }
      }
      assert !Enabled(iterative, to, Test);
      assert to.at == Accepting ==> Enabled(iterative, to, Accept);
    }
  }

  /** The flag is tested at most once more after it is set. */
  lemma {:induction false} OneMoreTest(iterative: bool, from: Loop, acts: seq<Action>, to: Loop)
    requires Runs(iterative, from, acts, to) && from.stop
    ensures multiset(acts)[Test] <= (if from.at == Left then 0 else 1)
    decreases |acts|
  {
    if acts != [] {
      assert acts == [acts[0]] + acts[1..];
      OneMoreTest(iterative, Apply(from, acts[0]), acts[1..], to);
    }
  }
}
