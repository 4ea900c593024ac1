/**
 Messages delimited by a half-close (section 3.6 of RFC 9293): the client writes its
 request, shuts down its sending side and reads to the end of the stream; the server reads to
 the end of the stream, replies and shuts down its own sending side. Messages are
 arbitrary bytes. A channel holds at most `capacity` bytes, reads and writes move any
 positive number of bytes, and a transport error may break the connection at any time.
 */
module HalfClose {

  type Bytes = seq<bv8>

  /** One direction: bytes on their way, and whether the sender has shut down behind them. */
  datatype Channel = Channel(bytes: Bytes, shut: bool, capacity: nat)

  datatype Phase = Writing(sent: nat) | Shutting | Reading | Done | Failed

  /** One program: what it sends, what it has received, and where it is. */
  datatype Party = Party(message: Bytes, received: Bytes, phase: Phase)

  datatype State = State(client: Party, server: Party, up: Channel, down: Channel, broken: bool)

  datatype Action =
    | ClientWrites(count: nat) | ClientShuts | ClientReads(count: nat) | ClientSeesEof
    | ServerReads(count: nat) | ServerSeesEof | ServerWrites(count: nat) | ServerShuts
    | Break | ClientFails | ServerFails

  function Start(request: Bytes, response: Bytes, upCapacity: nat, downCapacity: nat): State {
    State(Party(request, [], AfterWriting(request, 0)), Party(response, [], Reading),
          Channel([], false, upCapacity), Channel([], false, downCapacity), false)
  }

  /** `asio::write` returns when all bytes are sent. */
  function AfterWriting(message: Bytes, sent: nat): Phase {
    if sent < |message| then Writing(sent) else Shutting
  }

  predicate CanWrite(p: Party, c: Channel, count: nat) {
    && p.phase.Writing? && 1 <= count && p.phase.sent + count <= |p.message|
    && |c.bytes| + count <= c.capacity
  }

  function Written(p: Party, count: nat): Party
    requires p.phase.Writing?
  {
    p.(phase := AfterWriting(p.message, p.phase.sent + count))
  }

  function Carrying(p: Party, c: Channel, count: nat): Channel
    requires p.phase.Writing? && p.phase.sent + count <= |p.message|
  {
    c.(bytes := c.bytes + p.message[p.phase.sent..p.phase.sent + count])
  }

  predicate CanRead(p: Party, c: Channel, count: nat) {
    p.phase == Reading && 1 <= count <= |c.bytes|
  }

  predicate CanSeeEof(p: Party, c: Channel) {
    p.phase == Reading && c.bytes == [] && c.shut
  }

  predicate InCall(p: Party) {
    p.phase != Done && p.phase != Failed
  }

  predicate Enabled(s: State, a: Action) {
    match a
    case ClientWrites(n) => !s.broken && CanWrite(s.client, s.up, n)
    case ClientShuts => !s.broken && s.client.phase == Shutting
    case ClientReads(n) => CanRead(s.client, s.down, n)
    case ClientSeesEof => CanSeeEof(s.client, s.down)
    case ServerReads(n) => CanRead(s.server, s.up, n)
    case ServerSeesEof => CanSeeEof(s.server, s.up)
    case ServerWrites(n) => !s.broken && CanWrite(s.server, s.down, n)
    case ServerShuts => !s.broken && s.server.phase == Shutting
    case Break => !s.broken
    case ClientFails => s.broken && InCall(s.client)
    case ServerFails => s.broken && InCall(s.server)
  }

  function Apply(s: State, a: Action): State
    requires Enabled(s, a)
  {
    match a
    case ClientWrites(n) => s.(client := Written(s.client, n), up := Carrying(s.client, s.up, n))
    case ClientShuts => s.(client := s.client.(phase := Reading), up := s.up.(shut := true))
    case ClientReads(n) =>
      s.(client := s.client.(received := s.client.received + s.down.bytes[..n]),
         down := s.down.(bytes := s.down.bytes[n..]))
    case ClientSeesEof => s.(client := s.client.(phase := Done))
    case ServerReads(n) =>
      s.(server := s.server.(received := s.server.received + s.up.bytes[..n]),
         up := s.up.(bytes := s.up.bytes[n..]))
    case ServerSeesEof => s.(server := s.server.(phase := AfterWriting(s.server.message, 0)))
    case ServerWrites(n) => s.(server := Written(s.server, n), down := Carrying(s.server, s.down, n))
    case ServerShuts => s.(server := s.server.(phase := Done), down := s.down.(shut := true))
    case Break => s.(broken := true)
    case ClientFails => s.(client := s.client.(phase := Failed))
    case ServerFails => s.(server := s.server.(phase := Failed))
  }

  ghost predicate Runs(from: State, acts: seq<Action>, to: State)
    decreases |acts|
  {
    if acts == [] then from == to
    else Enabled(from, acts[0]) && Runs(Apply(from, acts[0]), acts[1..], to)
  }

  // ---- safety ----------------------------------------------------------------------------

  /** What `p` has put into the channel so far, as a prefix of its message. */
  ghost predicate Delivers(p: Party, c: Channel, received: Bytes) {
    && received + c.bytes <= p.message
    && (p.phase.Writing? ==> p.phase.sent < |p.message| && |received + c.bytes| == p.phase.sent)
    && (p.phase == Shutting || c.shut ==> received + c.bytes == p.message)
  }

  ghost predicate Inv(s: State) {
    && Delivers(s.client, s.up, s.server.received)
    && Delivers(s.server, s.down, s.client.received)
    && (s.client.phase in {Reading, Done} ==> s.up.shut)
    && (s.up.shut ==> s.client.phase in {Reading, Done, Failed})
    && (s.client.phase == Done ==> s.client.received == s.server.message && s.down.bytes == [] && s.down.shut)
    && (s.server.phase == Done ==> s.down.shut)
    && (s.down.shut ==> s.server.phase == Done)
    && (s.server.phase == Reading ==> s.client.received == [] && s.down.bytes == [] && !s.down.shut)
    && (s.server.phase == Failed ==> s.broken) && (s.client.phase == Failed ==> s.broken)
    && (s.server.phase !in {Reading, Failed} ==> s.server.received == s.client.message)
    && (s.client.received + s.down.bytes != [] ==> s.server.received == s.client.message)
  }

  lemma InvStart(request: Bytes, response: Bytes, upCapacity: nat, downCapacity: nat)
    ensures Inv(Start(request, response, upCapacity, downCapacity))
  {
  }

  lemma WriteDelivers(p: Party, c: Channel, received: Bytes, count: nat)
    requires Delivers(p, c, received) && CanWrite(p, c, count) && !c.shut
    ensures Delivers(Written(p, count), Carrying(p, c, count), received)
  {
    var chunk := p.message[p.phase.sent..p.phase.sent + count];
    assert received + c.bytes == p.message[..p.phase.sent];
    assert received + (c.bytes + chunk) == p.message[..p.phase.sent + count];
    if p.phase.sent + count == |p.message| {
      assert p.message[..p.phase.sent + count] == p.message;
    }
  }

  lemma ReadDelivers(p: Party, c: Channel, received: Bytes, count: nat)
    requires Delivers(p, c, received) && count <= |c.bytes|
    ensures Delivers(p, c.(bytes := c.bytes[count..]), received + c.bytes[..count])
    ensures (received + c.bytes[..count]) + c.bytes[count..] == received + c.bytes
  {
    assert (received + c.bytes[..count]) + c.bytes[count..] == received + c.bytes;
  }

  lemma MoveBytesKeepsInv(s: State, a: Action)
    requires Inv(s) && Enabled(s, a) && (a.ClientWrites? || a.ClientReads? || a.ServerReads? || a.ServerWrites?)
    ensures Inv(Apply(s, a))
  {
    match a
    case ClientWrites(n) => WriteDelivers(s.client, s.up, s.server.received, n);
    case ClientReads(n) => ReadDelivers(s.server, s.down, s.client.received, n);
    case ServerReads(n) => ReadDelivers(s.client, s.up, s.server.received, n);
    case ServerWrites(n) => WriteDelivers(s.server, s.down, s.client.received, n);
  }

  lemma InvStep(s: State, a: Action)
    requires Inv(s) && Enabled(s, a)
    ensures Inv(Apply(s, a))
  {
    if a.ClientWrites? || a.ClientReads? || a.ServerReads? || a.ServerWrites? {
      MoveBytesKeepsInv(s, a);
    } else if a.ServerSeesEof? {
      assert s.server.received + [] == s.server.received;
    } else if a.ClientSeesEof? {
      assert s.client.received + [] == s.client.received;
    }
  }

  lemma {:induction false} InvRuns(from: State, acts: seq<Action>, to: State)
    requires Inv(from) && Runs(from, acts, to)
    ensures Inv(to)
    ensures to.client.message == from.client.message && to.server.message == from.server.message
    ensures to.up.capacity == from.up.capacity && to.down.capacity == from.down.capacity
    ensures !to.broken ==> !from.broken && Break !in acts
    decreases |acts|
  {
    if acts != [] {
      InvStep(from, acts[0]);
      InvRuns(Apply(from, acts[0]), acts[1..], to);
    }
  }

  /**
   Whoever accepts the end of the stream holds its peer's whole message, whatever its
   bytes, the chunks and the errors; and the reply starts only after the whole request.
   */
  lemma EofMeansWholeMessage(request: Bytes, response: Bytes, upCapacity: nat, downCapacity: nat,
                             acts: seq<Action>, s: State)
    requires Runs(Start(request, response, upCapacity, downCapacity), acts, s)
    ensures CanSeeEof(s.server, s.up) ==> s.server.received == request
    ensures CanSeeEof(s.client, s.down) ==> s.client.received == response
    ensures s.client.phase == Done ==> s.client.received == response && s.server.received == request
    ensures s.client.received + s.down.bytes != [] || s.server.phase.Writing? ==> s.server.received == request
  {
    InvStart(request, response, upCapacity, downCapacity);
    InvRuns(Start(request, response, upCapacity, downCapacity), acts, s);
    assert s.server.received + [] == s.server.received && s.client.received + [] == s.client.received;
  }

  // ---- progress --------------------------------------------------------------------------------

  /** Every byte of the two messages can eventually get into its channel. */
  predicate RoomToMove(s: State) {
    && (s.client.message != [] ==> s.up.capacity > 0)
    && (s.server.message != [] ==> s.down.capacity > 0)
  }

  /** Client and server never wait for each other: one of them can move, or both are done. */
  lemma NeverBothBlocked(s: State)
    requires Inv(s) && !s.broken && RoomToMove(s)
    requires s.client.phase != Done || s.server.phase != Done
    ensures exists a :: Enabled(s, a) && a != Break
  {
    if s.client.phase.Writing? {
      if |s.up.bytes| < s.up.capacity {
        assert Enabled(s, ClientWrites(1));
      } else {
        assert s.server.phase == Reading;
        assert Enabled(s, ServerReads(1));
      }
    } else if s.client.phase == Shutting {
      assert Enabled(s, ClientShuts);
    } else if s.server.phase == Reading {
      assert Enabled(s, if s.up.bytes == [] then ServerSeesEof else ServerReads(1));
    } else if s.client.phase == Reading && s.down.bytes != [] {
      assert Enabled(s, ClientReads(1));
    } else if s.server.phase.Writing? {
      assert Enabled(s, ServerWrites(1));
    } else if s.server.phase == Shutting {
      assert Enabled(s, ServerShuts);
    } else {
      assert Enabled(s, ClientSeesEof);
    }
  }

  function ClientLeft(p: Party): nat {
    match p.phase
    case Writing(sent) => if sent <= |p.message| then 4 + 2 * (|p.message| - sent) else 4
    case Shutting => 3
    case Reading => 2
    case _ => 0
  }

  function ServerLeft(p: Party): nat {
    match p.phase
    case Reading => 4 + 2 * |p.message|
    case Writing(sent) => if sent <= |p.message| then 3 + 2 * (|p.message| - sent) else 3
    case Shutting => 2
    case _ => 0
  }

  /** Bytes still to be written, bytes on their way, and phases to go. */
  function Remaining(s: State): nat {
    ClientLeft(s.client) + ServerLeft(s.server) + |s.up.bytes| + |s.down.bytes| + if s.broken then 0 else 1
  }

  lemma ActionProgresses(s: State, a: Action)
    requires Enabled(s, a)
    ensures Remaining(Apply(s, a)) < Remaining(s)
  {
  }

  lemma {:induction false} RunsAreFinite(from: State, acts: seq<Action>, to: State)
    requires Runs(from, acts, to)
    ensures |acts| + Remaining(to) <= Remaining(from)
    decreases |acts|
  {
    if acts != [] {
      ActionProgresses(from, acts[0]);
      RunsAreFinite(Apply(from, acts[0]), acts[1..], to);
    }
  }

  /**
   Every schedule ends, and without transport errors it ends with both programs done and
   each holding the other's message.
   */
  lemma BothFinish(request: Bytes, response: Bytes, upCapacity: nat, downCapacity: nat,
                   acts: seq<Action>, s: State)
    requires (request != [] ==> upCapacity > 0) && (response != [] ==> downCapacity > 0)
    requires Runs(Start(request, response, upCapacity, downCapacity), acts, s)
    ensures |acts| <= Remaining(Start(request, response, upCapacity, downCapacity))
    ensures !s.broken && (forall a :: Enabled(s, a) ==> a == Break) ==>
      && s.client.phase == Done && s.server.phase == Done
      && s.client.received == response && s.server.received == request
  {
    var from := Start(request, response, upCapacity, downCapacity);
    InvStart(request, response, upCapacity, downCapacity);
    InvRuns(from, acts, s);
    RunsAreFinite(from, acts, s);
    if !s.broken && (forall a :: Enabled(s, a) ==> a == Break) {
      if s.client.phase != Done || s.server.phase != Done {
        NeverBothBlocked(s);
      }
    }
  }

  /** A writer whose channel has no room never gets anywhere. */
  lemma {:induction false} NoRoomNoFinish(from: State, acts: seq<Action>, to: State)
    requires Runs(from, acts, to)
    requires || (from.up.capacity == 0 && from.client.phase in {Writing(0), Failed})
             || (from.down.capacity == 0 && from.server.message != []
                 && from.server.phase in {Reading, Writing(0), Failed})
    ensures to.client.phase != Done || to.server.phase != Done
    decreases |acts|
  {
    if acts != [] {
      NoRoomNoFinish(Apply(from, acts[0]), acts[1..], to);
    }
  }

  lemma {:induction false} FinishFrom(s: State) returns (acts: seq<Action>, z: State)
    requires Inv(s) && !s.broken && RoomToMove(s)
    ensures Runs(s, acts, z) && z.client.phase == Done && z.server.phase == Done
    decreases Remaining(s)
  {
    acts, z := [], s;
    if s.client.phase != Done || s.server.phase != Done {
      NeverBothBlocked(s);
      var a :| Enabled(s, a) && a != Break;
      ActionProgresses(s, a);
      InvStep(s, a);
      acts, z := FinishFrom(Apply(s, a));
      acts := [a] + acts;
      assert acts[1..] == acts[1..][..];
    }
  }

  ghost predicate CanFinish(from: State) {
    exists acts, s :: Runs(from, acts, s) && s.client.phase == Done && s.server.phase == Done
  }

  /** The exchange can succeed exactly when every non-empty message has a channel with room. */
  lemma FinishesExactly(request: Bytes, response: Bytes, upCapacity: nat, downCapacity: nat)
    ensures CanFinish(Start(request, response, upCapacity, downCapacity))
            <==> (request == [] || upCapacity > 0) && (response == [] || downCapacity > 0)
  {
    var from := Start(request, response, upCapacity, downCapacity);
    InvStart(request, response, upCapacity, downCapacity);
    if RoomToMove(from) {
      var acts, s := FinishFrom(from);
      assert CanFinish(from);
    } else if CanFinish(from) {
      var acts, s :| Runs(from, acts, s) && s.client.phase == Done && s.server.phase == Done;
      NoRoomNoFinish(from, acts, s);
    }
  }
}

/** The two programs as they run: loops over a socket that the peer and the network feed. */
module HalfClosePrograms {
  import opened HalfClose

  class Socket {
    var incoming: Bytes     // what the peer has sent, or will have sent, and is not read yet
    var peerShut: bool      // the peer has shut down its sending side behind those bytes
    var outgoing: Bytes
    var shut: bool
    ghost var failed: bool  // some operation has reported an error

    constructor (incoming: Bytes, peerShut: bool)
      ensures this.incoming == incoming && this.peerShut == peerShut && outgoing == [] && !shut && !failed
    {
      this.incoming, this.peerShut, outgoing, shut, failed := incoming, peerShut, [], false, false;
    }

    /** `asio::write`: everything, or an error after a part. */
    method Write(message: Bytes) returns (ok: bool)
      requires !shut
      modifies this`outgoing, this`failed
      ensures old(outgoing) <= outgoing <= old(outgoing) + message
      ensures ok <==> outgoing == old(outgoing) + message
      ensures failed == (old(failed) || !ok)
    {
      var total := 0;
      while total < |message|
        invariant failed == old(failed)
        invariant total <= |message| && outgoing == old(outgoing) + message[..total]
      {
        if * {
          failed := true;
          return false;
        }
        var count: nat :| 1 <= count && total + count <= |message|;
        assert message[..total] + message[total..total + count] == message[..total + count];
        outgoing := outgoing + message[total..total + count];
        total := total + count;
      }
      assert message[..total] == message;
      ok := true;
    }

    method ShutdownSend()
      modifies this`shut
      ensures shut
    {
      shut := true;
    }

    /** `asio::read` into a growing buffer: until the end of the stream, or an error. */
    method ReadAll() returns (eof: bool, data: Bytes)
      modifies this`incoming, this`failed
      ensures old(incoming) == data + incoming
      ensures failed == (old(failed) || !eof)
      ensures eof ==> peerShut && incoming == []
    {
      data := [];
      while incoming != []
        invariant old(incoming) == data + incoming && failed == old(failed)
        decreases |incoming|
      {
        if * {
          failed := true;
          return false, data;
        }
        var count: nat :| 1 <= count <= |incoming|;
        data, incoming := data + incoming[..count], incoming[count..];
      }
      eof := *;
      eof := eof && peerShut;
      failed := failed || !eof;
    }
  }

  /** `communicate`: the response is accepted only at the end of the stream, and then it is all of it. */
  method Communicate(sock: Socket, request: Bytes) returns (ok: bool, response: Bytes)
    requires !sock.shut && sock.outgoing == [] && !sock.failed
    modifies sock
    ensures ok <==> !sock.failed
    ensures ok ==> sock.peerShut && response == old(sock.incoming) && sock.incoming == []
    ensures (sock.shut <==> sock.outgoing == request) && (ok ==> sock.shut)
    ensures sock.outgoing <= request
  {
    response := [];
    ok := sock.Write(request);
    if ok {
      sock.ShutdownSend();
      ok, response := sock.ReadAll();
    }
  }

  /** `processRequest`: nothing is written unless the whole request has been received. */
  method ProcessRequest(sock: Socket, response: Bytes) returns (ok: bool, request: Bytes)
    requires !sock.shut && sock.outgoing == [] && !sock.failed
    modifies sock
    ensures ok <==> !sock.failed
    ensures sock.shut <==> ok
    ensures sock.outgoing != [] || sock.shut ==> sock.peerShut && request == old(sock.incoming)
    ensures ok ==> sock.outgoing == response && request == old(sock.incoming) && sock.incoming == []
    ensures sock.outgoing <= response
  {
    ok, request := sock.ReadAll();
    if !ok {
      return;
    }
    ok := sock.Write(response);
    if ok {
      sock.ShutdownSend();
    }
  }
}
