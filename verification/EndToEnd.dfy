/**
 The asynchronous client talking to a server of chapter 4: each session has its own pair
 of byte streams and a connection on the server's side, which makes the moves that all
 three servers make. Chunks, interleavings and errors are arbitrary.
 */
module EndToEnd {
  import opened Text
  import C = ClientModel
  import I = ClientInvariant
  import opened ClientResults
  import opened Connections

  /** One session's connection; `sent` and `replied` count the bytes put into the two streams. */
  datatype Link = Link(sent: nat, atServer: string, conn: Conn, replied: nat, atClient: string)

  datatype State = State(client: C.State, links: seq<Link>)

  datatype Action =
    | Client(act: C.Action)
    | ClientSends(sid: nat, count: nat)
    | ServerReceives(sid: nat, count: nat)
    | ServerMoves(sid: nat, move: Move)
    | ServerReplies(sid: nat, count: nat)
    | ClientReceives(sid: nat, count: nat)

  const FRESH: Link := Link(0, "", NEW, 0, "")

  function Init(ioThreads: nat, userThreads: nat): State {
    State(C.Init(ioThreads, userThreads), [])
  }

  /** The session's operation of this kind is in flight. */
  predicate InFlight(s: C.State, sid: nat, kind: C.OpKind) {
    && sid < |s.sessions| && s.sessions[sid].token.InFlight? && s.sessions[sid].token.k in s.ops
    && s.ops[s.sessions[sid].token.k].kind == kind && s.ops[s.sessions[sid].token.k].state.Pending?
  }

  /** A write succeeds when all bytes are in the stream; a read returns the bytes received. */
  predicate Truthful(s: State, a: C.Action) {
    a.Complete? && a.k in s.client.ops && a.ec == C.Success && s.client.ops[a.k].sid < |s.links|
      && s.client.ops[a.k].sid < |s.client.sessions| ==>
      var sid := s.client.ops[a.k].sid;
      && (s.client.ops[a.k].kind == C.Write ==> s.links[sid].sent == |s.client.sessions[sid].request|)
      && (s.client.ops[a.k].kind == C.ReadUntil ==> a.data == s.links[sid].atClient)
  }

  /** What a move of the network or of the server needs of its link. */
  predicate CanMove(request: string, l: Link, a: Action) {
    match a
    case Client(_) => false
    case ClientSends(_, n) => l.sent + n <= |request|
    case ServerReceives(_, n) =>
      l.conn.stage == Reading && '\n' !in l.atServer && |l.atServer| + n <= l.sent <= |request|
    case ServerMoves(_, m) =>
      && Can(l.conn, m)
      && (m.ReadLine? ==> m.data == l.atServer)
      && (m.WriteAll? ==> l.replied == |RESPONSE|)
      && (m.WriteFails? ==> l.replied == m.count)
    case ServerReplies(_, n) => l.conn.stage == Writing && l.replied + n <= |RESPONSE|
    case ClientReceives(_, n) => |l.atClient| + n <= l.replied <= |RESPONSE|
  }

  function Moved(request: string, l: Link, a: Action): Link
    requires CanMove(request, l, a)
  {
    match a
    case ClientSends(_, n) => l.(sent := l.sent + n)
    case ServerReceives(_, n) => l.(atServer := l.atServer + request[|l.atServer|..|l.atServer| + n])
    case ServerMoves(_, m) => l.(conn := Do(l.conn, m))
    case ServerReplies(_, n) => l.(replied := l.replied + n)
    case ClientReceives(_, n) => l.(atClient := l.atClient + RESPONSE[|l.atClient|..|l.atClient| + n])
  }

  predicate Enabled(s: State, a: Action) {
    if a.Client? then C.Enabled(s.client, a.act) && Truthful(s, a.act)
    else
      && a.sid < |s.links| && a.sid < |s.client.sessions|
      && CanMove(s.client.sessions[a.sid].request, s.links[a.sid], a)
      && (a.ClientSends? ==> InFlight(s.client, a.sid, C.Write))
      && (a.ClientReceives? ==> InFlight(s.client, a.sid, C.ReadUntil))
  }

  function Apply(s: State, a: Action): State
    requires Enabled(s, a)
  {
    if a.Client? then
      State(C.Apply(s.client, a.act), if a.act.CallSubmit? then s.links + [FRESH] else s.links)
    else SetLink(s, a.sid, Moved(s.client.sessions[a.sid].request, s.links[a.sid], a))
  }

  function SetLink(s: State, sid: nat, l: Link): State
    requires sid < |s.links|
  {
    s.(links := s.links[sid := l])
  }

  ghost predicate Runs(from: State, acts: seq<Action>, to: State)
    decreases |acts|
  {
    if acts == [] then from == to
    else Enabled(from, acts[0]) && Runs(Apply(from, acts[0]), acts[1..], to)
  }

  // ---- the invariant ------------------------------------------------------------------------

  ghost predicate IsRequest(request: string) {
    exists duration: nat :: request == Request(CALC_KEYWORD, duration)
  }

  /** The streams are FIFO, and no reply precedes its request. */
  predicate LinkOk(request: string, l: Link) {
    && l.sent <= |request| && l.atServer <= request
    && l.replied <= |RESPONSE| && l.atClient <= RESPONSE && |l.atClient| <= l.replied
    && (l.replied > 0 || l.conn.stage == Writing || l.conn.stage == Processing ==>
          '\n' in l.conn.request && l.conn.request <= request)
  }

  ghost predicate Inv(s: State) {
    && I.Inv(s.client) && |s.links| == |s.client.sessions|
    && (forall sid :: 0 <= sid < |s.links| ==>
          && IsRequest(s.client.sessions[sid].request)
          && LinkOk(s.client.sessions[sid].request, s.links[sid])
          && ReadOk(s.client, sid, s.links[sid].atClient))
  }

  lemma ClientKeepsInv(s: State, act: C.Action)
    requires Inv(s) && Enabled(s, Client(act))
    ensures Inv(Apply(s, Client(act)))
  {
    var z := Apply(s, Client(act));
    I.InvStep(s.client, act);
    forall sid | 0 <= sid < |s.links|
      ensures |z.client.sessions| >= |s.links|
              && z.client.sessions[sid].request == s.client.sessions[sid].request
              && ReadOk(z.client, sid, s.links[sid].atClient)
    {
      ReadStays(s.client, act, sid, s.links[sid].atClient);
      RequestStays(s.client, act, sid);
    }
    SessionCount(s.client, act);
    if act.CallSubmit? {
      assert IsRequest(Request(CALC_KEYWORD, act.duration));
    }
  }

  lemma RequestStays(s: C.State, act: C.Action, sid: nat)
    requires I.Inv(s) && C.Enabled(s, act) && sid < |s.sessions|
    ensures |C.Apply(s, act).sessions| >= |s.sessions|
    ensures C.Apply(s, act).sessions[sid].request == s.sessions[sid].request
  {
    I.ActionGuarantee(s, act, sid);
  }

  lemma SessionCount(s: C.State, act: C.Action)
    requires C.Enabled(s, act)
    ensures var z := C.Apply(s, act);
      if act.CallSubmit? then
        z.sessions == s.sessions + [C.NewSession(act.t, act.id, Request(CALC_KEYWORD, act.duration))]
      else |z.sessions| == |s.sessions|
  {
  }

  /** A step of the network or of the server touches one link. */
  lemma LinkKeepsInv(s: State, sid: nat, l: Link)
    requires Inv(s) && sid < |s.links|
    requires LinkOk(s.client.sessions[sid].request, l) && ReadOk(s.client, sid, l.atClient)
    ensures Inv(SetLink(s, sid, l))
  {
  }

  lemma ServerMoveKeepsLink(request: string, l: Link, a: Action)
    requires LinkOk(request, l) && CanMove(request, l, a) && a.ServerMoves?
    ensures LinkOk(request, Moved(request, l, a))
  {
  }

  lemma MoveKeepsLink(request: string, l: Link, a: Action)
    requires LinkOk(request, l) && CanMove(request, l, a)
    ensures LinkOk(request, Moved(request, l, a))
  {
    match a
    case ServerReceives(_, n) =>
      assert l.atServer + request[|l.atServer|..|l.atServer| + n] == request[..|l.atServer| + n];
    case ServerMoves(_, _) => ServerMoveKeepsLink(request, l, a);
    case ClientReceives(_, n) =>
      assert l.atClient + RESPONSE[|l.atClient|..|l.atClient| + n] == RESPONSE[..|l.atClient| + n];
    case _ =>
  }

  /** What the client holds is untouched, or still arriving. */
  lemma MoveKeepsRead(s: State, a: Action)
    requires Enabled(s, a) && !a.Client? && ReadOk(s.client, a.sid, s.links[a.sid].atClient)
    ensures ReadOk(s.client, a.sid, Apply(s, a).links[a.sid].atClient)
  {
  }

  lemma MoveKeepsInv(s: State, a: Action)
    requires Inv(s) && Enabled(s, a) && !a.Client?
    ensures Inv(Apply(s, a))
  {
    var request, l := s.client.sessions[a.sid].request, s.links[a.sid];
    assert LinkOk(request, l) && ReadOk(s.client, a.sid, l.atClient);
    MoveKeepsLink(request, l, a);
    MoveKeepsRead(s, a);
    LinkKeepsInv(s, a.sid, Moved(request, l, a));
  }

  lemma InvStep(s: State, a: Action)
    requires Inv(s) && Enabled(s, a)
    ensures Inv(Apply(s, a))
  {
    if a.Client? {
      ClientKeepsInv(s, a.act);
    } else {
      MoveKeepsInv(s, a);
    }
  }

  lemma {:induction false} InvRuns(from: State, acts: seq<Action>, to: State)
    requires Inv(from) && Runs(from, acts, to)
    ensures Inv(to)
    decreases |acts|
  {
    if acts != [] {
      InvStep(from, acts[0]);
      InvRuns(Apply(from, acts[0]), acts[1..], to);
    }
  }

  // ---- the result ----------------------------------------------------------------------------

  /** A request is its own first line. */
  lemma WholeRequest(request: string, read: string)
    requires IsRequest(request) && read <= request && '\n' in read
    ensures read == request
  {
    var duration: nat :| request == Request(CALC_KEYWORD, duration);
    RequestHasOneNewline(CALC_KEYWORD, duration);
  }

  lemma WholeReply(atClient: string)
    requires atClient <= RESPONSE && '\n' in atClient
    ensures atClient == RESPONSE && LineOf(atClient) == "Response"
  {
    assert RESPONSE == "Response" + ['\n'];
    var i :| 0 <= i < |atClient| && atClient[i] == '\n';
    assert RESPONSE[i] == '\n';
    assert i == 8;
    assert atClient == RESPONSE;
    assert "Response" + ['\n'] + "" == RESPONSE;
    LineOfPrefix("Response", "", '\n');
  }

  /**
   Main result: under any chunking, interleaving, cancellation or transport error, a
   callback told of success means the server read the complete request line, and it is
   given exactly the server's reply.
   */
  lemma SuccessMeansAnswered(ioThreads: nat, userThreads: nat, acts: seq<Action>, s: State, sid: nat)
    requires Runs(Init(ioThreads, userThreads), acts, s)
    requires sid < |s.client.sessions| && s.client.sessions[sid].calls != []
    requires s.client.sessions[sid].calls[0].ec == C.Success
    ensures sid < |s.links| && s.links[sid].conn.request == s.client.sessions[sid].request
    ensures '\n' in s.client.sessions[sid].request
    ensures s.client.sessions[sid].calls[0].response == "Response"
  {
    I.InvInit(ioThreads, userThreads);
    InvRuns(Init(ioThreads, userThreads), acts, s);
    var x, l := s.client.sessions[sid], s.links[sid];
    I.CalledIsFinished(s.client, sid);
    assert I.SessionOk(s.client, sid) && I.FinishedOk(x);
    assert |x.trail| == 3 && x.trail[2] == C.Success;
    WholeReply(l.atClient);
    WholeRequest(x.request, l.conn.request);
  }
}
