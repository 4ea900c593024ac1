/** What a service does with the results the network gives its operations. */
module AsyncServerResults {
  import opened Connections
  import opened AsyncServerModel
  import opened AsyncServerInvariant
  import opened AsyncServerSafety

  /** The move by which a service answers to the result of one of its operations. */
  function Answer(kind: Kind, r: Result): seq<Move> {
    match kind
    case AcceptOp => []
    case ReadOp(_) => [if r.ok then ReadLine(r.data) else ReadFails]
    case WriteOp(_) => [if r.ok then WriteAll else WriteFails(r.count)]
  }

  predicate IsAnswer(m: Move) {
    m.ReadLine? || m.ReadFails? || m.WriteAll? || m.WriteFails?
  }

  /** The result that the network gives service `svc`, as the move it calls for. */
  function TellOf(s: State, act: Action, svc: nat): seq<Move> {
    if act.Complete? && act.k in s.ops && s.ops[act.k].kind in {ReadOp(svc), WriteOp(svc)}
    then Answer(s.ops[act.k].kind, act.result) else []
  }

  /** The service's move that uses a result. */
  function AnswerOf(s: State, act: Action, svc: nat): seq<Move>
    requires Enabled(s, act)
  {
    var events := EventOf(s, act);
    if events != [] && events[0].At? && events[0].conn == svc && IsAnswer(events[0].move) then [events[0].move] else []
  }

  function UntoldIn(token: Token, ops: map<nat, Op>, threads: seq<Pc>): seq<Move> {
    match token
    case InFlight(k) =>
      if k in ops && ops[k].result.Some? then Answer(ops[k].kind, ops[k].result.value) else []
    case OnThread(t) => if t < |threads| then UntoldBy(threads[t]) else []
    case Nowhere => []
  }

  function UntoldBy(pc: Pc): seq<Move> {
    match pc
    case Receiving(_, ok, data, at) => if at == CheckRead then [if ok then ReadLine(data) else ReadFails] else []
    case Sending(_, ok, count, at) => if at == CheckWrite then [if ok then WriteAll else WriteFails(count)] else []
    case _ => []
  }

  /** A result that the network has given and the service has not used yet. */
  function Untold(s: State, svc: nat): seq<Move> {
    if svc < |s.services| then UntoldIn(s.services[svc].token, s.ops, s.threads) else []
  }

  lemma CompleteTells(s: State, k: nat, result: Result, svc: nat)
    requires Enabled(s, Complete(k, result)) && OpTokenOk(s, k)
    requires svc < |s.services| ==> ServiceOk(s, svc)
    ensures Untold(Apply(s, Complete(k, result)), svc) == Untold(s, svc) + TellOf(s, Complete(k, result), svc)
  {
  }

  lemma DispatchTells(s: State, t: nat, k: nat, svc: nat)
    requires Enabled(s, Dispatch(t, k)) && OpTokenOk(s, k)
    requires svc < |s.services| ==> ServiceOk(s, svc)
    ensures Untold(Apply(s, Dispatch(t, k)), svc) == Untold(s, svc)
  {
  }

  lemma OwnStepTells(s: State, t: nat)
    requires Enabled(s, Step(t)) && UsesSome(s.threads[t]) && ThreadOk(s, t)
    ensures Untold(s, Focus(s, t)) == AnswerOf(s, Step(t), Focus(s, t)) + Untold(Apply(s, Step(t)), Focus(s, t))
  {
  }

  lemma OtherStepTells(s: State, t: nat, svc: nat)
    requires Enabled(s, Step(t)) && ThreadOk(s, t) && (UsesSome(s.threads[t]) ==> svc != Focus(s, t))
    requires svc < |s.services| ==> ServiceOk(s, svc)
    requires svc < |s.services| && s.services[svc].token.InFlight? ==> s.services[svc].token.k < s.nextOp
    ensures AnswerOf(s, Step(t), svc) == [] && Untold(Apply(s, Step(t)), svc) == Untold(s, svc)
  {
  }

  lemma OneTell(s: State, act: Action, svc: nat)
    requires Inv(s) && Enabled(s, act)
    ensures Untold(s, svc) + TellOf(s, act, svc) == AnswerOf(s, act, svc) + Untold(Apply(s, act), svc)
  {
    assert svc < |s.services| ==> ServiceOk(s, svc);
    match act
    case Complete(k, result) =>
      assert OpTokenOk(s, k);
      CompleteTells(s, k, result, svc);
    case Dispatch(t, k) =>
      assert OpTokenOk(s, k);
      DispatchTells(s, t, k, svc);
    case Step(t) =>
      assert ThreadOk(s, t);
      if UsesSome(s.threads[t]) && svc == Focus(s, t) {
        OwnStepTells(s, t);
      } else {
        assert svc < |s.services| && s.services[svc].token.InFlight? ==> OpTokenOk(s, s.services[svc].token.k);
        OtherStepTells(s, t, svc);
      }
    case _ =>
  }

  function Tells(from: State, acts: seq<Action>, svc: nat): seq<Move>
    decreases |acts|
  {
    if acts == [] || !Enabled(from, acts[0]) then []
    else TellOf(from, acts[0], svc) + Tells(Apply(from, acts[0]), acts[1..], svc)
  }

  function Answers(from: State, acts: seq<Action>, svc: nat): seq<Move>
    decreases |acts|
  {
    if acts == [] || !Enabled(from, acts[0]) then []
    else AnswerOf(from, acts[0], svc) + Answers(Apply(from, acts[0]), acts[1..], svc)
  }

  lemma {:induction false} RunTells(from: State, acts: seq<Action>, to: State, svc: nat)
    requires Inv(from) && Runs(from, acts, to)
    ensures Untold(from, svc) + Tells(from, acts, svc) == Answers(from, acts, svc) + Untold(to, svc)
    decreases |acts|
  {
    if acts != [] {
      var next := Apply(from, acts[0]);
      OneTell(from, acts[0], svc);
      InvStep(from, acts[0]);
      RunTells(next, acts[1..], to, svc);
      Chained(Untold(from, svc), TellOf(from, acts[0], svc), AnswerOf(from, acts[0], svc), Untold(next, svc),
              Tells(next, acts[1..], svc), Answers(next, acts[1..], svc), Untold(to, svc));
    }
  }

  lemma Chained(untold: seq<Move>, tell: seq<Move>, answer: seq<Move>, untold': seq<Move>,
                tells: seq<Move>, answers: seq<Move>, end: seq<Move>)
    requires untold + tell == answer + untold' && untold' + tells == answers + end
    ensures untold + (tell + tells) == (answer + answers) + end
  {
    assert untold + (tell + tells) == (untold + tell) + tells == answer + (untold' + tells);
  }

  /**
   Main result: in any run, the reads and writes a service is told of by the network, with
   their data and counts, are the reads and writes it makes of its connection, once each
   and in order; at most the last is still to come.
   */
  lemma MovesAreResults(pool: nat, acts: seq<Action>, s: State, svc: nat)
    requires pool > 0 && Runs(Started(pool), acts, s)
    ensures Tells(Started(pool), acts, svc) == Answers(Started(pool), acts, svc) + Untold(s, svc)
    ensures |Untold(s, svc)| <= 1
  {
    InvStarted(pool);
    RunTells(Started(pool), acts, s, svc);
    assert Untold(Started(pool), svc) == [];
  }

  // ---- accepted connections -------------------------------------------------------------------------

  /** The network reports a new connection. */
  function ArrivalOf(s: State, act: Action): nat {
    if act.Complete? && act.k in s.ops && s.ops[act.k].kind == AcceptOp && act.result.ok then 1 else 0
  }

  function Arrivals(from: State, acts: seq<Action>): nat
    decreases |acts|
  {
    if acts == [] || !Enabled(from, acts[0]) then 0
    else ArrivalOf(from, acts[0]) + Arrivals(Apply(from, acts[0]), acts[1..])
  }

  /** A connection that has arrived and whose handler has not started. */
  function Queued(s: State): nat {
    var token := s.acceptor.token;
    if token.InFlight? && token.k in s.ops && s.ops[token.k].result.Some? && s.ops[token.k].result.value.ok
    then 1 else 0
  }

  lemma StepAccepts(s: State, t: nat)
    requires Inv(s) && Enabled(s, Step(t))
    ensures var z := Apply(s, Step(t)); z.acceptor.accepted == s.acceptor.accepted && Queued(z) == Queued(s)
  {
    assert ThreadOk(s, t);
    assert s.acceptor.token.InFlight? ==> OpTokenOk(s, s.acceptor.token.k);
  }

  lemma OneArrival(s: State, act: Action)
    requires Inv(s) && Enabled(s, act)
    ensures var z := Apply(s, act);
      s.acceptor.accepted + Queued(s) + ArrivalOf(s, act) == z.acceptor.accepted + Queued(z)
  {
    match act
    case Step(t) => StepAccepts(s, t);
    case Complete(k, _) => assert OpTokenOk(s, k);
    case Dispatch(_, k) => assert OpTokenOk(s, k);
    case _ =>
  }

  lemma {:induction false} RunArrivals(from: State, acts: seq<Action>, to: State)
    requires Inv(from) && Runs(from, acts, to)
    ensures from.acceptor.accepted + Queued(from) + Arrivals(from, acts) == to.acceptor.accepted + Queued(to)
    decreases |acts|
  {
    if acts != [] {
      OneArrival(from, acts[0]);
      InvStep(from, acts[0]);
      RunArrivals(Apply(from, acts[0]), acts[1..], to);
    }
  }

  /** Every connection the network reports gets its own service, or is the one just about to. */
  lemma ArrivalsAreServices(pool: nat, acts: seq<Action>, s: State)
    requires pool > 0 && Runs(Started(pool), acts, s)
    ensures Arrivals(Started(pool), acts) == |s.services| + Unbuilt(s) + Queued(s)
  {
    InvStarted(pool);
    InvRuns(Started(pool), acts, s);
    RunArrivals(Started(pool), acts, s);
  }
}
