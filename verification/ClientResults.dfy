/**
 What a request is told, in terms of the results the network gave its operations: the
 results reach its handlers in order and unchanged, and fix the callback's arguments.
 */
module ClientResults {
  import opened Text
  import C = ClientModel
  import I = ClientInvariant
  import S = ClientSafety

  // ---- the line that was read ----------------------------------------------------------------

  /** What the session holds of the reply, wherever its token is. */
  predicate ReadOk(s: C.State, sid: nat, data: string)
    requires sid < |s.sessions|
  {
    var x := s.sessions[sid];
    match x.token
    case Submitter(_) => true
    case InFlight(k) =>
      k in s.ops && s.ops[k].kind == C.ReadUntil && s.ops[k].state.Ready? && s.ops[k].state.ec == C.Success ==>
        s.ops[k].state.data == data
    case OnThread(t) =>
      t < |s.threads| && s.threads[t].Handling? && s.threads[t].kind == C.ReadUntil && s.threads[t].ec == C.Success ==>
        && '\n' in data
        && (if s.threads[t].at == C.Enter then s.threads[t].data == data else x.response == LineOf(data))
    case Finished =>
      |x.trail| == 3 && x.trail[2] == C.Success ==> '\n' in data && x.response == LineOf(data)
  }

  /** The same on the view of a thread that touches session `sid`. */
  predicate ViewReads(t: nat, v: C.View, data: string) {
    match v.x.token
    case Submitter(_) => true
    case InFlight(k) =>
      k in v.ops && v.ops[k].kind == C.ReadUntil && v.ops[k].state.Ready? && v.ops[k].state.ec == C.Success ==>
        v.ops[k].state.data == data
    case OnThread(u) =>
      u == t && v.pc.Handling? && v.pc.kind == C.ReadUntil && v.pc.ec == C.Success ==>
        && '\n' in data
        && (if v.pc.at == C.Enter then v.pc.data == data else v.x.response == LineOf(data))
    case Finished =>
      |v.x.trail| == 3 && v.x.trail[2] == C.Success ==> '\n' in data && v.x.response == LineOf(data)
  }

  lemma EarlyReads(t: nat, sid: nat, v: C.View, data: string)
    requires I.Poised(t, sid, v) && v.pc.Handling? && (v.pc.at == C.Enter || I.Continues(v.pc.at))
    requires ViewReads(t, v, data)
    ensures ViewReads(t, C.StepView(t, v), data)
    ensures var x := C.StepView(t, v).x; x.token.OnThread? ==> x.token.t == t
  {
  }

  lemma LateReads(t: nat, sid: nat, v: C.View, data: string)
    requires I.Poised(t, sid, v) && v.pc.Handling? && v.pc.at != C.Enter && !I.Continues(v.pc.at)
    requires ViewReads(t, v, data)
    ensures ViewReads(t, C.StepView(t, v), data)
    ensures var x := C.StepView(t, v).x; x.token.OnThread? ==> x.token == v.x.token && x.response == v.x.response
  {
  }

  lemma UserReads(t: nat, sid: nat, v: C.View, data: string)
    requires I.Poised(t, sid, v) && !v.pc.Handling? && I.Touches(v) && ViewReads(t, v, data)
    ensures ViewReads(t, C.StepView(t, v), data)
    ensures var x := C.StepView(t, v).x; x.token.OnThread? ==> x.token == v.x.token && x.response == v.x.response
  {
  }

  /** Only the completion of a session's own read changes what it is told. */
  predicate Consistent(s: C.State, act: C.Action, sid: nat, data: string) {
    (act.Complete? && act.k in s.ops && s.ops[act.k].sid == sid && s.ops[act.k].kind == C.ReadUntil
     && act.ec == C.Success) ==> act.data == data
  }

  lemma ReadStays(s: C.State, act: C.Action, sid: nat, data: string)
    requires I.Inv(s) && C.Enabled(s, act) && sid < |s.sessions| && ReadOk(s, sid, data)
    requires Consistent(s, act, sid, data)
    ensures |C.Apply(s, act).sessions| >= |s.sessions| && ReadOk(C.Apply(s, act), sid, data)
  {
    I.ActionGuarantee(s, act, sid);
    assert I.SessionOk(s, sid);
    match act
    case Step(t) =>
      if C.Works(s.threads[t]) {
        assert I.ThreadOk(s, t);
        StepReadStays(s, t, sid, data);
      }
    case Dispatch(t, k) => assert I.OpTokenOk(s, k);
    case _ =>
  }

  lemma PutOwnReads(s: C.State, t: nat, sid: nat, w: C.View, data: string)
    requires t < |s.threads| && sid < |s.sessions| && ViewReads(t, w, data)
    requires w.x.token.OnThread? && w.x.token.t != t ==>
      ReadOk(s, sid, data) && w.x.token == s.sessions[sid].token && w.x.response == s.sessions[sid].response
    ensures ReadOk(C.Put(s, t, sid, w), sid, data)
  {
  }

  lemma PutOtherReads(s: C.State, t: nat, f: nat, w: C.View, sid: nat, data: string)
    requires t < |s.threads| && sid < |s.sessions| && f != sid && ReadOk(s, sid, data) && I.SessionOk(s, sid)
    requires s.threads[t].Handling? ==> s.threads[t].sid == f
    requires s.sessions[sid].token.InFlight? ==>
      s.sessions[sid].token.k in w.ops && w.ops[s.sessions[sid].token.k] == s.ops[s.sessions[sid].token.k]
    ensures ReadOk(C.Put(s, t, f, w), sid, data)
  {
  }

  lemma StepReadStays(s: C.State, t: nat, sid: nat, data: string)
    requires I.Inv(s) && t < |s.threads| && C.Works(s.threads[t]) && C.CanStep(s, t)
    requires sid < |s.sessions| && ReadOk(s, sid, data)
    ensures |C.StepThread(s, t).sessions| == |s.sessions| && ReadOk(C.StepThread(s, t), sid, data)
  {
    var f, v := C.Focus(s, t), C.Look(s, t);
    assert I.SessionOk(s, sid);
    I.FocusedIsPoised(s, t);
    I.StepIsGoodMove(s, t);
    if f == sid {
      if !v.pc.Handling? {
        UserReads(t, sid, v, data);
      } else if v.pc.at == C.Enter || I.Continues(v.pc.at) {
        EarlyReads(t, sid, v, data);
      } else {
        LateReads(t, sid, v, data);
      }
      PutOwnReads(s, t, sid, C.StepView(t, v), data);
    } else {
      PutOtherReads(s, t, f, C.StepView(t, v), sid, data);
    }
  }

  // ---- a response is only ever the line of a successful read ------------------------------------

  const ALL_GOOD: seq<C.ErrorCode> := [C.Success, C.Success, C.Success]

  predicate BlankOk(s: C.State, sid: nat)
    requires sid < |s.sessions|
  {
    s.sessions[sid].response == "" || s.sessions[sid].trail == ALL_GOOD
  }

  lemma BlankStays(s: C.State, act: C.Action, sid: nat)
    requires I.Inv(s) && C.Enabled(s, act) && sid < |s.sessions| && BlankOk(s, sid)
    ensures sid < |C.Apply(s, act).sessions| && BlankOk(C.Apply(s, act), sid)
  {
    I.ActionGuarantee(s, act, sid);
    assert I.SessionOk(s, sid);
    S.WritesAreListed(s, act, S.Response(sid));
    if act.Step? && S.Response(sid) in S.Writes(s.threads[act.t]) {
      assert I.ThreadOk(s, act.t);
      WriterHasAll(s, act.t, sid);
    }
  }

  lemma WriterHasAll(s: C.State, t: nat, sid: nat)
    requires t < |s.threads| && sid < |s.sessions| && I.ThreadOk(s, t)
    requires S.Response(sid) in S.Writes(s.threads[t])
    ensures s.sessions[sid].trail == ALL_GOOD && !s.sessions[sid].token.InFlight?
  {
  }

  // ---- the results of a session's operations -----------------------------------------------------

  datatype Result = Result(ec: C.ErrorCode, data: string)

  function Codes(results: seq<Result>): seq<C.ErrorCode> {
    seq(|results|, i requires 0 <= i < |results| => results[i].ec)
  }

  /** The network's result for an operation of session `sid`, if the action is one. */
  function ResultOf(s: C.State, act: C.Action, sid: nat): seq<Result> {
    if act.Complete? && act.k in s.ops && s.ops[act.k].sid == sid then [Result(act.ec, act.data)] else []
  }

  function ResultsOf(from: C.State, acts: seq<C.Action>, sid: nat): seq<Result>
    decreases |acts|
  {
    if acts == [] || !C.Enabled(from, acts[0]) then []
    else ResultOf(from, acts[0], sid) + ResultsOf(C.Apply(from, acts[0]), acts[1..], sid)
  }

  function QueuedIn(token: C.Token, ops: map<nat, C.Op>): seq<C.ErrorCode> {
    if token.InFlight? && token.k in ops && ops[token.k].state.Ready? then [ops[token.k].state.ec] else []
  }

  /** A result that no thread has taken yet. */
  function Queued(s: C.State, sid: nat): seq<C.ErrorCode> {
    if sid < |s.sessions| then QueuedIn(s.sessions[sid].token, s.ops) else []
  }

  function TrailOf(s: C.State, sid: nat): seq<C.ErrorCode> {
    if sid < |s.sessions| then s.sessions[sid].trail else []
  }

  /** What the third operation read, once it has succeeded. */
  function Arrived(results: seq<Result>): string {
    if Codes(results) == ALL_GOOD then results[2].data else ""
  }

  /** Session `sid`, given the results of its operations so far. */
  predicate Known(s: C.State, sid: nat, results: seq<Result>) {
    && Codes(results) == TrailOf(s, sid) + Queued(s, sid)
    && (sid < |s.sessions| ==> ReadOk(s, sid, Arrived(results)) && BlankOk(s, sid))
  }

  lemma InitiateQueues(t: nat, sid: nat, v: C.View)
    requires I.Poised(t, sid, v) && v.pc.Handling? && v.pc.at == C.Initiate
    ensures var w := C.StepHandler(t, v);
      w.x.trail == v.x.trail && QueuedIn(w.x.token, w.ops) == QueuedIn(v.x.token, v.ops)
  {
  }

  lemma HandlerQueues(t: nat, sid: nat, v: C.View)
    requires I.Poised(t, sid, v) && v.pc.Handling?
    ensures var w := C.StepHandler(t, v);
      w.x.trail == v.x.trail && QueuedIn(w.x.token, w.ops) == QueuedIn(v.x.token, v.ops)
  {
    if v.pc.at == C.Initiate {
      InitiateQueues(t, sid, v);
    } else if v.pc.at.RunCallback? {
      assert v.x.token == C.OnThread(t);
    } else {
      assert C.StepHandler(t, v).ops == v.ops;
    }
  }

  lemma UserQueues(t: nat, sid: nat, v: C.View)
    requires I.Poised(t, sid, v) && !v.pc.Handling?
    ensures var w := C.StepView(t, v);
      w.x.trail == v.x.trail && QueuedIn(w.x.token, w.ops) == QueuedIn(v.x.token, v.ops)
  {
  }

  lemma OtherQueues(s: C.State, t: nat, sid: nat)
    requires t < |s.threads| && C.Works(s.threads[t]) && C.CanStep(s, t)
    requires sid < |s.sessions| && I.SessionOk(s, sid) && sid != C.Focus(s, t)
    requires I.TablesMove(t, C.Focus(s, t), C.Look(s, t), C.StepView(t, C.Look(s, t)))
    ensures Queued(C.StepThread(s, t), sid) == Queued(s, sid)
  {
  }

  lemma StepQueues(s: C.State, t: nat, sid: nat)
    requires I.Inv(s) && t < |s.threads| && C.Works(s.threads[t]) && C.CanStep(s, t) && sid < |s.sessions|
    ensures var z := C.StepThread(s, t);
      |z.sessions| == |s.sessions| && z.sessions[sid].trail == s.sessions[sid].trail && Queued(z, sid) == Queued(s, sid)
  {
    var f, v := C.Focus(s, t), C.Look(s, t);
    if f != sid {
      assert I.SessionOk(s, sid);
      I.StepIsGoodMove(s, t);
      OtherQueues(s, t, sid);
    } else {
      I.FocusedIsPoised(s, t);
      if v.pc.Handling? {
        HandlerQueues(t, sid, v);
      } else {
        UserQueues(t, sid, v);
      }
      assert Queued(C.StepThread(s, t), sid) == QueuedIn(C.StepView(t, v).x.token, C.StepView(t, v).ops);
    }
  }

  lemma CompleteQueues(s: C.State, act: C.Action, sid: nat)
    requires C.Enabled(s, act) && act.Complete? && I.OpTokenOk(s, act.k)
    requires sid < |s.sessions| ==> I.SessionOk(s, sid)
    ensures TrailOf(C.Apply(s, act), sid) == TrailOf(s, sid)
    ensures Queued(C.Apply(s, act), sid) == Queued(s, sid) + Codes(ResultOf(s, act, sid))
  {
  }

  lemma DispatchQueues(s: C.State, act: C.Action, sid: nat)
    requires C.Enabled(s, act) && act.Dispatch? && I.OpTokenOk(s, act.k)
    requires sid < |s.sessions| ==> I.SessionOk(s, sid)
    ensures TrailOf(C.Apply(s, act), sid) + Queued(C.Apply(s, act), sid) == TrailOf(s, sid) + Queued(s, sid)
  {
  }

  lemma OneResult(s: C.State, act: C.Action, sid: nat)
    requires I.Inv(s) && C.Enabled(s, act)
    ensures TrailOf(s, sid) + Queued(s, sid) + Codes(ResultOf(s, act, sid))
            == TrailOf(C.Apply(s, act), sid) + Queued(C.Apply(s, act), sid)
  {
    if act.Complete? {
      assert I.OpTokenOk(s, act.k);
      CompleteQueues(s, act, sid);
    } else if act.Dispatch? {
      assert I.OpTokenOk(s, act.k);
      DispatchQueues(s, act, sid);
    } else if act.Step? && C.Works(s.threads[act.t]) && sid < |s.sessions| {
      StepQueues(s, act.t, sid);
    }
  }

  // ---- whole runs --------------------------------------------------------------------------------

  /** One more action, and what it tells. */
  lemma OneMoreKnown(s: C.State, act: C.Action, sid: nat, results: seq<Result>)
    requires I.Inv(s) && C.Enabled(s, act) && Known(s, sid, results)
    ensures Known(C.Apply(s, act), sid, results + ResultOf(s, act, sid))
  {
    var more := results + ResultOf(s, act, sid);
    OneResult(s, act, sid);
    assert Codes(more) == Codes(results) + Codes(ResultOf(s, act, sid));
    if sid < |s.sessions| {
      BlankStays(s, act, sid);
      ArrivedStays(s, act, sid, results);
    }
  }

  lemma ArrivedStays(s: C.State, act: C.Action, sid: nat, results: seq<Result>)
    requires I.Inv(s) && C.Enabled(s, act) && Known(s, sid, results) && sid < |s.sessions|
    ensures var z := C.Apply(s, act);
      sid < |z.sessions| && ReadOk(z, sid, Arrived(results + ResultOf(s, act, sid)))
  {
    if ResultOf(s, act, sid) == [] {
      assert results + ResultOf(s, act, sid) == results;
      ReadStays(s, act, sid, Arrived(results));
    } else {
      assert I.OpTokenOk(s, act.k) && I.SessionOk(s, sid);
      OwnResult(s, act, sid, results);
    }
  }

  lemma OwnResult(s: C.State, act: C.Action, sid: nat, results: seq<Result>)
    requires C.Enabled(s, act) && act.Complete? && s.ops[act.k].sid == sid && sid < |s.sessions|
    requires I.OpTokenOk(s, act.k) && I.SessionOk(s, sid)
    requires Codes(results) == TrailOf(s, sid) + Queued(s, sid)
    ensures ReadOk(C.Apply(s, act), sid, Arrived(results + [Result(act.ec, act.data)]))
  {
    var more := results + [Result(act.ec, act.data)];
    assert Codes(more) == Codes(results) + [act.ec];
    assert |more| == |results| + 1 && more[|results|] == Result(act.ec, act.data);
  }

  lemma {:induction false} RunKnown(from: C.State, acts: seq<C.Action>, to: C.State, sid: nat, results: seq<Result>)
    requires I.Inv(from) && C.Runs(from, acts, to) && Known(from, sid, results)
    ensures Known(to, sid, results + ResultsOf(from, acts, sid))
    decreases |acts|
  {
    if acts == [] {
      assert results + [] == results;
    } else {
      var first, next := ResultOf(from, acts[0], sid), C.Apply(from, acts[0]);
      OneMoreKnown(from, acts[0], sid, results);
      I.InvStep(from, acts[0]);
      RunKnown(next, acts[1..], to, sid, results + first);
      Regroup(results, first, ResultsOf(next, acts[1..], sid));
    }
  }

  lemma Regroup(a: seq<Result>, b: seq<Result>, c: seq<Result>)
    ensures (a + b) + c == a + (b + c)
  {
  }

  lemma AllKnown(n: nat, u: nat, acts: seq<C.Action>, s: C.State, sid: nat)
    requires C.Runs(C.Init(n, u), acts, s)
    ensures I.Inv(s) && Known(s, sid, ResultsOf(C.Init(n, u), acts, sid))
  {
    I.InvInit(n, u);
    I.InvRuns(C.Init(n, u), acts, s);
    assert Codes([]) == [];
    RunKnown(C.Init(n, u), acts, s, sid, []);
    assert [] + ResultsOf(C.Init(n, u), acts, sid) == ResultsOf(C.Init(n, u), acts, sid);
  }

  /** The results the network gave, all but one still queued, are what the handlers were told. */
  lemma TrailIsResults(n: nat, u: nat, acts: seq<C.Action>, s: C.State, sid: nat)
    requires C.Runs(C.Init(n, u), acts, s) && sid < |s.sessions|
    ensures Codes(ResultsOf(C.Init(n, u), acts, sid)) == s.sessions[sid].trail + Queued(s, sid)
  {
    AllKnown(n, u, acts, s, sid);
  }

  /**
   Main result: what a callback is told is a function of what the network answered to the
   session's connect, write and read, and of whether some cancelRequest found the session.
   It reports success exactly if all three succeeded and none did, and hands over the line
   that was read, or nothing.
   */
  lemma OutcomeExactly(n: nat, u: nat, acts: seq<C.Action>, s: C.State, sid: nat)
    requires C.Runs(C.Init(n, u), acts, s) && sid < |s.sessions| && s.sessions[sid].calls != []
    ensures var x, results := s.sessions[sid], ResultsOf(C.Init(n, u), acts, sid);
      && |x.calls| == 1 && 1 <= |results| <= 3
      && x.calls[0].ec == I.Verdict(Codes(results), x.finds > 0)
      && (x.calls[0].ec == C.Success <==> Codes(results) == ALL_GOOD && x.finds == 0)
      && (x.calls[0].ec == C.OperationAborted ==> x.finds > 0)
      && (forall i :: 0 <= i < |results| - 1 ==> results[i].ec == C.Success)
      && x.calls[0].response == if Codes(results) == ALL_GOOD then LineOf(results[2].data) else ""
  {
    var x, results := s.sessions[sid], ResultsOf(C.Init(n, u), acts, sid);
    AllKnown(n, u, acts, s, sid);
    assert C.Reachable(s);
    S.Outcome(s, sid);
    I.CalledIsFinished(s, sid);
    assert I.SessionOk(s, sid);
    assert Codes(results) == x.trail && I.FinishedOk(x);
    forall i | 0 <= i < |results| ensures results[i].ec == x.trail[i] {
      assert Codes(results)[i] == results[i].ec;
    }
    assert x.trail == ALL_GOOD ==> x.trail[2] == C.Success;
  }
}
