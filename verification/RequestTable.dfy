/**
 The client as its user sees it: a table of requests whose operations are atomic.
 `Insert` opens a request, `Mark` cancels an open one, `Miss` finds nothing to cancel,
 and `Remove` closes a request and fixes its result.
 */
module RequestTable {
  import opened ClientModel

  datatype Entry = Entry(sid: nat, marked: bool)

  /** Open requests by id, and the results of closed ones by serial number. */
  datatype Table = Table(open: map<nat, Entry>, closed: map<nat, ErrorCode>)

  datatype Event = Insert(id: nat, sid: nat) | Mark(id: nat) | Miss(id: nat) | Remove(id: nat, ec: ErrorCode)

  /** What a user asks for: `emulateLongComputationOp` for a new session, or `cancelRequest`. */
  datatype UserCall = Submit(id: nat, sid: nat) | Cancel(id: nat)

  /** The call an event carries out; a removal is nobody's call. */
  function Answered(e: Event): seq<UserCall> {
    match e
    case Insert(id, sid) => [Submit(id, sid)]
    case Mark(id) => [Cancel(id)]
    case Miss(id) => [Cancel(id)]
    case Remove(_, _) => []
  }

  predicate Allowed(table: Table, e: Event) {
    match e
    case Insert(id, sid) =>
      && id !in table.open && sid !in table.closed
      && forall other :: other in table.open ==> table.open[other].sid != sid
    case Mark(id) => id in table.open
    case Miss(id) => id !in table.open
    case Remove(id, _) => id in table.open
  }

  function Update(table: Table, e: Event): Table
    requires Allowed(table, e)
  {
    match e
    case Insert(id, sid) => table.(open := table.open[id := Entry(sid, false)])
    case Mark(id) => table.(open := table.open[id := table.open[id].(marked := true)])
    case Miss(_) => table
    case Remove(id, ec) =>
      var entry := table.open[id];
      var result := if ec == Success && entry.marked then OperationAborted else ec;
      Table(table.open - {id}, table.closed[entry.sid := result])
  }

  lemma OneEvent(from: Table, e: Event, to: Table)
    requires Allowed(from, e) && Update(from, e) == to
    ensures TableRuns(from, [e], to)
  {
    assert TableRuns(to, [], to);
    assert [e][1..] == [];
  }

  ghost predicate TableRuns(from: Table, events: seq<Event>, to: Table)
    decreases |events|
  {
    if events == [] then from == to
    else Allowed(from, events[0]) && TableRuns(Update(from, events[0]), events[1..], to)
  }
}

/** Every interleaving of the client refines the atomic request table. */
module ClientRefinement {
  import opened ClientModel
  import opened ClientInvariant
  import opened RequestTable

  function Final(x: Session): ErrorCode {
    if x.ec == Success && x.wasCancelled then OperationAborted else x.ec
  }

  ghost predicate EntriesOk(s: State) {
    forall id :: id in s.active ==> EntryOk(s, id)
  }

  ghost function Abstract(s: State): Table
    requires EntriesOk(s)
  {
    Table(map id | id in s.active :: Entry(s.active[id], s.sessions[s.active[id]].wasCancelled),
          map sid | 0 <= sid < |s.sessions| && s.sessions[sid].erased :: Final(s.sessions[sid]))
  }

  /** The linearisation point an action contains, if any. */
  function EventOf(s: State, a: Action): seq<Event>
    requires Enabled(s, a)
  {
    if !a.Step? then []
    else
      var v := Look(s, a.t);
      match v.pc
      case Submitting(sid, at) => if at == SubInsert then [Insert(v.x.id, sid)] else []
      case Cancelling(id, _, at) =>
        if at == CanSetFlag then [Mark(id)]
        else if at == CanFind && id !in v.active then [Miss(id)]
        else []
      case Handling(_, _, _, _, _, at) => if at == Erase then [Remove(v.x.id, v.x.ec)] else []
      case _ => []
  }

  /** The user gives no request the id of an active one. */
  predicate FreshId(s: State, a: Action)
    requires Enabled(s, a)
  {
    a.Step? && s.threads[a.t].Submitting? && s.threads[a.t].sat == SubInsert ==>
      Look(s, a.t).x.id !in s.active
  }

  predicate Waiting(s: State, sid: nat)
    requires sid < |s.sessions|
  {
    var token := s.sessions[sid].token;
    token.Submitter? && token.t < |s.threads| && AboutToInsert(s.threads[token.t])
  }

  /** With fresh ids, every inserted and unfinished session is in the map under its id. */
  ghost predicate Listed(s: State) {
    forall sid :: 0 <= sid < |s.sessions| && !s.sessions[sid].erased && !Waiting(s, sid) ==>
      Maps(s.active, s.sessions[sid].id, sid)
  }

  /** Away from the three linearisation points, a step leaves the abstract state alone. */
  predicate Quiet(v: View, w: View) {
    && (w.active == v.active || (v.pc.Submitting? && v.pc.sat == SubInsert) || (v.pc.Handling? && v.pc.at == Erase))
    && (w.x.wasCancelled == v.x.wasCancelled || (v.pc.Cancelling? && v.pc.cat == CanSetFlag))
    && (w.x.erased == v.x.erased || (v.pc.Handling? && v.pc.at == Erase))
    && (w.x.ec == v.x.ec || !v.x.erased)
    && w.x.id == v.x.id
  }

  lemma QuietHandler(t: nat, sid: nat, v: View)
    requires Poised(t, sid, v) && v.pc.Handling?
    ensures Quiet(v, StepHandler(t, v))
  {
  }

  lemma QuietView(t: nat, sid: nat, v: View)
    requires Poised(t, sid, v)
    ensures Quiet(v, StepView(t, v))
  {
    if v.pc.Handling? {
      QuietHandler(t, sid, v);
    }
  }

  /** Session `sid` shows the table the same in `z` as in `s`. */
  predicate ShowsSame(s: State, z: State, sid: nat)
    requires sid < |s.sessions| && sid < |z.sessions|
  {
    && z.sessions[sid].wasCancelled == s.sessions[sid].wasCancelled
    && z.sessions[sid].erased == s.sessions[sid].erased
    && (s.sessions[sid].erased ==> Final(z.sessions[sid]) == Final(s.sessions[sid]))
  }

  /** The same for a whole action: sessions keep what the table shows of them. */
  lemma QuietAction(s: State, a: Action, sid: nat)
    requires Inv(s) && Enabled(s, a) && EventOf(s, a) == [] && sid < |s.sessions|
    ensures |s.sessions| <= |Apply(s, a).sessions| && ShowsSame(s, Apply(s, a), sid)
  {
    if a.Step? && Works(s.threads[a.t]) {
      FocusedIsPoised(s, a.t);
      QuietView(a.t, Focus(s, a.t), Look(s, a.t));
    }
  }

  lemma SameTable(s: State, z: State)
    requires EntriesOk(s) && EntriesOk(z) && z.active == s.active && |s.sessions| <= |z.sessions|
    requires forall sid :: 0 <= sid < |s.sessions| ==> ShowsSame(s, z, sid)
    requires forall sid :: |s.sessions| <= sid < |z.sessions| ==> !z.sessions[sid].erased
    ensures Abstract(z) == Abstract(s)
  {
    forall id | id in s.active ensures s.active[id] < |s.sessions| {
      assert EntryOk(s, id);
    }
    forall sid | 0 <= sid < |s.sessions| ensures ShowsSame(s, z, sid) {
    }
    assert forall id :: id in s.active ==> ShowsSame(s, z, s.active[id]);
    assert Abstract(z).open == Abstract(s).open;
    assert forall sid :: sid in Abstract(s).closed ==> ShowsSame(s, z, sid);
    assert forall sid :: sid in Abstract(z).closed ==> ShowsSame(s, z, sid);
    assert Abstract(z).closed == Abstract(s).closed;
  }

  lemma NoneErased(s: State, a: Action)
    requires Enabled(s, a)
    ensures |s.sessions| <= |Apply(s, a).sessions|
    ensures forall sid :: |s.sessions| <= sid < |Apply(s, a).sessions| ==> !Apply(s, a).sessions[sid].erased
  {
  }

  lemma RefineQuiet(s: State, a: Action)
    requires Inv(s) && Enabled(s, a) && EventOf(s, a) == []
    ensures Inv(Apply(s, a)) && Abstract(Apply(s, a)) == Abstract(s)
  {
    InvStep(s, a);
    NoneErased(s, a);
    var z := Apply(s, a);
    forall sid | 0 <= sid < |s.sessions| ensures ShowsSame(s, z, sid) {
      QuietAction(s, a, sid);
    }
    QuietTable(s, a);
    SameTable(s, z);
  }

  lemma QuietTable(s: State, a: Action)
    requires Inv(s) && Enabled(s, a) && EventOf(s, a) == []
    ensures Apply(s, a).active == s.active
  {
    if a.Step? && Works(s.threads[a.t]) {
      FocusedIsPoised(s, a.t);
      QuietView(a.t, Focus(s, a.t), Look(s, a.t));
    }
  }

  // ---- the three actions with a linearisation point are the table's three operations ----

  lemma RefineMark(s: State, z: State, id: nat, sid: nat)
    requires EntriesOk(s) && Maps(s.active, id, sid)
    requires z.active == s.active && z.sessions == s.sessions[sid := s.sessions[sid].(wasCancelled := true)]
    ensures EntriesOk(z) && Update(Abstract(s), Mark(id)) == Abstract(z)
  {
    forall other | other in s.active ensures EntryOk(z, other) && (other != id ==> s.active[other] != sid) {
      assert EntryOk(s, other) && EntryOk(s, id);
    }
    assert Abstract(z).closed == Abstract(s).closed;
    assert Abstract(z).open == Update(Abstract(s), Mark(id)).open;
  }

  lemma RefineInsert(s: State, z: State, id: nat, sid: nat)
    requires EntriesOk(s) && sid < |s.sessions| && id !in s.active
    requires var x := s.sessions[sid]; x.id == id && !x.erased && !x.wasCancelled
    requires z.sessions == s.sessions && z.active == s.active[id := sid]
    ensures EntriesOk(z) && Allowed(Abstract(s), Insert(id, sid))
    ensures Update(Abstract(s), Insert(id, sid)) == Abstract(z)
  {
    forall other | other in z.active ensures EntryOk(z, other) && (other != id ==> z.active[other] != sid) {
      if other != id {
        assert EntryOk(s, other);
      }
    }
    assert Abstract(z).closed == Abstract(s).closed;
    assert Abstract(z).open == Update(Abstract(s), Insert(id, sid)).open;
  }

  lemma RemoveEntries(s: State, z: State, id: nat, sid: nat)
    requires EntriesOk(s) && Maps(s.active, id, sid)
    requires z.active == s.active - {id} && sid < |s.sessions|
    requires z.sessions == s.sessions[sid := s.sessions[sid].(erased := true)]
    ensures EntriesOk(z) && forall other :: other in z.active ==> z.active[other] != sid
  {
    forall other | other in z.active ensures EntryOk(z, other) && z.active[other] != sid {
      assert EntryOk(s, other) && EntryOk(s, id);
    }
  }

  lemma RefineRemove(s: State, z: State, id: nat, sid: nat)
    requires EntriesOk(s) && Maps(s.active, id, sid)
    requires z.active == s.active - {id} && sid < |s.sessions|
    requires z.sessions == s.sessions[sid := s.sessions[sid].(erased := true)]
    ensures EntriesOk(z) && Update(Abstract(s), Remove(id, s.sessions[sid].ec)) == Abstract(z)
  {
    RemoveEntries(s, z, id, sid);
    var table := Update(Abstract(s), Remove(id, s.sessions[sid].ec));
    assert EntryOk(s, id);
    assert Abstract(z).open == table.open;
    assert Abstract(z).closed == table.closed;
  }

  /** What the action with event `e` does to the two things the table shows. */
  ghost predicate Effect(s: State, z: State, sid: nat, e: Event) {
    match e
    case Insert(id, i) =>
      && sid < |s.sessions|
      && var x := s.sessions[sid];
      && i == sid && x.id == id && !x.erased && !x.wasCancelled
      && z.sessions == s.sessions && z.active == s.active[id := sid]
    case Mark(id) =>
      && sid < |s.sessions| && Maps(s.active, id, sid)
      && z.active == s.active && z.sessions == s.sessions[sid := s.sessions[sid].(wasCancelled := true)]
    case Miss(id) => id !in s.active && z.active == s.active && z.sessions == s.sessions
    case Remove(id, ec) =>
      && sid < |s.sessions|
      && id == s.sessions[sid].id && ec == s.sessions[sid].ec && !s.sessions[sid].erased
      && s.sessions[sid].token.OnThread?
      && z.active == s.active - {id} && z.sessions == s.sessions[sid := s.sessions[sid].(erased := true)]
  }

  lemma EventEffect(s: State, a: Action)
    requires Enabled(s, a) && EventOf(s, a) != [] && ThreadOk(s, a.t)
    ensures |EventOf(s, a)| == 1
    ensures Effect(s, Apply(s, a), s.threads[a.t].sid, EventOf(s, a)[0])
  {
  }

  /** One action of the client is at most one operation of the table. */
  lemma RefineAction(s: State, a: Action)
    requires Inv(s) && Listed(s) && Enabled(s, a) && FreshId(s, a)
    ensures EntriesOk(Apply(s, a))
    ensures TableRuns(Abstract(s), EventOf(s, a), Abstract(Apply(s, a)))
  {
    var events, z := EventOf(s, a), Apply(s, a);
    if events == [] {
      RefineQuiet(s, a);
    } else {
      assert ThreadOk(s, a.t);
      EventEffect(s, a);
      var sid := s.threads[a.t].sid;
      match events[0] {
        case Insert(id, _) => RefineInsert(s, z, id, sid);
        case Mark(id) => RefineMark(s, z, id, sid);
        case Miss(_) => assert Abstract(z) == Abstract(s);
        case Remove(id, _) => RefineRemove(s, z, id, sid);
      }
      OneEvent(Abstract(s), events[0], Abstract(z));
      assert events == [events[0]];
    }
  }

  // ---- every call is answered by exactly one event, between its start and its end ------------

  /** The call an action starts, if thread `t` makes it. */
  function CallOf(s: State, a: Action, t: nat): seq<UserCall> {
    match a
    case CallSubmit(u, id, _) => if u == t then [Submit(id, |s.sessions|)] else []
    case CallCancel(u, id) => if u == t then [Cancel(id)] else []
    case _ => []
  }

  /** The call of thread `t` that an action carries out. */
  function AnswerOf(s: State, a: Action, t: nat): seq<UserCall>
    requires Enabled(s, a)
  {
    if a == Step(t) && EventOf(s, a) != [] then Answered(EventOf(s, a)[0]) else []
  }

  /** The call that thread `t` has begun and not yet carried out. */
  function OpenCall(s: State, t: nat): seq<UserCall> {
    if t >= |s.threads| then []
    else
      match s.threads[t]
      case Submitting(sid, _) =>
        if AboutToInsert(s.threads[t]) && sid < |s.sessions| then [Submit(s.sessions[sid].id, sid)] else []
      case Cancelling(id, _, at) =>
        if at in {CanLock, CanFind, CanLockGuard, CanSetFlag} then [Cancel(id)] else []
      case _ => []
  }

  lemma HandlerKeepsId(t: nat, v: View)
    requires v.pc.Handling?
    ensures StepHandler(t, v).x.id == v.x.id && !StepHandler(t, v).pc.Submitting? && !StepHandler(t, v).pc.Cancelling?
  {
  }

  lemma StepKeepsId(t: nat, v: View)
    requires Works(v.pc)
    ensures StepView(t, v).x.id == v.x.id
  {
    if v.pc.Handling? {
      HandlerKeepsId(t, v);
    }
  }

  lemma IdsStay(s: State, a: Action, sid: nat)
    requires Enabled(s, a) && sid < |s.sessions|
    ensures sid < |Apply(s, a).sessions| && Apply(s, a).sessions[sid].id == s.sessions[sid].id
  {
    if a.Step? && Works(s.threads[a.t]) {
      StepKeepsId(a.t, Look(s, a.t));
    }
  }

  lemma OwnAnswer(s: State, t: nat)
    requires Enabled(s, Step(t)) && ThreadOk(s, t) && Works(s.threads[t])
    ensures OpenCall(s, t) == AnswerOf(s, Step(t), t) + OpenCall(StepThread(s, t), t)
  {
    if s.threads[t].Handling? {
      HandlerKeepsId(t, Look(s, t));
    } else if s.threads[t].Submitting? {
      SubmitAnswer(s, t);
    }
  }

  lemma SubmitAnswer(s: State, t: nat)
    requires Enabled(s, Step(t)) && ThreadOk(s, t) && s.threads[t].Submitting?
    ensures OpenCall(s, t) == AnswerOf(s, Step(t), t) + OpenCall(StepThread(s, t), t)
  {
  }

  /** A thread at rest, or waiting while others move, keeps its open call. */
  lemma OthersAnswer(s: State, a: Action, t: nat)
    requires Enabled(s, a) && a != Step(t) && (t < |s.threads| ==> ThreadOk(s, t))
    ensures OpenCall(s, t) + CallOf(s, a, t) == OpenCall(Apply(s, a), t)
  {
    if t < |s.threads| && s.threads[t].Submitting? {
      IdsStay(s, a, s.threads[t].sid);
    }
  }

  lemma OneAnswer(s: State, a: Action, t: nat)
    requires Inv(s) && Enabled(s, a)
    ensures OpenCall(s, t) + CallOf(s, a, t) == AnswerOf(s, a, t) + OpenCall(Apply(s, a), t)
  {
    if a != Step(t) {
      OthersAnswer(s, a, t);
    } else if Works(s.threads[t]) {
      assert ThreadOk(s, t);
      OwnAnswer(s, t);
    }
  }

  function CallsOf(from: State, acts: seq<Action>, t: nat): seq<UserCall>
    decreases |acts|
  {
    if acts == [] || !Enabled(from, acts[0]) then []
    else CallOf(from, acts[0], t) + CallsOf(Apply(from, acts[0]), acts[1..], t)
  }

  function AnswersOf(from: State, acts: seq<Action>, t: nat): seq<UserCall>
    decreases |acts|
  {
    if acts == [] || !Enabled(from, acts[0]) then []
    else AnswerOf(from, acts[0], t) + AnswersOf(Apply(from, acts[0]), acts[1..], t)
  }

  /**
   Each thread's calls are carried out once each and in order, none before it starts; at
   any time at most the last one is still to come.
   */
  lemma {:induction false} EachCallOnce(from: State, acts: seq<Action>, to: State, t: nat)
    requires Inv(from) && Runs(from, acts, to)
    ensures OpenCall(from, t) + CallsOf(from, acts, t) == AnswersOf(from, acts, t) + OpenCall(to, t)
    decreases |acts|
  {
    if acts != [] {
      var next := Apply(from, acts[0]);
      OneAnswer(from, acts[0], t);
      InvStep(from, acts[0]);
      EachCallOnce(next, acts[1..], to, t);
      Chained(OpenCall(from, t), CallOf(from, acts[0], t), AnswerOf(from, acts[0], t), OpenCall(next, t),
              CallsOf(next, acts[1..], t), AnswersOf(next, acts[1..], t), OpenCall(to, t));
    }
  }

  lemma Chained(open: seq<UserCall>, calls: seq<UserCall>, answers: seq<UserCall>, open': seq<UserCall>,
                calls': seq<UserCall>, answers': seq<UserCall>, end: seq<UserCall>)
    requires open + calls == answers + open' && open' + calls' == answers' + end
    ensures open + (calls + calls') == (answers + answers') + end
  {
    assert open + (calls + calls') == (open + calls) + calls' == answers + (open' + calls');
  }

  /** How often a run removes session `sid` from the table. */
  function Removals(from: State, acts: seq<Action>, sid: nat): nat
    decreases |acts|
  {
    if acts == [] || !Enabled(from, acts[0]) then 0
    else RemovalOf(from, acts[0], sid) + Removals(Apply(from, acts[0]), acts[1..], sid)
  }

  function RemovalOf(s: State, a: Action, sid: nat): nat
    requires Enabled(s, a)
  {
    if EventOf(s, a) != [] && EventOf(s, a)[0].Remove? && Focus(s, a.t) == sid then 1 else 0
  }

  function Removed(s: State, sid: nat): nat {
    if sid < |s.sessions| && s.sessions[sid].erased then 1 else 0
  }

  lemma OneRemoval(s: State, a: Action, sid: nat)
    requires Inv(s) && Enabled(s, a)
    ensures Removed(s, sid) + RemovalOf(s, a, sid) == Removed(Apply(s, a), sid)
  {
    if EventOf(s, a) != [] {
      assert ThreadOk(s, a.t);
      EventEffect(s, a);
    } else if sid < |s.sessions| {
      QuietAction(s, a, sid);
    } else {
      NoneErased(s, a);
    }
  }

  /** Every session is removed at most once, and that is when it is marked as erased. */
  lemma {:induction false} EachRemovalOnce(from: State, acts: seq<Action>, to: State, sid: nat)
    requires Inv(from) && Runs(from, acts, to)
    ensures Removed(from, sid) + Removals(from, acts, sid) == Removed(to, sid)
    decreases |acts|
  {
    if acts != [] {
      OneRemoval(from, acts[0], sid);
      InvStep(from, acts[0]);
      EachRemovalOnce(Apply(from, acts[0]), acts[1..], to, sid);
    }
  }

  // ---- fresh ids keep every unfinished session in the map ---------------------------------

  lemma WaitingStays(s: State, a: Action, j: nat)
    requires Inv(s) && Enabled(s, a) && EventOf(s, a) == [] && j < |s.sessions| && Waiting(s, j)
    ensures Waiting(Apply(s, a), j)
  {
    var u := s.sessions[j].token.t;
    assert SessionOk(s, j);
    ActionGuarantee(s, a, j);
    if a == Step(u) {
      assert s.threads[u].sat == SubLock;
      assert Apply(s, a).sessions == s.sessions;
    } else {
      OthersUnmoved(s, a, u);
    }
  }

  lemma OthersUnmoved(s: State, a: Action, u: nat)
    requires Enabled(s, a) && u < |s.threads| && s.threads[u].Submitting? && a != Step(u)
    ensures u < |Apply(s, a).threads| && Apply(s, a).threads[u] == s.threads[u]
  {
  }

  lemma ListedBefore(s: State, a: Action, j: nat)
    requires Enabled(s, a) && EventOf(s, a) != [] && j < |s.sessions|
    requires Listed(s) && ThreadOk(s, a.t) && SessionOk(s, j)
    requires EventOf(s, a)[0].Insert? ==> j != s.threads[a.t].sid
    requires !Apply(s, a).sessions[j].erased && !Waiting(Apply(s, a), j)
    ensures Maps(s.active, s.sessions[j].id, j)
  {
    EventEffect(s, a);
    OneThreadSteps(s, a.t);
  }

  lemma OneThreadSteps(s: State, t: nat)
    requires t < |s.threads| && CanStep(s, t)
    ensures var z := StepThread(s, t); t < |z.threads| && z.threads == s.threads[t := z.threads[t]]
  {
  }

  /** What an event does to a session that was in the map, or enters it. */
  lemma ListedAfter(s: State, z: State, e: Event, sid: nat, j: nat)
    requires Effect(s, z, sid, e) && j < |s.sessions| && !z.sessions[j].erased
    requires e.Insert? ==> e.id !in s.active
    requires Maps(s.active, s.sessions[j].id, j) || (e.Insert? && j == sid)
    requires e.Remove? ==> Maps(s.active, e.id, sid)
    ensures Maps(z.active, s.sessions[j].id, j)
  {
  }

  lemma SessionStaysListed(s: State, a: Action, j: nat)
    requires Enabled(s, a) && EventOf(s, a) != [] && FreshId(s, a) && j < |s.sessions|
    requires Listed(s) && ThreadOk(s, a.t) && SessionOk(s, j)
    requires !Apply(s, a).sessions[j].erased && !Waiting(Apply(s, a), j)
    ensures Maps(Apply(s, a).active, s.sessions[j].id, j)
  {
    var e, sid := EventOf(s, a)[0], s.threads[a.t].sid;
    EventEffect(s, a);
    if !(e.Insert? && j == sid) {
      ListedBefore(s, a, j);
    }
    ListedAfter(s, Apply(s, a), e, sid, j);
  }

  lemma QuietlyListed(s: State, a: Action, j: nat)
    requires Inv(s) && Listed(s) && Enabled(s, a) && j < |s.sessions| && EventOf(s, a) == []
    requires !Apply(s, a).sessions[j].erased && !Waiting(Apply(s, a), j)
    ensures Maps(Apply(s, a).active, s.sessions[j].id, j)
  {
    QuietTable(s, a);
    QuietAction(s, a, j);
    if Waiting(s, j) {
      WaitingStays(s, a, j);
    }
  }

  lemma ListedStays(s: State, a: Action)
    requires Inv(s) && Listed(s) && Enabled(s, a) && FreshId(s, a)
    ensures Listed(Apply(s, a))
  {
    var z := Apply(s, a);
    forall j | 0 <= j < |z.sessions| && !z.sessions[j].erased && !Waiting(z, j)
      ensures Maps(z.active, z.sessions[j].id, j)
    {
      if j < |s.sessions| {
        ActionGuarantee(s, a, j);
        if EventOf(s, a) != [] {
          assert ThreadOk(s, a.t) && SessionOk(s, j);
          SessionStaysListed(s, a, j);
        } else {
          QuietlyListed(s, a, j);
        }
      }
    }
  }

  /** An insert under an active id hides the earlier request from cancelRequest. */
  lemma ReusedIdHides(s: State, a: Action)
    requires Inv(s) && Listed(s) && Enabled(s, a) && !FreshId(s, a)
    ensures !Listed(Apply(s, a))
  {
    var sid, id := s.threads[a.t].sid, Look(s, a.t).x.id;
    assert ThreadOk(s, a.t) && EntryOk(s, id);
    EventEffect(s, a);
    var z, other := Apply(s, a), s.active[id];
    assert other != sid && z.active[id] == sid;
    assert SessionOk(s, other);
    if s.sessions[other].token.Submitter? {
      assert ThreadOk(s, s.sessions[other].token.t);
    }
    assert !Waiting(z, other) && !z.sessions[other].erased;
  }

  /** Fresh ids are exactly what keeps every unfinished request within reach. */
  lemma ListedExactly(s: State, a: Action)
    requires Inv(s) && Listed(s) && Enabled(s, a)
    ensures Listed(Apply(s, a)) <==> FreshId(s, a)
  {
    if FreshId(s, a) {
      ListedStays(s, a);
    } else {
      ReusedIdHides(s, a);
    }
  }

  // ---- whole runs --------------------------------------------------------------------------

  /** A run in which ids are fresh among active sessions. */
  ghost predicate FreshRuns(from: State, acts: seq<Action>, to: State)
    decreases |acts|
  {
    if acts == [] then from == to
    else Enabled(from, acts[0]) && FreshId(from, acts[0]) && FreshRuns(Apply(from, acts[0]), acts[1..], to)
  }

  /** The table operations of a run, in the order of their linearisation points. */
  function Events(from: State, acts: seq<Action>): seq<Event>
    decreases |acts|
  {
    if acts == [] || !Enabled(from, acts[0]) then []
    else EventOf(from, acts[0]) + Events(Apply(from, acts[0]), acts[1..])
  }

  lemma {:induction false} JoinTableRuns(a: Table, e1: seq<Event>, b: Table, e2: seq<Event>, c: Table)
    requires TableRuns(a, e1, b) && TableRuns(b, e2, c)
    ensures TableRuns(a, e1 + e2, c)
    decreases |e1|
  {
    if e1 == [] {
      assert e1 + e2 == e2;
    } else {
      JoinTableRuns(Update(a, e1[0]), e1[1..], b, e2, c);
      assert (e1 + e2)[1..] == e1[1..] + e2;
    }
  }

  lemma {:induction false} RunsRefine(from: State, acts: seq<Action>, to: State)
    requires Inv(from) && Listed(from) && FreshRuns(from, acts, to)
    ensures Inv(to) && Listed(to)
    ensures TableRuns(Abstract(from), Events(from, acts), Abstract(to))
    decreases |acts|
  {
    if acts != [] {
      var next := Apply(from, acts[0]);
      RefineAction(from, acts[0]);
      ListedStays(from, acts[0]);
      InvStep(from, acts[0]);
      RunsRefine(next, acts[1..], to);
      JoinTableRuns(Abstract(from), EventOf(from, acts[0]), Abstract(next), Events(next, acts[1..]), Abstract(to));
    }
  }

  /**
   Main result: any interleaving of any number of I/O and user threads performs its
   submissions, cancellations and completions as if each were one atomic operation on
   the request table. Each thread's calls are answered by one event each, in order, at
   most the last being open; each session is closed by one removal; and every callback
   reports the result the table fixed.
   */
  lemma ClientRefinesTable(n: nat, u: nat, acts: seq<Action>, s: State)
    requires FreshRuns(Init(n, u), acts, s)
    ensures EntriesOk(s)
    ensures TableRuns(Table(map[], map[]), Events(Init(n, u), acts), Abstract(s))
    ensures forall t: nat :: CallsOf(Init(n, u), acts, t) == AnswersOf(Init(n, u), acts, t) + OpenCall(s, t)
    ensures forall sid: nat ::
              Removals(Init(n, u), acts, sid) == if sid in Abstract(s).closed then 1 else 0
    ensures forall sid :: 0 <= sid < |s.sessions| && s.sessions[sid].calls != [] ==>
              sid in Abstract(s).closed && s.sessions[sid].calls[0].ec == Abstract(s).closed[sid]
  {
    InvInit(n, u);
    RunsRefine(Init(n, u), acts, s);
    assert Abstract(Init(n, u)) == Table(map[], map[]);
    AnswersAndRemovals(n, u, acts, s);
    ReportedIsFixed(s);
  }

  lemma AnswersAndRemovals(n: nat, u: nat, acts: seq<Action>, s: State)
    requires FreshRuns(Init(n, u), acts, s)
    ensures forall t: nat :: CallsOf(Init(n, u), acts, t) == AnswersOf(Init(n, u), acts, t) + OpenCall(s, t)
    ensures forall sid: nat :: Removals(Init(n, u), acts, sid) == Removed(s, sid)
  {
    InvInit(n, u);
    FreshRunsRun(Init(n, u), acts, s);
    forall t: nat
      ensures CallsOf(Init(n, u), acts, t) == AnswersOf(Init(n, u), acts, t) + OpenCall(s, t)
    {
      EachCallOnce(Init(n, u), acts, s, t);
      assert OpenCall(Init(n, u), t) == [];
    }
    forall sid: nat ensures Removals(Init(n, u), acts, sid) == Removed(s, sid) {
      EachRemovalOnce(Init(n, u), acts, s, sid);
    }
  }

  lemma ReportedIsFixed(s: State)
    requires Inv(s)
    ensures forall sid :: 0 <= sid < |s.sessions| && s.sessions[sid].calls != [] ==>
              sid in Abstract(s).closed && s.sessions[sid].calls[0].ec == Abstract(s).closed[sid]
  {
    forall sid | 0 <= sid < |s.sessions| && s.sessions[sid].calls != []
      ensures sid in Abstract(s).closed && s.sessions[sid].calls[0].ec == Abstract(s).closed[sid]
    {
      assert SessionOk(s, sid);
      CalledIsFinished(s, sid);
    }
  }

  lemma {:induction false} FreshRunsRun(from: State, acts: seq<Action>, to: State)
    requires FreshRuns(from, acts, to)
    ensures Runs(from, acts, to)
    decreases |acts|
  {
    if acts != [] {
      FreshRunsRun(Apply(from, acts[0]), acts[1..], to);
    }
  }

  lemma {:induction false} SplitTableRuns(a: Table, e1: seq<Event>, b: Table, e2: seq<Event>, c: Table)
    requires TableRuns(a, e1, b) && TableRuns(a, e1 + e2, c)
    ensures TableRuns(b, e2, c)
    decreases |e1|
  {
    if e1 == [] {
      assert e1 + e2 == e2;
    } else {
      assert (e1 + e2)[1..] == e1[1..] + e2;
      SplitTableRuns(Update(a, e1[0]), e1[1..], b, e2, c);
    }
  }

  /** An insert under an active id is not an operation of the table. */
  lemma ReusedIdNotAllowed(s: State, a: Action)
    requires Inv(s) && Enabled(s, a) && !FreshId(s, a)
    ensures |EventOf(s, a)| == 1 && !Allowed(Abstract(s), EventOf(s, a)[0])
  {
  }

  lemma {:induction false} OnlyFreshRunsRefine(from: State, acts: seq<Action>, to: State)
    requires Inv(from) && Listed(from) && Runs(from, acts, to) && EntriesOk(to)
    requires TableRuns(Abstract(from), Events(from, acts), Abstract(to))
    ensures FreshRuns(from, acts, to)
    decreases |acts|
  {
    if acts != [] {
      var a, next := acts[0], Apply(from, acts[0]);
      var e1, e2 := EventOf(from, a), Events(next, acts[1..]);
      assert Events(from, acts) == e1 + e2;
      if FreshId(from, a) {
        RefineAction(from, a);
        ListedStays(from, a);
        InvStep(from, a);
        SplitTableRuns(Abstract(from), e1, Abstract(next), e2, Abstract(to));
        OnlyFreshRunsRefine(next, acts[1..], to);
      } else {
        ReusedIdNotAllowed(from, a);
      }
    }
  }

  /** The client is a request table on exactly those runs in which no active id is reused. */
  lemma RefinesExactly(n: nat, u: nat, acts: seq<Action>, s: State)
    requires Runs(Init(n, u), acts, s)
    ensures EntriesOk(s)
    ensures TableRuns(Table(map[], map[]), Events(Init(n, u), acts), Abstract(s)) <==> FreshRuns(Init(n, u), acts, s)
  {
    InvInit(n, u);
    InvRuns(Init(n, u), acts, s);
    assert Abstract(Init(n, u)) == Table(map[], map[]);
    if FreshRuns(Init(n, u), acts, s) {
      RunsRefine(Init(n, u), acts, s);
    } else if TableRuns(Table(map[], map[]), Events(Init(n, u), acts), Abstract(s)) {
      OnlyFreshRunsRefine(Init(n, u), acts, s);
    }
  }
}
