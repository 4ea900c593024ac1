/**
 What the three servers have in common: one request and one reply per connection.
 The thread-per-client server runs the connections side by side (`Parallel`), the
 iterative server one after the other (`Serial`).
 */
module Connections {

  const RESPONSE: string := "Response\n"

  datatype Stage = Reading | Processing | Writing | Finishing | Gone

  datatype Conn = Conn(stage: Stage, request: string, response: string, sent: string)

  /** What can happen to one connection; a failed write may have sent some bytes. */
  datatype Move = ReadLine(data: string) | ReadFails | Process | WriteAll | WriteFails(count: nat) | Finish

  const NEW: Conn := Conn(Reading, "", "", "")

  predicate Can(c: Conn, m: Move) {
    match m
    case ReadLine(data) => c.stage == Reading && '\n' in data
    case ReadFails => c.stage == Reading
    case Process => c.stage == Processing
    case WriteAll => c.stage == Writing
    case WriteFails(count) => c.stage == Writing && count <= |c.response|
    case Finish => c.stage == Finishing
  }

  function Do(c: Conn, m: Move): Conn
    requires Can(c, m)
  {
    match m
    case ReadLine(data) => c.(stage := Processing, request := data)
    case ReadFails => c.(stage := Finishing)
    case Process => c.(stage := Writing, response := RESPONSE)
    case WriteAll => c.(stage := Finishing, sent := c.response)
    case WriteFails(count) => c.(stage := Finishing, sent := c.response[..count])
    case Finish => c.(stage := Gone)
  }

  // ---- servers ---------------------------------------------------------------------------

  datatype Event = Open(conn: nat) | At(conn: nat, move: Move)

  /** Connections side by side, each in its own thread of control. */
  predicate ParallelCan(conns: seq<Conn>, e: Event) {
    match e
    case Open(c) => c == |conns|
    case At(c, m) => c < |conns| && Can(conns[c], m)
  }

  function Next(conns: seq<Conn>, e: Event): seq<Conn>
    requires ParallelCan(conns, e)
  {
    match e
    case Open(_) => conns + [NEW]
    case At(c, m) => conns[c := Do(conns[c], m)]
  }

  /** One connection at a time: the next is accepted when the last is finished with. */
  predicate SerialCan(conns: seq<Conn>, e: Event) {
    && ParallelCan(conns, e)
    && (e.At? ==> e.conn == |conns| - 1)
    && (e.Open? ==> forall c :: 0 <= c < |conns| ==> conns[c].stage == Gone)
  }

  predicate Parallel(from: seq<Conn>, trace: seq<Event>, to: seq<Conn>)
    decreases |trace|
  {
    if trace == [] then from == to
    else ParallelCan(from, trace[0]) && Parallel(Next(from, trace[0]), trace[1..], to)
  }

  predicate Serial(from: seq<Conn>, trace: seq<Event>, to: seq<Conn>)
    decreases |trace|
  {
    if trace == [] then from == to
    else SerialCan(from, trace[0]) && Serial(Next(from, trace[0]), trace[1..], to)
  }

  // ---- independence ------------------------------------------------------------------------

  /** Steps of different connections, not both accepts. */
  predicate Independent(a: Event, b: Event) {
    a.conn != b.conn && !(a.Open? && b.Open?)
  }

  /** `after` is `before` with two neighbouring independent events exchanged. */
  predicate SwappedAt(before: seq<Event>, after: seq<Event>, i: nat) {
    && i + 1 < |before| && Independent(before[i], before[i + 1])
    && after == before[..i] + [before[i + 1], before[i]] + before[i + 2..]
  }

  ghost predicate Swapped(before: seq<Event>, after: seq<Event>) {
    exists i: nat :: SwappedAt(before, after, i)
  }

  /** Each trace of `path` is the one before with one such exchange. */
  ghost predicate Chain(path: seq<seq<Event>>) {
    forall i :: 0 <= i < |path| - 1 ==> Swapped(path[i], path[i + 1])
  }

  /** `to` is `from` reordered by exchanging neighbouring independent events only. */
  ghost predicate Reorders(from: seq<Event>, to: seq<Event>) {
    exists path :: path != [] && path[0] == from && path[|path| - 1] == to && Chain(path)
  }

  lemma ReordersTrivially(t: seq<Event>)
    ensures Reorders(t, t)
  {
    var path := [t];
    assert path[0] == t && path[|path| - 1] == t && Chain(path);
  }

  lemma ReordersOnce(before: seq<Event>, after: seq<Event>, i: nat)
    requires SwappedAt(before, after, i)
    ensures Reorders(before, after)
  {
    var path := [before, after];
    assert Swapped(path[0], path[1]);
    assert path[0] == before && path[|path| - 1] == after && Chain(path);
  }

  lemma ReordersThrough(a: seq<Event>, b: seq<Event>, c: seq<Event>)
    requires Reorders(a, b) && Reorders(b, c)
    ensures Reorders(a, c)
  {
    var p :| p != [] && p[0] == a && p[|p| - 1] == b && Chain(p);
    var q :| q != [] && q[0] == b && q[|q| - 1] == c && Chain(q);
    var path := p + q[1..];
    forall i | 0 <= i < |path| - 1 ensures Swapped(path[i], path[i + 1]) {
      if i < |p| - 1 {
        assert Swapped(p[i], p[i + 1]);
      } else {
        assert path[i] == q[i - |p| + 1] && path[i + 1] == q[i - |p| + 2];
      }
    }
    assert path[0] == a && path[|path| - 1] == c && Chain(path);
  }

  lemma SwappedBefore(before: seq<Event>, after: seq<Event>, e: Event)
    requires Swapped(before, after)
    ensures Swapped(before + [e], after + [e])
  {
    var i: nat :| SwappedAt(before, after, i);
    assert (before + [e])[..i] == before[..i];
    assert (before + [e])[i + 2..] == before[i + 2..] + [e];
    assert SwappedAt(before + [e], after + [e], i);
  }

  /** The path `p` with `e` after every trace. */
  function Extended(p: seq<seq<Event>>, e: Event): (path: seq<seq<Event>>)
    ensures |path| == |p| && forall i :: 0 <= i < |p| ==> path[i] == p[i] + [e]
  {
    seq(|p|, i requires 0 <= i < |p| => p[i] + [e])
  }

  lemma ExtendedChain(p: seq<seq<Event>>, e: Event)
    requires Chain(p)
    ensures Chain(Extended(p, e))
  {
    var path := Extended(p, e);
    forall i | 0 <= i < |path| - 1 ensures Swapped(path[i], path[i + 1]) {
      SwappedBefore(p[i], p[i + 1], e);
    }
  }

  lemma ReordersBefore(a: seq<Event>, b: seq<Event>, e: Event)
    requires Reorders(a, b)
    ensures Reorders(a + [e], b + [e])
  {
    var p :| p != [] && p[0] == a && p[|p| - 1] == b && Chain(p);
    ExtendedChain(p, e);
    var path := Extended(p, e);
    assert path != [] && path[0] == a + [e] && path[|path| - 1] == b + [e];
  }

  /** Exchanging independent events: `b` could have come first if it could come second. */
  lemma Diamond(conns: seq<Conn>, a: Event, b: Event)
    requires ParallelCan(conns, a) && ParallelCan(Next(conns, a), b) && Independent(a, b)
    requires a.Open? ==> b.conn < a.conn
    ensures ParallelCan(conns, b) && ParallelCan(Next(conns, b), a)
    ensures Next(Next(conns, b), a) == Next(Next(conns, a), b)
  {
  }

  /** Cutting a run in two, and pasting. */
  lemma {:induction false} Split(from: seq<Conn>, t1: seq<Event>, t2: seq<Event>, to: seq<Conn>)
    returns (mid: seq<Conn>)
    requires Parallel(from, t1 + t2, to)
    ensures Parallel(from, t1, mid) && Parallel(mid, t2, to)
    decreases |t1|
  {
    if t1 == [] {
      assert t1 + t2 == t2;
      mid := from;
    } else {
      assert (t1 + t2)[1..] == t1[1..] + t2;
      mid := Split(Next(from, t1[0]), t1[1..], t2, to);
    }
  }

  lemma {:induction false} Paste(from: seq<Conn>, t1: seq<Event>, mid: seq<Conn>, t2: seq<Event>, to: seq<Conn>)
    requires Parallel(from, t1, mid) && Parallel(mid, t2, to)
    ensures Parallel(from, t1 + t2, to)
    decreases |t1|
  {
    if t1 == [] {
      assert t1 + t2 == t2;
    } else {
      assert (t1 + t2)[1..] == t1[1..] + t2;
      Paste(Next(from, t1[0]), t1[1..], mid, t2, to);
    }
  }

  lemma TwoSteps(from: seq<Conn>, a: Event, b: Event, to: seq<Conn>)
    ensures Parallel(from, [a, b], to) <==>
      ParallelCan(from, a) && ParallelCan(Next(from, a), b) && Next(Next(from, a), b) == to
  {
    assert [a, b][1..] == [b] && [b][1..] == [];
    if ParallelCan(from, a) && ParallelCan(Next(from, a), b) {
      assert Parallel(Next(from, a), [b], to) <==> Next(Next(from, a), b) == to;
    }
  }

  // ---- sorting a run by connection ------------------------------------------------------------

  /** Moves an event left past the events of later connections. */
  function Insert(trace: seq<Event>, e: Event): seq<Event> {
    if trace == [] || trace[|trace| - 1].conn <= e.conn then trace + [e]
    else Insert(trace[..|trace| - 1], e) + [trace[|trace| - 1]]
  }

  function Serialize(trace: seq<Event>): seq<Event> {
    if trace == [] then []
    else Insert(Serialize(trace[..|trace| - 1]), trace[|trace| - 1])
  }

  predicate Sorted(trace: seq<Event>) {
    forall i, j :: 0 <= i < j < |trace| ==> trace[i].conn <= trace[j].conn
  }

  lemma {:induction false} InsertBounded(trace: seq<Event>, e: Event, bound: nat)
    requires e.conn <= bound && forall i :: 0 <= i < |trace| ==> trace[i].conn <= bound
    ensures forall i :: 0 <= i < |Insert(trace, e)| ==> Insert(trace, e)[i].conn <= bound
  {
    if !(trace == [] || trace[|trace| - 1].conn <= e.conn) {
      InsertBounded(trace[..|trace| - 1], e, bound);
    }
  }

  lemma {:induction false} InsertSorts(trace: seq<Event>, e: Event)
    requires Sorted(trace)
    ensures Sorted(Insert(trace, e))
  {
    if !(trace == [] || trace[|trace| - 1].conn <= e.conn) {
      var head, last := trace[..|trace| - 1], trace[|trace| - 1];
      InsertSorts(head, e);
      InsertBounded(head, e, last.conn);
    }
  }

  /** Inserting reorders, and keeps a run a run with the same result. */
  lemma {:induction false} InsertCommutes(from: seq<Conn>, trace: seq<Event>, e: Event, to: seq<Conn>)
    requires Parallel(from, trace + [e], to)
    ensures Parallel(from, Insert(trace, e), to) && Reorders(trace + [e], Insert(trace, e))
    decreases |trace|
  {
    if trace == [] || trace[|trace| - 1].conn <= e.conn {
      ReordersTrivially(trace + [e]);
    } else {
      var head, last := trace[..|trace| - 1], trace[|trace| - 1];
      assert trace + [e] == head + [last, e];
      var mid := Split(from, head, [last, e], to);
      TwoSteps(mid, last, e, to);
      Diamond(mid, last, e);
      TwoSteps(mid, e, last, to);
      Paste(from, head, mid, [e, last], to);
      assert head + [e, last] == (head + [e]) + [last];
      var next := Split(from, head + [e], [last], to);
      InsertCommutes(from, head, e, next);
      Paste(from, Insert(head, e), next, [last], to);
      assert SwappedAt(trace + [e], head + [e] + [last], |head|);
      ReordersOnce(trace + [e], head + [e] + [last], |head|);
      ReordersBefore(head + [e], Insert(head, e), last);
      ReordersThrough(trace + [e], head + [e] + [last], Insert(trace, e));
    }
  }

  lemma {:induction false} SerializeCommutes(from: seq<Conn>, trace: seq<Event>, to: seq<Conn>)
    requires Parallel(from, trace, to)
    ensures Parallel(from, Serialize(trace), to) && Reorders(trace, Serialize(trace)) && Sorted(Serialize(trace))
    decreases |trace|
  {
    if trace == [] {
      ReordersTrivially(trace);
    } else {
      var head, last := trace[..|trace| - 1], trace[|trace| - 1];
      assert trace == head + [last];
      var mid := Split(from, head, [last], to);
      SerializeCommutes(from, head, mid);
      Paste(from, Serialize(head), mid, [last], to);
      InsertCommutes(from, Serialize(head), last, to);
      InsertSorts(Serialize(head), last);
      ReordersBefore(head, Serialize(head), last);
      ReordersThrough(trace, Serialize(head) + [last], Serialize(trace));
    }
  }

  // ---- a sorted, drained run is serial ------------------------------------------------------------

  lemma {:induction false} Untouched(from: seq<Conn>, trace: seq<Event>, to: seq<Conn>, c: nat)
    requires Parallel(from, trace, to) && c < |from|
    requires forall i :: 0 <= i < |trace| ==> trace[i].conn != c
    ensures c < |to| && to[c] == from[c]
    decreases |trace|
  {
    if trace != [] {
      Untouched(Next(from, trace[0]), trace[1..], to, c);
    }
  }

  predicate AllGone(conns: seq<Conn>) {
    forall c :: 0 <= c < |conns| ==> conns[c].stage == Gone
  }

  lemma {:induction false} SortedIsSerial(from: seq<Conn>, trace: seq<Event>, to: seq<Conn>)
    requires Parallel(from, trace, to) && Sorted(trace) && AllGone(to)
    requires trace != [] ==> |from| <= trace[0].conn + 1
    ensures Serial(from, trace, to)
    decreases |trace|
  {
    if trace != [] {
      var e := trace[0];
      if e.Open? {
        forall c | 0 <= c < |from| ensures from[c].stage == Gone {
          Untouched(from, trace, to, c);
        }
      }
      SortedIsSerial(Next(from, e), trace[1..], to);
    }
  }

  /**
   Every drained side-by-side run is, up to exchanging steps of different connections, a
   run that serves the same connections in the same order one at a time and leaves each
   with the same request and reply bytes.
   */
  lemma ParallelIsSerial(trace: seq<Event>, to: seq<Conn>)
    requires Parallel([], trace, to) && AllGone(to)
    ensures Serial([], Serialize(trace), to) && Reorders(trace, Serialize(trace))
  {
    SerializeCommutes([], trace, to);
    SortedIsSerial([], Serialize(trace), to);
  }

  // ---- what a client gets ------------------------------------------------------------------------

  predicate ConnOk(c: Conn) {
    && c.sent <= RESPONSE
    && (c.response == "" || c.response == RESPONSE)
    && (c.stage == Writing ==> c.response == RESPONSE)
    && (c.stage == Processing || c.response != "" ==> '\n' in c.request)
    && (c.sent != "" ==> c.response != "")
  }

  /** No byte of the reply is sent before the whole request line has been read. */
  lemma {:induction false} RepliesFollowRequests(from: seq<Conn>, trace: seq<Event>, to: seq<Conn>)
    requires Parallel(from, trace, to) && forall c :: 0 <= c < |from| ==> ConnOk(from[c])
    ensures forall c :: 0 <= c < |to| ==> ConnOk(to[c]) && (to[c].sent != "" ==> '\n' in to[c].request)
    decreases |trace|
  {
    if trace != [] {
      RepliesFollowRequests(Next(from, trace[0]), trace[1..], to);
    }
  }
}
