/**
 Partial reads and writes chained through callbacks: each completion either ends the
 chain or initiates the next operation on the rest of the buffer.
 */
module CallbackChains {
  import opened Sockets

  datatype Status = Outstanding | Finished | Failed

  /** A chain: bytes moved, whether an operation is outstanding, operations started, callbacks run. */
  datatype Chain = Chain(total: nat, status: Status, initiated: nat, called: nat)

  const STARTED: Chain := Chain(0, Outstanding, 1, 0)

  /** What the callback makes of a completion, on a buffer of this size. */
  function Completed(c: Chain, size: nat, ok: bool, bytesTransferred: nat): Chain {
    if !ok then c.(status := Failed, called := c.called + 1)
    else
      var total := c.total + bytesTransferred;
      if total == size then Chain(total, Finished, c.initiated, c.called + 1)
      else Chain(total, Outstanding, c.initiated + 1, c.called + 1)
  }

  /** src/ch02/06: the session of a chained write. */
  class WriteSession {
    const sock: Socket
    const buf: string
    var totalBytesWritten: nat
    var status: Status
    ghost var initiated: nat   // operations started
    ghost var called: nat      // callbacks run

    ghost function Contents(): Chain
      reads this
    {
      Chain(totalBytesWritten, status, initiated, called)
    }

    ghost predicate Valid()
      reads this
    {
      && totalBytesWritten <= |buf|
      && initiated == called + (if status == Outstanding then 1 else 0)
      && (status == Finished ==> totalBytesWritten == |buf|)
    }

    /** `writeToSocket`: the first operation covers the whole buffer. */
    constructor (sock: Socket, buf: string)
      ensures Valid() && this.sock == sock && this.buf == buf
      ensures Contents() == STARTED
    {
      this.sock, this.buf := sock, buf;
      totalBytesWritten, status, initiated, called := 0, Outstanding, 1, 0;
    }

    method Callback(ok: bool, bytesTransferred: nat)
      requires Valid() && status == Outstanding
      requires ok ==> totalBytesWritten + bytesTransferred <= |buf|
      modifies this
      ensures Valid() && Contents() == Completed(old(Contents()), |buf|, ok, bytesTransferred)
    {
      called := called + 1;
      if !ok {
        status := Failed;
        return;
      }
      totalBytesWritten := totalBytesWritten + bytesTransferred;
      if totalBytesWritten == |buf| {
        status := Finished;
        return;
      }
      initiated := initiated + 1;
    }

    /**
     `ios.run()`: completes the outstanding operation until none is left. The chain sends
     what one `async_write` would, and every operation has exactly one callback.
     */
    method Run()
      requires Valid() && status == Outstanding && totalBytesWritten == 0 && !sock.failed
      modifies this, sock
      ensures Valid() && status != Outstanding && called == initiated
      ensures status == Failed <==> sock.failed
      ensures sock.outgoing == old(sock.outgoing) + buf[..totalBytesWritten]
      ensures status == Finished <==> totalBytesWritten == |buf|
    {
      while status == Outstanding
        invariant Valid() && (status == Failed <==> sock.failed)
        invariant sock.outgoing == old(sock.outgoing) + buf[..totalBytesWritten]
        invariant status == Failed ==> totalBytesWritten < |buf|
        invariant status == Outstanding ==> totalBytesWritten < |buf| || buf == ""
        decreases |buf| - totalBytesWritten, if status == Outstanding then 1 else 0
      {
        var rest := buf[totalBytesWritten..];
        if rest == "" {
          Callback(true, 0);
        } else {
          var ok, count := sock.WriteSome(rest);
          assert buf[..totalBytesWritten] + rest[..count] == buf[..totalBytesWritten + count];
          Callback(ok, count);
        }
      }
    }
  }

  /** src/ch02/08: the session of a chained read into a buffer of fixed size. */
  class ReadSession {
    const sock: Socket
    const buf: array<char>
    var totalBytesRead: nat
    var status: Status
    ghost var initiated: nat
    ghost var called: nat

    ghost function Contents(): Chain
      reads this
    {
      Chain(totalBytesRead, status, initiated, called)
    }

    ghost predicate Valid()
      reads this
    {
      && totalBytesRead <= buf.Length
      && initiated == called + (if status == Outstanding then 1 else 0)
      && (status == Finished ==> totalBytesRead == buf.Length)
    }

    /** `readFromSocket`. */
    constructor (sock: Socket, bufSize: nat)
      requires bufSize > 0
      ensures Valid() && this.sock == sock && buf.Length == bufSize && fresh(buf)
      ensures Contents() == STARTED
    {
      this.sock, buf := sock, new char[bufSize];
      totalBytesRead, status, initiated, called := 0, Outstanding, 1, 0;
    }

    method Callback(ok: bool, bytesTransferred: nat)
      requires Valid() && status == Outstanding
      requires ok ==> totalBytesRead + bytesTransferred <= buf.Length
      modifies this
      ensures Valid() && Contents() == Completed(old(Contents()), buf.Length, ok, bytesTransferred)
    {
      called := called + 1;
      if !ok {
        status := Failed;
        return;
      }
      totalBytesRead := totalBytesRead + bytesTransferred;
      if totalBytesRead == buf.Length {
        status := Finished;
        return;
      }
      initiated := initiated + 1;
    }

    /** The chain takes from the stream exactly what one `async_read` of the buffer would. */
    method Run()
      requires Valid() && status == Outstanding && totalBytesRead == 0 && buf.Length > 0 && !sock.failed
      modifies this, sock, buf
      ensures Valid() && status != Outstanding && called == initiated
      ensures status == Failed <==> sock.failed
      ensures old(sock.incoming) == buf[..totalBytesRead] + sock.incoming
      ensures status == Finished <==> totalBytesRead == buf.Length
    {
      while status == Outstanding
        invariant Valid() && (status == Failed <==> sock.failed)
        invariant old(sock.incoming) == buf[..totalBytesRead] + sock.incoming
        invariant status != Finished ==> totalBytesRead < buf.Length
        decreases buf.Length - totalBytesRead, if status == Outstanding then 1 else 0
      {
        var ok, data := sock.ReadSome(buf.Length - totalBytesRead);
        ghost var before := buf[..totalBytesRead];
        forall i | 0 <= i < |data| {
          buf[totalBytesRead + i] := data[i];
        }
        assert buf[..totalBytesRead + |data|] == before + data;
        Callback(ok, |data|);
      }
    }
  }

  // ---- a write chain and a read chain on the two ends of one stream -------------------------

  /** The writer's chain over `message`, the stream, and the reader's chain into `got`, up to `size`. */
  datatype Link = Link(message: string, size: nat, writer: Chain, wire: string, reader: Chain, got: string)

  /** The outstanding operation of one of the chains completes. */
  datatype Completion = Written(ok: bool, count: nat) | Read(ok: bool, count: nat)

  predicate Can(l: Link, c: Completion) {
    match c
    case Written(ok, n) =>
      && l.writer.status == Outstanding && l.writer.total + n <= |l.message|
      && (if ok then n >= 1 || l.writer.total == |l.message| else n == 0)
    case Read(ok, n) =>
      && l.reader.status == Outstanding && l.reader.total + n <= l.size && n <= |l.wire|
      && (if ok then n >= 1 || l.reader.total == l.size else n == 0)
  }

  function Do(l: Link, c: Completion): Link
    requires Can(l, c)
  {
    match c
    case Written(ok, n) =>
      l.(writer := Completed(l.writer, |l.message|, ok, n),
         wire := l.wire + l.message[l.writer.total..l.writer.total + n])
    case Read(ok, n) =>
      l.(reader := Completed(l.reader, l.size, ok, n), got := l.got + l.wire[..n], wire := l.wire[n..])
  }

  ghost predicate Runs(from: Link, completions: seq<Completion>, to: Link)
    decreases |completions|
  {
    if completions == [] then from == to
    else Can(from, completions[0]) && Runs(Do(from, completions[0]), completions[1..], to)
  }

  /** One callback per operation, at most one operation at a time, and at most one more than bytes moved. */
  predicate ChainOk(c: Chain, size: nat) {
    && c.total <= size
    && c.initiated == c.called + (if c.status == Outstanding then 1 else 0)
    && c.called <= c.total + (if c.status == Outstanding then 0 else 1)
    && (c.status == Finished ==> c.total == size)
    && (c.status == Outstanding ==> c.total < size || size == 0)
  }

  predicate InOrder(l: Link) {
    && ChainOk(l.writer, |l.message|) && ChainOk(l.reader, l.size)
    && |l.got| == l.reader.total && l.got + l.wire == l.message[..l.writer.total]
  }

  lemma WrittenStaysInOrder(l: Link, ok: bool, n: nat)
    requires InOrder(l) && Can(l, Written(ok, n))
    ensures InOrder(Do(l, Written(ok, n)))
  {
    var total := l.writer.total;
    assert l.message[..total] + l.message[total..total + n] == l.message[..total + n];
  }

  lemma ReadStaysInOrder(l: Link, ok: bool, n: nat)
    requires InOrder(l) && Can(l, Read(ok, n))
    ensures InOrder(Do(l, Read(ok, n)))
  {
    assert l.wire == l.wire[..n] + l.wire[n..];
  }

  lemma {:induction false} ChunksStayInOrder(from: Link, completions: seq<Completion>, to: Link)
    requires Runs(from, completions, to) && InOrder(from)
    ensures InOrder(to) && to.message == from.message && to.size == from.size
    ensures to.writer.called + to.reader.called == from.writer.called + from.reader.called + |completions|
    decreases |completions|
  {
    if completions != [] {
      match completions[0] {
        case Written(ok, n) => WrittenStaysInOrder(from, ok, n);
        case Read(ok, n) => ReadStaysInOrder(from, ok, n);
      }
      ChunksStayInOrder(Do(from, completions[0]), completions[1..], to);
    }
  }

  /** Nothing but an error can happen any more. */
  ghost predicate AtRest(l: Link) {
    forall c :: Can(l, c) ==> !c.ok
  }

  lemma RestMeansDone(l: Link)
    requires InOrder(l) && AtRest(l)
    ensures l.writer.status != Outstanding
    ensures l.reader.status == Outstanding ==> l.wire == ""
  {
    assert !Can(l, Written(true, if l.message == "" then 0 else 1));
    assert !Can(l, Read(true, if l.size == 0 then 0 else 1));
  }

  /**
   However the completions of the two chains are interleaved, chunked and failed, the
   chains end; each callback answers one operation and no operation follows an error; and
   what has arrived is a prefix of the message. A chain that finishes has moved exactly its
   buffer, and without errors the reader ends with what one read of one write would give.
   */
  lemma ChainsDeliver(message: string, size: nat, completions: seq<Completion>, to: Link)
    requires Runs(Link(message, size, STARTED, "", STARTED, ""), completions, to)
    ensures |completions| <= |message| + size + 2
    ensures to.got <= message
    ensures forall c :: c in {to.writer, to.reader} ==>
              c.initiated - c.called == if c.status == Outstanding then 1 else 0
    ensures to.writer.status == Finished ==> to.got + to.wire == message
    ensures to.reader.status == Finished ==> size <= |message| && to.got == message[..size]
    ensures AtRest(to) && to.writer.status != Failed && to.reader.status != Failed ==>
      to.writer.status == Finished && to.got == message[..if size <= |message| then size else |message|]
  {
    var from := Link(message, size, STARTED, "", STARTED, "");
    ChunksStayInOrder(from, completions, to);
    assert to.got <= message[..to.writer.total];
    assert to.writer.status == Finished ==> message[..to.writer.total] == message;
    if AtRest(to) {
      RestMeansDone(to);
    }
  }
}
