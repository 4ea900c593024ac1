/**
 One end of a TCP connection, and the synchronous loops over it. The network decides how
 many bytes each call moves, at least one, or fails the call.
 */
module Sockets {
  import opened Text

  class Socket {
    var incoming: string   // sent by the peer and not yet read, up to its end of stream
    var outgoing: string   // written so far
    ghost var failed: bool // some operation has reported an error

    constructor (incoming: string)
      ensures this.incoming == incoming && outgoing == "" && !failed
    {
      this.incoming, outgoing, failed := incoming, "", false;
    }

    /** `write_some`: some non-empty prefix of the data is sent, or the call fails. */
    method WriteSome(data: string) returns (ok: bool, count: nat)
      requires data != ""
      modifies this
      ensures incoming == old(incoming)
      ensures ok ==> 1 <= count <= |data|
      ensures !ok ==> count == 0
      ensures outgoing == old(outgoing) + data[..count]
      ensures failed == (old(failed) || !ok)
    {
      ok := *;
      count := 0;
      failed := failed || !ok;
      if ok {
        count :| 1 <= count <= |data|;
        outgoing := outgoing + data[..count];
      }
    }

    /** `read_some`: some non-empty prefix of the stream is taken, or the call fails, as at its end. */
    method ReadSome(limit: nat) returns (ok: bool, data: string)
      requires limit > 0
      modifies this
      ensures outgoing == old(outgoing) && old(incoming) == data + incoming
      ensures ok <==> data != ""
      ensures |data| <= limit
      ensures failed == (old(failed) || !ok)
    {
      ok := *;
      ok := ok && incoming != "";
      failed := failed || !ok;
      data := "";
      if ok {
        var count: nat :| 1 <= count <= limit && count <= |incoming|;
        data, incoming := incoming[..count], incoming[count..];
      }
    }
  }

  // ---- src/ch02/04: writing a whole buffer ------------------------------------------------

  /** The write loop, and `asio::write`: everything is sent, or a proper prefix and an error. */
  method WriteAll(sock: Socket, buf: string) returns (ok: bool, written: nat)
    modifies sock
    ensures sock.incoming == old(sock.incoming)
    ensures written <= |buf| && sock.outgoing == old(sock.outgoing) + buf[..written]
    ensures ok <==> written == |buf|
    ensures sock.failed == (old(sock.failed) || !ok)
  {
    written := 0;
    ok := true;
    while written != |buf|
      invariant written <= |buf|
      invariant sock.incoming == old(sock.incoming) && sock.failed == old(sock.failed)
      invariant sock.outgoing == old(sock.outgoing) + buf[..written]
      decreases |buf| - written
    {
      var sent, count := sock.WriteSome(buf[written..]);
      if !sent {
        return false, written;
      }
      assert buf[..written] + buf[written..][..count] == buf[..written + count];
      written := written + count;
    }
  }

  // ---- src/ch02/05: filling a buffer of fixed size -----------------------------------------

  /** The read loop, and `asio::read` on a fixed buffer: filled exactly, or an error. */
  method ReadExactly(sock: Socket, buf: array<char>) returns (ok: bool, total: nat)
    modifies sock, buf
    ensures sock.outgoing == old(sock.outgoing)
    ensures total <= buf.Length && old(sock.incoming) == buf[..total] + sock.incoming
    ensures ok <==> total == buf.Length
    ensures sock.failed == (old(sock.failed) || !ok)
  {
    total := 0;
    ok := true;
    while total != buf.Length
      invariant total <= buf.Length
      invariant sock.outgoing == old(sock.outgoing) && sock.failed == old(sock.failed)
      invariant old(sock.incoming) == buf[..total] + sock.incoming
      decreases buf.Length - total
    {
      var got, data := sock.ReadSome(buf.Length - total);
      if !got {
        return false, total;
      }
      ghost var before := buf[..total];
      forall i | 0 <= i < |data| {
        buf[total + i] := data[i];
      }
      assert buf[..total + |data|] == before + data;
      total := total + |data|;
    }
  }

  // ---- read_until and getline --------------------------------------------------------------

  /** `read_until`: the buffer grows by whole reads until it holds the delimiter. */
  method ReadUntil(sock: Socket, buf: string, delim: char) returns (ok: bool, filled: string)
    modifies sock
    ensures sock.outgoing == old(sock.outgoing)
    ensures buf <= filled && buf + old(sock.incoming) == filled + sock.incoming
    ensures ok <==> delim in filled
    ensures delim in buf ==> filled == buf
    ensures ok && delim !in buf ==> exists k :: |buf| <= k < |filled| <= k + 512 && delim !in filled[..k]
    ensures sock.failed == (old(sock.failed) || !ok)
  {
    filled := buf;
    ok := true;
    while delim !in filled
      invariant sock.outgoing == old(sock.outgoing) && sock.failed == old(sock.failed)
      invariant buf <= filled && buf + old(sock.incoming) == filled + sock.incoming
      invariant delim in buf ==> filled == buf
      invariant delim in filled && delim !in buf ==>
        exists k :: |buf| <= k < |filled| <= k + 512 && delim !in filled[..k]
      decreases |sock.incoming|
    {
      ghost var before := filled;
      var got, data := sock.ReadSome(512);
      if !got {
        return false, filled;
      }
      filled := filled + data;
      assert filled[..|before|] == before;
    }
  }

  /** A line read from a stream does not depend on how the stream was cut into reads. */
  lemma LineIgnoresChunks(filled: string, rest: string, delim: char)
    requires delim in filled
    ensures LineOf(filled, delim) == LineOf(filled + rest, delim)
  {
    var line := LineOf(filled, delim);
    assert filled == line + [delim] + filled[|line| + 1..];
    LineOfPrefix(line, filled[|line| + 1..] + rest, delim);
    assert filled + rest == line + [delim] + (filled[|line| + 1..] + rest);
  }

  /** `readFromSocketDelim`: the first line of the stream; what was read beyond it is dropped. */
  method ReadLine(sock: Socket, delim: char) returns (ok: bool, line: string)
    modifies sock
    ensures sock.outgoing == old(sock.outgoing) && sock.failed == (old(sock.failed) || !ok)
    ensures ok ==> delim in old(sock.incoming) && line == LineOf(old(sock.incoming), delim)
    ensures ok ==> exists read :: read + sock.incoming == old(sock.incoming) && line + [delim] <= read
  {
    var filled;
    ok, filled := ReadUntil(sock, "", delim);
    line := "";
    if ok {
      line := LineOf(filled, delim);
      LineIgnoresChunks(filled, sock.incoming, delim);
      assert "" + old(sock.incoming) == old(sock.incoming);
      assert filled + sock.incoming == old(sock.incoming) && line + [delim] <= filled;
    }
  }
}
