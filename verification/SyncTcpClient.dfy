/** The synchronous client: one request, one line back, with a fresh buffer per call. */
module SyncTcpClient {
  import opened Text
  import opened Sockets

  class SyncTCPClient {
    const sock: Socket

    constructor (sock: Socket)
      ensures this.sock == sock
    {
      this.sock := sock;
    }

    /** `sendRequest`. */
    method SendRequest(request: string) returns (ok: bool)
      modifies sock
      ensures sock.incoming == old(sock.incoming)
      ensures ok <==> sock.outgoing == old(sock.outgoing) + request
      ensures sock.failed == (old(sock.failed) || !ok)
    {
      var written;
      ok, written := WriteAll(sock, request);
      assert request[..|request|] == request;
    }

    /** `receiveResponse`: the line, if one arrives; `left` is what stays unread in the socket. */
    method ReceiveResponse() returns (ok: bool, response: string)
      modifies sock
      ensures sock.outgoing == old(sock.outgoing) && sock.failed == (old(sock.failed) || !ok)
      ensures ok ==> '\n' in old(sock.incoming) && response == LineOf(old(sock.incoming))
      ensures ok ==> exists read ::
        read + sock.incoming == old(sock.incoming) && response + ['\n'] <= read
    {
      ok, response := ReadLine(sock, '\n');
    }

    /**
     `emulateLongComputationOp` against a peer that answers the complete request with
     `answer`. The line returned is the first of what was waiting and the answer, however
     it is cut into chunks; and if nothing waits and the answer is one line, nothing is lost
     with the discarded buffer.
     */
    method EmulateLongComputationOp(durationSec: nat, answer: string) returns (ok: bool, response: string)
      modifies sock
      ensures sock.failed == (old(sock.failed) || !ok)
      ensures ok ==> sock.outgoing == old(sock.outgoing) + Request(COMP_KEYWORD, durationSec)
      ensures ok ==> '\n' in old(sock.incoming) + answer && response == LineOf(old(sock.incoming) + answer)
      ensures ok && old(sock.incoming) + answer == response + ['\n'] ==> sock.incoming == ""
    {
      response := "";
      ok := SendRequest(Request(COMP_KEYWORD, durationSec));
      if ok {
        sock.incoming := sock.incoming + answer;
        ghost var stream := sock.incoming;
        ok, response := ReceiveResponse();
        if ok && stream == response + ['\n'] {
          var read :| read + sock.incoming == stream && response + ['\n'] <= read;
        }
      }
    }

    /** The call in lock-step: nothing waits before, the answer is one line, and nothing waits after. */
    method Ask(durationSec: nat, line: string) returns (ok: bool, response: string)
      requires '\n' !in line && sock.incoming == ""
      modifies sock
      ensures sock.failed == (old(sock.failed) || !ok)
      ensures ok ==> response == line && sock.incoming == ""
      ensures ok ==> sock.outgoing == old(sock.outgoing) + Request(COMP_KEYWORD, durationSec)
    {
      WholeAnswer(line);
      assert "" + (line + ['\n']) == line + ['\n'];
      ok, response := EmulateLongComputationOp(durationSec, line + ['\n']);
    }

    /** A conversation: the k-th call returns the k-th answer, and only an error ends it early. */
    method Converse(durations: seq<nat>, answers: seq<string>) returns (responses: seq<string>)
      requires |durations| == |answers| && forall i :: 0 <= i < |answers| ==> '\n' !in answers[i]
      requires sock.incoming == "" && !sock.failed
      modifies sock
      ensures responses <= answers && (!sock.failed ==> responses == answers)
      ensures responses == answers ==>
        sock.incoming == "" && sock.outgoing == old(sock.outgoing) + Requests(COMP_KEYWORD, durations)
    {
      responses := [];
      var i := 0;
      ghost var start := sock.outgoing;
      ghost var requests := "";
      while i < |durations|
        invariant i <= |durations| && responses == answers[..i] && sock.incoming == "" && !sock.failed
        invariant sock.outgoing == start + requests && requests == Requests(COMP_KEYWORD, durations[..i])
        decreases |durations| - i
      {
        var ok, response := Ask(durations[i], answers[i]);
        if !ok {
          return;
        }
        OneMoreRequest(COMP_KEYWORD, durations, i);
        requests := requests + Request(COMP_KEYWORD, durations[i]);
        responses := responses + [response];
        i := i + 1;
      }
      assert durations[..i] == durations && answers[..i] == answers;
    }
  }

  lemma WholeAnswer(line: string)
    requires '\n' !in line
    ensures LineOf(line + ['\n']) == line
  {
    LineOfPrefix(line, "", '\n');
    assert line + ['\n'] + "" == line + ['\n'];
  }

  lemma OneMoreRequest(keyword: string, durations: seq<nat>, i: nat)
    requires i < |durations|
    ensures Requests(keyword, durations[..i + 1]) == Requests(keyword, durations[..i]) + Request(keyword, durations[i])
  {
    RequestsAppend(keyword, durations[..i], durations[i]);
    assert durations[..i + 1] == durations[..i] + [durations[i]];
  }

  lemma {:induction false} RequestsAppend(keyword: string, durations: seq<nat>, last: nat)
    ensures Requests(keyword, durations + [last]) == Requests(keyword, durations) + Request(keyword, last)
  {
    if durations != [] {
      assert (durations + [last])[1..] == durations[1..] + [last];
      RequestsAppend(keyword, durations[1..], last);
    } else {
      assert durations + [last] == [last] && [last][1..] == [];
    }
  }

  // ---- when lock-step is safe -----------------------------------------------------------------

  /** A buffer `read_until` may return for this stream: it ends with a read that brought the newline. */
  predicate MayRead(stream: string, read: string) {
    read <= stream && '\n' in read
  }

  /** What the next call will still find, once this one's buffer is gone. */
  function Unread(stream: string, read: string): string
    requires read <= stream
  {
    stream[|read|..]
  }

  /**
   A client that drops its buffer keeps up with its peer, however the bytes are cut,
   exactly when the peer answers with one line and nothing else.
   */
  lemma LockStepExactly(answer: string)
    requires '\n' in answer
    ensures (forall read :: MayRead(answer, read) ==>
               read == LineOf(read) + ['\n'] && Unread(answer, read) == "")
            <==> answer == LineOf(answer) + ['\n']
  {
    var line := LineOf(answer);
    if answer == line + ['\n'] {
      forall read | MayRead(answer, read)
        ensures read == LineOf(read) + ['\n'] && Unread(answer, read) == ""
      {
        LineIgnoresChunks(read, Unread(answer, read), '\n');
        assert answer == read + Unread(answer, read);
        assert line + ['\n'] <= read;
      }
    } else {
      assert MayRead(answer, answer);
    }
  }
}
