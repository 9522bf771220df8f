/** The client's two relay processes, and what they make of the path from a client's pipe to the log and from
    the log to another client. */
module Relay {
  import opened Text
  import opened Wire
  import opened Server
  import opened Shuffle
  import opened Locking
  import opened Delivery
  import opened Sending

  /** A descriptor's stream: all bytes that will still come in on it, or all that went out on it. */
  class ByteStream {
    var bytes: string
    var failed: bool

    constructor (bytes: string)
      ensures this.bytes == bytes && !failed
    {
      this.bytes := bytes;
      failed := false;
    }

    /** read(2): some bytes from the front, "" only at the end, or None on an error. */
    method Read(size: nat) returns (chunk: Option<string>)
      requires size > 0
      modifies this
      ensures failed == (old(failed) || chunk.None?)
      ensures chunk.None? ==> bytes == old(bytes)
      ensures chunk.Some? ==> |chunk.value| <= size && old(bytes) == chunk.value + bytes
      ensures chunk == Some("") ==> bytes == ""
    {
      var fails: bool := *;
      if fails {
        failed := true;
        return None;
      }
      var n: nat := *;
      if n == 0 {
        n := 1;
      }
      n := Min(n, Min(size, |bytes|));
      chunk := Some(bytes[..n]);
      bytes := bytes[n..];
    }

    /** write(2): how many bytes of `chunk` went out; it has failed when not all did. */
    method Write(chunk: string) returns (n: nat)
      modifies this
      ensures n <= |chunk| && bytes == old(bytes) + chunk[..n]
      ensures failed == (old(failed) || n < |chunk|)
    {
      n := *;
      n := Min(n, |chunk|);
      bytes := bytes + chunk[..n];
      failed := failed || n < |chunk|;
    }
  }

  /** Why a relay ended. */
  datatype Stop = EndOfInput | ReadFailed | WriteFailed | OutOfMemory

  /** `all` is what has been sent, then what is in hand, then what is still to come. */
  ghost predicate Conserved(all: string, sent: string, inHand: string, unread: string) {
    all == sent + inHand + unread
  }

  lemma Taken(all: string, sent: string, chunk: string, rest: string)
    requires Conserved(all, sent, "", chunk + rest)
    ensures Conserved(all, sent, chunk, rest)
  {
    assert sent + "" + (chunk + rest) == sent + chunk + rest;
  }

  lemma Passed(all: string, sent: string, chunk: string, rest: string, n: nat)
    requires Conserved(all, sent, chunk, rest) && n <= |chunk|
    ensures Conserved(all, sent + chunk[..n], chunk[n..], rest)
  {
    assert chunk == chunk[..n] + chunk[n..];
    assert sent + (chunk[..n] + chunk[n..]) + rest == sent + chunk[..n] + chunk[n..] + rest;
  }

  /** Both relays, pipe to socket and socket to pipe, until the input ends or a call fails; there is memory for
      `buffers` buffers. What went out is what came in, in order, chunk by chunk; only a write that failed
      has lost anything, the end of its chunk. */
  method Forward(input: ByteStream, output: ByteStream, buffers: nat)
      returns (stop: Stop, ghost chunks: seq<string>, ghost lost: string)
    requires input != output && !input.failed && !output.failed
    modifies input, output
    ensures Conserved(old(input.bytes), Flatten(chunks), lost, input.bytes)
    ensures output.bytes == old(output.bytes) + Flatten(chunks)
    ensures forall i | 0 <= i < |chunks| :: |chunks[i]| <= BUF_SIZE
    ensures |chunks| <= buffers && |lost| <= BUF_SIZE
    ensures stop.EndOfInput? ==> input.bytes == "" && lost == ""
    ensures stop.ReadFailed? <==> input.failed
    ensures stop.WriteFailed? <==> output.failed
    ensures stop.WriteFailed? <==> lost != ""
    ensures stop.OutOfMemory? ==> |chunks| == buffers
  {
    hide Conserved, Flatten;
    chunks, lost := [], "";
    var left := buffers;
    StartConserved(input.bytes, output.bytes);
    while true
      invariant Conserved(old(input.bytes), Flatten(chunks), "", input.bytes)
      invariant output.bytes == old(output.bytes) + Flatten(chunks)
      invariant forall i | 0 <= i < |chunks| :: |chunks[i]| <= BUF_SIZE
      invariant |chunks| + left == buffers && lost == "" && !input.failed && !output.failed
      decreases left
    {
      if left == 0 {
        return OutOfMemory, chunks, "";
      }
      left := left - 1;
      var chunk := input.Read(BUF_SIZE);
      if chunk.None? {
        return ReadFailed, chunks, "";
      }
      Taken(old(input.bytes), Flatten(chunks), chunk.value, input.bytes);
      if chunk.value == "" {
        return EndOfInput, chunks, "";
      }
      var n := output.Write(chunk.value);
      Passed(old(input.bytes), Flatten(chunks), chunk.value, input.bytes, n);
      FlattenSnoc(chunks, chunk.value[..n]);
      assert old(output.bytes) + Flatten(chunks) + chunk.value[..n]
             == old(output.bytes) + (Flatten(chunks) + chunk.value[..n]);
      chunks := chunks + [chunk.value[..n]];
      if n != |chunk.value| {
        return WriteFailed, chunks, chunk.value[n..];
      }
      assert chunk.value[n..] == "";
    }
  }

  lemma StartConserved(all: string, out: string)
    ensures Flatten([]) == "" && Conserved(all, Flatten([]), "", all) && out == out + Flatten([])
  {
  }

  /** From the pipe to the log: if the relay has sent a prefix of what was written to the pipe, and the
      connection has brought a prefix of the key and of that to RECV, then what the log holds of this
      client is a prefix of what was written to the pipe. */
  lemma PipeToLog(own: Ownership, s: State, run: seq<Action>, t: State, id: nat,
                  key: string, piped: string, sent: string)
    requires Runs(own, s, run, t) && id < |t.clients|
    requires |key| == KEY_LENGTH && sent <= piped && t.clients[id].recv.input <= key + sent
    ensures Projection(t.file.appends, id) <= piped
  {
    LogIsShuffle(own, s, run, t);
    var input := t.clients[id].recv.input;
    if |input| >= KEY_LENGTH {
      assert input[KEY_LENGTH..] <= sent;
    }
  }

  /** From the log towards another client: when the bytes sent can be restored, any part of them that has come
      through so far restores to a beginning of the log range they stand for. What a window makes of them
      is the subject of `Screen`. */
  lemma PartRestores(own: Ownership, s: State, run: seq<Action>, t: State, id: nat, got: string)
    requires WorkersDistinct(own) && Runs(own, s, run, t) && id < |t.clients|
    requires var x := t.clients[id].send; Replayed(x.phase) && InFlight(x.phase) == []
    requires NulFree(t.file.log) && AllLines(t.file.appends)
    requires forall i | 0 <= i < |t.clients[id].send.whole| :: t.clients[id].send.whole[i]
    requires t.clients[id].send.replay <= got <= t.clients[id].send.wire
    ensures var x := t.clients[id].send;
            x.replayEnd <= x.offset <= |t.file.log| && Restore(got[|x.replay|..]) <= t.file.log[x.replayEnd..x.offset]
  {
    var x := t.clients[id].send;
    RestorableLines(own, s, run, t, id);
    var all, part := x.wire[|x.replay|..], got[|x.replay|..];
    assert all == part + all[|part|..];
    RestoreAppend(part, all[|part|..]);
  }
}
