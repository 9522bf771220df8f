/** The bytes a chunk of the log becomes on its way to the client, and how to get the chunk back. */
module Wire {
  import opened Text

  /** What is printed when `size` bytes of room are given to the C string that starts at `chunk`:
      the bytes before its first NUL, at most `size - 1` of them, then a NUL. Whatever follows is old
      memory, so any bytes will do there. */
  predicate IsWireForm(chunk: string, w: string) {
    && |w| == |chunk|
    && exists k | 0 <= k < |chunk| :: CopiedUpTo(chunk, w, k)
  }

  predicate CopiedUpTo(chunk: string, w: string, k: nat)
    requires k < |chunk| == |w|
  {
    && NulFree(chunk[..k])
    && (k == |chunk| - 1 || chunk[k] == '\0')
    && w[..k] == chunk[..k]
    && w[k] == '\0'
  }

  /** A NUL-free chunk has one wire form only: its last byte is replaced by NUL. */
  lemma WireFormOfText(chunk: string, w: string)
    requires NulFree(chunk) && chunk != ""
    ensures IsWireForm(chunk, w) <==> w == chunk[..|chunk| - 1] + ['\0']
  {
    var last := |chunk| - 1;
    if IsWireForm(chunk, w) {
      var k :| 0 <= k < |chunk| && CopiedUpTo(chunk, w, k);
      assert k == last;
    }
    if w == chunk[..last] + ['\0'] {
      assert CopiedUpTo(chunk, w, last);
    }
  }

  /** snprintf with `|chunk|` bytes of room, over memory that held `heap`. */
  function Printed(chunk: string, heap: string): (w: string)
    requires chunk != "" && |heap| == |chunk|
    ensures IsWireForm(chunk, w)
  {
    var k := StringLength(chunk, 0);
    var w := chunk[..k] + ['\0'] + heap[k + 1..];
    assert CopiedUpTo(chunk, w, k);
    w
  }

  /** Bytes of `chunk` before its first NUL, or before its last byte. */
  function StringLength(chunk: string, from: nat): (k: nat)
    requires from < |chunk| && NulFree(chunk[..from])
    ensures from <= k < |chunk| && NulFree(chunk[..k]) && (k == |chunk| - 1 || chunk[k] == '\0')
    decreases |chunk| - from
  {
    if from == |chunk| - 1 || chunk[from] == '\0' then from else StringLength(chunk, from + 1)
  }

  /** The inverse a client could apply: every NUL back to a newline. */
  function Restore(w: string): string {
    if w == "" then ""
    else Restore(w[..|w| - 1]) + if w[|w| - 1] == '\0' then "\n" else [w[|w| - 1]]
  }

  lemma {:induction false} RestoreAppend(a: string, b: string)
    ensures Restore(a + b) == Restore(a) + Restore(b)
  {
    if b == "" {
      assert a + b == a;
    } else {
      assert (a + b)[..|a + b| - 1] == a + b[..|b| - 1];
      RestoreAppend(a, b[..|b| - 1]);
    }
  }

  lemma {:induction false} RestoreNulFree(s: string)
    requires NulFree(s)
    ensures Restore(s) == s
  {
    if s != "" {
      RestoreNulFree(s[..|s| - 1]);
    }
  }

  predicate EndsInNewline(s: string) {
    s != "" && s[|s| - 1] == '\n'
  }

  /** Restoring a NUL-free chunk's wire form gives the chunk back exactly when the chunk ends in a newline. */
  lemma RestoreWireForm(chunk: string, w: string)
    requires NulFree(chunk) && IsWireForm(chunk, w)
    ensures Restore(w) == chunk <==> EndsInNewline(chunk)
  {
    WireFormOfText(chunk, w);
    assert chunk != "";
    hide IsWireForm, NulFree;
    var last := |chunk| - 1;
    RestoreLine(chunk[..last]) by {
      NulFreePrefix(chunk, last);
    }
    assert Restore(w)[last] == '\n' && Restore(w)[..last] == chunk[..last];
    assert chunk == chunk[..last] + [chunk[last]];
  }

  lemma NulFreePrefix(s: string, k: nat)
    requires NulFree(s) && k <= |s|
    ensures NulFree(s[..k])
  {
  }

  lemma RestoreLine(text: string)
    requires NulFree(text)
    ensures Restore(text + ['\0']) == text + "\n"
  {
    RestoreNulFree(text);
    assert (text + ['\0'])[..|text|] == text;
  }

  lemma {:induction false} RestoreLength(w: string)
    ensures |Restore(w)| == |w|
  {
    if w != "" {
      RestoreLength(w[..|w| - 1]);
    }
  }

  /** Chunk after chunk: nothing is lost or added on the wire, and restoring NUL-free chunks gives back
      the log range they cover exactly when every one of them ends in a newline. */
  lemma {:induction false} ChunksOnTheWire(chunks: seq<string>, wired: seq<string>)
    requires |chunks| == |wired|
    requires forall i | 0 <= i < |chunks| :: IsWireForm(chunks[i], wired[i])
    ensures |Flatten(wired)| == |Flatten(chunks)|
    ensures NulFree(Flatten(chunks)) ==>
              (Restore(Flatten(wired)) == Flatten(chunks) <==> forall i | 0 <= i < |chunks| :: EndsInNewline(chunks[i]))
  {
    if chunks != [] {
      var last := |chunks| - 1;
      var before, sent := Flatten(chunks[..last]), Flatten(wired[..last]);
      ChunksOnTheWire(chunks[..last], wired[..last]);
      if NulFree(Flatten(chunks)) {
        OneMoreChunk(before, sent, chunks[last], wired[last]);
      }
    }
  }

  /** On NUL-free text the two differ only where a chunk ends, and there a NUL was put. */
  lemma {:induction false} OnlyChunkEnds(chunks: seq<string>, wired: seq<string>)
    requires |chunks| == |wired| && NulFree(Flatten(chunks))
    requires forall i | 0 <= i < |chunks| :: IsWireForm(chunks[i], wired[i])
    ensures forall i | 0 <= i < |chunks| :: chunks[i] != "" && wired[i] == chunks[i][..|chunks[i]| - 1] + ['\0']
  {
    if chunks != [] {
      var last := |chunks| - 1;
      var before, all := Flatten(chunks[..last]), Flatten(chunks);
      assert all[..|before|] == before && all[|before|..] == chunks[last];
      OnlyChunkEnds(chunks[..last], wired[..last]);
      WireFormOfText(chunks[last], wired[last]);
      forall i | 0 <= i < last
        ensures chunks[i] != "" && wired[i] == chunks[i][..|chunks[i]| - 1] + ['\0']
      {
        assert chunks[..last][i] == chunks[i] && wired[..last][i] == wired[i];
      }
    }
  }

  lemma OneMoreChunk(before: string, sent: string, chunk: string, w: string)
    requires |before| == |sent| && IsWireForm(chunk, w) && NulFree(before + chunk)
    ensures NulFree(before)
    ensures Restore(sent + w) == before + chunk <==> Restore(sent) == before && EndsInNewline(chunk)
  {
    var all := before + chunk;
    assert all[|before|..] == chunk && all[..|before|] == before;
    RestoreAppend(sent, w);
    RestoreLength(sent);
    RestoreWireForm(chunk, w);
    var back := Restore(sent + w);
    assert back[..|before|] == Restore(sent) && back[|before|..] == Restore(w);
  }
}
