/** What a client's window shows of the bytes its server process was sent, and when that is the log. */
module Screen {
  import opened Text
  import opened Replay
  import opened Wire
  import opened Server
  import opened Locking
  import opened Delivery
  import opened Sending

  /** The C string at the start of `memory`. */
  function BeforeNul(memory: string): (s: string)
    ensures s <= memory && NulFree(s)
  {
    if memory == "" || memory[0] == '\0' then "" else [memory[0]] + BeforeNul(memory[1..])
  }

  /** One fetch from the pipe is printed as a C string and a newline. `heap` is what the memory held after it. */
  function ShownFetch(fetch: string, heap: string): string {
    BeforeNul(fetch + heap) + "\n"
  }

  function Shown(fetches: seq<string>, heaps: seq<string>): string
    requires |heaps| == |fetches|
  {
    if fetches == [] then ""
    else
      var last := |fetches| - 1;
      Shown(fetches[..last], heaps[..last]) + ShownFetch(fetches[last], heaps[last])
  }

  /** A text with its terminator. */
  predicate Terminated(s: string) {
    s != "" && s[|s| - 1] == '\0' && NulFree(s[..|s| - 1])
  }

  ghost predicate AllTerminated(parts: seq<string>) {
    forall i | 0 <= i < |parts| :: Terminated(parts[i])
  }

  // ----- one fetch --------------------------------------------------------------------------------------

  lemma {:induction false} BeforeNulIs(text: string, rest: string)
    requires NulFree(text)
    ensures BeforeNul(text + "\0" + rest) == text
    ensures BeforeNul(text + rest) == text + BeforeNul(rest)
  {
    if text == "" {
      assert text + rest == rest;
    } else {
      assert (text + "\0" + rest)[1..] == text[1..] + "\0" + rest;
      assert (text + rest)[1..] == text[1..] + rest;
      BeforeNulIs(text[1..], rest);
    }
  }

  /** Whatever comes after the first terminator is lost: the rest of a fetch that holds two messages, say. */
  lemma RestIsLost(message: string, rest: string, heap: string)
    requires Terminated(message)
    ensures ShownFetch(message + rest, heap) == message[..|message| - 1] + "\n"
  {
    var text := message[..|message| - 1];
    assert message + rest + heap == text + "\0" + (rest + heap);
    BeforeNulIs(text, rest + heap);
  }

  /** A fetch without a terminator is shown with whatever follows it in memory. */
  lemma NoTerminator(fetch: string)
    requires NulFree(fetch)
    ensures |ShownFetch(fetch, "z")| == |ShownFetch(fetch, "")| + 1 == |fetch| + 2
  {
    BeforeNulIs(fetch, "z");
    assert BeforeNul("z") == "z" by { BeforeNulIs("z", ""); assert "z" + "" == "z"; assert BeforeNul("") == ""; }
    BeforeNulIs(fetch, "");
  }

  lemma FirstNul(fetch: string) returns (text: string, rest: string)
    requires !NulFree(fetch)
    ensures fetch == text + "\0" + rest && NulFree(text)
  {
    text := BeforeNul(fetch);
    AfterBeforeNul(fetch);
    rest := fetch[|text| + 1..];
  }

  lemma {:induction false} AfterBeforeNul(s: string)
    ensures BeforeNul(s) == s || (|BeforeNul(s)| < |s| && s[|BeforeNul(s)|] == '\0')
  {
    if s != "" && s[0] != '\0' {
      AfterBeforeNul(s[1..]);
    }
  }

  /** No more is shown of a fetch with a terminator than its length, and less when the terminator is not at
      its end. */
  lemma FetchLength(fetch: string, heap: string)
    requires !NulFree(fetch)
    ensures |ShownFetch(fetch, heap)| <= |fetch|
    ensures |ShownFetch(fetch, heap)| == |fetch| ==> Terminated(fetch)
  {
    var text, rest := FirstNul(fetch);
    assert fetch + heap == text + "\0" + (rest + heap);
    BeforeNulIs(text, rest + heap);
    assert rest == "" ==> fetch[..|fetch| - 1] == text;
  }

  // ----- all fetches ------------------------------------------------------------------------------------

  function Blank(n: nat): (heaps: seq<string>)
    ensures |heaps| == n
  {
    seq(n, _ => "")
  }

  /** One more byte after the fetch `at`, which has no terminator, is one more byte shown. */
  lemma {:induction false} HeapMatters(fetches: seq<string>, at: nat)
    requires at < |fetches| && NulFree(fetches[at])
    ensures |Shown(fetches, Blank(|fetches|)[at := "z"])| == |Shown(fetches, Blank(|fetches|))| + 1
  {
    var last := |fetches| - 1;
    var blank := Blank(|fetches|);
    assert blank[..last] == Blank(last);
    if at == last {
      assert blank[at := "z"][..last] == Blank(last);
      NoTerminator(fetches[last]);
    } else {
      assert blank[at := "z"][..last] == Blank(last)[at := "z"];
      HeapMatters(fetches[..last], at);
    }
  }

  lemma {:induction false} ShownLength(fetches: seq<string>, heaps: seq<string>)
    requires |heaps| == |fetches| && forall i | 0 <= i < |fetches| :: !NulFree(fetches[i])
    ensures |Shown(fetches, heaps)| <= |Flatten(fetches)|
    ensures |Shown(fetches, heaps)| == |Flatten(fetches)| ==> AllTerminated(fetches)
  {
    hide NulFree, Terminated;
    if fetches != [] {
      var last := |fetches| - 1;
      ShownLength(fetches[..last], heaps[..last]);
      FetchLength(fetches[last], heaps[last]);
    }
  }

  /** Terminated pieces of the same bytes are the same pieces. */
  lemma {:induction false} SamePieces(a: seq<string>, b: seq<string>)
    requires AllTerminated(a) && AllTerminated(b) && Flatten(a) == Flatten(b)
    ensures a == b
  {
    if a == [] || b == [] {
      assert a == b;
    } else {
      var m, n := |a| - 1, |b| - 1;
      SameLast(Flatten(a[..m]), a[m], Flatten(b[..n]), b[n]) by {
        EndsTerminated(a[..m]);
        EndsTerminated(b[..n]);
      }
      SamePieces(a[..m], b[..n]);
      assert a == a[..m] + [a[m]] && b == b[..n] + [b[n]];
    }
  }

  lemma {:induction false} EndsTerminated(parts: seq<string>)
    requires AllTerminated(parts)
    ensures Flatten(parts) == "" || Flatten(parts)[|Flatten(parts)| - 1] == '\0'
  {
  }

  lemma SameLast(before: string, last: string, before': string, last': string)
    requires Terminated(last) && Terminated(last') && before + last == before' + last'
    requires before == "" || before[|before| - 1] == '\0'
    requires before' == "" || before'[|before'| - 1] == '\0'
    ensures before == before' && last == last'
  {
    var all := before + last;
    Boundary(before, last);
    Boundary(before', last');
    assert |before| == |before'|;
    assert all[|before|..] == last && all[|before'|..] == last';
    assert all[..|before|] == before && all[..|before'|] == before';
  }

  lemma Boundary(before: string, last: string)
    requires Terminated(last) && (before == "" || before[|before| - 1] == '\0')
    ensures var all := before + last;
            && (before != "" ==> all[|before| - 1] == '\0')
            && forall k | |before| <= k < |all| - 1 :: all[k] != '\0'
  {
    var all := before + last;
    forall k | |before| <= k < |all| - 1 ensures all[k] != '\0' {
      assert all[k] == last[..|last| - 1][k - |before|];
    }
  }

  /** Fetched message by message, every message is shown with its terminator turned into a newline. */
  lemma {:induction false} ShownRestores(messages: seq<string>, heaps: seq<string>)
    requires |heaps| == |messages| && AllTerminated(messages)
    ensures Shown(messages, heaps) == Restore(Flatten(messages))
  {
    if messages == [] {
      RestoreNulFree("");
    } else {
      hide Terminated, NulFree, Restore, ShownFetch;
      var last := |messages| - 1;
      ShownRestores(messages[..last], heaps[..last]);
      OneShown(messages[last], heaps[last]);
      RestoreAppend(Flatten(messages[..last]), messages[last]);
    }
  }

  lemma OneShown(message: string, heap: string)
    requires Terminated(message)
    ensures ShownFetch(message, heap) == Restore(message)
  {
    RestIsLost(message, "", heap);
    assert message + "" == message;
    RestoreLine(message[..|message| - 1]);
    assert message[..|message| - 1] + ['\0'] == message;
  }

  /** However the bytes of `messages` are fetched: a text of their length is what is shown, whatever the memory
      held, exactly when every fetch is one message and the text has a newline for each terminator. */
  lemma FetchedExactly(messages: seq<string>, fetches: seq<string>, text: string)
    requires Flatten(fetches) == Flatten(messages) && AllTerminated(messages) && |text| == |Flatten(messages)|
    ensures (forall heaps | |heaps| == |fetches| :: Shown(fetches, heaps) == text)
            <==> fetches == messages && text == Restore(Flatten(messages))
  {
    hide Shown, Flatten, Restore, AllTerminated;
    if forall heaps | |heaps| == |fetches| :: Shown(fetches, heaps) == text {
      var blank := Blank(|fetches|);
      forall i | 0 <= i < |fetches| ensures !NulFree(fetches[i]) {
        assert Shown(fetches, blank[i := "z"]) == Shown(fetches, blank);
        if NulFree(fetches[i]) {
          HeapMatters(fetches, i);
        }
      }
      ShownLength(fetches, blank);
      SamePieces(fetches, messages);
      ShownRestores(messages, blank);
    }
    if fetches == messages {
      forall heaps | |heaps| == |fetches| ensures Shown(fetches, heaps) == Restore(Flatten(messages)) {
        ShownRestores(messages, heaps);
      }
    }
  }

  // ----- a client's window ------------------------------------------------------------------------------

  /** What SEND has written to the socket, cut after each terminator: the replay has none, so it is fetched
      with the first chunk if it is to be shown as it is. */
  function Messages(replay: string, wired: seq<string>): seq<string> {
    if wired != [] then [replay + wired[0]] + wired[1..]
    else if replay != "" then [replay]
    else []
  }

  lemma MessagesSent(replay: string, wired: seq<string>)
    ensures Flatten(Messages(replay, wired)) == replay + Flatten(wired)
  {
    hide Flatten;
    EmptyFlat();
    if wired != [] {
      FlattenCons(replay + wired[0], wired[1..]);
      FlattenCons(wired[0], wired[1..]);
      assert wired == [wired[0]] + wired[1..];
      assert replay + wired[0] + Flatten(wired[1..]) == replay + (wired[0] + Flatten(wired[1..]));
    } else if replay != "" {
      FlattenCons(replay, []);
      assert [replay] + [] == [replay];
    }
  }

  lemma MessagesTerminated(replay: string, wired: seq<string>)
    requires NulFree(replay) && AllTerminated(wired) && (wired == [] ==> replay == "")
    ensures AllTerminated(Messages(replay, wired))
  {
    hide Terminated, NulFree;
    if wired != [] {
      StillTerminated(replay, wired[0]);
    }
  }

  lemma StillTerminated(text: string, message: string)
    requires NulFree(text) && Terminated(message)
    ensures Terminated(text + message)
  {
    NulFreeJoined(text, message[..|message| - 1]);
    assert (text + message)[..|text + message| - 1] == text + message[..|message| - 1];
  }

  lemma NulFreeJoined(a: string, b: string)
    requires NulFree(a) && NulFree(b)
    ensures NulFree(a + b)
  {
  }

  /** The bytes of a session, however they are fetched, are shown as the text they stand for, whatever the
      memory held, exactly when every fetch ends where a chunk ended, the first one included, and every chunk
      ended in a newline. A replay that no chunk follows has no terminator, and is never sure to be shown right. */
  lemma ShownExactly(replay: string, chunks: seq<string>, wired: seq<string>, fetches: seq<string>)
    requires NulFree(replay + Flatten(chunks)) && |wired| == |chunks|
    requires forall i | 0 <= i < |chunks| :: IsWireForm(chunks[i], wired[i])
    requires Flatten(fetches) == replay + Flatten(wired)
    ensures (forall heaps | |heaps| == |fetches| :: Shown(fetches, heaps) == replay + Flatten(chunks))
            <==> && fetches == Messages(replay, wired)
                 && (forall i | 0 <= i < |chunks| :: EndsInNewline(chunks[i]))
                 && (chunks == [] ==> replay == "")
  {
    hide Shown, Flatten, IsWireForm, NulFree, EndsInNewline, Messages;
    NulFreeParts(replay, Flatten(chunks));
    if chunks == [] && replay != "" {
      EmptyFlat();
      assert replay + "" == replay;
      var heaps := NeverTerminated(fetches, replay + Flatten(chunks));
    } else {
      ChunksOnTheWire(chunks, wired);
      RestoreAfterReplay(replay, Flatten(wired), Flatten(chunks));
      SentMessages(replay, chunks, wired);
      FetchedExactly(Messages(replay, wired), fetches, replay + Flatten(chunks));
    }
  }

  lemma SentMessages(replay: string, chunks: seq<string>, wired: seq<string>)
    requires NulFree(replay) && NulFree(Flatten(chunks)) && |wired| == |chunks| && (chunks == [] ==> replay == "")
    requires forall i | 0 <= i < |chunks| :: IsWireForm(chunks[i], wired[i])
    ensures Flatten(Messages(replay, wired)) == replay + Flatten(wired)
    ensures AllTerminated(Messages(replay, wired))
  {
    hide IsWireForm, NulFree, Terminated;
    MessagesSent(replay, wired);
    OnlyChunkEnds(chunks, wired);
    FormsTerminated(chunks, wired);
    MessagesTerminated(replay, wired);
  }

  lemma NulFreeParts(a: string, b: string)
    requires NulFree(a + b)
    ensures NulFree(a) && NulFree(b)
  {
    assert (a + b)[..|a|] == a && (a + b)[|a|..] == b;
  }

  lemma RestoreAfterReplay(replay: string, sent: string, text: string)
    requires NulFree(replay)
    ensures replay + text == Restore(replay + sent) <==> text == Restore(sent)
  {
    hide NulFree;
    RestoreAppend(replay, sent);
    RestoreNulFree(replay);
    assert (replay + text)[|replay|..] == text;
    assert (replay + Restore(sent))[|replay|..] == Restore(sent);
  }

  /** Without any terminator what is shown depends on what the memory held. */
  lemma NeverTerminated(fetches: seq<string>, text: string) returns (heaps: seq<string>)
    requires Flatten(fetches) != "" && NulFree(Flatten(fetches))
    ensures |heaps| == |fetches| && Shown(fetches, heaps) != text
  {
    var last := LastNulFree(fetches);
    hide Shown, Flatten, NulFree;
    HeapMatters(fetches, last);
    heaps := Blank(|fetches|);
    if Shown(fetches, heaps) == text {
      heaps := heaps[last := "z"];
    }
  }

  lemma LastNulFree(fetches: seq<string>) returns (last: nat)
    requires Flatten(fetches) != "" && NulFree(Flatten(fetches))
    ensures last < |fetches| && NulFree(fetches[last])
  {
    last := |fetches| - 1;
    NulFreeParts(Flatten(fetches[..last]), fetches[last]);
  }

  lemma {:induction false} FormsTerminated(chunks: seq<string>, wired: seq<string>)
    requires NulFree(Flatten(chunks)) && |wired| == |chunks|
    requires forall i | 0 <= i < |chunks| :: chunks[i] != "" && wired[i] == chunks[i][..|chunks[i]| - 1] + ['\0']
    ensures AllTerminated(wired)
  {
    if chunks != [] {
      var last := |chunks| - 1;
      var all := Flatten(chunks);
      var before := Flatten(chunks[..last]);
      assert all[..|before|] == before && all[|before|..] == chunks[last];
      FormsTerminated(chunks[..last], wired[..last]);
      assert wired[last][..|wired[last]| - 1] == chunks[last][..|chunks[last]| - 1];
      forall i | 0 <= i < last ensures Terminated(wired[i]) {
        assert wired[..last][i] == wired[i];
      }
    }
  }

  /** A client's window shows the replay and the log from there to its SEND's offset exactly when its front end
      fetched the bytes as SEND wrote them, but the replay together with the first chunk, and every chunk
      read ended in a newline. */
  lemma WindowShowsLog(own: Ownership, s: State, run: seq<Action>, t: State, id: nat, fetches: seq<string>)
    requires WorkersDistinct(own) && Runs(own, s, run, t) && id < |t.clients|
    requires var x := t.clients[id].send; Replayed(x.phase) && InFlight(x.phase) == []
    requires NulFree(t.file.log) && Flatten(fetches) == t.clients[id].send.wire
    ensures var x, log := t.clients[id].send, t.file.log;
            && x.replayEnd <= x.offset <= |log|
            && ((forall heaps | |heaps| == |fetches| ::
                   Shown(fetches, heaps) == x.replay + log[x.replayEnd..x.offset])
                <==> && fetches == Messages(x.replay, x.wired)
                     && (forall i | 0 <= i < |x.chunks| :: EndsInNewline(x.chunks[i]))
                     && (x.chunks == [] ==> x.replay == ""))
  {
    hide ReplayText, Shown, Messages, NulFree, IsWireForm;
    var x, log := t.clients[id].send, t.file.log;
    SentBytes(own, s, run, t, id);
    ReplayNulFree(log, x.replayEnd, x.offset);
    ShownExactly(x.replay, x.chunks, x.wired, fetches);
  }

  lemma ReplayNulFree(log: string, end: nat, offset: nat)
    requires NulFree(log) && end <= offset <= |log|
    ensures NulFree(ReplayText(log[..end], LINES_BACK, WINDOW) + log[end..offset])
  {
    hide ReplayText, NulFree, Newlines;
    var replay := ReplayText(log[..end], LINES_BACK, WINDOW);
    ReplayIsMaximal(log[..end], LINES_BACK, WINDOW);
    assert replay == log[end - |replay|..end];
    NulFreeRange(log, end - |replay|, end);
    NulFreeRange(log, end, offset);
    NulFreeJoined(replay, log[end..offset]);
  }

  lemma NulFreeRange(s: string, i: nat, j: nat)
    requires NulFree(s) && i <= j <= |s|
    ensures NulFree(s[i..j])
  {
  }

  /** Two chunks that are fetched together: the second is not shown. */
  lemma SecondIsLost(chunk: string, w: string, rest: string, heap: string)
    requires NulFree(chunk) && IsWireForm(chunk, w)
    ensures ShownFetch(w + rest, heap) == chunk[..|chunk| - 1] + "\n"
  {
    WireFormOfText(chunk, w);
    assert w[..|w| - 1] == chunk[..|chunk| - 1];
    RestIsLost(w, rest, heap);
  }
}
