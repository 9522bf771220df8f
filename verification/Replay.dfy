/** What a client is sent when it joins: the tail of the chat log. */
module Replay {
  import opened Text

  function Newlines(s: string): nat {
    if s == "" then 0
    else Newlines(s[..|s| - 1]) + if s[|s| - 1] == '\n' then 1 else 0
  }

  lemma {:induction false} NewlinesAppend(a: string, b: string)
    ensures Newlines(a + b) == Newlines(a) + Newlines(b)
  {
    if b == "" {
      assert a + b == a;
    } else {
      var init := b[..|b| - 1];
      assert (a + b)[..|a + b| - 1] == a + init;
      NewlinesAppend(a, init);
    }
  }

  /** `Newlines` counts the places where a newline is. */
  lemma {:induction false} NewlinesAre(s: string)
    ensures Newlines(s) == |set i | 0 <= i < |s| && s[i] == '\n'|
  {
    var all := set i | 0 <= i < |s| && s[i] == '\n';
    if s == "" {
      assert all == {};
    } else {
      var last := |s| - 1;
      var init := s[..last];
      var before := set i | 0 <= i < |init| && init[i] == '\n';
      NewlinesAre(init);
      assert all == if s[last] == '\n' then before + {last} else before;
    }
  }

  lemma NewlinesSplit(s: string, i: nat)
    requires i <= |s|
    ensures Newlines(s) == Newlines(s[..i]) + Newlines(s[i..])
  {
    assert s == s[..i] + s[i..];
    NewlinesAppend(s[..i], s[i..]);
  }

  lemma LastBytesOfLastBytes(s: string, n: nat, m: nat)
    requires m <= n
    ensures LastBytes(LastBytes(s, n), m) == LastBytes(s, m)
  {
  }

  lemma NewlinesOfSuffix(s: string, n: nat, m: nat)
    requires m <= n
    ensures Newlines(LastBytes(s, m)) <= Newlines(LastBytes(s, n))
  {
    var longer := LastBytes(s, n);
    LastBytesOfLastBytes(s, n, m);
    NewlinesSplit(longer, |longer| - Min(|longer|, m));
  }

  /** `t` is the longest suffix of `s` with at most `lines` newlines. */
  ghost predicate IsLastLines(s: string, lines: nat, t: string) {
    && |t| <= |s|
    && t == LastBytes(s, |t|)
    && Newlines(t) <= lines
    && forall n | |t| < n <= |s| :: Newlines(LastBytes(s, n)) > lines
  }

  /** The longest suffix of `s` with at most `lines` newlines. */
  function LastLines(s: string, lines: nat): string {
    if Newlines(s) <= lines then s else LastLines(s[1..], lines)
  }

  lemma {:induction false} LastLinesIsLongest(s: string, lines: nat)
    ensures IsLastLines(s, lines, LastLines(s, lines))
  {
    if Newlines(s) > lines {
      var rest := s[1..];
      LastLinesIsLongest(rest, lines);
      var t := LastLines(rest, lines);
      assert rest == LastBytes(s, |rest|);
      LastBytesOfLastBytes(s, |rest|, |t|);
      forall n | |t| < n <= |s| ensures Newlines(LastBytes(s, n)) > lines {
        if n < |s| {
          LastBytesOfLastBytes(s, |rest|, n);
        } else {
          assert LastBytes(s, n) == s;
        }
      }
    }
  }

  /** There is only one such suffix, so `IsLastLines` pins the text down. */
  lemma LastLinesUnique(s: string, lines: nat, t: string)
    requires IsLastLines(s, lines, t)
    ensures t == LastLines(s, lines)
  {
    LastLinesIsLongest(s, lines);
  }

  /** A suffix that starts just after a newline and holds exactly `lines` newlines is the longest one. */
  lemma CutAfterNewline(s: string, lines: nat, start: nat)
    requires 0 < start <= |s| && s[start - 1] == '\n'
    requires Newlines(s[start..]) == lines
    ensures s[start..] == LastLines(s, lines)
  {
    var t := s[start..];
    assert t == LastBytes(s, |t|);
    forall n | |t| < n <= |s| ensures Newlines(LastBytes(s, n)) > lines {
      assert LastBytes(s, |t| + 1) == ['\n'] + t;
      NewlinesAppend(['\n'], t);
      assert Newlines(['\n']) == 1;
      NewlinesOfSuffix(s, n, |t| + 1);
    }
    LastLinesUnique(s, lines, t);
  }

  function Shorter(a: string, b: string): string {
    if |a| <= |b| then a else b
  }

  /** The replay as its comments promise it, over the whole log: at most `lines` newlines and at most
      `window` bytes, and as much of the log's tail as these two limits allow. */
  function ReplayText(log: string, lines: nat, window: nat): string {
    Shorter(LastLines(log, lines), LastBytes(log, window))
  }

  /** Scanning only the last `window` bytes finds the same text as scanning the whole log. */
  lemma WindowIsEnough(log: string, lines: nat, window: nat)
    ensures LastLines(LastBytes(log, window), lines) == ReplayText(log, lines, window)
  {
    var tail, whole := LastBytes(log, window), LastLines(log, lines);
    LastLinesIsLongest(log, lines);
    if |whole| <= |tail| {
      LastBytesOfLastBytes(log, window, |whole|);
      forall n | |whole| < n <= |tail| ensures Newlines(LastBytes(tail, n)) > lines {
        LastBytesOfLastBytes(log, window, n);
      }
      LastLinesUnique(tail, lines, whole);
    } else {
      NewlinesOfSuffix(log, |whole|, window);
    }
  }

  /** The replay is a suffix of the log within both limits, and every longer suffix breaks one of them. */
  lemma ReplayIsMaximal(log: string, lines: nat, window: nat)
    ensures var t := ReplayText(log, lines, window);
            && |t| <= Min(|log|, window) && t == LastBytes(log, |t|) && Newlines(t) <= lines
            && forall n | |t| < n <= |log| :: n > window || Newlines(LastBytes(log, n)) > lines
  {
    LastLinesIsLongest(log, lines);
    if window < |LastLines(log, lines)| {
      NewlinesOfSuffix(log, |LastLines(log, lines)|, window);
    }
  }

  /** Where reading starts, from the size of a log that is not empty. */
  method WorkingOffset(size: nat, window: nat) returns (workingOffset: nat)
    requires size > 0
    ensures workingOffset == size - Min(size, window)
    ensures forall log: string | |log| == size :: log[workingOffset..] == LastBytes(log, window)
  {
    var lastByteOfFile := size - 1;
    if lastByteOfFile < window {
      workingOffset := 0;
    } else {
      workingOffset := lastByteOfFile - window + 1;
    }
  }

  /** The three newline loops over the buffer: where the text to send starts. */
  method FindStart(chatText: array<char>, bytesRead: nat, lines: nat) returns (startTextIndex: nat)
    requires bytesRead <= chatText.Length
    ensures startTextIndex <= bytesRead
    ensures chatText[startTextIndex..bytesRead] == LastLines(chatText[..bytesRead], lines)
    ensures Newlines(chatText[..bytesRead]) > lines ==>
              && startTextIndex > 0 && chatText[startTextIndex - 1] == '\n'
              && Newlines(chatText[startTextIndex..bytesRead]) == lines
  {
    var count := CountNewlines(chatText, bytesRead);
    if count <= lines {
      assert chatText[0..bytesRead] == chatText[..bytesRead];
      return 0;
    }
    var newlineIndex := SkipFirstLine(chatText, bytesRead);
    ghost var text := chatText[..bytesRead];
    NewlinesSplit(text, newlineIndex);
    assert text[..newlineIndex] == chatText[..newlineIndex];
    assert text[newlineIndex..] == chatText[newlineIndex..bytesRead];
    startTextIndex := SkipLines(chatText, newlineIndex, bytesRead, count - 1 - lines);
    assert text[startTextIndex..] == chatText[startTextIndex..bytesRead];
    CutAfterNewline(text, lines, startTextIndex);
  }

  method CountNewlines(chatText: array<char>, bytesRead: nat) returns (count: nat)
    requires bytesRead <= chatText.Length
    ensures count == Newlines(chatText[..bytesRead])
  {
    count := 0;
    for i := 0 to bytesRead
      invariant count == Newlines(chatText[..i])
    {
      assert chatText[..i + 1][..i] == chatText[..i];
      if chatText[i] == '\n' {
        count := count + 1;
      }
    }
  }

  /** First skipping loop: the index just after the first newline. */
  method SkipFirstLine(chatText: array<char>, bytesRead: nat) returns (newlineIndex: nat)
    requires bytesRead <= chatText.Length
    requires Newlines(chatText[..bytesRead]) > 0
    ensures 0 < newlineIndex <= bytesRead
    ensures chatText[newlineIndex - 1] == '\n' && Newlines(chatText[..newlineIndex]) == 1
  {
    newlineIndex := 0;
    for i := 0 to bytesRead
      invariant newlineIndex == 0 && Newlines(chatText[..i]) == 0
    {
      assert chatText[..i + 1][..i] == chatText[..i];
      if chatText[i] == '\n' {
        newlineIndex := i + 1;
        break;
      }
    }
  }

  lemma SplitAt(s: string, i: nat, j: nat, k: nat)
    requires i <= j <= k <= |s|
    ensures Newlines(s[i..k]) == Newlines(s[i..j]) + Newlines(s[j..k])
  {
    assert s[i..k] == s[i..j] + s[j..k];
    NewlinesAppend(s[i..j], s[j..k]);
  }

  /** Second skipping loop: `skip` more newlines; with `skip == 0` it runs to the end and moves nothing. */
  method SkipLines(chatText: array<char>, newlineIndex: nat, bytesRead: nat, skip: nat) returns (startTextIndex: nat)
    requires 0 < newlineIndex <= bytesRead <= chatText.Length && chatText[newlineIndex - 1] == '\n'
    requires skip <= Newlines(chatText[newlineIndex..bytesRead])
    ensures newlineIndex <= startTextIndex <= bytesRead && chatText[startTextIndex - 1] == '\n'
    ensures Newlines(chatText[startTextIndex..bytesRead]) == Newlines(chatText[newlineIndex..bytesRead]) - skip
  {
    startTextIndex := newlineIndex;
    var countNewlines := 0;
    for i := newlineIndex to bytesRead
      invariant startTextIndex == newlineIndex
      invariant countNewlines == Newlines(chatText[newlineIndex..i])
      invariant skip == 0 || countNewlines < skip
    {
      assert chatText[newlineIndex..i + 1][..i - newlineIndex] == chatText[newlineIndex..i];
      if chatText[i] == '\n' {
        countNewlines := countNewlines + 1;
        if countNewlines == skip {
          startTextIndex := i + 1;
          SplitAt(chatText[..], newlineIndex, i + 1, bytesRead);
          break;
        }
      }
    }
  }
}
