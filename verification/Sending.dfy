/** The bytes that reach a client's socket. What is sent is what was read whoever owns which lock; that this is
    the log needs distinct workers. */
module Sending {
  import opened Text
  import opened Replay
  import opened Wire
  import opened Server
  import opened Shuffle
  import opened Signals
  import opened Locking
  import opened Delivery

  /** The chunk that was read but is not sent yet. */
  function InFlight(p: SendPhase): seq<string> {
    if (p.WakeUnlocking? || p.WakeSending?) && p.chunk != "" then [p.chunk] else []
  }

  ghost predicate Forms(chunks: seq<string>, wired: seq<string>) {
    && |wired| <= |chunks|
    && forall i | 0 <= i < |wired| :: IsWireForm(chunks[i], wired[i])
  }

  ghost predicate WireOk(x: SendState) {
    && Forms(x.chunks, x.wired)
    && (Replayed(x.phase) ==> x.chunks == x.chunks[..|x.wired|] + InFlight(x.phase))
    && (x.phase.WakeSending? ==> x.phase.chunk != "")
    && (NotYetReplayed(x.phase) ==> x.wire == "" && x.replay == "")
    && (NotYetReplayed(x.phase) || x.phase.ReplayUnlocking? || x.phase.Aborting? ==> x.chunks == [])
    && (x.phase.ReplayUnlocking? || Replayed(x.phase) ==> x.wire == x.replay + Flatten(x.wired))
    && x.replay + Flatten(x.wired) <= x.wire
  }

  lemma MoreChunks(chunks: seq<string>, wired: seq<string>, chunk: string)
    requires Forms(chunks, wired)
    ensures Forms(chunks + [chunk], wired)
  {
  }

  lemma ReadWire(f: File, x: SendState, chunk: string)
    requires WireOk(x) && x.phase.WakeReading?
    ensures WireOk(AfterRead(f, x, chunk))
  {
    MoreChunks(x.chunks, x.wired, chunk);
  }

  lemma WriteWire(x: SendState, w: string)
    requires WireOk(x) && x.phase.WakeSending? && IsWireForm(x.phase.chunk, w)
    ensures WireOk(x.(phase := BeforePause, wired := x.wired + [w], wire := x.wire + w))
  {
    hide Flatten, IsWireForm;
    FlattenSnoc(x.wired, w);
    assert x.replay + (Flatten(x.wired) + w) == (x.replay + Flatten(x.wired)) + w;
  }

  lemma LongerWire(x: SendState, more: string, p: SendPhase)
    requires WireOk(x) && (p.SendExiting? || (p.Aborting? && x.chunks == []))
    ensures WireOk(x.(phase := p, wire := x.wire + more))
  {
    hide Flatten, Forms;
  }

  lemma ReplayWire(x: SendState, text: string, size: nat)
    requires WireOk(x) && x.phase.ReplaySending?
    ensures WireOk(x.(phase := ReplayUnlocking(size), replay := text, wire := x.wire + text))
  {
    assert "" + text == text + "";
  }

  /** Calls that neither read from the log nor write to the socket. */
  lemma SilentCall(o: nat, open: bool, f: File, x: SendState, a: SendAct)
    requires SendStep(o, open, f, x, a).Some? && !a.ReadWake? && !a.WriteWake? && !a.WriteReplay?
    ensures var y := SendStep(o, open, f, x, a).value.send;
            && y.chunks == x.chunks && y.wired == x.wired && y.replay == x.replay && y.wire == x.wire
            && (y.phase == x.phase
                || (&& (Replayed(y.phase) ==>
                          && (Replayed(x.phase) || x.phase.ReplayUnlocking?)
                          && InFlight(y.phase) == InFlight(x.phase))
                    && (y.phase.WakeSending? ==> y.phase.chunk != "")
                    && (NotYetReplayed(y.phase) ==> NotYetReplayed(x.phase))
                    && (y.phase.ReplayUnlocking? ==> x.phase.ReplaySeekEnd?)
                    && (y.phase.Aborting? ==> NotYetReplayed(x.phase))))
  {
    hide CanShare, LastLines, IsWireForm, AfterRead, Pos;
  }

  lemma SilentWire(o: nat, open: bool, f: File, x: SendState, a: SendAct)
    requires WireOk(x) && SendStep(o, open, f, x, a).Some? && !a.ReadWake? && !a.WriteWake? && !a.WriteReplay?
    ensures WireOk(SendStep(o, open, f, x, a).value.send)
  {
    SilentCall(o, open, f, x, a);
    hide SendStep, IsWireForm;
  }

  lemma WritingWire(x: SendState, w: string, n: nat)
    requires WireOk(x) && x.phase.WakeSending? && IsWireForm(x.phase.chunk, w) && n <= |w|
    ensures WireOk(if n == |w| then x.(phase := BeforePause, wired := x.wired + [w], wire := x.wire + w)
                   else x.(phase := SendExiting, wire := x.wire + w[..n]))
  {
    hide WireOk, IsWireForm;
    if n == |w| {
      WriteWire(x, w);
    } else {
      LongerWire(x, w[..n], SendExiting);
    }
  }

  lemma WritingReplay(x: SendState, text: string, n: nat)
    requires WireOk(x) && x.phase.ReplaySending? && n <= |text|
    ensures WireOk(if n == |text| then x.(phase := ReplayUnlocking(x.phase.size), replay := text, wire := x.wire + text)
                   else x.(phase := Aborting, wire := x.wire + text[..n]))
  {
    if n == |text| {
      ReplayWire(x, text, x.phase.size);
    } else {
      LongerWire(x, text[..n], Aborting);
    }
  }

  lemma SendWire(o: nat, open: bool, f: File, x: SendState, a: SendAct)
    requires WireOk(x) && SendStep(o, open, f, x, a).Some?
    ensures WireOk(SendStep(o, open, f, x, a).value.send)
  {
    hide WireOk, AfterRead, IsWireForm, LastLines;
    match a
    case ReadWake => ReadWire(f, x, DoRead(f, o, BUF_SIZE).0);
    case WriteWake(w, n) => WritingWire(x, w, n);
    case WriteReplay(text, n) => WritingReplay(x, text, n);
    case _ => SilentWire(o, open, f, x, a);
  }

  // ----- chunks that reach the end of the log -------------------------------------------------------

  ghost predicate AllLines(appends: seq<Append>) {
    forall i | 0 <= i < |appends| :: EndsInNewline(appends[i].bytes)
  }

  /** A chunk read up to the end of the log ends in a newline if every append does. */
  ghost predicate WholeOk(f: File, x: SendState) {
    && |x.whole| == |x.chunks|
    && (AllLines(f.appends) ==> forall i | 0 <= i < |x.whole| && x.whole[i] :: EndsInNewline(x.chunks[i]))
  }

  lemma WholeStays(f: File, g: File, id: nat, x: SendState)
    requires WholeOk(f, x) && Grew(f, g, id)
    ensures WholeOk(g, x)
  {
    if AllLines(g.appends) && g.appends != f.appends {
      var bytes :| GrewBy(f, g, id, bytes);
      forall i | 0 <= i < |f.appends| ensures EndsInNewline(f.appends[i].bytes) {
        assert g.appends[i] == f.appends[i];
      }
    }
  }

  lemma LogEndsInNewline(base: string, f: File, clients: nat)
    requires LogOfChunks(base, f, clients) && AllLines(f.appends) && |f.log| > |base|
    ensures f.log[|f.log| - 1] == '\n'
  {
    if f.appends != [] {
      var last := |f.appends| - 1;
      assert AllBytes(f.appends) == AllBytes(f.appends[..last]) + f.appends[last].bytes;
    }
  }

  lemma ReadWhole(base: string, f: File, o: nat, x: SendState, clients: nat)
    requires WholeOk(f, x) && ViewOk(base, f, o, x) && x.phase.WakeReading? && LogOfChunks(base, f, clients)
    ensures WholeOk(f, AfterRead(f, x, DoRead(f, o, BUF_SIZE).0))
  {
    hide ViewOk, DoRead, LogOfChunks, WholeOk, AfterRead, AllLines, EndsInNewline;
    ReadHere(base, f, o, x);
    var chunk := DoRead(f, o, BUF_SIZE).0;
    if AllLines(f.appends) && chunk != "" && x.offset + |chunk| == |f.log| {
      EndOfLog(base, f, x.offset, clients);
    }
    MoreWhole(f, x, chunk);
  }

  lemma ReadHere(base: string, f: File, o: nat, x: SendState)
    requires ViewOk(base, f, o, x) && x.phase.WakeReading?
    ensures |base| <= x.offset <= |f.log|
    ensures DoRead(f, o, BUF_SIZE).0 == f.log[x.offset..Min(|f.log|, x.offset + BUF_SIZE)]
  {
    hide ExactFor, AfterRead, DoRead;
    ReadBounds(f, x);
    WakeReadExact(f, o, x);
  }

  lemma ReadBounds(f: File, x: SendState)
    requires ExactFor(f, x)
    ensures x.replayEnd <= x.offset <= |f.log|
  {
    hide Flatten, ReplayText;
  }

  lemma EndOfLog(base: string, f: File, from: nat, clients: nat)
    requires LogOfChunks(base, f, clients) && AllLines(f.appends) && |base| <= from < |f.log|
    ensures EndsInNewline(f.log[from..|f.log|])
  {
    LogEndsInNewline(base, f, clients);
  }

  lemma MoreWhole(f: File, x: SendState, chunk: string)
    requires WholeOk(f, x)
    requires AllLines(f.appends) && chunk != "" && x.offset + |chunk| == |f.log| ==> EndsInNewline(chunk)
    ensures WholeOk(f, AfterRead(f, x, chunk))
  {
    hide AllLines, EndsInNewline;
  }

  /** Only a read adds to the chunks. */
  lemma ChunksOnlyRead(o: nat, open: bool, f: File, x: SendState, a: SendAct)
    requires SendStep(o, open, f, x, a).Some? && !a.ReadWake?
    ensures var y := SendStep(o, open, f, x, a).value.send; y.chunks == x.chunks && y.whole == x.whole
  {
    hide CanShare, LastLines, IsWireForm, AfterRead, Pos;
  }

  lemma SendWhole(base: string, o: nat, open: bool, f: File, x: SendState, a: SendAct, clients: nat)
    requires WholeOk(f, x) && ViewOk(base, f, o, x) && LogOfChunks(base, f, clients)
    requires SendStep(o, open, f, x, a).Some?
    ensures var e := SendStep(o, open, f, x, a).value; WholeOk(e.file, e.send)
  {
    hide WholeOk, ViewOk, AfterRead, LogOfChunks;
    SendMovesOwn(o, open, f, x, a);
    if a.ReadWake? {
      ReadWhole(base, f, o, x, clients);
      var e := SendStep(o, open, f, x, a).value;
      SameAppends(f, e.file, AfterRead(f, x, DoRead(f, o, BUF_SIZE).0), e.send);
    } else {
      hide SendStep;
      ChunksOnlyRead(o, open, f, x, a);
      SameAppends(f, SendStep(o, open, f, x, a).value.file, x, SendStep(o, open, f, x, a).value.send);
    }
  }

  lemma SameAppends(f: File, g: File, x: SendState, y: SendState)
    requires WholeOk(f, x) && g.appends == f.appends && y.chunks == x.chunks && y.whole == x.whole
    ensures WholeOk(g, y)
  {
  }

  // ----- over whole runs ----------------------------------------------------------------------------

  ghost predicate WiresOk(s: State) {
    forall id | 0 <= id < |s.clients| :: WireOk(s.clients[id].send)
  }

  lemma ChildWire(x: SendState, usr1: Disposition, a: RecvAct)
    requires WireOk(x)
    ensures WireOk(ChildAfter(usr1, x, a))
  {
  }

  lemma SignalledWire(x: SendState, y: SendState)
    requires WireOk(x) && y == x.(pending := y.pending)
    ensures WireOk(y)
  {
  }

  lemma WiresKept(own: Ownership, s: State, a: Action, t: State)
    requires WiresOk(s) && SignalsOk(s) && Step(own, s, a) == Some(t)
    ensures WiresOk(t)
  {
    hide RecvStep, SendStep, StillOpen, WireOk;
    match a
    case AtRecv(id, r) =>
      ChildWire(s.clients[id].send, s.clients[id].recv.usr1, r);
    case AtSend(id, x) =>
      SendWire(own(Send(id)), StillOpen(own, s, Send(id)), s.file, s.clients[id].send, x);
    case Multicast(id) =>
      forall j | 0 <= j < |t.clients| ensures WireOk(t.clients[j].send) {
        assert ClientOk(s.clients[j]);
        SignalledWire(s.clients[j].send, t.clients[j].send);
      }
    case Accept(input) =>
      FreshWire(s.listenerUsr1);
    case _ =>
  }

  lemma FreshWire(usr1: Disposition)
    ensures WireOk(FreshSend(usr1))
  {
  }

  lemma {:induction false} WireAlways(own: Ownership, s: State, run: seq<Action>, t: State)
    requires Runs(own, s, run, t)
    ensures WiresOk(t)
  {
    if run != [] {
      var before := LastStep(own, s, run, t);
      WireAlways(own, s, run[..|run| - 1], before);
      SignalsAlways(own, s, run[..|run| - 1], before);
      WiresKept(own, before, run[|run| - 1], t);
    }
  }

  ghost predicate WholesOk(s: State) {
    forall id | 0 <= id < |s.clients| :: WholeOk(s.file, s.clients[id].send)
  }

  lemma OthersWhole(f: File, g: File, id: nat, x: SendState, y: SendState)
    requires WholeOk(f, x) && Grew(f, g, id)
    requires (y.chunks == x.chunks && y.whole == x.whole) || (y.chunks == [] && y.whole == [])
    ensures WholeOk(g, y)
  {
    hide Grew;
    WholeStays(f, g, id, x);
  }

  lemma PutWhole(s: State, id: nat, f: File, cl: Client)
    requires WholesOk(s) && id < |s.clients| && Grew(s.file, f, id) && WholeOk(f, cl.send)
    ensures WholesOk(Put(s, id, f, cl))
  {
    hide WholeOk, Grew;
    var t := Put(s, id, f, cl);
    forall j | 0 <= j < |t.clients| ensures WholeOk(f, t.clients[j].send) {
      if j != id {
        OthersWhole(s.file, f, id, s.clients[j].send, s.clients[j].send);
      }
    }
  }

  lemma WholesKept(own: Ownership, base: string, s: State, a: Action, t: State)
    requires WholesOk(s) && DeliveryOk(own, base, s) && IsShuffle(base, s)
    requires |s.key| == KEY_LENGTH && Step(own, s, a) == Some(t)
    ensures WholesOk(t)
  {
    hide RecvStep, SendStep, StillOpen, ViewOk, WholeOk, Grew, Heard, LogOfChunks;
    match a
    case AtRecv(id, r) =>
      RecvHeard(s.key, own(Recv(id)), StillOpen(own, s, Recv(id)), id, s.file, s.clients[id].recv, r);
      OthersWhole(s.file, t.file, id, s.clients[id].send, t.clients[id].send);
      PutWhole(s, id, t.file, t.clients[id]);
    case AtSend(id, x) =>
      var o, open := own(Send(id)), StillOpen(own, s, Send(id));
      SendWhole(base, o, open, s.file, s.clients[id].send, x, |s.clients|);
      SendMovesOwn(o, open, s.file, s.clients[id].send, x);
      SameGrew(s.file, t.file, id);
      PutWhole(s, id, t.file, t.clients[id]);
    case _ =>
      SameGrew(s.file, t.file, 0);
      NothingWhole(t.file, FreshSend(s.listenerUsr1));
      forall j | 0 <= j < |t.clients| ensures WholeOk(t.file, t.clients[j].send) {
        if j < |s.clients| {
          OthersWhole(s.file, t.file, 0, s.clients[j].send, t.clients[j].send);
        }
      }
  }

  lemma SameGrew(f: File, g: File, id: nat)
    requires g.log == f.log && g.appends == f.appends
    ensures Grew(f, g, id)
  {
  }

  lemma NothingWhole(f: File, x: SendState)
    requires x.chunks == [] && x.whole == []
    ensures WholeOk(f, x)
  {
  }

  lemma {:induction false} WholeAlways(own: Ownership, s: State, run: seq<Action>, t: State)
    requires WorkersDistinct(own) && Runs(own, s, run, t)
    ensures WholesOk(t)
  {
    if run != [] {
      var before := LastStep(own, s, run, t);
      var earlier := run[..|run| - 1];
      WholeAlways(own, s, earlier, before);
      DeliveryAlways(own, s, earlier, before);
      ShuffleAlways(own, s, earlier, before);
      WholesKept(own, s.file.log, before, run[|run| - 1], t);
    }
  }

  // ----- the results ------------------------------------------------------------------------------

  /** With no chunk in hand, a SEND in its loop has sent the replay and then, byte for byte as many as the
      log range it has read, the wire forms of its chunks. */
  lemma SentBytes(own: Ownership, s: State, run: seq<Action>, t: State, id: nat)
    requires WorkersDistinct(own) && Runs(own, s, run, t) && id < |t.clients|
    requires var x := t.clients[id].send; Replayed(x.phase) && InFlight(x.phase) == []
    ensures var x, log := t.clients[id].send, t.file.log;
            && x.replayEnd <= x.offset <= |log|
            && x.replay == ReplayText(log[..x.replayEnd], LINES_BACK, WINDOW)
            && x.wire == x.replay + Flatten(x.wired)
            && |Flatten(x.wired)| == x.offset - x.replayEnd
            && Flatten(x.chunks) == log[x.replayEnd..x.offset]
            && |x.wired| == |x.chunks|
            && (forall i | 0 <= i < |x.chunks| :: IsWireForm(x.chunks[i], x.wired[i]))
            && (NulFree(log) ==> forall i | 0 <= i < |x.chunks| ::
                  x.chunks[i] != "" && x.wired[i] == x.chunks[i][..|x.chunks[i]| - 1] + ['\0'])
  {
    hide ReplayText;
    var x := t.clients[id].send;
    DeliveryAlways(own, s, run, t);
    WireAlways(own, s, run, t);
    assert ViewOk(s.file.log, t.file, own(Send(id)), x) && WireOk(x);
    ChunksOnTheWire(x.chunks, x.wired);
    if NulFree(t.file.log) {
      assert NulFree(t.file.log[x.replayEnd..x.offset]);
      OnlyChunkEnds(x.chunks, x.wired);
    }
  }

  /** On NUL-free text the log range can be restored from the bytes sent after the replay exactly when
      every chunk read ended in a newline. */
  lemma RestorableExactly(own: Ownership, s: State, run: seq<Action>, t: State, id: nat)
    requires WorkersDistinct(own) && Runs(own, s, run, t) && id < |t.clients|
    requires var x := t.clients[id].send; Replayed(x.phase) && InFlight(x.phase) == []
    requires NulFree(t.file.log)
    ensures var x, log := t.clients[id].send, t.file.log;
            && |x.replay| <= |x.wire| && x.replayEnd <= x.offset <= |log|
            && (Restore(x.wire[|x.replay|..]) == log[x.replayEnd..x.offset]
                <==> forall i | 0 <= i < |x.chunks| :: EndsInNewline(x.chunks[i]))
  {
    hide ReplayText;
    var x := t.clients[id].send;
    SentBytes(own, s, run, t, id);
    ChunksOnTheWire(x.chunks, x.wired);
    assert x.wire[|x.replay|..] == Flatten(x.wired);
    assert NulFree(t.file.log[x.replayEnd..x.offset]);
  }

  /** So it can be restored if every append was a whole line and every read reached the end of the log. */
  lemma RestorableLines(own: Ownership, s: State, run: seq<Action>, t: State, id: nat)
    requires WorkersDistinct(own) && Runs(own, s, run, t) && id < |t.clients|
    requires var x := t.clients[id].send; Replayed(x.phase) && InFlight(x.phase) == []
    requires NulFree(t.file.log) && AllLines(t.file.appends)
    requires forall i | 0 <= i < |t.clients[id].send.whole| :: t.clients[id].send.whole[i]
    ensures var x, log := t.clients[id].send, t.file.log;
            && |x.replay| <= |x.wire| && x.replayEnd <= x.offset <= |log|
            && Restore(x.wire[|x.replay|..]) == log[x.replayEnd..x.offset]
  {
    WholeAlways(own, s, run, t);
    assert WholeOk(t.file, t.clients[id].send);
    RestorableExactly(own, s, run, t, id);
  }
}
