/** What each client is sent, over all interleavings, when every worker owns its own file description. */
module Delivery {
  import opened Text
  import opened Replay
  import opened Wire
  import opened Server
  import opened Shuffle
  import opened Signals
  import opened Locking

  /** SEND has returned from the replay and is in its loop. */
  predicate Replayed(p: SendPhase) {
    || p.BeforePause? || p.Paused? || p.WakeWantLock? || p.WakeSeeking?
    || p.WakeReading? || p.WakeUnlocking? || p.WakeSending?
  }

  predicate NotYetReplayed(p: SendPhase) {
    p.NotForked? || p.Activating? || p.ReplayWantLock? || InReplay(p)
  }

  /** The log as far as SEND's offset is what SEND has read: the replay, then chunk after chunk. */
  ghost predicate ExactFor(f: File, x: SendState) {
    && x.replayEnd <= x.offset <= |f.log|
    && Flatten(x.chunks) == f.log[x.replayEnd..x.offset]
    && (Replayed(x.phase) ==> x.replay == ReplayText(f.log[..x.replayEnd], LINES_BACK, WINDOW))
  }

  /** Reads answered so far bound what is still unread. */
  ghost predicate LagFor(f: File, x: SendState) {
    Replayed(x.phase) ==>
      x.seen <= |f.appends| && |f.log| - x.offset <= BUF_SIZE * (|f.appends| - x.seen)
  }

  /** What SEND's phase says about the file while it is inside a locked section. */
  ghost predicate PhaseFor(f: File, o: nat, x: SendState) {
    match x.phase
    case ReplaySeekSet(size) => size == |f.log| && x.seen == |f.appends|
    case ReplayReading(size) => size == |f.log| && x.seen == |f.appends| && Pos(f, o) == size - Min(size, WINDOW)
    case ReplaySending(size, text) => size == |f.log| && x.seen == |f.appends| && text == LastBytes(f.log, WINDOW)
    case ReplayUnlocking(size) =>
      size == |f.log| && x.seen == |f.appends| && x.replay == ReplayText(f.log, LINES_BACK, WINDOW)
    case WakeReading => Pos(f, o) == x.offset
    case _ => true
  }

  /** Before the replay returns nothing has been read; afterwards SEND is past whatever the log held at the start. */
  ghost predicate StartFor(base: string, f: File, x: SendState) {
    && |base| <= |f.log|
    && (NotYetReplayed(x.phase) ==> x.replay == "")
    && (NotYetReplayed(x.phase) || x.phase.ReplayUnlocking? ==> x.chunks == [] && x.offset == 0 && x.replayEnd == 0)
    && (Replayed(x.phase) ==> |base| <= x.replayEnd)
  }

  ghost predicate ViewOk(base: string, f: File, o: nat, x: SendState) {
    ExactFor(f, x) && LagFor(f, x) && PhaseFor(f, o, x) && StartFor(base, f, x)
  }

  ghost predicate DeliveryOk(own: Ownership, base: string, s: State) {
    forall id | 0 <= id < |s.clients| :: ViewOk(base, s.file, own(Send(id)), s.clients[id].send)
  }

  // ----- a SEND while others move -----------------------------------------------------------------

  lemma WhileOthersMove(base: string, f: File, g: File, id: nat, o: nat, x: SendState)
    requires ViewOk(base, f, o, x) && Grew(f, g, id) && Pos(g, o) == Pos(f, o)
    requires g.log == f.log || !SendInSection(x.phase)
    ensures ViewOk(base, g, o, x)
  {
    if g.log != f.log {
      var bytes :| GrewBy(f, g, id, bytes);
      assert g.log[x.replayEnd..x.offset] == f.log[x.replayEnd..x.offset];
      assert g.log[..x.replayEnd] == f.log[..x.replayEnd];
    }
  }

  lemma RecvMovesOwn(key: string, o: nat, open: bool, id: nat, f: File, r: RecvState, a: RecvAct)
    requires RecvStep(key, o, open, id, f, r, a).Some?
    ensures var g := RecvStep(key, o, open, id, f, r, a).value.file;
            && (forall q | q != o :: Pos(g, q) == Pos(f, q))
            && (g.log == f.log || RecvInSection(r.phase))
  {
    hide CanExclude;
  }

  lemma SendMovesOwn(o: nat, open: bool, f: File, x: SendState, a: SendAct)
    requires SendStep(o, open, f, x, a).Some?
    ensures var g := SendStep(o, open, f, x, a).value.file;
            && (forall q | q != o :: Pos(g, q) == Pos(f, q))
            && g.log == f.log && g.appends == f.appends
  {
    hide CanShare, LastLines, AfterRead, IsWireForm;
  }

  // ----- SEND's own calls -------------------------------------------------------------------------

  lemma ReplayReturns(f: File, o: nat, x: SendState)
    requires x.phase.ReplaySending? && PhaseFor(f, o, x)
    ensures LastLines(x.phase.text, LINES_BACK) == ReplayText(f.log, LINES_BACK, WINDOW)
  {
    WindowIsEnough(f.log, LINES_BACK, WINDOW);
  }

  lemma WakeReadExact(f: File, o: nat, x: SendState)
    requires ExactFor(f, x) && x.phase.WakeReading? && Pos(f, o) == x.offset
    ensures var (chunk, g) := DoRead(f, o, BUF_SIZE);
            && chunk == f.log[x.offset..Min(|f.log|, x.offset + BUF_SIZE)]
            && x.offset <= |f.log| && ExactFor(g, AfterRead(f, x, chunk))
  {
    hide Flatten, ReplayText;
    var chunk := DoRead(f, o, BUF_SIZE).0;
    FlattenSnoc(x.chunks, chunk);
    var at := x.offset + |chunk|;
    assert f.log[x.replayEnd..x.offset] + f.log[x.offset..at] == f.log[x.replayEnd..at];
  }

  /** A read answers one append: it takes BUF_SIZE bytes off the lag, or all of it. */
  lemma WakeReadLag(f: File, x: SendState)
    requires LagFor(f, x) && x.phase.WakeReading? && x.offset <= |f.log|
    ensures var chunk := f.log[x.offset..Min(|f.log|, x.offset + BUF_SIZE)];
            LagFor(f, AfterRead(f, x, chunk))
  {
  }

  lemma WakeReads(base: string, f: File, o: nat, x: SendState)
    requires ViewOk(base, f, o, x) && x.phase.WakeReading?
    ensures var (chunk, g) := DoRead(f, o, BUF_SIZE);
            ViewOk(base, g, o, AfterRead(f, x, chunk))
  {
    hide ExactFor;
    WakeReadExact(f, o, x);
    WakeReadLag(f, x);
  }

  lemma SeekEndView(base: string, f: File, o: nat, x: SendState)
    requires ViewOk(base, f, o, x) && x.phase.ReplaySeekEnd?
    ensures ViewOk(base, Seek(f, o, |f.log|), o,
                   x.(phase := if f.log == "" then ReplayUnlocking(0) else ReplaySeekSet(|f.log|), seen := |f.appends|))
  {
    if f.log == "" {
      ReplayIsMaximal(f.log, LINES_BACK, WINDOW);
    }
  }

  lemma WriteReplayView(base: string, f: File, o: nat, x: SendState, text: string, n: nat, y: SendState)
    requires ViewOk(base, f, o, x) && x.phase.ReplaySending?
    requires text == LastLines(x.phase.text, LINES_BACK) && n <= |text|
    requires y == if n == |text| then x.(phase := ReplayUnlocking(x.phase.size), replay := text, wire := x.wire + text)
                  else x.(phase := Aborting, wire := x.wire + text[..n])
    ensures ViewOk(base, f, o, y)
  {
    hide LastLines, ReplayText;
    ReplayReturns(f, o, x);
  }

  lemma UnlockReplayView(base: string, f: File, o: nat, x: SendState)
    requires ViewOk(base, f, o, x) && x.phase.ReplayUnlocking?
    ensures ViewOk(base, Unlock(f, o), o, x.(phase := BeforePause, offset := x.phase.size, replayEnd := x.phase.size))
  {
    hide LastLines, ReplayText;
    assert f.log[..|f.log|] == f.log;
  }

  /** Calls after which SEND has read no more than before. */
  lemma NothingRead(base: string, f: File, g: File, o: nat, x: SendState, y: SendState)
    requires ViewOk(base, f, o, x) && g.log == f.log && g.appends == f.appends && PhaseFor(g, o, y)
    requires y == x.(phase := y.phase, usr1 := y.usr1, pending := y.pending, pausedAt := y.pausedAt,
                     wired := y.wired, wire := y.wire)
    requires Replayed(y.phase) ==> Replayed(x.phase)
    requires NotYetReplayed(y.phase) ==> NotYetReplayed(x.phase)
    requires y.phase.ReplayUnlocking? ==> x.phase.ReplayUnlocking?
    ensures ViewOk(base, g, o, y)
  {
    hide Flatten, ReplayText, PhaseFor;
  }

  predicate Reads(a: SendAct) {
    a.SeekEnd? || a.WriteReplay? || a.UnlockReplay? || a.ReadWake?
  }

  lemma OtherCalls(base: string, o: nat, open: bool, f: File, x: SendState, a: SendAct)
    requires ViewOk(base, f, o, x) && SendStep(o, open, f, x, a).Some? && !Reads(a)
    ensures var e := SendStep(o, open, f, x, a).value;
            && PhaseFor(e.file, o, e.send)
            && e.send == x.(phase := e.send.phase, usr1 := e.send.usr1, pending := e.send.pending,
                            pausedAt := e.send.pausedAt, wired := e.send.wired, wire := e.send.wire)
            && (Replayed(e.send.phase) ==> Replayed(x.phase))
            && (NotYetReplayed(e.send.phase) ==> NotYetReplayed(x.phase))
            && (e.send.phase.ReplayUnlocking? ==> x.phase.ReplayUnlocking?)
  {
    hide CanShare, LastLines, IsWireForm, ReplayText, ExactFor, LagFor, StartFor;
  }

  lemma OwnCalls(base: string, o: nat, open: bool, f: File, x: SendState, a: SendAct)
    requires ViewOk(base, f, o, x) && SendStep(o, open, f, x, a).Some?
    ensures var e := SendStep(o, open, f, x, a).value; ViewOk(base, e.file, o, e.send)
  {
    if Reads(a) {
      hide ViewOk;
      ReadingCalls(base, o, open, f, x, a);
    } else {
      hide SendStep, ViewOk, PhaseFor;
      OtherCalls(base, o, open, f, x, a);
      SendMovesOwn(o, open, f, x, a);
      NothingRead(base, f, SendStep(o, open, f, x, a).value.file, o, x, SendStep(o, open, f, x, a).value.send);
    }
  }

  lemma ReadingCalls(base: string, o: nat, open: bool, f: File, x: SendState, a: SendAct)
    requires ViewOk(base, f, o, x) && SendStep(o, open, f, x, a).Some? && Reads(a)
    ensures var e := SendStep(o, open, f, x, a).value; ViewOk(base, e.file, o, e.send)
  {
    hide ViewOk, LastLines, AfterRead;
    match a
    case SeekEnd =>
      SeekEndView(base, f, o, x);
    case WriteReplay(text, n) =>
      WriteReplayView(base, f, o, x, text, n, SendStep(o, open, f, x, a).value.send);
    case UnlockReplay =>
      UnlockReplayView(base, f, o, x);
    case ReadWake =>
      WakeReads(base, f, o, x);
  }

  // ----- the whole server -------------------------------------------------------------------------

  lemma PutDelivery(own: Ownership, base: string, s: State, p: Proc, f: File, cl: Client)
    requires WorkersDistinct(own) && DeliveryOk(own, base, s) && Exclusion(s)
    requires p != Listener && p.id < |s.clients| && Grew(s.file, f, p.id)
    requires f.log == s.file.log || (p.Recv? && RecvInSection(s.clients[p.id].recv.phase))
    requires forall q | q != own(p) :: Pos(f, q) == Pos(s.file, q)
    requires ViewOk(base, f, own(Send(p.id)), cl.send)
    ensures DeliveryOk(own, base, Put(s, p.id, f, cl))
  {
    hide ViewOk, Grew;
    var t := Put(s, p.id, f, cl);
    forall j | 0 <= j < |t.clients| ensures ViewOk(base, f, own(Send(j)), t.clients[j].send) {
      if j != p.id {
        assert own(Send(j)) != own(p);
        WhileOthersMove(base, s.file, f, p.id, own(Send(j)), s.clients[j].send);
      }
    }
  }

  lemma RecvDelivery(own: Ownership, base: string, s: State, id: nat, a: RecvAct, t: State)
    requires WorkersDistinct(own) && DeliveryOk(own, base, s) && Exclusion(s) && IsShuffle(base, s)
    requires |s.key| == KEY_LENGTH && SignalsOk(s) && Step(own, s, AtRecv(id, a)) == Some(t)
    ensures DeliveryOk(own, base, t)
  {
    hide RecvStep, StillOpen, ViewOk, Grew, Heard;
    var p, cl, o := Recv(id), s.clients[id], own(Send(id));
    RecvHeard(s.key, own(p), StillOpen(own, s, p), id, s.file, cl.recv, a);
    RecvMovesOwn(s.key, own(p), StillOpen(own, s, p), id, s.file, cl.recv, a);
    assert o != own(p);
    WhileOthersMove(base, s.file, t.file, id, o, cl.send);
    ChildView(base, t.file, o, cl, a);
    PutDelivery(own, base, s, p, t.file, t.clients[id]);
  }

  /** A fork or a SIGTERM leaves the new or old SEND with nothing read that was not read before. */
  lemma ChildView(base: string, f: File, o: nat, cl: Client, a: RecvAct)
    requires ViewOk(base, f, o, cl.send)
    ensures ViewOk(base, f, o, ChildAfter(cl.recv.usr1, cl.send, a))
  {
    hide ReplayText, LastLines, LastBytes;
    match a
    case ForkOk => FreshView(base, f, o, cl.recv.usr1);
    case KillChild => SignalledView(base, f, o, cl.send, cl.send.(termed := true));
    case _ =>
  }

  lemma SendDelivery(own: Ownership, base: string, s: State, id: nat, a: SendAct, t: State)
    requires WorkersDistinct(own) && DeliveryOk(own, base, s) && Exclusion(s)
    requires Step(own, s, AtSend(id, a)) == Some(t)
    ensures DeliveryOk(own, base, t)
  {
    hide SendStep, StillOpen, ViewOk;
    var p, cl := Send(id), s.clients[id];
    SendMovesOwn(own(p), StillOpen(own, s, p), s.file, cl.send, a);
    OwnCalls(base, own(p), StillOpen(own, s, p), s.file, cl.send, a);
    PutDelivery(own, base, s, p, t.file, t.clients[id]);
  }

  lemma SignalledView(base: string, f: File, o: nat, x: SendState, y: SendState)
    requires ViewOk(base, f, o, x) && y == x.(pending := y.pending, termed := y.termed)
    ensures ViewOk(base, f, o, y)
  {
    hide ReplayText, LastBytes;
  }

  lemma MulticastDelivery(own: Ownership, base: string, s: State, id: nat)
    requires DeliveryOk(own, base, s) && SignalsOk(s) && id < |s.clients| && s.clients[id].recv.phase.Appended?
    ensures DeliveryOk(own, base, SignalAll(s, id))
  {
    hide ViewOk;
    var t := SignalAll(s, id);
    forall j | 0 <= j < |t.clients| ensures ViewOk(base, t.file, own(Send(j)), t.clients[j].send) {
      assert ClientOk(s.clients[j]);
      SignalledView(base, s.file, own(Send(j)), s.clients[j].send, t.clients[j].send);
    }
  }

  lemma SameFileView(base: string, f: File, g: File, o: nat, x: SendState)
    requires ViewOk(base, f, o, x) && g.log == f.log && g.pos == f.pos && g.appends == f.appends
    ensures ViewOk(base, g, o, x)
  {
  }

  lemma DeliveryKept(own: Ownership, base: string, s: State, a: Action, t: State)
    requires WorkersDistinct(own) && DeliveryOk(own, base, s) && Exclusion(s) && IsShuffle(base, s)
    requires |s.key| == KEY_LENGTH && SignalsOk(s) && Step(own, s, a) == Some(t)
    ensures DeliveryOk(own, base, t)
  {
    hide RecvStep, SendStep, StillOpen, ViewOk, SignalAll, Exclusion, SignalsOk;
    match a
    case AtRecv(id, r) =>
      RecvDelivery(own, base, s, id, r, t);
    case AtSend(id, x) =>
      SendDelivery(own, base, s, id, x, t);
    case Multicast(id) =>
      MulticastDelivery(own, base, s, id);
    case Accept(input) =>
      FreshView(base, s.file, own(Send(|s.clients|)), s.listenerUsr1);
    case _ =>
      forall j | 0 <= j < |s.clients| ensures ViewOk(base, t.file, own(Send(j)), t.clients[j].send) {
        SameFileView(base, s.file, t.file, own(Send(j)), s.clients[j].send);
      }
  }

  lemma FreshView(base: string, f: File, o: nat, usr1: Disposition)
    requires |base| <= |f.log|
    ensures ViewOk(base, f, o, FreshSend(usr1)) && ViewOk(base, f, o, FreshSend(usr1).(phase := Activating))
  {
    hide ReplayText, LastBytes;
  }

  lemma {:induction false} DeliveryAlways(own: Ownership, s: State, run: seq<Action>, t: State)
    requires WorkersDistinct(own) && Runs(own, s, run, t)
    ensures DeliveryOk(own, s.file.log, t)
  {
    if run != [] {
      var before := LastStep(own, s, run, t);
      var earlier := run[..|run| - 1];
      DeliveryAlways(own, s, earlier, before);
      ShuffleAlways(own, s, earlier, before);
      SignalsAlways(own, s, earlier, before);
      LocksAlways(own, s, earlier, before);
      ExclusionHolds(own, before);
      DeliveryKept(own, s.file.log, before, run[|run| - 1], t);
    }
  }

  // ----- the results ------------------------------------------------------------------------------

  ghost predicate Exact(s: State) {
    forall id | 0 <= id < |s.clients| :: ExactFor(s.file, s.clients[id].send)
  }

  /** Exact delivery under any interleaving: the replay is the right tail of the log as far as the size it
      returned, and the chunks read since are the log from there to SEND's offset, nothing skipped,
      repeated or reordered. */
  lemma ExactDelivery(own: Ownership, s: State, run: seq<Action>, t: State)
    requires WorkersDistinct(own) && Runs(own, s, run, t)
    ensures Exact(t)
  {
    DeliveryAlways(own, s, run, t);
    forall id | 0 <= id < |t.clients| ensures ExactFor(t.file, t.clients[id].send) {
      assert ViewOk(s.file.log, t.file, own(Send(id)), t.clients[id].send);
    }
  }

  /** The offset with which the replay returns is the size of the log at that moment, whole log included. */
  lemma ReplayReturnsSize(own: Ownership, s: State, run: seq<Action>, t: State, id: nat, u: State)
    requires WorkersDistinct(own) && Runs(own, s, run, t) && Step(own, t, AtSend(id, UnlockReplay)) == Some(u)
    ensures var y := u.clients[id].send;
            && y.offset == |u.file.log| == |t.file.log| && y.chunks == []
            && y.replay == ReplayText(u.file.log, LINES_BACK, WINDOW)
  {
    hide ReplayText;
    DeliveryAlways(own, s, run, t);
    assert ViewOk(s.file.log, t.file, own(Send(id)), t.clients[id].send);
  }

  /** How far one wake's read gets. */
  function NextOffset(size: nat, offset: nat): nat {
    Min(size, offset + BUF_SIZE)
  }

  /** Every read starts where SEND's offset stands and moves it to where the read ended. */
  lemma ReadsContinue(own: Ownership, s: State, run: seq<Action>, t: State, id: nat, u: State)
    requires WorkersDistinct(own) && Runs(own, s, run, t) && Step(own, t, AtSend(id, ReadWake)) == Some(u)
    ensures var x, y, log := t.clients[id].send, u.clients[id].send, t.file.log;
            && u.file.log == log && x.offset <= |log|
            && y.offset == NextOffset(|log|, x.offset)
            && y.phase == WakeUnlocking(log[x.offset..y.offset])
            && y.chunks == x.chunks + if x.offset == |log| then [] else [log[x.offset..y.offset]]
  {
    hide SendStep, StillOpen, ExactFor, LagFor, StartFor;
    var o, x := own(Send(id)), t.clients[id].send;
    DeliveryAlways(own, s, run, t);
    assert ViewOk(s.file.log, t.file, o, x);
    OwnRead(t.file, o, StillOpen(own, t, Send(id)), x);
  }

  lemma OwnRead(f: File, o: nat, open: bool, x: SendState)
    requires SendStep(o, open, f, x, ReadWake).Some? && ExactFor(f, x) && PhaseFor(f, o, x)
    ensures var e := SendStep(o, open, f, x, ReadWake).value;
            && e.file.log == f.log && x.offset <= |f.log|
            && e.send.offset == NextOffset(|f.log|, x.offset)
            && e.send.phase == WakeUnlocking(f.log[x.offset..e.send.offset])
            && e.send.chunks == x.chunks + if x.offset == |f.log| then [] else [f.log[x.offset..e.send.offset]]
  {
    hide ExactFor;
    WakeReadExact(f, o, x);
  }

  /** The lag of a SEND in its loop is at most BUF_SIZE bytes for every append that no read has answered
      yet, and when all are answered it has read the whole log. */
  lemma LagBound(own: Ownership, s: State, run: seq<Action>, t: State, id: nat)
    requires WorkersDistinct(own) && Runs(own, s, run, t) && id < |t.clients| && Replayed(t.clients[id].send.phase)
    ensures var x, f := t.clients[id].send, t.file;
            && x.seen <= |f.appends| && x.offset <= |f.log|
            && |f.log| - x.offset <= BUF_SIZE * (|f.appends| - x.seen)
            && (x.seen == |f.appends| ==> x.offset == |f.log|)
  {
    DeliveryAlways(own, s, run, t);
    assert ViewOk(s.file.log, t.file, own(Send(id)), t.clients[id].send);
  }
}
