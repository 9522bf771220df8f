/** How many wakes a SEND needs to reach the end of a log that no longer grows. */
module CatchUp {
  import opened Text
  import opened Server
  import opened Shuffle
  import opened Signals
  import opened Locking
  import opened Delivery
  import opened Wire
  import opened Sending

  /** The wakes a lag takes: ceil(lag / BUF_SIZE). */
  function WakesFor(lag: nat): nat {
    (lag + BUF_SIZE - 1) / BUF_SIZE
  }

  /** The wake reads of client `id`'s SEND in a run. */
  function WakeReadsIn(run: seq<Action>, id: nat): nat {
    if run == [] then 0
    else WakeReadsIn(run[..|run| - 1], id) + if run[|run| - 1] == AtSend(id, ReadWake) then 1 else 0
  }

  /** Once the replay is over SEND never goes back to it. */
  predicate PastReplay(p: SendPhase) {
    Replayed(p) || p.Aborting? || p.SendExiting? || p.SendDead?
  }

  /** SEND went on from `x` to `y`: it keeps what it has read and sent. */
  ghost predicate Onward(x: SendState, y: SendState) {
    && y.replay == x.replay && y.replayEnd == x.replayEnd && x.offset <= y.offset
    && x.chunks <= y.chunks && x.wired <= y.wired && x.wire <= y.wire
  }

  /** One step of any process, seen from a SEND that is in its loop before and after it. */
  lemma OneStep(own: Ownership, s: State, run: seq<Action>, t: State, a: Action, u: State, id: nat)
    requires WorkersDistinct(own) && Runs(own, s, run, t) && Step(own, t, a) == Some(u)
    requires id < |t.clients| && PastReplay(t.clients[id].send.phase)
    ensures id < |u.clients| && PastReplay(u.clients[id].send.phase)
    ensures Replayed(u.clients[id].send.phase) ==> Replayed(t.clients[id].send.phase)
    ensures Onward(t.clients[id].send, u.clients[id].send)
    ensures a != AtSend(id, ReadWake) ==>
              && u.clients[id].send.offset == t.clients[id].send.offset
              && u.clients[id].send.chunks == t.clients[id].send.chunks
  {
    SignalsAlways(own, s, run, t);
    assert ClientOk(t.clients[id]);
    if a.AtSend? && a.id == id {
      OwnStep(own(Send(id)), StillOpen(own, t, Send(id)), t.file, t.clients[id].send, a.sendAct);
    } else if a.AtRecv? {
      hide RecvStep, StillOpen;
      ForkFindsNoChild(own, t, a.id, a.recvAct, u);
    } else if a.Multicast? {
      hide RecvStep, SendStep;
    }
  }

  lemma OwnStep(o: nat, open: bool, f: File, x: SendState, a: SendAct)
    requires SendStep(o, open, f, x, a).Some? && PastReplay(x.phase)
    ensures var y := SendStep(o, open, f, x, a).value.send;
            && PastReplay(y.phase)
            && (Replayed(y.phase) ==> Replayed(x.phase))
            && Onward(x, y)
            && (!a.ReadWake? ==> y.offset == x.offset && y.chunks == x.chunks)
  {
    hide CanShare, IsWireForm, Pos;
  }

  /** After `k` wake reads of a log of `size` bytes, from offset `from`: the offset, and the chunks sent. */
  ghost predicate AfterWakes(size: nat, from: nat, k: nat, offset: nat, sent: int)
    requires from <= size
  {
    && offset == Min(size, from + BUF_SIZE * k)
    && sent == Min(k, WakesFor(size - from))
    && (offset == size <==> k >= WakesFor(size - from))
  }

  lemma OneMoreWake(size: nat, from: nat, k: nat, offset: nat, sent: int)
    requires from <= size && AfterWakes(size, from, k, offset, sent)
    ensures AfterWakes(size, from, k + 1, NextOffset(size, offset), sent + if offset == size then 0 else 1)
  {
  }

  lemma NoWakes(size: nat, from: nat)
    requires from <= size
    ensures AfterWakes(size, from, 0, from, 0)
  {
  }

  /** Over the rest of a run, from any point past the replay. */
  lemma {:induction false} GoesOn(own: Ownership, s: State, before: seq<Action>, t: State, run: seq<Action>,
                                  u: State, id: nat)
    requires WorkersDistinct(own) && Runs(own, s, before, t) && Runs(own, s, before + run, u)
    requires id < |t.clients| && PastReplay(t.clients[id].send.phase)
    ensures id < |u.clients| && PastReplay(u.clients[id].send.phase)
    ensures Onward(t.clients[id].send, u.clients[id].send)
    ensures t.file.log <= u.file.log
  {
    hide Step, Onward;
    if run == [] {
      assert before + run == before;
      StillThere(t.clients[id].send);
    } else {
      var last := |run| - 1;
      var all := before + run;
      assert all[..|all| - 1] == before + run[..last];
      var v := LastStep(own, s, all, u);
      GoesOn(own, s, before, t, run[..last], v, id);
      OneStep(own, s, before + run[..last], v, run[last], u, id);
      GrowsByStep(own, v, run[last], u);
      StillOnward(t.clients[id].send, v.clients[id].send, u.clients[id].send);
    }
  }

  lemma StillThere(x: SendState)
    ensures Onward(x, x)
  {
  }

  lemma StillOnward(x: SendState, y: SendState, z: SendState)
    requires Onward(x, y) && Onward(y, z)
    ensures Onward(x, z)
  {
  }

  /** Whatever all other processes do meanwhile, as long as the log does not grow `k` wake reads bring SEND's
      offset forward by exactly `k` buffers or to the end of the log, with one chunk read each until then.
      So it is caught up after WakesFor(lag) wakes and not before. */
  lemma {:induction false} CatchesUp(own: Ownership, s: State, before: seq<Action>, t: State, run: seq<Action>,
                                     u: State, id: nat)
    requires WorkersDistinct(own) && Runs(own, s, before, t) && Runs(own, s, before + run, u)
    requires id < |t.clients| && Replayed(t.clients[id].send.phase)
    requires id < |u.clients| && Replayed(u.clients[id].send.phase)
    requires u.file.log == t.file.log
    ensures var x, y, size := t.clients[id].send, u.clients[id].send, |t.file.log|;
            && x.offset <= size
            && AfterWakes(size, x.offset, WakeReadsIn(run, id), y.offset, |y.chunks| - |x.chunks|)
  {
    hide Step, AfterWakes, SignalsOk, Onward;
    LagBound(own, s, before, t, id);
    if run == [] {
      assert before + run == before;
      NoWakes(|t.file.log|, t.clients[id].send.offset);
    } else {
      var last := |run| - 1;
      var all := before + run;
      assert all[..|all| - 1] == before + run[..last];
      var v := LastStep(own, s, all, u);
      GrowsByStep(own, v, run[last], u);
      GoesOn(own, s, before, t, run[..last], v, id);
      OneStep(own, s, before + run[..last], v, run[last], u, id);
      CatchesUp(own, s, before, t, run[..last], v, id);
      if run[last] == AtSend(id, ReadWake) {
        ReadsContinue(own, s, before + run[..last], v, id, u);
        OneMoreWake(|t.file.log|, t.clients[id].send.offset, WakeReadsIn(run[..last], id),
                    v.clients[id].send.offset, |v.clients[id].send.chunks| - |t.clients[id].send.chunks|);
      }
    }
  }

  /** What the client is sent over the rest of a run: one wire form for every chunk that is not in hand any
      more, in order, and nothing else. So once SEND has read all and sent all, any number of wakes with no
      append leaves its offset, what it has read and every byte sent as they are. */
  lemma WakesDeliver(own: Ownership, s: State, before: seq<Action>, t: State, run: seq<Action>, u: State, id: nat)
    requires WorkersDistinct(own) && Runs(own, s, before, t) && Runs(own, s, before + run, u)
    requires id < |t.clients| && Replayed(t.clients[id].send.phase)
    requires id < |u.clients| && Replayed(u.clients[id].send.phase)
    ensures var x, y, log := t.clients[id].send, u.clients[id].send, u.file.log;
            && Onward(x, y)
            && x.offset <= y.offset <= |log|
            && Flatten(y.chunks[|x.chunks|..]) == log[x.offset..y.offset]
            && |y.wired| + |InFlight(y.phase)| == |y.chunks|
            && (forall i | |x.wired| <= i < |y.wired| :: IsWireForm(y.chunks[i], y.wired[i]))
            && y.wire == x.wire + Flatten(y.wired[|x.wired|..])
            && (x.offset == |log| ==>
                  && y.offset == x.offset && y.chunks == x.chunks
                  && (InFlight(x.phase) == [] ==> y.wire == x.wire && y.wired == x.wired))
  {
    hide Step, SignalsOk, WireOk, ExactFor, AfterWakes, Flatten, IsWireForm, InFlight;
    var x, y, log := t.clients[id].send, u.clients[id].send, u.file.log;
    GoesOn(own, s, before, t, run, u, id);
    WireAlways(own, s, before, t);
    WireAlways(own, s, before + run, u);
    SentSince(x, y);
    ExactDelivery(own, s, before, t);
    ExactDelivery(own, s, before + run, u);
    ReadSince(t.file, u.file, x, y);
    if x.offset == |log| {
      assert |t.file.log| == |log|;
      CatchesUp(own, s, before, t, run, u, id);
      NothingMore(|log|, WakeReadsIn(run, id), y.offset, |y.chunks| - |x.chunks|);
    }
  }

  lemma NothingMore(size: nat, k: nat, offset: nat, sent: int)
    requires AfterWakes(size, size, k, offset, sent)
    ensures offset == size && sent == 0
  {
  }

  lemma SentSince(x: SendState, y: SendState)
    requires WireOk(x) && WireOk(y) && Replayed(x.phase) && Replayed(y.phase) && Onward(x, y)
    ensures |y.wired| + |InFlight(y.phase)| == |y.chunks|
    ensures forall i | 0 <= i < |y.wired| :: IsWireForm(y.chunks[i], y.wired[i])
    ensures y.wire == x.wire + Flatten(y.wired[|x.wired|..])
    ensures y.chunks == x.chunks && InFlight(x.phase) == [] ==> y.wired == x.wired && y.wire == x.wire
  {
    SentSoFar(x);
    SentSoFar(y);
    hide WireOk, Flatten, IsWireForm, InFlight;
    MoreFlat(x.replay, x.wired, y.wired);
  }

  lemma MoreFlat(replay: string, some: seq<string>, all: seq<string>)
    requires some <= all
    ensures replay + Flatten(all) == replay + Flatten(some) + Flatten(all[|some|..])
    ensures |all| == |some| ==> all == some
  {
    hide Flatten;
    FlattenSplit(some, all);
    Regrouped(replay, Flatten(some), Flatten(all[|some|..]));
  }

  lemma FlattenSplit(some: seq<string>, all: seq<string>)
    requires some <= all
    ensures Flatten(all) == Flatten(some) + Flatten(all[|some|..])
    ensures |all| == |some| ==> all == some
  {
    hide Flatten;
    assert all == some + all[|some|..];
    FlattenAppend(some, all[|some|..]);
  }

  lemma Regrouped(a: string, b: string, c: string)
    ensures a + (b + c) == a + b + c
  {
  }

  /** Of what SEND has read all but the chunk in hand is sent. */
  lemma SentSoFar(x: SendState)
    requires WireOk(x) && Replayed(x.phase)
    ensures x.wire == x.replay + Flatten(x.wired)
    ensures |x.wired| + |InFlight(x.phase)| == |x.chunks|
    ensures forall i | 0 <= i < |x.wired| :: IsWireForm(x.chunks[i], x.wired[i])
  {
    hide Flatten, IsWireForm;
  }

  lemma ReadSince(f: File, g: File, x: SendState, y: SendState)
    requires Onward(x, y) && ExactFor(f, x) && ExactFor(g, y) && f.log <= g.log
    ensures x.offset <= |f.log| && x.offset <= y.offset <= |g.log|
    ensures Flatten(y.chunks[|x.chunks|..]) == g.log[x.offset..y.offset]
  {
    hide Flatten;
    var log := g.log;
    assert log[x.replayEnd..x.offset] == f.log[x.replayEnd..x.offset];
    FlattenSplit(x.chunks, y.chunks);
    assert log[x.replayEnd..y.offset] == log[x.replayEnd..x.offset] + log[x.offset..y.offset];
  }

  // ----- wake after wake, with the log at known sizes -----------------------------------------------

  /** Where SEND's offset is after wake reads that found the log at `sizes`. */
  function OffsetAfter(from: nat, sizes: seq<nat>): nat {
    if sizes == [] then from
    else NextOffset(sizes[|sizes| - 1], OffsetAfter(from, sizes[..|sizes| - 1]))
  }

  /** The chunks they read: none where there was nothing new. */
  function ReadsAt(log: string, from: nat, sizes: seq<nat>): seq<string> {
    if sizes == [] then []
    else
      var at, to := OffsetAfter(from, sizes[..|sizes| - 1]), OffsetAfter(from, sizes);
      ReadsAt(log, from, sizes[..|sizes| - 1]) + if at < to <= |log| then [log[at..to]] else []
  }

  /** Sizes of a growing log, from `from` to `to`. */
  ghost predicate Growing(from: nat, sizes: seq<nat>, to: nat) {
    && from <= to
    && (forall i | 0 <= i < |sizes| :: from <= sizes[i] <= to)
    && (forall i, j | 0 <= i < j < |sizes| :: sizes[i] <= sizes[j])
  }

  lemma {:induction false} OffsetGrows(from: nat, sizes: seq<nat>, to: nat)
    requires Growing(from, sizes, to)
    ensures from <= OffsetAfter(from, sizes) <= if sizes == [] then from else sizes[|sizes| - 1]
    ensures sizes != [] ==>
              var init := sizes[..|sizes| - 1];
              && Growing(from, init, to)
              && OffsetAfter(from, init) <= OffsetAfter(from, sizes) <= OffsetAfter(from, init) + BUF_SIZE
  {
    if sizes != [] {
      OffsetGrows(from, sizes[..|sizes| - 1], to);
    }
  }

  /** Every byte is read once and in order, at most one buffer of them at a time. */
  lemma {:induction false} ReadsAtExact(log: string, from: nat, sizes: seq<nat>)
    requires Growing(from, sizes, |log|)
    ensures from <= OffsetAfter(from, sizes) <= |log|
    ensures Flatten(ReadsAt(log, from, sizes)) == log[from..OffsetAfter(from, sizes)]
    ensures |ReadsAt(log, from, sizes)| <= |sizes|
    ensures forall i | 0 <= i < |ReadsAt(log, from, sizes)| :: 1 <= |ReadsAt(log, from, sizes)[i]| <= BUF_SIZE
  {
    hide Flatten;
    OffsetGrows(from, sizes, |log|);
    if sizes == [] {
      EmptyFlat();
    } else {
      var init := sizes[..|sizes| - 1];
      hide OffsetAfter, Growing;
      ReadsAtExact(log, from, init);
      var at, to := OffsetAfter(from, init), OffsetAfter(from, sizes);
      if at < to {
        FlattenSnoc(ReadsAt(log, from, init), log[at..to]);
        assert log[from..at] + log[at..to] == log[from..to];
      } else {
        assert ReadsAt(log, from, sizes) == ReadsAt(log, from, init);
      }
    }
  }

  /** While the log does not grow these are the wakes counted by CatchesUp. */
  lemma {:induction false} SteadyReads(log: string, from: nat, sizes: seq<nat>)
    requires from <= |log| && forall i | 0 <= i < |sizes| :: sizes[i] == |log|
    ensures AfterWakes(|log|, from, |sizes|, OffsetAfter(from, sizes), |ReadsAt(log, from, sizes)|)
  {
    hide AfterWakes;
    if sizes == [] {
      NoWakes(|log|, from);
    } else {
      var init := sizes[..|sizes| - 1];
      SteadyReads(log, from, init);
      ReadsAtExact(log, from, init);
      OneMoreWake(|log|, from, |init|, OffsetAfter(from, init), |ReadsAt(log, from, init)|);
    }
  }

  /** What has been read stays in the log. */
  lemma {:induction false} ReadsStay(log: string, later: string, from: nat, sizes: seq<nat>)
    requires Growing(from, sizes, |log|) && log <= later
    ensures OffsetAfter(from, sizes) <= |log|
    ensures ReadsAt(later, from, sizes) == ReadsAt(log, from, sizes)
  {
    if sizes != [] {
      var init := sizes[..|sizes| - 1];
      OffsetGrows(from, sizes, |log|);
      hide OffsetAfter, Growing;
      ReadsStay(log, later, from, init);
      var at, to := OffsetAfter(from, init), OffsetAfter(from, sizes);
      assert later[at..to] == log[at..to];
    }
  }

  lemma OneMoreRead(log: string, from: nat, sizes: seq<nat>, size: nat)
    requires Growing(from, sizes, size) && size <= |log|
    ensures Growing(from, sizes + [size], |log|)
    ensures OffsetAfter(from, sizes + [size]) == NextOffset(size, OffsetAfter(from, sizes)) <= |log|
    ensures var at, to := OffsetAfter(from, sizes), OffsetAfter(from, sizes + [size]);
            && at <= to
            && ReadsAt(log, from, sizes + [size]) == ReadsAt(log, from, sizes) + if at == to then [] else [log[at..to]]
  {
    assert (sizes + [size])[..|sizes|] == sizes;
    OffsetGrows(from, sizes, size);
  }
}
