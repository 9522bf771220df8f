/** The code of the worker processes, call by call, over the shared server state. Between any two calls all
    other processes may do anything they could do, and any call may fail. */
module Workers {
  import opened Text
  import opened Replay
  import opened Wire
  import opened Server
  import opened Shuffle
  import opened Signals
  import opened Locking
  import opened Delivery
  import opened Sending
  import opened CatchUp

  /** The process that makes a call. */
  function Actor(a: Action): Proc {
    match a
    case AtRecv(id, _) => Recv(id)
    case Multicast(id) => Recv(id)
    case AtSend(id, _) => Send(id)
    case _ => Listener
  }

  /** From `s` to `t` the log and the clients only grew. */
  ghost predicate Later(s: State, t: State, id: nat) {
    id < |s.clients| <= |t.clients| && s.file.log <= t.file.log
  }

  /** And client `id`'s RECV appended `bytes`. */
  ghost predicate Said(s: State, t: State, id: nat, bytes: string) {
    Later(s, t, id) && Projection(t.file.appends, id) == Projection(s.file.appends, id) + bytes
  }

  /** SEND as it was, but for the signals it may have got. */
  ghost predicate SameSend(x: SendState, y: SendState) {
    y == x.(pending := y.pending, termed := y.termed)
  }

  lemma RecvAppendsOwn(key: string, o: nat, open: bool, id: nat, f: File, r: RecvState, a: RecvAct, other: nat)
    requires RecvStep(key, o, open, id, f, r, a).Some?
    ensures var g := RecvStep(key, o, open, id, f, r, a).value.file;
            f.log <= g.log && (other != id ==> Projection(g.appends, other) == Projection(f.appends, other))
  {
    hide CanExclude, Projection;
    if a.Write? {
      OneMore(f.appends, Append(id, r.phase.chunk[..a.n]), other);
    }
  }

  lemma WhileRecvWaits(own: Ownership, s: State, a: Action, t: State, id: nat)
    requires SignalsOk(s) && id < |s.clients| && Step(own, s, a) == Some(t) && Actor(a) != Recv(id)
    ensures Said(s, t, id, "") && t.clients[id].recv == s.clients[id].recv
  {
    hide RecvStep, SendStep, StillOpen, Projection, SignalsOk, SignalAll;
    match a
    case AtRecv(other, r) =>
      var o, open := own(Recv(other)), StillOpen(own, s, Recv(other));
      RecvAppendsOwn(s.key, o, open, other, s.file, s.clients[other].recv, r, id);
    case AtSend(other, x) =>
      SendLeavesLog(own(Send(other)), StillOpen(own, s, Send(other)), s.file, s.clients[other].send, x);
    case Multicast(other) =>
      MulticastOk(s, other);
    case _ =>
  }

  lemma WhileSendWaits(own: Ownership, s: State, a: Action, t: State, id: nat)
    requires SignalsOk(s) && id < |s.clients| && Step(own, s, a) == Some(t) && Actor(a) != Send(id)
    requires !s.clients[id].send.phase.NotForked?
    ensures Later(s, t, id) && SameSend(s.clients[id].send, t.clients[id].send)
  {
    hide RecvStep, SendStep, StillOpen, Projection;
    match a
    case AtRecv(other, r) =>
      var o, open := own(Recv(other)), StillOpen(own, s, Recv(other));
      RecvAppendsOwn(s.key, o, open, other, s.file, s.clients[other].recv, r, id);
      ForkFindsNoChild(own, s, other, r, t);
    case AtSend(other, x) =>
      SendLeavesLog(own(Send(other)), StillOpen(own, s, Send(other)), s.file, s.clients[other].send, x);
    case Multicast(other) =>
      assert ClientOk(s.clients[id]);
      MulticastOk(s, other);
    case _ =>
  }

  lemma WhileListenerWaits(own: Ownership, s: State, a: Action, t: State)
    requires SignalsOk(s) && s.listenerUsr1.Ignore? && Step(own, s, a) == Some(t) && Actor(a) != Listener
    ensures t.listener == s.listener && t.listenerUsr1 == s.listenerUsr1 && SameClients(s, t)
  {
    hide RecvStep, SendStep, StillOpen;
    if a.AtRecv? {
      InputStays(s.key, own(Recv(a.id)), StillOpen(own, s, Recv(a.id)), a.id, s.file, s.clients[a.id].recv, a.recvAct);
    }
  }

  /** The clients of `s`, each with the input it came with. */
  ghost predicate SameClients(s: State, t: State) {
    && |t.clients| == |s.clients|
    && forall i | 0 <= i < |s.clients| :: t.clients[i].recv.input == s.clients[i].recv.input
  }

  lemma InputStays(key: string, o: nat, open: bool, id: nat, f: File, r: RecvState, a: RecvAct)
    requires RecvStep(key, o, open, id, f, r, a).Some?
    ensures RecvStep(key, o, open, id, f, r, a).value.recv.input == r.input
  {
    hide CanExclude, DoAppend;
  }

  /** The clients of `s` with their inputs, then one for each of `inputs`. */
  ghost predicate Admitted(s: State, t: State, inputs: seq<string>) {
    && |t.clients| == |s.clients| + |inputs|
    && (forall i | 0 <= i < |s.clients| :: t.clients[i].recv.input == s.clients[i].recv.input)
    && (forall i | 0 <= i < |inputs| :: t.clients[|s.clients| + i].recv.input == inputs[i])
  }

  /** How one connection turned out. */
  datatype Connection = AcceptFailed | ForkFailed | Forked

  /** `accepted` are the inputs whose connection has forked, in order: `which` are their places. */
  ghost predicate Selected(inputs: seq<string>, outcomes: seq<Connection>, accepted: seq<string>, which: seq<nat>) {
    && |outcomes| <= |inputs| && |which| == |accepted|
    && (forall j | 0 <= j < |which| :: which[j] < |outcomes| && accepted[j] == inputs[which[j]])
    && (forall j, k | 0 <= j < k < |which| :: which[j] < which[k])
    && (forall i | 0 <= i < |outcomes| :: outcomes[i].Forked? <==> i in which)
  }

  lemma SelectOne(inputs: seq<string>, outcomes: seq<Connection>, accepted: seq<string>, which: seq<nat>, c: Connection)
    requires Selected(inputs, outcomes, accepted, which) && |outcomes| < |inputs|
    ensures var i := |outcomes|;
            if c.Forked? then Selected(inputs, outcomes + [c], accepted + [inputs[i]], which + [i])
            else Selected(inputs, outcomes + [c], accepted, which)
  {
    var i := |outcomes|;
    var more := if c.Forked? then which + [i] else which;
    forall k | 0 <= k <= i ensures (outcomes + [c])[k].Forked? <==> k in more {
      if k < i {
        assert (outcomes + [c])[k] == outcomes[k];
      }
    }
  }

  lemma SignalsReachable(own: Ownership, s: State)
    requires Reachable(own, s)
    ensures SignalsOk(s)
  {
    var s0, run :| Runs(own, s0, run, s);
    SignalsAlways(own, s0, run, s);
  }

  lemma NotAbandoned(own: Ownership, s: State, id: nat)
    requires Reachable(own, s) && id < |s.clients| && s.clients[id].recv.phase.Reading?
    ensures !s.clients[id].recv.abandoned
  {
    SignalsReachable(own, s);
    assert ClientOk(s.clients[id]);
  }

  lemma EndedByKill(own: Ownership, s: State, id: nat)
    requires Reachable(own, s) && id < |s.clients| && s.clients[id].recv.phase.RecvDead?
    ensures SendLive(s.clients[id].send.phase) ==> (s.clients[id].send.termed <==> !s.clients[id].recv.abandoned)
  {
    SignalsReachable(own, s);
    assert ClientOk(s.clients[id]);
  }

  lemma ExactReachable(own: Ownership, s: State)
    requires Reachable(own, s) && WorkersDistinct(own)
    ensures Exact(s)
  {
    var s0, run :| Runs(own, s0, run, s);
    ExactDelivery(own, s0, run, s);
  }

  /** How many system calls and how many malloc() calls the code has made. */
  datatype Used = Used(calls: nat, buffers: nat)

  /** How a call of flock(2) ended, if it did. */
  datatype Grant = Granted | Denied | Blocked

  /** How a turn of a worker's loop ended: when it goes on, there is a next turn; a worker that waits for a
      signal or for the lock is still in pause(2) or flock(2); the others are about to exit or have exited. */
  datatype Turn = GoesOn | EndOfInput | NoSignal | WaitsForLock | OutOfMemory | CallFailed

  /** What SEND's calls do that neither read nor write text. */
  lemma SendCalls(o: nat, open: bool, f: File, x: SendState)
    ensures x.phase.Activating? ==>
              && SendStep(o, open, f, x, Activate) == Some(SendEffect(f, x.(phase := ReplayWantLock, usr1 := Handler)))
              && SendStep(o, open, f, x, FailSend) == Some(SendEffect(f, x.(phase := SendExiting)))
    ensures x.phase.ReplayWantLock? ==>
              && (CanShare(f, o) ==>
                    SendStep(o, open, f, x, LockReplay)
                    == Some(SendEffect(Lock(f, o, SharedLock), x.(phase := ReplaySeekEnd))))
              && SendStep(o, open, f, x, FailSend) == Some(SendEffect(f, x.(phase := SendExiting)))
    ensures x.phase.ReplayUnlocking? ==>
              && SendStep(o, open, f, x, UnlockReplay)
                 == Some(SendEffect(Unlock(f, o),
                                    x.(phase := BeforePause, offset := x.phase.size, replayEnd := x.phase.size)))
              && SendStep(o, open, f, x, FailSend) == Some(SendEffect(f, x.(phase := SendExiting)))
    ensures InReplay(x.phase) ==> SendStep(o, open, f, x, FailSend) == Some(SendEffect(f, x.(phase := Aborting)))
    ensures x.phase.Aborting? ==>
              && SendStep(o, open, f, x, AbortUnlock) == Some(SendEffect(Unlock(f, o), x.(phase := SendExiting)))
              && SendStep(o, open, f, x, FailSend) == Some(SendEffect(f, x.(phase := SendExiting)))
    ensures x.phase.BeforePause? ==>
              SendStep(o, open, f, x, EnterPause) == Some(SendEffect(f, x.(phase := Paused, pausedAt := |f.log|)))
    ensures x.phase.Paused? && x.pending ==>
              SendStep(o, open, f, x, Wake) == Some(SendEffect(f, x.(phase := WakeWantLock, pending := false)))
    ensures x.phase.WakeWantLock? && CanShare(f, o) ==>
              SendStep(o, open, f, x, LockWake) == Some(SendEffect(Lock(f, o, SharedLock), x.(phase := WakeSeeking)))
    ensures x.phase.WakeSeeking? ==>
              SendStep(o, open, f, x, SeekWake) == Some(SendEffect(Seek(f, o, x.offset), x.(phase := WakeReading)))
    ensures x.phase.WakeUnlocking? ==>
              SendStep(o, open, f, x, UnlockWake)
              == Some(SendEffect(Unlock(f, o),
                                 x.(phase := if x.phase.chunk == "" then BeforePause else WakeSending(x.phase.chunk))))
    ensures Awake(x.phase) ==>
              SendStep(o, open, f, x, FailSend) == Some(SendEffect(f, x.(phase := SendExiting)))
  {
    hide CanShare, LastLines, IsWireForm, AfterRead, DoRead;
  }

  lemma WindowCall(o: nat, open: bool, f: File, x: SendState)
    requires x.phase.ReplayReading?
    ensures var e := SendStep(o, open, f, x, ReadWindow);
            && e.Some? && e.value.send.phase.ReplaySending? && e.value.send.phase.size == x.phase.size
            && |e.value.send.phase.text| <= WINDOW
  {
  }

  lemma WriteCall(o: nat, open: bool, f: File, x: SendState, w: string, n: nat)
    requires x.phase.WakeSending? && IsWireForm(x.phase.chunk, w) && n <= |w|
    ensures SendStep(o, open, f, x, WriteWake(w, n))
            == Some(SendEffect(f, if n == |w| then x.(phase := BeforePause, wired := x.wired + [w], wire := x.wire + w)
                                  else x.(phase := SendExiting, wire := x.wire + w[..n])))
  {
    hide IsWireForm;
  }

  /** What RECV's write(2) of `n` bytes of its chunk does, and a call of its that fails. */
  lemma AppendCalls(key: string, o: nat, open: bool, id: nat, f: File, r: RecvState, n: nat)
    requires r.phase.Locked? && n <= |r.phase.chunk|
    ensures RecvStep(key, o, open, id, f, r, Write(n))
            == Some(RecvEffect(DoAppend(f, o, id, r.phase.chunk[..n]),
                               r.(phase := if n == |r.phase.chunk| then Appended else Killing,
                                  owed := if n > 0 then Some(|f.log| + n) else r.owed)))
    ensures RecvStep(key, o, open, id, f, r, FailCall) == Some(RecvEffect(f, r.(phase := Killing)))
  {
    hide DoAppend;
  }

  lemma AppendSaid(f: File, o: nat, id: nat, bytes: string)
    ensures var g := DoAppend(f, o, id, bytes);
            && f.log <= g.log && |g.log| == |f.log| + |bytes|
            && Projection(g.appends, id) == Projection(f.appends, id) + bytes
  {
    hide Projection;
    OneMore(f.appends, Append(id, bytes), id);
  }

  predicate Awake(p: SendPhase) {
    p.WakeWantLock? || p.WakeSeeking? || p.WakeReading? || p.WakeUnlocking? || p.WakeSending?
  }

  /** The code below is run for one process. Which of its calls fail is not up to it: the system call number
      `k` does when `fails(k)`, and the malloc() number `k` when `lacks(k)`. */
  class Machine {
    const own: Ownership
    const fails: nat -> bool
    const lacks: nat -> bool
    var s: State
    var used: Used

    /** No system call from `a` to `b` has failed. */
    ghost predicate CallsFine(a: Used, b: Used) {
      forall k | a.calls <= k < b.calls :: !fails(k)
    }

    /** No malloc() from `a` to `b` has failed. */
    ghost predicate MemoryFine(a: Used, b: Used) {
      forall k | a.buffers <= k < b.buffers :: !lacks(k)
    }

    ghost predicate Fine(a: Used, b: Used) {
      CallsFine(a, b) && MemoryFine(a, b)
    }

    lemma EmptyRun(a: Used)
      ensures Ran(a, a, true)
    {
    }

    lemma RanOn(a: Used, b: Used, c: Used, fine: bool)
      requires Ran(a, b, true) && Ran(b, c, fine)
      ensures Ran(a, c, fine)
    {
    }

    /** The code has run from `a` to `b`, and was `fine` if and only if no call failed. */
    ghost predicate Ran(a: Used, b: Used, fine: bool) {
      a.calls <= b.calls && a.buffers <= b.buffers && (fine <==> Fine(a, b))
    }

    ghost predicate Valid()
      reads this
    {
      Reachable(own, s)
    }

    constructor (own: Ownership, fails: nat -> bool, lacks: nat -> bool, key: string, log: string)
      requires |key| == KEY_LENGTH
      ensures Valid() && this.own == own && this.fails == fails && this.lacks == lacks && used == Used(0, 0)
      ensures s == State(key, Booting, Default, File(log, map[], map[], []), [])
    {
      this.own := own;
      this.fails := fails;
      this.lacks := lacks;
      this.s := State(key, Booting, Default, File(log, map[], map[], []), []);
      this.used := Used(0, 0);
      new;
      assert Runs(own, s, [], s);
    }

    /** The next system call succeeds or fails. */
    method Call() returns (ok: bool)
      modifies this`used
      ensures used == old(used).(calls := old(used).calls + 1) && ok == !fails(old(used).calls)
    {
      ok := !fails(used.calls);
      used := used.(calls := used.calls + 1);
    }

    method Malloc() returns (ok: bool)
      modifies this`used
      ensures used == old(used).(buffers := old(used).buffers + 1) && ok == !lacks(old(used).buffers)
    {
      ok := !lacks(used.buffers);
      used := used.(buffers := used.buffers + 1);
    }

    /** One call of one process. */
    method Perform(a: Action)
      requires Valid() && Step(own, s, a).Some?
      modifies this`s
      ensures Valid() && Step(own, old(s), a) == Some(s)
    {
      ReachStep(own, s, a);
      s := Step(own, s, a).value;
    }

    /** One call of client `id`'s SEND. */
    method PerformSend(id: nat, a: SendAct)
      requires Valid() && id < |s.clients|
      requires SendStep(own(Send(id)), StillOpen(own, s, Send(id)), s.file, s.clients[id].send, a).Some?
      modifies this`s
      ensures Valid() && |s.clients| == |old(s).clients| && s.file.log == old(s).file.log
      ensures var o, open := own(Send(id)), StillOpen(own, old(s), Send(id));
              var e := SendStep(o, open, old(s).file, old(s).clients[id].send, a);
              e.Some? && s.file == e.value.file && s.clients[id].send == e.value.send
    {
      hide Reachable, SendStep, RecvStep, StillOpen;
      SendLeavesLog(own(Send(id)), StillOpen(own, s, Send(id)), s.file, s.clients[id].send, a);
      Perform(AtSend(id, a));
    }

    /** One call of client `id`'s RECV, but for the multicast. */
    method PerformRecv(id: nat, a: RecvAct)
      requires Valid() && id < |s.clients|
      requires RecvStep(s.key, own(Recv(id)), StillOpen(own, s, Recv(id)), id, s.file, s.clients[id].recv, a).Some?
      modifies this`s
      ensures Valid() && |s.clients| == |old(s).clients|
      ensures var o, open, cl := own(Recv(id)), StillOpen(own, old(s), Recv(id)), old(s).clients[id];
              var e := RecvStep(old(s).key, o, open, id, old(s).file, cl.recv, a);
              && e.Some? && s.file == e.value.file
              && s.clients[id] == Client(e.value.recv, ChildAfter(cl.recv.usr1, cl.send, a))
      ensures s.key == old(s).key
    {
      hide Reachable, SendStep, RecvStep, StillOpen;
      Perform(AtRecv(id, a));
    }

    /** RECV is about to make a call; until it does the others go on. */
    method WaitRecv(id: nat)
      requires Valid() && id < |s.clients|
      modifies this`s
      ensures Valid() && Said(old(s), s, id, "") && s.clients[id].recv == old(s).clients[id].recv
    {
      var others: seq<Action> := *;
      for i := 0 to |others|
        invariant Valid() && Said(old(s), s, id, "") && s.clients[id].recv == old(s).clients[id].recv
      {
        if Actor(others[i]) != Recv(id) && Step(own, s, others[i]).Some? {
          SignalsReachable(own, s);
          WhileRecvWaits(own, s, others[i], Step(own, s, others[i]).value, id);
          Perform(others[i]);
        }
      }
    }

    /** SEND is about to make a call, or sits in pause(2). */
    method WaitSend(id: nat)
      requires Valid() && id < |s.clients| && !s.clients[id].send.phase.NotForked?
      modifies this`s
      ensures Valid() && Later(old(s), s, id) && SameSend(old(s).clients[id].send, s.clients[id].send)
    {
      var others: seq<Action> := *;
      for i := 0 to |others|
        invariant Valid() && Later(old(s), s, id) && SameSend(old(s).clients[id].send, s.clients[id].send)
      {
        if Actor(others[i]) != Send(id) && Step(own, s, others[i]).Some? {
          SignalsReachable(own, s);
          WhileSendWaits(own, s, others[i], Step(own, s, others[i]).value, id);
          Perform(others[i]);
        }
      }
      var delivered: bool := *;
      if delivered && Step(own, s, AtSend(id, Handle)).Some? {
        PerformSend(id, Handle);
      }
    }

    // ----- file_locking.c: exclusiveWrite -------------------------------------------------------------

    method FlockExclusive(id: nat) returns (grant: Grant)
      requires Valid() && id < |s.clients| && s.clients[id].recv.phase.WantLock?
      modifies this`s, this`used
      ensures Valid() && Said(old(s), s, id, "") && Ran(old(used), used, !grant.Denied?)
      ensures used == old(used).(calls := old(used).calls + 1)
      ensures var r, t := old(s).clients[id].recv, s.clients[id].recv;
              match grant
              case Granted => t == r.(phase := Locked(r.phase.chunk))
              case Denied => t == r.(phase := Killing)
              case Blocked => t == r && !CanExclude(s.file, own(Recv(id)))
    {
      hide Reachable, Step, SendStep, StillOpen, Projection;
      WaitRecv(id);
      var ok := Call();
      if !ok {
        PerformRecv(id, FailCall);
        return Denied;
      }
      if !CanExclude(s.file, own(Recv(id))) {
        return Blocked;
      }
      PerformRecv(id, LockExclusive);
      return Granted;
    }

    /** write(2) on the log: all of the chunk, or less of it when it fails. */
    method Append(id: nat) returns (ok: bool, written: nat)
      requires Valid() && id < |s.clients| && s.clients[id].recv.phase.Locked?
      modifies this`s, this`used
      ensures Valid() && Ran(old(used), used, ok) && used == old(used).(calls := old(used).calls + 1)
      ensures var r := old(s).clients[id].recv;
              && written <= |r.phase.chunk| && (ok ==> written == |r.phase.chunk|)
              && Said(old(s), s, id, r.phase.chunk[..written])
              && s.clients[id].recv == r.(phase := if ok then Appended else Killing,
                                          owed := if written > 0 then Some(|s.file.log|) else r.owed)
    {
      hide Reachable, Step, SendStep, RecvStep, StillOpen, Projection;
      WaitRecv(id);
      var size := |s.clients[id].recv.phase.chunk|;
      ok := Call();
      if !ok && size == 0 {
        AppendCalls(s.key, own(Recv(id)), StillOpen(own, s, Recv(id)), id, s.file, s.clients[id].recv, 0);
        PerformRecv(id, FailCall);
        return false, 0;
      }
      written := size;
      if !ok {
        written := *;
        written := Min(written, size - 1);
      }
      WriteLog(id, written);
    }

    method WriteLog(id: nat, written: nat)
      requires Valid() && id < |s.clients| && s.clients[id].recv.phase.Locked?
      requires written <= |s.clients[id].recv.phase.chunk|
      modifies this`s
      ensures Valid()
      ensures var r := old(s).clients[id].recv;
              && Said(old(s), s, id, r.phase.chunk[..written])
              && s.clients[id].recv == r.(phase := if written == |r.phase.chunk| then Appended else Killing,
                                          owed := if written > 0 then Some(|s.file.log|) else r.owed)
    {
      hide Reachable, Step, SendStep, RecvStep, StillOpen, Projection, DoAppend;
      AppendCalls(s.key, own(Recv(id)), StillOpen(own, s, Recv(id)), id, s.file, s.clients[id].recv, written);
      AppendSaid(s.file, own(Recv(id)), id, s.clients[id].recv.phase.chunk[..written]);
      PerformRecv(id, Write(written));
    }

    method KillGroup(id: nat) returns (ok: bool)
      requires Valid() && id < |s.clients| && s.clients[id].recv.phase.Appended?
      modifies this`s, this`used
      ensures Valid() && Said(old(s), s, id, "") && Ran(old(used), used, ok)
      ensures used == old(used).(calls := old(used).calls + 1)
      ensures var r := old(s).clients[id].recv;
              s.clients[id].recv == if ok then r.(phase := Signalled, owed := None) else r.(phase := Killing)
    {
      hide Reachable, RecvStep, SendStep, StillOpen, Projection;
      WaitRecv(id);
      ok := Call();
      if ok {
        SignalsReachable(own, s);
        MulticastOk(s, id);
        assert ClientOk(s.clients[id]);
        Perform(Multicast(id));
      } else {
        FailsAfterAppend(s.key, own(Recv(id)), StillOpen(own, s, Recv(id)), id, s.file, s.clients[id].recv);
        PerformRecv(id, FailCall);
      }
    }

    method FlockUnlock(id: nat) returns (ok: bool)
      requires Valid() && id < |s.clients| && s.clients[id].recv.phase.Signalled?
      modifies this`s, this`used
      ensures Valid() && Said(old(s), s, id, "") && Ran(old(used), used, ok)
      ensures used == old(used).(calls := old(used).calls + 1)
      ensures s.clients[id].recv == old(s).clients[id].recv.(phase := if ok then Reading else Killing)
    {
      hide Reachable, Step, SendStep, StillOpen, Projection;
      WaitRecv(id);
      ok := Call();
      if ok {
        PerformRecv(id, UnlockWrite);
      } else {
        PerformRecv(id, FailCall);
      }
    }

    /** Returns 0 with the whole chunk in the log and signalled, or, exactly when a call failed, -1 with its
        first `done` bytes there. None: it is still waiting for the lock, which is not free. */
    method ExclusiveWrite(id: nat) returns (result: Option<int>, ghost done: nat)
      requires Valid() && id < |s.clients| && s.clients[id].recv.phase.WantLock?
      modifies this`s, this`used
      ensures Valid() && id < |s.clients| && (result == Some(0) || result == Some(-1) || result == None)
      ensures Ran(old(used), used, result != Some(-1)) && used.buffers == old(used).buffers
      ensures used.calls <= old(used).calls + 4 && (result == Some(0) ==> used.calls == old(used).calls + 4)
      ensures var r, t := old(s).clients[id].recv, s.clients[id].recv;
              && done <= |r.phase.chunk| && Said(old(s), s, id, r.phase.chunk[..done])
              && (result == Some(0) ==> done == |r.phase.chunk| && t == r.(phase := Reading, owed := None))
              && (result == Some(-1) ==> t == r.(phase := Killing, owed := t.owed))
              && (result == None ==> done == 0 && t == r && !CanExclude(s.file, own(Recv(id))))
    {
      hide Reachable, Projection;
      ghost var r := s.clients[id].recv;
      var grant := FlockExclusive(id);
      if !grant.Granted? {
        return if grant.Denied? then Some(-1) else None, 0;
      }
      var ok, written := Append(id);
      if !ok {
        return Some(-1), written;
      }
      ok := KillGroup(id);
      if !ok {
        return Some(-1), written;
      }
      ok := FlockUnlock(id);
      return if ok then Some(0) else Some(-1), written;
    }

    // ----- clientRequest.c: receiveMessages -----------------------------------------------------------

    method KillChild(id: nat)
      requires Valid() && id < |s.clients| && s.clients[id].recv.phase.Killing?
      modifies this`s
      ensures Valid() && Said(old(s), s, id, "")
      ensures s.clients[id].recv == old(s).clients[id].recv.(phase := RecvExiting) && s.clients[id].send.termed
    {
      hide Reachable, Step, SendStep, StillOpen, Projection;
      WaitRecv(id);
      PerformRecv(id, Server.KillChild);
    }

    method ExitRecv(id: nat)
      requires Valid() && id < |s.clients| && s.clients[id].recv.phase.RecvExiting?
      modifies this`s
      ensures Valid() && Said(old(s), s, id, "") && s.clients[id].recv == old(s).clients[id].recv.(phase := RecvDead)
    {
      hide Reachable, Step, SendStep, StillOpen, Projection;
      WaitRecv(id);
      PerformRecv(id, Server.ExitRecv);
    }

    /** read(2) on the client's socket: how much of the input came in, 0 when there is no more of it, or -1. */
    method ReadSocket(id: nat) returns (numRead: int)
      requires Valid() && id < |s.clients| && s.clients[id].recv.phase.Reading?
      requires s.clients[id].recv.taken <= |s.clients[id].recv.input|
      modifies this`s, this`used
      ensures Valid() && Said(old(s), s, id, "") && Ran(old(used), used, numRead != -1)
      ensures used == old(used).(calls := old(used).calls + 1)
      ensures var r, t := old(s).clients[id].recv, s.clients[id].recv;
              && -1 <= numRead <= BUF_SIZE && r.taken + numRead <= |r.input|
              && (numRead == 0 ==> r.taken == |r.input|)
              && t == (if numRead <= 0 then r.(phase := Killing)
                       else r.(phase := WantLock(r.input[r.taken..r.taken + numRead]), taken := r.taken + numRead))
    {
      hide Reachable, Step, SendStep, StillOpen, Projection;
      WaitRecv(id);
      var ok := Call();
      if !ok {
        PerformRecv(id, FailCall);
        return -1;
      }
      var left := |s.clients[id].recv.input| - s.clients[id].recv.taken;
      if left == 0 {
        PerformRecv(id, ReadEnd);
        return 0;
      }
      var n: nat := *;
      if n == 0 {
        n := 1;
      }
      n := Min(n, Min(BUF_SIZE, left));
      PerformRecv(id, ReadSome(n));
      return n;
    }

    /** KILL, then exit: how RECV ends at end of file and after every failed call. */
    method Finish(id: nat)
      requires Valid() && id < |s.clients| && s.clients[id].recv.phase.Killing?
      modifies this`s
      ensures Valid() && Said(old(s), s, id, "")
      ensures s.clients[id].recv == old(s).clients[id].recv.(phase := RecvDead)
    {
      hide Reachable, Projection;
      KillChild(id);
      ExitRecv(id);
    }

    /** RECV's state `t` after turns that began in `r`, with `done` bytes of its input dealt with. */
    static ghost predicate Received(r: RecvState, t: RecvState, done: nat, turn: Turn) {
      && t.input == r.input && r.taken <= done <= t.taken <= |r.input| && t.taken <= done + BUF_SIZE
      && (t.abandoned <==> r.abandoned || turn.OutOfMemory?)
      && match turn
         case GoesOn => t.phase.Reading? && done == t.taken
         case EndOfInput => t.phase.RecvDead? && done == t.taken == |r.input|
         case OutOfMemory => t.phase.RecvDead? && done == t.taken
         case CallFailed => t.phase.RecvDead?
         case WaitsForLock => t.phase == WantLock(r.input[done..t.taken])
         case NoSignal => false
    }

    static lemma TurnReceived(r: RecvState, m: RecvState, t: RecvState, numRead: nat, n: nat, turn: Turn)
      requires 0 < numRead <= BUF_SIZE && r.taken + numRead <= |r.input| && n <= numRead
      requires m == r.(phase := WantLock(r.input[r.taken..r.taken + numRead]), taken := r.taken + numRead)
      requires t == m.(phase := t.phase, owed := t.owed)
      requires turn.GoesOn? || turn.CallFailed? || turn.WaitsForLock?
      requires turn.GoesOn? ==> t.phase.Reading? && n == numRead
      requires turn.CallFailed? ==> t.phase.RecvDead?
      requires turn.WaitsForLock? ==> t.phase == m.phase && n == 0
      ensures Received(r, t, r.taken + n, turn)
      ensures m.phase.chunk[..n] == r.input[r.taken..r.taken + n]
    {
    }

    /** One turn of RECV's loop: it ends for no other reason than end of file, a failed call, or a lock that
        is not free. */
    method ReceiveOnce(id: nat) returns (turn: Turn, ghost done: nat)
      requires Valid() && id < |s.clients| && s.clients[id].recv.phase.Reading?
      requires s.clients[id].recv.taken <= |s.clients[id].recv.input|
      modifies this`s, this`used
      ensures Valid() && id < |s.clients| && Ran(old(used), used, !turn.OutOfMemory? && !turn.CallFailed?)
      ensures turn.OutOfMemory? <==> !MemoryFine(old(used), used)
      ensures var r, t := old(s).clients[id].recv, s.clients[id].recv;
              && Received(r, t, done, turn) && Said(old(s), s, id, r.input[r.taken..done])
              && (turn.GoesOn? ==> r.taken < t.taken)
      ensures turn.WaitsForLock? ==> !CanExclude(s.file, own(Recv(id)))
    {
      hide Reachable, Projection, Step, Received, CanExclude;
      ghost var r := s.clients[id].recv;
      var buffer := Malloc();
      if !buffer {
        GiveUpWithoutMemory(id);
        EndReceived(r, s.clients[id].recv, OutOfMemory);
        return OutOfMemory, r.taken;
      }
      var numRead := ReadSocket(id);
      if numRead <= 0 {
        Finish(id);
        turn, done := if numRead == 0 then EndOfInput else CallFailed, r.taken;
        EndReceived(r, s.clients[id].recv, turn);
        return;
      }
      ghost var mid, n := s, 0;
      turn, n := AppendOrFinish(id);
      done := r.taken + n;
      TurnReceived(r, mid.clients[id].recv, s.clients[id].recv, numRead, n, turn);
    }

    static lemma EndReceived(r: RecvState, t: RecvState, turn: Turn)
      requires r.taken <= |r.input| && (turn.OutOfMemory? || turn.EndOfInput? || turn.CallFailed?)
      requires t == r.(phase := RecvDead, abandoned := r.abandoned || turn.OutOfMemory?)
      requires turn.EndOfInput? ==> r.taken == |r.input|
      ensures Received(r, t, r.taken, turn) && r.input[r.taken..r.taken] == ""
    {
    }

    /** Append the chunk in hand; when that fails, `done` bytes of it are in the log and the process ends. */
    method AppendOrFinish(id: nat) returns (turn: Turn, ghost done: nat)
      requires Valid() && id < |s.clients| && s.clients[id].recv.phase.WantLock?
      modifies this`s, this`used
      ensures Valid() && id < |s.clients| && Ran(old(used), used, !turn.CallFailed?)
      ensures used.buffers == old(used).buffers
      ensures var r, t := old(s).clients[id].recv, s.clients[id].recv;
              && done <= |r.phase.chunk| && Said(old(s), s, id, r.phase.chunk[..done])
              && t == r.(phase := t.phase, owed := t.owed)
              && (turn.GoesOn? || turn.CallFailed? || turn.WaitsForLock?)
              && (turn.GoesOn? ==> t.phase.Reading? && done == |r.phase.chunk|)
              && (turn.CallFailed? ==> t.phase.RecvDead?)
              && (turn.WaitsForLock? ==> t == r && done == 0 && !CanExclude(s.file, own(Recv(id))))
    {
      hide Reachable, Projection;
      var result;
      result, done := ExclusiveWrite(id);
      if result.None? {
        return WaitsForLock, done;
      }
      if result == Some(-1) {
        Finish(id);
        return CallFailed, done;
      }
      return GoesOn, done;
    }

    /** The loop of RECV: all it read is appended, in order, but for what a failed append cut off the last
        chunk or what is waiting for the lock. At end of file all the client sent is in the log; every other end
        comes from a failed call, and a SEND that is still there then was sent SIGTERM, unless there was no
        memory for a buffer. */
    method ReceiveMessages(id: nat) returns (turn: Turn, ghost done: nat)
      requires Valid() && id < |s.clients| && s.clients[id].recv.phase.Reading?
      requires s.clients[id].recv.taken <= |s.clients[id].recv.input|
      modifies this`s, this`used
      ensures Valid() && id < |old(s).clients| <= |s.clients| && !turn.GoesOn?
      ensures Ran(old(used), used, !turn.OutOfMemory? && !turn.CallFailed?)
      ensures turn.OutOfMemory? <==> !MemoryFine(old(used), used)
      ensures var r, t := old(s).clients[id].recv, s.clients[id].recv;
              Received(r, t, done, turn) && Said(old(s), s, id, r.input[r.taken..done])
      ensures turn.WaitsForLock? ==> !CanExclude(s.file, own(Recv(id)))
      ensures !turn.WaitsForLock? && SendLive(s.clients[id].send.phase) ==>
                (s.clients[id].send.termed <==> !turn.OutOfMemory?)
    {
      hide Reachable, Projection;
      ghost var r := s.clients[id].recv;
      NotAbandoned(own, s, id);
      turn, done := GoesOn, r.taken;
      while turn.GoesOn?
        invariant Valid() && id < |s.clients|
        invariant Ran(old(used), used, !turn.OutOfMemory? && !turn.CallFailed?)
        invariant turn.OutOfMemory? <==> !MemoryFine(old(used), used)
        invariant Received(r, s.clients[id].recv, done, turn)
        invariant Said(old(s), s, id, r.input[r.taken..done])
        invariant turn.WaitsForLock? ==> !CanExclude(s.file, own(Recv(id)))
        decreases turn.GoesOn?, |r.input| - done
      {
        ghost var start := done;
        turn, done := ReceiveOnce(id);
        assert r.input[r.taken..start] + r.input[start..done] == r.input[r.taken..done];
      }
      if !turn.WaitsForLock? {
        EndedByKill(own, s, id);
      }
    }

    method OutOfBuffers(id: nat)
      requires Valid() && id < |s.clients| && s.clients[id].recv.phase.Reading?
      modifies this`s
      ensures Valid() && Said(old(s), s, id, "")
      ensures s.clients[id].recv == old(s).clients[id].recv.(phase := RecvExiting, abandoned := true)
    {
      hide Reachable, Step, SendStep, StillOpen, Projection;
      WaitRecv(id);
      PerformRecv(id, NoMemory);
    }

    /** How RECV ends without a buffer: its child is not killed. */
    method GiveUpWithoutMemory(id: nat)
      requires Valid() && id < |s.clients| && s.clients[id].recv.phase.Reading?
      modifies this`s
      ensures Valid() && Said(old(s), s, id, "")
      ensures s.clients[id].recv == old(s).clients[id].recv.(phase := RecvDead, abandoned := true)
    {
      hide Reachable, Projection;
      OutOfBuffers(id);
      ExitRecv(id);
    }

    // ----- file_locking.c: messagesFromFirstClientConnection --------------------------------------------

    /** A call of the replay that failed: unlock, and the process will exit. */
    method AbortReplay(id: nat)
      requires Valid() && id < |s.clients| && InReplay(s.clients[id].send.phase)
      modifies this`s, this`used
      ensures Valid() && Later(old(s), s, id) && s.clients[id].send.phase.SendExiting?
      ensures used == old(used).(calls := old(used).calls + 1)
    {
      hide Reachable, Step, RecvStep, SendStep, StillOpen;
      SendCalls(own(Send(id)), StillOpen(own, s, Send(id)), s.file, s.clients[id].send);
      PerformSend(id, FailSend);
      FinishAbort(id);
    }

    method LockForReplay(id: nat) returns (grant: Grant)
      requires Valid() && id < |s.clients| && s.clients[id].send.phase.ReplayWantLock?
      modifies this`s, this`used
      ensures Valid() && Later(old(s), s, id) && Ran(old(used), used, !grant.Denied?)
      ensures var p := s.clients[id].send.phase;
              match grant
              case Granted => p == ReplaySeekEnd
              case Denied => p == SendExiting
              case Blocked => p == ReplayWantLock && !CanShare(s.file, own(Send(id)))
    {
      hide Reachable, Step, RecvStep, SendStep, StillOpen;
      WaitSend(id);
      SendCalls(own(Send(id)), StillOpen(own, s, Send(id)), s.file, s.clients[id].send);
      var ok := Call();
      if ok && !CanShare(s.file, own(Send(id))) {
        return Blocked;
      }
      if ok {
        PerformSend(id, LockReplay);
      } else {
        PerformSend(id, FailSend);
      }
      return if ok then Granted else Denied;
    }

    method MeasureLog(id: nat) returns (ok: bool)
      requires Valid() && id < |s.clients| && s.clients[id].send.phase.ReplaySeekEnd?
      modifies this`s, this`used
      ensures Valid() && Later(old(s), s, id) && Ran(old(used), used, ok)
      ensures var p := s.clients[id].send.phase;
              if ok then p == ReplayUnlocking(0) || (p.ReplaySeekSet? && p.size > 0) else p.SendExiting?
    {
      hide Reachable, Step, RecvStep, StillOpen;
      WaitSend(id);
      ok := Call();
      if ok {
        PerformSend(id, SeekEnd);
      } else {
        AbortReplay(id);
      }
    }

    method SeekWindow(id: nat) returns (ok: bool)
      requires Valid() && id < |s.clients|
      requires s.clients[id].send.phase.ReplaySeekSet? && s.clients[id].send.phase.size > 0
      modifies this`s, this`used
      ensures Valid() && Later(old(s), s, id) && Ran(old(used), used, ok)
      ensures var p := s.clients[id].send.phase;
              if ok then p == ReplayReading(old(s).clients[id].send.phase.size) else p.SendExiting?
    {
      hide Reachable, Step, RecvStep, StillOpen;
      WaitSend(id);
      ok := Call();
      if !ok {
        AbortReplay(id);
        return;
      }
      var workingOffset := WorkingOffset(s.clients[id].send.phase.size, WINDOW);
      PerformSend(id, SeekSet(workingOffset));
    }

    /** Seek to the window and read it. */
    method ReadTail(id: nat) returns (ok: bool)
      requires Valid() && id < |s.clients|
      requires s.clients[id].send.phase.ReplaySeekSet? && s.clients[id].send.phase.size > 0
      modifies this`s, this`used
      ensures Valid() && Later(old(s), s, id) && Ran(old(used), used, ok)
      ensures var p := s.clients[id].send.phase;
              if ok then p.ReplaySending? && p.size == old(s).clients[id].send.phase.size && |p.text| <= WINDOW
              else p.SendExiting?
    {
      hide Reachable, Step, RecvStep, SendStep, StillOpen, Ran;
      ok := SeekWindow(id);
      if ok {
        ghost var from := used;
        ok := ReadBuffer(id);
        RanOn(old(used), from, used, ok);
      }
    }

    method ReadBuffer(id: nat) returns (ok: bool)
      requires Valid() && id < |s.clients| && s.clients[id].send.phase.ReplayReading?
      modifies this`s, this`used
      ensures Valid() && Later(old(s), s, id) && Ran(old(used), used, ok)
      ensures var p := s.clients[id].send.phase;
              if ok then p.ReplaySending? && p.size == old(s).clients[id].send.phase.size && |p.text| <= WINDOW
              else p.SendExiting?
    {
      hide Reachable, Step, RecvStep, SendStep, StillOpen;
      WaitSend(id);
      WindowCall(own(Send(id)), StillOpen(own, s, Send(id)), s.file, s.clients[id].send);
      ok := Malloc();
      if ok {
        ok := Call();
      }
      if !ok {
        AbortReplay(id);
        return;
      }
      PerformSend(id, ReadWindow);
    }

    /** Find the start of the last lines in the buffer and write them to the client's socket. */
    method SendTail(id: nat) returns (ok: bool)
      requires Valid() && id < |s.clients| && s.clients[id].send.phase.ReplaySending?
      requires |s.clients[id].send.phase.text| <= WINDOW
      modifies this`s, this`used
      ensures Valid() && Later(old(s), s, id) && Ran(old(used), used, ok)
      ensures var x, y := old(s).clients[id].send, s.clients[id].send;
              if ok then
                && y.phase == ReplayUnlocking(x.phase.size)
                && y.replay == LastLines(x.phase.text, LINES_BACK) && y.wire == x.wire + y.replay
              else y.phase.SendExiting?
    {
      hide Reachable, Step, Later, SameSend, LastLines;
      var message := FindTail(s.clients[id].send.phase.text);
      ok := WriteTail(id, message);
    }

    method FindTail(text: string) returns (message: string)
      requires |text| <= WINDOW
      ensures message == LastLines(text, LINES_BACK)
    {
      var chatText := new char[WINDOW];
      forall i | 0 <= i < |text| {
        chatText[i] := text[i];
      }
      assert chatText[..|text|] == text;
      var start := FindStart(chatText, |text|, LINES_BACK);
      message := chatText[start..|text|];
    }

    method WriteTail(id: nat, message: string) returns (ok: bool)
      requires Valid() && id < |s.clients| && s.clients[id].send.phase.ReplaySending?
      requires message == LastLines(s.clients[id].send.phase.text, LINES_BACK)
      modifies this`s, this`used
      ensures Valid() && Later(old(s), s, id) && Ran(old(used), used, ok)
      ensures var x, y := old(s).clients[id].send, s.clients[id].send;
              if ok then
                y.phase == ReplayUnlocking(x.phase.size) && y.replay == message && y.wire == x.wire + message
              else y.phase.SendExiting?
    {
      hide Reachable, Step, RecvStep, StillOpen, LastLines;
      WaitSend(id);
      ok := Call();
      if ok {
        PerformSend(id, WriteReplay(message, |message|));
      } else if message == "" {
        AbortReplay(id);
      } else {
        var written: nat := *;
        written := Min(written, |message| - 1);
        PerformSend(id, WriteReplay(message, written));
        FinishAbort(id);
      }
    }

    /** After a failed call of the replay: unlock, if that call does not fail too. */
    method FinishAbort(id: nat)
      requires Valid() && id < |s.clients| && s.clients[id].send.phase.Aborting?
      modifies this`s, this`used
      ensures Valid() && Later(old(s), s, id) && s.clients[id].send.phase.SendExiting?
      ensures used == old(used).(calls := old(used).calls + 1)
    {
      hide Reachable, Step, RecvStep, SendStep, StillOpen;
      WaitSend(id);
      SendCalls(own(Send(id)), StillOpen(own, s, Send(id)), s.file, s.clients[id].send);
      var ok := Call();
      if ok {
        PerformSend(id, AbortUnlock);
      } else {
        PerformSend(id, FailSend);
      }
    }

    /** Returns the size of the log that the replay was taken from, or, exactly when a call failed, -1, and the
        process is about to exit. None: it is still waiting for the lock. */
    method MessagesFromFirstClientConnection(id: nat) returns (result: Option<int>)
      requires Valid() && id < |s.clients| && s.clients[id].send.phase.ReplayWantLock?
      modifies this`s, this`used
      ensures Valid() && Later(old(s), s, id) && Ran(old(used), used, result != Some(-1))
      ensures var x := s.clients[id].send;
              && (result == None ==> x.phase.ReplayWantLock? && !CanShare(s.file, own(Send(id))))
              && (result == Some(-1) ==> x.phase.SendExiting?)
              && (result.Some? && result != Some(-1) ==>
                    && x.phase.BeforePause? && result == Some(x.offset) && x.offset == x.replayEnd
                    && x.chunks == [] && x.wired == [] && x.wire == x.replay
                    && (WorkersDistinct(own) ==>
                          && x.offset <= |s.file.log|
                          && x.replay == ReplayText(s.file.log[..x.offset], LINES_BACK, WINDOW)))
    {
      hide Reachable, Step, RecvStep, StillOpen, ReplayText, LastLines;
      var grant := LockForReplay(id);
      if !grant.Granted? {
        return if grant.Denied? then Some(-1) else None;
      }
      var ok := MeasureLog(id);
      if !ok {
        return Some(-1);
      }
      if s.clients[id].send.phase != ReplayUnlocking(0) {
        ok := ReadTail(id);
        if !ok {
          return Some(-1);
        }
        ok := SendTail(id);
        if !ok {
          return Some(-1);
        }
      }
      ok := EndReplay(id);
      if !ok {
        return Some(-1);
      }
      if WorkersDistinct(own) {
        ExactReachable(own, s);
        assert ExactFor(s.file, s.clients[id].send);
      }
      return Some(s.clients[id].send.offset);
    }

    method EndReplay(id: nat) returns (ok: bool)
      requires Valid() && id < |s.clients| && s.clients[id].send.phase.ReplayUnlocking?
      modifies this`s, this`used
      ensures Valid() && Later(old(s), s, id) && Ran(old(used), used, ok)
      ensures var x, y := old(s).clients[id].send, s.clients[id].send;
              if ok then
                && y.phase.BeforePause? && y.offset == y.replayEnd == x.phase.size
                && y.chunks == [] && y.wired == [] && y.wire == y.replay
              else y.phase.SendExiting?
    {
      hide Reachable, Step, RecvStep, SendStep, StillOpen, WireOk;
      WaitSend(id);
      SendCalls(own(Send(id)), StillOpen(own, s, Send(id)), s.file, s.clients[id].send);
      WiresReachable(own, s);
      NothingWired(s.clients[id].send);
      ok := Call();
      if ok {
        PerformSend(id, UnlockReplay);
      } else {
        PerformSend(id, FailSend);
      }
    }

    // ----- file_locking.c: sharedRead, clientRequest.c: readChatlogSendClient ---------------------------

    method LockForWake(id: nat) returns (grant: Grant)
      requires Valid() && id < |s.clients| && s.clients[id].send.phase.WakeWantLock?
      modifies this`s, this`used
      ensures used == old(used).(calls := old(used).calls + 1)
      ensures Valid() && Later(old(s), s, id) && Ran(old(used), used, !grant.Denied?)
      ensures var x := old(s).clients[id].send;
              SameSend(x.(phase := match grant
                                   case Granted => WakeSeeking
                                   case Denied => SendExiting
                                   case Blocked => WakeWantLock), s.clients[id].send)
      ensures grant.Blocked? ==> !CanShare(s.file, own(Send(id)))
    {
      hide Reachable, Step, RecvStep, SendStep, StillOpen;
      WaitSend(id);
      SendCalls(own(Send(id)), StillOpen(own, s, Send(id)), s.file, s.clients[id].send);
      var ok := Call();
      if ok && !CanShare(s.file, own(Send(id))) {
        return Blocked;
      }
      if ok {
        PerformSend(id, LockWake);
      } else {
        PerformSend(id, FailSend);
      }
      return if ok then Granted else Denied;
    }

    method SeekForWake(id: nat) returns (ok: bool)
      requires Valid() && id < |s.clients| && s.clients[id].send.phase.WakeSeeking?
      modifies this`s, this`used
      ensures used == old(used).(calls := old(used).calls + 1)
      ensures Valid() && Later(old(s), s, id) && Ran(old(used), used, ok)
      ensures SameSend(old(s).clients[id].send.(phase := if ok then WakeReading else SendExiting), s.clients[id].send)
    {
      hide Reachable, Step, RecvStep, SendStep, StillOpen;
      WaitSend(id);
      SendCalls(own(Send(id)), StillOpen(own, s, Send(id)), s.file, s.clients[id].send);
      ok := Call();
      if ok {
        PerformSend(id, SeekWake);
      } else {
        PerformSend(id, FailSend);
      }
    }

    /** SEND `x` has read `chunk` and nothing else changed but its signals and its records of the read. */
    static ghost predicate HasRead(x: SendState, y: SendState, chunk: string) {
      && y.offset == x.offset + |chunk| && |chunk| <= BUF_SIZE
      && y.wire == x.wire && y.replay == x.replay && y.replayEnd == x.replayEnd && y.wired == x.wired
      && y.chunks == x.chunks + if chunk == "" then [] else [chunk]
    }

    method ReadForWake(id: nat) returns (ok: bool)
      requires Valid() && id < |s.clients| && s.clients[id].send.phase.WakeReading?
      modifies this`s, this`used
      ensures used == old(used).(calls := old(used).calls + 1)
      ensures Valid() && Later(old(s), s, id) && Ran(old(used), used, ok)
      ensures var x, y := old(s).clients[id].send, s.clients[id].send;
              if ok then
                && y.phase.WakeUnlocking? && HasRead(x, y, y.phase.chunk)
                && (WorkersDistinct(own) ==>
                      y.offset == NextOffset(|s.file.log|, x.offset) <= |s.file.log|
                      && y.phase.chunk == s.file.log[x.offset..y.offset])
              else SameSend(x.(phase := SendExiting), y)
    {
      hide Reachable, Step, RecvStep, SendStep, StillOpen;
      WaitSend(id);
      SendCalls(own(Send(id)), StillOpen(own, s, Send(id)), s.file, s.clients[id].send);
      ok := Call();
      if ok {
        ghost var before := s;
        ReadLog(id);
        ReadOnce(own, before, id, s);
      } else {
        PerformSend(id, FailSend);
      }
    }

    method ReadLog(id: nat)
      requires Valid() && id < |s.clients| && s.clients[id].send.phase.WakeReading?
      modifies this`s
      ensures Valid() && id < |s.clients| && Step(own, old(s), AtSend(id, ReadWake)) == Some(s)
      ensures |old(s).clients| == |s.clients|
    {
      hide Reachable, RecvStep, StillOpen;
      Perform(AtSend(id, ReadWake));
    }

    method UnlockForWake(id: nat) returns (ok: bool)
      requires Valid() && id < |s.clients| && s.clients[id].send.phase.WakeUnlocking?
      modifies this`s, this`used
      ensures used == old(used).(calls := old(used).calls + 1)
      ensures Valid() && Later(old(s), s, id) && Ran(old(used), used, ok)
      ensures var x := old(s).clients[id].send;
              SameSend(x.(phase := if !ok then SendExiting else if x.phase.chunk == "" then BeforePause
                                   else WakeSending(x.phase.chunk)),
                       s.clients[id].send)
    {
      hide Reachable, Step, RecvStep, SendStep, StillOpen;
      WaitSend(id);
      SendCalls(own(Send(id)), StillOpen(own, s, Send(id)), s.file, s.clients[id].send);
      ok := Call();
      if ok {
        PerformSend(id, UnlockWake);
      } else {
        PerformSend(id, FailSend);
      }
    }

    /** Returns how much was read at SEND's offset, at most one buffer, when the log had `size` bytes, and so 0
        at the end of the log; or, exactly when a call failed, -1, and the process will exit. None: it is
        still waiting for the lock. */
    method SharedRead(id: nat) returns (bytesRead: Option<int>, ghost size: nat)
      requires Valid() && id < |s.clients| && s.clients[id].send.phase.WakeWantLock?
      modifies this`s, this`used
      ensures Valid() && Later(old(s), s, id) && Ran(old(used), used, bytesRead != Some(-1))
      ensures used.buffers == old(used).buffers && used.calls <= old(used).calls + 4
      ensures bytesRead.Some? ==> bytesRead.value >= -1
      ensures bytesRead.Some? && bytesRead.value >= 0 ==> used.calls == old(used).calls + 4
      ensures var x, y := old(s).clients[id].send, s.clients[id].send;
              && (bytesRead == None ==> SameSend(x, y) && !CanShare(s.file, own(Send(id))))
              && (bytesRead == Some(-1) ==> y.phase.SendExiting? && Unsent(x, y))
              && (bytesRead == Some(0) ==> y.phase.BeforePause? && HasRead(x, y, ""))
              && (bytesRead.Some? && bytesRead.value > 0 ==>
                    && y.phase.WakeSending? && |y.phase.chunk| == bytesRead.value && HasRead(x, y, y.phase.chunk))
              && (bytesRead.Some? && bytesRead.value >= 0 && WorkersDistinct(own) ==>
                    |old(s).file.log| <= size && ReadFrom(s.file.log, size, x, y))
    {
      hide Reachable, Step, RecvStep, StillOpen;
      ghost var x := s.clients[id].send;
      size := 0;
      var grant := LockForWake(id);
      if !grant.Granted? {
        bytesRead := if grant.Denied? then Some(-1) else None;
        return;
      }
      bytesRead := Some(-1);
      var ok := SeekForWake(id);
      if !ok {
        return;
      }
      ok := ReadForWake(id);
      if !ok {
        return;
      }
      var n := |s.clients[id].send.phase.chunk|;
      ghost var read, at := s, s.clients[id].send;
      size := |read.file.log|;
      ok := UnlockForWake(id);
      if !ok {
        return;
      }
      if WorkersDistinct(own) {
        SameRange(read.file.log, s.file.log, x.offset, at.offset);
      }
      bytesRead := Some(n);
    }

    /** SEND had no more than a read before it failed, and has no more than one chunk more in hand. */
    static ghost predicate Unsent(x: SendState, y: SendState) {
      && y.replay == x.replay && y.replayEnd == x.replayEnd && y.wired == x.wired && x.wire <= y.wire
      && x.chunks <= y.chunks && |y.chunks| <= |x.chunks| + 1
    }

    /** What was read, when the log had `size` bytes, is the log from the old offset to the new one. */
    static ghost predicate ReadFrom(log: string, size: nat, x: SendState, y: SendState) {
      && x.offset <= size <= |log|
      && y.offset == NextOffset(size, x.offset)
      && y.chunks == x.chunks + if y.offset == x.offset then [] else [log[x.offset..y.offset]]
    }

    /** SEND has read `chunk` and written `w`, a wire form of it; or nothing, when it is empty. */
    static ghost predicate SentOne(x: SendState, y: SendState, chunk: string, w: string) {
      && y.offset == x.offset + |chunk| && |chunk| <= BUF_SIZE
      && y.replay == x.replay && y.replayEnd == x.replayEnd && y.wire == x.wire + w
      && (if chunk == "" then w == "" && y.chunks == x.chunks && y.wired == x.wired
          else IsWireForm(chunk, w) && y.chunks == x.chunks + [chunk] && y.wired == x.wired + [w])
    }

    /** One wake: read what is new, at most a buffer of it, and write it to the client's socket; `size` is the
        log's size at the read. Only a failed call ends the process. */
    method ReadChatlogSendClient(id: nat) returns (turn: Turn, ghost size: nat)
      requires Valid() && id < |s.clients| && s.clients[id].send.phase.WakeWantLock?
      modifies this`s, this`used
      ensures Valid() && Later(old(s), s, id) && Ran(old(used), used, !turn.CallFailed?)
      ensures var x, y := old(s).clients[id].send, s.clients[id].send;
              match turn
              case GoesOn =>
                && y.phase.BeforePause? && (exists chunk, w :: SentOne(x, y, chunk, w))
                && used.calls == old(used).calls + (if y.offset == x.offset then 4 else 5)
                && (WorkersDistinct(own) ==> |old(s).file.log| <= size && ReadFrom(s.file.log, size, x, y))
              case WaitsForLock => SameSend(x, y) && !CanShare(s.file, own(Send(id)))
              case CallFailed => y.phase.SendExiting? && Unsent(x, y)
              case _ => false
    {
      hide Reachable, Step, RecvStep, SendStep, StillOpen, IsWireForm, CanShare;
      ghost var x := s.clients[id].send;
      size := 0;
      var memory := Malloc();
      if !memory {
        NoBuffer(id);
        turn := CallFailed;
        return;
      }
      var bytesRead;
      bytesRead, size := SharedRead(id);
      if bytesRead.None? {
        turn := WaitsForLock;
        return;
      }
      if bytesRead == Some(-1) {
        turn := CallFailed;
        return;
      }
      if bytesRead == Some(0) {
        assert SentOne(x, s.clients[id].send, "", "");
        turn := GoesOn;
        return;
      }
      ghost var from := used;
      var ok := SendChunk(id, x, size);
      RanOn(old(used), from, used, ok);
      turn := if ok then GoesOn else CallFailed;
    }

    /** The second half of it: `x` is SEND before the read. */
    method SendChunk(id: nat, ghost x: SendState, ghost size: nat) returns (ok: bool)
      requires Valid() && id < |s.clients| && s.clients[id].send.phase.WakeSending?
      requires s.clients[id].send.phase.chunk != ""
      requires HasRead(x, s.clients[id].send, s.clients[id].send.phase.chunk)
      requires WorkersDistinct(own) ==> ReadFrom(s.file.log, size, x, s.clients[id].send)
      modifies this`s, this`used
      ensures Valid() && Later(old(s), s, id) && Ran(old(used), used, ok)
      ensures ok ==> used.calls == old(used).calls + 1
      ensures var y := s.clients[id].send;
              if ok then
                && y.phase.BeforePause? && y.offset == old(s).clients[id].send.offset
                && (exists chunk, w :: SentOne(x, y, chunk, w))
                && (WorkersDistinct(own) ==> ReadFrom(s.file.log, size, x, y))
              else y.phase.SendExiting? && Unsent(x, y)
    {
      hide Reachable, Step, RecvStep, SendStep, StillOpen, IsWireForm, CanShare, Ran;
      ghost var at := s;
      ghost var w;
      ok, w := WriteSocket(id);
      if ok {
        assert SentOne(x, s.clients[id].send, at.clients[id].send.phase.chunk, w);
        if WorkersDistinct(own) {
          SameRange(at.file.log, s.file.log, x.offset, at.clients[id].send.offset);
        }
      }
    }

    method NoBuffer(id: nat)
      requires Valid() && id < |s.clients|
      requires s.clients[id].send.phase.WakeWantLock? || s.clients[id].send.phase.WakeSending?
      modifies this`s
      ensures Valid() && Later(old(s), s, id)
      ensures SameSend(old(s).clients[id].send.(phase := SendExiting), s.clients[id].send)
    {
      hide Reachable, Step, RecvStep, SendStep, StillOpen;
      WaitSend(id);
      SendCalls(own(Send(id)), StillOpen(own, s, Send(id)), s.file, s.clients[id].send);
      PerformSend(id, FailSend);
    }

    /** Print the chunk into a new buffer of its size and write that to the socket. */
    method WriteSocket(id: nat) returns (ok: bool, ghost w: string)
      requires Valid() && id < |s.clients| && s.clients[id].send.phase.WakeSending?
      requires s.clients[id].send.phase.chunk != ""
      modifies this`s, this`used
      ensures used.buffers == old(used).buffers + 1 && (ok ==> used.calls == old(used).calls + 1)
      ensures Valid() && Later(old(s), s, id) && Ran(old(used), used, ok)
      ensures var x := old(s).clients[id].send;
              && IsWireForm(x.phase.chunk, w)
              && (ok ==> SameSend(x.(phase := BeforePause, wired := x.wired + [w], wire := x.wire + w),
                                  s.clients[id].send))
              && (!ok ==> exists n | 0 <= n < |w| ::
                            SameSend(x.(phase := SendExiting, wire := x.wire + w[..n]), s.clients[id].send))
    {
      hide Reachable, Step, RecvStep, SendStep, StillOpen, IsWireForm;
      var chunk := s.clients[id].send.phase.chunk;
      var heap: string := *;
      if |heap| != |chunk| {
        heap := chunk;
      }
      var message := Printed(chunk, heap);
      w := message;
      ok := Malloc();
      if !ok {
        ghost var x := s.clients[id].send;
        NoBuffer(id);
        assert x.wire + w[..0] == x.wire;
        return;
      }
      WaitSend(id);
      ok := Call();
      var written: nat := |message|;
      if !ok {
        written := *;
        written := Min(written, |message| - 1);
      }
      WriteCall(own(Send(id)), StillOpen(own, s, Send(id)), s.file, s.clients[id].send, message, written);
      PerformSend(id, WriteWake(message, written));
    }

    /** With the log at `sizes` when SEND read it: the offset and the chunks are those of one read for each. */
    static ghost predicate HasReadAt(log: string, y: SendState, sizes: seq<nat>) {
      && Growing(y.replayEnd, sizes, |log|)
      && y.offset == OffsetAfter(y.replayEnd, sizes) && y.chunks == ReadsAt(log, y.replayEnd, sizes)
    }

    /** Also when SEND failed in the turn after those. */
    static ghost predicate HasReadAtLeast(log: string, y: SendState, sizes: seq<nat>) {
      && Growing(y.replayEnd, sizes, |log|)
      && var chunks := ReadsAt(log, y.replayEnd, sizes);
         chunks <= y.chunks && |chunks| <= |y.wired|
    }

    /** Everything read has been sent: the replay, then a wire form of each chunk. */
    static ghost predicate AllSent(y: SendState) {
      && y.wire == y.replay + Flatten(y.wired) && |y.wired| == |y.chunks|
      && forall i | 0 <= i < |y.chunks| :: IsWireForm(y.chunks[i], y.wired[i])
    }

    /** SEND's code: activate the handler, replay, then `rounds` turns of the loop, or fewer when no signal or
        no lock comes, or a call fails. A turn is one wake: `sizes` are the log's sizes at its reads. */
    method SendNewMessages(id: nat, rounds: nat) returns (turn: Turn, turns: nat, ghost sizes: seq<nat>)
      requires Valid() && id < |s.clients| && s.clients[id].send.phase.Activating?
      modifies this`s, this`used
      ensures Valid() && Later(old(s), s, id) && Ran(old(used), used, !turn.CallFailed?)
      ensures turns == |sizes| <= rounds
      ensures var p := s.clients[id].send.phase;
              match turn
              case GoesOn => turns == rounds && p.BeforePause?
              case NoSignal => turns < rounds && p.Paused? && !s.clients[id].send.pending
              case WaitsForLock =>
                (p.WakeWantLock? || (p.ReplayWantLock? && turns == 0)) && !CanShare(s.file, own(Send(id)))
              case CallFailed => p.SendExiting?
              case _ => false
      ensures var y := s.clients[id].send;
              && (Replayed(y.phase) ==>
                    AllSent(y) && |y.chunks| <= turns && y.offset == y.replayEnd + |Flatten(y.chunks)|)
              && (Replayed(y.phase) && WorkersDistinct(own) ==>
                    && HasReadAt(s.file.log, y, sizes)
                    && y.replay == ReplayText(s.file.log[..y.replayEnd], LINES_BACK, WINDOW))
              && (!Replayed(y.phase) && WorkersDistinct(own) && turns > 0 ==> HasReadAtLeast(s.file.log, y, sizes))
    {
      hide Reachable, Step, RecvStep, SendStep, StillOpen, ReplayText, Flatten, CanShare, AllSent, AtTurn, Ran;
      turns, sizes := 0, [];
      var ok := InstallHandler(id);
      if !ok {
        turn := CallFailed;
        return;
      }
      ghost var from := used;
      var offset := MessagesFromFirstClientConnection(id);
      RanOn(old(used), from, used, offset != Some(-1));
      if offset == None || offset == Some(-1) {
        turn := if offset == None then WaitsForLock else CallFailed;
        return;
      }
      StartTurns(own, s, id);
      from := used;
      turn, turns, sizes := SendTurns(id, rounds);
      RanOn(old(used), from, used, !turn.CallFailed?);
    }

    /** The endless loop, for `rounds` turns. */
    method SendTurns(id: nat, rounds: nat) returns (turn: Turn, turns: nat, ghost sizes: seq<nat>)
      requires Valid() && id < |s.clients| && s.clients[id].send.phase.BeforePause?
      requires AtTurn(own, s.file.log, s.clients[id].send, [])
      modifies this`s, this`used
      ensures Valid() && Later(old(s), s, id) && Ran(old(used), used, !turn.CallFailed?)
      ensures turns == |sizes| <= rounds
      ensures var p := s.clients[id].send.phase;
              match turn
              case GoesOn => turns == rounds && p.BeforePause?
              case NoSignal => turns < rounds && p.Paused? && !s.clients[id].send.pending
              case WaitsForLock =>
                (p.WakeWantLock? || (p.ReplayWantLock? && turns == 0)) && !CanShare(s.file, own(Send(id)))
              case CallFailed => p.SendExiting?
              case _ => false
      ensures var y := s.clients[id].send;
              && (Replayed(y.phase) ==>
                    AllSent(y) && |y.chunks| <= turns && y.offset == y.replayEnd + |Flatten(y.chunks)|)
              && (Replayed(y.phase) && WorkersDistinct(own) ==>
                    && HasReadAt(s.file.log, y, sizes)
                    && y.replay == ReplayText(s.file.log[..y.replayEnd], LINES_BACK, WINDOW))
              && (!Replayed(y.phase) && WorkersDistinct(own) && turns > 0 ==> HasReadAtLeast(s.file.log, y, sizes))
    {
      hide Reachable, Step, RecvStep, SendStep, StillOpen, ReplayText, Flatten, CanShare;
      hide AllSent, HasReadAt, HasReadAtLeast, SentOne, Unsent, AtTurn, ReadFrom, Ran;
      turn, turns, sizes := GoesOn, 0, [];
      EmptyRun(used);
      while turns < rounds
        invariant Valid() && Later(old(s), s, id) && s.clients[id].send.phase.BeforePause?
        invariant turn.GoesOn? && turns == |sizes| <= rounds && Ran(old(used), used, true)
        invariant AtTurn(own, s.file.log, s.clients[id].send, sizes)
      {
        ghost var start := s;
        var woken := Pause(id);
        StillAtTurn(own, start.file.log, s.file.log, start.clients[id].send, s.clients[id].send, sizes);
        if !woken {
          turn := NoSignal;
          break;
        }
        ghost var before, size, from := s, 0, used;
        turn, size := ReadChatlogSendClient(id);
        RanOn(old(used), from, used, !turn.CallFailed?);
        if turn.CallFailed? {
          FailedTurn(own, before.file.log, s.file.log, before.clients[id].send, s.clients[id].send, sizes);
          return;
        }
        if turn.WaitsForLock? {
          StillAtTurn(own, before.file.log, s.file.log, before.clients[id].send, s.clients[id].send, sizes);
          break;
        }
        NextTurn(own, before.file.log, s.file.log, before.clients[id].send, s.clients[id].send, sizes, size);
        turns, sizes := turns + 1, sizes + [size];
      }
      EndTurns(own, s, id, sizes);
    }

    method InstallHandler(id: nat) returns (ok: bool)
      requires Valid() && id < |s.clients| && s.clients[id].send.phase.Activating?
      modifies this`s, this`used
      ensures Valid() && Later(old(s), s, id) && Ran(old(used), used, ok)
      ensures s.clients[id].send.phase == if ok then ReplayWantLock else SendExiting
    {
      hide Reachable, Step, RecvStep, SendStep, StillOpen;
      WaitSend(id);
      SendCalls(own(Send(id)), StillOpen(own, s, Send(id)), s.file, s.clients[id].send);
      ok := Call();
      if ok {
        PerformSend(id, Activate);
      } else {
        PerformSend(id, FailSend);
      }
    }

    /** pause(2): a signal handled before it began wakes nobody. */
    method Pause(id: nat) returns (woken: bool)
      requires Valid() && id < |s.clients| && s.clients[id].send.phase.BeforePause?
      modifies this`s
      ensures Valid() && Later(old(s), s, id)
      ensures var x, y := old(s).clients[id].send, s.clients[id].send;
              && SameSend(x.(phase := if woken then WakeWantLock else Paused, pausedAt := y.pausedAt), y)
              && (!woken ==> !y.pending)
    {
      hide Reachable, Step, RecvStep, SendStep, StillOpen;
      WaitSend(id);
      SendCalls(own(Send(id)), StillOpen(own, s, Send(id)), s.file, s.clients[id].send);
      PerformSend(id, EnterPause);
      WaitSend(id);
      SendCalls(own(Send(id)), StillOpen(own, s, Send(id)), s.file, s.clients[id].send);
      woken := s.clients[id].send.pending;
      if woken {
        PerformSend(id, Wake);
      }
    }

    // ----- concurrent_server.c: authClient, main; clientRequest.c: handleRequest -------------------------


    /** The listener is about to make a call, or waits in accept(2). */
    method WaitListener()
      requires Valid() && s.listenerUsr1.Ignore?
      modifies this`s
      ensures Valid() && s.listener == old(s).listener && s.listenerUsr1.Ignore? && SameClients(old(s), s)
    {
      hide Reachable, Step;
      var others: seq<Action> := *;
      for i := 0 to |others|
        invariant Valid() && s.listener == old(s).listener && s.listenerUsr1.Ignore? && SameClients(old(s), s)
      {
        if Actor(others[i]) != Listener && Step(own, s, others[i]).Some? {
          SignalsReachable(own, s);
          WhileListenerWaits(own, s, others[i], Step(own, s, others[i]).value);
          Perform(others[i]);
        }
      }
    }

    method ListenerGoes(a: Action)
      requires Valid() && s.listenerUsr1.Ignore? && s.listener.Listening? && (a.Accept? || a.ListenerExit?)
      modifies this`s
      ensures Valid() && s.listenerUsr1.Ignore?
      ensures if a.Accept? then
                s.listener.Listening?
                && s.clients == old(s).clients + [Client(FreshRecv(a.input, Ignore), FreshSend(Ignore))]
              else s.listener.Gone? && s.clients == old(s).clients
    {
      hide Reachable, RecvStep, SendStep, StillOpen;
      Perform(a);
    }

    /** The accept loop, for the connections in `inputs`, with two calls for each: a failed fork(2) gives up on
        that client only, a failed accept(2) ends the listener, and nothing else does. The clients that were
        there stay, and the new ones are those whose fork succeeded, in order. */
    method AcceptClients(inputs: seq<string>)
        returns (outcomes: seq<Connection>, accepted: seq<string>, ghost which: seq<nat>)
      requires Valid() && s.listenerUsr1.Ignore? && s.listener.Listening?
      modifies this`s, this`used
      ensures Valid() && s.listenerUsr1.Ignore?
      ensures forall i | 0 <= i < |outcomes| ::
                outcomes[i] == (if fails(old(used).calls + 2 * i) then AcceptFailed
                                else if fails(old(used).calls + 2 * i + 1) then ForkFailed else Forked)
      ensures s.listener == if AcceptFailed in outcomes then Gone else Listening
      ensures forall i | 0 <= i < |outcomes| - 1 :: outcomes[i] != AcceptFailed
      ensures AcceptFailed !in outcomes ==> |outcomes| == |inputs|
      ensures Selected(inputs, outcomes, accepted, which) && Admitted(old(s), s, accepted)
    {
      hide Reachable, Admitted, Selected, SameClients;
      outcomes, accepted, which := [], [], [];
      ghost var start := used.calls;
      NobodyAdmitted(s, inputs);
      for i := 0 to |inputs|
        invariant Valid() && s.listenerUsr1.Ignore? && s.listener.Listening?
        invariant |outcomes| == i && used.calls == start + 2 * i && AcceptFailed !in outcomes
        invariant forall j | 0 <= j < i ::
                    outcomes[j] == (if fails(start + 2 * j) then AcceptFailed
                                    else if fails(start + 2 * j + 1) then ForkFailed else Forked)
        invariant Selected(inputs, outcomes, accepted, which) && Admitted(old(s), s, accepted)
      {
        ghost var before := s;
        WaitListener();
        StillAdmitted(old(s), before, s, accepted);
        var connected := Call();
        if !connected {
          before := s;
          SelectOne(inputs, outcomes, accepted, which, AcceptFailed);
          ListenerGoes(ListenerExit);
          NobodyLeft(before, s);
          StillAdmitted(old(s), before, s, accepted);
          outcomes := outcomes + [AcceptFailed];
          return;
        }
        var forked := Call();
        if forked {
          before := s;
          SelectOne(inputs, outcomes, accepted, which, Forked);
          ListenerGoes(Accept(inputs[i]));
          OneMoreAdmitted(old(s), before, s, accepted, inputs[i]);
          accepted, which := accepted + [inputs[i]], which + [i];
          outcomes := outcomes + [Forked];
        } else {
          SelectOne(inputs, outcomes, accepted, which, ForkFailed);
          outcomes := outcomes + [ForkFailed];
        }
      }
    }

    /** Returns 0 exactly when no call failed and the first 128 bytes that came in are the key; otherwise the
        child is about to exit. */
    method AuthClient(id: nat) returns (result: int)
      requires Valid() && id < |s.clients| && s.clients[id].recv.phase.Authenticating?
      modifies this`s, this`used
      ensures Valid() && Said(old(s), s, id, "") && (result == 0 || result == -1)
      ensures old(used).calls <= used.calls && old(used).buffers <= used.buffers
      ensures var r := old(s).clients[id].recv;
              && (result == 0 <==> && Fine(old(used), used)
                                   && |r.input| >= KEY_LENGTH && r.input[..KEY_LENGTH] == s.key)
              && s.clients[id].recv == (if result == 0 then r.(phase := Forking, taken := KEY_LENGTH)
                                        else r.(phase := RecvExiting))
    {
      hide Reachable, Step, SendStep, StillOpen, Projection;
      WaitRecv(id);
      var input := s.clients[id].recv.input;
      var timeout := Call();
      var buffer := Malloc();
      var inTime := Call();
      if timeout && buffer && inTime && |input| >= KEY_LENGTH && input[..KEY_LENGTH] == s.key {
        PerformRecv(id, AuthOk);
        return 0;
      }
      PerformRecv(id, AuthFail);
      return -1;
    }

    /** fork(2): the child will be SEND, the parent goes on as RECV. */
    method HandleRequest(id: nat) returns (forked: bool)
      requires Valid() && id < |s.clients| && s.clients[id].recv.phase.Forking?
      modifies this`s, this`used
      ensures Valid() && Said(old(s), s, id, "") && Ran(old(used), used, forked)
      ensures var r, cl := old(s).clients[id].recv, s.clients[id];
              && cl.recv == r.(phase := if forked then Reading else RecvExiting)
              && (forked ==> cl.send == FreshSend(Ignore).(phase := Activating))
    {
      hide Reachable, Step, SendStep, StillOpen, Projection;
      WaitRecv(id);
      SignalsReachable(own, s);
      assert ClientOk(s.clients[id]);
      forked := Call();
      if forked {
        PerformRecv(id, ForkOk);
      } else {
        PerformRecv(id, ForkFail);
      }
    }
  }

  lemma NobodyAdmitted(s: State, inputs: seq<string>)
    ensures Admitted(s, s, []) && Selected(inputs, [], [], [])
  {
  }

  lemma StillAdmitted(s: State, t: State, u: State, inputs: seq<string>)
    requires Admitted(s, t, inputs) && SameClients(t, u)
    ensures Admitted(s, u, inputs)
  {
  }

  lemma NobodyLeft(s: State, t: State)
    requires t.clients == s.clients
    ensures SameClients(s, t)
  {
  }

  lemma OneMoreAdmitted(s: State, t: State, u: State, inputs: seq<string>, input: string)
    requires Admitted(s, t, inputs) && |u.clients| == |t.clients| + 1 && u.clients[..|t.clients|] == t.clients
    requires u.clients[|t.clients|].recv.input == input
    ensures Admitted(s, u, inputs + [input])
  {
    forall i | 0 <= i < |t.clients| ensures u.clients[i] == t.clients[i] {
      assert u.clients[..|t.clients|][i] == t.clients[i];
    }
  }

  /** SEND between two turns of its loop. */
  ghost predicate AtTurn(own: Ownership, log: string, y: SendState, sizes: seq<nat>) {
    && |y.chunks| <= |sizes| && |y.wired| == |y.chunks| && y.offset == y.replayEnd + |Flatten(y.chunks)|
    && (WorkersDistinct(own) ==> Machine.HasReadAt(log, y, sizes))
  }

  lemma StartTurns(own: Ownership, s: State, id: nat)
    requires Reachable(own, s) && id < |s.clients| && s.clients[id].send.phase.BeforePause?
    requires var x := s.clients[id].send; x.offset == x.replayEnd && x.chunks == [] && x.wired == []
    ensures AtTurn(own, s.file.log, s.clients[id].send, [])
  {
    if WorkersDistinct(own) {
      ExactReachable(own, s);
      assert ExactFor(s.file, s.clients[id].send);
    }
  }

  lemma StillAtTurn(own: Ownership, before: string, after: string, x: SendState, y: SendState, sizes: seq<nat>)
    requires AtTurn(own, before, x, sizes) && before <= after
    requires SameSend(x.(phase := y.phase, pausedAt := y.pausedAt), y)
    ensures AtTurn(own, after, y, sizes)
  {
    hide Flatten;
    if WorkersDistinct(own) {
      ReadsStay(before, after, x.replayEnd, sizes);
    }
  }

  lemma NextTurn(own: Ownership, before: string, after: string, x: SendState, y: SendState, sizes: seq<nat>, size: nat)
    requires AtTurn(own, before, x, sizes) && before <= after
    requires exists chunk, w :: Machine.SentOne(x, y, chunk, w)
    requires WorkersDistinct(own) ==> |before| <= size && Machine.ReadFrom(after, size, x, y)
    ensures AtTurn(own, after, y, sizes + [size])
  {
    hide Flatten, IsWireForm;
    var chunk, w :| Machine.SentOne(x, y, chunk, w);
    FlattenSnoc(x.chunks, chunk);
    if WorkersDistinct(own) {
      ReadsStay(before, after, x.replayEnd, sizes);
      OneMoreRead(after, x.replayEnd, sizes, size);
    }
  }

  lemma FailedTurn(own: Ownership, before: string, after: string, x: SendState, y: SendState, sizes: seq<nat>)
    requires AtTurn(own, before, x, sizes) && before <= after && Machine.Unsent(x, y)
    ensures WorkersDistinct(own) ==> Machine.HasReadAtLeast(after, y, sizes)
  {
    hide Flatten;
    if WorkersDistinct(own) {
      ReadsStay(before, after, x.replayEnd, sizes);
    }
  }

  lemma EndTurns(own: Ownership, s: State, id: nat, sizes: seq<nat>)
    requires Reachable(own, s) && id < |s.clients| && AtTurn(own, s.file.log, s.clients[id].send, sizes)
    requires var p := s.clients[id].send.phase; p.BeforePause? || p.Paused? || p.WakeWantLock?
    ensures var y, log := s.clients[id].send, s.file.log;
            && Machine.AllSent(y) && y.offset == y.replayEnd + |Flatten(y.chunks)| && |y.chunks| <= |sizes|
            && (WorkersDistinct(own) ==>
                  && Machine.HasReadAt(log, y, sizes) && y.replayEnd <= |log|
                  && y.replay == ReplayText(log[..y.replayEnd], LINES_BACK, WINDOW))
  {
    hide Flatten, ReplayText, IsWireForm;
    WiresReachable(own, s);
    assert WireOk(s.clients[id].send);
    if WorkersDistinct(own) {
      ExactReachable(own, s);
      assert ExactFor(s.file, s.clients[id].send);
    }
  }

  /** SEND has sent nothing of its own reading before the replay returns. */
  lemma NothingWired(x: SendState)
    requires WireOk(x) && x.phase.ReplayUnlocking?
    ensures x.chunks == [] && x.wired == [] && x.wire == x.replay
  {
  }

  lemma WiresReachable(own: Ownership, s: State)
    requires Reachable(own, s)
    ensures WiresOk(s)
  {
    var s0, run :| Runs(own, s0, run, s);
    WireAlways(own, s0, run, s);
  }

  lemma ReadOnce(own: Ownership, s: State, id: nat, t: State)
    requires Reachable(own, s) && id < |s.clients| && Step(own, s, AtSend(id, ReadWake)) == Some(t)
    ensures s.file.log == t.file.log
    ensures var x, y := s.clients[id].send, t.clients[id].send;
            && y.phase.WakeUnlocking? && Machine.HasRead(x, y, y.phase.chunk)
            && (WorkersDistinct(own) ==>
                  && y.offset == NextOffset(|t.file.log|, x.offset) <= |t.file.log|
                  && y.phase.chunk == t.file.log[x.offset..y.offset])
  {
    var x := s.clients[id].send;
    OneRead(own(Send(id)), StillOpen(own, s, Send(id)), s.file, x);
    hide SendStep, StillOpen, AfterRead;
    if WorkersDistinct(own) {
      var s0, run :| Runs(own, s0, run, s);
      ReadsContinue(own, s0, run, s, id, t);
    }
  }

  lemma OneRead(o: nat, open: bool, f: File, x: SendState)
    requires SendStep(o, open, f, x, ReadWake).Some?
    ensures var e := SendStep(o, open, f, x, ReadWake).value;
            && e.file.log == f.log && e.send.phase.WakeUnlocking? && Machine.HasRead(x, e.send, e.send.phase.chunk)
  {
  }

  lemma FailsAfterAppend(key: string, o: nat, open: bool, id: nat, f: File, r: RecvState)
    requires r.phase.Appended?
    ensures RecvStep(key, o, open, id, f, r, FailCall) == Some(RecvEffect(f, r.(phase := Killing)))
  {
  }

  lemma SameRange(before: string, after: string, i: nat, j: nat)
    requires before <= after && i <= j <= |before|
    ensures before[i..j] == after[i..j]
  {
  }
}