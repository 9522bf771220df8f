/** What signals do over whole runs: the SIGUSR1 multicast never kills, a paused SEND is not left behind
    unnoticed, and a SEND does not outlive its RECV. None of this depends on who owns which lock. */
module Signals {
  import opened Text
  import opened Server

  /** From the moment SEND may be waiting for SIGUSR1 its handler is installed. */
  predicate PastActivation(p: SendPhase) {
    SendLive(p) && !p.Activating? && !p.SendExiting?
  }

  /** RECV has begun to end, or has ended. */
  predicate RecvEnded(p: RecvPhase) {
    p.RecvExiting? || p.RecvDead?
  }

  ghost predicate ClientSafe(cl: Client) {
    && cl.recv.usr1.Ignore?
    && !cl.send.usr1.Default?
    && (PastActivation(cl.send.phase) ==> cl.send.usr1.Handler?)
  }

  /** SEND exists only after the fork, and a RECV that is ending has killed it unless it could not. */
  ghost predicate Lineage(cl: Client) {
    && (cl.recv.phase.Authenticating? || cl.recv.phase.Forking? ==> cl.send.phase.NotForked?)
    && (!RecvEnded(cl.recv.phase) ==> !cl.send.termed && !cl.recv.abandoned)
    && (RecvEnded(cl.recv.phase) && SendLive(cl.send.phase) ==> (cl.send.termed <==> !cl.recv.abandoned))
  }

  /** SIGUSR1 is owed between the append and the multicast, and forever if RECV fails in between. */
  ghost predicate Owes(r: RecvState) {
    r.owed.Some? ==> r.phase.Appended? || r.phase.Killing? || RecvEnded(r.phase)
  }

  /** Whatever `r` appended to the log beyond its first `at` bytes, it has signalled. */
  predicate SignalledTo(r: RecvState, at: nat) {
    r.owed.Some? ==> r.owed.value <= at
  }

  ghost predicate AllSignalled(s: State, at: nat) {
    forall j | 0 <= j < |s.clients| :: SignalledTo(s.clients[j].recv, at)
  }

  ghost predicate ListenerSafe(s: State) {
    s.listenerUsr1.Ignore? || (s.clients == [] && (s.listener.Booting? || s.listener.Gone?))
  }

  ghost predicate Quiet(s: State, x: SendState) {
    x.phase.Paused? ==>
      && x.pausedAt <= |s.file.log|
      && (!x.pending && AllSignalled(s, x.pausedAt) ==> x.pausedAt == |s.file.log|)
  }

  ghost predicate SignalsOk(s: State) {
    && ListenerSafe(s)
    && (forall id | 0 <= id < |s.clients| :: ClientOk(s.clients[id]))
    && (forall id | 0 <= id < |s.clients| :: Quiet(s, s.clients[id].send))
    && AllSignalled(s, |s.file.log|)
  }

  ghost predicate ClientOk(cl: Client) {
    ClientSafe(cl) && Lineage(cl) && Owes(cl.recv)
  }

  lemma RecvOk(key: string, o: nat, open: bool, id: nat, f: File, cl: Client, a: RecvAct)
    requires ClientOk(cl) && RecvStep(key, o, open, id, f, cl.recv, a).Some?
    ensures ClientOk(Client(RecvStep(key, o, open, id, f, cl.recv, a).value.recv, ChildAfter(cl.recv.usr1, cl.send, a)))
  {
    hide CanExclude, DoAppend;
  }

  lemma SendOk(o: nat, open: bool, f: File, cl: Client, a: SendAct)
    requires ClientOk(cl) && SendStep(o, open, f, cl.send, a).Some?
    ensures ClientOk(Client(cl.recv, SendStep(o, open, f, cl.send, a).value.send))
  {
    hide CanShare, DoRead;
  }

  /** RECV's calls leave the log alone, or make it owe a signal; only a fork puts SEND in a new phase. */
  lemma RecvQuiet(key: string, o: nat, open: bool, id: nat, f: File, r: RecvState, a: RecvAct)
    requires RecvStep(key, o, open, id, f, r, a).Some?
    ensures var e := RecvStep(key, o, open, id, f, r, a).value;
            || (e.file.log == f.log && e.recv.owed == r.owed)
            || (|f.log| < |e.file.log| && e.recv.owed == Some(|e.file.log|))
  {
    hide CanExclude;
  }

  lemma SendQuiet(o: nat, open: bool, f: File, x: SendState, a: SendAct)
    requires SendStep(o, open, f, x, a).Some?
    ensures var e := SendStep(o, open, f, x, a).value;
            && e.file.log == f.log
            && (e.send.phase.Paused? ==>
                  (x.phase.Paused? && e.send.pausedAt == x.pausedAt && e.send.pending == x.pending)
                  || e.send.pausedAt == |f.log|)
  {
    hide CanShare;
  }

  lemma PutQuiet(s: State, id: nat, f: File, cl: Client)
    requires id < |s.clients| && (forall j | 0 <= j < |s.clients| :: Quiet(s, s.clients[j].send))
    requires AllSignalled(s, |s.file.log|)
    requires (f.log == s.file.log && cl.recv.owed == s.clients[id].recv.owed)
             || (|s.file.log| < |f.log| && cl.recv.owed == Some(|f.log|))
    requires cl.send.phase.Paused? ==>
               || (var x := s.clients[id].send;
                   x.phase.Paused? && cl.send.pausedAt == x.pausedAt && cl.send.pending == x.pending)
               || (f.log == s.file.log && cl.send.pausedAt == |f.log|)
    ensures var t := Put(s, id, f, cl);
            AllSignalled(t, |f.log|) && forall j | 0 <= j < |t.clients| :: Quiet(t, t.clients[j].send)
  {
    var t := Put(s, id, f, cl);
    forall j | 0 <= j < |t.clients| ensures Quiet(t, t.clients[j].send) {
      assert Quiet(s, s.clients[j].send);
      assert t.clients[id] == cl;
      if AllSignalled(t, s.clients[j].send.pausedAt) {
        forall k | 0 <= k < |s.clients| ensures SignalledTo(s.clients[k].recv, s.clients[j].send.pausedAt) {
          assert SignalledTo(t.clients[k].recv, s.clients[j].send.pausedAt);
        }
      }
    }
    forall j | 0 <= j < |t.clients| ensures SignalledTo(t.clients[j].recv, |f.log|) {
      assert SignalledTo(s.clients[j].recv, |s.file.log|);
    }
  }

  /** One multicast: nobody dies of it, and every SEND past its activation has SIGUSR1 pending. */
  lemma MulticastOk(s: State, id: nat)
    requires SignalsOk(s) && id < |s.clients| && s.clients[id].recv.phase.Appended?
    ensures SignalsOk(SignalAll(s, id))
    ensures var t := SignalAll(s, id);
            && t.listener == s.listener && t.file == s.file && |t.clients| == |s.clients|
            && t.clients[id].recv.phase == Signalled
            && (forall j | 0 <= j < |s.clients| ::
                  && (j != id ==> t.clients[j].recv == s.clients[j].recv)
                  && t.clients[j].send.phase == s.clients[j].send.phase
                  && (PastActivation(t.clients[j].send.phase) ==> t.clients[j].send.pending))
  {
    var t := SignalAll(s, id);
    assert ClientOk(s.clients[id]);
    forall j | 0 <= j < |s.clients|
      ensures ClientOk(t.clients[j]) && Quiet(t, t.clients[j].send)
      ensures j != id ==> t.clients[j].recv == s.clients[j].recv
      ensures t.clients[j].send.phase == s.clients[j].send.phase
      ensures PastActivation(t.clients[j].send.phase) ==> t.clients[j].send.pending
    {
      assert ClientOk(s.clients[j]) && Quiet(s, s.clients[j].send);
    }
  }

  lemma SignalsKept(own: Ownership, s: State, a: Action, t: State)
    requires SignalsOk(s) && Step(own, s, a) == Some(t)
    ensures SignalsOk(t)
  {
    hide RecvStep, SendStep, StillOpen, ClientOk, SignalAll, Quiet;
    match a
    case AtRecv(id, r) =>
      var cl := s.clients[id];
      RecvOk(s.key, own(Recv(id)), StillOpen(own, s, Recv(id)), id, s.file, cl, r);
      RecvQuiet(s.key, own(Recv(id)), StillOpen(own, s, Recv(id)), id, s.file, cl.recv, r);
      PutQuiet(s, id, t.file, t.clients[id]);
    case AtSend(id, x) =>
      var cl := s.clients[id];
      SendOk(own(Send(id)), StillOpen(own, s, Send(id)), s.file, cl, x);
      SendQuiet(own(Send(id)), StillOpen(own, s, Send(id)), s.file, cl.send, x);
      PutQuiet(s, id, t.file, t.clients[id]);
    case Multicast(id) =>
      MulticastOk(s, id);
    case Accept(input) =>
      AcceptOk(s, input);
    case _ =>
      forall j | 0 <= j < |s.clients| ensures Quiet(t, t.clients[j].send) {
        SameLog(s, t, s.clients[j].send);
      }
  }

  lemma SameLog(s: State, t: State, x: SendState)
    requires Quiet(s, x) && t.clients == s.clients && t.file.log == s.file.log
    ensures Quiet(t, x)
  {
  }

  lemma AcceptOk(s: State, input: string)
    requires SignalsOk(s) && s.listenerUsr1.Ignore?
    ensures SignalsOk(s.(clients := s.clients + [Client(FreshRecv(input, s.listenerUsr1), FreshSend(s.listenerUsr1))]))
  {
    var t := s.(clients := s.clients + [Client(FreshRecv(input, s.listenerUsr1), FreshSend(s.listenerUsr1))]);
    forall j | 0 <= j < |t.clients| ensures Quiet(t, t.clients[j].send) {
      if j < |s.clients| {
        assert Quiet(s, s.clients[j].send);
        if AllSignalled(t, s.clients[j].send.pausedAt) {
          forall k | 0 <= k < |s.clients| ensures SignalledTo(s.clients[k].recv, s.clients[j].send.pausedAt) {
            assert SignalledTo(t.clients[k].recv, s.clients[j].send.pausedAt);
          }
        }
      }
    }
  }

  /** The fork that starts SEND replaces nobody. */
  lemma ForkFindsNoChild(own: Ownership, s: State, id: nat, a: RecvAct, t: State)
    requires SignalsOk(s) && Step(own, s, AtRecv(id, a)) == Some(t)
    ensures a.ForkOk? ==> s.clients[id].send.phase.NotForked?
  {
    assert ClientOk(s.clients[id]);
  }

  lemma {:induction false} SignalsAlways(own: Ownership, s: State, run: seq<Action>, t: State)
    requires Runs(own, s, run, t)
    ensures SignalsOk(t)
  {
    if run != [] {
      var before := LastStep(own, s, run, t);
      SignalsAlways(own, s, run[..|run| - 1], before);
      SignalsKept(own, before, run[|run| - 1], t);
    }
  }

  // ----- the results ------------------------------------------------------------------------------

  /** Once clients can be accepted no live server process is left with a disposition that SIGUSR1 kills. */
  lemma NobodyAtDefault(own: Ownership, s: State, run: seq<Action>, t: State)
    requires Runs(own, s, run, t)
    ensures t.listener.Listening? || t.clients != [] ==> t.listenerUsr1.Ignore?
    ensures forall id | 0 <= id < |t.clients| ::
              && t.clients[id].recv.usr1.Ignore?
              && !t.clients[id].send.usr1.Default?
              && (PastActivation(t.clients[id].send.phase) ==> t.clients[id].send.usr1.Handler?)
  {
    SignalsAlways(own, s, run, t);
    forall id | 0 <= id < |t.clients| ensures ClientSafe(t.clients[id]) {
      assert ClientOk(t.clients[id]);
    }
  }

  /** A multicast in any reachable state ends nobody, and marks every SEND past its activation. */
  lemma MulticastNeverKills(own: Ownership, s: State, run: seq<Action>, t: State, id: nat, u: State)
    requires Runs(own, s, run, t) && Step(own, t, Multicast(id)) == Some(u)
    ensures forall p :: Live(t, p) <==> Live(u, p)
    ensures forall j | 0 <= j < |u.clients| :: PastActivation(u.clients[j].send.phase) ==> u.clients[j].send.pending
  {
    SignalsAlways(own, s, run, t);
    MulticastOk(t, id);
    forall p ensures Live(t, p) <==> Live(u, p) {
      if p.Send? && p.id < |t.clients| {
        assert u.clients[p.id].send.phase == t.clients[p.id].send.phase;
      }
    }
  }

  function Multicasts(run: seq<Action>): nat {
    if run == [] then 0
    else Multicasts(run[..|run| - 1]) + if run[|run| - 1].Multicast? then 1 else 0
  }

  /** How often SIGUSR1 was delivered to client `id`'s SEND, in pause(2) or elsewhere. */
  function Deliveries(run: seq<Action>, id: nat): nat {
    if run == [] then 0
    else Deliveries(run[..|run| - 1], id)
         + if run[|run| - 1] == AtSend(id, Wake) || run[|run| - 1] == AtSend(id, Handle) then 1 else 0
  }

  function PendingCount(s: State, id: nat): nat {
    if id < |s.clients| && s.clients[id].send.pending then 1 else 0
  }

  lemma PendingStep(own: Ownership, s: State, a: Action, t: State, id: nat)
    requires Step(own, s, a) == Some(t)
    ensures var taken := if a == AtSend(id, Wake) || a == AtSend(id, Handle) then 1 else 0;
            PendingCount(t, id) + taken <= if a.Multicast? then 1 else PendingCount(s, id)
  {
    hide RecvStep, StillOpen;
    if a.AtSend? {
      hide SendStep;
      PendingCall(own(Send(a.id)), StillOpen(own, s, Send(a.id)), s.file, s.clients[a.id].send, a.sendAct);
    }
  }

  lemma PendingCall(o: nat, open: bool, f: File, x: SendState, a: SendAct)
    requires SendStep(o, open, f, x, a).Some?
    ensures var y := SendStep(o, open, f, x, a).value.send;
            if a.Wake? || a.Handle? then x.pending && !y.pending else y.pending == x.pending
  {
    hide CanShare, DoRead;
  }

  /** Signals coalesce: a SEND takes each multicast at most once, and none that was not sent. */
  lemma {:induction false} DeliveriesAnswered(own: Ownership, s: State, run: seq<Action>, t: State, id: nat)
    requires Runs(own, s, run, t)
    ensures Deliveries(run, id) + PendingCount(t, id) <= Multicasts(run)
  {
    if run != [] {
      var before := LastStep(own, s, run, t);
      DeliveriesAnswered(own, s, run[..|run| - 1], before, id);
      PendingStep(own, before, run[|run| - 1], t, id);
    }
  }

  /** A SEND in pause(2) with no signal pending has missed nothing, exactly when no RECV owes the signal for
      an append made since that pause began. A RECV that owes one is about to send it, or its append or its
      multicast failed and it is ending or has ended. */
  lemma NoMissedWake(own: Ownership, s: State, run: seq<Action>, t: State, id: nat)
    requires Runs(own, s, run, t) && id < |t.clients|
    requires t.clients[id].send.phase.Paused? && !t.clients[id].send.pending
    ensures t.clients[id].send.pausedAt <= |t.file.log|
    ensures t.clients[id].send.pausedAt == |t.file.log|
            <==> forall j | 0 <= j < |t.clients| && t.clients[j].recv.owed.Some? ::
                   t.clients[j].recv.owed.value <= t.clients[id].send.pausedAt
    ensures forall j | 0 <= j < |t.clients| && t.clients[j].recv.owed.Some? ::
              && t.clients[j].recv.owed.value <= |t.file.log|
              && var p := t.clients[j].recv.phase; p.Appended? || p.Killing? || RecvEnded(p)
  {
    SignalsAlways(own, s, run, t);
    var at := t.clients[id].send.pausedAt;
    assert Quiet(t, t.clients[id].send);
    forall j | 0 <= j < |t.clients| ensures SignalledTo(t.clients[j].recv, |t.file.log|) && Owes(t.clients[j].recv) {
      assert ClientOk(t.clients[j]);
    }
    if forall j | 0 <= j < |t.clients| && t.clients[j].recv.owed.Some? :: t.clients[j].recv.owed.value <= at {
      assert AllSignalled(t, at);
    }
  }

  /** A live SEND whose RECV has ended was sent SIGTERM exactly when RECV got as far as killing it. */
  lemma OrphansExactly(own: Ownership, s: State, run: seq<Action>, t: State, id: nat)
    requires Runs(own, s, run, t) && id < |t.clients|
    requires Live(t, Send(id)) && !Live(t, Recv(id))
    ensures t.clients[id].send.termed <==> !t.clients[id].recv.abandoned
  {
    SignalsAlways(own, s, run, t);
    assert ClientOk(t.clients[id]);
  }

  /** Client `id`'s RECV is on its way to the exit, with nothing left to do. */
  predicate Exiting(s: State, id: nat) {
    id < |s.clients| && s.clients[id].recv.phase.RecvExiting?
  }

  /** RECV runs out of memory, or is killed from outside before it is on its way to the exit. */
  predicate Abandons(s: State, a: Action, id: nat) {
    a == AtRecv(id, NoMemory) || (a == AtRecv(id, KilledRecv) && !Exiting(s, id))
  }

  ghost predicate AbandonsAt(own: Ownership, s: State, run: seq<Action>, i: nat, id: nat)
    requires i < |run|
  {
    Exec(own, s, run[..i]).Some? && Abandons(Exec(own, s, run[..i]).value, run[i], id)
  }

  lemma AbandonedByStep(own: Ownership, s: State, a: Action, t: State, id: nat)
    requires SignalsOk(s) && Step(own, s, a) == Some(t) && id < |t.clients|
    ensures t.clients[id].recv.abandoned <==> (id < |s.clients| && s.clients[id].recv.abandoned) || Abandons(s, a, id)
  {
    hide StillOpen, SendStep, RecvStep;
    match a
    case AtRecv(j, r) =>
      AbandonedByCall(s.key, own(Recv(j)), StillOpen(own, s, Recv(j)), j, s.file, s.clients[j].recv, r);
    case Multicast(j) =>
      MulticastOk(s, j);
    case _ =>
  }

  lemma AbandonedByCall(key: string, o: nat, open: bool, id: nat, f: File, r: RecvState, a: RecvAct)
    requires RecvStep(key, o, open, id, f, r, a).Some?
    ensures RecvStep(key, o, open, id, f, r, a).value.recv.abandoned
            <==> r.abandoned || a.NoMemory? || (a.KilledRecv? && !r.phase.RecvExiting?)
  {
    hide CanExclude, DoAppend;
  }

  /** A RECV has abandoned its SEND exactly when one of the two happened in the run. */
  lemma {:induction false} AbandonedExactly(own: Ownership, s: State, run: seq<Action>, t: State, id: nat)
    requires Runs(own, s, run, t) && id < |t.clients|
    ensures t.clients[id].recv.abandoned <==> exists i | 0 <= i < |run| :: AbandonsAt(own, s, run, i, id)
  {
    if run != [] {
      var last := |run| - 1;
      var before := LastStep(own, s, run, t);
      SignalsAlways(own, s, run[..last], before);
      AbandonedByStep(own, before, run[last], t, id);
      assert AbandonsAt(own, s, run, last, id) <==> Abandons(before, run[last], id);
      forall i | 0 <= i < last
        ensures AbandonsAt(own, s, run, i, id) <==> AbandonsAt(own, s, run[..last], i, id)
      {
        assert run[..last][..i] == run[..i];
      }
      if id < |before.clients| {
        AbandonedExactly(own, s, run[..last], before, id);
      } else {
        NobodyAbandons(own, s, run[..last], before, id);
      }
    }
  }

  /** Nothing has been done by a client that has not been accepted yet. */
  lemma {:induction false} NobodyAbandons(own: Ownership, s: State, run: seq<Action>, t: State, id: nat)
    requires Runs(own, s, run, t) && id >= |t.clients|
    ensures forall i | 0 <= i < |run| :: !AbandonsAt(own, s, run, i, id)
  {
    if run != [] {
      var last := |run| - 1;
      var before := LastStep(own, s, run, t);
      NobodyAbandons(own, s, run[..last], before, id);
      forall i | 0 <= i < |run| ensures !AbandonsAt(own, s, run, i, id) {
        if i < last {
          assert run[..last][..i] == run[..i];
          assert !AbandonsAt(own, s, run[..last], i, id);
        }
      }
    }
  }

  /** No orphan senders: a SEND that outlives its RECV has been sent SIGTERM exactly when RECV neither ran
      out of memory nor was killed from outside too early; so always on the paths that end RECV at end of
      file, after a read error and after a failed or short append. */
  lemma NoOrphanSenders(own: Ownership, s: State, run: seq<Action>, t: State, id: nat)
    requires Runs(own, s, run, t) && Live(t, Send(id)) && !Live(t, Recv(id))
    ensures t.clients[id].send.termed <==> forall i | 0 <= i < |run| :: !AbandonsAt(own, s, run, i, id)
  {
    OrphansExactly(own, s, run, t, id);
    AbandonedExactly(own, s, run, t, id);
  }
}
