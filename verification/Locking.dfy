/** The reader/writer lock on the log, and what it is worth once each worker owns its own file description. */
module Locking {
  import opened Text
  import opened Replay
  import opened Wire
  import opened Server
  import opened Signals

  /** No two RECV or SEND processes share an open file description. */
  ghost predicate WorkersDistinct(own: Ownership) {
    forall p, q | p != Listener && q != Listener && own(p) == own(q) :: p == q
  }

  ghost predicate AllDistinct(own: Ownership) {
    forall p, q | own(p) == own(q) :: p == q
  }

  /** Between flock(LOCK_EX) and flock(LOCK_UN). */
  predicate RecvInSection(p: RecvPhase) {
    p.Locked? || p.Appended? || p.Signalled?
  }

  /** Between flock(LOCK_SH) and flock(LOCK_UN). */
  predicate SendInSection(p: SendPhase) {
    || InReplay(p) || p.ReplayUnlocking? || p.Aborting?
    || p.WakeSeeking? || p.WakeReading? || p.WakeUnlocking?
  }

  ghost predicate TableOk(f: File) {
    forall o, q | o in f.locks && q in f.locks && f.locks[o] == ExclusiveLock :: o == q
  }

  ghost predicate RecvClaim(f: File, o: nat, p: RecvPhase) {
    RecvInSection(p) ==> o in f.locks && f.locks[o] == ExclusiveLock
  }

  ghost predicate SendClaim(f: File, o: nat, p: SendPhase) {
    SendInSection(p) ==> o in f.locks && f.locks[o] == SharedLock
  }

  ghost predicate Claims(own: Ownership, f: File, id: nat, cl: Client) {
    RecvClaim(f, own(Recv(id)), cl.recv.phase) && SendClaim(f, own(Send(id)), cl.send.phase)
  }

  ghost predicate LocksOk(own: Ownership, s: State) {
    && TableOk(s.file)
    && forall id | 0 <= id < |s.clients| :: Claims(own, s.file, id, s.clients[id])
  }

  /** The table after one call by a user of description `o`. */
  ghost predicate LockChange(f: File, g: File, o: nat) {
    || g.locks == f.locks
    || g.locks == f.locks - {o}
    || (CanExclude(f, o) && g.locks == f.locks[o := ExclusiveLock])
    || (CanShare(f, o) && g.locks == f.locks[o := SharedLock])
  }

  lemma OthersKeepLocks(f: File, g: File, o: nat)
    requires TableOk(f) && LockChange(f, g, o)
    ensures TableOk(g)
    ensures forall q | q != o && q in f.locks :: q in g.locks && g.locks[q] == f.locks[q]
  {
  }

  lemma RecvLocks(key: string, o: nat, open: bool, id: nat, f: File, r: RecvState, a: RecvAct)
    requires RecvClaim(f, o, r.phase) && RecvStep(key, o, open, id, f, r, a).Some?
    ensures var e := RecvStep(key, o, open, id, f, r, a).value;
            RecvClaim(e.file, o, e.recv.phase) && LockChange(f, e.file, o)
  {
    hide CanExclude;
  }

  lemma SendLocks(o: nat, open: bool, f: File, x: SendState, a: SendAct)
    requires SendClaim(f, o, x.phase) && SendStep(o, open, f, x, a).Some?
    ensures var e := SendStep(o, open, f, x, a).value;
            SendClaim(e.file, o, e.send.phase) && LockChange(f, e.file, o)
  {
    hide CanShare, LastLines, LockChange, IsWireForm;
    assert LockChange(f, SendStep(o, open, f, x, a).value.file, o) by { SendLockChange(o, open, f, x, a); }
  }

  lemma SendLockChange(o: nat, open: bool, f: File, x: SendState, a: SendAct)
    requires SendStep(o, open, f, x, a).Some?
    ensures LockChange(f, SendStep(o, open, f, x, a).value.file, o)
  {
    hide CanShare, LastLines, AfterRead, IsWireForm;
  }

  lemma PutLocks(own: Ownership, s: State, p: Proc, f: File, cl: Client)
    requires WorkersDistinct(own) && LocksOk(own, s) && p != Listener && p.id < |s.clients|
    requires LockChange(s.file, f, own(p)) && Claims(own, f, p.id, cl)
    ensures LocksOk(own, Put(s, p.id, f, cl))
  {
    hide LockChange;
    var t := Put(s, p.id, f, cl);
    OthersKeepLocks(s.file, f, own(p));
    forall id | 0 <= id < |t.clients| ensures Claims(own, f, id, t.clients[id]) {
      if id != p.id {
        assert Claims(own, s.file, id, s.clients[id]);
        assert own(Recv(id)) != own(p) && own(Send(id)) != own(p);
      }
    }
  }

  lemma LocksKept(own: Ownership, s: State, a: Action, t: State)
    requires WorkersDistinct(own) && LocksOk(own, s) && SignalsOk(s) && Step(own, s, a) == Some(t)
    ensures LocksOk(own, t)
  {
    hide RecvStep, SendStep, SignalAll, StillOpen, TableOk, SignalsOk;
    match a
    case AtRecv(id, r) =>
      var p, cl := Recv(id), s.clients[id];
      assert Claims(own, s.file, id, cl);
      RecvLocks(s.key, own(p), StillOpen(own, s, p), id, s.file, cl.recv, r);
      OthersKeepLocks(s.file, t.file, own(p));
      assert own(Send(id)) != own(p);
      PutLocks(own, s, p, t.file, t.clients[id]);
    case AtSend(id, x) =>
      var p, cl := Send(id), s.clients[id];
      assert Claims(own, s.file, id, cl);
      SendLocks(own(p), StillOpen(own, s, p), s.file, cl.send, x);
      OthersKeepLocks(s.file, t.file, own(p));
      assert own(Recv(id)) != own(p);
      PutLocks(own, s, p, t.file, t.clients[id]);
    case Multicast(id) =>
      MulticastOk(s, id);
      MulticastLocks(own, s, id);
    case ListenerExit =>
      ExitLocks(own, s);
    case _ =>
  }

  lemma MulticastLocks(own: Ownership, s: State, id: nat)
    requires LocksOk(own, s) && SignalsOk(s) && id < |s.clients| && s.clients[id].recv.phase.Appended?
    ensures LocksOk(own, SignalAll(s, id))
  {
    hide SignalAll;
    MulticastOk(s, id);
    var t := SignalAll(s, id);
    forall j | 0 <= j < |t.clients| ensures Claims(own, t.file, j, t.clients[j]) {
      assert Claims(own, s.file, j, s.clients[j]);
      assert t.clients[j].send.phase == s.clients[j].send.phase;
    }
  }

  /** The listener's exit takes no lock from a live worker, even from one it shares a description with. */
  lemma ExitLocks(own: Ownership, s: State)
    requires LocksOk(own, s)
    ensures LocksOk(own, s.(listener := Gone, file := Release(s.file, own(Listener), StillOpen(own, s, Listener))))
  {
    var t := s.(listener := Gone, file := Release(s.file, own(Listener), StillOpen(own, s, Listener)));
    OthersKeepLocks(s.file, t.file, own(Listener));
    forall j | 0 <= j < |t.clients| ensures Claims(own, t.file, j, t.clients[j]) {
      assert Claims(own, s.file, j, s.clients[j]);
      if RecvInSection(s.clients[j].recv.phase) {
        assert Live(s, Recv(j));
      }
      if SendInSection(s.clients[j].send.phase) {
        assert Live(s, Send(j));
      }
    }
  }

  lemma {:induction false} LocksAlways(own: Ownership, s: State, run: seq<Action>, t: State)
    requires WorkersDistinct(own) && Runs(own, s, run, t)
    ensures LocksOk(own, t)
  {
    if run != [] {
      var before := LastStep(own, s, run, t);
      LocksAlways(own, s, run[..|run| - 1], before);
      SignalsAlways(own, s, run[..|run| - 1], before);
      LocksKept(own, before, run[|run| - 1], t);
    }
  }

  /** A writer inside its section is alone: no reader is between its lock and its unlock, and no other writer. */
  ghost predicate Exclusion(s: State) {
    forall i, j | 0 <= i < |s.clients| && 0 <= j < |s.clients| && RecvInSection(s.clients[i].recv.phase) ::
      !SendInSection(s.clients[j].send.phase) && (RecvInSection(s.clients[j].recv.phase) ==> i == j)
  }

  lemma ExclusionHolds(own: Ownership, s: State)
    requires WorkersDistinct(own) && LocksOk(own, s)
    ensures Exclusion(s)
  {
    forall i, j | 0 <= i < |s.clients| && 0 <= j < |s.clients| && RecvInSection(s.clients[i].recv.phase)
      ensures !SendInSection(s.clients[j].send.phase) && (RecvInSection(s.clients[j].recv.phase) ==> i == j)
    {
      assert Claims(own, s.file, i, s.clients[i]) && Claims(own, s.file, j, s.clients[j]);
      assert own(Recv(i)) != own(Send(j));
      assert own(Recv(i)) == own(Recv(j)) ==> Recv(i) == Recv(j);
    }
  }

  // ----- no leak ----------------------------------------------------------------------------------

  /** Inside the section, or on the way out after a failed call in it. */
  predicate MayHold(s: State, p: Proc) {
    match p
    case Listener => false
    case Recv(id) =>
      id < |s.clients| && var ph := s.clients[id].recv.phase; RecvInSection(ph) || ph.Killing? || ph.RecvExiting?
    case Send(id) =>
      id < |s.clients| && var ph := s.clients[id].send.phase; SendInSection(ph) || ph.SendExiting?
  }

  ghost predicate Held(own: Ownership, s: State, o: nat) {
    exists p: Proc :: own(p) == o && MayHold(s, p)
  }

  /** Every lock in the table belongs to a live process that is in its section or about to end. */
  ghost predicate NoLeak(own: Ownership, s: State) {
    forall o | o in s.file.locks :: Held(own, s, o)
  }

  lemma NobodyElse(own: Ownership, s: State, p: Proc)
    requires AllDistinct(own)
    ensures !StillOpen(own, s, p)
  {
  }

  lemma RecvLeavesNothing(key: string, o: nat, id: nat, f: File, r: RecvState, a: RecvAct, s: State, t: State)
    requires RecvStep(key, o, false, id, f, r, a).Some?
    requires id < |s.clients| && s.clients[id].recv == r && id < |t.clients|
    requires t.clients[id].recv == RecvStep(key, o, false, id, f, r, a).value.recv
    ensures var g := RecvStep(key, o, false, id, f, r, a).value.file;
            && (forall q | q in g.locks :: q in f.locks || q == o)
            && (o in g.locks && (o !in f.locks || MayHold(s, Recv(id))) ==> MayHold(t, Recv(id)))
  {
    hide CanExclude;
  }

  lemma SendLeavesNothing(o: nat, f: File, x: SendState, a: SendAct, id: nat, s: State, t: State)
    requires SendStep(o, false, f, x, a).Some?
    requires id < |s.clients| && s.clients[id].send == x && id < |t.clients|
    requires t.clients[id].send == SendStep(o, false, f, x, a).value.send
    ensures var g := SendStep(o, false, f, x, a).value.file;
            && (forall q | q in g.locks :: q in f.locks || q == o)
            && (o in g.locks && (o !in f.locks || MayHold(s, Send(id))) ==> MayHold(t, Send(id)))
  {
    hide CanShare, LastLines;
  }

  /** Only `p` moved, and if it still has a lock it still may. */
  lemma HeldAfter(own: Ownership, s: State, p: Proc, t: State)
    requires NoLeak(own, s)
    requires forall q | q in t.file.locks :: q in s.file.locks || q == own(p)
    requires forall q | q != p && MayHold(s, q) :: MayHold(t, q)
    requires own(p) in t.file.locks && (own(p) !in s.file.locks || MayHold(s, p)) ==> MayHold(t, p)
    ensures NoLeak(own, t)
  {
    forall o | o in t.file.locks ensures Held(own, t, o) {
      if o in s.file.locks {
        assert Held(own, s, o);
        var q :| own(q) == o && MayHold(s, q);
        assert own(q) == o && MayHold(t, q);
      } else {
        assert own(p) == o && MayHold(t, p);
      }
    }
  }

  lemma NoLeakKept(own: Ownership, s: State, a: Action, t: State)
    requires AllDistinct(own) && NoLeak(own, s) && SignalsOk(s) && Step(own, s, a) == Some(t)
    ensures NoLeak(own, t)
  {
    hide RecvStep, SendStep, SignalAll, StillOpen, NoLeak, SignalsOk;
    match a
    case AtRecv(id, r) =>
      NobodyElse(own, s, Recv(id));
      RecvLeavesNothing(s.key, own(Recv(id)), id, s.file, s.clients[id].recv, r, s, t);
      forall q | q != Recv(id) && MayHold(s, q) ensures MayHold(t, q) {
        ForkFindsNoChild(own, s, id, r, t);
      }
      HeldAfter(own, s, Recv(id), t);
    case AtSend(id, x) =>
      NobodyElse(own, s, Send(id));
      SendLeavesNothing(own(Send(id)), s.file, s.clients[id].send, x, id, s, t);
      HeldAfter(own, s, Send(id), t);
    case Multicast(id) =>
      MulticastOk(s, id);
      HeldAfter(own, s, Recv(id), t);
    case _ =>
      HeldAfter(own, s, Listener, t);
  }

  lemma {:induction false} NoLeakAlways(own: Ownership, s: State, run: seq<Action>, t: State)
    requires AllDistinct(own) && Runs(own, s, run, t)
    ensures NoLeak(own, t)
  {
    if run != [] {
      var before := LastStep(own, s, run, t);
      NoLeakAlways(own, s, run[..|run| - 1], before);
      SignalsAlways(own, s, run[..|run| - 1], before);
      NoLeakKept(own, before, run[|run| - 1], t);
    }
  }

  // ----- failed calls -------------------------------------------------------------------------------

  /** How many calls a RECV that is ending still makes: kill(2), then _exit(2); 3 while it is not ending. */
  function RecvCallsLeft(p: RecvPhase): nat {
    if p.RecvDead? then 0 else if p.RecvExiting? then 1 else if p.Killing? then 2 else 3
  }

  /** The same for SEND: an unlock, then _exit(2). */
  function SendCallsLeft(p: SendPhase): nat {
    if p.SendDead? then 0 else if p.SendExiting? then 1 else if p.Aborting? then 2 else 3
  }

  /** Every failed call ends its caller: a process that has begun to end never goes back to its loop, and each
      further call of its own but a signal handler's brings the end nearer. With NoLeak this is what
      becomes of a lock that a failed call left behind. */
  lemma FailedCallsEnd(own: Ownership, s: State, a: Action, t: State, id: nat)
    requires SignalsOk(s) && id < |s.clients| && Step(own, s, a) == Some(t)
    ensures id < |t.clients|
    ensures var p, q := s.clients[id].recv.phase, t.clients[id].recv.phase;
            RecvCallsLeft(p) < 3 ==> RecvCallsLeft(q) <= RecvCallsLeft(p)
                                     && (a.AtRecv? && a.id == id ==> RecvCallsLeft(q) < RecvCallsLeft(p))
    ensures var p, q := s.clients[id].send.phase, t.clients[id].send.phase;
            SendCallsLeft(p) < 3 ==> SendCallsLeft(q) <= SendCallsLeft(p)
                                     && (a.AtSend? && a.id == id && !a.sendAct.Handle?
                                         ==> SendCallsLeft(q) < SendCallsLeft(p))
  {
    assert ClientOk(s.clients[id]);
    match a
    case AtRecv(other, r) =>
      hide SendStep, StillOpen;
      RecvCallsFall(s.key, own(Recv(other)), StillOpen(own, s, Recv(other)), other, s.file, s.clients[other].recv, r);
    case AtSend(other, x) =>
      hide RecvStep, StillOpen;
      SendCallsFall(own(Send(other)), StillOpen(own, s, Send(other)), s.file, s.clients[other].send, x);
    case Multicast(other) =>
      hide RecvStep, SendStep, StillOpen;
      MulticastOk(s, other);
    case _ =>
  }

  lemma RecvCallsFall(key: string, o: nat, open: bool, id: nat, f: File, r: RecvState, a: RecvAct)
    requires RecvStep(key, o, open, id, f, r, a).Some?
    ensures var q := RecvStep(key, o, open, id, f, r, a).value.recv.phase;
            RecvCallsLeft(r.phase) < 3 ==> RecvCallsLeft(q) < RecvCallsLeft(r.phase)
    ensures a.ForkOk? ==> r.phase.Forking?
  {
    hide CanExclude, DoAppend;
  }

  lemma SendCallsFall(o: nat, open: bool, f: File, x: SendState, a: SendAct)
    requires SendStep(o, open, f, x, a).Some?
    ensures var q := SendStep(o, open, f, x, a).value.send.phase;
            SendCallsLeft(x.phase) < 3 ==> if a.Handle? then q == x.phase else SendCallsLeft(q) < SendCallsLeft(x.phase)
  {
    hide CanShare, LastLines, IsWireForm, AfterRead;
  }

  // ----- who waits for whom -------------------------------------------------------------------------

  /** RECVs lock exclusively, and SENDs lock shared. */
  ghost predicate ModesOk(own: Ownership, f: File) {
    && (forall j | own(Recv(j)) in f.locks :: f.locks[own(Recv(j))] == ExclusiveLock)
    && (forall j | own(Send(j)) in f.locks :: f.locks[own(Send(j))] == SharedLock)
  }

  lemma RecvMode(key: string, o: nat, open: bool, id: nat, f: File, r: RecvState, a: RecvAct)
    requires RecvStep(key, o, open, id, f, r, a).Some?
    ensures var g := RecvStep(key, o, open, id, f, r, a).value.file;
            g.locks == f.locks || g.locks == f.locks - {o} || g.locks == f.locks[o := ExclusiveLock]
  {
    hide CanExclude;
  }

  lemma SendMode(o: nat, open: bool, f: File, x: SendState, a: SendAct)
    requires SendStep(o, open, f, x, a).Some?
    ensures var g := SendStep(o, open, f, x, a).value.file;
            g.locks == f.locks || g.locks == f.locks - {o} || g.locks == f.locks[o := SharedLock]
  {
    hide CanShare, LastLines, AfterRead, IsWireForm;
  }

  lemma ModesKept(own: Ownership, s: State, a: Action, t: State)
    requires WorkersDistinct(own) && ModesOk(own, s.file) && Step(own, s, a) == Some(t)
    ensures ModesOk(own, t.file)
  {
    hide RecvStep, SendStep, StillOpen;
    match a
    case AtRecv(id, r) =>
      RecvMode(s.key, own(Recv(id)), StillOpen(own, s, Recv(id)), id, s.file, s.clients[id].recv, r);
    case AtSend(id, x) =>
      SendMode(own(Send(id)), StillOpen(own, s, Send(id)), s.file, s.clients[id].send, x);
    case _ =>
  }

  lemma {:induction false} ModesAlways(own: Ownership, s: State, run: seq<Action>, t: State)
    requires WorkersDistinct(own) && Runs(own, s, run, t)
    ensures ModesOk(own, t.file)
  {
    if run != [] {
      var before := LastStep(own, s, run, t);
      ModesAlways(own, s, run[..|run| - 1], before);
      ModesKept(own, before, run[|run| - 1], t);
    }
  }

  predicate HasLock(own: Ownership, s: State, p: Proc) {
    own(p) in s.file.locks
  }

  /** A shared lock waits for writers only: it is granted exactly when no RECV has its lock, however many
      SENDs have theirs. A RECV in its section has its lock, and one that has it is in its section or on its
      way out after a failed call. */
  lemma SharedGranted(own: Ownership, s: State, run: seq<Action>, t: State, id: nat, a: SendAct)
    requires AllDistinct(own) && Runs(own, s, run, t) && id < |t.clients|
    requires var p := t.clients[id].send.phase;
             (p.ReplayWantLock? && a.LockReplay?) || (p.WakeWantLock? && a.LockWake?)
    ensures Step(own, t, AtSend(id, a)).Some? <==> forall j :: !HasLock(own, t, Recv(j))
    ensures forall j | 0 <= j < |t.clients| && RecvInSection(t.clients[j].recv.phase) :: HasLock(own, t, Recv(j))
    ensures forall j | HasLock(own, t, Recv(j)) :: MayHold(t, Recv(j))
  {
    hide SendStep, StillOpen, CanShare, NoLeak, ModesOk;
    LocksAlways(own, s, run, t);
    ModesAlways(own, s, run, t);
    NoLeakAlways(own, s, run, t);
    forall j | 0 <= j < |t.clients| && RecvInSection(t.clients[j].recv.phase) ensures HasLock(own, t, Recv(j)) {
      assert Claims(own, t.file, j, t.clients[j]);
    }
    forall j | HasLock(own, t, Recv(j)) ensures MayHold(t, Recv(j)) {
      var p := HolderOf(own, t, own(Recv(j)));
    }
    OnlyWriters(own, t, id);
    GrantedIf(own(Send(id)), StillOpen(own, t, Send(id)), t.file, t.clients[id].send, a);
  }

  lemma HolderOf(own: Ownership, t: State, o: nat) returns (p: Proc)
    requires NoLeak(own, t) && o in t.file.locks
    ensures own(p) == o && MayHold(t, p)
  {
    assert Held(own, t, o);
    p :| own(p) == o && MayHold(t, p);
  }

  lemma OnlyWriters(own: Ownership, t: State, id: nat)
    requires AllDistinct(own) && ModesOk(own, t.file) && NoLeak(own, t)
    ensures CanShare(t.file, own(Send(id))) <==> forall j :: !HasLock(own, t, Recv(j))
  {
    hide NoLeak, MayHold;
    if forall j :: !HasLock(own, t, Recv(j)) {
      forall q | q in t.file.locks && q != own(Send(id)) ensures t.file.locks[q] == SharedLock {
        var p := HolderOf(own, t, q);
        assert !p.Listener? by { NotListener(t); }
      }
    } else {
      var j :| HasLock(own, t, Recv(j));
      assert own(Recv(j)) != own(Send(id));
    }
  }

  lemma NotListener(t: State)
    ensures !MayHold(t, Listener)
  {
  }

  lemma GrantedIf(o: nat, open: bool, f: File, x: SendState, a: SendAct)
    requires (x.phase.ReplayWantLock? && a.LockReplay?) || (x.phase.WakeWantLock? && a.LockWake?)
    ensures SendStep(o, open, f, x, a).Some? <==> CanShare(f, o)
  {
    hide CanShare;
  }

  /** An exclusive lock waits for everybody. */
  lemma ExclusiveGranted(own: Ownership, t: State, id: nat)
    requires NoLeak(own, t) && id < |t.clients| && t.clients[id].recv.phase.WantLock?
    ensures Step(own, t, AtRecv(id, LockExclusive)).Some?
            <==> forall p | HasLock(own, t, p) :: own(p) == own(Recv(id))
  {
    if forall p | HasLock(own, t, p) :: own(p) == own(Recv(id)) {
      forall q | q in t.file.locks ensures q == own(Recv(id)) {
        assert Held(own, t, q);
        var p :| own(p) == q && MayHold(t, p);
        assert HasLock(own, t, p);
      }
    } else {
      var p :| HasLock(own, t, p) && own(p) != own(Recv(id));
      assert own(p) in t.file.locks;
    }
  }
}
