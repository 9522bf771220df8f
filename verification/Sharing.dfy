/** What is lost when processes share an open file description, as they do when it is opened once before
    every fork: for each guarantee a run that breaks it, and so exactly when it holds. */
module Sharing {
  import opened Text
  import opened Replay
  import opened Server
  import opened Locking
  import opened Delivery

  function Key(): (key: string)
    ensures |key| == KEY_LENGTH
  {
    seq(KEY_LENGTH, _ => 'k')
  }

  lemma Do(own: Ownership, s: State, a: Action) returns (t: State)
    requires Reachable(own, s) && Step(own, s, a).Some?
    ensures Step(own, s, a) == Some(t) && Reachable(own, t)
  {
    ReachStep(own, s, a);
    t := Step(own, s, a).value;
  }

  function Fresh(): Client {
    Client(FreshRecv(Key() + "x", Ignore), FreshSend(Ignore))
  }

  function Authenticated(): Client {
    Client(FreshRecv(Key() + "x", Ignore).(phase := Reading, taken := KEY_LENGTH),
           FreshSend(Ignore).(phase := Activating))
  }

  function Crowd(n: nat, log: string): State {
    State(Key(), Listening, Ignore, File(log, map[], map[], []), seq(n, _ => Fresh()))
  }

  /** A server whose log holds `log` and to which `n` clients have connected. */
  lemma {:induction false} Populate(own: Ownership, n: nat, log: string)
    ensures Reachable(own, Crowd(n, log))
  {
    if n == 0 {
      var s := State(Key(), Booting, Default, File(log, map[], map[], []), []);
      assert Runs(own, s, [], s);
      var t := Do(own, s, Configure);
      t := Do(own, t, Listen);
      assert t == Crowd(0, log);
    } else {
      Populate(own, n - 1, log);
      var t := Do(own, Crowd(n - 1, log), Accept(Key() + "x"));
      assert t.clients == Crowd(n, log).clients;
    }
  }

  function WithRecv(s: State, id: nat, p: RecvPhase): State
    requires id < |s.clients|
  {
    s.(clients := s.clients[id := s.clients[id].(recv := s.clients[id].recv.(phase := p))])
  }

  function WithSend(s: State, id: nat, p: SendPhase): State
    requires id < |s.clients|
  {
    s.(clients := s.clients[id := s.clients[id].(send := s.clients[id].send.(phase := p))])
  }

  lemma Join(own: Ownership, s: State, id: nat) returns (t: State)
    requires Reachable(own, s) && id < |s.clients| && s.clients[id] == Fresh() && s.key == Key()
    ensures Reachable(own, t) && t == s.(clients := s.clients[id := Authenticated()])
  {
    hide StillOpen;
    assert (Key() + "x")[..KEY_LENGTH] == Key();
    t := Do(own, s, AtRecv(id, AuthOk));
    t := Do(own, t, AtRecv(id, ForkOk));
    assert t.clients == s.clients[id := Authenticated()];
  }

  /** Clients `c` and `d` have authenticated; all others have only connected. */
  ghost predicate Stage(s: State, c: nat, d: nat, log: string) {
    && c < |s.clients| && d < |s.clients|
    && s == Crowd(|s.clients|, log).(clients := s.clients)
    && s.clients[c] == Authenticated() && s.clients[d] == Authenticated()
    && forall i | 0 <= i < |s.clients| :: s.clients[i] == Fresh() || s.clients[i] == Authenticated()
  }

  lemma SetStage(own: Ownership, c: nat, d: nat, log: string) returns (s: State)
    ensures Reachable(own, s) && Stage(s, c, d, log)
  {
    Populate(own, c + d + 1, log);
    s := Join(own, Crowd(c + d + 1, log), c);
    if d != c {
      s := Join(own, s, d);
    }
  }

  /** RECV reads one byte and gets the exclusive lock. */
  lemma Speak(own: Ownership, s: State, id: nat) returns (t: State)
    requires Reachable(own, s) && id < |s.clients| && s.clients[id].recv == Authenticated().recv
    requires CanExclude(s.file, own(Recv(id)))
    ensures Reachable(own, t)
    ensures |t.clients| == |s.clients|
    ensures t == s.(file := Lock(s.file, own(Recv(id)), ExclusiveLock), clients := s.clients[id := t.clients[id]])
    ensures t.clients[id] == s.clients[id].(recv := s.clients[id].recv.(phase := Locked("x"), taken := KEY_LENGTH + 1))
  {
    hide StillOpen;
    assert (Key() + "x")[KEY_LENGTH..KEY_LENGTH + 1] == "x";
    t := Do(own, s, AtRecv(id, ReadSome(1)));
    t := Do(own, t, AtRecv(id, LockExclusive));
    assert t.clients == s.clients[id := t.clients[id]];
  }

  /** SEND installs its handler and gets the shared lock for the replay. */
  lemma BeginReplay(own: Ownership, s: State, id: nat) returns (t: State)
    requires Reachable(own, s) && id < |s.clients| && s.clients[id].send == Authenticated().send
    requires CanShare(s.file, own(Send(id)))
    ensures Reachable(own, t)
    ensures |t.clients| == |s.clients|
    ensures t == s.(file := Lock(s.file, own(Send(id)), SharedLock), clients := s.clients[id := t.clients[id]])
    ensures t.clients[id] == s.clients[id].(send := s.clients[id].send.(phase := ReplaySeekEnd, usr1 := Handler))
  {
    hide StillOpen;
    t := Do(own, s, AtSend(id, Activate));
    t := Do(own, t, AtSend(id, LockReplay));
    assert t.clients == s.clients[id := t.clients[id]];
  }

  lemma FindEnd(own: Ownership, s: State, id: nat) returns (t: State)
    requires Reachable(own, s) && id < |s.clients| && s.clients[id].send.phase.ReplaySeekEnd? && s.file.log != ""
    ensures Reachable(own, t)
    ensures |t.clients| == |s.clients|
    ensures t == s.(file := Seek(s.file, own(Send(id)), |s.file.log|), clients := s.clients[id := t.clients[id]])
    ensures var x := s.clients[id].send;
            t.clients[id] == s.clients[id].(send := x.(phase := ReplaySeekSet(|s.file.log|), seen := |s.file.appends|))
  {
    hide StillOpen;
    t := Do(own, s, AtSend(id, SeekEnd));
  }

  // ----- a reader and a writer inside the section at once ---------------------------------------------

  /** Client `c`'s SEND has measured the log and still holds its lock, client `e`'s RECV is about to append. */
  ghost predicate Clash(s: State, c: nat, e: nat) {
    && c < |s.clients| && e < |s.clients|
    && s.clients[c].send.phase == ReplaySeekSet(|s.file.log|)
    && s.clients[e].recv.phase == Locked("x")
    && (s.file.log == "a" || s.file.log == "ax")
  }

  lemma SendWithRecv(own: Ownership, c: nat, d: nat) returns (s: State)
    requires own(Send(c)) == own(Recv(d))
    ensures Reachable(own, s) && Clash(s, c, d)
  {
    s := SetStage(own, c, d, "a");
    s := BeginReplay(own, s, c);
    s := FindEnd(own, s, c);
    s := Speak(own, s, d);
  }

  lemma SendWithSend(own: Ownership, c: nat, d: nat) returns (s: State)
    requires own(Send(c)) == own(Send(d)) && c != d
    ensures Reachable(own, s) && Clash(s, c, c)
  {
    s := SetStage(own, c, d, "a");
    s := BeginReplay(own, s, c);
    s := FindEnd(own, s, c);
    s := BeginReplay(own, s, d);
    s := GiveUp(own, s, d);
    s := Speak(own, s, c);
  }

  /** A failed call in the replay: unlock, then on to the exit. */
  lemma GiveUp(own: Ownership, s: State, id: nat) returns (t: State)
    requires Reachable(own, s) && id < |s.clients| && s.clients[id].send.phase.ReplaySeekEnd?
    ensures Reachable(own, t)
    ensures t == WithSend(s, id, SendExiting).(file := Unlock(s.file, own(Send(id))))
  {
    hide RecvStep, SendStep, StillOpen;
    var o, x := own(Send(id)), s.clients[id].send;
    AbortSteps(o, StillOpen(own, s, Send(id)), s.file, x);
    t := Do(own, s, AtSend(id, FailSend));
    AbortSteps(o, StillOpen(own, t, Send(id)), s.file, x);
    t := Do(own, t, AtSend(id, AbortUnlock));
    assert t.clients == WithSend(s, id, SendExiting).clients;
  }

  lemma AbortSteps(o: nat, open: bool, f: File, x: SendState)
    requires x.phase.ReplaySeekEnd?
    ensures SendStep(o, open, f, x, FailSend) == Some(SendEffect(f, x.(phase := Aborting)))
    ensures SendStep(o, open, f, x.(phase := Aborting), AbortUnlock)
            == Some(SendEffect(Unlock(f, o), x.(phase := SendExiting)))
  {
  }

  lemma AppendOne(own: Ownership, s: State, id: nat) returns (t: State)
    requires Reachable(own, s) && id < |s.clients| && s.clients[id].recv.phase == Locked("x")
    ensures Reachable(own, t) && |t.clients| == |s.clients|
    ensures t == s.(file := DoAppend(s.file, own(Recv(id)), id, "x"), clients := s.clients[id := t.clients[id]])
    ensures var r := s.clients[id].recv;
            t.clients[id] == s.clients[id].(recv := r.(phase := Appended, owed := Some(|s.file.log| + 1)))
  {
    hide StillOpen;
    assert "x"[..1] == "x";
    t := Do(own, s, AtRecv(id, Write(1)));
  }

  /** RECV finishes its append. No SEND has its handler installed yet, so the multicast changes nothing else. */
  lemma Finish(own: Ownership, s: State, id: nat) returns (t: State)
    requires Reachable(own, s) && id < |s.clients| && s.clients[id].recv.phase.Appended? && s.listenerUsr1 == Ignore
    requires forall j | 0 <= j < |s.clients| :: s.clients[j].recv.usr1.Ignore? && s.clients[j].send.usr1.Ignore?
    ensures Reachable(own, t) && |t.clients| == |s.clients|
    ensures t == s.(file := Unlock(s.file, own(Recv(id))), clients := s.clients[id := t.clients[id]])
    ensures t.clients[id] == s.clients[id].(recv := s.clients[id].recv.(phase := Reading, owed := None))
  {
    hide StillOpen;
    t := Do(own, s, Multicast(id));
    assert t.clients == s.clients[id := s.clients[id].(recv := s.clients[id].recv.(phase := Signalled, owed := None))];
    t := Do(own, t, AtRecv(id, UnlockWrite));
  }

  lemma RecvWithRecv(own: Ownership, c: nat, d: nat) returns (s: State)
    requires own(Recv(c)) == own(Recv(d)) && c != d
    ensures Reachable(own, s) && Clash(s, c, d)
  {
    s := TwoWriters(own, c, d);
    s := BeginReplay(own, s, c);
    s := FindEnd(own, s, c);
  }

  /** Both RECVs get their lock, and the first to append takes it away from the other. */
  lemma TwoWriters(own: Ownership, c: nat, d: nat) returns (s: State)
    requires own(Recv(c)) == own(Recv(d)) && c != d
    ensures Reachable(own, s) && c < |s.clients| && d < |s.clients| && s.file.log == "ax" && s.file.locks == map[]
    ensures s.clients[c].send == Authenticated().send && s.clients[d].recv.phase == Locked("x")
  {
    hide Step;
    s := SetStage(own, c, d, "a");
    s := Speak(own, s, c);
    s := Speak(own, s, d);
    s := AppendOne(own, s, c);
    s := Finish(own, s, c);
  }

  lemma SharedMeansClash(own: Ownership) returns (s: State, c: nat, e: nat)
    requires !WorkersDistinct(own)
    ensures Reachable(own, s) && Clash(s, c, e)
  {
    var p, q :| p != Listener && q != Listener && own(p) == own(q) && p != q;
    if p.Send? && q.Recv? {
      s := SendWithRecv(own, p.id, q.id);
      c, e := p.id, q.id;
    } else if p.Recv? && q.Send? {
      s := SendWithRecv(own, q.id, p.id);
      c, e := q.id, p.id;
    } else if p.Send? {
      s := SendWithSend(own, p.id, q.id);
      c, e := p.id, p.id;
    } else {
      s := RecvWithRecv(own, p.id, q.id);
      c, e := p.id, q.id;
    }
  }

  /** Readers and writers exclude each other in every reachable state exactly when no two workers share an
      open file description. */
  lemma ExclusionExactly(own: Ownership)
    ensures (forall t | Reachable(own, t) :: Exclusion(t)) <==> WorkersDistinct(own)
  {
    if WorkersDistinct(own) {
      forall t | Reachable(own, t) ensures Exclusion(t) {
        var s, run :| Runs(own, s, run, t);
        LocksAlways(own, s, run, t);
        ExclusionHolds(own, t);
      }
    } else {
      var t, c, e := SharedMeansClash(own);
      assert !Exclusion(t);
    }
  }

  // ----- a replay that reads more than the size it returns ----------------------------------------------

  lemma ShortText(s: string)
    requires |s| <= LINES_BACK
    ensures LastLines(s, LINES_BACK) == s
  {
    FewNewlines(s);
  }

  lemma {:induction false} FewNewlines(s: string)
    ensures Newlines(s) <= |s|
  {
    if s != "" {
      FewNewlines(s[..|s| - 1]);
    }
  }

  /** From a clash on: the writer appends, then the reader goes on with its replay and sends the new byte
      although the offset it returns lies before it. */
  lemma ClashBreaksExactness(own: Ownership, s: State, c: nat, e: nat) returns (t: State)
    requires Reachable(own, s) && Clash(s, c, e)
    ensures Reachable(own, t) && !Exact(t)
  {
    hide Step, LastLines;
    var size := |s.file.log|;
    t := AppendOne(own, s, e);
    t := ReadAll(own, t, c, size);
    t := FinishReplay(own, t, c, size);
    TooMuchReplayed(t.file, t.clients[c].send);
  }

  lemma TooMuchReplayed(f: File, x: SendState)
    requires x.phase.BeforePause? && x.replayEnd < |f.log| && x.replay == f.log
    ensures !ExactFor(f, x)
  {
    hide Flatten, ReplayText, Newlines;
    ReplayIsMaximal(f.log[..x.replayEnd], LINES_BACK, WINDOW);
  }

  /** SEND seeks to the window, which is the whole log, and reads more of it than it has measured. */
  lemma ReadAll(own: Ownership, s: State, c: nat, size: nat) returns (t: State)
    requires Reachable(own, s) && c < |s.clients| && s.clients[c].send.phase == ReplaySeekSet(size)
    requires size < |s.file.log| <= LINES_BACK
    ensures Reachable(own, t) && |t.clients| == |s.clients| && t.file.log == s.file.log
    ensures t.clients[c].send.phase == ReplaySending(size, s.file.log)
  {
    hide RecvStep, StillOpen, LastLines;
    t := Do(own, s, AtSend(c, SeekSet(0)));
    t := Do(own, t, AtSend(c, ReadWindow));
    assert t.clients[c].send.phase.text == s.file.log;
  }

  lemma FinishReplay(own: Ownership, s: State, c: nat, size: nat) returns (t: State)
    requires Reachable(own, s) && c < |s.clients| && s.clients[c].send.phase == ReplaySending(size, s.file.log)
    requires size < |s.file.log| <= LINES_BACK
    ensures Reachable(own, t) && |t.clients| == |s.clients| && t.file.log == s.file.log
    ensures var x := t.clients[c].send; x.phase.BeforePause? && x.replayEnd == size && x.replay == s.file.log
  {
    hide RecvStep, StillOpen, LastLines;
    ShortText(s.file.log);
    t := Do(own, s, AtSend(c, WriteReplay(s.file.log, |s.file.log|)));
    t := Do(own, t, AtSend(c, UnlockReplay));
  }

  /** In every reachable state what each SEND has read is exactly the log as far as its offset, replay first,
      exactly when no two workers share an open file description. */
  lemma ExactnessExactly(own: Ownership)
    ensures (forall t | Reachable(own, t) :: Exact(t)) <==> WorkersDistinct(own)
  {
    if WorkersDistinct(own) {
      forall t | Reachable(own, t) ensures Exact(t) {
        var s, run :| Runs(own, s, run, t);
        ExactDelivery(own, s, run, t);
      }
    } else {
      var s, c, e := SharedMeansClash(own);
      var t := ClashBreaksExactness(own, s, c, e);
    }
  }

  // ----- a lock that outlives its holder ---------------------------------------------------------------

  /** Nobody but `p` is, or ever was, near the lock. */
  ghost predicate Bystanders(s: State, p: Proc) {
    forall q | q != p :: !MayHold(s, q)
  }

  lemma RecvDiesHolding(own: Ownership, c: nat, q: Proc) returns (s: State)
    requires q != Recv(c) && own(q) == own(Recv(c))
    ensures Reachable(own, s) && !NoLeak(own, s)
  {
    var d := if q == Listener then c else q.id;
    s := SetStage(own, c, d, "a");
    s := Speak(own, s, c);
    assert Live(s, q) && Bystanders(s, Recv(c));
    s := DieRecv(own, s, c, q);
    assert !Held(own, s, own(q));
  }

  lemma DieRecv(own: Ownership, s: State, c: nat, q: Proc) returns (t: State)
    requires Reachable(own, s) && c < |s.clients| && !s.clients[c].recv.phase.RecvDead?
    requires q != Recv(c) && own(q) == own(Recv(c)) && Live(s, q)
    requires Bystanders(s, Recv(c)) && own(q) in s.file.locks
    ensures Reachable(own, t) && own(q) in t.file.locks && forall p :: !MayHold(t, p)
  {
    assert StillOpen(own, s, Recv(c));
    hide StillOpen;
    t := Do(own, s, AtRecv(c, KilledRecv));
    forall p ensures !MayHold(t, p) {
      if p != Recv(c) {
        assert !MayHold(s, p);
      }
    }
  }

  lemma SendDiesHolding(own: Ownership, c: nat, q: Proc) returns (s: State)
    requires q != Send(c) && own(q) == own(Send(c))
    ensures Reachable(own, s) && !NoLeak(own, s)
  {
    var d := if q == Listener then c else q.id;
    s := SetStage(own, c, d, "a");
    s := BeginReplay(own, s, c);
    assert Live(s, q) && Bystanders(s, Send(c));
    s := DieSend(own, s, c, q);
    assert !Held(own, s, own(q));
  }

  lemma DieSend(own: Ownership, s: State, c: nat, q: Proc) returns (t: State)
    requires Reachable(own, s) && c < |s.clients| && SendLive(s.clients[c].send.phase)
    requires q != Send(c) && own(q) == own(Send(c)) && Live(s, q)
    requires Bystanders(s, Send(c)) && own(q) in s.file.locks
    ensures Reachable(own, t) && own(q) in t.file.locks && forall p :: !MayHold(t, p)
  {
    assert StillOpen(own, s, Send(c));
    hide StillOpen;
    t := Do(own, s, AtSend(c, KilledSend));
    forall p ensures !MayHold(t, p) {
      if p != Send(c) {
        assert !MayHold(s, p);
      }
    }
  }

  /** Every lock belongs to a live process in its section, or on its way out of it, in every reachable state
      exactly when no two processes, the listener included, share an open file description. */
  lemma NoLeakExactly(own: Ownership)
    ensures (forall t | Reachable(own, t) :: NoLeak(own, t)) <==> AllDistinct(own)
  {
    if AllDistinct(own) {
      forall t | Reachable(own, t) ensures NoLeak(own, t) {
        var s, run :| Runs(own, s, run, t);
        NoLeakAlways(own, s, run, t);
      }
    } else {
      var p, q :| own(p) == own(q) && p != q;
      var t;
      if p.Recv? {
        t := RecvDiesHolding(own, p.id, q);
      } else if p.Send? {
        t := SendDiesHolding(own, p.id, q);
      } else if q.Recv? {
        t := RecvDiesHolding(own, q.id, p);
      } else {
        t := SendDiesHolding(own, q.id, p);
      }
    }
  }

  // ----- the code as it is -------------------------------------------------------------------------------

  /** The log is opened once, before every fork, so all processes share one description. */
  function Inherited(): Ownership {
    _ => 0
  }

  lemma InheritedBreaksAll() returns (s: State, t: State, u: State)
    ensures Reachable(Inherited(), s) && !Exclusion(s)
    ensures Reachable(Inherited(), t) && !Exact(t)
    ensures Reachable(Inherited(), u) && !NoLeak(Inherited(), u)
  {
    var c, e;
    assert Inherited()(Recv(0)) == Inherited()(Send(0));
    s, c, e := SharedMeansClash(Inherited());
    t := ClashBreaksExactness(Inherited(), s, c, e);
    u := RecvDiesHolding(Inherited(), 0, Listener);
  }

  /** With nothing to replay SEND goes straight to its first pause(2). */
  lemma ReplayNothing(own: Ownership, s: State, id: nat) returns (t: State)
    requires Reachable(own, s) && id < |s.clients| && s.clients[id].send.phase.ReplaySeekEnd? && s.file.log == ""
    ensures Reachable(own, t) && |t.clients| == |s.clients| && t.file.log == ""
    ensures t.file.locks == s.file.locks - {own(Send(id))}
    ensures t.clients[id].recv == s.clients[id].recv && t.clients[id].send.pending == s.clients[id].send.pending
    ensures t.clients[id].send.phase.Paused? && t.clients[id].send.pausedAt == 0
  {
    hide Step, SendStep, StillOpen;
    EmptyReplay(own(Send(id)), StillOpen(own, s, Send(id)), s.file, s.clients[id].send);
    t := DoSend(own, s, id, SeekEnd);
    EmptyReplay(own(Send(id)), StillOpen(own, t, Send(id)), t.file, t.clients[id].send);
    t := DoSend(own, t, id, UnlockReplay);
    EmptyReplay(own(Send(id)), StillOpen(own, t, Send(id)), t.file, t.clients[id].send);
    t := DoSend(own, t, id, EnterPause);
  }

  lemma DoSend(own: Ownership, s: State, id: nat, a: SendAct) returns (t: State)
    requires Reachable(own, s) && id < |s.clients|
    requires SendStep(own(Send(id)), StillOpen(own, s, Send(id)), s.file, s.clients[id].send, a).Some?
    ensures Reachable(own, t) && |t.clients| == |s.clients| && t.clients[id].recv == s.clients[id].recv
    ensures var e := SendStep(own(Send(id)), StillOpen(own, s, Send(id)), s.file, s.clients[id].send, a).value;
            t.file == e.file && t.clients[id].send == e.send
  {
    hide SendStep, StillOpen;
    t := Do(own, s, AtSend(id, a));
  }

  lemma EmptyReplay(o: nat, open: bool, f: File, x: SendState)
    requires f.log == ""
    ensures x.phase.ReplaySeekEnd? ==>
              SendStep(o, open, f, x, SeekEnd)
              == Some(SendEffect(Seek(f, o, 0), x.(phase := ReplayUnlocking(0), seen := |f.appends|)))
    ensures x.phase == ReplayUnlocking(0) ==>
              SendStep(o, open, f, x, UnlockReplay)
              == Some(SendEffect(Unlock(f, o), x.(phase := BeforePause, offset := 0, replayEnd := 0)))
    ensures x.phase.BeforePause? ==>
              SendStep(o, open, f, x, EnterPause) == Some(SendEffect(f, x.(phase := Paused, pausedAt := 0)))
  {
  }

  /** kill(2) fails after the append, or RECV is interrupted there. */
  lemma FailToSignal(own: Ownership, s: State, id: nat) returns (t: State)
    requires Reachable(own, s) && id < |s.clients| && s.clients[id].recv.phase.Appended?
    ensures Reachable(own, t) && t == WithRecv(s, id, Killing)
  {
    hide StillOpen;
    t := Do(own, s, AtRecv(id, FailCall));
  }

  /** A wake can be missed: RECV fails after its append and never signals it, whoever owns the locks. */
  lemma SilentAppend(own: Ownership) returns (t: State)
    ensures Reachable(own, t) && t.clients != []
    ensures var cl := t.clients[0];
            cl.send.phase.Paused? && !cl.send.pending && cl.send.pausedAt < |t.file.log| && cl.recv.phase.Killing?
  {
    hide StillOpen, Step;
    t := SetStage(own, 0, 0, "");
    t := BeginReplay(own, t, 0);
    t := ReplayNothing(own, t, 0);
    t := Speak(own, t, 0);
    t := AppendOne(own, t, 0);
    t := FailToSignal(own, t, 0);
  }

  /** Two SENDs can be inside their sections at once, whoever owns the locks. */
  lemma TwoReaders(own: Ownership) returns (t: State)
    ensures Reachable(own, t) && |t.clients| >= 2
    ensures SendInSection(t.clients[0].send.phase) && SendInSection(t.clients[1].send.phase)
  {
    hide Step;
    t := SetStage(own, 0, 1, "");
    t := BeginReplay(own, t, 0);
    t := BeginReplay(own, t, 1);
  }

  /** RECV gets no memory for its buffer and exits without killing anybody. */
  lemma GoWithoutMemory(own: Ownership, s: State, id: nat) returns (t: State)
    requires Reachable(own, s) && id < |s.clients| && s.clients[id].recv.phase.Reading?
    ensures Reachable(own, t) && |t.clients| == |s.clients|
    ensures t.clients[id].recv.phase.RecvDead? && t.clients[id].send == s.clients[id].send
  {
    hide SendStep, StillOpen;
    t := Do(own, s, AtRecv(id, NoMemory));
    t := Do(own, t, AtRecv(id, ExitRecv));
  }

  /** A SEND can be orphaned: RECV runs out of memory and its SEND lives on without a SIGTERM, whoever owns
      the locks. */
  lemma OrphanLeft(own: Ownership) returns (t: State)
    ensures Reachable(own, t) && Live(t, Send(0)) && !Live(t, Recv(0)) && !t.clients[0].send.termed
  {
    hide Step;
    t := SetStage(own, 0, 0, "");
    t := GoWithoutMemory(own, t, 0);
  }
}
