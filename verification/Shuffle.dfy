/** The log is a shuffle of what the clients say: whole chunks, in order, nothing made up. None of this
    depends on who owns which lock. */
module Shuffle {
  import opened Text
  import opened Server

  /** The bytes all appends put in the log. */
  function AllBytes(appends: seq<Append>): string {
    if appends == [] then "" else AllBytes(appends[..|appends| - 1]) + appends[|appends| - 1].bytes
  }

  /** The bytes of one client among them. */
  function Projection(appends: seq<Append>, id: nat): string {
    if appends == [] then ""
    else Projection(appends[..|appends| - 1], id)
         + if appends[|appends| - 1].id == id then appends[|appends| - 1].bytes else ""
  }

  lemma OneMore(appends: seq<Append>, a: Append, id: nat)
    ensures AllBytes(appends + [a]) == AllBytes(appends) + a.bytes
    ensures Projection(appends + [a], id) == Projection(appends, id) + if a.id == id then a.bytes else ""
  {
    assert (appends + [a])[..|appends|] == appends;
  }

  /** What a client sends after its key. */
  function AfterKey(input: string): string {
    if |input| < KEY_LENGTH then "" else input[KEY_LENGTH..]
  }

  /** What RECV has read after the key. */
  function Spoken(r: RecvState): string {
    if KEY_LENGTH <= r.taken <= |r.input| then r.input[KEY_LENGTH..r.taken] else ""
  }

  function InHand(p: RecvPhase): string {
    if p.WantLock? || p.Locked? then p.chunk else ""
  }

  predicate InLoop(p: RecvPhase) {
    p.Reading? || p.WantLock? || p.Locked? || p.Appended? || p.Signalled?
  }

  ghost predicate Heard(f: File, id: nat, r: RecvState) {
    && r.taken <= |r.input|
    && (r.phase.Authenticating? ==> r.taken == 0)
    && (r.phase.Forking? ==> r.taken == KEY_LENGTH)
    && (InLoop(r.phase) ==> KEY_LENGTH <= r.taken)
    && |InHand(r.phase)| <= BUF_SIZE
    && Projection(f.appends, id) + InHand(r.phase) <= Spoken(r)
    && (InLoop(r.phase) ==> Projection(f.appends, id) + InHand(r.phase) == Spoken(r))
  }

  ghost predicate IsChunk(a: Append, clients: nat) {
    1 <= |a.bytes| <= BUF_SIZE && a.id < clients
  }

  ghost predicate LogOfChunks(base: string, f: File, clients: nat) {
    && f.log == base + AllBytes(f.appends)
    && forall i | 0 <= i < |f.appends| :: IsChunk(f.appends[i], clients)
  }

  ghost predicate IsShuffle(base: string, s: State) {
    && LogOfChunks(base, s.file, |s.clients|)
    && (forall id | 0 <= id < |s.clients| :: Heard(s.file, id, s.clients[id].recv))
  }

  lemma NobodyAppended(appends: seq<Append>, id: nat)
    requires forall i | 0 <= i < |appends| :: appends[i].id != id
    ensures Projection(appends, id) == ""
  {
  }

  /** `g` is `f`, or `f` after one append by client `id`. */
  ghost predicate Grew(f: File, g: File, id: nat) {
    || (g.log == f.log && g.appends == f.appends)
    || (exists bytes :: GrewBy(f, g, id, bytes))
  }

  ghost predicate GrewBy(f: File, g: File, id: nat, bytes: string) {
    1 <= |bytes| <= BUF_SIZE && g.log == f.log + bytes && g.appends == f.appends + [Append(id, bytes)]
  }

  lemma OthersHeard(f: File, g: File, id: nat, other: nat, r: RecvState)
    requires Grew(f, g, id) && other != id && Heard(f, other, r)
    ensures Heard(g, other, r)
  {
    if g.appends != f.appends {
      var bytes :| GrewBy(f, g, id, bytes);
      OneMore(f.appends, Append(id, bytes), other);
    }
  }

  lemma WriteHeard(o: nat, id: nat, f: File, r: RecvState, n: nat, r': RecvState)
    requires Heard(f, id, r) && r.phase.Locked? && n <= |r.phase.chunk|
    requires r' == r.(phase := r'.phase, owed := r'.owed)
    requires r'.phase == if n == |r.phase.chunk| then Appended else Killing
    ensures var g := DoAppend(f, o, id, r.phase.chunk[..n]);
            Grew(f, g, id) && Heard(g, id, r')
  {
    AppendGrew(f, o, id, r.phase.chunk[..n]);
    hide DoAppend, Grew;
    PartSaid(f, DoAppend(f, o, id, r.phase.chunk[..n]), id, r, n, r');
  }

  lemma AppendGrew(f: File, o: nat, id: nat, bytes: string)
    requires |bytes| <= BUF_SIZE
    ensures var g := DoAppend(f, o, id, bytes);
            Grew(f, g, id) && Projection(g.appends, id) == Projection(f.appends, id) + bytes
  {
    hide Projection;
    OneMore(f.appends, Append(id, bytes), id);
    if bytes != "" {
      assert GrewBy(f, DoAppend(f, o, id, bytes), id, bytes);
    }
  }

  /** Of the chunk in hand `n` bytes are now in the log, and the rest is dropped. */
  lemma PartSaid(f: File, g: File, id: nat, r: RecvState, n: nat, r': RecvState)
    requires Heard(f, id, r) && r.phase.Locked? && n <= |r.phase.chunk|
    requires Projection(g.appends, id) == Projection(f.appends, id) + r.phase.chunk[..n]
    requires r' == r.(phase := r'.phase, owed := r'.owed)
    requires r'.phase == if n == |r.phase.chunk| then Appended else Killing
    ensures Heard(g, id, r')
  {
    SameSpoken(r, r');
    hide Projection, Spoken;
    Prefix(Projection(f.appends, id), r.phase.chunk, n);
  }

  lemma Prefix(before: string, chunk: string, n: nat)
    requires n <= |chunk|
    ensures before + chunk[..n] <= before + chunk && before + chunk[..n] + "" == before + chunk[..n]
    ensures n == |chunk| ==> chunk[..n] == chunk
  {
  }

  lemma SameSpoken(r: RecvState, r': RecvState)
    requires r'.input == r.input && r'.taken == r.taken
    ensures Spoken(r') == Spoken(r)
  {
  }

  lemma ReadHeard(f: File, id: nat, r: RecvState, n: nat)
    requires Heard(f, id, r) && r.phase.Reading? && 1 <= n <= BUF_SIZE && r.taken + n <= |r.input|
    ensures Heard(f, id, r.(phase := WantLock(r.input[r.taken..r.taken + n]), taken := r.taken + n))
  {
    var chunk := r.input[r.taken..r.taken + n];
    assert Spoken(r) + chunk == r.input[KEY_LENGTH..r.taken + n];
  }

  /** Calls that neither read nor write leave what was heard as it was, or have dropped the chunk. */
  lemma OtherCallsHeard(key: string, o: nat, open: bool, id: nat, f: File, r: RecvState, a: RecvAct)
    requires Heard(f, id, r) && |key| == KEY_LENGTH && !a.Write? && !a.ReadSome?
    requires RecvStep(key, o, open, id, f, r, a).Some?
    ensures var e := RecvStep(key, o, open, id, f, r, a).value;
            Heard(e.file, id, e.recv) && e.file.log == f.log && e.file.appends == f.appends
  {
    hide Projection, CanExclude;
  }

  lemma RecvHeard(key: string, o: nat, open: bool, id: nat, f: File, r: RecvState, a: RecvAct)
    requires Heard(f, id, r) && |key| == KEY_LENGTH
    requires RecvStep(key, o, open, id, f, r, a).Some?
    ensures var e := RecvStep(key, o, open, id, f, r, a).value;
            Heard(e.file, id, e.recv) && Grew(f, e.file, id)
  {
    if a.Write? {
      hide Heard, Grew;
      WriteHeard(o, id, f, r, a.n, RecvStep(key, o, open, id, f, r, a).value.recv);
    } else if a.ReadSome? {
      hide Heard;
      ReadHeard(f, id, r, a.n);
    } else {
      hide Heard, RecvStep;
      OtherCallsHeard(key, o, open, id, f, r, a);
    }
  }

  lemma GrownLog(base: string, f: File, g: File, id: nat, clients: nat)
    requires LogOfChunks(base, f, clients) && Grew(f, g, id) && id < clients
    ensures LogOfChunks(base, g, clients)
  {
    hide AllBytes, Projection;
    if g.appends != f.appends {
      var bytes :| GrewBy(f, g, id, bytes);
      OneMore(f.appends, Append(id, bytes), id);
      assert base + (AllBytes(f.appends) + bytes) == (base + AllBytes(f.appends)) + bytes;
    }
  }

  lemma PutShuffle(base: string, s: State, id: nat, f: File, cl: Client)
    requires IsShuffle(base, s) && id < |s.clients|
    requires Heard(f, id, cl.recv) && Grew(s.file, f, id)
    ensures IsShuffle(base, Put(s, id, f, cl))
  {
    hide Heard, Grew, LogOfChunks;
    var t := Put(s, id, f, cl);
    GrownLog(base, s.file, f, id, |s.clients|);
    forall other | 0 <= other < |t.clients| ensures Heard(t.file, other, t.clients[other].recv) {
      if other != id {
        OthersHeard(s.file, f, id, other, s.clients[other].recv);
      }
    }
  }

  lemma MulticastShuffle(base: string, s: State, id: nat)
    requires IsShuffle(base, s) && id < |s.clients| && s.clients[id].recv.phase.Appended?
    ensures IsShuffle(base, SignalAll(s, id))
  {
    hide LogOfChunks, Heard;
    var t := SignalAll(s, id);
    forall other | 0 <= other < |t.clients| ensures Heard(t.file, other, t.clients[other].recv) {
      SignalledHeard(s.file, other, s.clients[other].recv, t.clients[other].recv);
    }
  }

  lemma SignalledHeard(f: File, id: nat, r: RecvState, r': RecvState)
    requires Heard(f, id, r) && r' == r.(phase := r'.phase, owed := r'.owed)
    requires r'.phase == r.phase || r'.phase.RecvDead? || (r.phase.Appended? && r'.phase.Signalled?)
    ensures Heard(f, id, r')
  {
    SameSpoken(r, r');
    hide Projection, Spoken;
  }

  /** SEND's calls touch neither the log nor RECV. */
  lemma SendLeavesLog(o: nat, open: bool, f: File, x: SendState, a: SendAct)
    requires SendStep(o, open, f, x, a).Some?
    ensures var g := SendStep(o, open, f, x, a).value.file; g.log == f.log && g.appends == f.appends
  {
  }

  lemma ShuffleKept(own: Ownership, base: string, s: State, a: Action, t: State)
    requires IsShuffle(base, s) && |s.key| == KEY_LENGTH && Step(own, s, a) == Some(t)
    ensures IsShuffle(base, t) && t.key == s.key
  {
    hide RecvStep, SendStep, StillOpen, Heard;
    match a
    case AtRecv(id, r) =>
      RecvHeard(s.key, own(Recv(id)), StillOpen(own, s, Recv(id)), id, s.file, s.clients[id].recv, r);
      PutShuffle(base, s, id, t.file, t.clients[id]);
    case AtSend(id, x) =>
      SendLeavesLog(own(Send(id)), StillOpen(own, s, Send(id)), s.file, s.clients[id].send, x);
      SameFile(s.file, t.file, id, s.clients[id].recv);
      PutShuffle(base, s, id, t.file, t.clients[id]);
    case Multicast(id) =>
      MulticastShuffle(base, s, id);
    case Accept(input) =>
      NobodyAppended(s.file.appends, |s.clients|);
      FreshHeard(s.file, |s.clients|, input, s.listenerUsr1);
    case ListenerExit =>
      forall id | 0 <= id < |s.clients| ensures Heard(t.file, id, t.clients[id].recv) {
        SameFile(s.file, t.file, id, s.clients[id].recv);
      }
    case _ =>
  }

  lemma SameFile(f: File, g: File, id: nat, r: RecvState)
    requires Heard(f, id, r) && g.log == f.log && g.appends == f.appends
    ensures Heard(g, id, r) && Grew(f, g, id)
  {
  }

  lemma FreshHeard(f: File, id: nat, input: string, usr1: Disposition)
    requires Projection(f.appends, id) == ""
    ensures Heard(f, id, FreshRecv(input, usr1))
  {
  }

  lemma {:induction false} ShuffleAlways(own: Ownership, s: State, run: seq<Action>, t: State)
    requires Runs(own, s, run, t)
    ensures IsShuffle(s.file.log, t) && t.key == s.key
  {
    if run != [] {
      var before := LastStep(own, s, run, t);
      ShuffleAlways(own, s, run[..|run| - 1], before);
      ShuffleKept(own, s.file.log, before, run[|run| - 1], t);
    }
  }

  /** In every reachable state, whoever owns the locks and whatever fails: the log is the initial log
      followed by chunks of at most BUF_SIZE bytes, each of one client, and the chunks of a client are a
      prefix of what it sent after the key. */
  lemma LogIsShuffle(own: Ownership, s: State, run: seq<Action>, t: State)
    requires Runs(own, s, run, t)
    ensures t.file.log == s.file.log + AllBytes(t.file.appends)
    ensures forall i | 0 <= i < |t.file.appends| :: IsChunk(t.file.appends[i], |t.clients|)
    ensures forall id | 0 <= id < |t.clients| ::
              Projection(t.file.appends, id) <= AfterKey(t.clients[id].recv.input)
  {
    hide Heard, Projection, AllBytes, AfterKey;
    ShuffleAlways(own, s, run, t);
    forall id | 0 <= id < |t.clients|
      ensures Projection(t.file.appends, id) <= AfterKey(t.clients[id].recv.input)
    {
      OnlyWhatWasSaid(t.file, id, t.clients[id].recv);
    }
  }

  lemma OnlyWhatWasSaid(f: File, id: nat, r: RecvState)
    requires Heard(f, id, r)
    ensures Projection(f.appends, id) <= AfterKey(r.input)
  {
    SpokenAfterKey(r);
    hide Projection, Spoken, AfterKey;
    assert Projection(f.appends, id) <= Projection(f.appends, id) + InHand(r.phase);
  }

  lemma SpokenAfterKey(r: RecvState)
    ensures Spoken(r) <= AfterKey(r.input)
  {
  }

  /** And as long as RECV is in its loop nothing the client sent is missing: what was read is what was
      appended, plus the chunk RECV is holding. */
  lemma NothingLost(own: Ownership, s: State, run: seq<Action>, t: State, id: nat)
    requires Runs(own, s, run, t) && id < |t.clients| && InLoop(t.clients[id].recv.phase)
    ensures KEY_LENGTH <= t.clients[id].recv.taken <= |t.clients[id].recv.input|
    ensures t.clients[id].recv.input[..KEY_LENGTH] + Projection(t.file.appends, id) + InHand(t.clients[id].recv.phase)
            == t.clients[id].recv.input[..t.clients[id].recv.taken]
  {
    ShuffleAlways(own, s, run, t);
    assert Heard(t.file, id, t.clients[id].recv);
  }

  predicate HasKey(key: string, input: string) {
    |input| >= KEY_LENGTH && input[..KEY_LENGTH] == key
  }

  /** A client takes no part in the protocol before its key was right. */
  ghost predicate Keyed(key: string, cl: Client) {
    cl.recv.taken > 0 || cl.recv.phase.Forking? || !cl.send.phase.NotForked? ==> HasKey(key, cl.recv.input)
  }

  lemma KeyedRecv(key: string, o: nat, open: bool, id: nat, f: File, cl: Client, a: RecvAct)
    requires Keyed(key, cl) && RecvStep(key, o, open, id, f, cl.recv, a).Some?
    requires cl.recv.phase.Reading? ==> cl.recv.taken > 0
    ensures Keyed(key, Client(RecvStep(key, o, open, id, f, cl.recv, a).value.recv,
                              ChildAfter(cl.recv.usr1, cl.send, a)))
  {
    hide CanExclude, DoAppend;
  }

  lemma KeyedSend(key: string, o: nat, open: bool, f: File, cl: Client, a: SendAct)
    requires Keyed(key, cl) && SendStep(o, open, f, cl.send, a).Some?
    ensures Keyed(key, Client(cl.recv, SendStep(o, open, f, cl.send, a).value.send))
  {
    hide HasKey;
  }

  lemma KeyedKept(own: Ownership, base: string, s: State, a: Action, t: State)
    requires IsShuffle(base, s) && Step(own, s, a) == Some(t)
    requires forall id | 0 <= id < |s.clients| :: Keyed(s.key, s.clients[id])
    ensures forall id | 0 <= id < |t.clients| :: Keyed(s.key, t.clients[id])
  {
    hide RecvStep, SendStep, StillOpen, Keyed, LogOfChunks, Heard;
    match a
    case AtRecv(id, r) =>
      Taken(s.file, id, s.clients[id].recv);
      KeyedRecv(s.key, own(Recv(id)), StillOpen(own, s, Recv(id)), id, s.file, s.clients[id], r);
    case AtSend(id, x) =>
      KeyedSend(s.key, own(Send(id)), StillOpen(own, s, Send(id)), s.file, s.clients[id], x);
    case Multicast(id) =>
      forall j | 0 <= j < |t.clients| ensures Keyed(s.key, t.clients[j]) {
        KeyedSignal(s.key, s.clients[j], t.clients[j]);
      }
    case Accept(input) =>
      KeyedFresh(s.key, input, s.listenerUsr1);
    case _ =>
  }

  lemma Taken(f: File, id: nat, r: RecvState)
    requires Heard(f, id, r)
    ensures r.phase.Reading? ==> r.taken > 0
  {
    hide Projection;
  }

  lemma KeyedSignal(key: string, cl: Client, after: Client)
    requires Keyed(key, cl) && after.recv.taken == cl.recv.taken && after.recv.input == cl.recv.input
    requires after.recv.phase.Forking? ==> cl.recv.phase.Forking?
    requires cl.send.phase.NotForked? ==> after.send.phase.NotForked?
    ensures Keyed(key, after)
  {
    hide HasKey;
  }

  lemma KeyedFresh(key: string, input: string, usr1: Disposition)
    ensures Keyed(key, Client(FreshRecv(input, usr1), FreshSend(usr1)))
  {
    hide HasKey;
  }

  lemma {:induction false} KeyedAlways(own: Ownership, s: State, run: seq<Action>, t: State)
    requires Runs(own, s, run, t)
    ensures forall id | 0 <= id < |t.clients| :: Keyed(s.key, t.clients[id])
  {
    if run != [] {
      var before := LastStep(own, s, run, t);
      KeyedAlways(own, s, run[..|run| - 1], before);
      ShuffleAlways(own, s, run[..|run| - 1], before);
      KeyedKept(own, s.file.log, before, run[|run| - 1], t);
    }
  }

  /** Only clients that sent the key first have a SEND, are read by a RECV, or have anything in the log. */
  lemma OnlyKeyHolders(own: Ownership, s: State, run: seq<Action>, t: State, id: nat)
    requires Runs(own, s, run, t) && id < |t.clients|
    requires var cl := t.clients[id];
             InLoop(cl.recv.phase) || !cl.send.phase.NotForked? || Projection(t.file.appends, id) != ""
    ensures var input := t.clients[id].recv.input; |input| >= KEY_LENGTH && input[..KEY_LENGTH] == s.key
  {
    KeyedAlways(own, s, run, t);
    ShuffleAlways(own, s, run, t);
    assert Heard(t.file, id, t.clients[id].recv);
  }

  /** The log only ever grows. */
  lemma {:induction false} AppendOnly(own: Ownership, s: State, run: seq<Action>, t: State)
    requires Runs(own, s, run, t)
    ensures forall i | 0 <= i <= |run| ::
              Exec(own, s, run[..i]).Some? && Exec(own, s, run[..i]).value.file.log <= t.file.log
  {
    assert run[..|run|] == run;
    if run != [] {
      var before := LastStep(own, s, run, t);
      AppendOnly(own, s, run[..|run| - 1], before);
      GrowsByStep(own, before, run[|run| - 1], t);
      forall i | 0 <= i < |run|
        ensures Exec(own, s, run[..i]).Some? && Exec(own, s, run[..i]).value.file.log <= t.file.log
      {
        assert run[..|run| - 1][..i] == run[..i];
      }
    }
  }

  lemma GrowsByStep(own: Ownership, s: State, a: Action, t: State)
    requires Step(own, s, a) == Some(t)
    ensures s.file.log <= t.file.log
  {
    match a
    case AtSend(id, x) =>
      SendLeavesLog(own(Send(id)), StillOpen(own, s, Send(id)), s.file, s.clients[id].send, x);
    case _ =>
  }
}
