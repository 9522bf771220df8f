/** The chat server as a transition system: one action per system call of one of its processes.
    Every client owns two processes. RECV reads the client's socket and appends to the log; SEND replays
    the log's tail once and then sends what is new each time SIGUSR1 wakes it. The processes share the
    chat-log file and its lock table. A lock and a file offset belong to an open file description, and
    `own` says which description each process uses. */
module Server {
  import opened Text
  import opened Replay
  import opened Wire

  const BUF_SIZE: nat := 4096
  const KEY_LENGTH: nat := 128
  const LINES_BACK: nat := 7
  const WINDOW: nat := 150 * LINES_BACK

  datatype Proc = Listener | Recv(id: nat) | Send(id: nat)

  type Ownership = Proc -> nat

  datatype Mode = SharedLock | ExclusiveLock

  /** What SIGUSR1 does to a process. */
  datatype Disposition = Default | Ignore | Handler

  datatype ListenerPhase = Booting | Configured | Listening | Gone

  /** RECV, by the call it is about to make. */
  datatype RecvPhase =
    | Authenticating
    | Forking
    | Reading
    | WantLock(chunk: string)
    | Locked(chunk: string)
    | Appended
    | Signalled
    | Killing
    | RecvExiting
    | RecvDead

  /** SEND, by the call it is about to make. */
  datatype SendPhase =
    | NotForked
    | Activating
    | ReplayWantLock
    | ReplaySeekEnd
    | ReplaySeekSet(size: nat)
    | ReplayReading(size: nat)
    | ReplaySending(size: nat, text: string)
    | ReplayUnlocking(size: nat)
    | Aborting
    | BeforePause
    | Paused
    | WakeWantLock
    | WakeSeeking
    | WakeReading
    | WakeUnlocking(chunk: string)
    | WakeSending(chunk: string)
    | SendExiting
    | SendDead

  /** One append(2) that reached the log. */
  datatype Append = Append(id: nat, bytes: string)

  /** The chat-log file: contents, locks and file offsets by open file description, and who appended what. */
  datatype File = File(log: string, locks: map<nat, Mode>, pos: map<nat, nat>, appends: seq<Append>)

  /** `input` is everything the client ever sends, key first; `taken` counts the bytes RECV has read of it.
      `owed`: it appended, up to this size of the log, and its SIGUSR1 is still to come. `abandoned`: it ended
      before it could kill SEND. */
  datatype RecvState = RecvState(
    phase: RecvPhase,
    usr1: Disposition,
    input: string,
    taken: nat,
    owed: Option<nat>,
    abandoned: bool)

  /** `offset` is SEND's log position. What follows it only records history: the appends answered by a read,
      the log's size when it last entered pause(2), the replay and the size it returned, the chunks read
      since (and whether each reached the end of the log), their wire forms, and every byte sent. */
  datatype SendState = SendState(
    phase: SendPhase,
    usr1: Disposition,
    pending: bool,
    termed: bool,
    offset: nat,
    seen: nat,
    pausedAt: nat,
    replay: string,
    replayEnd: nat,
    chunks: seq<string>,
    whole: seq<bool>,
    wired: seq<string>,
    wire: string)

  datatype Client = Client(recv: RecvState, send: SendState)

  datatype State = State(
    key: string,
    listener: ListenerPhase,
    listenerUsr1: Disposition,
    file: File,
    clients: seq<Client>)

  datatype RecvAct =
    | AuthOk
    | AuthFail
    | ForkOk
    | ForkFail
    | ReadSome(n: nat)
    | ReadEnd
    | NoMemory
    | LockExclusive
    | Write(n: nat)
    | UnlockWrite
    | FailCall
    | KillChild
    | ExitRecv
    | KilledRecv

  datatype SendAct =
    | Activate
    | LockReplay
    | SeekEnd
    | SeekSet(at: nat)
    | ReadWindow
    | WriteReplay(text: string, n: nat)
    | UnlockReplay
    | EnterPause
    | Handle
    | Wake
    | LockWake
    | SeekWake
    | ReadWake
    | UnlockWake
    | WriteWake(w: string, n: nat)
    | FailSend
    | AbortUnlock
    | ExitSend
    | Terminate
    | KilledSend

  datatype Action =
    | Configure
    | Listen
    | Accept(input: string)
    | ListenerExit
    | AtRecv(id: nat, recvAct: RecvAct)
    | AtSend(id: nat, sendAct: SendAct)
    | Multicast(id: nat)

  // ----- the file ---------------------------------------------------------------------------------

  /** flock(2) grants a shared lock when no other description holds an exclusive one. */
  predicate CanShare(f: File, o: nat) {
    forall q | q in f.locks && q != o :: f.locks[q] == SharedLock
  }

  /** flock(2) grants an exclusive lock when no other description holds any. */
  predicate CanExclude(f: File, o: nat) {
    forall q | q in f.locks :: q == o
  }

  function Lock(f: File, o: nat, m: Mode): File {
    f.(locks := f.locks[o := m])
  }

  function Unlock(f: File, o: nat): File {
    f.(locks := f.locks - {o})
  }

  function Pos(f: File, o: nat): nat {
    if o in f.pos then f.pos[o] else 0
  }

  function Seek(f: File, o: nat, at: nat): File {
    f.(pos := f.pos[o := at])
  }

  function DoRead(f: File, o: nat, size: nat): (string, File) {
    var bytes := ReadAt(f.log, Pos(f, o), size);
    (bytes, Seek(f, o, Pos(f, o) + |bytes|))
  }

  /** write(2) with O_APPEND: the bytes land at the end, and the description's offset follows them. */
  function DoAppend(f: File, o: nat, id: nat, bytes: string): File {
    if bytes == "" then f
    else f.(log := f.log + bytes, pos := f.pos[o := |f.log + bytes|], appends := f.appends + [Append(id, bytes)])
  }

  // ----- one client -------------------------------------------------------------------------------

  function FreshRecv(input: string, usr1: Disposition): RecvState {
    RecvState(Authenticating, usr1, input, 0, None, false)
  }

  function FreshSend(usr1: Disposition): SendState {
    SendState(NotForked, usr1, false, false, 0, 0, 0, "", 0, [], [], [], "")
  }

  predicate SendLive(p: SendPhase) {
    !p.NotForked? && !p.SendDead?
  }

  /** A process ends. Its locks go with it unless another process still has the description open. */
  function Release(f: File, o: nat, stillOpen: bool): File {
    if stillOpen then f else Unlock(f, o)
  }

  datatype RecvEffect = RecvEffect(file: File, recv: RecvState)
  datatype SendEffect = SendEffect(file: File, send: SendState)

  function RecvStep(key: string, o: nat, stillOpen: bool, id: nat, f: File, r: RecvState, a: RecvAct)
    : Option<RecvEffect>
  {
    match a
    case AuthOk =>
      if r.phase.Authenticating? && |r.input| >= KEY_LENGTH && r.input[..KEY_LENGTH] == key
      then Some(RecvEffect(f, r.(phase := Forking, taken := KEY_LENGTH))) else None
    case AuthFail =>
      if r.phase.Authenticating? then Some(RecvEffect(f, r.(phase := RecvExiting))) else None
    case ForkOk =>
      if r.phase.Forking? then Some(RecvEffect(f, r.(phase := Reading))) else None
    case ForkFail =>
      if r.phase.Forking? then Some(RecvEffect(f, r.(phase := RecvExiting))) else None
    case ReadSome(n) =>
      if r.phase.Reading? && 1 <= n <= BUF_SIZE && r.taken + n <= |r.input|
      then Some(RecvEffect(f, r.(phase := WantLock(r.input[r.taken..r.taken + n]), taken := r.taken + n))) else None
    case ReadEnd =>
      if r.phase.Reading? && r.taken == |r.input| then Some(RecvEffect(f, r.(phase := Killing))) else None
    case NoMemory =>
      if r.phase.Reading? then Some(RecvEffect(f, r.(phase := RecvExiting, abandoned := true))) else None
    case LockExclusive =>
      if r.phase.WantLock? && CanExclude(f, o)
      then Some(RecvEffect(Lock(f, o, ExclusiveLock), r.(phase := Locked(r.phase.chunk)))) else None
    case Write(n) =>
      if r.phase.Locked? && n <= |r.phase.chunk|
      then Some(RecvEffect(DoAppend(f, o, id, r.phase.chunk[..n]),
                          r.(phase := if n == |r.phase.chunk| then Appended else Killing,
                             owed := if n > 0 then Some(|f.log| + n) else r.owed)))
      else None
    case UnlockWrite =>
      if r.phase.Signalled? then Some(RecvEffect(Unlock(f, o), r.(phase := Reading))) else None
    case FailCall =>
      if r.phase.Reading? || r.phase.WantLock? || r.phase.Locked? || r.phase.Appended? || r.phase.Signalled?
      then Some(RecvEffect(f, r.(phase := Killing))) else None
    case KillChild =>
      if r.phase.Killing? then Some(RecvEffect(f, r.(phase := RecvExiting))) else None
    case ExitRecv =>
      if r.phase.RecvExiting? then Some(RecvEffect(Release(f, o, stillOpen), r.(phase := RecvDead))) else None
    case KilledRecv =>
      if !r.phase.RecvDead?
      then Some(RecvEffect(Release(f, o, stillOpen),
                           r.(phase := RecvDead, abandoned := r.abandoned || !r.phase.RecvExiting?)))
      else None
  }

  /** What RECV's calls do to its SEND: fork(2) starts it with the parent's dispositions, kill(2) sends it SIGTERM. */
  function ChildAfter(parentUsr1: Disposition, x: SendState, a: RecvAct): SendState {
    match a
    case ForkOk => FreshSend(parentUsr1).(phase := Activating)
    case KillChild => x.(termed := true)
    case _ => x
  }

  function SendStep(o: nat, stillOpen: bool, f: File, x: SendState, a: SendAct): Option<SendEffect> {
    match a
    case Activate =>
      if x.phase.Activating? then Some(SendEffect(f, x.(phase := ReplayWantLock, usr1 := Handler))) else None
    case LockReplay =>
      if x.phase.ReplayWantLock? && CanShare(f, o)
      then Some(SendEffect(Lock(f, o, SharedLock), x.(phase := ReplaySeekEnd))) else None
    case SeekEnd =>
      if x.phase.ReplaySeekEnd?
      then Some(SendEffect(Seek(f, o, |f.log|),
                           x.(phase := if f.log == "" then ReplayUnlocking(0) else ReplaySeekSet(|f.log|),
                              seen := |f.appends|)))
      else None
    case SeekSet(at) =>
      if x.phase.ReplaySeekSet? && at == x.phase.size - Min(x.phase.size, WINDOW)
      then Some(SendEffect(Seek(f, o, at), x.(phase := ReplayReading(x.phase.size)))) else None
    case ReadWindow =>
      if x.phase.ReplayReading?
      then
        var (text, g) := DoRead(f, o, WINDOW);
        Some(SendEffect(g, x.(phase := ReplaySending(x.phase.size, text))))
      else None
    case WriteReplay(text, n) =>
      if x.phase.ReplaySending? && text == LastLines(x.phase.text, LINES_BACK) && n <= |text|
      then Some(SendEffect(f, if n == |text|
                              then x.(phase := ReplayUnlocking(x.phase.size), replay := text, wire := x.wire + text)
                              else x.(phase := Aborting, wire := x.wire + text[..n])))
      else None
    case UnlockReplay =>
      if x.phase.ReplayUnlocking?
      then Some(SendEffect(Unlock(f, o), x.(phase := BeforePause, offset := x.phase.size, replayEnd := x.phase.size)))
      else None
    case EnterPause =>
      if x.phase.BeforePause? then Some(SendEffect(f, x.(phase := Paused, pausedAt := |f.log|))) else None
    case Handle =>
      if x.pending && SendLive(x.phase) && !x.phase.Paused? then Some(SendEffect(f, x.(pending := false))) else None
    case Wake =>
      if x.pending && x.phase.Paused? then Some(SendEffect(f, x.(phase := WakeWantLock, pending := false))) else None
    case LockWake =>
      if x.phase.WakeWantLock? && CanShare(f, o)
      then Some(SendEffect(Lock(f, o, SharedLock), x.(phase := WakeSeeking))) else None
    case SeekWake =>
      if x.phase.WakeSeeking? then Some(SendEffect(Seek(f, o, x.offset), x.(phase := WakeReading))) else None
    case ReadWake =>
      if x.phase.WakeReading?
      then var (chunk, g) := DoRead(f, o, BUF_SIZE); Some(SendEffect(g, AfterRead(f, x, chunk))) else None
    case UnlockWake =>
      if x.phase.WakeUnlocking?
      then Some(SendEffect(Unlock(f, o),
                           x.(phase := if x.phase.chunk == "" then BeforePause else WakeSending(x.phase.chunk))))
      else None
    case WriteWake(w, n) =>
      if x.phase.WakeSending? && IsWireForm(x.phase.chunk, w) && n <= |w|
      then Some(SendEffect(f, if n == |w| then x.(phase := BeforePause, wired := x.wired + [w], wire := x.wire + w)
                         else x.(phase := SendExiting, wire := x.wire + w[..n]))) else None
    case FailSend =>
      if InReplay(x.phase) then Some(SendEffect(f, x.(phase := Aborting)))
      else if SendLive(x.phase) && !x.phase.BeforePause? && !x.phase.Paused? && !x.phase.SendExiting?
      then Some(SendEffect(f, x.(phase := SendExiting))) else None
    case AbortUnlock =>
      if x.phase.Aborting? then Some(SendEffect(Unlock(f, o), x.(phase := SendExiting))) else None
    case ExitSend =>
      if x.phase.SendExiting? then Some(SendEffect(Release(f, o, stillOpen), x.(phase := SendDead))) else None
    case Terminate =>
      if x.termed && SendLive(x.phase) then Some(SendEffect(Release(f, o, stillOpen), x.(phase := SendDead))) else None
    case KilledSend =>
      if SendLive(x.phase) then Some(SendEffect(Release(f, o, stillOpen), x.(phase := SendDead))) else None
  }

  /** Inside the replay, where a failed call is answered by an unlock. */
  predicate InReplay(p: SendPhase) {
    p.ReplaySeekEnd? || p.ReplaySeekSet? || p.ReplayReading? || p.ReplaySending?
  }

  /** SEND after a wake's read(2) returned `chunk`. */
  function AfterRead(f: File, x: SendState, chunk: string): SendState {
    var at := x.offset + |chunk|;
    var read := x.(phase := WakeUnlocking(chunk), offset := at, seen := Min(|f.appends|, x.seen + 1));
    if chunk == "" then read
    else read.(chunks := x.chunks + [chunk], whole := x.whole + [at == |f.log|])
  }

  /** SIGUSR1 reaches both processes of a client. */
  function Signal(cl: Client): Client {
    Client(if cl.recv.usr1.Default? then cl.recv.(phase := RecvDead) else cl.recv,
           if !SendLive(cl.send.phase) then cl.send
           else match cl.send.usr1
                case Default => cl.send.(phase := SendDead)
                case Ignore => cl.send
                case Handler => cl.send.(pending := true))
  }

  // ----- the whole server -------------------------------------------------------------------------

  predicate Live(s: State, p: Proc) {
    match p
    case Listener => !s.listener.Gone?
    case Recv(id) => id < |s.clients| && !s.clients[id].recv.phase.RecvDead?
    case Send(id) => id < |s.clients| && SendLive(s.clients[id].send.phase)
  }

  /** Some live process other than `p` has `p`'s open file description open too. */
  predicate StillOpen(own: Ownership, s: State, p: Proc) {
    || (p != Listener && Live(s, Listener) && own(Listener) == own(p))
    || (exists id | 0 <= id < |s.clients| :: Recv(id) != p && Live(s, Recv(id)) && own(Recv(id)) == own(p))
    || (exists id | 0 <= id < |s.clients| :: Send(id) != p && Live(s, Send(id)) && own(Send(id)) == own(p))
  }

  function Put(s: State, id: nat, f: File, cl: Client): State
    requires id < |s.clients|
  {
    s.(file := f, clients := s.clients[id := cl])
  }

  function StepRecv(own: Ownership, s: State, id: nat, a: RecvAct): Option<State>
    requires id < |s.clients|
  {
    var cl := s.clients[id];
    match RecvStep(s.key, own(Recv(id)), StillOpen(own, s, Recv(id)), id, s.file, cl.recv, a)
    case None => None
    case Some(e) => Some(Put(s, id, e.file, Client(e.recv, ChildAfter(cl.recv.usr1, cl.send, a))))
  }

  function StepSend(own: Ownership, s: State, id: nat, a: SendAct): Option<State>
    requires id < |s.clients|
  {
    var cl := s.clients[id];
    match SendStep(own(Send(id)), StillOpen(own, s, Send(id)), s.file, cl.send, a)
    case None => None
    case Some(e) => Some(Put(s, id, e.file, Client(cl.recv, e.send)))
  }

  /** kill(0, SIGUSR1) by client `id`'s RECV. */
  function SignalAll(s: State, id: nat): State
    requires id < |s.clients|
  {
    var cl := s.clients[id];
    var clients := s.clients[id := cl.(recv := cl.recv.(phase := Signalled, owed := None))];
    s.(listener := if s.listenerUsr1.Default? then Gone else s.listener,
       clients := seq(|clients|, i requires 0 <= i < |clients| => Signal(clients[i])))
  }

  /** The state after action `a`, or `None` when no process is about to make that call. */
  function Step(own: Ownership, s: State, a: Action): Option<State> {
    match a
    case Configure =>
      if s.listener.Booting? then Some(s.(listener := Configured, listenerUsr1 := Ignore)) else None
    case Listen =>
      if s.listener.Configured? then Some(s.(listener := Listening)) else None
    case Accept(input) =>
      if s.listener.Listening?
      then Some(s.(clients := s.clients + [Client(FreshRecv(input, s.listenerUsr1), FreshSend(s.listenerUsr1))]))
      else None
    case ListenerExit =>
      if !s.listener.Gone?
      then Some(s.(listener := Gone, file := Release(s.file, own(Listener), StillOpen(own, s, Listener)))) else None
    case AtRecv(id, r) =>
      if id < |s.clients| then StepRecv(own, s, id, r) else None
    case AtSend(id, x) =>
      if id < |s.clients| then StepSend(own, s, id, x) else None
    case Multicast(id) =>
      if id < |s.clients| && s.clients[id].recv.phase.Appended? then Some(SignalAll(s, id)) else None
  }

  /** A server that has just started, with whatever the log file held before. */
  predicate Initial(s: State) {
    && |s.key| == KEY_LENGTH
    && s.listener == Booting && s.listenerUsr1 == Default
    && s.file == File(s.file.log, map[], map[], [])
    && s.clients == []
  }

  /** The state at the end of a run, if every action of the run was possible. */
  function Exec(own: Ownership, s: State, run: seq<Action>): Option<State> {
    if run == [] then Some(s)
    else match Exec(own, s, run[..|run| - 1])
         case None => None
         case Some(t) => Step(own, t, run[|run| - 1])
  }

  ghost predicate Runs(own: Ownership, s: State, run: seq<Action>, t: State) {
    Initial(s) && Exec(own, s, run) == Some(t)
  }

  ghost predicate Reachable(own: Ownership, t: State) {
    exists s, run :: Runs(own, s, run, t)
  }

  lemma ReachStep(own: Ownership, t: State, a: Action)
    requires Reachable(own, t) && Step(own, t, a).Some?
    ensures Reachable(own, Step(own, t, a).value)
  {
    var s, run :| Runs(own, s, run, t);
    assert (run + [a])[..|run|] == run;
    assert Runs(own, s, run + [a], Step(own, t, a).value);
  }

  /** The last step of a nonempty run. */
  lemma LastStep(own: Ownership, s: State, run: seq<Action>, t: State) returns (before: State)
    requires Runs(own, s, run, t) && run != []
    ensures Runs(own, s, run[..|run| - 1], before) && Step(own, before, run[|run| - 1]) == Some(t)
  {
    before := Exec(own, s, run[..|run| - 1]).value;
  }
}
