# papayaChat, modelled and verified in Dafny

This project models the server of papayaChat, the client's relays, its config parser and the generator of
its table of error names, and proves properties of the model. `dafny verify dfyconfig.toml` checks all of it.

## The chat log

Every client of the server owns two processes. RECV reads the client's socket and appends to the one chat
log; SEND replays the log's tail once and then sends what is new each time SIGUSR1 wakes it. They share a
file, a `flock` lock and a signal.

- `Server.dfy` is a transition system with one action per system call: fork, authentication, lock, seek,
  read, append, multicast, unlock, socket write, pause, kill, exit, each with its failures. Short appends and
  short socket writes are steps of their own, and any process can be killed at any time. The number of
  clients is not bounded, and the theorems are about every run of it.
- A lock and a file offset belong to an open file description. Which process uses which description is a
  parameter, `own`. The comments in `file_locking.c` intend one description per process; the code opens the log
  once, before every fork (`concurrent_server.c:199`, `concurrent_server.c:250`), so that all share one.
  `Sharing.dfy` proves that reader/writer exclusion and exact delivery each hold in all runs **if and only if**
  no two workers share a description, and that no lock outlives its holder **if and only if** no two
  processes, the listener included, do. For the code as it is (`Inherited`) all three therefore fail, and the
  runs that break them are constructed. Where code and comments disagree the model follows the code.
- `Shuffle.dfy` and `Signals.dfy` make no assumption about `own`: append-only and shuffle, who may take part,
  the signal dispositions, missed wakes, orphans.
- `Locking.dfy`, `Delivery.dfy`, `Sending.dfy` and `CatchUp.dfy` hold for distinct workers: exclusion, who
  waits for whom, what is read and sent, how far behind a SEND can be, how many wakes it needs and what it sends meanwhile. That
  what is sent is what was read holds for any owners.
- `Replay.dfy` is the first message to a client, with its loops over the buffer, against a definition over
  the whole log. `Wire.dfy` is what printing a chunk does to it, and the inverse.
- `Workers.dfy` is the code of the workers as methods of a class that holds the server's state. Between any
  two calls all other processes do anything they can, and any call may fail, but which calls fail is fixed
  beforehand and not up to the code: so the contracts say that a worker ends **if and only if** a call of its
  own failed (or, for RECV, its input ended), and never otherwise. What a worker computes (the
  window's offset, the text to replay, the bytes for the socket) is an argument of the action it performs, and
  the transition system allows the action only for the right value.

A SIGUSR1 that arrives outside `pause(2)` only sets a flag that no one tests, and pending signals coalesce to
one bit, so eventual delivery is not claimed. What is claimed: the lag is bounded by the appends that no read has
answered; the number of wakes to catch up is exact; and a paused SEND with nothing pending has missed nothing
**if and only if** no RECV owes the signal for an append made since that pause began. That a writer is not
between its append and its multicast is not enough: a RECV whose append fell short or whose multicast failed
owes its signal for ever. `Sharing.SilentAppend` is a run where that leaves a SEND behind.

## The other parts

- `Reaping.dfy`: SIGCHLD as one coalescing bit and the draining handler. No zombie is left behind in any run
  if and only if the handler was installed. `configureSignalDisposition` returns 1, not -1, when it cannot
  build the signal set, and `main` then goes on without the handler; the method's contract says exactly when.
- `ConfigParser.dfy`: `fgets` and `sscanf` as in ISO/IEC 9899:2011 sections 7.21.7.2 and 7.21.6.7, the lookup
  loop, the way a file is cut into buffers, and the round trip, with the 511-character limit shown exact.
- `Relay.dfy`: the client's two relay loops, and the way from a client's pipe to the log.
- `Screen.dfy`: what a client's window prints of the bytes it was sent. The front end prints each fetch from
  its pipe as one C string and a newline, so what it shows depends on where the fetches end. It is the replay
  and the log range, whatever the memory after a fetch held, if and only if every fetch ends where a chunk
  ended and every chunk ended in a newline.
- `ErrorNames.dfy` and `ErrorText.dfy`: the awk program, its text output included: what a compiler reads from
  that text is the table, and its lines are filled as far as they can be. The table has one string per error number
  if and only if the numbers increase from at least 1, and when the synonyms are sorted to the top, as the
  program's comment says they are, every name has all its synonyms, whatever order awk takes them in.

## Model

| member | source | states |
|---|---|---|
| Replay.LastLinesIsLongest | file_locking.c:239-241 | The suffix to send is the longest one with at most the allowed newlines |
| Replay.LastLinesUnique | file_locking.c:239-241 | Only one suffix is the longest one, so the promise pins the text down |
| Replay.CutAfterNewline | file_locking.c:239-254 | A suffix that starts after a newline and holds exactly the allowed newlines is the longest |
| Replay.WindowIsEnough | file_locking.c:169-197 | For every log, line count and window: scanning the last bytes only finds the shorter of the log's last lines and its last bytes |
| Replay.ReplayIsMaximal | file_locking.c:36-42 | The replay keeps both limits, and every longer tail of the log breaks one of them |
| Replay.WorkingOffset | file_locking.c:165-178 | The size less one, the comparison and the plus one amount to the start of the last window bytes, for logs shorter, equal and longer |
| Replay.CountNewlines | file_locking.c:206-211 | The loop counts the newlines of the bytes read |
| Replay.NewlinesAre | file_locking.c:206-211 | What is counted is the number of places that hold a newline |
| Replay.SkipFirstLine | file_locking.c:228-237 | The first loop ends in bounds just after the first newline |
| Replay.SkipLines | file_locking.c:242-254 | The second loop ends in bounds just after a newline and has skipped exactly the newlines asked for, none when asked for none |
| Replay.FindStart | file_locking.c:206-254 | The text sent is the buffer's longest suffix with at most the allowed newlines; when there were more, it starts just after a newline and has exactly the allowed number |
| Wire.WireFormOfText | clientRequest.c:104-118 | A NUL-free chunk has one wire form: its last byte replaced by NUL |
| Wire.OnlyChunkEnds | clientRequest.c:95-118 | On NUL-free text the chunks and what is sent for them differ only in each chunk's last byte |
| Wire.Printed | clientRequest.c:95-115 | Printing a chunk into a buffer of its own size gives one of its wire forms, whatever the memory held |
| Wire.RestoreWireForm | clientRequest.c:104-109 | Replacing NUL by newline gives a NUL-free chunk back exactly when it ended in a newline |
| Wire.ChunksOnTheWire | clientRequest.c:95-118 | Chunk after chunk the lengths agree, and NUL-free text can be restored exactly when every chunk ends in a newline |
| Shuffle.LogIsShuffle | clientRequest.c:199-233 | In every reachable state, whoever owns the locks: the log is the old log plus chunks of at most 4096 bytes, and each client's chunks are a prefix of what it sent after the key |
| Shuffle.NothingLost | clientRequest.c:213-224 | While RECV is in its loop, the key, its chunks in the log and the chunk in its hand are all it has read |
| Shuffle.AppendOnly | file_locking.c:52-58 | The log at any time is a prefix of the log at any later time |
| Shuffle.OnlyKeyHolders | concurrent_server.c:128-134 | In every reachable state only a client that sent the 128-byte key first has a SEND, a RECV in its loop, or anything in the log |
| Signals.NobodyAtDefault | signalHandling.c:56-74 | Once clients can be accepted, the listener and every RECV ignore SIGUSR1, and every SEND ignores it or has the handler, which it has from its activation on |
| Signals.MulticastNeverKills | file_locking.c:88-93 | A multicast in any reachable state leaves the same processes alive and marks every activated SEND |
| Signals.NoMissedWake | clientRequest.c:163-170 | The log has not grown since a SEND entered pause, and no signal is pending for it, exactly when every RECV that owes a signal owes it for an append made before that pause; a RECV that owes one is about to send it, or failed and is ending or has ended |
| Signals.DeliveriesAnswered | signalHandling.c:119-124 | Signals coalesce: over any run a SEND is delivered at most one SIGUSR1 for each multicast, a pending one included |
| Signals.OrphansExactly | clientRequest.c:176-190 | A live SEND of an ended RECV was sent SIGTERM exactly when RECV was not cut short by lack of memory or from outside |
| Signals.AbandonedExactly | clientRequest.c:203-208 | A RECV has abandoned its SEND exactly when it ran out of memory, or was killed from outside before it was on its way to the exit |
| Signals.NoOrphanSenders | clientRequest.c:213-248 | A SEND that outlives its RECV has been sent SIGTERM exactly when neither happened in the run; so on the end-of-file, read-error and append-error paths alike |
| Locking.ExclusionHolds | file_locking.c:77-83 | With distinct workers no reader and no second writer is inside its section with a writer |
| Locking.NoLeakAlways | file_locking.c:95-97 | With all owners distinct every lock belongs to a live process inside its section or on its way out after a failed call |
| Locking.FailedCallsEnd | clientRequest.c:218-223 | A process whose call failed never goes back to its loop, and each further call of its own brings its end nearer |
| Locking.SharedGranted | file_locking.c:109-112 | With all owners distinct a shared lock is granted exactly when no RECV has its lock, however many SENDs have theirs; a RECV in its section has it, and one that has it is in its section or on its way out |
| Locking.ExclusiveGranted | file_locking.c:77-83 | An exclusive lock is granted exactly when no other description has a lock |
| Delivery.ExactDelivery | clientRequest.c:151-173 | With distinct workers, under any interleaving: the replay is the right tail of the log up to the size it returned, and the chunks read since are exactly the log from there to the offset |
| Delivery.ReplayReturnsSize | file_locking.c:267-272 | The replay returns the log's size of that moment and has sent that whole log's tail |
| Delivery.ReadsContinue | file_locking.c:119-132 | Every read starts at SEND's offset, takes at most 4096 bytes and moves the offset to its end |
| Delivery.LagBound | clientRequest.c:83-93 | The lag is at most 4096 bytes for every append that no read has answered; with none left SEND has read all |
| Sending.SentBytes | clientRequest.c:95-132 | What was sent is the replay and then one wire form per chunk of the log range read, byte for byte as many; on NUL-free logs each is its chunk with the last byte turned into NUL |
| Sending.RestorableExactly | clientRequest.c:104-109 | For NUL-free logs the range can be restored from the bytes sent exactly when every chunk read ended in a newline |
| Sending.RestorableLines | frontEnd.c:215-223 | So it can be restored if every append is whole lines and every read reached the end of the log |
| CatchUp.CatchesUp | clientRequest.c:163-170 | While the log does not grow, k wake reads move the offset by k buffers or to the end, read one chunk each until then, and reach the end exactly when k is at least ceil(lag/4096), whatever other processes do |
| CatchUp.WakesDeliver | clientRequest.c:83-132 | Over the rest of any run SEND keeps what it has read and sent, reads exactly the log between its offsets, and sends one wire form for each chunk not in hand any more; one that has read and sent all and finds no append sends nothing more, however often it is woken |
| CatchUp.ReadsAtExact | clientRequest.c:71-93 | Wake reads that find the log at given growing sizes read every byte once and in order, at most one buffer each |
| CatchUp.SteadyReads | clientRequest.c:163-170 | When those sizes are all the same they are the wakes counted by CatchesUp |
| Sharing.ExclusionExactly | file_locking.c:77-81 | Exclusion holds in all reachable states if and only if no two workers share an open file description |
| Sharing.ExactnessExactly | file_locking.c:105-134 | What every SEND has read, replay first, is exactly the log as far as its offset, in all reachable states, if and only if no two workers share one |
| Sharing.NoLeakExactly | file_locking.c:111-129 | No lock outlives its holder's section in any reachable state if and only if no two processes share one |
| Sharing.InheritedBreaksAll | concurrent_server.c:199-250 | With the one inherited description of the code all three fail |
| Sharing.SilentAppend | file_locking.c:85-93 | A run in which a SEND stays paused although the log has grown and no signal is pending |
| Sharing.TwoReaders | file_locking.c:109-110 | A run in which two SENDs are inside their sections at once |
| Sharing.OrphanLeft | clientRequest.c:203-208 | A run in which RECV gets no memory and its SEND lives on without a SIGTERM |
| Workers.Machine.ExclusiveWrite | file_locking.c:73-101 | Returns 0 with the whole chunk appended and signalled; or -1, exactly when one of its at most four calls failed, with a prefix of it appended and RECV about to kill its child; or it still waits for a lock that is not free |
| Workers.Machine.ReceiveOnce | clientRequest.c:199-239 | One turn of the loop: what was appended is what was read, in order; it ends RECV exactly at the end of the client's input or when a call failed |
| Workers.Machine.ReceiveMessages | clientRequest.c:194-250 | The whole loop: at end of file all the client sent is in the log; every other end comes exactly from a failed call, with only a cut-off end of the last chunk missing; a SEND still alive then was sent SIGTERM exactly unless memory ran out |
| Workers.Machine.KillChild | clientRequest.c:178-190 | SIGTERM has been sent and RECV is about to exit |
| Workers.Machine.SendTail | file_locking.c:206-265 | The loops over the buffer pick the text that is written; SEND is about to exit exactly when a call failed |
| Workers.Machine.MessagesFromFirstClientConnection | file_locking.c:140-273 | Returns the size and, with distinct workers, has sent exactly the tail of a log of that size; or -1 exactly when a call failed |
| Workers.Machine.SharedRead | file_locking.c:105-134 | Returns how many bytes were read at SEND's offset, 0 at the end of the log, which with distinct workers are the log's bytes there; or -1 exactly when one of its at most four calls failed |
| Workers.Machine.ReadChatlogSendClient | clientRequest.c:56-134 | The offset moves by what was read, which with distinct workers is the log from the old offset to one buffer on or to the end it had at the read; the socket gets one wire form of it; a read at the end changes nothing and goes on; SEND ends exactly when a call failed, and what was sent before stays |
| Workers.Machine.SendNewMessages | clientRequest.c:137-174 | Every turn is one wake that reads at most one chunk, and while SEND is in its loop all it has read was sent: the replay, then one wire form for each chunk. With distinct workers the offset and the chunks are those of one wake read for each turn, from the replay's size on, with the log at the sizes it had then. Fewer turns than asked for mean a pause with no signal pending, a lock that is not free, or a failed call, and SEND exits exactly on the last |
| Workers.Machine.AuthClient | concurrent_server.c:104-164 | Returns 0 exactly when no call failed, the timeout included, and the first 128 bytes are the key |
| Workers.Machine.HandleRequest | clientRequest.c:253-282 | The new SEND starts with SIGUSR1 ignored and the parent goes on as RECV, exactly when the fork succeeded; otherwise RECV ends |
| Workers.Machine.AcceptClients | concurrent_server.c:238-289 | Each connection's outcome is what accept(2) and fork(2) made of it; the listener ends exactly at a failed accept; the old clients stay and the new ones are exactly the connections that forked, in order |
| Reaping.ZombiesAccounted | signalHandling.c:15-35 | In every run zombies exist only while SIGCHLD is pending or the loop is draining |
| Reaping.NoZombiesExactly | signalHandling.c:81-113 | That holds over all runs if and only if the handler was installed |
| Reaping.ChildrenConserved | signalHandling.c:22-30 | Every child forked is live, a zombie, or collected exactly once |
| Reaping.DrainingEnds | signalHandling.c:22-30 | The draining loop collects no more children than there were when it was entered |
| Reaping.Parent.ConfigureSignalDisposition | signalHandling.c:56-117 | 0 exactly when both dispositions are set; 1, which main does not treat as an error, exactly when the signal set could not be built |
| Reaping.Parent.Waitpid | signalHandling.c:22-29 | Collects one child that has ended by itself, or says that there is none; children that have not ended are not touched |
| Reaping.Parent.CatchSIGCHLD | signalHandling.c:15-35 | Afterwards all former zombies are collected, exactly the children that have ended are gone, those that ended since have made SIGCHLD pending again, and errno is restored |
| ConfigParser.PieceLength | configParser.c:33 | How much of the file one call takes: up to a newline, and at most the room there is |
| ConfigParser.Segmentation | configParser.c:33-35 | The buffers read are nonempty, at most 511 characters, have a newline only at the end, and are the file |
| ConfigParser.BuffersSuffice | frontEnd.c:323-326 | The first token of any buffer fits its 512-byte array with its terminator, the second a 522-byte array with ": " after it |
| ConfigParser.ScanTwo | configParser.c:42 | Two tokens between white space are scanned as such |
| ConfigParser.Separators | configParser.c:42 | Exactly the six white-space characters of the C locale separate tokens |
| ConfigParser.ScanFits | configParser.c:37-44 | What is scanned as two tokens is two nonempty whitespace-free strings that fit in the line with a separator |
| ConfigParser.LookupFindsFirst | configParser.c:57-87 | 0 comes with the value of the first buffer that binds the parameter, -1 when none does |
| ConfigParser.LookupLeaves | configParser.c:42 | When nothing is found the caller's buffer holds the second token of the last line that had two |
| ConfigParser.ParseLine | configParser.c:28-52 | The three results, what of the file is used up, and what is stored in the caller's buffer, also for lines that do not match |
| ConfigParser.ParseConfigFile | configParser.c:57-87 | The loop ends and does the whole lookup; -1 when the file cannot be opened or there is no memory |
| ConfigParser.RoundTrip | configParser.c:57-87 | Printing any list of comment and binding lines, with any white space between and around the tokens, and parsing for a key gives the first binding's value, and -1 exactly when there is none |
| ConfigParser.RoundTripExactly | CONFIG.h:28-29 | A single binding, its tokens one character apart, comes back if and only if its line has at most 511 characters |
| Relay.Forward | handleMessages.c:22-61 | Also handleReadSocket at lines 82-123: input is output, then what a failed write lost of one buffer, then unread bytes. The loop says why it ended: at end of input nothing is left, and bytes are lost exactly when a write failed |
| Relay.PipeToLog | clientRequest.c:213-218 | The log's part of a client is a prefix of what was written to that client's pipe |
| Relay.PartRestores | clientRequest.c:104-109 | Any part of the bytes sent that has come through stands for a beginning of the log range |
| Screen.FetchedExactly | frontEnd.c:137-154 | However terminated messages are fetched, they are shown with a newline for each terminator and nothing lost or added exactly when every fetch is one message |
| Screen.ShownExactly | frontEnd.c:137-154 | The window shows the text that a session's bytes stand for exactly when the first chunk is fetched with the replay, every other chunk by itself, and every chunk ended in a newline |
| Screen.WindowShowsLog | frontEnd.c:137-154 | In every run with distinct workers, for a SEND with nothing in hand, that text is the replay and the log from there to its offset |
| Screen.SecondIsLost | frontEnd.c:137-154 | Of chunks that arrive in one fetch only the first is shown |
| ErrorNames.NoExcess | Build_error_names.sh:28-38 | No string too many exactly when the numbers increase from at least 1 |
| ErrorNames.LastSynonym | Build_error_names.sh:25-26 | The last line about a name decides what it is a synonym of |
| ErrorNames.LastDefinition | Build_error_names.sh:38 | MAX_ENAME is the number of the last definition |
| ErrorNames.AliasesExactly | Build_error_names.sh:40-41 | Of the names the loop goes over, it puts in exactly those that are synonyms of the entry's name |
| ErrorNames.SynonymsFirst | Build_error_names.sh:25-27 | With the synonyms sorted to the top every entry is built with all of them read |
| ErrorNames.TableIsComplete | Build_error_names.sh:25-41 | With the lines sorted, and whatever order awk's for-in takes, the string at each number is its name joined with all names defined as it, each once: cut at its slashes it is those names |
| ErrorNames.TwoNames | Build_error_names.sh:39-41 | EAGAIN, with EWOULDBLOCK defined as it, is entered as EAGAIN/EWOULDBLOCK |
| ErrorText.SlashedIs | Build_error_names.sh:39-41 | A joined string is the name followed by every alias with a slash before it |
| ErrorText.SlashedCut | Build_error_names.sh:39-41 | Cut at its slashes it is the name and the aliases again |
| ErrorText.CutIs | Build_error_names.sh:41 | Cutting at a character gives pieces without it that are the string with it between them |
| ErrorText.DecimalIs | Build_error_names.sh:56 | A number is printed as its base-ten digits without leading zeros |
| ErrorText.DecimalDigits | Build_error_names.sh:33 | Most significant digit first |
| ErrorText.HeaderIs | Build_error_names.sh:33 | The index in a row's comment, padded to three characters |
| ErrorText.ListingReadsBack | Build_error_names.sh:20-56 | The string literals a compiler reads from the printed text are the table, if no name holds a quotation mark |
| ErrorNames.JoinSynonyms | Build_error_names.sh:38-41 | The loop joins the name and its synonyms with slashes: cut at them it is the name and its synonyms |
| ErrorNames.BuildErrorNames | Build_error_names.sh:14-57 | The text printed, from which the table reads back; MAX_ENAME + 1 strings exactly when the numbers increase from at least 1, and then every name at its number with the synonyms read so far, nothing elsewhere, every row labelled with the index of its first string, and a new line begun exactly where the next string would not fit or is number 1; with sorted lines every name has all its synonyms, each once |
| ErrorNames.LookupIsRight | error_handling.c:86-88 | In such a table the guarded lookup is in range and gives a defined number's name with all its synonyms, nothing for a number between, and the fixed text otherwise |

## Left out

- Eventual delivery and fairness: the code does not give them, since a signal before `pause(2)` wakes nobody, signals coalesce, and a wake reads one buffer.
- Non-atomic lock conversion: a blocked conversion of a lock gives up the old lock first; the model only has granted conversions. They occur only when processes share a description.
- Partial reads of a regular file and of the key: read(2) on the log returns all there is up to the size asked for, and the key arrives as one read of 128 bytes.
- Authentication keys: a key read from its file goes into a 128-byte array (`concurrent_server.c:216`, `frontEnd.c:364`), which has room for a token and its terminator only up to 127 characters. ConfigParser.BuffersSuffice is not about that array.
- Text with NUL bytes on the wire: the bytes after a chunk's first NUL are left arbitrary, and reading past a full buffer without a NUL is not modelled. The key and config files are taken as NUL-free.
- File offsets, sizes and process ids are unbounded numbers, and a process id is never used twice.
- Workers.Machine.SendNewMessages: the endless loop is run for any given number of turns, because Dafny methods here must end; the invariant is the same for each.
- Workers.Machine.AcceptClients: runs over any finite list of connections, for the same reason.
- Waiting without end: a method whose worker stays in flock(2) or pause(2) returns and says so; a client that sends nothing more and does not close is not told apart from one that has not sent it yet.
- Workers.Machine.KillChild: kill(2) is taken to succeed; when it fails because SEND is gone already, RECV exits all the same.
- ConfigParser.RoundTripExactly: for tokens one character apart; a line longer than 511 characters only because of other white space can still be found.
- A process killed by a signal in the middle of its code: the transition system has these steps, the methods of `Workers.Machine` describe the runs in which their own process is not killed.
- Locks of processes killed by a multicast are not released in the model, as no reachable multicast kills.
- An input error of a config file that is not the end of the file, and files over the C library's limits.
- ErrorNames.BuildErrorNames: the order in which awk goes over its array of synonyms is a parameter, since awk does not fix it, and is taken to be the same at every entry.
- Screen: how ncurses lays out and clears the window, and text longer than one fetch can hold; a fetch without a terminator is shown with arbitrary memory after it, up to a NUL there.
- SIGTERM handling in detail: the handler's execve into `termHandlerAsyncSafe.c` is the end of the process.
- syslog, daemon creation, sockets and their set-up, the ncurses interface of `frontEnd.c`, installation scripts, profiling programs.
