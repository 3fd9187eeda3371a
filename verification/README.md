# bingo, modelled and proved in Dafny

The C++ library bingo rests on three small concurrent or asynchronous protocols: worker queues with
exit messages, TCP connections that cut packages out of a byte stream, and a one-slot mailbox in
shared memory. This project models each of them as a state machine over its atomic steps, and proves
what holds in every run. Around them it models the fixed-size buffer, the handler set with its two
timeout sweeps, the configuration trees and the text codecs.

`dafny verify dfyconfig.toml` checks the whole project.

## How the model is built

An atomic step is what the code does without giving anyone else a chance: the stretch between taking
a mutex and releasing or waiting on it, one io_service callback, one timer expiry. For every component
there is

* a function on values for each atomic step (`PutSection`, `SvcSection`, `ReadHandler`, ...);
* a class with the fields of the C++ class, whose methods do the step in place and promise that the new
  state is that function of the old one;
* a machine (`Event`, `Enabled`, `Apply`, `CanRun`, `Exec`) that lets the steps of all parties interleave
  in any order, with logs of what was accepted, called back, freed, sent and received;
* an invariant, one lemma per kind of step that keeps it, and main results about `Exec` of any run from
  the initial state.

Where a component keeps a log of its own, the log is tied to the events: `Histories` computes what a
handler must have read, written, reported and closed from the list of events alone, and so do `DelaysOf`
for the client's delays, `PutsOf` and `FailedOf` for the mailbox, and `LastRefresh` for the stamps.

| file | source | content |
|---|---|---|
| Messages, ManyToMany, ManyToManyExit | bingo/thread/many_to_many.h | worker pool; its destructor's exit loop |
| ManyToOne, ManyToOneExit | bingo/thread/many_to_one.h | single worker that drains on exit; its destructor |
| Bytes, MemGuard | bingo/mem_guard.h | the buffer |
| Framing | bingo/tcp/tcp_svr_handler.h, bingo/tcp/tcp_cet_handler.h | header-then-body framing against a reference parser |
| Sending, Handlers, Histories, SvrHandler, CetHandler | the same | owned send packages; read chain, close, posted sends; what a list of events alone demands of a handler; the two sides |
| EndToEnd | the same | from send_data to the peer's package callback |
| TcpClient | bingo/tcp/tcp_client.h | connection attempts, retries, reconnects |
| HdrManager, Timeouts | bingo/tcp/tcp_handler_manager.h, bingo/tcp/tcp_svr_hdr_manager.h, bingo/tcp/tcp_server.h | handler set, routing, periodic sweeps over time |
| Mailbox | bingo/process/shared_memory | the one-slot mailbox |
| ConfigTree | bingo/config | node and property tree, XML and JSON dialects |
| StringEx, Text | bingo/string.cpp | hexadecimal and dotted-quad codecs |

## What the proofs show about the code

Most of what the code promises holds. These points do not, or hold only under a condition, which is
proved in both directions where there is one:

* The destructor of the pool (bingo/thread/many_to_many.h:61) means to send one exit message per live
  worker, but re-reads `thread_active_num_` while workers decrement it. It is safe if and only if at
  most one worker is live when it starts (`JoinIsSafeIffAtMostOneWorker`). With `a` live workers it
  sends `k` messages with `k <= a <= 2k` (`ExitLoopBound`), every such `k` occurs from every pool
  (`EveryCountOccurs`), and `join_all` can return exactly if `k == a` (`JoinReturnsIffOneTokenEach`).
* The destructor of the single-worker queue returns without the join if its own put is refused. It is
  sure to wait for the worker if and only if nobody else had an exit message accepted or the worker is
  already gone (`WaitsIffNoOtherExit`), and `ReturnsDuringCallbackIff` says exactly when it can return
  in the middle of a callback.
* A header that announces no further bytes is never got past: the package is not handed over and the
  header branch is entered again at every completion (`ZeroRemainStalls`). A header is got past if and
  only if it announces at least one byte and the package fits (`HeaderIsPassedIff`).
* The mailbox waits with `if`, not `while`. With spurious wakeups in the model, delivery is exactly once
  and in order if and only if every woken party happens to find the slot as a `while` would have
  required (`FifoIffRechecked`), which is so whenever no wakeup is spurious (`GenuineIsRechecked`).
* A configuration tree survives writing and reading, up to its normal form, exactly if it is `Faithful`;
  the codecs undo each other exactly on non-empty bytes, canonical hexadecimal text and canonical quads.

## Model

| member | source | states |
|---|---|---|
| ManyToMany.WorkerQueue.constructor | bingo/thread/many_to_many.h:31-53 | the pool starts with an empty queue, the exit flag down and thread_n active workers |
| ManyToMany.WorkerQueue.Put | bingo/thread/many_to_many.h:94-115 | returns -1 and changes nothing exactly if the exit flag is up, whatever the message; else returns 0 and the queue is the old one with the message behind |
| ManyToMany.WorkerQueue.Svc | bingo/thread/many_to_many.h:134-173 | one lock-holding stretch of a worker: on an empty queue it returns early or waits, otherwise the oldest message is taken: data is delivered, an exit message lowers the count and raises the flag exactly at 0 |
| ManyToMany.ActiveCountIsTrue | bingo/thread/many_to_many.h:164-172 | in every run of n workers the active count equals the workers not gone and n minus the exit messages popped; the flag is up exactly when n > 0 and all are gone |
| ManyToMany.EarlyReturnIsUnreachable | bingo/thread/many_to_many.h:141-148 | no worker of any run takes the return inside the empty-queue loop |
| ManyToMany.RefusalMeansQuiet | bingo/thread/many_to_many.h:100-105 | after a refused put every worker is gone: no callback runs and no message is held |
| ManyToMany.RefusedIffAllGone | bingo/thread/many_to_many.h:100-108 | after any run of n workers a put of any message is refused without effect if and only if n > 0 and all workers are gone; otherwise it is accepted and queued last |
| ManyToMany.NothingAfterAllGone | bingo/thread/many_to_many.h:94-183 | no continuation of a run that has emptied the pool accepts, pops, calls back or frees anything |
| ManyToMany.FifoOverRuns | bingo/thread/many_to_many.h:108-162 | in every run the accepted messages are those popped, in order, followed by the queue |
| ManyToMany.ExactlyOnceUpToTheLastToken | bingo/thread/many_to_many.h:122-183 | when all n workers are gone, popped is the accepted log cut at its n-th exit message; the data in it was called back once each, all of it freed once each, the rest is still queued |
| ManyToMany.NoWakeupIsLost | bingo/thread/many_to_many.h:96-112 | in every run, when a worker waits beside a non-empty queue some put has pushed and not yet notified, and that notification wakes the worker |
| ManyToMany.NeverStuck | bingo/thread/many_to_many.h:137-181 | with n exit messages accepted, some worker or pending notification can move until all workers are gone |
| ManyToMany.PoolShutsDown | bingo/thread/many_to_many.h:122-183 | then every continuation without new puts or spurious wakeups has bounded length and can only get stuck with all workers gone |
| ManyToManyExit.ExitLoop | bingo/thread/many_to_many.h:57-73 | the destructor's loop on the queue object, interleaved with any turns of others, queues k exit messages with k <= a <= 2k, and ends with suc 0 exactly if a > 0 |
| ManyToManyExit.ExitLoopBound | bingo/thread/many_to_many.h:61-73 | the same bound in the step-by-step machine with producers, notifications and callbacks; no put inside the loop is refused and the join is skipped only if a was 0 |
| ManyToManyExit.EveryCountOccurs | bingo/thread/many_to_many.h:61-73 | from every pool with a live workers and no exit message queued, and for every k with 0 < k <= a <= 2k, there is a run in which the loop sends exactly k messages |
| ManyToManyExit.JoinReturnsIffOneTokenEach | bingo/thread/many_to_many.h:76-89 | after the loop some continuation has all workers gone if and only if one exit message per initially live worker was sent |
| ManyToManyExit.JoinIsSafeIffAtMostOneWorker | bingo/thread/many_to_many.h:55-92 | for every pool with no exit message queued, the join can return in every interleaving of the destructor if and only if at most one worker is live when it starts |
| ManyToManyExit.AllCanLeave | bingo/thread/many_to_many.h:164-172 | with one exit message each, a run in which all workers leave exists from every state |
| ManyToOne.WorkerQueue.constructor | bingo/thread/many_to_one.h:31-43 | starts empty with the exit flag down |
| ManyToOne.WorkerQueue.Put | bingo/thread/many_to_one.h:73-95 | refuses with -1 and no change once the exit flag is up, else appends and returns 0 |
| ManyToOne.WorkerQueue.SvcLocked | bingo/thread/many_to_one.h:114-154 | one lock-holding stretch: return, wait, or pop the oldest message, raising the flag on an exit message |
| ManyToOne.WorkerQueue.Drain | bingo/thread/many_to_one.h:110-163 | from the pop of an exit message on, the loop empties the queue, calls back exactly the data in it, in order, and returns |
| ManyToOne.DrainsEverything | bingo/thread/many_to_one.h:102-164 | when the worker has returned, the callbacks are all accepted data in put order, everything accepted was freed in order, the queue is empty and every later put is refused |
| ManyToOne.CallbacksInPutOrder | bingo/thread/many_to_one.h:139-160 | at every point of every run the callbacks made are a prefix, at most one short, of the data popped so far |
| ManyToOne.JoinReturns | bingo/thread/many_to_one.h:45-71 | after an accepted exit message and the last put every continuation is bounded and can only end with the worker gone |
| ManyToOne.RefusalLeavesADrain | bingo/thread/many_to_one.h:79-88 | in every run a put of any message is refused if and only if an exit message has been popped, and otherwise accepted; what is owed a callback is the message in hand and the queue |
| ManyToOneExit.SkipsJoinIffExitPopped | bingo/thread/many_to_one.h:51-69 | after any run the destructor's put is refused and its join skipped if and only if an exit message has been popped |
| ManyToOneExit.WaitsIffNoOtherExit | bingo/thread/many_to_one.h:45-71 | started after any run, with worker and data producers interleaving freely, the destructor never returns before the worker is gone if and only if no other exit message had been accepted or the worker is already gone |
| ManyToOneExit.ReturnsDuringCallbackIff | bingo/thread/many_to_one.h:45-71 | the destructor can have returned while a callback runs if and only if another exit message had been accepted, the worker is still there, and it is not so that the exit message is popped with no data in hand or queued |
| MemGuards.MemGuard.constructor | bingo/mem_guard.h:32-37 | a new block is empty and zero-filled |
| MemGuards.MemGuard.Clear | bingo/mem_guard.h:39-42 | empties and zero-fills |
| MemGuards.MemGuard.Copy | bingo/mem_guard.h:69-83 | replaces the contents and leaves the bytes behind alone, or returns -1 and changes nothing if the source is larger than the block |
| MemGuards.MemGuard.Append | bingo/mem_guard.h:102-116 | contents become old contents followed by the source, or -1 and no change |
| MemGuards.MemGuard.ChangeLength | bingo/mem_guard.h:130-141 | the length grows exactly if the sum fits |
| Framing.ParseResumes | bingo/tcp/tcp_svr_handler.h:220-338 | the reference parser of s followed by t resumes from the left-over of s; a stop or stall is final |
| Framing.TheOnlyCut | bingo/tcp/tcp_svr_handler.h:261-337 | the reference parser is characterised without recursion: its result is the one way to cut a stream into packages the hooks accept one by one and a rest whose first header or package is incomplete, announces nothing, is too large or is refused |
| Framing.FeedAgrees | bingo/tcp/tcp_svr_handler.h:248-337 | one read completion, short or full, keeps the receiver in the parser's state: same packages, same left-over, same outstanding size or same stop |
| Framing.FramingIsParsing | bingo/tcp/tcp_svr_handler.h:220-338 | for every split of a stream into reads of 0 to the requested size, the receiver ends where the parser of the whole stream ends |
| Framing.TwoChunkingsAgree | bingo/tcp/tcp_cet_handler.h:153-261 | two splits of the same bytes give the same packages, buffer and stop |
| Framing.ReceiverFollowsStream | bingo/tcp/tcp_svr_handler.h:220-338 | having read any part of a stream, the packages handed over are a prefix of the stream's, and a shut receiver stopped for the stream's first reason |
| Framing.ZeroRemainStalls | bingo/tcp/tcp_svr_handler.h:261-304 | if the header hook announces 0 bytes the receiver never changes again |
| Framing.HeaderIsPassedIff | bingo/tcp/tcp_svr_handler.h:261-304 | at any complete header of any run from a fresh buffer, announcing n bytes, some continuation changes the receiver if and only if n >= 1 and the package fits |
| Framing.BufferAlwaysFits | bingo/mem_guard.h:119-141 | length plus outstanding request never exceeds the block and the change_length failure never happens |
| Framing.ParseOfFlatten | bingo/tcp/tcp_svr_handler.h:307-337 | well-formed packages written one after another are cut into exactly those packages with nothing left over |
| Handlers.TcpHandler.OnRead | bingo/tcp/tcp_svr_handler.h:220-246 | read_handler on the object: ignored if invalid, close path on error, overflow check, bytes stored behind the old ones |
| Handlers.TcpHandler.Dispatch | bingo/tcp/tcp_svr_handler.h:248-338 | the three branches: read the missing rest, header hook and space check, body hook and next header |
| Handlers.TcpHandler.SendDataInThread | bingo/tcp/tcp_svr_handler.h:161-179 | data that fits is copied into a new package and posted, oversize data reports an error and posts a close |
| Handlers.TcpHandler.SendCloseInThread | bingo/tcp/tcp_svr_handler.h:181-184 | posts a close behind everything already posted |
| Handlers.TcpHandler.ActiveSend | bingo/tcp/tcp_svr_handler.h:186-213 | takes the oldest post and writes its package exactly if the handler is valid and the hook accepts; otherwise frees it, and reports exactly if a valid handler's hook refused |
| Handlers.TcpHandler.ActiveClose | bingo/tcp/tcp_svr_handler.h:353-365 | takes the oldest post; a valid handler reports one error and its socket is closed, an invalid one is left alone |
| Handlers.TcpHandler.OnWrite | bingo/tcp/tcp_cet_handler.h:263-292 | a finished write frees its package; a first package also starts the read chain |
| Handlers.ReadHandlerInv | bingo/tcp/tcp_svr_handler.h:220-392 | read_handler keeps the whole invariant: one chain, agreement with the parser, conserved and ordered sends |
| Histories.ReadFollows | bingo/tcp/tcp_svr_handler.h:220-392 | a read completion changes validity, bytes, socket and errors as the history demands: it shuts exactly if the parser stops on all bytes read, with the error of that stop |
| Histories.PostFollows | bingo/tcp/tcp_svr_handler.h:186-213 | running a post does what the history demands of the oldest post not yet run, given validity and the hook's answer |
| SvrHandler.TcpSvrHandler.Start | bingo/tcp/tcp_svr_handler.h:62-77 | stamps the authentication time and starts the one read chain |
| SvrHandler.TcpSvrHandler.CheckHeartjumpTimeout | bingo/tcp/tcp_svr_handler.h:92-114 | true exactly for an authenticated handler whose last refresh is strictly more than the wait ago |
| SvrHandler.TcpSvrHandler.CheckAuthenticationPass | bingo/tcp/tcp_svr_handler.h:128-143 | false exactly for an unauthenticated handler started strictly more than the wait ago |
| SvrHandler.TcpSvrHandler.SetAuthenticationPass | bingo/tcp/tcp_svr_handler.h:147-152 | sets the flag and refreshes the heart-jump time, nothing else |
| SvrHandler.SingleReadChain | bingo/tcp/tcp_svr_handler.h:220-392 | in every run a started valid handler has exactly one outstanding read and any other none; close_complete_func was called once if it is invalid, else never |
| SvrHandler.CloseCallbackAtInvalidation | bingo/tcp/tcp_svr_handler.h:387-392 | from any state, the close callback happens exactly in the step where is_valid_ becomes false |
| SvrHandler.FollowsHistory | bingo/tcp/tcp_svr_handler.h:161-392 | for every run, bytes read, validity, data given, fates, wire, errors and socket are the functions of the event list alone |
| SvrHandler.WritesWhatTheHookAccepts | bingo/tcp/tcp_svr_handler.h:161-213 | the wire is exactly the data whose post ran while the handler was valid and the hook accepted, told from the events; any other processed package is freed unwritten |
| SvrHandler.ClosesAndReports | bingo/tcp/tcp_svr_handler.h:353-392 | the socket is closed if and only if some event was a close post run while valid, a failed read, a read that stops the parser, or a manager close; the errors are one per such event and per refused or oversize send, in event order |
| SvrHandler.InvalidIsFinal | bingo/tcp/tcp_svr_handler.h:186-213 | no continuation of an invalid handler calls back, reads, hands over or writes again |
| SvrHandler.ReceivesWhatTheParserCuts | bingo/tcp/tcp_svr_handler.h:220-338 | in every run, with closes, errors and sends interleaved, the packages handed over are the parser's of all bytes read, a framing stop is the parser's, the change_length failure never happens and every request fits a non-full buffer |
| SvrHandler.SendBuffersConserved | bingo/tcp/tcp_svr_handler.h:161-213 | in every run every allocated package is in exactly one of posted, being written, freed, and freed at most once |
| SvrHandler.WritesInOrder | bingo/tcp/tcp_svr_handler.h:186-213 | in every run data is processed in the order given, each with the fate the events determine, and the wire is the written part in that order; what comes after the close is last; a prefix of what was given if nothing was refused |
| CetHandler.TcpCetHandler.Start | bingo/tcp/tcp_cet_handler.h:61-105 | refused first package: freed, reported, closed, reconnect; empty one: freed and reading starts; else written; the heart-jump timer is armed in the last two cases |
| CetHandler.TcpCetHandler.OnRead | bingo/tcp/tcp_cet_handler.h:153-261 | the common read_handler, followed by the reconnect callback if it closed |
| CetHandler.TcpCetHandler.OnTimeOut | bingo/tcp/tcp_cet_handler.h:412-437 | a heart-jump is written and the timer re-armed, unless the timer failed or the data does not fit |
| CetHandler.SingleReadChain | bingo/tcp/tcp_cet_handler.h:61-105 | in every run exactly one read or first-package write is outstanding while started and valid, else none; reconnect was called once if invalid, else never |
| CetHandler.ReconnectAtInvalidation | bingo/tcp/tcp_cet_handler.h:340-366 | the reconnect callback happens exactly in the step where is_valid_ becomes false |
| CetHandler.FollowsHistory | bingo/tcp/tcp_cet_handler.h:61-437 | for every run of a client the same quantities are the functions of its event list alone |
| CetHandler.WritesWhatTheHookAccepts | bingo/tcp/tcp_cet_handler.h:61-437 | the wire is exactly the first package if not empty, the heart-jump data of every expiry that fits, and the accepted data, contents and order told from the events; any other processed package is freed unwritten |
| CetHandler.ClosesAndReports | bingo/tcp/tcp_cet_handler.h:324-366 | the socket is closed if and only if some event was a close post run while valid, a failed read, a read that stops the parser, or a refused first package; the errors are those of the events, in order |
| CetHandler.HeartbeatsGoOn | bingo/tcp/tcp_cet_handler.h:399-437 | after any run a heart-jump is due if and only if an interval is set, the start made a first package, and no expiry failed or had oversize data |
| CetHandler.ClosedIsFinal | bingo/tcp/tcp_cet_handler.h:295-366 | after any run that has closed, no continuation reconnects again, reads, hands over or writes application data |
| CetHandler.SendBuffersConserved | bingo/tcp/tcp_cet_handler.h:263-322 | conservation with first packages and heart-jumps: each in one place, freed at most once |
| CetHandler.WritesInOrder | bingo/tcp/tcp_cet_handler.h:295-322 | among first package and heart-jumps, the application data on the wire is the written part of the data given, in order, each with the fate the events determine |
| CetHandler.ReceivesWhatTheParserCuts | bingo/tcp/tcp_cet_handler.h:153-261 | in every run the client's packages, stop reason and buffer are the parser's of all bytes read |
| EndToEnd.ServerToClient | bingo/tcp/tcp_handler_manager.h:78-101 | of the packages given to the server, those its hook accepts, told from its events, reach the client's callback as a prefix of that selection, in the order given and unchanged, and all of it once all bytes are read, provided the selection is well-formed for the client |
| EndToEnd.NothingRefused | bingo/tcp/tcp_handler_manager.h:78-101 | if no event is a refusal, well-formedness of the sent packages is enough and the client's packages are a prefix of them |
| EndToEnd.ClientToServer | bingo/tcp/tcp_cet_handler.h:295-322 | from client to server, first package, heart-jumps and accepted data, told from the client's events, arrive as a prefix in event order |
| TcpClients.TcpClient.constructor | bingo/tcp/tcp_client.h:31-36 | one connect is pending and the delay is the base |
| TcpClients.TcpClient.OnReconnect | bingo/tcp/tcp_client.h:56-59 | the delay is the base again, one more connect is pending, and nothing else changes |
| TcpClients.TcpClient.OnConnect | bingo/tcp/tcp_client.h:61-96 | success starts the handler or, if the hook rejects, stops; failure stops if the base delay is 0, else doubles, caps and schedules |
| TcpClients.TcpClient.OnTimeOut | bingo/tcp/tcp_client.h:106-110 | the retry timer starts a connect unless it failed |
| TcpClients.OneConnectionToken | bingo/tcp/tcp_client.h:40-110 | in every run of the client and all its handlers exactly one holds: connect pending, timer armed, one live handler, stopped; never two live handlers |
| TcpClients.StopsOnlyWhenToldTo | bingo/tcp/tcp_client.h:65-82 | after any run with error-free timers the client has stopped if and only if some step of it was a rejecting success hook or a failed connect with base delay 0 |
| TcpClients.StoppedIsFinal | bingo/tcp/tcp_client.h:61-82 | once stopped nothing is pending and no later event connects again |
| TcpClients.BackoffClosedForm | bingo/tcp/tcp_client.h:84-92 | the delays scheduled in any run are min(base * 2^k, max) for the k-th failed connect since a handler last called back, k counted from the events; the next failure schedules the delay of its place, and the doubled value stays within twice the larger of base and max |
| TcpClients.CallBackResets | bingo/tcp/tcp_client.h:56-59 | any step of any run in which a handler calls back leaves the base delay and one pending connect, so the next failure waits min(2 * base, max) |
| TcpClients.BackoffIsMonotone | bingo/tcp/tcp_client.h:84-87 | the delays never decrease, never exceed max, and stay at max once there |
| HdrManager.TcpSvrHdrManager.Push | bingo/tcp/tcp_handler_manager.h:47-53 | registers at the end |
| HdrManager.TcpSvrHdrManager.Erase | bingo/tcp/tcp_handler_manager.h:57-74 | takes out the first entry of the handler and no other, or returns -1 and changes nothing if there is none |
| HdrManager.TcpSvrHdrManager.SendData | bingo/tcp/tcp_handler_manager.h:78-101 | reaches the named handler and no other, exactly if it is registered |
| HdrManager.TcpSvrHdrManager.SendClose | bingo/tcp/tcp_handler_manager.h:105-128 | the same for closing |
| HdrManager.TcpSvrHdrManager.CheckHeartjump | bingo/tcp/tcp_svr_hdr_manager.h:40-57 | the sweep closes exactly the registered handlers that are overdue, with one report per entry, and touches no other |
| HdrManager.TcpSvrHdrManager.CheckAuthenticationPass | bingo/tcp/tcp_svr_hdr_manager.h:60-79 | the same for handlers overdue with their authentication |
| HdrManager.EraseUndoesPush | bingo/tcp/tcp_handler_manager.h:47-74 | erasing after a push removes one entry of that handler, and gives back the old list if it was new |
| HdrManager.ErasesTheFirst | bingo/tcp/tcp_handler_manager.h:63-66 | for any list, erasing removes exactly the first match, keeping the order of the rest |
| Timeouts.TcpServer.constructor | bingo/tcp/tcp_server.h:34-48 | both sweeps are armed one wait ahead, or not at all if the wait is 0 |
| Timeouts.TcpServer.OnHeartjump | bingo/tcp/tcp_server.h:129-147 | sweeps and re-arms one wait ahead; after a timer error neither |
| Timeouts.TcpServer.OnAuthentication | bingo/tcp/tcp_server.h:109-127 | the same for the other sweep |
| Timeouts.StampsAreTrue | bingo/tcp/tcp_svr_handler.h:117-152 | after any timed run the stamps are the times of the last refresh or authentication and of the last start in the event list, and authentication holds exactly if it happened |
| Timeouts.HeartSweepClosesIff | bingo/tcp/tcp_svr_hdr_manager.h:40-57 | a heart-jump sweep closes an open handler if and only if, told from the run, it is registered, has authenticated and was last refreshed strictly more than the wait ago |
| Timeouts.AuthSweepClosesIff | bingo/tcp/tcp_svr_hdr_manager.h:60-79 | the authentication sweep, the same, for a handler that has not authenticated, from its last start |
| Timeouts.HeartWindow | bingo/tcp/tcp_svr_handler.h:92-123 | in every timed run only an authenticated handler is closed; last refreshed at h and registered in time, it is closed strictly after h+W and by h+2W, and is not still open after that |
| Timeouts.AuthWindow | bingo/tcp/tcp_svr_handler.h:128-143 | the same window for an unauthenticated handler from its start |
| Timeouts.AuthenticationIsForever | bingo/tcp/tcp_svr_handler.h:147-152 | once authenticated, never closed by the authentication sweep |
| Timeouts.FreshIsNeverClosed | bingo/tcp/tcp_svr_hdr_manager.h:40-57 | a handler whose refreshes are at most W apart is never closed by the heart-jump sweep |
| Mailbox.ShmData.Store | bingo/process/shared_memory/shm_sender.h:96-105 | the slot's bytes are the message's data from the start and zeros behind, its type is the message's, and it is marked full |
| Mailbox.ShmSender.Put | bingo/process/shared_memory/shm_sender.h:48-126 | returns -1 exactly if all five attempts fail, and then the slot is untouched; else the slot starts with the message's data, is 0 behind and has its type |
| Mailbox.ShmReceiver.SvcLocked | bingo/process/shared_memory/shm_receiver.h:190-205 | one stretch with the lock: waits on an empty slot unless woken, else ends on an exit message or hands over the slot and marks it empty |
| Mailbox.ShmReceiver.Svc | bingo/process/shared_memory/shm_receiver.h:187-207 | against any items stored before or during its waits, the loop hands over those before the first exit message, ends exactly if there is one, and then leaves the slot full |
| Mailbox.FifoIffRechecked | bingo/process/shared_memory/shm_receiver.h:189-207 | in every interleaving, spurious wakeups included, nothing is lost, duplicated or reordered at any point if and only if every woken sender finds the slot empty and every woken receiver finds it full when it has the lock again |
| Mailbox.GenuineIsRechecked | bingo/process/shared_memory/shm_sender.h:83-92 | without spurious wakeups every woken party finds the slot so, in every run and its continuations |
| Mailbox.ExactlyOnceFifo | bingo/process/shared_memory/shm_sender.h:48-126 | in every interleaving without spurious wakeups, the items received and in the slot are as many as the puts that returned 0, and the k-th carries the k-th such message: its type, its data from the start, zeros behind |
| Mailbox.ResultsOfPuts | bingo/process/shared_memory/shm_sender.h:48-126 | in every run the results are those of the puts made, in order, and -1 means exactly five failed attempts |
| Mailbox.EndOfAPut | bingo/process/shared_memory/shm_sender.h:53-124 | a put ends with -1 in exactly the step in which an attempt fails with four failed before, counted from the run, and with 0 in exactly the step that writes the slot |
| Mailbox.NeverBothWaiting | bingo/process/shared_memory/shm_receiver.h:189-207 | spurious wakeups or not, sender and receiver never both wait un-notified, and while the sender waits a receiver that has not ended can move |
| Mailbox.NothingAfterExit | bingo/process/shared_memory/shm_receiver.h:195-207 | after the receiver took an exit message, and while every woken party finds the slot as it needs it, the slot never changes and every put that ends returns -1 |
| Mailbox.SpuriousSenderWakeLoses | bingo/process/shared_memory/shm_sender.h:83-92 | wherever a sender waits, a spurious wakeup followed by its relock, before the receiver moves, overwrites an unread message |
| Mailbox.SpuriousReceiverWakeDuplicates | bingo/process/shared_memory/shm_receiver.h:191-204 | wherever a receiver waits, a spurious wakeup followed by its relock, before the sender stores, delivers what the slot held before |
| ConfigTree.ParsePtree | bingo/config/xml/parse_handler.h:164-187 | the recursive loop computes the node of the tree: attributes gathered from every attribute entry, other entries as children in order, strings cut at NUL; attributes dropped in JSON |
| ConfigTree.MakePtree | bingo/config/xml/parse_handler.h:189-213 | the recursive loop computes the tree of the node, adding each child by its dotted path |
| ConfigTree.GetAdded | bingo/config/xml/parse_handler.h:124-124 | the built tree is found under the root's name, dotted or not |
| ConfigTree.AddThenGet | bingo/config/xml/parse_handler.h:191-191 | in any tree, what is added at a path is found there unless something was found there before, which stays the first match |
| ConfigTree.AddKeepsOthers | bingo/config/xml/parse_handler.h:191-191 | adding changes neither the tree's own data nor anything under another first component |
| ConfigTree.AddUsesWhatIsThere | bingo/config/xml/parse_handler.h:191-191 | an existing first component of a dotted path is used and not doubled |
| ConfigTree.ParsedNode | bingo/config/xml/parse_handler.h:164-187 | from any tree: data up to the first NUL even beside children, one child per entry that is not an attribute list, in order, attributes in XML only |
| ConfigTree.BuiltTree | bingo/config/xml/parse_handler.h:189-213 | the value only without children, XML attributes in order under "<xmlattr>" in front, none in JSON |
| ConfigTree.SurvivesIffFaithful | bingo/config/json/parse_handler.h:128-159 | parsing what was built from a node gives its normal form if and only if the node is faithful, in both dialects |
| ConfigTree.RoundTripIffFaithful | bingo/config/xml/parse_handler.h:117-213 | writing into a fresh tree and reading back by name gives the normal form without the root's name if and only if all descendants have single-component, NUL-free names and no string read back has a NUL |
| ConfigTree.WriteReadWrite | bingo/config/xml/parse_handler.h:152-213 | what was read back makes the same tree again and reads back the same |
| ConfigTree.NormalIsStable | bingo/config/xml/parse_handler.h:205-212 | the normal form is its own normal form and builds the same tree as the original |
| StringEx.StringEx.StreamToString | bingo/string.cpp:70-86 | the loop with its trailing space and trim yields two lower-case digits a byte with single spaces between |
| StringEx.StringEx.StringToStream | bingo/string.cpp:88-105 | fills the buffer with one byte per token and nothing behind; an empty token is an exception |
| StringEx.StringEx.IntToIp | bingo/string.cpp:162-178 | the text is the dotted quad, lowest byte first |
| StringEx.StringEx.IpToInt | bingo/string.cpp:144-160 | 0 for other than four parts, an exception for a part that is no number, else the four low bytes joined modulo 2^32 |
| StringEx.HexRoundTripIffNonEmpty | bingo/string.cpp:70-105 | decoding undoes encoding on a byte sequence if and only if it is not empty |
| StringEx.HexTextRoundTripIffCanonical | bingo/string.cpp:30-105 | encoding undoes decoding on a text if and only if it is lower-case two-digit groups with single spaces |
| StringEx.CaseDoesNotMatter | bingo/string.cpp:30-105 | any text decodes as its upper-case form does |
| StringEx.DigitValues | bingo/string.cpp:30-68 | the value of each digit in both cases, and 0 for every other character |
| StringEx.TokenValue | bingo/string.cpp:93-103 | a token counts by its first two characters, high digit first, a missing second being 0 |
| StringEx.IpRoundTrip | bingo/string.cpp:144-178 | ip_to_int undoes int_to_ip on every 32-bit value, and the text has at most 15 characters |
| StringEx.IpTextRoundTripIffCanonical | bingo/string.cpp:144-178 | int_to_ip undoes ip_to_int on a text if and only if it is a canonical dotted quad |
| StringEx.LowestByteFirst | bingo/string.cpp:162-178 | the text has the lowest byte first |
| StringEx.ReadLowestFirst | bingo/string.cpp:152-158 | the first part is read as the lowest byte |
| StringEx.PartValue | bingo/string.cpp:153-156 | leading zeros and a plus sign are allowed in a part, a minus sign counts modulo 2^32, and anything from 2^32 on is an exception |

## Left out

- Boost.Asio, sockets, clocks and threads: only completions, posts, ideal timers and lock-holding stretches are steps; one io_service thread; posts run in order; every `async_write` is taken to be appended whole in call order.
- The order of bytes of overlapping writes: the code starts a write while another is under way, and what Asio then does is not modelled.
- The user hooks are functions of the packages delivered and of the bytes they see, or free choices of the event; a send hook that changes the package, a callback that throws, and a hook that re-enters the handler within its own step are not modelled.
- The header size is required to be at least 1 and at most the package size; the sources fix it at compile time.
- MemGuards.MemGuard.Append: sums are unbounded, so the wrap-around of `size_t` in `length_ + data_size` is not modelled; the same holds for `MemGuards.MemGuard.ChangeLength`.
- The overloads of `copy` differ only in the pointer type; one is modelled.
- ManyToMany.WorkerQueue.constructor: a negative thread count is not modelled; the model starts when all threads exist and ends before members are destroyed under a destructor that did not join.
- ManyToManyExit.ExitLoop: other senders of exit messages during destruction are not modelled, and the read of the counter is taken to be atomic.
- The destructor of the single-worker queue is modelled with other producers sending data only; other exit messages are those accepted before it starts.
- ManyToManyExit.Interfere: on the queue object a producer or worker turn is one critical section; waiting and notifying are in the machine of the same module.
- A handler whose connect succeeded but was rejected by the success hook is not followed further by the client's machine.
- The accept loop of the server, accepting and refusing connections: it would only add easy members.
- The raw `this` in the timer binds of client handler and client: objects are taken to outlive their timers.
- Timeouts: a sweep takes no time and runs when due, and all stamps are whole ticks.
- The mailbox is modelled for one sender, without exceptions after the slot was touched and without a receiver restart; the receiver's own exit message racing with the sender, and its failed attempts, are not modelled.
- Mailbox.ShmReceiver.Svc: each turn meets one item, stored before the lock is taken or while the receiver waits, for a given number of turns; timing against the sender and spurious wakeups are in the machine of the same module.
- ConfigTree.MakePtree: trees and nodes are values, so the reference into the parent tree that the code updates in place is a returned tree, and aliasing is not captured; the same holds for `ConfigTree.ParsePtree`, which builds a new node.
- ConfigTree.RoundTripIffFaithful: names that the property tree's own assertion rejects on adding (empty, or with an empty last component) are outside its requires.
- Text parsing and printing of XML and JSON, files and pretty-printing, and the search for attributes and values by path.
- Heap addresses are id numbers that are never reused; the message object freed after a refused put of a destructor is not tracked.
- StringEx.StringEx.IpToInt: the signed overflow of the last product is taken modulo 2^32.
- StringEx.StringEx.StringToStream: a buffer smaller than the number of tokens is outside its requires, as the code writes past it.
- The MySQL classes, logging, singletons, `error_what`, `string_append`, `stream_to_char`, `short_to_stream` and the other accessors.
