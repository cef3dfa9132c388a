# Verified model of the TCP key-value server

This project models the server's connection machine, the visit that drives it and the event loop
that schedules every visit over one shared store, and proves what clients may rely on. The central
claim is that everything the server does to be bounded and non-blocking is invisible: cursors that
are compacted late, a 32-frame budget, two-threshold backpressure, short sends, interleaved clients.
What a client is told is the replies of a program that splits its bytes on newlines, executes each
frame and appends each reply.

## How it is laid out

- `Sequences`, `Wrappers`: facts about sequences and maps, and the optional value.
- `Framing`: frames, tails, and the fact that a byte stream has exactly one decomposition.
- `Commands`: white-space tokens, the five command shapes, and the parser over a token stream.
- `Store`: the key-value store, the executor, and the bounds that parsed frames put on stored values.
- `Serial`: executing frames one after another, and the log that says which client each came from.
- `Answers`: what every reply means, read off the log alone.
- `ConnectionModel`: one connection as a value, and functions for each operation and for one visit.
- `WorkTheorems`, `VisitTheorems`: what one execution run and one visit guarantee.
- `Kernels`: the operating system as nondeterministic methods with typed results.
- `Connections`, `Service`, `Servers`: the imperative classes and methods, proved against the values.
- `ServerModel`: the whole server as a value with one action per thing the loop can do; a run is any
  sequence of enabled actions, so it covers every client order and every kernel result.
- `Blocking`: `read_message`, `send_all` and `handle_client`, the reference program.
- `Theorems`: what every run guarantees.

`Servers.Server.Valid` says that the heap is the state some run reaches, and every method of the
server keeps it; a theorem about all runs is therefore a theorem about the server object after any
number of turns of `EventLoop`.

Bytes are modelled as `char`: the program inspects only newlines and white space, so statements about
all strings include all byte strings. `std::size_t` of the store is written out as 64 bits, so the
reply to `COUNT` is the number of keys modulo 2^64. The clock counts milliseconds. recv, send,
accept, epoll results and the order of hash-map iteration are arbitrary within their types; an
accepted descriptor is one that was not open, and an event names a registered descriptor. The kernel
keeps its own record of the bytes it moved on each descriptor and of what each kind of call returned;
`Servers.Server.Valid` says that the connections account for exactly those bytes, and the contract of a
visit that it failed, stopped or retired a client only for a reason the kernel gave.

## Model

| member | source | states |
|---|---|---|
| Framing.StreamSplits | src/protocol/framing.cpp:8-20 | every byte stream is its complete frames, newline by newline, followed by a tail without a newline |
| Framing.SplitIsUnique | src/protocol/framing.cpp:8-20 | that decomposition is the only one, so frames found in a suffix are the later frames of the stream |
| Framing.NextMessage | src/protocol/framing.cpp:8-20 | takes exactly the first complete frame and leaves the rest, or nothing when there is no newline |
| Framing.RepliesAreFrames | src/protocol/framing.cpp:8-20 | one-line replies run together are recovered one by one, with nothing left over |
| Commands.ParseMeetsGrammar | src/protocol/parser.cpp:7-107 | a text parses to a command if and only if it is that command's words, all of them tokens, with any white space around and between them |
| Commands.TokensOfLayout | src/protocol/parser.cpp:8-34 | reading any spacing of tokens gives back the tokens |
| Commands.LayoutOfTokens | src/protocol/parser.cpp:8-34 | every text is some spacing of its own tokens |
| Commands.RecogniseIsShape | src/protocol/parser.cpp:16-106 | a token list is a command exactly when it has one of the five shapes, with no extra token |
| Commands.SetLength | src/protocol/parser.cpp:16-34 | a SET frame is at least five bytes longer than its key and value, which are non-empty and free of white space |
| Commands.TypedCommands | src/protocol/parser.cpp:16-106 | the five commands as typed, keyword and arguments one blank apart, parse to themselves for every key and value |
| Commands.OnlyBlanksSeparate | src/protocol/parser.cpp:8-34 | exactly six characters separate tokens: blank, tab, newline, vertical tab, form feed, carriage return |
| Commands.BlanksAreIgnored | src/protocol/parser.cpp:8-34 | any of them before or after a command changes nothing, so a line may end in a carriage return |
| Commands.TokenStream.Next | src/protocol/parser.cpp:12-25 | extraction yields the next token and leaves the later ones, and fails only when none is left |
| Commands.ParseCommand | src/protocol/parser.cpp:7-107 | the successive extractions with early returns compute the grammar |
| Store.DecimalDenotes | src/protocol/executor.cpp:39-42 | the text of a count denotes that count |
| Store.DecimalIsPlain | src/protocol/executor.cpp:39-42 | and it has no leading zero |
| Store.ExecuteCommand | src/protocol/executor.cpp:6-46 | each command changes the map and answers as the specification that `Answers` explains |
| Store.ServingKeepsBounded | src/protocol/parser.cpp:16-34 | a frame that fits the input limit keeps every stored pair short enough to have arrived in such a frame |
| Store.BoundedReply | src/server/connection.cpp:66-76 | from such a store every reply is one line, newline last and nowhere else, within the response allowance |
| Serial.RunAppend | src/server/client_handler.cpp:15-40 | executing frames in two portions is executing them in one |
| Serial.LogExtends | apps/server.cpp:58-161 | frames of one client executed back to back move the store and that client's part of the log as the naive program does, and leave every other client's part alone |
| Answers.LastWrittenIsLeft | src/store.cpp:4-20 | scanning the log from its end for a write of a key finds the value of the last SET with no DELETE or SET after it, or nothing |
| Answers.StoreIsWritten | src/store.cpp:4-16 | the store after a log holds exactly what those last writes left, for every key |
| Answers.BoundKeysAreLeft | src/store.cpp:4-20 | the bound keys are exactly those for which the log has such a last SET |
| Answers.StoreKeysAreBound | src/store.cpp:22-28 | its keys are exactly those whose last write is a SET |
| Answers.ReplyIsTold | src/protocol/executor.cpp:6-46 | the reply to every frame is what that scan says: the value or NOT_FOUND, OK or NOT_FOUND, 1 or 0, the number of bound keys, OK, or the parse error |
| Answers.GetTellsTheLastWrite | src/protocol/executor.cpp:13-23 | a GET is told the value of the last SET of its key with no DELETE since, and NOT_FOUND when there is none |
| Answers.RepliesAreTold | src/server/client_handler.cpp:23-40 | so is every reply of a log, client by client |
| ConnectionModel.AutomatonMeaning | include/tcp/server/connection.hpp:94-104 | paused means that the high-water mark was reached and the low-water mark has not been since |
| WorkTheorems.WorkExecutes | src/server/connection.cpp:50-78 | one run executes exactly the first frames of the buffer, in order, and queues their replies in order, leaving the remaining bytes intact; only a reply that does not fit is missing |
| WorkTheorems.OverflowIsOversized | src/server/connection.cpp:70-75 | a run that reports an overflow did so on a frame whose reply, on the store its predecessors left, exceeds the response allowance or the room left below the output cap |
| WorkTheorems.WorkStopsExactly | src/server/connection.cpp:43-84 | the number executed is the first index that hits the budget, the last complete frame or the high-water mark, and zero when paused |
| WorkTheorems.WorkIsExact | src/server/connection.cpp:43-84 | a run executes and answers k frames if and only if k is that first index |
| VisitTheorems.WorkIsSound | src/server/connection.cpp:36-92 | bytes received are always the executed frames, the bytes held and the discarded tail; bytes sent and held are always the replies |
| VisitTheorems.WorkStaysBounded | src/server/connection.cpp:70-77 | from a bounded store no reply overflows the response or the output limit, and the store stays bounded |
| VisitTheorems.WorkPressures | include/tcp/server/connection.hpp:94-104 | the pause automaton is fed the pending size after each reply of a run, and nothing else |
| VisitTheorems.ExecutedUnpaused | src/server/connection.cpp:52-77 | no frame of a run is executed while the automaton is paused |
| VisitTheorems.VisitPressures | apps/server.cpp:120-140 | through a whole visit, however it ends, the automaton sees the size on entry, after each reply and after a send that did not fail, and executes nothing while paused |
| VisitTheorems.VisitServes | apps/server.cpp:58-161 | a visit executes a run of frames for its own connection and does nothing else to the store |
| VisitTheorems.VisitKeepsSound | apps/server.cpp:58-161 | no visit, however the kernel behaves, loses, repeats or reorders a byte |
| VisitTheorems.VisitRests | apps/server.cpp:140-160 | a retained connection respects both thresholds and is neither stuck nor finished |
| VisitTheorems.VisitRuns | apps/server.cpp:230-238 | a visit to a connection that can run a command executes at least one, unless the event is a failure |
| VisitTheorems.VisitIdles | apps/server.cpp:230-244 | and, unless it reads, a visit to a connection that cannot run a command executes none and leaves the store alone |
| VisitTheorems.FailuresRetire | apps/server.cpp:63-80 | a socket error, a full hang-up and a failed receive each end the visit with their reason before anything is executed, and a visit that retains met no failure |
| VisitTheorems.RestedIsAwaited | apps/server.cpp:151-154 | a retained connection always has a command to run, room to read or bytes to send |
| VisitTheorems.HalfCloseDrainsExactly | apps/server.cpp:142-150 | a connection retired as drained executed every complete frame received, sent every reply and dropped only a tail without a newline |
| VisitTheorems.InputLimitIsExact | apps/server.cpp:121-125 | the input-limit verdict falls if and only if the bytes held and received fill the buffer without a newline, and if and only if that is what is left |
| VisitTheorems.LegalStreamIsNeverRejected | src/server/connection.cpp:86-90 | a stream whose frames fit the limit with their newlines never reaches that state, however it is delivered |
| VisitTheorems.DrainDecreases | apps/server.cpp:142-150 | after end of file each retaining visit that makes progress leaves fewer frames, or as many and fewer pending bytes |
| VisitTheorems.DrainingCompletes | apps/server.cpp:142-150 | after end of file a bounded number of progressing visits answers the client in full, although executing adds output and other clients change the store |
| VisitTheorems.VisitExtends | apps/server.cpp:58-161 | a visit takes back nothing that was received, executed, answered or sent |
| Connections.Connection.UpdateBackpressure | include/tcp/server/connection.hpp:94-104 | one step of the two-threshold automaton on the pending size |
| Connections.Connection.AppendInput | src/server/connection.cpp:16-34 | a chunk is admitted whole at the end of the held bytes, or refused with no visible change, exactly by the room left |
| Connections.Connection.TakeFrame | src/server/connection.cpp:54-62 | consumes the first frame with its newline by moving the cursor only, as taking it from an erased string would |
| Connections.Connection.HasRunnableInput | include/tcp/server/connection.hpp:76-85 | a complete frame follows the cursor and output is not paused |
| Connections.Connection.MayRead | include/tcp/server/connection.hpp:87-92 | the connection as a plain string may take at least one more byte, and no frame waits |
| Connections.Connection.ExecuteFrame | src/server/connection.cpp:54-77 | executes one frame and queues its reply, or reports that the reply does not fit with the execution standing |
| Connections.Connection.ExecuteBudget | src/server/connection.cpp:50-78 | the loop computes the run of `WorkTheorems` on the plain buffers |
| Connections.Connection.ProcessInput | src/server/connection.cpp:36-92 | admission, budgeted execution and the three verdicts together |
| Connections.Connection.FlushOutput | src/server/connection.cpp:94-136 | the kernel accepted, on this descriptor and no other, exactly the bytes by which the old suffix exceeds the remaining one, within 8 calls and 32768 bytes; it fails if and only if the kernel reported a failure, and no call follows a failure or an empty buffer of the kernel; drained exactly when both buffer and cursor are reset; progress is dated only by accepted bytes |
| Connections.Connection.SendSome | src/server/connection.cpp:99-117 | one call offers the first bytes not yet sent, up to 4096, on the own descriptor, and only what is accepted counts |
| Service.ReceiveChunk | apps/server.cpp:84-101 | one recv on the own descriptor for the room left, up to 4096 bytes; what it delivers always fits, so the admission check never fails |
| Service.ReceiveInput | apps/server.cpp:82-118 | reading goes on until a frame, a full buffer, a pause, end of file, an empty socket, an error or 16 calls, and no call follows one of the last four; every byte the kernel delivered is admitted, and end of file and failure are noted exactly when reported |
| Service.SettleVisit | apps/server.cpp:140-150 | the last backpressure update, and at end of file the tail is dropped only when no complete frame is left |
| Service.ServiceClient | apps/server.cpp:58-161 | one visit to the value of the connection and the store; the kernel moved exactly the bytes the connection accounts for and none on another descriptor; pending output is offered, every failure and every early stop of the visit is one the kernel reported, and the interest of a retained client is updated; progress is dated only by bytes moved |
| ServerModel.EveryRunKeepsInv | apps/server.cpp:219-346 | after every run the log explains the store and every connection, the store is bounded, registrations are exact and there are at most 128 clients |
| ServerModel.NobodyRunnableIsIdle | apps/server.cpp:242-244 | when no client is runnable, none would execute a frame if visited without reading, and each is registered for exactly what it waits for, and waits for something |
| ServerModel.ServeKeepsInv | apps/server.cpp:261-273 | serving one client keeps all of that for it and for every other client, retired or not |
| ServerModel.AdoptKeepsInv | apps/server.cpp:315-339 | so does taking in a new client |
| ServerModel.ExpireKeepsInv | apps/server.cpp:226-229 | so does retiring an idle one |
| Servers.Server.Bookkeeping | apps/server.cpp:282-339 | registered descriptors are exactly the listener and the clients, and clients never exceed the maximum |
| Servers.Server.RetireClient | apps/server.cpp:38-53 | the client, its descriptor and its registration are gone, even when removing the registration fails |
| Servers.Server.ExpireClient | apps/server.cpp:224-229 | an idle client is retired unserved as one step of the model, and no other client changes |
| Servers.Server.VisitClient | apps/server.cpp:261-273 | the same for a client of the server with its possible retirement: one step of the model, no other client changes, and the record of the visit is what the kernel reported |
| Servers.Server.CheckClient | apps/server.cpp:222-240 | an expired client is retired unserved; any other is served once if it can run a command and otherwise kept unserved: the actions taken are exactly that, and serving executes a command |
| Servers.Server.Sweep | apps/server.cpp:219-240 | the actions of a sweep give every client that verdict once, at some time of the sweep, and concern nobody else; so a client that survives made progress within the timeout, and an unexpired runnable one gains at least one log entry; the flag says whether anyone is still runnable |
| Servers.Server.NothingRunnableIsQuiescent | apps/server.cpp:242-244 | the same for the server object and the registrations the kernel holds |
| Servers.Server.WaitForEvent | apps/server.cpp:242-260 | the timeout the kernel is given is zero exactly when a client is runnable; otherwise the server is in that idle state; an event names a descriptor the loop knows |
| Servers.Server.Poll | apps/server.cpp:219-260 | one sweep with its verdicts, then one wait whose timeout is right for the state the sweep left |
| Servers.Server.AdoptClient | apps/server.cpp:315-339 | an accepted descriptor becomes a registered, non-blocking client whose idle time starts now, or is closed; it is refused only when the server is full or the kernel failed to configure or register it |
| Servers.Server.AcceptOne | apps/server.cpp:284-339 | a returned descriptor had no owner before, and ends up owned by the client map or closed |
| Servers.Server.AcceptClients | apps/server.cpp:281-345 | at least one and at most 64 accepts, none after the kernel reports the queue drained or fails for good, and none fewer otherwise; newcomers are dated within the round |
| Servers.Server.Dispatch | apps/server.cpp:258-345 | a client's event is exactly one visit with that event and no accept; the listener's is such a round of accepts, or a failure exactly when it is not plain readability |
| Servers.Server.Turn | apps/server.cpp:219-346 | one sweep with its verdicts, one wait that sleeps only if everyone is idle in the state of that moment, and at most one dispatched event, with the exit the wait calls for; clients adopted in the turn are dated within it, so none is expired before its timeout |
| Servers.Server.EventLoop | apps/server.cpp:219-346 | takes as many turns as asked, one wait each, unless it returns; it returns exactly when the last wait failed, the listener reported anything but plain readability, or an accept failed for good, and no earlier turn met any of these; it keeps the server in a state that a run reaches; the unknown-descriptor and duplicate-owner exits are never taken |
| Blocking.ReadMessage | src/protocol/framing.cpp:22-45 | yields the first frame of the buffered and deliverable bytes together, however they are chunked |
| Blocking.ReadMessages | src/server/client_handler.cpp:15-21 | reading until there is nothing yields exactly the frames of the stream |
| Blocking.SendAll | src/protocol/framing.cpp:47-69 | success means all bytes went out; failure means a proper prefix did, and needs a write that failed or took nothing |
| Blocking.HandleClient | src/server/client_handler.cpp:10-41 | the one-client server sends the replies to all complete frames, each on the store its predecessors left, or, only if a write fails, stops in the middle of a reply |
| Theorems.EveryRunIsSerial | apps/server.cpp:219-346 | for every run one log folds to the store, gives each connection the first complete frames it received in order, and gives as replies what was sent and is queued |
| Theorems.ServerIsSerial | apps/server.cpp:219-346 | for the server object: one log explains the store and, for each client, the bytes the kernel delivered on its descriptor and the bytes it accepted there with those still buffered |
| Theorems.OutputLimitIsUnreachable | include/tcp/server/connection.hpp:27-37 | in every run no connection is retired for its output, stored values are tokens of at most 65529 bytes and pending output stays within its cap |
| Theorems.InputLimitOnlyOnOverlongFrames | apps/server.cpp:121-125 | in every run a connection is retired for its input exactly when it holds a full buffer without a newline, so never on a legal stream |
| Theorems.DrainedClientsAreAnswered | apps/server.cpp:142-150 | in every run a drained client's part of the log is all its frames and what it was sent is all their replies |
| Theorems.DrainedOnTheWire | apps/server.cpp:142-150 | when a visit ends drained, the complete frames the kernel delivered on the descriptor are exactly those the log has, and the bytes it accepted are exactly all their replies |
| Theorems.DrainedClientMatchesNaive | src/server/client_handler.cpp:10-41 | a drained client whose frames were executed without others in between was sent what the one-client server sends for the same bytes and the store of that moment, whatever happened before and after |
| Theorems.NaiveServerSaysTheSame | src/server/client_handler.cpp:10-41 | the same with both programs side by side: unless a write fails `handle_client` succeeds, and what it sent is what the server sent |
| Theorems.OnlyClientMatchesNaive | src/server/client_handler.cpp:10-41 | when only one client had frames executed, its replies and the store are those of the one-client server from the start |
| Theorems.IsolationIsNaive | src/server/client_handler.cpp:10-41 | in any interleaving a client that keeps to keys nobody else writes, and does not count, gets the replies it would get alone on an empty store |
| Theorems.IsolatedClientIsServedAlone | apps/server.cpp:58-161 | at every point of every run such a client has been sent, and is still to be sent, what it would be alone for the frames executed so far |
| Theorems.IsolatedClientMatchesNaive | apps/server.cpp:142-150 | such a client, once drained, was sent what the naive program sends for its bytes alone, whatever the others did |
| Theorems.ClientReadsReplies | src/protocol/framing.cpp:22-45 | what a client can frame of the bytes sent so far is its first replies, whole and in order |
| Theorems.EveryClientReadsReplies | src/protocol/framing.cpp:22-45 | in every run, for every client there is or was, the messages it can frame are the first replies the log gives it, whole and in order |
| Theorems.EveryClientIsTold | apps/server.cpp:58-161 | in every run each client has been sent, and is still to be sent, what the last writes in the log before each of its frames say |
| Theorems.DrainedClientReadsAllReplies | src/protocol/framing.cpp:22-45 | a drained client reads one message for each complete frame it sent, with no bytes left over |
| Theorems.NobodyIsForgotten | apps/server.cpp:151-154 | in every run each client's registration is what it can read and must send, and one of these or a runnable command exists |
| Theorems.InterestFollowsHistory | include/tcp/server/connection.hpp:76-92 | in every run a client is read exactly while its stream is open, its output is not paused, all complete frames received are executed and the unfinished one still fits; it is registered for writing exactly while replies are unsent, and can run a command exactly while unpaused with a frame unexecuted |
| Theorems.PauseFollowsHistory | include/tcp/server/connection.hpp:94-104 | in every run a client is paused exactly as the history of its pending sizes says, and the thresholds bound its pending output |
| Theorems.RunsRemember | apps/server.cpp:219-346 | later points of a run extend the log and every client's history, and never alter a retired connection |
| Theorems.HalfClosedClientsGetDrained | apps/server.cpp:142-150 | in every run a half-closed client served often enough by visits that can send is retired as drained and answered in full, whatever is done for others in between |
| Theorems.ObligingVisitAdvances | apps/server.cpp:120-150 | on the server object: a visit in which the kernel reported no failure and its last send took something is one that theorem counts, so it drains the half-closed client or leaves it less to do |

## Left out

- Listener set-up, `getsockopt` diagnostics, errno decoding and logging: only the kinds of result are modelled.
- `EventPoller`, `socket.cpp` and `UniqueFd`: one kernel object holds the open descriptors and the registrations; closing a descriptor ends its registration.
- Which events epoll reports when: an event may carry any flags for any registered descriptor, so no claim depends on readiness being accurate and none says that readiness is ever reported.
- Delivery after a socket error, full hang-up, send failure, idle timeout or failed interest update: the server discards pending replies there by design.
- Delivery to the peer: bytes count as sent when the kernel accepts them.
- `execute_command`'s final "ERROR" for an unknown enumerator: the command type has only the five cases.
- Memory exhaustion, and more than 2^64 keys, which `size_t` could not count: the count wraps instead.
- Blocking.HandleClient: sockets are finite scripts of results, so runs in which interruptions never end are not modelled, nor is SIGPIPE.
- Servers.Server.EventLoop: runs for a given number of turns, each of which ends; the program's loop has no such number.
- Theorems.DrainedClientMatchesNaive: speaks of a client whose frames are contiguous in the log; an interleaved client is covered by `Theorems.IsolatedClientMatchesNaive` when nobody else writes its keys, and otherwise by the log itself, since its replies then depend on the other clients.
- VisitTheorems.DrainingCompletes: assumes that each visit with pending output sends at least one byte; nothing forces a peer to read.
- Theorems.HalfClosedClientsGetDrained: assumes that such visits do not fail, that each with pending output sends something, and that there are enough of them; when epoll reports an event is not modelled.
- The command-line client, the playground, benchmarks, build files and containers.
