# Verification of the TCP echo benchmark

This project models the protocols behind a TCP echo benchmark and proves that they hold in every
run: four interchangeable server back ends (`event-tester/epoll.c`, `iouring.c`, `threads.c` and
`upcall.c`), the user-space event library under the last of them (`libupcall/upcall.c`), the
load-generating client (`event-tester/tcp_client.c`), its lock-free log (`event-tester/tsc_logger.h`),
the per-thread buffer caches (`event-tester/tcp_echo.c`) and the scheduler ping-pong
(`scheduler_latency/tester.c`).

The kernel is an environment that does what it likes: it splits transfers, completes requests in any
order, reuses descriptors as soon as they are closed, and schedules threads step by step. Code that
only one thread runs is written as methods over the objects it updates. Protocols between threads are
state machines, one atomic access to shared memory per step, and their theorems are about the state
after any legal sequence of steps, for any number of threads. What a run has done is computed from its
steps, beside the state, and proved to be what the state says.

Check everything with `dafny verify dfyconfig.toml --resource-limit 2000000`.

## How it is organised

| file | what it models |
|---|---|
| `Wrappers.dfy` | what may be missing |
| `Echo.dfy` | the echo automaton of one connection: the reference that every back end refines |
| `Sockets.dfy`, `EchoServers.dfy` | the kernel's side of a socket; the connection code of the four back ends as loops and handlers |
| `IoUring.dfy` | all workers of `iouring.c` and the kernel as one state machine |
| `IoUringTokens.dfy`, `IoUringTable.dfy`, `IoUringTheorems.dfy` | its notification accounting, its invariant, its theorems |
| `IoUringRecords.dfy` | its request records (`info_cache`), computed beside a run |
| `IoUringWire.dfy`, `IoUringEvents.dfy` | the bytes on the wire, and the fate of each completion, told by the steps of a run |
| `IoUringWorker.dfy` | the completion loop of one worker as code whose atomic steps are steps of that machine |
| `EpollHandoff.dfy` | accept, push, notify, drain, install and close in `epoll.c`, for any number of workers |
| `EpollEvents.dfy` | the fate of each event, told by the steps of a run |
| `UpcallServer.dfy` | the connection table and outstanding requests of `upcall.c`, for any number of workers |
| `UpcallWays.dfy` | which way each connection goes, and the fate of each result, told by the steps of a run |
| `ClosedLoop.dfy` | the client and the upcall server joined by two byte pipes |
| `UpcallLib.dfy` | libupcall's queue, buffer pool and event loop |
| `BatchStats.dfy`, `Monitor.dfy` | libupcall's histograms, and the thread that watches and resets them |
| `Barriers.dfy` | the start barriers of the servers and of libupcall |
| `StartedServers.dfy` | the start barrier and either handoff joined, from the creation of the threads on |
| `TscLog.dfy` | concurrent reservation of log space, and one log as an object |
| `ClientTrace.dfy`, `TcpClient.dfy`, `ClientTheorems.dfy` | what a client logs, the worker of the client, and what its log holds and how long it is |
| `BufferCache.dfy` | the intrusive free lists, and all threads' caches together |
| `PingPong.dfy` | the two threads and two eventfds of the scheduler test |

What is history, that is, kept only to state a property, is a ghost field or is called so in a comment.
Where a promise of the code fails, the exact condition is proved: `UpcallLib.SetupReturnsNothing`
(a setup function that returns buffers), `UpcallLib.FirstIteration` (one that returns more than the
pool holds), `Monitor.DeltasCoherent` with `Monitor.ResetInsideIncrement` (a reset between the load and
the store of an increment), and `ClientTheorems.LogSizing` with `ClientTheorems.TrickleRun` (when the
client's log overflows, and a family of runs that do it).

The comment at `libupcall/upcall.c:430-435` calls the counters monotonically incremented; a reset
inside an increment also carries an old value over, which `Monitor.ResetInsideIncrement` shows, and the
model follows the code.

## Model

| member | source | states |
|---|---|---|
| `Echo.ApplyFaithful` | event-tester/threads.c:48-72 | a transfer of any size keeps the cursor below the message size, the output a prefix of the input, and what is between the two in the buffer |
| `Echo.RunFaithful` | event-tester/threads.c:47-74 | the same after any sequence of transfers |
| `Echo.IdleOutput` | event-tester/threads.c:47-74 | while a connection reads, its output is its input cut to whole messages, and the cursor is the rest |
| `Echo.BusyOutput` | event-tester/threads.c:62-72 | while it writes, its input is whole messages and its output ends inside the last one, at the cursor |
| `Echo.ChunkingIndependence` | event-tester/threads.c:47-74 | two runs that were sent the same bytes, however split, have echoed the same bytes once both are idle; more input never takes output back |
| `Sockets.Socket.Read` | event-tester/epoll.c:119-137 | the kernel moves some prefix of the pending bytes to the place asked for, or reports end, EAGAIN or an error and moves nothing |
| `Sockets.Socket.Write` | event-tester/epoll.c:144-156 | the kernel accepts some non-empty prefix of what is offered, or nothing |
| `EchoServers.BlockingRead` | event-tester/threads.c:48-60 | the read loop ends with a whole message read, or because its last call returned 0 or failed, with the cursor behind what was read |
| `EchoServers.BlockingWrite` | event-tester/threads.c:62-72 | the write loop ends with the whole message written, or because its last call returned 0 or failed |
| `EchoServers.ConnHandler` | event-tester/threads.c:47-74 | the blocking server performs a run of the echo automaton from a fresh connection, loses no byte, and stops only when the call it was in, a read or a write, returned 0 or failed |
| `EchoServers.EpollConn.OnRead` | event-tester/epoll.c:97-159 | one readiness event performs a run of the automaton from the connection's state; it ends with the socket dry and the cursor saved, or with the rest of one message read and all of it echoed, or closed because the last call returned 0; and never with a message half read and the cursor lost |
| `EchoServers.ServeEpoll` | event-tester/epoll.c:97-159 | over any sequence of events and answers the connection's life is one run of the automaton; every event is handled until one ends the connection, and each arriving byte is read or still pending |
| `EchoServers.UringConn.OnSockRead` | event-tester/iouring.c:275-293 | a completion advances the automaton by exactly the bytes read and the request it submits is the one the new state calls for; a result of 0 or less closes |
| `EchoServers.UringConn.OnSockWrite` | event-tester/iouring.c:321-339 | the same for writes |
| `EchoServers.Answer` | event-tester/iouring.c:275-339 | one answer of the kernel to the request in flight: the right next request, or the connection closed because of a result of 0 or less |
| `EchoServers.ServeUring` | event-tester/iouring.c:275-339 | the life of an io_uring connection is one run of the automaton, with exactly the right request in flight throughout; it ends closed by a result of 0 or less, or with all that the kernel had to say handled |
| `EchoServers.UpcallConn.MyRead` | event-tester/upcall.c:95-127 | a delivered buffer that fits is copied at the cursor and the next request is the one the automaton calls for; 0 closes, a negative result asks for nothing; the copy would leave the message buffer if and only if cursor + length exceeds the message size |
| `EchoServers.UpcallConn.MyWrite` | event-tester/upcall.c:69-93 | the same for writes |
| `ClosedLoop.InvStep` | event-tester/upcall.c:69-127 | each step of client, kernel or server keeps every byte in exactly one place and uses up work |
| `ClosedLoop.ReadFits` | event-tester/upcall.c:115-116 | what is delivered to `my_read` always fits behind the cursor, although nothing in the server checks it |
| `ClosedLoop.ClosedLoopSafe` | event-tester/tcp_client.c:303-351 | in every reachable state unsent + in either pipe + held by the server + received = message size, no copy overruns, and the client's buffer, overwritten by each echo, equals its message |
| `ClosedLoop.TransactionsCounted` | event-tester/tcp_client.c:331-351 | in every run the bytes of the send and receive steps are a whole message for each transaction counted and the part of the one under way; it reconnects after exactly `batch` transactions, and the server has read and written on the connection just what those on it call for |
| `ClosedLoop.RepliesRight` | event-tester/tcp_client.c:316-325 | what the client receives is its message, once for each transaction counted, and the beginning of the next |
| `ClosedLoop.Progress` | event-tester/tcp_client.c:141-181 | the composition never deadlocks: unless the client has finished some transfer can happen, and whatever can be transferred can be in any piece |
| `ClosedLoop.ClosedLoopCompletes` | event-tester/tcp_client.c:303-363 | every run has at most six steps per byte of every transaction, and one that cannot go on has finished all transactions, having sent and received |msg| * txns bytes by its own steps |
| `IoUringTokens.TokensStep` | event-tester/iouring.c:255-264 | each step keeps the accounts: pushed = drained + listed + in hand, and pushed = unsent + in flight + counter + unhandled + consumed notifications |
| `IoUringTokens.EvReadOutstanding` | event-tester/iouring.c:295-319 | in every interleaving EV_READs in flight or unhandled are exactly 1 + drained - processed, at least one outside the handler, and a list is covered by notifications still to come |
| `IoUringTokens.QuietMeansDrained` | event-tester/iouring.c:255-319 | no lost wakeup: when nothing can happen any more, every list is empty |
| `IoUringTable.InvStep` | event-tester/iouring.c:221-346 | every step of any worker or the kernel keeps the whole invariant: places, slots, requests, program counters |
| `IoUringTable.HeadSock` | event-tester/iouring.c:275-292 | a socket completion always finds a live slot of the worker's own, in the mode it was submitted in, and fits the buffer |
| `IoUringTheorems.ExactlyOnce` | event-tester/iouring.c:255-317 | an open connection is in exactly one of the completion queues, hands, lists, slots and closes of all workers, a closed one in none |
| `IoUringTheorems.TableSafety` | event-tester/iouring.c:97-108 | no NULL slot or out-of-range transfer is ever used; an occupied slot is an open descriptor installed by the worker its packets arrive at; one on its way has an empty slot |
| `IoUringTheorems.NoSuccessorCleared` | event-tester/iouring.c:97-108 | from clearing a slot to closing the descriptor it cannot be accepted again, and the close changes no slot |
| `IoUringTheorems.OneRequest` | event-tester/iouring.c:59-95 | a live connection has exactly one request, for exactly the rest of its buffer, in flight or completed and unhandled; a worker exactly one accept |
| `IoUringTheorems.EveryConnectionFaithful` | event-tester/iouring.c:275-339 | every live connection of a running server has echoed faithfully, by what its handlers take in and count as written |
| `IoUringWire.EchoedOnWire` | event-tester/iouring.c:275-339 | end to end, from the steps alone: on every live connection the bytes the kernel has taken, from where each completed request pointed, are a prefix of those it has delivered since the accept, and while the connection reads they are every whole message it has read |
| `IoUringEvents.CompletionsHandled` | event-tester/iouring.c:221-346 | no completion is lost, changed, repeated or taken out of order; each EV_READ leads to a drain to the end, each result of 0 or less to a close, each foreign connection to a push and a notification; all counts kept in the state are those of the steps |
| `IoUringEvents.HomesNamed` | event-tester/iouring.c:248-255 | an open connection belongs to, and is installed by, the worker that its accept named |
| `IoUringEvents.RequestFits` | event-tester/iouring.c:283-290 | a request in flight is a read or a write as the connection goes, at its cursor, for the rest of its buffer, and may get any result within that |
| `IoUringEvents.NobodyStuck` | event-tester/iouring.c:221-346 | a worker can go on unless it waits with an empty queue; accepts, notifications and EV_READs can complete in every way the kernel may choose |
| `IoUringTheorems.QuietMeansServed` | event-tester/iouring.c:255-319 | when the server falls quiet every open connection is installed at its owner with its request in flight |
| `IoUringRecords.RecordsStep` | event-tester/iouring.c:59-95 | each step of any worker or the kernel keeps a worker's request records exact: one for each request in flight, of its kind, one for each completion, in order, the others free |
| `IoUringRecords.RecordsLive` | event-tester/iouring.c:59-95 | in every run, however many records there are to begin with, each record is in exactly one place: the cache, one request in flight, or one completion that it describes |
| `IoUringRecords.FreesLive` | event-tester/iouring.c:227-228 | the record a completion brings back is not free already and belongs to no other request or completion, so each is freed exactly once |
| `IoUringWorker.Server.Drain` | event-tester/iouring.c:295-317 | the drain loop, with others pushing meanwhile, performs steps of the machine, empties the list, and installs and re-arms at least once for each connection it found |
| `IoUringWorker.Server.Handle` | event-tester/iouring.c:221-345 | one completion through the switch is a run of the machine that ends at the loop again |
| `IoUringWorker.Server.WorkerFunc` | event-tester/iouring.c:211-348 | the loop goes on until every turn of the others has been had and all that it brought is handled, and the run it makes is its own steps between exactly those turns; at each point of it nothing has crashed, and if the worker waits there one accept and at least one EV_READ are in flight, and its list is empty unless a notification is still to come |
| `EpollHandoff.PlaceStep` | event-tester/epoll.c:84-93 | each step moves a connection from one place to one other, or in or out |
| `EpollHandoff.ExactlyOnce` | event-tester/epoll.c:60-95 | in every interleaving an open connection is in exactly one place, a closed one in none, and only the worker it was accepted for lists, holds or installs it |
| `EpollEvents.EventsHandled` | event-tester/epoll.c:295-338 | from the steps alone: events are handled once each in the order reported; a listen event leads to accepting until nothing is left, a wakeup to draining to the end, the end of a connection to its close; each accept to a push and a notification of the owner it named; the eventfd holds the notifications since the last wakeup |
| `EpollEvents.OwnersNamed` | event-tester/epoll.c:79-84 | an open connection belongs to the worker that its last accept named |
| `EpollEvents.NobodyStuck` | event-tester/epoll.c:295-338 | every worker always has a step to take, and epoll_wait, reads and accept4 may return what they like |
| `EpollHandoff.EventsLive` | event-tester/epoll.c:295-318 | each event of a batch is handled on an open connection of the worker's own; a wakeup finds the eventfd positive; a cleared slot is nobody's until the close |
| `EpollHandoff.NoLostWakeup` | event-tester/epoll.c:324-338 | a worker with a non-empty list that is not draining it, wherever it is, has a positive eventfd or somebody is about to notify it; in epoll_wait its wakeup can then be reported |
| `EpollHandoff.QuietMeansInstalled` | event-tester/epoll.c:162-192 | when all workers wait with nothing to report, every open connection is installed at its owner |
| `UpcallServer.TableSafety` | event-tester/upcall.c:196-211 | a transfer result finds a slot filled by the same worker; a slot belongs to an open descriptor; one accepted and not installed, or cleared and not closed, has an empty slot |
| `UpcallServer.OneRequest` | event-tester/upcall.c:37-127 | a live connection has exactly one request queued, submitted or delivered, none after a negative result; each worker has exactly one accept; no batch has two results for one connection |
| `UpcallWays.Alternates` | event-tester/upcall.c:69-126 | the one request goes the right way in every run: a read from the installation on, turned by each handled transfer that completes a message; nothing of the connection goes the other way anywhere |
| `UpcallWays.ResultsHandled` | event-tester/upcall.c:37-127 | results are handled once each, unchanged and in order; requests are submitted once each, in order; each result of 0 leads to a close |
| `UpcallWays.NobodyStuck` | event-tester/upcall.c:37-67 | a worker can always go on, and its accept is queued, answered, or with the kernel, which can complete it with any free descriptor or refuse it |
| `UpcallWays.AnyResult` | event-tester/upcall.c:69-126 | the request of a live connection is queued, answered, or with the kernel, which can give it any result |
| `UpcallLib.Worker.ExpandQueue` | libupcall/upcall.c:89-97 | growing the queue keeps every queued event |
| `UpcallLib.Worker.Append` | libupcall/upcall.c:173-220 | queueing appends exactly one event, whether or not the queue had to grow |
| `UpcallLib.Worker.ReturnBuffer` | libupcall/upcall.c:111-124 | a returned buffer is appended to the pool; without growth only that slot of the array changes, with growth the old array is left as it was |
| `UpcallLib.Worker.constructor` | libupcall/upcall.c:126-164 | setup queues one UP_VEC for the whole pool, by reference, and resets the count |
| `UpcallLib.Worker.QueuePool` | libupcall/upcall.c:240-241 | the queue then gives the kernel exactly the waiting buffers and those in the pool |
| `UpcallLib.Worker.SubmitQueue` | libupcall/upcall.c:257-281 | everything queued reaches the kernel in order, once, and no buffer is lost or duplicated on the way out and back |
| `UpcallLib.Worker.Dispatch` | libupcall/upcall.c:282-291 | after dispatch the queue is exactly what the callbacks of the batch asked for, in order, and the pool exactly what they returned |
| `UpcallLib.AskedEach` | libupcall/upcall.c:282-291 | what a completion's callback asks for stands behind what those before it asked for; a completion without one asks for nothing |
| `UpcallLib.Worker.Run` | libupcall/upcall.c:239-293 | over any number of iterations each buffer is with the kernel, in the pool or with a callback, as often as at the start; every batch the kernel delivered is dispatched, and callbacks hold exactly what the batches brought and they did not return; the events submitted or waiting are, in order and once each, those queued before and then, iteration by iteration, the UP_VEC for the buffers just returned and what the callbacks of the batch asked for |
| `UpcallLib.WorkerMain` | libupcall/upcall.c:327-352 | the same from setup on: the events are the pool's UP_VEC, those the setup function asked for, and those of each iteration; callbacks hold what was delivered and not returned; setup returns no buffer here |
| `UpcallLib.FirstIteration` | libupcall/upcall.c:159-164 | what the first submit gives the kernel if the setup function queues events and returns buffers: the array has been overwritten and is named twice; the queued pointer dangles if and only if more buffers are returned than the pool has slots |
| `UpcallLib.SetupReturnsNothing` | libupcall/upcall.c:159-164 | the kernel then gets each buffer once if and only if setup returned none, for any number returned |
| `UpcallLib.BackFits` | libupcall/upcall.c:282-291 | callbacks cannot return more than their batch delivered |
| `UpcallLib.BackComplete` | event-tester/upcall.c:115-117 | if every callback returns its buffer, all that a batch brought goes back |
| `BatchStats.Log2` | libupcall/upcall.c:249-250 | the bucket index b of a positive sample d has 2^b <= d < 2^(b+1) |
| `BatchStats.BucketUnique` | libupcall/upcall.c:252-254 | a sample is counted in bucket b if and only if it lies in b's range, the last bucket taking all beyond it |
| `BatchStats.LayoutExact` | libupcall/upcall.c:553-560 | a slot in numbers: one bucket for each batch size from 0 to the number of buffers, 40 and 40 for the times, padded to a cache line and no further |
| `BatchStats.SlotsApart` | libupcall/upcall.c:553-560 | slots of different workers do not overlap, start on cache lines, and lie in the array |
| `BatchStats.Worker.Iteration` | libupcall/upcall.c:246-278 | an iteration keeps the counts conserved and writes exactly the cells of its samples |
| `BatchStats.IterationConserves` | libupcall/upcall.c:246-278 | it adds one submit and keeps submits = sum of batches = sum of ktimes = sum of utimes + 1 (0 before the first) |
| `BatchStats.Iterated` | libupcall/upcall.c:246-278 | no cell outside the worker's slot changes |
| `BatchStats.Worker.BeforeSubmit` | libupcall/upcall.c:246-255 | before the first submit nothing is counted; after that one sample in the right bucket |
| `BatchStats.Worker.AfterSubmit` | libupcall/upcall.c:263-278 | exactly three cells go up by one |
| `BatchStats.OthersConserved` | libupcall/upcall.c:168-170 | one worker's iteration leaves every other worker's conservation true |
| `BatchStats.RunConserved` | libupcall/upcall.c:239-293 | over any run of any workers on one zeroed array, each stopped in its submit while others go on: every slot counts its worker's submits, every bucket exactly its samples, and the counts of a worker not in a submit are conserved |
| `Monitor.DeltasCoherent` | libupcall/upcall.c:490-513 | in every interleaving with a split increment and a split reset no delta wraps; printed + arrived between print and copy + not yet copied = counter; and the counter equals the increments since the last reset if and only if that reset did not fall between the load and the store of an increment that had loaded more than 0 and has stored since, else it is too high by the value loaded |
| `Monitor.HistoryTrue` | libupcall/upcall.c:490-513 | increments, the value in hand, where the last reset fell, and what was printed, all told by the steps, are what the state holds |
| `Monitor.CounterExact` | libupcall/upcall.c:490-513 | so the counter is the loads and stores since the last reset, plus what that reset let through |
| `Monitor.InTurn` | libupcall/upcall.c:490-513 | the worker and the monitor can always go on, and only in turn: print, copy, then reset the counter and then its copy, or not |
| `Monitor.ResetInsideIncrement` | libupcall/upcall.c:380-382 | that happens: a reachable state where one increment after a reset leaves the counter at 2 |
| `HangBarrier.LoopAfterSetup` | event-tester/epoll.c:283-289 | a worker in its event loop implies that every worker has published itself and finished setup |
| `HangBarrier.NoDeadlock` | event-tester/iouring.c:387-392 | in every reachable state, unless all are through, some thread can move without a spurious wakeup, and come closer to the end |
| `HangBarrier.Bounded` | event-tester/epoll.c:383-392 | every run is at most 24 steps for each worker, 5 for main and 3 for each spurious wakeup: nobody spins, so the barrier opens |
| `StartedServers.RunsOfBoth` | event-tester/epoll.c:199-291 | the whole server, from creating its threads on, reaches no state of the barrier or of the handoff that these do not reach by themselves, so what is proved of either holds of it |
| `StartedServers.OwnerSet` | event-tester/epoll.c:84-91 | whenever a worker has a connection to hand over or an owner to notify, in either server, `threads[owner]` has been set |
| `StartedServers.NeverNull` | event-tester/iouring.c:255-264 | no run, however early the first worker begins to accept, goes through a `threads[]` entry that is not set |
| `GoBarrier.LoopAfterGo` | libupcall/upcall.c:338-344 | a libupcall worker in its loop implies that `upcall_workers_go` was called and all setups had finished |
| `GoBarrier.NoDeadlock` | libupcall/upcall.c:596-610 | no wakeup of main or of a worker is lost: unless all are through some thread can move without a spurious one, and come closer to the end |
| `GoBarrier.Bounded` | libupcall/upcall.c:338-344 | every run is at most 27 steps for each worker, 8 for main and 7 for each spurious wakeup |
| `TscLog.InvStep` | event-tester/tsc_logger.h:88-101 | each load, compare-and-swap and flag write keeps granted ranges tiling the log from its start to `cur` |
| `TscLog.GrantsDisjoint` | event-tester/tsc_logger.h:88-101 | in every interleaving granted ranges are disjoint, leave no gap and never pass the end |
| `TscLog.CasFailsIffOvertaken` | event-tester/tsc_logger.h:95-99 | a compare-and-swap fails if and only if somebody else was granted a range since this thread's load |
| `TscLog.FailuresBounded` | event-tester/tsc_logger.h:92-99 | failures, past and already inevitable, are at most threads - 1 for each grant |
| `TscLog.RequestsAnswered` | event-tester/tsc_logger.h:107-116 | from the steps alone: a swap wins exactly if nobody has won since its thread's last load, and takes the bytes asked for; a thread's requests are its grants, its refusals and the one it waits for; the overflow flag is set if and only if somebody was refused |
| `TscLog.Moves` | event-tester/tsc_logger.h:88-101 | a thread whose request is unanswered can always go on, and any other can ask |
| `TscLog.RecordsInOrder` | event-tester/tsc_logger.h:107-116 | with one entry size the k-th grant is the k-th record, and a set overflow flag means there is no room and no pending swap succeeds |
| `TscLog.OverflowPermanent` | event-tester/tsc_logger.h:107-116 | after overflow nothing is granted in any continuation |
| `TscLog.Log.constructor` | event-tester/tcp_client.c:412-426 | the aligned header and all entries lie inside the allocation |
| `TscLog.Log.TscBufferReserve` | event-tester/tsc_logger.h:88-101 | the retry loop fails only when there is no room, takes the range where `cur` then is, and loses only to rivals that took something |
| `TscLog.Log.Tsclog4` | event-tester/tsc_logger.h:156-163 | a record is stored behind the others, or dropped with the flag set exactly when the log is full |
| `TscLog.Log.Dump` | event-tester/tcp_client.c:920-928 | the walk ends at `cur`, having visited each stored record once, in order |
| `ClientTrace.TraceGrammar` | event-tester/tcp_client.c:202-363 | transaction t stands right behind the first t: a connect pair when t is a multiple of the batch, a send pair, its receive pairs |
| `ClientTrace.TraceLength` | event-tester/tcp_client.c:723-747 | exact length of a client's log: two per connection, ceil(txns / batch) of them, two per send, two per receive wakeup |
| `ClientTrace.LengthBound` | event-tester/tcp_client.c:202-363 | in no phase is a client's log longer than that of a finished client woken as often |
| `TcpClient.ClientRecv` | event-tester/tcp_client.c:159-181 | receives all there is up to the length asked for, however it is split |
| `TcpClient.OfferedSum` | event-tester/tcp_client.c:159-181 | what there is to receive is the sum of the pieces, however it is split |
| `TcpClient.Moved` | event-tester/tcp_client.c:202-363 | what one transition call does: a client rests connecting, awaiting a reply, or done, and loses one transaction exactly if it completed one |
| `TcpClient.Worker.DoStateTransition` | event-tester/tcp_client.c:202-370 | the recursion terminates, does exactly that to its client and nothing to others, keeps every client's fields in step with its log, and returns 1 exactly if a transaction completed |
| `TcpClient.Worker.ReceiveReply` | event-tester/tcp_client.c:316-351 | a receive wakeup is logged once; a whole reply ends the transaction and picks done, reconnect or next request |
| `TcpClient.Worker.Run` | event-tester/tcp_client.c:473-501 | the final clients, and the receive wakeups of each, are the fold of the transition over the starts and the rounds reported; the loop stops at the first round after which all transactions are complete or `dying` is set, and its count reaches the total if and only if every client is done |
| `TcpClient.FinishedAll` | event-tester/tcp_client.c:482-500 | the count reaches the total if and only if every client is done |
| `ClientTheorems.FinishedLog` | event-tester/tcp_client.c:211-363 | a finished client's part of the log is transactions 0 to txns - 1 in order, each with at least one receive pair |
| `ClientTheorems.BatchRemaining` | event-tester/tcp_client.c:341-350 | while connected `batch_remaining` is between 1 and the batch size, and is what is left of the batch |
| `ClientTheorems.LogSizing` | event-tester/tcp_client.c:723-759 | at most (16 * min_io - 1) receive wakeups per transaction never overflow the log; a finished run overflowed if and only if its exact number of entries exceeds the room |
| `ClientTheorems.ReceivedRounds` | event-tester/tcp_client.c:495-498 | the receive wakeups of a run are exactly those epoll reported for clients that were awaiting a reply |
| `ClientTheorems.BytesReceived` | event-tester/tcp_client.c:316-351 | the bytes a run brings a client are a whole message for each transaction it counts as finished, and its cursor |
| `ClientTheorems.TrickleOverflows` | event-tester/tcp_client.c:723-759 | one client with one transaction whose reply arrives a byte at a time makes more entries than there is room for if and only if the message is longer than 30 bytes |
| `ClientTheorems.TrickleRun` | event-tester/tcp_client.c:473-501 | that run through the worker's own loop ends with the client done, and with an overflowed log if and only if the message is longer than 30 bytes |
| `BufferCache.Cache.CacheAlloc` | event-tester/tcp_echo.c:94-112 | takes the oldest free entry or a new one, unlinked and zeroed, and keeps the list well linked |
| `BufferCache.Cache.CacheFree` | event-tester/tcp_echo.c:114-130 | appends the entry; that the list still ends there rests on the entry being unlinked |
| `BufferCache.Cache.constructor` | event-tester/tcp_echo.c:76-92 | the initial list holds as many distinct entries as asked for |
| `BufferCache.ApartTaken` | event-tester/tcp_echo.c:94-112 | taking an entry keeps queues and use apart, keeps free + live = allocated, and never takes one in use |
| `BufferCache.ApartGiven` | event-tester/tcp_echo.c:114-130 | giving one back does too, whichever thread's cache it goes to |
| `BufferCache.Caches.Take` | event-tester/tcp_echo.c:94-112 | over the heap, with any number of threads' caches: no entry is handed out twice while live, and every live entry stays unlinked |
| `BufferCache.Caches.Give` | event-tester/tcp_echo.c:114-130 | the same for returning, which needs only that the entry is live |
| `PingPong.TurnStep` | scheduler_latency/tester.c:66-92 | the hand-off is strict: the step count alone says whose turn it is, what both counters are and how long both logs are |
| `PingPong.NoDeadlock` | scheduler_latency/tester.c:59-95 | counters never exceed 1, no log overflows, and until 8 * count steps exactly one thread can move |
| `PingPong.LogsPair` | scheduler_latency/tester.c:28-95 | both logs end with exactly 2 * count entries, entry by entry a WRITE and the READ it caused, no earlier |
| `PingPong.LogTimes` | scheduler_latency/tester.c:59-95 | each entry carries the time of the step that logged it, and which step that is is known, so the i-th latency is the time of the steps between the i-th WRITE and its READ |
| `PingPong.WriteTimes` | scheduler_latency/tester.c:149-162 | the pairing loop computes for each pair the time from the WRITE to its READ; no subtraction wraps |

## Left out

- Socket setup, address lookup, argument parsing, thread affinity, perf counters, statistics sockets, CSV text, plotting and shell scripts: plumbing without state of its own.
- Fatal paths (`exit`, `set_dying`, failed allocation, a full submission queue, an eventfd at its maximum): assumed not to happen.
- Machine width: addresses, counters, sizes and time stamps are unbounded, except in the subtraction of `PingPong.WriteTimes`; a log or a counter that wraps is not modelled, nor is a `max_events` product that does.
- The EPOLLERR/EPOLLHUP branch at `event-tester/epoll.c:297-305`, which closes and then reads a cleared slot.
- The server closing first, which makes `client_recv` spin, and the fact that a connect which succeeds at once never registers EPOLLIN: the log of that path is modelled, its waiting is not.
- `conn_count` in iouring.c, which is incremented per echo as well as per close, and the other per-thread counters; `alloc_cpu` in the caches, which only feeds a disabled message.
- IoUringRecords.Alloc: a record is a number; that the memory behind the numbers is apart is what `BufferCache` proves. The buffer a record names for freeing (`to_free`) is not modelled.
- IoUring.InstallHand: requests are in flight as soon as they are queued, not from the next submit on; this allows the kernel more orders than it has. The lock of a list is modelled by making each critical section one step.
- IoUring.OnAccept: filling a slot, zeroing the buffer and queueing the first read are one step, because no other worker touches them before the descriptor is closed.
- EpollHandoff.Next: the bytes of a connection are left to `EchoServers`; clearing a slot and removing it from the epoll set are one step, since the worker is not in epoll_wait.
- UpcallServer.Next: bytes are left to `EchoServers` and `ClosedLoop`; that `full` is chosen freely allows more than the code does.
- EchoServers.UpcallConn.MyRead: what a copy past the end of the message buffer destroys is not modelled, only when it happens; `ClosedLoop.ReadFits` proves that in the composition it never does. Returning the pool buffer is in `UpcallLib`.
- ClosedLoop.Completed: on a reconnect the pipes and the server's old connection vanish at once, and accepting the new one is not a step of its own. The kernel delivers at most one message's worth to a pool buffer.
- UpcallLib.Kernel.Submit: the kernel is a script that attaches a buffer it holds when told to; the delivered array is a value. Callbacks return only the buffer of their own event and the length they were given. Reusing a queue slot keeps stale fields for accepts and closes, as the code does.
- UpcallLib.FirstIteration: what the kernel would read through the dangling pointer is not modelled, only when there is one.
- UpcallLib.Worker.AddClose: the close is queued and submitted in order; what the kernel does with it, and freeing arrays that have been outgrown, is not modelled.
- Monitor.Next: one counter at a time, since cells do not interact; the dump command only reads.
- Barriers: error returns of `upcall_init`, and calling `upcall_workers_go` before `upcall_init` has returned, which its documentation rules out.
- TscLog.Log.TscBufferReserve: what rivals take is one amount per window; the state machine in the same module has the full interleaving.
- TcpClient.Worker.Run: epoll reports what a finite script says, and `dying` reads what another one says; the ten-second timeout and the final cleanup are not modelled. The order in which time stamps are read and log space is reserved does not matter with one log per worker.
- BufferCache: pointer arithmetic between a buffer and its header is a field of one object; freeing an entry that is not live is excluded by a precondition, as the code relies on.
