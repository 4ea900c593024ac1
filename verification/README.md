# Boost.Asio recipes: a verified model of the concurrent and stream protocols

This project models the protocols behind a set of Boost.Asio recipes and proves what
they guarantee over every schedule. Three groups are covered.

- **The asynchronous, cancellable client** (`src/ch03/04_Async_tcp_client_mt.cpp`; the
  single-threaded `src/ch03/03_Async_tcp_client.cpp` is the instance `ioThreads == 1`).
  `ClientModel` is a step system: every lock acquisition, shared access, initiation and
  callback is a step, and a run is any interleaving of I/O threads, user threads and
  the network. `ClientInvariant` proves its inductive invariant by rely and guarantee.
  `ClientSafety`, `ClientResults`, `ClientCancel`, `RequestTable`, `ClientProgress` and
  `ClientTermination` draw the results: outcomes in terms of what the network answered,
  what a cancellation does, races and lifetimes, refinement of an atomic request table, an
  exact deadlock characterisation (`ClientDeadlock`), and draining. `AsyncTcpClient` holds
  the classes with the fields the source updates in place; each method is proved to make
  exactly the step system's step.
- **The three servers** (`src/ch04`). `Connections` says what happens to one connection
  and proves that any drained side-by-side run can be sorted, by exchanging
  neighbouring steps of different connections, into a run of the iterative server.
  `AsyncServerModel`, `AsyncServerInvariant` and `AsyncServerSafety` treat the accept
  chain and the self-deleting services, `AsyncServerResults` what they do with the
  network's results, and `AsyncServerProgress` stopping; `AsyncTcpServer` holds the classes;
  `SyncServers` treats the iterative and the thread-per-client server.
- **Byte streams** (`src/ch02`, `src/ch03/01_Sync_tcp_client.cpp`). `Sockets` and
  `CallbackChains` hold the partial read and write loops and their callback-chained
  forms, `SyncTcpClient` the lock-step client, `HalfClose` the exchange delimited by
  half-closes (section 3.6 of RFC 9293), and `Text` the request format.
  `EndToEnd` composes the asynchronous client with connections that make a server's moves,
  and `ClientAndServer` joins it with the whole asynchronous server. `ClientWitness` and
  `JointWitness` hold runs that show an abort and a success to be possible.

## Reading the model

- *Locks.* `mapGuard` is `m_active_sessions_guard` and `cancelGuard` a session's
  `m_cancel_guard`. A step that acquires a lock is enabled only when it is free.
- *Asio.* An initiated operation completes at any time with any result, except that it
  reports `operation_aborted` only after `cancel()` was called on its socket while it
  was in flight, and a successful `read_until` delivers the delimiter. `run()` returns
  when no work is left (client) or after `stop()` (server). `write_some` and
  `read_some` move at least one byte or fail. A handler starts on any idle pool thread.
- *Use of the client.* Submissions have returned when `close()` begins and none starts
  later; `close()` is called once; callbacks do not call back into the client and do not
  throw. Cancellation is unrestricted, also during `close()`. Ids may be reused freely,
  except where a statement mentions `FreshRuns` or `FreshId`.
- *Numbers.* Ids and serial numbers are natural numbers: the conversion of the unsigned
  id to the map's `int` key is one to one. The pool's `unsigned char` counter is
  modelled with its wrap-around. Durations are arbitrary naturals, which includes every
  `unsigned int`.
- *History.* `trail`, `finds`, `erased`, `deletes`, `closes`, `accepted`, `createdLate`,
  `conn` and a socket's `failed` record what has happened; no step of the programs depends on
  them.

## Where code and documentation differ

- The documented keyword is `EMULATE_LONG_COMP_OP` (`src/ch03/Readme.org:9`). Both
  asynchronous clients send `EMULATE_LONG_CALC_OP`; the model follows the code and the
  statements about the request format hold for any keyword without a newline.
- The comments of `src/ch02/05_Reading_from_TCP_socket_sync.cpp:47` speak of a newline
  where the code reads up to `|`; the delimiter is a parameter here.

## What is false of the code, and exactly when it holds

- *The client is free of deadlock.* No: two `cancelRequest` calls for one id can lock out
  the request's handler for good (`DeadlockHappens`, `DeadlockIsForever`). It holds exactly
  for users that pass no id to `cancelRequest` twice (`DeadlockFreeExactly`).
- *Submit, cancel and complete act like one table of requests.* Exactly on the runs that
  never insert an active id (`RefinesExactly`). That such a run is not one of the table is
  by the table's definition of an insert; what really breaks is shown by `ReusedIdHides`
  and `ListedExactly`: the earlier request is then out of reach of `cancelRequest`. That
  calls and completions each act once (`EachCallOnce`, `EachRemovalOnce`) needs no fresh ids.
- *`close()` drains the client.* Exactly with at least one I/O thread
  (`DrainsExactly`); and the pool's construction ends exactly for fewer than 255
  (`PoolLoopEnds`).
- *A client that drops its buffer after each line loses nothing.* Exactly if the peer's
  answer is one line and nothing else (`LockStepExactly`).
- *The half-closed exchange can finish.* Exactly if every non-empty message has a channel
  with room for a byte (`FinishesExactly`).

## Model

| member | source | states |
|---|---|---|
| `ClientAndServer.SuccessMeansServed` | src/ch03/04_Async_tcp_client_mt.cpp:88-116 | For the asynchronous client joined with the asynchronous server, any thread counts, chunks, interleavings, cancellations and errors: a callback told of success means exactly one service read exactly the complete request, and the response is exactly "Response" |
| `EndToEnd.SuccessMeansAnswered` | src/ch03/04_Async_tcp_client_mt.cpp:88-116 | In any run of clients, network and connections that make a server's moves, a callback told of success means the connection read exactly the complete request line and the response is exactly "Response" |
| `ClientAndServer.RunsProject` | src/ch04/03_Async_parallel_tcp_server.cpp:12-141 | Every run of the asynchronous client and the asynchronous server together is a run of `EndToEnd` with the services' connections as the links' ends |
| `ClientAndServer.ServeProjects` | src/ch04/03_Async_parallel_tcp_server.cpp:12-46 | A step of the asynchronous server is at most one move of one link, and it reads and reports what that link's streams have carried |
| `ClientAndServer.ReadByService` | src/ch04/03_Async_parallel_tcp_server.cpp:20-28 | What a session's connection has read is the request string of one live or deleted service, shared with no other session |
| `EndToEnd.InvStep` | src/ch03/04_Async_tcp_client_mt.cpp:73-118 | Every client step, network chunk and server move keeps: streams are FIFO, replies start only after the request line, and a session that has read holds the first line of what reached it |
| `EndToEnd.WholeRequest` | src/ch04/03_Async_parallel_tcp_server.cpp:13-16 | A prefix of a request that contains a newline is the whole request |
| `EndToEnd.WholeReply` | src/ch04/03_Async_parallel_tcp_server.cpp:59-60 | A prefix of the reply that contains a newline is the whole reply, and its line is "Response" |
| `JointWitness.SuccessHappens` | src/ch03/04_Async_tcp_client_mt.cpp:58-171 | Such success is possible: a run of client and server together ends with the callback told success and given "Response" |
| `ClientRefinement.ClientRefinesTable` | src/ch03/04_Async_tcp_client_mt.cpp:58-171 | Any interleaving with fresh ids performs its calls and completions as atomic operations on a request table: each thread's submissions and cancellations are carried out once each, in order, within the call; each session is closed by one removal; every callback reports the result the table fixed |
| `ClientRefinement.EachCallOnce` | src/ch03/04_Async_tcp_client_mt.cpp:122-132 | In any run, also with reused ids, the calls a thread makes are the inserts, marks and misses it performs, in the same order, plus at most one call still open |
| `ClientRefinement.EachRemovalOnce` | src/ch03/04_Async_tcp_client_mt.cpp:153-160 | In any run, also with reused ids, a session is removed at most once, and exactly when its completion passes the erase |
| `ClientRefinement.ReportedIsFixed` | src/ch03/04_Async_tcp_client_mt.cpp:162-170 | A callback reports the result its removal fixed in the table |
| `ClientRefinement.RefinesExactly` | src/ch03/04_Async_tcp_client_mt.cpp:70 | A run is a run of the request table if and only if it never inserts an id that is active |
| `ClientRefinement.RefineAction` | src/ch03/04_Async_tcp_client_mt.cpp:122-171 | One micro-step is no operation or one operation of the table, linearised at the insert, the flag write and the erase |
| `ClientRefinement.ListedExactly` | src/ch03/04_Async_tcp_client_mt.cpp:68-71 | A step keeps every inserted unfinished request in the map under its id if and only if it does not insert an active id |
| `ClientRefinement.ReusedIdHides` | src/ch03/04_Async_tcp_client_mt.cpp:70 | Inserting an active id takes an unfinished request out of the reach of cancelRequest |
| `ClientProgress.CloseDrains` | src/ch03/04_Async_tcp_client_mt.cpp:134-144 | When close() has returned, every submitted callback has run exactly once and the map and the operations are empty, whatever ids were used |
| `ClientProgress.DrainsExactly` | src/ch03/04_Async_tcp_client_mt.cpp:44-50 | close() returning implies that all callbacks have run if and only if the client has an I/O thread |
| `ClientProgress.CloseFreesSessions` | src/ch03/04_Async_tcp_client_mt.cpp:134-144 | When close() has returned, no shared_ptr to any session is left |
| `ClientProgress.DrainedMeansDone` | src/ch03/04_Async_tcp_client_mt.cpp:134-144 | Once no work, operation or handler is left, every callback has run once and the map is empty |
| `ClientProgress.StuckExactly` | src/ch03/04_Async_tcp_client_mt.cpp:80-132 | A state in which nothing moves without a new user call is at rest, or else some cancelRequest and some handler of one session wait for each other; never both |
| `ClientProgress.BlockedMeansDeadlock` | src/ch03/04_Async_tcp_client_mt.cpp:122-132 | In a stuck state any blocked thread implies such a pair |
| `ClientProgress.DeadlockTakesTwo` | src/ch03/04_Async_tcp_client_mt.cpp:122-132 | The waiting cancelRequest is at least the second that found its session |
| `ClientProgress.DeadlockIsForever` | src/ch03/04_Async_tcp_client_mt.cpp:153-160 | No action whatever releases a deadlocked pair |
| `ClientDeadlock.DeadlockFreeExactly` | src/ch03/04_Async_tcp_client_mt.cpp:80-160 | Runs in which each id is passed to cancelRequest at most k times are free of deadlock if and only if k is at most 1 |
| `ClientDeadlock.DeadlockHappens` | src/ch03/04_Async_tcp_client_mt.cpp:80-103 | A run of one I/O thread with two cancelRequest calls for one id ends in the deadlock |
| `ClientDeadlock.NoDeadlock` | src/ch03/04_Async_tcp_client_mt.cpp:122-160 | With at most one cancelRequest call per id, whatever ids are reused, no run deadlocks |
| `ClientDeadlock.FoundByCalls` | src/ch03/04_Async_tcp_client_mt.cpp:122-126 | In any run a session is found at most as often as the user called cancelRequest with its id |
| `ClientTermination.CloseAlwaysReturns` | src/ch03/04_Async_tcp_client_mt.cpp:134-144 | Once close() runs, every schedule is finite, with an explicit bound that grows by eight per cancelRequest call; and unless an id was passed to cancelRequest twice, one that can go no further ends with close() returned, every callback run once and the map empty |
| `ClientTermination.RunsAreFinite` | src/ch03/04_Async_tcp_client_mt.cpp:73-118 | After the last submission, completions, handler steps and user steps are bounded by the remaining work and eight per cancelRequest call |
| `ClientTermination.ActionRank` | src/ch03/04_Async_tcp_client_mt.cpp:73-171 | Every step, completion, dispatch and exit strictly reduces the remaining work |
| `ClientTermination.CancelRank` | src/ch03/04_Async_tcp_client_mt.cpp:122-132 | A cancelRequest call adds its own seven steps to the remaining work and nothing else |
| `ClientSafety.Outcome` | src/ch03/04_Async_tcp_client_mt.cpp:162-170 | A callback has run at most once, with the session's response, and reports success iff the handlers of connect, write and read were told success and no cancelRequest found the session; operation_aborted only if one did |
| `ClientResults.OutcomeExactly` | src/ch03/04_Async_tcp_client_mt.cpp:73-171 | A callback's arguments are a function of what the network answered: success iff connect, write and read all succeeded and no cancelRequest found the session; else the failing code, or operation_aborted for a found one; the response is the line read, or empty if the read did not succeed |
| `ClientResults.TrailIsResults` | src/ch03/04_Async_tcp_client_mt.cpp:73-116 | What the session's handlers were told, in order, is what the network answered to its operations, less at most one answer still queued |
| `ClientSafety.OneToken` | src/ch03/04_Async_tcp_client_mt.cpp:73-118 | A session is in exactly one place: its submitter, one operation, one running handler, or finished |
| `ClientSafety.FlagIsFinds` | src/ch03/04_Async_tcp_client_mt.cpp:125-130 | Past its erase, a session is flagged iff some cancelRequest found it |
| `ClientCancel.CancelReachesSocket` | src/ch03/04_Async_tcp_client_mt.cpp:130 | The socket cancel makes the session's operation in flight abortable and changes no other |
| `ClientCancel.EachFlagCancels` | src/ch03/04_Async_tcp_client_mt.cpp:129-130 | In any run the sessions a thread flags are, in order, those whose sockets it cancels, less at most one still to be cancelled |
| `ClientCancel.CancelMissesSocket` | src/ch03/04_Async_tcp_client_mt.cpp:130 | Without an operation of the session with the network, the socket cancel changes no operation |
| `ClientCancel.AbortableExactly` | src/ch03/04_Async_tcp_client_mt.cpp:130 | In any run an operation in flight can be aborted iff the socket cancel of some cancelRequest reached it while it was in flight |
| `ClientCancel.CancelEndsTheChain` | src/ch03/04_Async_tcp_client_mt.cpp:80-103 | Once a session is flagged while an operation of its is in flight, no other operation is ever initiated for it |
| `ClientWitness.AbortHappens` | src/ch03/04_Async_tcp_client_mt.cpp:122-171 | A run in which cancelRequest during the connect ends with the callback told operation_aborted and given nothing |
| `ClientCancel.FindsAreLookups` | src/ch03/04_Async_tcp_client_mt.cpp:125-126 | The times a session was found are the cancelRequest lookups of the run that found it in the map |
| `ClientSafety.FlagWriter` | src/ch03/04_Async_tcp_client_mt.cpp:122-132 | Only a thread that holds both guards, while the session is in the map, writes the flag |
| `ClientSafety.FlagIsStable` | src/ch03/04_Async_tcp_client_mt.cpp:153-163 | After its own erase, no step changes the flag of a session, so the unguarded read is stable |
| `ClientSafety.RaceFree` | src/ch03/04_Async_tcp_client_mt.cpp:122-170 | No two threads are ever about to make conflicting accesses to a flag, an error code, a response or the map |
| `ClientSafety.WritesAreListed` | src/ch03/04_Async_tcp_client_mt.cpp:73-171 | Whatever changes a flag, an error code, a response or the map is a step listed to write it |
| `ClientSafety.ReadsAreListed` | src/ch03/04_Async_tcp_client_mt.cpp:73-171 | A step does the same whatever a location holds that it is not listed to read |
| `ClientSafety.NoDanglingUse` | src/ch03/04_Async_tcp_client_mt.cpp:63-170 | A session without references is used by no thread, its mutex is unlocked, and its callback has run |
| `ClientSafety.NoUseAfterFree` | src/ch03/04_Async_tcp_client_mt.cpp:63-170 | No step writes a session that has no references |
| `ClientSafety.NoResurrection` | src/ch03/04_Async_tcp_client_mt.cpp:68-71 | A session without references never gets one again |
| `ClientInvariant.InvStep` | src/ch03/04_Async_tcp_client_mt.cpp:58-171 | Every enabled action of every thread and of the network keeps the invariant |
| `ClientInvariant.ReachableInv` | src/ch03/04_Async_tcp_client_mt.cpp:58-171 | The invariant holds in every reachable state, for any number of threads, sessions and ids |
| `ClientInvariant.ActionGuarantee` | src/ch03/04_Async_tcp_client_mt.cpp:122-170 | What any action may change of a session: the flag only under both guards while mapped, the result fields only by the thread that runs its handler |
| `ClientInvariant.RelyHolds` | src/ch03/04_Async_tcp_client_mt.cpp:122-170 | What a thread knows survives every change the others may make |
| `ClientInvariant.InvInit` | src/ch03/04_Async_tcp_client_mt.cpp:44-50 | A new client satisfies the invariant |
| `AsyncTcpClient.PoolLoopEnds` | src/ch03/04_Async_tcp_client_mt.cpp:47-50 | For n up to 255 the unsigned char loop ends iff n < 255, and then after exactly n threads |
| `AsyncTcpClient.CounterWraps` | src/ch03/04_Async_tcp_client_mt.cpp:47 | After 256 q + r rounds the counter is r + 1, or 0 for r = 255 |
| `AsyncTcpClient.AsyncTCPClient.constructor` | src/ch03/04_Async_tcp_client_mt.cpp:44-51 | The client starts with its pool polling, no sessions, an empty map and its work object |
| `AsyncTcpClient.SessionObject.constructor` | src/ch03/04_Async_tcp_client_mt.cpp:13-21 | A session starts with its request, not cancelled, no error, in the hands of its submitter |
| `AsyncTcpClient.AsyncTCPClient.RecordResult` | src/ch03/04_Async_tcp_client_mt.cpp:107-116 | Record the error, or extract the line after the read |
| `AsyncTcpClient.AsyncTCPClient.TestCancelled` | src/ch03/04_Async_tcp_client_mt.cpp:80-86 | Lock the cancel guard and test the flag; a cancelled session goes on to its completion with the guard held |
| `AsyncTcpClient.AsyncTCPClient.InitiateNext` | src/ch03/04_Async_tcp_client_mt.cpp:88-106 | The lambda of the connect initiates the write and that of the write the read |
| `AsyncTcpClient.AsyncTCPClient.OnRequestComplete` | src/ch03/04_Async_tcp_client_mt.cpp:147-171 | Erase under the map guard, then compute the code and call back, in place, step by step |
| `AsyncTcpClient.AsyncTCPClient.LeaveLambda` | src/ch03/04_Async_tcp_client_mt.cpp:80-86 | The cancel guard, if held across the completion, is released when the lambda is left |
| `AsyncTcpClient.AsyncTCPClient.FindRequest` | src/ch03/04_Async_tcp_client_mt.cpp:122-126 | Lock the map and look the id up; nothing more if it is not there |
| `AsyncTcpClient.AsyncTCPClient.MarkRequest` | src/ch03/04_Async_tcp_client_mt.cpp:127-131 | Lock the cancel guard, set the flag, cancel the socket, unlock |
| `AsyncTcpClient.AsyncTCPClient.BeginSubmit` | src/ch03/04_Async_tcp_client_mt.cpp:58-64 | Build the request string and its session object |
| `AsyncTcpClient.AsyncTCPClient.ContinueSubmit` | src/ch03/04_Async_tcp_client_mt.cpp:66-73 | Insert the session under the map guard, overwriting any entry of that id, then initiate the connect |
| `AsyncTcpClient.AsyncTCPClient.DispatchHandler` | src/ch03/04_Async_tcp_client_mt.cpp:48 | An idle pool thread takes a queued handler |
| `AsyncTcpClient.AsyncTCPClient.Perform` | src/ch03/04_Async_tcp_client_mt.cpp:58-171 | Any enabled action changes the objects exactly as it changes the step system |
| `AsyncTcpClient.AsyncTCPClient.Run` | src/ch03/04_Async_tcp_client_mt.cpp:58-171 | Every run of the step system is a run of the objects; at its end every session object was called back at most once with the outcome its history calls for, and exactly once, with an empty map, if close has returned |
| `AsyncServerSafety.AsyncIsSerial` | src/ch04/03_Async_parallel_tcp_server.cpp:12-46 | For any pool size and schedule, a drained run is, up to exchanging steps of different connections, a run of the iterative server's loop that leaves every connection with the same bytes |
| `AsyncServerSafety.RunsAreParallel` | src/ch04/03_Async_parallel_tcp_server.cpp:12-106 | What any run does to its connections is a side-by-side run of them |
| `AsyncServerSafety.ServiceOwnership` | src/ch04/03_Async_parallel_tcp_server.cpp:12-46 | A service is in exactly one place: one operation, one running handler, or deleted; it is deleted at most once |
| `AsyncServerSafety.NoUseAfterDelete` | src/ch04/03_Async_parallel_tcp_server.cpp:13-46 | No handler and no operation refers to a deleted service |
| `AsyncServerSafety.Accounting` | src/ch04/03_Async_parallel_tcp_server.cpp:92-97 | Accepted connections = live services + deleted services + the one being built |
| `AsyncServerSafety.AcceptChain` | src/ch04/03_Async_parallel_tcp_server.cpp:86-106 | At most one outstanding accept or handler before its rearm; the acceptor closes at most once and only after Stop |
| `AsyncServerSafety.NoAcceptAfterClose` | src/ch04/03_Async_parallel_tcp_server.cpp:99-105 | Every initiated accept finds the acceptor open |
| `AsyncServerSafety.AtMostOneLateService` | src/ch04/03_Async_parallel_tcp_server.cpp:83-97 | At most one service is created after Acceptor::Stop |
| `AsyncServerSafety.OnlyAbandonedLive` | src/ch04/03_Async_parallel_tcp_server.cpp:134-141 | When Stop has returned, the pool has exited and the live services are exactly those whose operation was abandoned |
| `AsyncServerProgress.StopAlwaysReturns` | src/ch04/03_Async_parallel_tcp_server.cpp:134-141 | Once the I/O service is stopped, every schedule has an explicit bound, and where only the network could go on, the pool has exited and Stop has returned |
| `AsyncServerProgress.StopStopsTheService` | src/ch04/03_Async_parallel_tcp_server.cpp:134-136 | After the call of Stop, two steps of its own thread stop the acceptor and the I/O service, whatever the others do |
| `AsyncServerProgress.ActionRank` | src/ch04/03_Async_parallel_tcp_server.cpp:134-141 | Once the I/O service is stopped, every step, completion and exit strictly reduces the remaining work |
| `AsyncServerProgress.IdleMeansWaiting` | src/ch04/03_Async_parallel_tcp_server.cpp:12-131 | A server that can only wait, before its I/O service is stopped, has an idle pool and no Stop in progress; every operation is with the network, every live service has one, and so has the open acceptor |
| `AsyncServerSafety.DrainedDeletesAll` | src/ch04/03_Async_parallel_tcp_server.cpp:37-46 | Without an operation or handler of a connection left, every service has been deleted |
| `AsyncServerSafety.ActionIsEvent` | src/ch04/03_Async_parallel_tcp_server.cpp:20-46 | Every server action is no move or one legal move of one connection |
| `AsyncServerResults.MovesAreResults` | src/ch04/03_Async_parallel_tcp_server.cpp:13-43 | The results the network gives a service's operations are, with their data and counts, the reads and writes it makes of its connection, once each and in order, less at most one still to be used |
| `AsyncServerResults.ArrivalsAreServices` | src/ch04/03_Async_parallel_tcp_server.cpp:86-97 | Connections the network reports = services built + the one being built + the one whose handler has not started |
| `AsyncServerInvariant.InvStep` | src/ch04/03_Async_parallel_tcp_server.cpp:12-141 | Every enabled action keeps the server invariant |
| `AsyncServerInvariant.ReachableInv` | src/ch04/03_Async_parallel_tcp_server.cpp:119-131 | The invariant holds in every reachable state for any pool of at least one thread |
| `AsyncTcpServer.Server.constructor` | src/ch04/03_Async_parallel_tcp_server.cpp:119-131 | The server starts with one accept outstanding and the whole pool polling |
| `AsyncTcpServer.Server.CreateService` | src/ch04/03_Async_parallel_tcp_server.cpp:92-94 | A successful accept builds one new service object |
| `AsyncTcpServer.Server.StartHandling` | src/ch04/03_Async_parallel_tcp_server.cpp:12-17 | The new service starts its first read |
| `AsyncTcpServer.Server.FinishAccept` | src/ch04/03_Async_parallel_tcp_server.cpp:99-105 | Rearm, or close the acceptor once stopped |
| `AsyncTcpServer.Server.OnRequestReceived` | src/ch04/03_Async_parallel_tcp_server.cpp:20-35 | Delete on error; otherwise fill the response and start the write |
| `AsyncTcpServer.Server.OnResponseSent` | src/ch04/03_Async_parallel_tcp_server.cpp:37-43 | Delete in either case |
| `AsyncTcpServer.ServiceObject.OnFinish` | src/ch04/03_Async_parallel_tcp_server.cpp:46 | The service counts as deleted and nothing has it in hand |
| `AsyncTcpServer.Server.StopServer` | src/ch04/03_Async_parallel_tcp_server.cpp:134-141 | Set the stop flag, stop the I/O service, join the pool in order |
| `AsyncTcpServer.Server.DispatchHandler` | src/ch04/03_Async_parallel_tcp_server.cpp:128 | An idle pool thread takes a queued handler |
| `AsyncTcpServer.Server.Perform` | src/ch04/03_Async_parallel_tcp_server.cpp:12-141 | Any enabled action changes the objects exactly as it changes the step system |
| `AsyncTcpServer.Server.Run` | src/ch04/03_Async_parallel_tcp_server.cpp:12-141 | Every run of the step system is a run of the objects; at its end no service object was deleted twice, and after Stop those alive are exactly the ones whose operation was abandoned |
| `Connections.ParallelIsSerial` | src/ch04/02_Sync_parallel_tcp_server.cpp:11-36 | A drained side-by-side run sorts, by exchanging neighbouring steps of different connections, into a run that serves the same connections one at a time with the same requests and replies |
| `SyncServers.ParallelIsIterative` | src/ch04/01_Sync_iterative_tcp_server.cpp:60-72 | A drained side-by-side run sorts, by exchanging neighbouring steps of different connections, into a run of the iterative server's accept loop with the same connections, requests and replies |
| `SyncServers.IterativeMeansSerial` | src/ch04/01_Sync_iterative_tcp_server.cpp:60-72 | The runs of the iterative accept loop are exactly the serial runs of its connections |
| `Connections.Diamond` | src/ch04/02_Sync_parallel_tcp_server.cpp:11-14 | Steps of different connections commute |
| `Connections.SerializeCommutes` | src/ch04/02_Sync_parallel_tcp_server.cpp:11-36 | Sorting a run by connection keeps it a run with the same result and only exchanges independent steps |
| `Connections.SortedIsSerial` | src/ch04/01_Sync_iterative_tcp_server.cpp:69-71 | A sorted, drained run serves one connection after the other |
| `Connections.RepliesFollowRequests` | src/ch04/01_Sync_iterative_tcp_server.cpp:13-29 | No byte of the reply is sent before a line of the request has been read, and only prefixes of the reply are sent |
| `SyncServers.SyncServersAgree` | src/ch04/02_Sync_parallel_tcp_server.cpp:73-79 | With either loop at most one connection is accepted after the flag is set; and a drained thread-per-client run is, up to exchanges, a run of the iterative loop |
| `SyncServers.LoopServes` | src/ch04/01_Sync_iterative_tcp_server.cpp:66-72 | For every serial run the iterative loop has a schedule that makes exactly its moves |
| `SyncServers.LoopRuns` | src/ch04/01_Sync_iterative_tcp_server.cpp:60-72 | Every run of either accept loop is a run of the connections, serial for the iterative one, and keeps the count of late accepts |
| `SyncServers.StopWaitsForAClient` | src/ch04/01_Sync_iterative_tcp_server.cpp:60-63 | A loop blocked in accept leaves only after one more accept, so Stop waits for a client |
| `SyncServers.StopEndsTheLoop` | src/ch04/01_Sync_iterative_tcp_server.cpp:60-72 | From the call of Stop on, every schedule of either server has an explicit bound; where only a new client could go on, all accepted clients are done with and the loop has left or is blocked in accept; where nothing could, it has left |
| `SyncServers.OneMoreTest` | src/ch04/01_Sync_iterative_tcp_server.cpp:69-71 | After the flag is set the loop tests it at most once more |
| `SyncServers.HandleClient` | src/ch04/01_Sync_iterative_tcp_server.cpp:13-29 | Read one line, reply, and finish on any error: the client receives exactly what its connection records, nothing unless a line arrived, and the complete reply iff no operation failed |
| `SyncServers.RunIterative` | src/ch04/01_Sync_iterative_tcp_server.cpp:66-72 | As many clients are accepted as tests find the flag clear, or all there are; when the loop leaves they were served one by one, each with the complete reply unless an operation on its socket failed, and the others received nothing |
| `Sockets.WriteAll` | src/ch02/04_Writing_to_TCP_socket_sync.cpp:10-24 | Exactly the buffer is sent, or a proper prefix if an operation failed |
| `Sockets.ReadExactly` | src/ch02/05_Reading_from_TCP_socket_sync.cpp:11-21 | Exactly as many bytes as the buffer holds are taken from the stream in order, or fewer if an operation failed |
| `Sockets.ReadUntil` | src/ch02/05_Reading_from_TCP_socket_sync.cpp:45-48 | The buffer grows by a prefix of the stream until the first read, of at most 512 bytes, that brings the delimiter; nothing is read if it is there already, and success fails only if an operation did |
| `Sockets.LineIgnoresChunks` | src/ch02/05_Reading_from_TCP_socket_sync.cpp:50-55 | The line does not depend on how much was read beyond it |
| `Sockets.ReadLine` | src/ch02/05_Reading_from_TCP_socket_sync.cpp:44-56 | The result is the first line of the stream, however it was cut into reads, unless an operation failed |
| `Sockets.Socket.WriteSome` | Readme.org:451-455 | A non-empty prefix is sent, or nothing and an error |
| `Sockets.Socket.ReadSome` | Readme.org:500-504 | A non-empty prefix of the stream within the limit is taken, or nothing and an error |
| `CallbackChains.ChainsDeliver` | src/ch02/08_Reading_from_TCP_socket_async.cpp:16-47 | However the completions of a write chain and a read chain on one stream are interleaved, chunked and failed: they end, one callback answers one operation, arrived bytes are a prefix of the message, a finished chain has moved exactly its buffer, and without errors the reader ends with what one read of one write gives |
| `CallbackChains.ChunksStayInOrder` | src/ch02/06_Writing_to_TCP_socket_async.cpp:16-30 | Received bytes followed by those on the wire are the sent prefix, and each completion is one callback |
| `CallbackChains.WriteSession.Callback` | src/ch02/06_Writing_to_TCP_socket_async.cpp:16-30 | Each completion ends the chain on error or when all is written, and else initiates exactly one more operation |
| `CallbackChains.WriteSession.Run` | src/ch02/06_Writing_to_TCP_socket_async.cpp:32-45 | The chain stops once, with one callback per operation, and has sent exactly the buffer, or a prefix of it if an operation failed |
| `CallbackChains.ReadSession.Callback` | src/ch02/08_Reading_from_TCP_socket_async.cpp:16-31 | Each completion ends the chain on error or when the buffer is full, and else initiates exactly one more operation |
| `CallbackChains.ReadSession.Run` | src/ch02/08_Reading_from_TCP_socket_async.cpp:33-47 | The chain stops once and has filled exactly the buffer from the stream, or a part of it if an operation failed |
| `SyncTcpClient.SyncTCPClient.SendRequest` | src/ch03/01_Sync_tcp_client.cpp:30 | Success iff the whole request was written behind what was there |
| `SyncTcpClient.SyncTCPClient.ReceiveResponse` | src/ch03/01_Sync_tcp_client.cpp:32-41 | The first line of the stream, whatever the chunks; what was read beyond it is gone |
| `SyncTcpClient.SyncTCPClient.EmulateLongComputationOp` | src/ch03/01_Sync_tcp_client.cpp:14-18 | The request is sent and the first line of whatever waited and the answer is returned; if that is one line and nothing else, nothing is left behind |
| `SyncTcpClient.SyncTCPClient.Ask` | src/ch03/01_Sync_tcp_client.cpp:14-18 | In lock-step the call returns its own answer and leaves nothing waiting |
| `SyncTcpClient.SyncTCPClient.Converse` | src/ch03/01_Sync_tcp_client.cpp:14-18 | With one line per answer, the k-th call returns the k-th answer, and only a failed operation ends the conversation early |
| `SyncTcpClient.LockStepExactly` | src/ch03/01_Sync_tcp_client.cpp:32-40 | Dropping the buffer after each line loses nothing, for every way of reading, iff the answer is one line and nothing else |
| `HalfClose.EofMeansWholeMessage` | src/ch02/12_Socket_shutdown_server.cpp:15-36 | Whoever accepts the end of the stream holds its peer's whole message, for arbitrary bytes; no reply byte precedes the whole request |
| `HalfClose.BothFinish` | src/ch02/11_Socket_shutdown_client.cpp:16-38 | Every schedule is finite with an explicit bound, and without transport errors ends with both sides done and holding each other's message |
| `HalfClose.NeverBothBlocked` | src/ch02/11_Socket_shutdown_client.cpp:20-30 | While either side is unfinished and nothing broke, one of them can move |
| `HalfClose.FinishesExactly` | src/ch02/11_Socket_shutdown_client.cpp:16-38 | The exchange can finish iff every non-empty message has a channel with room |
| `HalfClose.InvStep` | src/ch02/12_Socket_shutdown_server.cpp:13-37 | Every move of either side and of the network keeps the exchange in order |
| `HalfClose.ActionProgresses` | src/ch02/11_Socket_shutdown_client.cpp:20-30 | Every move reduces the bytes and phases left |
| `HalfClosePrograms.Communicate` | src/ch02/11_Socket_shutdown_client.cpp:16-38 | The client half-closes exactly if it has written the whole request; a response is accepted only at the end of the stream and is then all of it; it is rejected only if an operation failed |
| `HalfClosePrograms.ProcessRequest` | src/ch02/12_Socket_shutdown_server.cpp:13-37 | Nothing is written before the whole request is there; the server half-closes exactly on success, which only a failed operation prevents and which means the whole reply |
| `Text.RequestHasOneNewline` | src/ch03/01_Sync_tcp_client.cpp:15 | A request has exactly one newline, its last character |
| `Text.ParseInvertsRequest` | src/ch03/Readme.org:7-14 | A string is the request for a duration iff it parses to it as a number without leading zeros |
| `Text.RequestsSplit` | src/ch03/01_Sync_tcp_client.cpp:15 | Any concatenation of requests splits back into their lines |
| `Text.RequestsAreUnambiguous` | src/ch03/Readme.org:7-14 | Equal concatenations are of equal requests |
| `Text.ValueOfDecimal` | src/ch03/01_Sync_tcp_client.cpp:15 | Reading a printed number gives it back |
| `Text.DecimalOfValue` | src/ch03/01_Sync_tcp_client.cpp:15 | Every digit string without leading zeros is the printed form of its value |
| `Text.LinesOfJoin` | src/ch02/05_Reading_from_TCP_socket_sync.cpp:52-54 | Lines joined by the delimiter are the lines of the stream |

## Left out

- AsyncTcpClient.AsyncTCPClient.constructor: does not model 255 threads, for which the source's loop never ends; `PoolLoopEnds` states that.
- ClientTermination.CloseAlwaysReturns: of schedules in which an id is passed to cancelRequest twice it only bounds the length, since from the deadlock `close()` does not return.
- ClientRefinement.ClientRefinesTable: assumes fresh ids; `RefinesExactly` shows that this is exactly what is needed.
- AsyncServerSafety.AsyncIsSerial: is about drained runs; connections that `m_ios.stop()` abandons have no iterative counterpart and are covered by `OnlyAbandonedLive`.
- ClientAndServer.SuccessMeansServed: which of the waiting connections an accept takes is arbitrary, and a service may also serve strangers, whose bytes are unconstrained.
- Socket objects: `m_sock.shutdown` and the initiation of operations share no lock with `m_sock.cancel()`, so no mutual exclusion on the socket itself is claimed; `RaceFree` is about the session's fields and the map.
- The response of a failed request: a cancellation after a successful read reports `operation_aborted` together with the line read, so an empty response on error is not claimed; `OutcomeExactly` says when it is empty.
- Shared pointers: sessions live in an arena of handles and a reference count is the set of threads, operations and map entries that refer to one; services are likewise never reused after deletion.
- Threads of the thread-per-client server: a detached thread has no counterpart in a sequential method, so that server's loop and its clients are a step system (`SyncServers.Loop`); `HandleClient`, common to both servers, is a method.
- `Socket` methods choose chunk sizes and failures nondeterministically, and the bytes of a peer are given in advance: the two-sided timing is in `HalfClose`, `CallbackChains.Link`, `EndToEnd` and `ClientAndServer`.
- Fairness and time: no schedule is assumed fair; results say where every schedule ends. Sleeps and counting loops are left out.
- Exceptions thrown by `accept`, by thread creation or inside handlers, and allocation failure.
- Asio internals, name resolution, endpoints and addresses, logging and the `main` programs.
- The end-of-file an asynchronous reader may meet, and all other transport errors, appear as one error outcome; their codes are arbitrary.
- `src/ch01`, the rest of `src/ch02` and the UDP client: single library calls without control logic of their own.
- Line ends: `read_until` and `getline` work on characters; no character encoding is involved.
