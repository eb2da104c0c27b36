# mini_RPC: a verified model

mini_RPC is an RPC framework made of small concurrent protocols joined by framing code. This project models, in Dafny, the parts
whose correctness is not visible from any one function, and proves what they guarantee in every run:

* **Ring queue and thread pool.** The lock-free multi-producer ring as interleaved atomic steps (`RingQueue.dfy`), the queue class with
  its retry loop, batch pop and drain (`RingQueueCode.dfy`), and the pool built on it with its sleep/notify handshake, blocking
  path and shutdown (`ThreadPool.dfy`, `ThreadPoolRuns.dfy`), who can go on when (`ThreadPoolProgress.dfy`), and a producer that
  nobody wakes (`ThreadPoolBlocked.dfy`).
* **Bytes.** The length-prefixed wire format and its round trips (`Framing.dfy`), the blocking codec (`MessageCodec.dfy`) and the
  two-cursor read buffer (`ReadBuffer.dfy`).
* **Server.** One connection with its coroutine as a program counter (`Connection.dfy`), the invariants of every call a worker
  makes (`ConnectionProofs.dfy`, `ConnectionAnswers.dfy`), when exactly a read or a write ends it (`ConnectionReads.dfy`), its
  deadlines and whole streams of requests (`ConnectionRuns.dfy`), the connection object (`ConnectionCode.dfy`), the worker that owns
  many connections (`WorkerLoop.dfy`, `WorkerProofs.dfy`, `WorkerTheorems.dfy`) and `PollOnce` (`WorkerLoopCode.dfy`).
* **Client.** The table of pending calls (`PendingCalls.dfy`, `PendingCallsCode.dfy`), the calls themselves interleaved with the
  dispatcher (`ClientCalls.dfy`, `ClientProofs.dfy`, `ClientSteps.dfy`, `ClientRuns.dfy`), how often they are written
  (`ClientOnce.dfy`), the loop over response frames (`ClientFrames.dfy`), timeouts and the end of a connection (`ClientEof.dfy`), the
  heartbeat clock (`Heartbeat.dfy`), and the pool of clients (`ClientPool.dfy`, `Failover.dfy`).
* **End to end.** Client and server runs joined by byte streams (`EndToEnd.dfy`), how often a request is taken by a server
  (`EndToEndOnce.dfy`), one whole call step by step (`EndToEndRun.dfy`), and what a frame that broke off does to a call (`EndToEndTorn.dfy`, with a small codec of its own in `PlainCodec.dfy`).
* **Code graph.** The bounded breadth-first search of the SQLite backend (`Traversal.dfy`, `TraversalProofs.dfy`).

Each component has one definition of what a step does, as a function; the classes and loops are proved to compute that function, and
the theorems about runs are proved of it. A run is any sequence of steps: interleavings, timeouts, closes and the answers of the
system are whatever the sequence and the environment parameters say, so a statement for all of them is a statement for all
behaviours. Components that other threads change are modelled as interleaved atomic steps.

`dafny verify dfyconfig.toml` checks everything.

## What the proofs found

* **A wakeup can be lost.** `notify_one` on a worker's condition variable can wake a producer that is blocked in the slow path of
  `Submit` on the same variable. Then the worker sleeps over a full queue and nobody is committed to wake it
  (`ThreadPoolRuns.WakeupLostToBlockedProducer`, for every capacity). Whenever no producer is in that path of the worker's queue, no
  wakeup is lost (`ThreadPool.NoLostWakeup`).
* **A blocked producer can be forgotten.** The worker announces free room without taking the lock (src/common/thread_pool.cpp:221), so
  the announcement can fall between a producer's last try and its sleep. For every capacity and batch size there is a run after which
  the producer sleeps over an empty queue, and no step of the threads that are left changes anything
  (`ThreadPoolBlocked.BlockedProducerForgotten`). Sleep is the only such wait: everybody else can go on, or the holder of the lock he
  wants can (`ThreadPoolProgress.NobodyWaitsInVain`).
* **An accepted task can stay unexecuted at shutdown**, exactly when its ticket could not be popped, and had not been, at the worker's
  last look at its queue (`ThreadPool.StrandedExactlyWhenUnseen`). That happens to a task pushed just after that look
  (`ThreadPoolRuns.AcceptedTaskStranded`) and to one whose `Submit` returns true only after the worker has gone
  (`ThreadPoolRuns.AcceptedAfterExit`).
* **Capacity 1 loses an element** (`RingQueue.CapacityOneLosesAnElement`); the static assertion that excludes it is needed.
* **A handler registered under the service `__Heartbeat__` is never called.** Calls to it are answered OK with nothing in every run
  (`EndToEnd.HeartbeatServiceAnswersItself`, `EndToEndRun.HeartbeatHandlerShadowed`); all other calls get exactly what their handler
  makes of their payload (`EndToEnd.HandledExactlyWhen`, `EndToEnd.CallsGetWhatHandlersReturn`).
* **A heartbeat that is written in part leaves its connection in use.** A failed call closes the connection, a failed heartbeat does
  not, so the next request is read by the server as part of a body nobody sent (`EndToEndTorn.TornHeartbeatMisleads`), and if that
  body reads as a request with the call's id, the call gets the answer to it (`EndToEndTorn.TornCallMisanswered`). The end-to-end
  theorems therefore ask that the connection a result came from was not used after a frame had broken off on it; they ask nothing of
  the client's other connections, and without that they are false (`EndToEndTorn.TornResultNotOwed`, for one lawful codec).
* **A timeout does not unmap a connection.** The coroutine is finished at once, but the connection stays in the worker's map until epoll
  next reports its descriptor or a result for it cannot be queued (`WorkerTheorems.TimeoutLeavesMapped`).
* **The client pool judges connection errors by message text.** A reply is passed on after one attempt exactly if it is OK or contains
  none of six phrases, whoever wrote them (`Failover.RetriedExactlyWhen`). So a handler whose error text contains one is run once on
  every server, and its caller is told that all channels failed (`Failover.ServedEverywhereReportedFailed`,
  `Failover.HandlerTextsCount`). The client's own failures contain one (`Failover.OwnFailuresAreRetried`,
  `Failover.BrokenConnectionsAreRetried`), but not those of a response stream that has become unreadable or of a dispatcher that
  could not start: these are passed on as answers, and the channel counts as reached (`Failover.BrokenStreamIsAnAnswer`).

The state diagram at src/server/connection.h:155-170 has no way back from closing or error; the code lets a later notification overwrite
the state (src/server/connection.cpp:524 and 551), and the model follows the code: only `shouldClose` is monotone.

## Model

| member | source | states |
|---|---|---|
| `RingQueue.EveryRunIsFifo` | src/common/mpsc_ring_queue.h:83-111 | in every interleaving the popped values are the first tickets in the order fixed by the successful compare-exchanges; elements are built only in dead storage and moved out alive |
| `RingQueue.VerdictsAreExact` | src/common/mpsc_ring_queue.h:86-110 | a refusal was read while all tickets were claimed, a retry means the position moved, a winning compare-exchange finds its slot free, although the sequence read may be stale |
| `RingQueue.WinOwnsFreeSlot` | src/common/mpsc_ring_queue.h:92-101 | the compare-exchange that acts on an earlier sequence read only ever wins a free slot |
| `RingQueue.RingRefinesQueue` | src/common/mpsc_ring_queue.h:83-216 | every step of the ring is a step of a plain bounded queue of claimed and published entries, or none |
| `RingQueue.EmptyIsExact` | src/common/mpsc_ring_queue.h:133-140 | the one sequence number that `Empty` reads tells exactly whether the oldest entry is visible |
| `RingQueue.CapacityOneLosesAnElement` | src/common/mpsc_ring_queue.h:42-44 | with capacity 1 two pushes succeed and the first element is overwritten unpopped |
| `RingQueue.MaskIsRemainder` | src/common/mpsc_ring_queue.h:42-44 | for a power of two, masking is the remainder used by the model |
| `RingQueueCode.MpscRingQueue.constructor` | src/common/mpsc_ring_queue.h:54-58 | slot i starts free with sequence i |
| `RingQueueCode.MpscRingQueue.TryPush` | src/common/mpsc_ring_queue.h:83-111 | the retry loop, with other producers and the consumer acting in between, ends accepted with exactly one ticket of its own, or rejected on a full queue with none |
| `RingQueueCode.MpscRingQueue.TryPopOne` | src/common/mpsc_ring_queue.h:179-198 | takes exactly the oldest ticket if it is published and nothing otherwise |
| `RingQueueCode.MpscRingQueue.PopBatch` | src/common/mpsc_ring_queue.h:118-128 | what it returns is the next run of tickets, in order, and it stops only at the bound or at an unpublished head |
| `RingQueueCode.MpscRingQueue.DrainAll` | src/common/mpsc_ring_queue.h:202-216 | with no producer inside `TryPush`, afterwards every slot is dead and every ticket was popped or destroyed once, in order |
| `ThreadPool.NoLostWakeup` | src/common/thread_pool.cpp:94-107 | in every run, with no producer in the blocking path of a worker, a worker asleep over a visible head has that head's producer still committed to notify it, or, once the pool no longer accepts, a caller of `Stop` |
| `ThreadPool.StopReachesSleepers` | src/common/thread_pool.cpp:130-141 | with the stop flag up, a sleeping worker and a producer asleep in the blocking path are still ahead of the caller of `Stop` |
| `ThreadPool.TasksConserved` | src/common/thread_pool.cpp:79-128 | a call that has a ticket, so every one that returned true, occurs exactly once among all that is executed, batched or queued, with its own task in the queue it chose; any other call, so every one that returned false, occurs nowhere; queues keep their order, and the blocking path is entered only after every queue was tried |
| `ThreadPool.OnlyStopRefuses` | src/common/thread_pool.cpp:79-141 | in every run a call that returned false did so in a pool that no longer accepts; that, the stop flag and the exit of a worker come only from a caller of `Stop` |
| `ThreadPool.FastPath` | src/common/thread_pool.cpp:93-110 | a call takes a ticket of the queue it is at exactly if there is room; otherwise it goes on to a queue it has not tried, and leaves without a ticket only for the blocking path, with its task, after every queue was tried |
| `ThreadPool.BlockingPath` | src/common/thread_pool.cpp:112-127 | in the blocking path each try takes a ticket exactly if there is room, and the call gives up exactly if the pool no longer accepts |
| `ThreadPoolProgress.NobodyWaitsInVain` | src/common/thread_pool.cpp:79-221 | in every run every worker, call and caller of `Stop` that is neither asleep nor done can make a step, unless the lock it wants is held, and then the holder can: there is no deadlock among those awake |
| `ThreadPool.StrandedExactlyWhenUnseen` | src/common/thread_pool.cpp:187-217 | an accepted task of a worker that has exited is executed if and only if its ticket could be popped, or had been, at the last step at which the worker examined its queue, and is still queued otherwise |
| `ThreadPool.ExitIsFinal` | src/common/thread_pool.cpp:187-210 | a worker that has exited executes nothing more, whatever happens later |
| `ThreadPool.AllTried` | src/common/thread_pool.cpp:86-107 | walking the queues once around from any start visits every queue |
| `ThreadPoolRuns.WakeupLostToBlockedProducer` | src/common/thread_pool.cpp:109-127 | for every capacity, a run in which the notifications go to a producer blocked in `Submit` and the worker sleeps over a full queue |
| `ThreadPoolBlocked.BlockedProducerForgotten` | src/common/thread_pool.cpp:112-221 | for every capacity and batch size, a run after which a producer sleeps for room over an empty queue of an accepting pool, the worker sleeps, and no step of a call or of the worker changes anything |
| `ThreadPoolRuns.AcceptedTaskStranded` | src/common/thread_pool.cpp:187-194 | a run in which `Submit` returned true before `Stop` was called, and the task is never executed in any continuation |
| `ThreadPoolRuns.AcceptedAfterExit` | src/common/thread_pool.cpp:97-107 | a run in which a ticket is published and `Submit` returns true after the worker has exited, and the task is never executed in any continuation |
| `Framing.HeaderRoundTrip` | src/server/connection.cpp:1206-1263 | decoding the four big-endian bytes of a valid length gives the length back |
| `Framing.FirstFrameIs` | src/server/connection.cpp:1206-1263 | in numbers: the length is the big-endian value of four bytes, a header is bad exactly if that is 0 or above 4194304, and a frame is whole exactly if so many bytes follow |
| `Framing.ChunkingIndependence` | src/server/connection.cpp:924-1001 | cutting a stream into any pieces gives the same bodies and the same bad-header stop as parsing it whole |
| `Framing.RestIsUnfinished` | src/server/connection.cpp:926-939 | what is kept between reads holds no complete frame and at most 4 MiB + 3 bytes |
| `Framing.PrefixRoundTrip` | src/server/connection.cpp:1118-1156 | any first part of a stream of frames reads as a prefix of the bodies, and all of it as all of them |
| `Framing.WireRoundTrip` | src/client/rpc_client.cpp:86-147 | the messages decoded from any pieces of any first part of the stream are a prefix, in order, of the messages sent, and all of them at the end |
| `MessageCodec.ReadN` | src/protocol/codec.cpp:27-65 | reads exactly the next n bytes whatever the sizes of the partial reads, or reports failure |
| `MessageCodec.WriteN` | src/protocol/codec.cpp:76-109 | writes exactly the bytes given whatever the sizes of the partial writes, or a proper prefix and failure |
| `MessageCodec.WriteMessage` | src/protocol/codec.cpp:202-255 | success puts exactly one frame on the wire; a failure puts a proper prefix of it |
| `MessageCodec.ReadMessage` | src/protocol/codec.cpp:126-185 | success consumes exactly one frame and parses its body |
| `MessageCodec.WriteThenRead` | src/protocol/codec.cpp:126-255 | what `WriteMessage` puts on the wire `ReadMessage` reads back as the same message, leaving what follows |
| `ReadBuffer.Buffer.EnsureWritable` | src/server/connection.cpp:1180-1195 | makes room, by compaction if that is enough and by growing otherwise, and changes no unread byte |
| `ReadBuffer.Buffer.Compact` | src/server/connection.cpp:1168-1178 | the unread bytes are at the front and unchanged |
| `ReadBuffer.Buffer.Append` | src/server/connection.cpp:1162-1166 | the unread bytes are the old ones followed by the new ones |
| `ReadBuffer.Buffer.Retrieve` | src/server/connection.h:427-435 | consumes exactly n bytes; an emptied buffer starts over |
| `ReadBuffer.TakeFrames` | src/server/connection.cpp:924-939 | the frame loop over the buffer takes what parsing the unread bytes as a whole takes, and leaves its rest |
| `ReadBuffer.ReadPiece` | src/server/connection.cpp:882-939 | appending a piece and running the loop is one step of reading a stream in pieces |
| `ConnectionProofs.ThreeShapes` | src/server/worker_loop.cpp:99-150 | at every quiescent point of every run a connection is waiting to read with nothing queued, waiting to write with something queued, or finished; finished exactly when it should close |
| `ConnectionProofs.StreamsInEveryRun` | src/server/connection.cpp:1070-1156 | the bytes sent are a first part of the frames of the bodies queued, the unsent counter is exact and within the limit, and the bodies served are those of the received stream in order |
| `ConnectionProofs.CloseFinishes` | src/server/worker_loop.cpp:563-598 | after mark and two notifications the coroutine has finished, so waiting for it never blocks |
| `ConnectionProofs.TickOk` | src/server/connection.cpp:268-282 | a tick finishes the connection exactly when an armed deadline has passed, and otherwise changes nothing |
| `ConnectionProofs.DeliverOk` | src/server/worker_loop.cpp:716-729 | queueing a pool result and notifying keeps the three shapes |
| `ConnectionProofs.CallOk` | src/server/connection.cpp:241-282 | every call of the worker keeps the invariant, and closing is final |
| `ConnectionAnswers.TakeRequestsAnswers` | src/server/connection.cpp:924-1001 | every body taken is answered once or forwarded once, in order, with increasing sequence numbers |
| `ConnectionAnswers.DeliverAnswers` | src/server/connection.cpp:595-603 | a pool result is queued once and everything else stays accounted for |
| `ConnectionReads.TakesExactly` | src/server/connection.cpp:924-1001 | parsing succeeds if and only if the unread bytes hold no bad header and no request that is refused (by the dispatcher, or because its answer is too large or does not fit under the limit); it has then taken every complete body and keeps the rest |
| `ConnectionReads.ReadsExactly` | src/server/connection.cpp:882-939 | a read goes on if and only if the socket would block, no header is bad and no request refused; it has then taken exactly the complete bodies of all that was ever received, and waits for an incomplete one |
| `ConnectionReads.OnReadableExactly` | src/server/connection.cpp:109-139 | a read fails, and marks the connection to close, exactly for these reasons or because the peer has closed |
| `ConnectionReads.FlushExactly` | src/server/connection.cpp:1118-1156 | the send loop goes on until the queue is empty or the kernel stops it, fails exactly at an error or a write of nothing, and counts as sent exactly what the kernel took |
| `ConnectionReads.NotificationsEndExactly` | src/server/worker_loop.cpp:99-150 | a notification ends an open connection if and only if the read it starts does not go on or the flush it leads to fails |
| `ConnectionRuns.DeadlinesRestart` | src/server/connection.cpp:655-668 | a connection that is resumed and waits again has a whole read or write timeout from then; one that is not resumed keeps its deadlines, except that a pool result queued while it waits to write renews the write deadline |
| `ConnectionRuns.ServedInAnyPieces` | src/server/connection.cpp:882-1001 | a stream of acceptable requests, cut into any pieces and with answers taken whenever the socket likes, leaves the connection open in every run, having taken exactly the requests of what arrived and answered or dispatched each in order |
| `ConnectionCode.ServerConnection.EnqueueResponse` | src/server/connection.cpp:595-603 | the unsent bytes grow by exactly the frame of the response and the deadline is armed, if and only if it can be framed and they stay within the limit; otherwise nothing changes; the streams stay in order |
| `ConnectionCode.ServerConnection.FlushWrites` | src/server/connection.cpp:1118-1156 | the send loop sends, counts and pops exactly what the kernel took, and fails exactly at an error or a write of nothing |
| `ConnectionCode.ServerConnection.ReadFromSocket` | src/server/connection.cpp:882-913 | the receive loop appends everything received, in order |
| `ConnectionCode.ServerConnection.TryParseRequests` | src/server/connection.cpp:924-1001 | the loop handles every complete frame until one is refused, which it does not consume; it succeeds if and only if no header is bad and no request refused, and an incomplete frame stays for later |
| `ConnectionCode.ServerConnection.TakeOneRequest` | src/server/connection.cpp:924-1001 | the body in front is answered once or forwarded once and then consumed, or it is refused and stays; every body taken so far remains accounted for and the write deadline is armed exactly while something is queued |
| `ConnectionCode.ServerConnection.HandleReadable` | src/server/connection.cpp:109-139 | it fails if and only if the socket failed, a header was bad or a request refused; a failure always closes; otherwise the bodies taken are all those of the received stream, each answered or forwarded in order, no whole frame is left over and the write deadline is armed exactly while something is queued |
| `ConnectionCode.ServerConnection.HandleWritable` | src/server/connection.cpp:146-160 | a failure always closes; sent and unsent bytes still make up the frames queued; a connection that goes on has its write deadline armed exactly while something is left |
| `ConnectionCode.ServerConnection.Resume` | src/server/worker_loop.cpp:99-150 | the coroutine from any resumption point to its next suspension, with all its loops |
| `ConnectionCode.ServerConnection.CheckDeadlines` | src/server/connection.cpp:268-282 | with a passed deadline the connection and its coroutine are finished, without one nothing changes; the three shapes are kept |
| `ConnectionCode.ServerConnection.BeginClosing` | src/server/connection.cpp:241-256 | the coroutine has finished when the call returns |
| `ConnectionCode.StepAtContinues` | src/server/connection.cpp:689-819 | running the coroutine piece by piece is running it in one go |
| `WorkerProofs.StepOk` | src/server/worker_loop.cpp:378-510 | every step of the owner and of other threads keeps the worker's invariant |
| `WorkerProofs.NeverADuplicate` | src/server/worker_loop.cpp:343-352 | a descriptor handed over is never one still mapped, so the duplicate check never fires |
| `WorkerTheorems.NoResponseStranded` | src/server/worker_loop.cpp:764-786 | in every run each mapped connection has EPOLLOUT armed exactly while it has something queued, and if it is not closing its coroutine then waits for writability with a deadline |
| `WorkerTheorems.AccountsBalance` | src/server/worker_loop.cpp:682-688 | submitted = in flight + completed, in flight is where the jobs are, and the guard before the decrement never fails |
| `WorkerTheorems.ResultsReachTheirOwner` | src/server/worker_loop.cpp:690-704 | across closes and descriptor reuse a pool result is queued only on the connection that dispatched its request, at most once per request |
| `WorkerTheorems.NothingWithheld` | src/server/worker_loop.cpp:665-738 | an open connection has been given every result dealt with on its behalf, in order |
| `WorkerTheorems.QueuedIsOwed` | src/server/worker_loop.cpp:821-912 | everything a connection ever queues is the answer owed to a request body it took from its own stream |
| `WorkerTheorems.TimeoutLeavesMapped` | src/server/worker_loop.cpp:426-433 | the timeout pass finishes exactly the connections whose deadline passed and unmaps none |
| `WorkerLoopCode.Loop.PollOnce` | src/server/worker_loop.cpp:378-510 | hand-over queues when woken, then timeouts, then events; the invariant holds again whether or not it succeeds |
| `WorkerLoopCode.Loop.DrainPendingConnections` | src/server/worker_loop.cpp:610-632 | adopts every waiting connection in order, or drops the rest at the first failure |
| `WorkerLoopCode.Loop.DrainCompletedResponses` | src/server/worker_loop.cpp:665-738 | hands back the whole batch, one result after another, each as `TakeResult` does |
| `WorkerLoopCode.Loop.TakeResult` | src/server/worker_loop.cpp:682-734 | the connection a result is for stays mapped, with the same token, the result last among those handed to it and EPOLLOUT armed exactly while something is queued, if and only if the result has 1 byte to 4 MiB, fits under the limit and epoll takes the new interest; otherwise it is closed; a result for a connection that is gone changes no connection |
| `WorkerLoopCode.HandBackMeans` | src/server/worker_loop.cpp:690-734 | the same of the step of a run, for every worker that satisfies the invariant |
| `WorkerLoopCode.EventMeans` | src/server/worker_loop.cpp:435-507 | after an event its connection is still mapped, as the same one, if and only if it was not closing, there was no hangup, neither the read nor the write announced ends it and epoll takes the new interest; otherwise it is closed |
| `WorkerLoopCode.Loop.AddConnection` | src/server/worker_loop.cpp:296-363 | succeeds exactly if epoll takes the descriptor, which is never one in use; the connection then has a token no connection ever had, waits to read and is not watched for writability; no other descriptor is touched and the worker's invariant is kept |
| `WorkerLoopCode.Loop.CloseFd` | src/server/worker_loop.cpp:563-598 | the descriptor is neither mapped nor watched, the coroutine has finished, no request was dispatched meanwhile and no other descriptor is touched |
| `WorkerLoopCode.Loop.UpdateEpollInterest` | src/server/worker_loop.cpp:764-786 | EPOLLOUT is armed exactly if something is queued, or epoll refused and the connection is closed; no other descriptor is touched |
| `WorkerLoopCode.Loop.CheckTimeouts` | src/server/worker_loop.cpp:426-433 | the loop over the map in any order ticks every connection once |
| `WorkerLoopCode.Loop.HandleEvent` | src/server/worker_loop.cpp:435-507 | the same connection goes on, not closing and with EPOLLOUT armed exactly if something is queued, if and only if the event does not end it and epoll takes the new interest; otherwise it is closed; no other descriptor is touched and the worker's invariant is kept |
| `PendingCalls.ExactlyOnceFirstWins` | src/client/pending_calls.cpp:186-253 | in every interleaving a waiter is delivered at most once with the outcome that first took the lock, no outcome is overwritten, none is bound both ways, and the waiters taken out are split into those on their way, those delivered and those removed |
| `PendingCalls.NoWaiterLost` | src/client/pending_calls.cpp:78-447 | whoever is bound at some point of a run is later still bound, on its way, delivered, or removed with its slot |
| `PendingCalls.FailAllClears` | src/client/pending_calls.cpp:347-390 | after `FailAll` no slot is undone or holds a waiter, and finished ones keep their result |
| `PendingCalls.FailTimedOutExactly` | src/client/pending_calls.cpp:400-447 | a pass at some time fails exactly the undone bound calls whose deadline has come: such a slot is done with the failure and holds nobody, and its waiter is on the way with it; any other slot is unchanged |
| `PendingCalls.NextKeeps` | src/client/pending_calls.cpp:78-154 | every operation keeps slots, waiters and outcomes consistent |
| `PendingCallsCode.PendingTable.BindPromise` | src/client/pending_calls.cpp:78-111 | succeeds exactly on a slot nobody is bound to; the promise is set at once with the recorded outcome if there is one, and otherwise waits and times out from its deadline on; no waiter is lost and no other slot changes |
| `PendingCallsCode.PendingTable.BindHandle` | src/client/pending_calls.cpp:122-154 | `kBound` if and only if the coroutine now waits in the slot; told `kAlreadyDone` it finds the recorded outcome by popping; in all other cases nothing changes |
| `PendingCallsCode.PendingTable.CompleteCall` | src/client/pending_calls.cpp:186-253 | succeeds exactly on a slot without outcome, which gets this one; at most one waiter comes out, to be woken with it, and nobody is left waiting; otherwise nobody is woken and nothing changes |
| `PendingCallsCode.PendingTable.PopResult` | src/client/pending_calls.cpp:307-322 | gives the recorded outcome exactly if there is one, once: the slot goes, and nobody was waiting in it |
| `PendingCallsCode.PendingTable.RemoveCall` | src/client/pending_calls.cpp:330-337 | the slot goes and exactly the waiters it held are dropped; nobody is woken, no outcome is forgotten and no other slot changes |
| `PendingCallsCode.PendingTable.FailCalls` | src/client/pending_calls.cpp:347-447 | the loop over the map in any order fails every call, or exactly the bound calls past their deadline, each done with the failure and its waiter returned; every other slot is unchanged, no waiter is lost and no earlier outcome changes |
| `ClientFrames.HandleReadableFrames` | src/client/rpc_client.cpp:86-147 | handles every complete frame in order and keeps the rest; a bad length or an unparsable body fails every call left |
| `ClientFrames.OnReadable` | src/client/rpc_client.cpp:669-731 | everything received is handled before the end of the stream is looked at; the failure of the calls left comes last, and names the unparsable body, the bad length or the closed peer, in that order |
| `ClientEof.OrderlyEof` | src/client/rpc_client.cpp:669-731 | in every run, with callers, arrivals and other calls' timeouts between the frames: a call that was written, had no outcome and does not time out returns, if it returns, the first response for it that arrived before the end, and the failure exactly if none had |
| `ClientEof.TimedOutCallFails` | src/client/rpc_client.cpp:621-630 | in every run a waiting call past its deadline when `FailTimedOut` comes by gets that failure for good: whatever happens later it returns nothing else |
| `ClientEof.LoopIsFrameSteps` | src/client/rpc_client.cpp:86-147 | handling the readable frames of a buffer in the loop is that many steps of such a run |
| `ClientRuns.DefensivePathsUnreachable` | src/client/rpc_client.cpp:440-561 | ids are never refused nor look like heartbeats, `BindAsync` never fails, `BindCoroutine` binds or finds the slot done, every pop finds its result |
| `ClientRuns.ReturnsItsFirstOutcome` | src/client/rpc_client.cpp:229-302 | what a call returns is the first outcome of its own slot, its own failure or a response frame with its own id |
| `ClientRuns.StepOk` | src/client/rpc_client.cpp:440-739 | every step of calls, dispatcher and connection keeps each call together with its slot, waiter or result |
| `ClientOnce.CallsAreAsAsked` | src/client/rpc_client.cpp:440-464 | the calls of a run are those begun, in order, each with the service, operation and payload it was begun with |
| `ClientOnce.WrittenAtMostOnce` | src/client/rpc_client.cpp:440-561 | in every run, with reconnects, the request of a call is written whole at most once over all connections: never before or after a failed send, exactly once while the call is under way |
| `ClientOnce.FailedSendNeverWritten` | src/client/rpc_client.cpp:464-480 | a request whose send has failed is on no connection, then or later |
| `EndToEnd.EveryResultIsOwed` | src/client/rpc_client.cpp:440-496 | in every run with out-of-order answers, timeouts, closes and reconnects, a call returns a failure of the client's own, not OK and without payload, or the result owed to its own request by the server it came from; asked only that, if the result is remote, the connection it came from was not used after a frame had broken off on it |
| `EndToEnd.HandledExactlyWhen` | src/server/connection.cpp:924-1001 | a remote result, from a connection that was not used after a frame had broken off on it, is exactly the handler's for the call's own key and payload if and only if the service is not the heartbeat's or the handler would have answered OK with nothing |
| `EndToEnd.CallsGetWhatHandlersReturn` | src/server/connection.cpp:1012-1061 | in every run a remote result of a call to any service but the heartbeat's is, for the handler under `service.operation` applied to the call's payload: OK with its reply, the code and text it failed with, the text of another exception behind a fixed phrase, or a fixed text; and a missing method is reported exactly if the key is not registered or the handler itself reports it |
| `EndToEndOnce.AnsweredAsAsked` | src/client/rpc_client.cpp:440-496 | the same in terms of the arguments the call was begun with |
| `EndToEndOnce.TakenAtMostOnce` | src/client/rpc_client.cpp:440-496 | in every run a request is taken by servers at most once, over all connections of the client that were not used after a frame had broken off |
| `EndToEndOnce.AnsweredWasTakenOnce` | src/client/rpc_client.cpp:440-496 | a call with a remote result was taken exactly once over all these connections, by the server whose response it returns |
| `EndToEndOnce.FailedSendNeverTaken` | src/client/rpc_client.cpp:464-480 | a request whose send failed is never taken by a server on these connections, so trying it elsewhere does not execute it twice |
| `EndToEndRun.ACallIsAnswered` | src/server/worker_loop.cpp:99-150 | for any lawful codecs, registry and request within the limits there is a run of both sides in which the call returns what it is owed, so the theorem above is about runs that happen |
| `EndToEnd.HeartbeatServiceAnswersItself` | src/server/connection.cpp:961-970 | in every run a remote result for the heartbeat service, from a connection that was not used after a frame had broken off on it, is OK and empty, whatever is registered |
| `EndToEndRun.HeartbeatHandlerShadowed` | src/server/connection.cpp:961-970 | a run of client and server, joined by their byte streams, in which a handler under the heartbeat service would have answered otherwise and is not what the call gets |
| `EndToEndTorn.TornHeartbeatMisleads` | src/client/rpc_client.cpp:414-433 | a run in which a heartbeat breaks off, the next request counts as sent, and the first body on the wire is made of both |
| `EndToEndTorn.TornCallMisanswered` | src/client/rpc_client.cpp:414-433 | for any codec with which that body reads as a request with the call's id, a joined run in which the call returns the answer to it |
| `EndToEndTorn.TornResultNotOwed` | src/client/rpc_client.cpp:414-433 | with lawful codecs and a joined server, a run in which a call returns a remote result that is not the one owed to it, so the hypothesis of the end-to-end theorems is needed |
| `Framing.TornFrameMisread` | src/protocol/codec.cpp:202-255 | what follows a frame that broke off completes it: the reader gets a body nobody sent |
| `Heartbeat.DispatcherClock` | src/client/rpc_client.cpp:614-659 | the dispatcher's loop over ticks and data keeps the clock of the model |
| `Heartbeat.HeartbeatBound` | src/client/rpc_client.cpp:633-657 | the k heartbeats since the last data satisfy k * interval < timeout |
| `Heartbeat.HeartbeatsExactly` | src/client/rpc_client.cpp:633-657 | an event makes the dispatcher send a heartbeat if and only if it is a tick, no tick so far found the connection idle for the timeout, and neither data nor a heartbeat was seen within the interval |
| `Heartbeat.NeverQuiet` | src/client/rpc_client.cpp:647-657 | at every tick of a running dispatcher data arrived or a heartbeat was sent less than an interval ago |
| `Heartbeat.StopsAtFirstIdleTick` | src/client/rpc_client.cpp:633-646 | the loop has stopped exactly when some tick found the connection idle for the timeout, counted from the last data alone |
| `ClientPool.RoundRobinIsFair` | src/client/load_balancer.cpp:10-16 | in any window over the same candidates, picks differ by at most one |
| `ClientPool.LeastInflightBalancer.Select` | src/client/load_balancer.cpp:18-63 | in range although the counts change between readings; a minimum of the first reading if one still shows it, in turn, else of the last |
| `ClientPool.LastReading` | src/client/load_balancer.cpp:43-56 | the last pass never comes back empty |
| `Failover.Pool.SelectChannel` | src/client/rpc_client_pool.cpp:97-130 | a healthy channel not excluded while there is one, otherwise the first |
| `Failover.Pool.Warmup` | src/client/rpc_client_pool.cpp:69-87 | the loop tries every channel; afterwards exactly those that could be connected are in service, and it succeeds exactly if there is one |
| `Failover.Pool.RecordReachability` | src/client/rpc_client_pool.cpp:136-152 | over the whole history of attempts and warm-ups, a channel is in service exactly if it was reached last or has since missed fewer attempts than the bound and no warm-up |
| `Failover.Pool.Call` | src/client/rpc_client_pool.cpp:181-231 | with replies that may differ at every attempt: attempts go to different healthy channels while there are any and then to the first, end at the first reply that is not a connection error, which is the result, or after as many as there are channels; every attempt is recorded |
| `Failover.OneAnsweringChannelSuffices` | src/client/rpc_client_pool.cpp:181-231 | whatever the replies, one healthy channel that always answers, or with some channel unhealthy the first, is enough for the call to return an answer |
| `Failover.AnswersComeFromReserve` | src/client/rpc_client_pool.cpp:181-231 | whatever the replies, an answer is the reply of a healthy channel or, with some channel unhealthy, of the first |
| `Failover.SucceedsExactlyWhen` | src/client/rpc_client_pool.cpp:181-231 | with one reply per channel the two meet: the call returns an answer if and only if such a channel gives one |
| `Failover.RetriedExactlyWhen` | src/client/rpc_client_pool.cpp:163-231 | the first reply is returned after that one attempt if and only if it is OK or contains none of the six phrases; otherwise another attempt follows on a channel not asked yet if a healthy one is left, and with one channel the reply is replaced |
| `Failover.ServedEverywhereReportedFailed` | src/client/rpc_client_pool.cpp:192-231 | if every server's handler ends in an error with such a text, each of them executes the request exactly once and the caller is told that all channels failed |
| `Failover.HandlerTextsCount` | src/client/rpc_client_pool.cpp:163-175 | any of the six phrases anywhere in what a handler throws makes its reply a connection error |
| `Failover.ConnectionErrorsAre` | src/client/rpc_client_pool.cpp:163-175 | the six phrases, literally |
| `Failover.OwnFailuresAreRetried` | src/client/rpc_client_pool.cpp:163-175 | the client's failures to connect, a closed or inactive connection and a call timeout count as connection errors |
| `Failover.BrokenConnectionsAreRetried` | src/client/rpc_client_pool.cpp:163-175 | so do a failed send and a stopped dispatcher, whatever the reason |
| `Failover.BrokenStreamIsAnAnswer` | src/client/rpc_client.cpp:95-121 | an unparsable response, a bad frame length and a dispatcher that could not start do not, and are passed on as answers |
| `Failover.AllFailedIsFinal` | src/client/rpc_client_pool.cpp:228-230 | the final failure is never itself taken for a connection error |
| `Traversal.Traverse` | src/codegraph/sqlite_codegraph_backend.cpp:446-481 | the three nested loops compute the levels of the model |
| `TraversalProofs.BoundedTree` | src/codegraph/sqlite_codegraph_backend.cpp:456-471 | the edges form a tree of at most `limit` edges, each discovering a node of its own reachable within its level |
| `TraversalProofs.ShortestAndComplete` | src/codegraph/sqlite_codegraph_backend.cpp:446-481 | with no truncated query, every level is the true distance; below the limit, the nodes are exactly those within the depth |
| `TraversalProofs.InIsOutReversed` | src/codegraph/sqlite_codegraph_backend.cpp:371-393 | searching inwards is searching outwards in the reversed graph |
| `TraversalProofs.ReportsCalls` | src/codegraph/sqlite_codegraph_backend.cpp:371-393 | every edge reported is a row of kind "calls": outwards from a caller found before, inwards from a callee found before |
| `TraversalProofs.QueryIsCutOff` | src/codegraph/sqlite_codegraph_backend.cpp:371-393 | a query that is cut off returns exactly as many rows as the limit allows, the first in the table |

## Left out

- Sockets, epoll, eventfd, fcntl and SQLite are replaced by parameters: what arrived, what was accepted, which events came, which rows match.
- C++ memory ordering, alignment and placement new: atomics are interleaved steps, storage is dead or alive.
- 64-bit counter wrap: positions, sequence numbers, tokens and ids are unbounded.
- The thread pool's worker and producer threads are steps of a state machine, not a class: their loops only make sense interleaved.
- The worker's map holds connection values, not objects; each connection object is proved against the same functions, and no two share state.
- The connection object keeps its flags, read deadline and coroutine place in one record field, and its histories are ghost.
- `PollOnce` runs without other threads in between; the theorems about runs interleave its parts with the acceptor and the pool at will.
- The wake descriptor is a parameter that says whether it fired; that it fires after every hand-over is not proved.
- Failover.Pool.Call: no other caller changes the health record during the call.
- `Submit` with an empty function, which is refused at once.
- `WaitAndPop` has no caller and is not modelled.
- `Connection::Serve`, `MarkClosed`, cross-thread hand-off of coroutine tasks, thread start and join.
- Protobuf is an uninterpreted pair of functions that undo each other; the mapping of error codes is the identity.
- The service registry is a finite map and handlers are pure functions.
- `CallAsync` and `CallCo` of the client pool, which make one attempt without a retry, and its statistics.
- Node rows of the traversal result, SQL text and JSON.
- The asynchronous logger, the MCP adapter, the native code-graph backend, benchmarks and demos.
- Liveness: that calls return or tasks run eventually depends on the scheduler and the network.
