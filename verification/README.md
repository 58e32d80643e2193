# Verified models of the cpp-components concurrency and protocol cores

This project models five parts of the cpp-components library and proves what they promise.

| part | files |
|---|---|
| the executor's doorbell: `ring()`, the eventfd, the drain handler, `stop()` | `Doorbell.dfy`, `DoorbellInvariant.dfy`, `DoorbellTheorems.dfy`, `ExecutorSteps.dfy`, `Executor.dfy` |
| `FixedRingBuffer` with wrapping 64-bit positions | `FixedRingBuffer.dfy`, `Powers.dfy` |
| the write pipeline of `SecureWebSocketClient` | `WriteBooks.dfy`, `WritePipeline.dfy` |
| its lazily re-armed read timeout | `ReadTimeout.dfy` |
| the reconnecting client: attempts, backoff, late callbacks | `Reconnect.dfy`, `ReconnectCycle.dfy`, `ReconnectDelays.dfy`, `ReconnectingClient.dfy` |
| the staged HTTPS request | `HttpsRequests.dfy`, `HttpsClientAsync.dfy` |

`dafny verify dfyconfig.toml` checks everything.

## How each part is modelled

**Doorbell.** Any number of producers, the kernel, the executor thread and `stop()` (called from another
thread, from a callback, or both) interleave at every access to shared memory. The two accesses to
`doorbell_armed` that carry the protocol, in `ring()` and before the drain, are read-modify-writes of one
atomic; the remaining ones are plain stores of false, and `is_stopping` is stored and loaded. Each is one
step, and the steps happen in one order. A state is a value, a run is a list of steps, and the theorems
quantify over all runs from the state that `setup_doorbell` leaves. A `ring()` before that is a no-op, as the
header says. The handler is the user's; the model relies on its contract: it returns false only after it found
the queue empty during that call, and returns true only after it took an item. A ring made on the executor
thread itself is one more producer. `Executor.dfy` holds the functions with the library's own control flow;
before each access the other threads take any number of steps, and the whole is recorded as a run, so the
theorems hold at every point of every function.

**Write pipeline.** A class over a heap-allocated ring buffer. Its ghost books record every write accepted,
how it was settled, each call of a write handler, by the write it belongs to, the other functions of the user
called, with the state the client was in, and what was accepted and handed to the stream on each connection. Settling a write and calling its
handler are two entries, made where the library does the two things; the invariant that user code may rely on
needs both. Streams are the environment: they complete each operation they hold at most once, in any order,
with any code. A user callback may call `write_now` any number of times; nothing else of the client runs at
once, because `write`, `connect` and `close` are posted. Connect and read completions carry no generation in
the source, so they may arrive at any time; no claim is made here that a late one is harmless.

**Reconnecting client.** The transitions are functions on a value, and include the connecting side of the base
class: a connection being opened has an operation in flight that holds the connect handler of its attempt, a
completion is dropped with its handler unless the base class is connecting, and otherwise goes on, fails or
ends the opening whatever connection it came from. A log records all that the client does. `ReconnectCycle.dfy`
says with an automaton of its own which logs there may be, `ReconnectDelays.dfy` what the delays are on runs on
which the limits are set at any time; neither uses the functions of the model to say it. The class beside them
has the source's fields and methods, each proved to make exactly one transition; the promises are lemmas about
all runs.

**Read timeout, HTTPS request.** Likewise a value with transitions and a class beside it. Pending callbacks and
operations in flight are the environment, as above. A timer wait that has expired may run its handler although
it is cancelled. Generations are unbounded numbers.

## Where the code and what is expected of it differ

- `executor.h:51-52` says that `ring()` writes to the eventfd only while the executor waits on the doorbell.
  The handler arms before it drains, so a ring during the drain may write as well: `BusyRingMayWrite` gives the
  run. `RingWritesExactly` says which rings write, and `HeaderPromiseExactly` on which runs the promise holds:
  those on which no ring that is the first since the handler armed falls between the read and the next wait.
  On every run `WakeupsCoalesce`: one write for each handler run, and one more.
- A reconnecting client can get stuck. `close()` and `connect()` while the first name lookup is still running:
  the aborted lookup passes the check of the base class, which is connecting again, and fails the new
  connection; its handler is ignored as one of an earlier attempt, and the new lookup is then dropped together
  with its handler, so the client stays in `connecting` with nothing to come. `MayGetStuck` gives the run,
  `NeverStuckExactly` says that nothing but such a completion, failing or finishing a later connection, can do
  it while timers work, and `StuckUntilClose` that only `close()` helps.
- After a successful connect the first reconnect delay is the initial delay, not limited to the maximum.
  `FirstDelayMayExceedMax` gives the run, and `BackoffClosedForm` says exactly when the delays follow the
  closed form: for every run from `connect()` on, and after a success if and only if the initial delay does
  not exceed the maximum.

## Model

| member | source | states |
|---|---|---|
| DoorbellTheorems.NoLostWakeup | cpp_components/executor/executor.cpp:180-256 | in every reachable state before stop, a non-empty queue means a wakeup is coming: a producer inside ring(), the eventfd written or read, or the handler before its last empty-check or owing a self-ring |
| DoorbellTheorems.EveryItemIsDrained | cpp_components/executor/executor.cpp:221-256 | once nobody pushes, posts or stops, every run has at most StepsLeft steps, some step is enabled while an item is queued, and a run that cannot go on has an empty queue, idle producers, an armed doorbell and a pending wait |
| DoorbellTheorems.StopQuiesces | cpp_components/executor/executor.cpp:82-109 | once stop() is called and the environment is silent, every run is bounded and comes to rest only with io_context.run and stop() returned; a graceful stop has run all posted callbacks, left no wait and a disarmed doorbell |
| DoorbellTheorems.StopCancelsTheWait | cpp_components/executor/executor.cpp:82-98 | a wait pending or about to be started while stopping means that the cancelling closure is still to be posted or run |
| DoorbellTheorems.NoWaitAfterCancel | cpp_components/executor/executor.cpp:91-98 | after such a closure has run, on every further run, no uncancelled wait is pending or started and no ring finds the doorbell armed |
| DoorbellTheorems.AtMostOneLateRun | cpp_components/executor/executor.cpp:231-256 | after is_stopping is stored at most one more handler call begins; after a stop() on the executor thread none does and no new wait starts |
| DoorbellTheorems.EventfdNeverOverflows | cpp_components/executor/executor.cpp:245-266 | the eventfd counter never exceeds the number of producers plus 3, so no write by a producer or the executor ever fails |
| DoorbellTheorems.WakeupsCoalesce | cpp_components/executor/executor.cpp:186-188 | ring writes, tokens and the armed flag together never exceed one plus the handler runs, and every run was caused by a write |
| DoorbellTheorems.NoRunWithoutRing | cpp_components/executor/executor.cpp:205-210 | on a run in which nobody rings the handler is never called |
| DoorbellTheorems.RingWritesExactly | cpp_components/executor/executor.cpp:180-189 | a ring gets to write if and only if it is the first since the handler armed, and since then the executor has not disarmed for a self-ring, retired the doorbell or run the cancelling closure |
| DoorbellTheorems.HeaderPromiseExactly | cpp_components/executor/executor.h:51-52 | a run writes only while the executor waits if and only if every ring that is the first since the handler armed falls into a wait |
| DoorbellTheorems.ForceStopStartsNothing | cpp_components/executor/executor.cpp:101-103 | once stop(true) has stopped the io_context, on every further run the executor starts no callback |
| DoorbellTheorems.ForcedOnlyIfAsked | cpp_components/executor/executor.cpp:101-103 | the io_context is stopped only on runs on which somebody has called stop(true), so a graceful stop drops no callback |
| DoorbellTheorems.BusyRingMayWrite | cpp_components/executor/executor.h:51-52 | a run in which a ring gets a token while the handler is draining |
| DoorbellTheorems.RunIsBounded | cpp_components/executor/executor.cpp:180-266 | every step of the library lowers StepsLeft, in any reachable state, stopping or not |
| DoorbellTheorems.SettledStates | cpp_components/executor/executor.cpp:221-243 | where nothing but the environment can move, the executor waits with an empty queue, or has returned |
| DoorbellInvariant.InvKept | cpp_components/executor/executor.cpp:180-256 | every step keeps the invariant: control flow, stop protocol, wakeups, the phase-wise counter bound and coalescing |
| Executor.Executor.constructor | cpp_components/executor/executor.cpp:191-212 | the state after setup_doorbell: armed, waiting, counter 0 |
| Executor.Executor.Promises | cpp_components/executor/executor.cpp:180-256 | at every point of every function, whatever the other threads do: no wakeup is lost, the counter is bounded, at most one late handler call, armed exactly when a ring would be the first |
| Executor.Executor.Ring | cpp_components/executor/executor.cpp:180-189 | the call is a part of a run in which this producer makes one exchange and, if it found the doorbell armed, one write, and nothing else |
| Executor.Executor.HandleDoorbell | cpp_components/executor/executor.cpp:221-243 | no handler call and a disarmed doorbell after an error or once stopping; unless stopping at the end exactly one call, and a wait goes on |
| Executor.Executor.RunDoorbellHandler | cpp_components/executor/executor.cpp:245-256 | exactly one handler call, and a disarm and a self-ring if it reports remaining work |
| Executor.Executor.CancelDoorbell | cpp_components/executor/executor.cpp:92-98 | the closure of stop() leaves the doorbell disarmed and no wait that is not cancelled |
| Executor.Executor.Stop | cpp_components/executor/executor.cpp:82-109 | the caller takes exactly the steps of a stop() with the flag it was given: one if the thread has been joined, else posting the closure, giving up the guard, stopping the context, and from another thread joining; a forced call leaves the context stopped; a call on the executor thread returns without a handler call in between, any other only once the thread has ended |
| Executor.Executor.RunOne | cpp_components/executor/executor.cpp:57-76 | io_context.run takes a ready callback and runs it, or returns only when stopped or out of work; it takes no step exactly if nothing is ready |
| FixedRingBuffer.MaskIsRemainder | cpp_components/fixed_ring_buffer/fixed_ring_buffer.h:96-99 | bitwise and with 2^k - 1 is the remainder modulo 2^k, for every position |
| FixedRingBuffer.SlotsDistinct | cpp_components/fixed_ring_buffer/fixed_ring_buffer.h:96-99 | fewer than capacity positions apart, slots are distinct, also across the wrap at 2^64 |
| FixedRingBuffer.DistanceSurvivesWrap | cpp_components/fixed_ring_buffer/fixed_ring_buffer.h:36-49 | the wrapping difference tail - head is the number of elements, and is zero exactly when the positions are equal |
| FixedRingBuffer.OneSlotOneElement | cpp_components/fixed_ring_buffer/fixed_ring_buffer.h:18-24 | writing one slot changes exactly one element of the contents and free slots |
| FixedRingBuffer.NextHead | cpp_components/fixed_ring_buffer/fixed_ring_buffer.h:89-93 | advancing the head turns the first slot into the last free one |
| FixedRingBuffer.FixedRingBuffer.constructor | cpp_components/fixed_ring_buffer/fixed_ring_buffer.h:101-103 | an empty buffer of the given power-of-two capacity |
| FixedRingBuffer.FixedRingBuffer.IsEmpty | cpp_components/fixed_ring_buffer/fixed_ring_buffer.h:36-39 | true exactly when the contents are empty |
| FixedRingBuffer.FixedRingBuffer.GetSize | cpp_components/fixed_ring_buffer/fixed_ring_buffer.h:46-49 | the number of queued elements |
| FixedRingBuffer.FixedRingBuffer.IsFull | cpp_components/fixed_ring_buffer/fixed_ring_buffer.h:41-44 | true exactly when capacity elements are queued |
| FixedRingBuffer.FixedRingBuffer.FillBackSlot | cpp_components/fixed_ring_buffer/fixed_ring_buffer.h:51-55 | filling the back slot in place changes the next free element and no queued one |
| FixedRingBuffer.FixedRingBuffer.PushBackSlot | cpp_components/fixed_ring_buffer/fixed_ring_buffer.h:57-61 | queues that element at the end; the head and every queued element stay |
| FixedRingBuffer.FixedRingBuffer.PushBack | cpp_components/fixed_ring_buffer/fixed_ring_buffer.h:63-75 | appends the value |
| FixedRingBuffer.FixedRingBuffer.GetFront | cpp_components/fixed_ring_buffer/fixed_ring_buffer.h:77-87 | the oldest element |
| FixedRingBuffer.FixedRingBuffer.PopFront | cpp_components/fixed_ring_buffer/fixed_ring_buffer.h:89-93 | drops the oldest element, which stays in its slot unreset |
| WriteBooks.ExactlyOnce | cpp_components/secure_websocket_client/secure_websocket_client.cpp:343-434 | every accepted write is settled, and its handler, if any, has been called exactly once, with that code, or is still queued, in order, and its handler has not been called; writes may share a handler |
| WriteBooks.CancelAllSettles | cpp_components/secure_websocket_client/secure_websocket_client.cpp:511-524 | failing the queue settles exactly the queued writes, in queue order, as cancelled |
| WriteBooks.AcceptKeeps | cpp_components/secure_websocket_client/secure_websocket_client.cpp:375-380 | queueing a write keeps conservation and the order on the stream |
| WriteBooks.HandOverKeeps | cpp_components/secure_websocket_client/secure_websocket_client.cpp:392-409 | handing over the front slot keeps what the stream was given a prefix of what was accepted |
| WriteBooks.SettleKeeps | cpp_components/secure_websocket_client/secure_websocket_client.cpp:418-422 | releasing the front slot settles the oldest write and leaves exactly its handler to be called |
| WriteBooks.CallKeeps | cpp_components/secure_websocket_client/secure_websocket_client.cpp:424-426 | calling that handler, or having none to call, makes the account even again |
| WriteBooks.Filled | cpp_components/secure_websocket_client/secure_websocket_client.cpp:375-379 | a slot filled over old data holds exactly the message, its type and its handler |
| WritePipeline.SecureWebSocketClient.constructor | cpp_components/secure_websocket_client/secure_websocket_client.h:170-173 | a disconnected client with nothing accepted |
| WritePipeline.SecureWebSocketClient.StartWrite | cpp_components/secure_websocket_client/secure_websocket_client.cpp:386-410 | hands over the front slot unless a write is in progress; afterwards nothing waits for a free stream |
| WritePipeline.SecureWebSocketClient.QueueWrite | cpp_components/secure_websocket_client/secure_websocket_client.cpp:360-384 | accepted if and only if connected, at most 8 KB and fewer than 2048 writes queued, and each refusal code if and only if its own reason; a refused write changes nothing, an accepted one is appended with its bytes |
| WritePipeline.SecureWebSocketClient.Burst | cpp_components/secure_websocket_client/secure_websocket_client.cpp:169-177 | any number of writes in one callback: accepted as long as there is room, so 2048 from an empty queue, and then refused for want of it |
| WritePipeline.SecureWebSocketClient.WriteNow | cpp_components/secure_websocket_client/secure_websocket_client.cpp:169-177 | refused off the executor thread, else answered exactly as queue_write answers; accepted without a handler |
| WritePipeline.SecureWebSocketClient.DoWrite | cpp_components/secure_websocket_client/secure_websocket_client.cpp:343-350 | the code is exactly that of queue_write; a refusal calls the handler once, with it |
| WritePipeline.SecureWebSocketClient.DoProtocolPing | cpp_components/secure_websocket_client/secure_websocket_client.cpp:352-358 | queues an empty ping frame exactly when connected and not full |
| WritePipeline.SecureWebSocketClient.HandleWrite | cpp_components/secure_websocket_client/secure_websocket_client.cpp:412-434 | a completion of an earlier connection changes nothing; the current one finds a non-empty queue, settles its front and calls its handler; an error then closes the connection, cancels the rest, also what the handler has queued, and reports one disconnection |
| WritePipeline.SecureWebSocketClient.CallHandler | cpp_components/secure_websocket_client/secure_websocket_client.cpp:424-426 | the handler released last, and no other, is called once, and may write again |
| WritePipeline.SecureWebSocketClient.FailPendingWrites | cpp_components/secure_websocket_client/secure_websocket_client.cpp:511-524 | terminates with an empty ring although handlers re-enter write_now, settles exactly the queue and calls each handler once, in order |
| WritePipeline.SecureWebSocketClient.DoClose | cpp_components/secure_websocket_client/secure_websocket_client.cpp:436-471 | from connected or connecting: disconnected, a new generation and every accepted write settled; otherwise only the close handler is called |
| WritePipeline.SecureWebSocketClient.HandleUnexpectedDisconnect | cpp_components/secure_websocket_client/secure_websocket_client.cpp:535-550 | closes a connected client and reports it once, when disconnected; nothing otherwise |
| WritePipeline.SecureWebSocketClient.DoConnect | cpp_components/secure_websocket_client/secure_websocket_client.cpp:179-197 | starts connecting, with a fresh stream, only from disconnected; else reports already_connected |
| WritePipeline.SecureWebSocketClient.HandleConnectStage | cpp_components/secure_websocket_client/secure_websocket_client.cpp:199-285 | ignored unless connecting; an error closes and is reported once |
| WritePipeline.SecureWebSocketClient.HandleWebsocketHandshake | cpp_components/secure_websocket_client/secure_websocket_client.cpp:287-307 | ignored unless connecting; the success is reported in the connected state, so that the handler may write, a failure after the close |
| WritePipeline.SecureWebSocketClient.HandleRead | cpp_components/secure_websocket_client/secure_websocket_client.cpp:323-341 | ignored unless connected; a message is passed on once; an error settles everything as cancelled and reports one disconnection |
| WritePipeline.SecureWebSocketClient.Callback | cpp_components/secure_websocket_client/secure_websocket_client.cpp:169-177 | any number of re-entrant write_now calls keep the invariant, and change nothing unless connected |
| WritePipeline.SecureWebSocketClient.Session | cpp_components/secure_websocket_client/secure_websocket_client.cpp:179-550 | any sequence of events over any number of connections keeps the invariant and takes nothing back from the books |
| WritePipeline.SecureWebSocketClient.Promises | cpp_components/secure_websocket_client/secure_websocket_client.cpp:343-434 | between two events: accepted is settled plus queued, everything is settled unless connected, what a stream was handed is a prefix of what was accepted, at most one write is outstanding on each connection, and none means an empty queue |
| ReadTimeout.LazyRefinesEager | cpp_components/secure_websocket_client/secure_websocket_client.cpp:597-628 | for every trace of messages, settings and looks at the timer, however late, the client disconnects at the same event as one whose timer every message resets, and is armed for no later than last_read_time + read_timeout |
| ReadTimeout.NeverEarly | cpp_components/secure_websocket_client/secure_websocket_client.cpp:615-628 | a client that disconnects has received nothing for the whole timeout |
| ReadTimeout.FiresAreRare | cpp_components/secure_websocket_client/secure_websocket_client.cpp:603-607 | since the timeout was set, fire k+2+q comes at least a timeout after fire k, for every trace and late timers, where q waits had been cancelled after they expired and their handlers, counted as fires too, were still to run then |
| ReadTimeout.ReadTimer.constructor | cpp_components/secure_websocket_client/secure_websocket_client.cpp:303-304 | the state after the handshake |
| ReadTimeout.ReadTimer.StartTimer | cpp_components/secure_websocket_client/secure_websocket_client.cpp:597-608 | arms for last_read_time + read_timeout if the timeout is on |
| ReadTimeout.ReadTimer.HandleMessage | cpp_components/secure_websocket_client/secure_websocket_client.cpp:323-334 | a message only moves last_read_time |
| ReadTimeout.ReadTimer.HandleTimeout | cpp_components/secure_websocket_client/secure_websocket_client.cpp:615-628 | re-arms for the rest, or disconnects |
| ReadTimeout.ReadTimer.LookAtTimer | cpp_components/secure_websocket_client/secure_websocket_client.cpp:605-607 | an expired wait is consumed and handled |
| ReadTimeout.ReadTimer.RunStaleHandler | cpp_components/secure_websocket_client/secure_websocket_client.cpp:615-628 | a handler whose wait was cancelled after it expired runs like any other |
| ReadTimeout.ReadTimer.SetTimeout | cpp_components/secure_websocket_client/secure_websocket_client.cpp:137-151 | restarts the period and the timer when connected |
| Reconnect.OneLiveCallback | cpp_components/secure_websocket_client/reconnecting_secure_websocket_client.cpp:123-194 | in every reachable state at most one pending callback would pass its check, once, and the state says of which kind |
| Reconnect.NeverStuckExactly | cpp_components/secure_websocket_client/reconnecting_secure_websocket_client.cpp:101-194 | an attempt or a wait always has its next callback to come if and only if no completion of an earlier attempt ends the opening of a later connection and no timer that is waited for fails |
| Reconnect.StuckUntilClose | cpp_components/secure_websocket_client/reconnecting_secure_websocket_client.cpp:142-148 | a stuck client stays stuck on every run without a close() |
| Reconnect.MayGetStuck | cpp_components/secure_websocket_client/secure_websocket_client.cpp:199-209 | a run that ends in connecting, with both handlers and nothing pending: an aborted lookup of an earlier attempt fails the new connection |
| Reconnect.ReadyIsNeverRefused | cpp_components/secure_websocket_client/reconnecting_secure_websocket_client.cpp:123-140 | a ready callback that passes its check finds the base class disconnected |
| ReconnectCycle.SessionsGoRound | cpp_components/secure_websocket_client/reconnecting_secure_websocket_client.cpp:101-204 | on every run the log obeys the cycle: an attempt is begun by connect() or the end of a wait, takes its four operations in order, and is reported; a failure and a loss are followed by a wait, and only the end of the wait by the next attempt; close() ends it |
| ReconnectCycle.SuccessTakesFourStages | cpp_components/secure_websocket_client/secure_websocket_client.cpp:199-307 | a reported success comes right after the lookup, the TCP connect and the two handshakes of its attempt, in this order |
| ReconnectCycle.OneWaitPerRetry | cpp_components/secure_websocket_client/reconnecting_secure_websocket_client.cpp:150-193 | between two attempts of one session that follow each other exactly one delay is scheduled, and the timer fires right before the second |
| ReconnectCycle.AttemptsAreCaused | cpp_components/secure_websocket_client/reconnecting_secure_websocket_client.cpp:101-194 | there are as many attempts as accepted connect() calls and reconnect timers fired |
| ReconnectCycle.LiveTimerDials | cpp_components/secure_websocket_client/reconnecting_secure_websocket_client.cpp:185-194 | the end of a wait leads to connecting, asks the user for a connection, and schedules nothing |
| ReconnectCycle.FailureWaits | cpp_components/secure_websocket_client/reconnecting_secure_websocket_client.cpp:150-155 | a failed attempt is reported and then waits, with one timer, for the delay the backoff has come to |
| ReconnectCycle.LossWaits | cpp_components/secure_websocket_client/reconnecting_secure_websocket_client.cpp:91-99 | so does a lost connection |
| ReconnectCycle.LogTellsAll | cpp_components/secure_websocket_client/reconnecting_secure_websocket_client.cpp:35-204 | the calls of the user's functions and the delays are those of the log, and a function is called exactly where the log has its turn and the last connect() has given it |
| ReconnectCycle.NoConnectIsLost | cpp_components/secure_websocket_client/reconnecting_secure_websocket_client.cpp:35-55 | every connect() begins a session or is refused and told so; a refused one changes nothing else |
| Reconnect.ClosedCallbacksAreInert | cpp_components/secure_websocket_client/reconnecting_secure_websocket_client.cpp:196-204 | a callback that existed at close() changes nothing about the attempts and calls no function of the user, whenever it arrives, in later sessions too; it does nothing at all if and only if it is not a connect operation delivered while another connection is being opened |
| Reconnect.ClosedSessionIsSilent | cpp_components/secure_websocket_client/reconnecting_secure_websocket_client.cpp:57-65 | after close() no function given to an earlier connect() is called again |
| Reconnect.BackoffClosedForm | cpp_components/secure_websocket_client/reconnecting_secure_websocket_client.cpp:158-174 | the k-th delay is min(initial * 2^k, max), but for the first after a success; the delays follow this form, and stay within the maximum, if and only if that exception makes no difference, and then never shrink |
| Reconnect.EveryAttemptIsReported | cpp_components/secure_websocket_client/reconnecting_secure_websocket_client.cpp:101-163 | on every run whose connect() calls pass both functions, requests for a connection and reports of one session alternate, each report right after its request; the last call tells how far the client has got |
| Reconnect.FirstDelayMayExceedMax | cpp_components/secure_websocket_client/reconnecting_secure_websocket_client.cpp:158 | a run whose first delay after a success is 90 s with a maximum of 60 s |
| ReconnectDelays.CurrentWithinMax | cpp_components/secure_websocket_client/reconnecting_secure_websocket_client.cpp:80-89 | on every run, setters included, the delay that is due in a session is within the maximum, but for the first one after a success |
| ReconnectDelays.MaxLimitsDelays | cpp_components/secure_websocket_client/reconnecting_secure_websocket_client.cpp:80-89 | after set_max_reconnect_delay every delay up to the next success, in later sessions too, is within the new maximum |
| ReconnectDelays.AfterSetMax | cpp_components/secure_websocket_client/reconnecting_secure_websocket_client.cpp:84-87 | the delays after it are the one that was due, doubled again and again, limited to the new maximum at once |
| ReconnectDelays.DelaysFromHere | cpp_components/secure_websocket_client/reconnecting_secure_websocket_client.cpp:165-183 | from any point of a session to its next success the delays are the one due, and then it doubled again and again up to the maximum |
| ReconnectDelays.InitialWaitsForSuccess | cpp_components/secure_websocket_client/reconnecting_secure_websocket_client.cpp:67-78 | set_initial_reconnect_delay changes nothing about a session that has begun until its next success: without it the same events lead to the same state |
| ReconnectDelays.SuccessStartsOver | cpp_components/secure_websocket_client/reconnecting_secure_websocket_client.cpp:158-162 | a success starts over with the initial delay |
| ReconnectDelays.LimitsAreLastSet | cpp_components/secure_websocket_client/reconnecting_secure_websocket_client.cpp:67-89 | the two limits are what has been set last |
| Reconnect.DoublingFits | cpp_components/secure_websocket_client/reconnecting_secure_websocket_client.cpp:174 | doubling the delay of a client in a session does not overflow 64 bits when twice the initial and twice the maximum delay do not |
| Reconnect.DoublingFitsExactly | cpp_components/secure_websocket_client/reconnecting_secure_websocket_client.cpp:174 | no delay of the closed form overflows when doubled if and only if twice the maximum fits |
| ReconnectingClient.ReconnectingSecureWebSocketClient.constructor | cpp_components/secure_websocket_client/reconnecting_secure_websocket_client.h:69-74 | idle, delays of 1 s and 60 s |
| ReconnectingClient.ReconnectingSecureWebSocketClient.Connect | cpp_components/secure_websocket_client/reconnecting_secure_websocket_client.cpp:35-55 | starts a session only from idle |
| ReconnectingClient.ReconnectingSecureWebSocketClient.Close | cpp_components/secure_websocket_client/reconnecting_secure_websocket_client.cpp:57-65 | a new generation, idle, no handlers, the base class disconnected |
| ReconnectingClient.ReconnectingSecureWebSocketClient.SetInitialReconnectDelay | cpp_components/secure_websocket_client/reconnecting_secure_websocket_client.cpp:67-78 | changes the current delay only when idle |
| ReconnectingClient.ReconnectingSecureWebSocketClient.SetMaxReconnectDelay | cpp_components/secure_websocket_client/reconnecting_secure_websocket_client.cpp:80-89 | limits the current delay at once |
| ReconnectingClient.ReconnectingSecureWebSocketClient.StartConnectAttempt | cpp_components/secure_websocket_client/reconnecting_secure_websocket_client.cpp:101-121 | a new generation; asks for the connection if there is a function to ask |
| ReconnectingClient.ReconnectingSecureWebSocketClient.HandleConnectionReady | cpp_components/secure_websocket_client/reconnecting_secure_websocket_client.cpp:123-140 | the check, then do_connect of the base class |
| ReconnectingClient.ReconnectingSecureWebSocketClient.HandleConnectStage | cpp_components/secure_websocket_client/secure_websocket_client.cpp:199-285 | dropped with its handler unless connecting; fails the connection, or starts the operation that is next in the cycle, with the same handler |
| ReconnectingClient.ReconnectingSecureWebSocketClient.HandleWebsocketHandshake | cpp_components/secure_websocket_client/secure_websocket_client.cpp:287-307 | dropped with its handler unless connecting; fails the connection, or completes it |
| ReconnectingClient.ReconnectingSecureWebSocketClient.HandleConnectResult | cpp_components/secure_websocket_client/reconnecting_secure_websocket_client.cpp:142-163 | the check, then success or another wait |
| ReconnectingClient.ReconnectingSecureWebSocketClient.ScheduleReconnect | cpp_components/secure_websocket_client/reconnecting_secure_websocket_client.cpp:165-183 | waits the current delay and doubles it up to the maximum, unless idle |
| ReconnectingClient.ReconnectingSecureWebSocketClient.HandleReconnectTimer | cpp_components/secure_websocket_client/reconnecting_secure_websocket_client.cpp:185-194 | the check, then a new attempt |
| ReconnectingClient.ReconnectingSecureWebSocketClient.HandleUnexpectedDisconnect | cpp_components/secure_websocket_client/secure_websocket_client.cpp:535-543 | only from connected; then reconnects only if the attempts are at connected |
| ReconnectingClient.ReconnectingSecureWebSocketClient.OnUnexpectedDisconnect | cpp_components/secure_websocket_client/reconnecting_secure_websocket_client.cpp:91-99 | reconnects only from connected |
| HttpsRequests.ExactlyOnce | cpp_components/https_client_async/https_client_async.cpp:104-342 | on every run all accepted requests but one in progress have been answered exactly once, in order, to their own handlers, by an idle client; the one in progress has a stream and one operation of the current generation |
| HttpsRequests.NoRequestIsLost | cpp_components/https_client_async/https_client_async.cpp:104-113 | the requests made on a run are, handler for handler, those accepted and those refused |
| HttpsRequests.RefusalsDisturbNothing | cpp_components/https_client_async/https_client_async.cpp:104-113 | without its refused requests a run is still possible and ends in the same state, but for the refusals reported |
| HttpsRequests.AnsweredWithinFive | cpp_components/https_client_async/https_client_async.cpp:159-279 | a request is answered within five of its completions, whatever else happens |
| HttpsRequests.CurrentCompletionCounts | cpp_components/https_client_async/https_client_async.cpp:159-279 | a current completion starts the next of the five stages or answers, with a response exactly after five successes |
| HttpsRequests.StaleCompletionIsInert | cpp_components/https_client_async/https_client_async.cpp:286-290 | a completion of another request changes nothing |
| HttpsRequests.CancelledIsInert | cpp_components/https_client_async/https_client_async.cpp:144-157 | a cancelled request is answered at once and none of its completions does anything later |
| HttpsClientAsync.HttpsClientAsync.DoRequest | cpp_components/https_client_async/https_client_async.cpp:104-142 | refused unless idle; else a new generation, a stream and the resolve operation |
| HttpsClientAsync.HttpsClientAsync.DoCancel | cpp_components/https_client_async/https_client_async.cpp:144-157 | answers the request in progress as cancelled |
| HttpsClientAsync.HttpsClientAsync.HandleResolve | cpp_components/https_client_async/https_client_async.cpp:159-178 | goes on to connecting |
| HttpsClientAsync.HttpsClientAsync.HandleConnect | cpp_components/https_client_async/https_client_async.cpp:180-212 | goes on to the handshake, or fails on the TLS settings |
| HttpsClientAsync.HttpsClientAsync.HandleSslHandshake | cpp_components/https_client_async/https_client_async.cpp:214-233 | goes on to writing |
| HttpsClientAsync.HttpsClientAsync.HandleWrite | cpp_components/https_client_async/https_client_async.cpp:235-254 | goes on to reading |
| HttpsClientAsync.HttpsClientAsync.HandleRead | cpp_components/https_client_async/https_client_async.cpp:256-279 | answers with the response |
| HttpsClientAsync.HttpsClientAsync.FailRequest | cpp_components/https_client_async/https_client_async.cpp:322-328 | destroys the stream and answers with an error |
| HttpsClientAsync.HttpsClientAsync.CompleteRequest | cpp_components/https_client_async/https_client_async.cpp:330-342 | forgets the handler and becomes idle before answering |

## Left out

- Asio, Beast, OpenSSL and libcurl: resolving, TLS, framing, sockets and certificates appear only as operations that complete with some code.
- Executor priority, affinity, thread creation errors and the abort on an exception: single-branch wrappers.
- The doorbell read failing for another reason than cancellation: it retires the doorbell on purpose, so the progress theorems assume it does not happen.
- Weak memory: every step takes effect at once, also the relaxed stores of false; and start() running together with stop(), which the header forbids.
- RunOne: one turn of the loop in `run()`; that the loop goes on to the end is in the theorems about runs, not in the class.
- Stop: a call from another thread that waits in join() is left waiting; the theorems say that the thread ends.
- EveryItemIsDrained: the queue the handler drains is a number of items, because it is the caller's, and its order is not the library's.
- Write memory after close: whether a stream of an earlier connection still reads a slot that is being reused is up to Beast.
- HandleConnectStage: a connect or read completion of an earlier connection is not told apart, as in the source, so no claim is made that it is harmless; what a connect completion can do to the attempts is in `Reconnect.dfy`.
- HandleUnexpectedDisconnect: a read completion of an earlier connection may cause it, as in the source.
- Wrap-around of the 64-bit generation counters: generations are unbounded.
- Ping scheduling, the ping generator, read buffer padding, HTTP method mapping, headers and bodies, logging and benchmarks.
- The multiplexing HTTPS client and the timer wrapper: event plumbing over libcurl and steady_timer.
- A ready function called more than once for one attempt, a reconnecting client driven through its base class, and negative delays.
