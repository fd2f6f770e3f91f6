# Space Captain: queue, wire format and server loop in Dafny

This project models the concurrent core and the server of Space Captain and proves what they
promise.

**The bounded MPMC queue** (`src/generic_queue.c`). `Ring` is the circular buffer as a value, one
function for each assignment the C code makes under the write lock, in wrapping 64-bit arithmetic.
`GenericQueue` is the queue as an object whose array and indices are updated in place, with its
acquisition and release of memory and pthread objects (on the `Ledger` of `Resources`). `QueueModel`
is the queue as a transition system: any number of threads, each making any sequence of `add`,
`pop`, `try_add`, `try_pop` and status calls, interleaved at every lock, unlock, single ring
assignment, wait, wakeup, signal and return. A put is three separate steps (slot, index, size), so
that it looks atomic is proved, not assumed. A wait may end by a signal, by expiry, by an error or
spuriously. The history in `log` is a sequence of events; `Replay` runs it on an abstract FIFO queue.
`QueueInvariant`, `QueueCalls` and `QueueProgress` hold the inductive invariants, `QueueTheorems`
what follows for every schedule, `QueueLimits` what a timeout says about the queue, `QueueSignals`
what a signal does, and `QueueWitness` runs that exist.

**The server** (`src/server.c`, with the session calls of `src/dtls.c` in `DtlsSession`).
`ClientList` is the heap list `g_clients`: nodes linked in at the head, unlinked through a pointer to
a pointer, freed during traversal; following a freed node, or destroying a session twice, would
violate a precondition. `Clients` is the list as a value and the map it stands for. `ServerModel` is
the main loop as a transition system in which mbed TLS, the network and the clock may do anything
their contracts allow; `ServerInvariant` and `ServerTheorems` hold what every run keeps, `ServerFate`
what becomes of datagrams and clients. `Server` is `main`'s nested loops over the heap list, each
method proved to be steps of `ServerModel`, so `Serve` as a whole is one of its runs. `Wire` has the packed header and the reply built in the receive buffer, for hosts of
either byte order. `DtlsContext` has the `goto error` construction of the DTLS context.

Where the code does not do all that its documentation suggests, the model follows the code.

- The queue's documentation says an add will time out if the queue "remains full", a pop if it
  "remains empty" (`src/generic_queue.c:249` and `:305`). That holds: `QueueLimits.TimesOutAtLimit`.
  The converse, that a timeout means the queue remained full (or empty), does not. The code waits
  after dropping the lock, so a wakeup can be missed: `QueueWitness.TimeoutIsNotFullness` and
  `TimeoutIsNotEmptiness` give, for every capacity, a run in which the call times out although the
  queue had room (or an item) before its wait began. `QueueLimits` has the exact conditions. Looking
  back, from the test that sent the call to wait the queue remained at its limit exactly until the
  first take (or put), `TimeoutSpan`. Looking ahead from that test, with nobody beginning a take (or
  put), the queue is sure to have remained at its limit when the call times out exactly when no call
  in progress may still take (or put), `TimeoutExactness`.
- A reply to a message is attempted, not assured: when the write would block, or takes only a part,
  the server keeps the client and never tries again. `ServerTheorems.ReplyCanBeLost` gives a run for
  every message, and `RepliesAcceptedExactly` says when all replies of a run are accepted whole.

## Model

| member | source | states |
|---|---|---|
| Portability.MulOverflow | src/portability.h:45-51 | overflow is reported exactly when the true product leaves size_t; otherwise the wrapped product is the true one |
| Portability.AddOverflow | src/portability.h:54-60 | the same for addition |
| Portability.SubOverflow | src/portability.h:63-69 | underflow is reported exactly when the true difference is negative; otherwise the result is exact |
| Ring.PutAppends | src/generic_queue.c:290-292 | wherever head stands, the three assignments append the item to the live contents and keep the ring valid |
| Ring.TakeRemovesOldest | src/generic_queue.c:348-350 | the three assignments remove exactly the oldest item, which is the one loaded and is not NULL |
| Ring.TailIsModulo | src/generic_queue.c:291 | the ring invariant is tail == (head + size) % capacity with non-NULL live slots |
| Ring.CapIsHalf | src/generic_queue.h:33 | the cap is 2^60 - 1 slots, half of what size_t can count in bytes |
| Ring.NoWrap | src/generic_queue.h:33 | under the capacity cap head + 1, tail + 1, size + 1 and size - 1 never wrap |
| GenericQueue.OwnedIsAll | src/generic_queue.c:113-169 | a queue owns one of every kind of resource |
| GenericQueue.Queue.Init | src/generic_queue.c:98-175 | for every capacity and every set of failing acquisitions: NULL exactly when refused or something fails, the right error code, and on NULL everything acquired is released; the multiplication check is unreachable |
| GenericQueue.Queue.Put | src/generic_queue.c:290-292 | the in-place assignments implement the put of Ring |
| GenericQueue.Queue.Take | src/generic_queue.c:348-350 | the in-place assignments implement the take of Ring |
| GenericQueue.Queue.TryAdd | src/generic_queue.c:370-399 | NULL arguments are refused, a full queue reports FULL, and nothing changes; otherwise the item is appended and consumers are signalled once; queue_errno is the result |
| GenericQueue.Queue.TryPop | src/generic_queue.c:405-436 | NULL arguments are refused; on an empty queue EMPTY, `*item` is NULL and nothing changes; otherwise `*item` is the oldest item, which leaves, and producers are signalled once |
| GenericQueue.Queue.AnswerEmpty | src/generic_queue.c:445-457 | true exactly for a queue without items; false and ERR_NULL for a NULL queue |
| GenericQueue.Queue.AnswerFull | src/generic_queue.c:462-474 | true exactly for a queue with as many items as its capacity; false and ERR_NULL for a NULL queue |
| GenericQueue.Queue.AnswerSize | src/generic_queue.c:479-491 | the number of items; 0 and ERR_NULL for a NULL queue |
| GenericQueue.Queue.Nuke | src/generic_queue.c:181-205 | a NULL queue is refused; otherwise all six resources are released once each, except a rwlock that cannot be destroyed, which is reported |
| GenericQueue.Queue.Drain | src/generic_queue.c:221-230 | the callback gets exactly the remaining items, once each, oldest first, for every position of head; size ends 0 |
| GenericQueue.Queue.NukeWithCleanup | src/generic_queue.c:211-242 | drains to the callback and then releases every resource once; a NULL queue is reported in queue_errno, which is otherwise not touched |
| QueueInvariant.CoreKept | src/generic_queue.c:253-491 | every step keeps: lock owners match thread positions, the shared ring is the last complete ring plus the writer's half-done assignments, and the history replays to its contents |
| QueueTheorems.FifoRefinement | src/generic_queue.c:253-436 | in every reachable state of every schedule the history is a legal history of one bounded FIFO queue, pushed == popped + contents, and the shared ring is that queue whenever no writer is inside |
| QueueTheorems.ReplayConserves | src/generic_queue.c:290-292 | any legal history loses, duplicates and reorders nothing and never exceeds the capacity |
| QueueTheorems.RingBounds | src/generic_queue.c:290-292 | in every reachable state, also mid-update, indices are inside the buffer and no computation wraps; between writers the ring invariant holds |
| QueueTheorems.MutualExclusion | src/generic_queue.c:261-301 | a writer excludes all readers and other writers, only the holder of the write lock changes the ring and only lock holders look at it, cond_mutex has one owner, and that owner never holds the rwlock |
| QueueTheorems.LockRules | src/generic_queue.c:261-301 | in every reachable state: who may take each lock now, readers sharing theirs; nothing else holds up a call; a wait may end in any way |
| QueueTheorems.DeadlockFreedom | src/generic_queue.c:261-301 | while a call is unfinished some call in progress can step by itself, or the wait of the unfinished call can expire |
| QueueTheorems.EveryScheduleReturns | src/generic_queue.c:253-436 | under every schedule a run takes at most 22 steps per call begun and 9 per spurious wakeup, on top of 24 per thread already in a call; where no forced step is left, every call has returned |
| QueueTheorems.EveryCallCanReturn | src/generic_queue.c:263-288 | from every reachable state some continuation of at most 12 steps per thread returns every call in progress |
| QueueTheorems.ReturnsExplained | src/generic_queue.c:253-491 | return value, queue_errno and `*item` follow from the arguments and the call's own events since it began: ERR_NULL exactly for a NULL queue or argument, success is exactly one push or pop, failure none |
| QueueTheorems.Linearized | src/generic_queue.c:253-491 | each event of a call stands in the history after the call began, at a point where the abstract queue allowed it |
| QueueTheorems.FailedCallsSawTheLimit | src/generic_queue.c:263-285 | an add that gave up saw the queue full during the call, a pop that gave up saw it empty and left `*item` NULL, and neither had an effect |
| QueueTheorems.StatusSnapshots | src/generic_queue.c:445-491 | is_empty, is_full and get_size answer whether one queue that existed during the call was empty, was full, and how long it was, and leave no other event |
| QueueTheorems.WakeupCredit | src/generic_queue.c:263-288 | over any run, counted step by step, blocked adds go back to the lock at most once per successful pop or try_pop plus once per spurious wakeup, and dually |
| QueueTheorems.EverySuccessSignals | src/generic_queue.c:296-299 | over any run, counted step by step, puts signal consumers and takes producers at most once each, and exactly once each when no call is in progress |
| QueueSignals.SignalWakesOne | src/generic_queue.c:296-299 | a signal sent while the other side has waiters ends the wait of exactly one of them with result 0, is lost otherwise, and touches nobody else |
| QueueSignals.SignalledTakesEffect | src/generic_queue.c:263-301 | under every schedule a waiting call that is signalled tests again; unless it finds the limit again it takes effect once and returns nothing but SUCCESS, and where no forced step is left it has returned |
| QueueSignals.CallsReportTheirWait | src/generic_queue.c:273-285 | TIMEOUT is reported only when the last wait expired, a thread error only when it failed; a wait ended by a signal is reported by neither |
| QueueLimits.LimitRemains | src/generic_queue.c:263-280 | a full queue remains full up to the first take, an empty one empty up to the first put, and no longer |
| QueueLimits.TimeoutSpan | src/generic_queue.c:263-285 | a call that gave up has a last test that found the limit, and from it on the queue remained full (or empty) exactly as long as nobody took (or put) |
| QueueLimits.LimitLastsExactly | src/generic_queue.c:249 | in every reachable state a full queue is sure to remain full, while nobody begins a take, exactly when no call in progress may still take; dually for empty queues and puts |
| QueueLimits.TimeoutExactness | src/generic_queue.c:263-280 | at the test that sends an add to wait, while nobody begins a take: under every schedule the queue has remained full up to the moment the call times out, exactly when no call in progress may still take; dually for pop |
| QueueLimits.TimesOutAtLimit | src/generic_queue.c:249 | as documented: while the queue remains full and its own waits do not fail, an add takes no effect and returns nothing but TIMEOUT, and where no forced step is left it has returned TIMEOUT; dually for pop |
| QueueWitness.UncontendedCall | src/generic_queue.c:253-302 | with locks free and room (or an item), a call succeeds without a step by any other thread |
| QueueWitness.WokenCallSucceeds | src/generic_queue.c:263-301 | at the limit a waiting call is woken by the signal of the call that relieves it and succeeds, no wait ending by itself; items keep their order |
| QueueWitness.SignalWakesPop | src/generic_queue.c:298 | for every capacity and item, a pop waiting on the empty queue is woken by an add and returns its item |
| QueueWitness.SignalWakesAdd | src/generic_queue.c:354-357 | for every capacity and item, an add waiting on the full queue is woken by a pop and puts its item last |
| QueueWitness.TimesOutUnblocked | src/generic_queue.c:263-280 | from any full queue an add and a take (from any empty queue a pop and a put) can interleave so that the first times out although nothing blocks it any more |
| QueueWitness.TimeoutIsNotFullness | src/generic_queue.c:263-280 | for every capacity some run from the start ends with a timed-out add and room in the queue |
| QueueWitness.TimeoutIsNotEmptiness | src/generic_queue.c:319-336 | for every capacity some run from the start ends with a timed-out pop and an item in the queue |
| Wire.BytesOfNumber | src/message.h:38-46 | writing the big-endian number read from bytes gives the bytes back |
| Wire.NumberOfBytes | src/message.h:38-46 | reading the bytes of a number that fits gives the number back |
| Wire.NetworkLoad | src/server.c:380-382 | loading a field and converting it reads the big-endian value on hosts of either byte order |
| Wire.NetworkStore | src/server.c:421-422 | converting and storing writes the big-endian bytes on hosts of either byte order |
| Wire.HeaderLayout | src/message.h:38-46 | each field byte by byte: offsets 0, 2, 4, 8 and 16, high byte first |
| Wire.HostOrder | src/server.c:380-382 | what a two-byte load gives on a host of either byte order |
| Wire.ParseSerialize | src/message.h:38-46 | parsing the 18 bytes of any header gives the header back |
| Wire.SerializeParse | src/message.h:38-46 | serializing the parse of any 18 bytes gives the bytes back |
| Wire.PingBytes | src/server.c:392-418 | a PONG is the answer exactly to at least 18 bytes that begin 0, 1, 0, 6 and announce a payload of at most 4078 |
| Wire.ReplyRewritesType | src/server.c:418-428 | the reply to a PING differs only in the two type bytes, now 0x1005 |
| Wire.ReplyProperties | src/server.c:376-454 | over all byte strings: length kept, changed exactly for a well-formed version-1 PING, only at offsets 2 and 3, and idempotent |
| Wire.PingGetsPong | src/server.c:418-428 | the PONG keeps sequence number, timestamp, payload length and payload |
| Wire.RawResponse | src/server.c:420-428 | copying raw fields and converting only version and type gives the big-endian PONG header |
| Wire.Respond | src/server.c:376-454 | the in-place code turns the received bytes into the reply and leaves the rest of the buffer alone |
| Dtls.RecvTimesDrops | src/dtls.c:121-145 | however often a session receives, and whichever calls fail, what is left is what was there less one datagram from the front for each call that does not fail, whoever sent it |
| Dtls.OneReceive | src/dtls.c:121-145 | each result of one call exactly: only a server's session refuses a datagram, and only one whose sender is not its peer |
| Dtls.RecvFailures | src/dtls.c:129-134 | over many calls, exactly the failing ones report a failure |
| Dtls.RecvDelivers | src/dtls.c:121-145 | of the datagrams taken a server session is given exactly as many as came from its peer, and a client session all: the others are lost |
| Clients.FindIsLookup | src/server.c:45-55 | the list search is lookup in the map the list stands for |
| Clients.AddIsInsert | src/server.c:79-81 | linking in at the head is map insertion and keeps keys distinct |
| Clients.UnlinkIsRemoval | src/server.c:96-103 | unlinking a client is map removal |
| Clients.SweepIsFilter | src/server.c:115-128 | a timeout check is the filter of the map by silence of at most 30 seconds; the shutdown leaves nothing |
| ClientList.ClientList.FindClient | src/server.c:45-55 | returns the first node with the key, or null when there is none |
| ClientList.ClientList.AddClient | src/server.c:58-88 | adds a client with a fresh session at the head; when the session cannot be created the allocated node is freed again, and when either step fails the list does not change |
| ClientList.ClientList.FindLink | src/server.c:97-100 | the pointer walk stops at the one link that points to the client, or at the end of the chain when none does |
| ClientList.ClientList.Unlink | src/server.c:96-103 | exactly the given node leaves the chain, all others stay in order; nothing changes when it is not in the chain |
| ClientList.ClientList.RemoveClient | src/server.c:91-112 | unlinks exactly that node if it is in the list, and in any case frees it and destroys its session if it has one, once each |
| ClientList.ClientList.CheckTimeouts | src/server.c:115-128 | the sweep yields the order-preserving filter, follows no freed node, and frees and destroys exactly the expired clients and their sessions |
| ClientList.ClientList.RemoveAllClients | src/server.c:475-477 | the shutdown loop ends with an empty list, every node freed and every session destroyed |
| ServerInvariant.StepInv | src/server.c:286-477 | every step keeps distinct keys and sessions, agreeing handshake flags, the protocol of every address, the session ledger, the 30-second bound at the last check and the meaning of last_activity |
| ServerTheorems.TableInvariant | src/server.c:45-112 | over every run keys and sessions are distinct, find_client is map lookup, and sessions created less destroyed is the list length |
| ServerTheorems.SessionsOnce | src/dtls.c:367-439 | each session is created at most once, destroyed at most once and only afterwards, and is listed exactly in between |
| ServerTheorems.ShutdownDestroysAll | src/server.c:475-477 | after shutdown every session ever created has been destroyed exactly once |
| ServerTheorems.ProtocolTrace | src/server.c:341-467 | over every run each address's events follow create, handshakes, completion, data, removal; after a failure only the removal; the two handshake flags agree |
| ServerTheorems.DataFollowsHandshake | src/server.c:362-366 | application data is read or written only after the handshake of the same session completed, with no removal in between |
| ServerTheorems.StalenessBound | src/server.c:298-303 | just before each timeout test no listed client has been silent, since its last peeked datagram, for more than 34 seconds plus the time since the previous test |
| ServerTheorems.StalenessAttained | src/server.c:298-303 | the bound is attained for every gap between tests |
| ServerTheorems.CheckLeavesFresh | src/server.c:115-128 | a check is made exactly when the last was made at least 5 seconds ago, and keeps exactly the clients silent for at most 30 seconds, in order |
| ServerTheorems.EveryReplyAttempted | src/server.c:365-454 | over every run the reply to each message read is attempted once, at once, in its session; nothing else is written; and each attempt is accepted in part or whole, or would block with the client kept, or fails and removes the client |
| ServerTheorems.RepliesAcceptedExactly | src/server.c:430-435 | the replies of a run are all accepted whole exactly when every write after a successful read takes the whole reply |
| ServerTheorems.ReplyCanBeLost | src/server.c:430-435 | every message of every length has a run in which its reply is lost and the client stays |
| ServerTheorems.IterationDescends | src/server.c:310-468 | without new arrivals each iteration of the receive loop lowers (datagrams, buffered plaintext, completed clients), also when a closed peer is removed without a recvfrom |
| ServerFate.IterationTakes | src/server.c:310-468 | an iteration takes its datagrams from the front: recvs + writeRecvs for an answered message, recvs for a closed peer, one for a client that cannot be added, recvs + 1 otherwise, as far as there are any |
| ServerFate.DatagramsConserved | src/server.c:310-468 | over every run, what arrived is what sessions took, what main's own recvfrom took and what still waits, in order of arrival |
| ServerFate.IterationFate | src/server.c:325-467 | an iteration serves the sender of the first datagram, listed or added; that client leaves exactly when mbed TLS returned neither success nor WANT_READ nor WANT_WRITE, and otherwise has been heard now; no other client is touched |
| ServerFate.ClientsLeaveExactly | src/server.c:91-128 | over every run a client leaves exactly through a failed operation on its session, a check that finds it silent for more than 30 seconds, or the shutdown |
| ServerFate.MessageHandled | src/server.c:365-454 | what is read is the plaintext mbed TLS returned, its reply is attempted next, and a failed attempt costs the client |
| ServerFate.AnyReturnPossible | src/dtls.c:441-523 | the model does not restrict what a read, handshake or write may return |
| DtlsSession.Session.Handshake | src/dtls.c:441-470 | sets the session's flag exactly for a return of 0 and maps every return value, each result for exactly its own values; INVALID_PARAMS for NULL |
| DtlsSession.Session.Read | src/dtls.c:472-498 | stores the plaintext and its length exactly for a positive return and maps every return value, each result for exactly its own values; for NULL arguments INVALID_PARAMS and nothing changes |
| DtlsSession.Session.Write | src/dtls.c:500-523 | reports how much was taken and maps every return value, each result for exactly its own values; for NULL arguments INVALID_PARAMS and nothing changes |
| DtlsSession.Session.Destroy | src/dtls.c:433-439 | destroys the session, which must not have been destroyed before; NULL is ignored |
| Server.Server.Handshake | src/server.c:343 | the call for a listed client is the model's handshake step, and returns the mapped result |
| Server.Server.Read | src/server.c:364-366 | the call for a listed client is the model's read step: the plaintext is in the buffer and its length returned exactly on success |
| Server.Server.Write | src/server.c:430-431 | the call for a listed client is the model's write step: the buffer is sent and the number of bytes taken returned |
| Server.Server.HandshakeTurn | src/server.c:341-361 | the handshake branch over the heap list is the model's |
| Server.Server.DataTurn | src/server.c:362-467 | the data branch over the heap list and buffer is the model's |
| Server.Server.Iteration | src/server.c:310-468 | one iteration over the heap list is one step of the model |
| Server.Server.DrainSocket | src/server.c:310-468 | while any finite number of datagrams arrives the receive loop ends, and unless the peek hits a hard error it leaves no datagram behind |
| Server.Server.TimeoutTest | src/server.c:298-303 | the test and sweep are the model's |
| Server.Server.Round | src/server.c:286-470 | one round of the event loop is a run of the model |
| Server.Server.Serve | src/server.c:286-477 | the event loop and shutdown together are a run of the model that ends with an empty list |
| DtlsContext.ContextCreate | src/dtls.c:214-335 | for every role, argument and failing step: NULL exactly when a step that applies fails, with nothing left live; otherwise exactly the parts the flags record are live, and a pin is kept only for a client and a length of 32 |
| DtlsContext.Context.Destroy | src/dtls.c:337-365 | frees each part the flags record once, and nothing else; NULL is ignored |
| DtlsContext.CreateThenDestroy | src/dtls.c:214-365 | a context that is created and destroyed leaves nothing live |
| DtlsContext.SessionCreate | src/dtls.c:367-431 | succeeds exactly when no applicable step fails; on failure nothing stays live |
| DtlsContext.SessionDestroy | src/dtls.c:433-439 | frees the SSL context and the session once each; NULL is ignored |

## Left out

- Server.Server.DrainSocket: drains during which datagrams never stop arriving, in which the code does not leave the loop either.
- GenericQueue: the blocking add and pop, whose waits only make sense among other threads; QueueModel has them.
- Server.Server.Serve: the shutdown signal comes after a number of rounds given in advance, any number; early exits of main before the loop are not modelled.
- Return codes of the pthread lock, unlock and signal calls, which the code ignores, are taken to be success.
- The clock behind the 2-second waits: a wait may expire at any time, so no real-time bound on add or pop is stated.
- Using a queue during or after its destruction.
- mbed TLS, cryptography and certificate verification: only return codes, datagrams taken and plaintext held; close_notify is taken to receive nothing.
- The clock of the server never goes back.
- Socket, epoll and signal setup, certificate paths, logging and message-to-string tables.
- src/message_queue.c, casts over the generic queue, and src/client.c.
