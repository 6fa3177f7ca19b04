# The asynchronous call runtime of rgrpc, modelled in Dafny

rgrpc lets R make and serve gRPC calls without blocking. A client and a server each own one completion
queue and one background thread that drains it; the thread never calls R. Completions become events in one
deque, guarded by one mutex, and a wake handle (a non-blocking self-pipe) tells R's event loop when to
look. R polls the deque, for every call at once or for one call at a time. This project models that runtime
and proves what it promises.

## How it is built

* `Common`: definitions that client and server share.
* `Wake`, `Events`, `Mailbox`, `EventQueue`: the bounded pipe, the deque with its filtered take, the one
  poller, and the three together as an object with its loops.
* `ClientStream`, `ClientModel`, `ClientInv`: one client stream as a record with a function per helper and
  per completion handler; the whole client as a state machine; its invariant. `ServerCall`,
  `ServerHistory`, `ServerModel`, `ServerInv` do the same for the server.
* `ClientRuns`, `ClientData`, `ClientHalfClose`, `ClientShutdown`, `ServerRuns`, `ServerData`,
  `ServerCancel`, `ServerWedge`, `ServerShutdown`: the theorems, each about every finite run. The two `Data`
  modules read off a run's actions what its events, sends and terminals must carry.
* `StreamRuntime`, `ClientRuntime`, `CallRuntime`, `ServerRuntime`: classes with the program's fields,
  updated in place. Each method's contract says that the heap it leaves represents the state the machine
  steps to, so the theorems about runs are theorems about these objects. `Poll` is proved to take the
  machine through a run; `Close` is proved to end.
* `CallTable`, `TypedCalls`: the R-side table of call types, and the client machine and that table
  together, which is where the order of events pays off.

An action of a machine is one critical section under the mutex: an R entry point, one completion, or the
part of a poll between two releases of the mutex. While a poll waits the mutex is free and completions
interleave. The environment is adversarial: every posted tag comes back exactly once, in any order, with
any `ok` and any contents; the server's done tag becomes live when its accept comes back good; a wait may
end at any time for any reason. R has one thread, so entry points and polls do not overlap. Ghost histories
record ops posted, sends accepted and completed, events pushed and delivered, and objects deleted.

## Where the code falls short of its documentation

The model follows the code; for each of these the exact condition is proved.

* `read_buffer` is documented as a bound but not validated. With a value below one a stream posts one
  read and never another, and can be left with nothing outstanding (`ClientRuns.NeverSticksIff`).
* `accept_window` slots are documented as kept outstanding, and excess calls as queueing until capacity
  frees up. The read and write branches free a call without posting new accepts
  (`ServerWedge.WindowKeptIff`), and when they free the last object nothing is left that could
  (`ServerWedge.WedgeIff`, `ServerWedge.EveryServerCanWedge`).
* A "cancelled" event is documented for a request the peer abandoned before it was answered. It is sent
  exactly when the done tag comes back after the request was delivered and before a terminal was accepted
  (`ServerCancel.CancelledIff`); a done tag that overtakes the first read is never reported
  (`ServerCancel.LateRequest`), and any server can get there (`ServerCancel.LateReachable`).
* The table of call types is documented to hold only outstanding calls. An error while decoding abandons
  the rest of the batch, and the entries of calls that ended there stay (`TypedCalls.LeakIff`).
* `grpc_writes_done` is documented to return FALSE once a stream is over and TRUE when the half-close was
  posted. On a stream that is broken or finishing but not yet freed it answers TRUE and nothing is ever
  posted (`ClientHalfClose.HalfCloseIff`, `ClientHalfClose.HalfCloseWitness`).

## Model

| member | source | states |
|---|---|---|
| `Wake.Signal` | src/wake.h:55-59 | a signal never lowers what the handle holds, respects the capacity, and leaves any handle of capacity one or more readable, full or not |
| `Wake.WakeHandle.SignalOnce` | src/wake.h:55-59 | writing one byte to a bounded non-blocking pipe is `Signal`, dropped byte included |
| `Wake.WakeHandle.Drain` | src/wake.h:61-65 | reading 256 bytes at a time until a read returns nothing leaves the handle empty, whatever it held, and ends |
| `Events.TakeFirstConserves` | src/client.cpp:590-607 | moving the first matching event out of the deque never moves one call's events past one another |
| `Events.FirstMatchingMeans` | src/client.cpp:541-543 | what a poll takes, said without a filter: the front of the deque when it polls for every call, and the first of that call's own events, none of another's, when it polls for one |
| `EventQueue.Queue.Push` | src/server.cpp:112-115 | push_back and one signal, as one step of the mailbox |
| `EventQueue.Queue.SearchMatch` | src/client.cpp:544-548 | the linear search returns TRUE exactly when some queued event matches the filter |
| `EventQueue.Queue.TakeBatch` | src/server.cpp:598-607 | the erase-or-step-over loop computes the batch specification from any starting deque |
| `Mailbox.TakeLoopMeaning` | src/client.cpp:590-607 | the batch loop said without a loop: it delivers the first `max` matching events in order, leaves the deque without exactly those and everything else in place, and touches nothing else |
| `Mailbox.TakeLoopConserves` | src/client.cpp:590-607 | for every call, delivered followed by still queued equals everything pushed, across any filtered batch |
| `Mailbox.PushInv` | src/client.cpp:207-210 | queueing an event keeps conservation and the wake contract, waiting poll or not, and extends exactly one call's history |
| `Mailbox.ParkArms` | src/client.cpp:550-575 | draining and then waiting after a search that found nothing loses no wake-up |
| `Mailbox.DeliverBoxTakes` | src/server.cpp:596-608 | the whole section of drain, take and re-signal hands over the first `max` matching events and leaves every other event where it was |
| `Mailbox.DeliverBoxInv` | src/client.cpp:583-608 | the same section conserves every event and restores "readable exactly while events are queued" whatever signals were dropped before |
| `ClientStream.OpenedInv` | src/client.cpp:473-486 | a stream just opened satisfies the stream invariant, for every read and write cap |
| `ClientStream.PostReadShape` | src/client.cpp:145-152 | posting a read under the cap keeps every per-stream promise |
| `ClientStream.PumpShape` | src/client.cpp:154-168 | the write pump keeps one outgoing op at a time, the order of writes, and WritesDone last |
| `ClientStream.TryFinishInv` | src/client.cpp:170-177 | Finish goes out only when nothing else is in flight and the stream started, and then the stream invariant holds |
| `ClientStream.OnTagInv` | src/client.cpp:214-290 | every completion handler keeps the stream invariant for any `ok`, shutting down or not, and a completed write still has its buffer |
| `ClientStream.SendInv` | src/client.cpp:500-506 | a send, refused or queued, keeps the stream invariant |
| `ClientStream.WritesDoneInv` | src/client.cpp:516-519 | a half-close keeps the stream invariant |
| `ClientStream.ResumeInv` | src/client.cpp:598-605 | taking a message, and reading on when there is room, keeps the stream invariant |
| `ClientInv.TagIsLive` | src/client.cpp:192-214 | no outstanding tag dangles: its stream is in the map and owes that tag |
| `ClientInv.PutBackInv` | src/client.cpp:179-184 | queueing the handler's event, storing the record and freeing the object when it is done keeps the client invariant |
| `ClientInv.UnaryDoneInv` | src/client.cpp:194-211 | a unary completion keeps the client invariant: one event, one delete |
| `ClientInv.DeliverInv` | src/client.cpp:583-608 | the critical section that ends a poll keeps the client invariant and re-establishes the wake contract |
| `ClientInv.ApplyInv` | src/client.cpp:188-294 | every action of the client machine keeps the invariant |
| `ClientInv.RunInv` | src/client.cpp:123-143 | the invariant holds after every finite run: any interleaving of entry points, completions and polls |
| `ClientRuns.ReadableIffQueued` | src/wake.h:3-11 | after every run, with no poll waiting, the handle is readable if and only if events are queued |
| `ClientRuns.WaitNeitherMissesNorSpins` | src/client.cpp:550-581 | while a poll waits, a matching event means a readable handle, and readable returns never outnumber the events that arrived during the wait |
| `ClientRuns.ReturnsBounded` | src/client.cpp:550-581 | over a whole poll the readable returns of its waits never outnumber the events pushed while it lasted, however many events of other calls are queued |
| `ClientRuns.DeliveryConserved` | src/client.cpp:590-607 | for every id, delivered then queued equals the pushed history, which is one unary event, with a response only when its status is OK, or messages and writables followed by at most one status |
| `ClientRuns.ArrivalOrder` | src/client.cpp:524-528 | after every run what is queued is a subsequence of everything pushed: filtered takes never reorder the events they step over |
| `ClientRuns.TerminalDeliveredLast` | src/client.cpp:275-291 | once R has a call's terminal event, nothing of the call is queued, nothing follows, and its object is gone |
| `ClientRuns.TagsAreLive` | src/client.cpp:98-98 | in every reachable state `pending` of every stream is the number of its outstanding tags, kind by kind; a stream tag names a stream in the map that owes it; a unary tag names a pending call, exactly one each |
| `ClientRuns.FreedOnlyByFinish` | src/client.cpp:179-184 | a step takes a stream out of the map if and only if it is that stream's Finish completion |
| `ClientRuns.DeletedExactlyOnce` | src/client.cpp:208-209 | every object ever created is live or was deleted exactly once |
| `ClientRuns.LogsOnlyGrow` | src/client.cpp:170-177 | between any two points of a run a stream's op, send and completion logs only grow, and after Finish is posted nothing is posted and no send accepted |
| `ClientRuns.OpDiscipline` | src/client.cpp:12-17 | at most one Read, never a Write with a WritesDone, Finish alone and only once started; StartCall first, nothing after Finish, no write after WritesDone |
| `ClientRuns.WritesConserved` | src/client.cpp:248-264 | accepted sends equal completed writes then the queue, the queue respects its cap, posted writes are a prefix of accepted sends, and WritesDone, or Finish on an unbroken stream, waits for all of them |
| `ClientRuns.BackpressureExact` | src/client.cpp:230-247 | `unread` equals the stream's messages in the deque, and with the read in flight never exceeds the cap (a cap below one acts as one) |
| `ClientRuns.NeverSilentlyStuck` | src/client.cpp:241-241 | with a read cap of at least one, every stream of an open client has a tag outstanding or exactly `read_cap` messages waiting |
| `ClientRuns.PollResumesReading` | src/client.cpp:598-604 | polling any of the messages of such an idle stream leaves a read outstanding |
| `ClientRuns.StuckWitness` | src/client.cpp:473-473 | `read_buffer` is not validated: for every cap below one a concrete run leaves a stream with nothing outstanding and nothing to poll |
| `ClientRuns.NeverSticksIff` | R/client.R:382-384 | no run leaves a stream opened with this cap stuck if and only if the cap is at least one |
| `ClientRuns.ZeroCapReadsOnce` | src/client.cpp:604-604 | with a cap below one, no run posts a second read |
| `ClientHalfClose.HalfCloseIff` | src/client.cpp:509-520 | after a half-close answered TRUE, in any run, some continuation posts WritesDone if and only if the stream was neither broken nor finishing at the call |
| `ClientHalfClose.NeverSent` | src/client.cpp:155-155 | on a broken or finishing stream no continuation of any length posts WritesDone |
| `ClientHalfClose.SomeRunSends` | src/client.cpp:217-264 | on any other stream of an open client there is a run of good completions that drains the write queue and posts it |
| `ClientHalfClose.HalfCloseWitness` | src/client.cpp:222-228 | a run ends with a stream whose start failed, broken and finishing, still in the map, on which a half-close is answered TRUE |
| `ClientData.StepTells` | src/client.cpp:194-291 | one step adds to a call's history exactly the bytes a good read brought on an unbroken stream, "writable" when a good write was the last one queued, the status Finish brought, or a unary call's status with its response when that is OK |
| `ClientData.HistoryIsTold` | src/client.cpp:590-607 | in every run a call's history, delivered and still queued, is the sequence of what the run's completions brought it |
| `ClientData.MessagesAreArrivals` | src/client.cpp:230-239 | in every run the messages R is given for a stream are, in order, the bytes its good reads brought before anything of it broke, read off the actions alone |
| `ClientData.OutcomeReported` | src/client.cpp:194-203 | in every run, once a call's Finish or unary completion came, its history ends with exactly that status; a unary call's history is its status and, when OK, its response, and nothing else |
| `ClientData.AcceptedIsSent` | src/client.cpp:493-507 | in every run the sends a stream accepted are exactly the bytes of the sends made while it was in the map, unbroken, unfinished, not half-closed and below its cap; and it is broken exactly when a start, write or half-close of its own came back bad |
| `ClientData.CompletedCounted` | src/client.cpp:248-264 | in every run a stream completed as many writes as came back good before anything of it broke |
| `ClientData.OpenedData` | src/client.cpp:471-486 | a new stream has accepted nothing and has its caller's caps, a negative write cap read as an unsigned 64-bit number |
| `ClientShutdown.ShuttingStep` | src/client.cpp:136-139 | once shutting down, every step is a completion and lowers the number of owed tags by exactly one |
| `ClientShutdown.ShuttingLogsFrozen` | src/client.cpp:145-177 | once shutting down, no step posts an op |
| `ClientShutdown.DrainEnds` | src/client.cpp:305-306 | from a shutting state a run of n steps pays off exactly n tags, so the drain ends |
| `ClientShutdown.DrainProgresses` | src/client.cpp:305-306 | while a tag is owed, some completion can happen |
| `ClientShutdown.DrainedThenDeletedOnce` | src/client.cpp:307-311 | when the queue is dry `calls` is empty, every stream left has `pending == 0`, and the delete loops make every object deleted exactly once |
| `ClientShutdown.CloseIsClean` | src/client.cpp:296-313 | the same over whole runs: however the client got there and whenever it is closed the drain is bounded by the tags owed, and at its end no unary call is left, no stream owes a tag, and every object is deleted exactly once |
| `StreamRuntime.StreamState.PostRead` | src/client.cpp:145-152 | the method on the real fields takes exactly the specified step |
| `StreamRuntime.StreamState.PumpWrites` | src/client.cpp:154-168 | likewise for the write pump |
| `StreamRuntime.StreamState.TryFinish` | src/client.cpp:170-177 | likewise for Finish |
| `StreamRuntime.StreamState.OnTag` | src/client.cpp:216-290 | each handler, on the real fields and the real queue, changes the record as specified and queues exactly the message with the bytes read, "writable" or the status with its code, each under its own condition |
| `ClientRuntime.ClientHandle.CallStart` | src/client.cpp:425-450 | refused on a closed client; otherwise the call gets the next id, is pending and owes one tag, and that id is returned |
| `ClientRuntime.ClientHandle.StreamStart` | src/client.cpp:465-489 | refused on a closed client; otherwise a new stream under the next id has the caller's caps, and that id is returned |
| `ClientRuntime.ClientHandle.StreamSend` | src/client.cpp:493-507 | TRUE exactly when the stream is in the map, unbroken, unfinished, not half-closed and below its cap; then the caller's bytes are appended to what it accepted, and otherwise nothing is |
| `ClientRuntime.ClientHandle.StreamWritesDone` | src/client.cpp:509-520 | an error on a closed client, otherwise TRUE exactly when the stream is in the map and no half-close was requested before, and the machine's step |
| `ClientRuntime.ClientHandle.UnaryDone` | src/client.cpp:194-211 | queues the call's own status with its response exactly when that is OK, and erases and deletes the call |
| `ClientRuntime.ClientHandle.TagDone` | src/client.cpp:214-291 | a stream's tag, handled on the heap, is the machine's step, freeing included, and queues exactly the message with the bytes read, "writable" or the status with its code |
| `ClientRuntime.ClientHandle.TakeBatch` | src/client.cpp:590-607 | the loop that takes events and resumes reads in place computes the batch specification |
| `ClientRuntime.ClientHandle.Poll` | src/client.cpp:529-609 | an error on a closed client; otherwise the client goes through a run of the machine made of this poll's own sections, with completions only while it waits and one section when there is no timeout; the run ends with the section that takes the batch, and the batch is the first `max` matching events queued at that moment; the waits return no more often than events arrive, and a poll for one call gets only its events |
| `ClientRuntime.ClientHandle.RunDry` | src/client.cpp:305-306 | running the completion queue dry terminates, by the number of owed tags |
| `ClientRuntime.ClientHandle.Close` | src/client.cpp:296-313 | after close every call and stream object ever created has been deleted exactly once; closing again does nothing |
| `ServerCall.SlotInv` | src/server.cpp:120-125 | a fresh accept slot satisfies the call invariant |
| `ServerCall.PumpInv` | src/server.cpp:131-150 | the pump posts one write at a time and the terminal only on an empty queue, and afterwards no accepted write or terminal is forgotten |
| `ServerCall.OnAcceptInv` | src/server.cpp:172-185 | an accept that matched keeps the call invariant; the done tag counts from here |
| `ServerCall.OnTagInv` | src/server.cpp:191-262 | every other completion handler keeps the call invariant for any `ok` |
| `ServerCall.ReplyInv` | src/server.cpp:417-441 | a reply, refused or accepted, keeps the call invariant |
| `ServerCall.FinishInv` | src/server.cpp:511-544 | a finish, draining or abortive, keeps the call invariant |
| `ServerCall.ReadInv` | src/server.cpp:453-458 | a read keeps the call invariant |
| `ServerCall.SendInv` | src/server.cpp:486-491 | a send keeps the call invariant |
| `ServerHistory.FitsOnTag` | src/server.cpp:191-262 | every handler keeps a call's flags in agreement with what its owner was told |
| `ServerInv.TagIsLive` | src/server.cpp:164-168 | no outstanding tag dangles, an accept tag belongs to a slot, and a completed write still has its buffer |
| `ServerInv.RefillInv` | src/server.cpp:117-127 | after a refill the slots are exactly as many as the two limits allow |
| `ServerInv.HandledInv` | src/server.cpp:191-263 | a completion, with the free and the refill that follow it, keeps the server invariant |
| `ServerInv.AcceptFailedInv` | src/server.cpp:187-189 | a slot that never matched is freed and the server invariant kept |
| `ServerInv.ApplyInv` | src/server.cpp:160-266 | every action of the server machine keeps the invariant |
| `ServerInv.RunInv` | src/server.cpp:92-108 | the invariant holds after every finite run, for every pair of limits |
| `ServerRuns.HandleAgreesWithQueue` | src/server.cpp:574-608 | in every reachable state the handle agrees with the deque, and a wait neither misses a wake-up nor spins |
| `ServerRuns.EventGrammar` | src/server.cpp:191-259 | for every id the history is conserved and grammatical: the single request first, "cancelled" at most once and last, neither it nor "writable" after an accepted terminal |
| `ServerRuns.ArrivalOrder` | src/server.cpp:549-551 | in every reachable state what is queued is a subsequence of everything pushed, whatever filtered takes went before |
| `ServerRuns.CancelledIsFinal` | src/server.cpp:417-417 | after "cancelled" every reply, read, send and finish is refused and changes nothing |
| `ServerRuns.WritesThenTerminal` | src/server.cpp:131-150 | posted writes are a prefix of accepted sends, at most one terminal is posted and nothing after it, and unless the call was aborted it waits for every accepted send to complete |
| `ServerRuns.TerminalNeverForgotten` | src/server.cpp:140-149 | in an open server an accepted terminal on a live call is posted or a write is in flight; a non-empty queue has its write in flight, whose buffer is at the front |
| `ServerRuns.AbortKeepsBuffer` | src/server.cpp:513-526 | an abortive finish keeps the buffer of the write in flight and drops the rest, and posts its terminal at once when nothing is in flight |
| `ServerRuns.LogsOnlyGrow` | src/server.cpp:131-150 | between any two points of a run a call's logs only grow; nothing is posted after the terminal, and no write after an accepted abortive finish |
| `ServerRuns.ReadsAccounted` | src/server.cpp:446-459 | accepted reads equal results queued plus the one in flight for as long as the call is delivered and not dead |
| `ServerRuns.AdmissionBounded` | src/server.cpp:117-127 | slots never exceed the window, active calls plus slots never exceed the limit, and the shortfall is at most what was freed without a refill |
| `ServerRuns.ShortfallCounts` | src/server.cpp:231-263 | the bound on the shortfall of slots is exact: it is forgotten by every step that refills and grows by one with every other step that frees its object |
| `ServerRuns.ReturnsBounded` | src/server.cpp:574-594 | over a whole poll the readable returns of its waits never outnumber the events pushed while it lasted |
| `ServerRuns.RefillIsMaximal` | src/server.cpp:186-263 | an accept that matched, a done and a finish each leave the slots maximal |
| `ServerRuns.NothingLeaks` | src/server.cpp:152-157 | every live object, slots included, owes at least one tag, so when nothing is owed nothing is live |
| `ServerRuns.DeletedExactlyOnce` | src/server.cpp:152-157 | every object ever created is live or was deleted exactly once, and no tag outlives its object |
| `ServerData.StepTells` | src/server.cpp:191-259 | one step adds to a call's history exactly what its completion brought: the request or a message with the bytes read, the peer's half-close, "writable" when a good write was the last one queued before any terminal, "cancelled" |
| `ServerData.HistoryIsTold` | src/server.cpp:596-608 | in every run a call's history, delivered and still queued, is the sequence of what the run's completions brought it |
| `ServerData.RecordIsAsked` | src/server.cpp:401-545 | in every run what a call accepted is what its owner handed over: the bytes of the sends made while it could take them, below 16 queued; the first terminal asked for, with its response and status and whether to drop queued writes; and the number of reads made while it could take them |
| `ServerData.TerminalIsAsked` | src/server.cpp:140-149 | in every run the terminal that goes out on a call is the one its accepted reply or finish asked for |
| `ServerData.StepData` | src/server.cpp:191-259 | one step changes a call's accepted sends, completed writes, terminal, reads and death exactly as its action says |
| `ServerCancel.CancelledIff` | src/server.cpp:249-256 | once a call's done tag is back, in every continuation its owner is sent "cancelled" if and only if the request had been delivered and no terminal accepted |
| `ServerCancel.LateRequest` | src/server.cpp:193-199 | whenever a call owes both its done tag and its first read the two may come back in that order: R is handed a request whose peer is gone and no continuation ever tells it so |
| `ServerCancel.LateReachable` | src/server.cpp:169-186 | whatever its limits, a server gets to such a call with its first accept |
| `ServerWedge.EveryServerCanWedge` | src/server.cpp:231-231 | for every pair of positive limits some run ends with nothing live and no accept slot on an open server |
| `ServerWedge.WedgedForever` | src/server.cpp:247-247 | from there on no run ever accepts another call |
| `ServerWedge.WedgeIff` | src/server.cpp:186-263 | a completion leaves an open server with nothing live if and only if its object is the only one and it is a failed accept, or the last outstanding read or write of a call that neither another write nor a terminal follows |
| `ServerWedge.WindowKeptIff` | R/server.R:10-12 | from an open server with as many slots as its limits allow, a completion leaves as many as they allow if and only if it is no failed accept and no read or write that frees its call while the calls held the window back |
| `ServerShutdown.ShuttingStep` | src/server.cpp:177-185 | once shutting down, every step is a completion; it lowers what is owed by one, or by two when a failed accept means its done tag will never come |
| `ServerShutdown.ShuttingLogsFrozen` | src/server.cpp:132-132 | once shutting down, no step posts an op on any object |
| `ServerShutdown.DrainEnds` | src/server.cpp:278-279 | from a shutting state no run is longer than what is owed |
| `ServerShutdown.CloseIsClean` | src/server.cpp:269-283 | over whole runs: when the drain can go no further nothing is live, `active` is empty, and each object was deleted exactly once |
| `CallRuntime.SvCall.Pump` | src/server.cpp:131-150 | the method on the real fields takes exactly the specified step |
| `CallRuntime.SvCall.OnTag` | src/server.cpp:191-262 | each handler, on the real fields and the real queue, changes the record as specified and queues exactly the request or message with the bytes read, or the notice, each under its own condition |
| `CallRuntime.SvCall.DiscardWrites` | src/server.cpp:520-525 | erasing the queue in place keeps what the specification keeps |
| `ServerRuntime.ServerHandle.PostAccepts` | src/server.cpp:117-127 | the while loop over the two limits is the specified refill |
| `ServerRuntime.ServerHandle.MaybeFree` | src/server.cpp:152-157 | erase from `active` and delete, on the heap: the machine's step |
| `ServerRuntime.ServerHandle.TagDone` | src/server.cpp:164-264 | any tag, handled on the heap, is the machine's step, refills included, and queues exactly the request or message with the bytes read, or the notice |
| `ServerRuntime.ServerHandle.ReplyTo` | src/server.cpp:401-442 | errors on a closed server or a missing response; TRUE exactly when the call is active, delivered, not replied and not dead; then its terminal is the response with OK, or the bare status, and otherwise nothing changes |
| `ServerRuntime.ServerHandle.ReadFrom` | src/server.cpp:446-459 | TRUE exactly when the call is active, delivered, not dead, has no read in flight and no terminal posted; then one Read is posted, and otherwise nothing changes |
| `ServerRuntime.ServerHandle.SendTo` | src/server.cpp:479-492 | TRUE exactly when the call is active, delivered, not dead, not replied and has fewer than 16 writes queued; then the caller's bytes are appended to what it accepted, and otherwise nothing changes |
| `ServerRuntime.ServerHandle.FinishCall` | src/server.cpp:498-545 | TRUE exactly when the call is active, delivered, not replied and not dead; then its terminal is the bare status and its queued writes are dropped unless draining, and otherwise nothing changes |
| `ServerRuntime.ServerHandle.Poll` | src/server.cpp:553-609 | the same for the server: its own sections and completions only, ending with the section that takes the first `max` matching events queued at that moment; the waits return no more often than events arrive, and a poll for one call gets only its events |
| `ServerRuntime.ServerHandle.Close` | src/server.cpp:269-283 | the drain terminates, the final loop finds `active` empty, and every call object ever created was deleted exactly once |
| `CallTable.KeysDistinct` | R/client.R:143-147 | two ids never share a key |
| `CallTable.SetOnly` | R/client.R:149-158 | registering a call makes its types the ones found under its id and changes what is found under no other id |
| `CallTable.DropOnly` | R/client.R:156-165 | forgetting a call leaves nothing under its id, changes what is found under no other id, and undoes a registration |
| `TypedCalls.SetExact` | R/client.R:268-272 | registering a new typed call keeps the table exact |
| `CallTable.CallTypes.DecorateEvents` | R/client.R:473-493 | the in-place walk computes the specification; with an exact table and a batch in order, each stream message or OK response of a call with output type t comes out decoded as t, every other event without a message, the table stays exact, and there is an error exactly when one of them does not decode |
| `CallTable.ForgetExact` | R/client.R:488-490 | handing over one event keeps the table exact |
| `CallTable.DecorateDecodesOwn` | R/client.R:475-487 | with an exact table and events in order, every message is decoded as its own call's output type, and the walk fails exactly when some message of the batch is malformed for its own type |
| `CallTable.WalkStopsAtMalformed` | R/client.R:481-487 | the walk stops at the first such message |
| `TypedCalls.TypedAsStarted` | R/client.R:268-272 | in every run, from the step that starts a call on, its id stands for the types that step was given |
| `TypedCalls.TableExact` | R/client.R:145-165 | after every run of client and table together the keys are the typed calls whose terminal event no walk got past, and without a decoding error those whose terminal event R was not given |
| `TypedCalls.MessagesDecodedAsOwn` | R/client.R:481-487 | after every run each stream message or OK response that R was given, on a call started with output type t, carries its bytes decoded as t, and every other event carries no message |
| `TypedCalls.PollFailsIff` | R/client.R:486-486 | a poll raises a decoding error if and only if its batch holds a stream message or OK response whose bytes do not decode as the output type its own call was started with |
| `TypedCalls.TableEmptyIff` | R/client.R:142-142 | without a decoding error the table is empty if and only if every typed call is finished with nothing left to poll |
| `TypedCalls.LeakIff` | R/client.R:474-492 | in every step of every session, earlier failures or not, a call has lost its entry's removal if and only if it had before, or it is typed and ends in this batch at or behind a message malformed for its own type |
| `TypedCalls.StaysExactIff` | R/client.R:474-492 | so a poll leaves the table exact if and only if it was exact before and no typed call ends in its batch at or behind such a message |
| `TypedCalls.LeaksForever` | R/client.R:488-490 | an entry lost that way stays in every continuation |
| `TypedCalls.LeakWitness` | R/client.R:486-490 | a typed unary call whose OK response does not decode leaks its entry in the poll that was to deliver it |

## Left out

- gRPC core, channels, TLS, keepalive and HTTP/2: foreign code, represented by arbitrary completions.
- Metadata, method names, deadlines as reported, status messages, peer identity and the copying of byte buffers: conversion to R values; a failed copy is modelled as missing bytes, or an empty request on the server.
- The wall clock and deadlines: a wait may end at any time, and a deadline is one more reason for a completion that is not ok.
- Cancelling a call from either side: it changes no field; its effect is a completion that the environment may produce anyway.
- Threads and the mutex themselves: critical sections are atomic actions, and a waiting poll is split where it releases the mutex.
- The unary `call_state`: none of its fields changes while the call is in flight, so it is an id in a set.
- The objects reached only through a tag: the server class names them in a map `live`, because accept slots are in no map of the program.
- The fields `ready` and `wake` of client and server: one queue object with both, since the two programs treat them alike.
- ClientHandle: the stream helpers and handlers are methods of the stream object instead of the client, with the client's `shutting` flag as an argument; likewise for the server.
- The width of ids and counters: ids are unbounded where the program has 64 bits and passes them to R as doubles, exact up to 2^53; only `write_cap`, where a negative value wraps, is given its width.
- CallTable.KeysDistinct: does not model the rounding of doubles, because ids below 2^53 are exact.
- The Windows socket pair, closing the descriptors, and handing the descriptor to R: the same contract as the pipe.
- Creating clients and servers, ports, credentials and argument checks in R: validation and wiring. The server's `accept_window >= 1` and `max_active >= 1` are not assumed except where a result says so.
- src/shim.cpp, src/stub.cpp, src/init.cpp and the R code for protocol buffers and certificates: loading, registration and thin wrappers.
