# Verified model of the ALPC server, its clients and the tick counter

This project models three parts of the repository and proves what they promise.

1. **Tick counter** (`include/phnt/ntexapi.h`). Readers load a three-word counter without a lock while a
   writer updates it, and turn ticks into milliseconds with truncating multiplies and shifts. The model has a
   writer that performs single stores in any number, readers whose loads fall anywhere between them
   (`TickProtocol.dfy`), and the conversions in machine arithmetic (`TickArithmetic.dfy`). The small
   group-mask macros are in `GroupMask.dfy`.
2. **ALPC server and clients** (`alpc-research/ua.c`). A worker receives messages into one buffer and
   dispatches them; connections own heap contexts which the kernel keeps and hands back when they end; a
   second thread terminates the server. `ServerModel.dfy` says what the worker does and proves whole-run
   properties, `UaServer.dfy` is the server itself in imperative form, `Interleaving.dfy` runs worker and
   terminating thread one instruction at a time in every order, `ServerLifetime.dfy` joins creation, worker and
   termination, and `EndToEnd.dfy` adds the clients.
3. **Message framing** (`alpc-research/AdvancedLocalProcedureCallServer.c`, `client.c` and
   `AdvancedLocalProcedureCall.c`). Frames are byte strings (`PortMessage.dfy`). Clients that allocate a
   message per call are in `FreshClient.dfy`, clients that reuse one buffer in `ReusedBuffer.dfy`, and
   sequences of client calls in `ClientSessions.dfy`.

`Words.dfy` has fixed-width words and byte strings; `ProcessMemory.dfy` has heap blocks, handles, the kernel's
connection table and a ledger of allocations, frees, opens and closes. A `Layout` chooses the 32- or 64-bit
sizes: a 24- or 40-byte header and a largest message of 0xFFEF or 0xFFFF bytes.

System calls and the allocator are not modelled; their outcomes are parameters, and a worker run is a finite
script of deliveries after which the receive fails. What is assumed of them, in `Plausible`, `Grantable`,
`Openable` and `Enabled`:

- each tick update stores `High2Time`, then `LowPart`, then `High1Time`; ticks never decrease; loads and stores
  take effect in program order;
- `malloc` returns NULL or a block that is not live, and a call that opens a handle yields a value that is not
  open; both may come back into use later;
- a failed call leaves its out-handle and its receive buffer unchanged, and `NtClose` succeeds exactly for an
  open handle;
- the end of an accepted connection is reported once, with the context given at accept, and never for a
  refused connection;
- delivered messages are whole and their two lengths agree; message ids of calls in a run differ;
- a reply to a client is no longer than the length the client offered, and the answer to a connect call is no
  longer than the message sent;
- `OnConnect` and `OnDatagram` only read the message (their parameter is `IN`); `OnRequest` rewrites the body of
  the message it finds in the buffer and leaves its header and lengths alone;
- waiting for the thread handle returns only after the worker has exited, and a closed port accepts no
  connection and delivers no message.

Where the code does not do what its shape suggests, the exact condition is proved:

- the 16-bit length check of the senders is right, and their writes stay inside the block they allocate, if and
  only if header plus length does not wrap (`GuardIsExactIffNoWrap`, `WritesFitIffNoWrap`);
- the connect calls offer the kernel the largest length, and every answer of that length fits the block if and
  only if the message sent has it too (`OfferedLengthFitsIffLargest`);
- the signed check of the reusing form can never be true. With data, its fill and copy are in bounds if and only
  if the length is not negative and its sum with the header is at most 0x7FFF; without data, when nothing is
  copied, if and only if that sum is between 0 and 0x7FFF (`GuardNeverRejects`, `InBoundsIffUsable`);
- the worker stops early if and only if the context attribute is missing and a message needs it (`SurvivesIff`);
- blocks and context handles are live whenever they are used, but the connection port is not: an instruction of
  the worker that uses it finds it open if and only if termination has not begun, and every created server has a
  run in which the worker is about to reply over the closed port (`PortOpenIff`, `ReplyOverClosedPort`);
- termination leaves the heap as before the server if and only if the end of every accepted connection was
  processed (`LeftAfterTermination`).

## Model

| member | source | states |
|---|---|---|
| `TickArithmetic.SplitConversionIsExact` | include/phnt/ntexapi.h:6718-6719 | the split 64-bit conversion equals floor(T*M/2^24) modulo 2^64 for all T and M, and without modulus exactly when T*M < 2^88 |
| `TickArithmetic.DirectProductLosesRange` | include/phnt/ntexapi.h:6718-6719 | a direct 64-bit product would be right only while T*M < 2^64 |
| `TickArithmetic.AllFormsAgree` | include/phnt/ntexapi.h:6718-6748 | wrapping product, truncated shift and the low word of the 64-bit result are the same function of T and M |
| `TickArithmetic.WrappingDifference` | include/phnt/ntexapi.h:6724-6751 | in both builds the wrapping difference of two 32-bit readings is the elapsed time exactly when that is below 2^32 |
| `TickArithmetic.LaterReadingNotSmaller` | include/phnt/ntexapi.h:6693-6720 | while T*M < 2^88, a reading of a later tick count is never smaller |
| `TickProtocol.CountsOnlyGrow` | include/phnt/ntexapi.h:6406-6415 | in every state of every run the three words are consistent with an update in order, and all counts only grow |
| `TickProtocol.UpdateCompletes` | include/phnt/ntexapi.h:6406-6415 | between updates the assumed writer can store any later count, and its three stores complete it |
| `TickProtocol.SnapshotIsExact` | include/phnt/ntexapi.h:6705-6714 | an accepted iteration, with its three loads anywhere in a run, has both halves of the one count published when LowPart was loaded |
| `TickProtocol.RejectedIffOverlapping` | include/phnt/ntexapi.h:6710-6711 | an iteration is rejected if and only if it overlaps an update that changes the high word |
| `TickProtocol.UncheckedJoinIsExactIff` | include/phnt/ntexapi.h:6406-6415 | joining LowPart and High1Time without the check is right if and only if no high-changing update is between its last two stores |
| `TickProtocol.SuccessiveReads` | include/phnt/ntexapi.h:6693-6720 | of two results of `NtGetTickCount64` along a run the later is not smaller, and their difference is the elapsed time |
| `TickProtocol.ElapsedFromReads` | include/phnt/ntexapi.h:6724-6751 | the wrapping difference of two results of `NtGetTickCount` is the elapsed time if and only if that is below 2^32 |
| `TickProtocol.QuadReadings` | include/phnt/ntexapi.h:6699-6730 | the conversions of the 64-bit build, of a count loaded as one word, are readings in the sense of the two lemmas above |
| `TickProtocol.SharedData.Store` | include/phnt/ntexapi.h:6406-6415 | one store of the assumed writer and its whole effect |
| `TickProtocol.ReadTickCount` | include/phnt/ntexapi.h:6705-6714 | the retry loop under interference returns the count published at the LowPart load of its last iteration, and every iteration before overlapped a change of the high word |
| `TickProtocol.NtGetTickCount64` | include/phnt/ntexapi.h:6693-6720 | the 32-bit build spins if and only if every iteration overlapped a change of the high word; else it returns the milliseconds, modulo 2^64, of the count published at the LowPart load of the first iteration that did not |
| `TickProtocol.NtGetTickCount` | include/phnt/ntexapi.h:6724-6751 | the same with those milliseconds modulo 2^32 |
| `GroupMask.MaskIndex` | include/phnt/ntexapi.h:2134-2138 | the index is below the number of masks |
| `GroupMask.GroupSplits` | include/phnt/ntexapi.h:2138-2139 | index and group bits together are the whole word |
| `GroupMask.OrGroupWithGroupMask` | include/phnt/ntexapi.h:2140-2141 | the in-place update of the mask array |
| `GroupMask.AccumulatedBits` | include/phnt/ntexapi.h:2140-2141 | after any sequence of groups, a bit is set exactly if it was set or some group selects it |
| `GroupMask.OrderAndRepetitionIrrelevant` | include/phnt/ntexapi.h:2140-2141 | sequences with the same groups leave the same masks |
| `PortMessage.FieldsReadBack` | include/phnt/ntlpcapi.h:13-44 | a header put together from the bytes of its fields, in the order of PORT_MESSAGE, reads back as these fields, in both builds |
| `PortMessage.TypeBytes` | alpc-research/ua.c:81-196 | the branch is chosen by byte 4 alone, and continuation is bit 0x20 of byte 5 |
| `PortMessage.GuardIsExactIffNoWrap` | alpc-research/ua.c:382-386 | the length check rejects exactly the oversized messages if and only if header plus length does not wrap 16 bits |
| `PortMessage.GuardRejectsOnly` | alpc-research/ua.c:382-386 | the check rejects sixteen lengths on a 32-bit build and none on a 64-bit one |
| `PortMessage.GuardPassesWrappedLength` | alpc-research/ua.c:382-386 | a length for which the check passes and the stored total is smaller than a header |
| `PortMessage.WritesFitIffNoWrap` | alpc-research/ua.c:382-399 | the check rejects the length or header and data fit the allocated block, if and only if header plus length does not wrap |
| `PortMessage.FrameRoundTrip` | alpc-research/ua.c:388-399 | reading a new frame by its stored lengths gives the payload; total = data length + header; the rest of the header is zero; a signed reading of the length is right only below 0x8000 |
| `PortMessage.ReceiveReplacesMessage` | alpc-research/ua.c:232-239 | whatever the buffer held, after a receive its header and message are those received |
| `PortMessage.AnswerIsReply` | alpc-research/ua.c:50-59 | what a request handler leaves in the buffer is a reply to the request: same header, id and length, transformed body |
| `ProcessMemory.BooksTakeTurns` | alpc-research/ua.c:107-109 | in a ledger that was kept event by event, between two allocations of an address there is a free, between two frees an allocation, after the last allocation a free exactly if the block is not live; the same for handles |
| `FreshClient.UaSendSynchronousRequest` | alpc-research/ua.c:370-417 | the frame sent, the status on each path, the caller's bytes afterwards, and an unchanged heap on every path |
| `FreshClient.CopiedBackIsReplyBody` | alpc-research/ua.c:403-412 | a reply of the request's length replaces the caller's bytes, a shorter one leaves the rest |
| `FreshClient.UaSendDatagram` | alpc-research/ua.c:421-463 | the frame sent, the status on each path, and an unchanged heap on every path |
| `FreshClient.OfferedLengthFitsIffLargest` | alpc-research/ua.c:497-514 | every answer of the offered length fits the allocated block if and only if the message sent has the largest length |
| `FreshClient.UaConnectServer` | alpc-research/ua.c:476-531 | the kernel's new handle or the old one, and the message block, over which the kernel may have written its answer, allocated and given back once on every path |
| `FreshClient.UaDisconnectServer` | alpc-research/ua.c:467-472 | closes the one handle a connection owns, if it is open |
| `FreshClient.SrvConnectServer` | alpc-research/AdvancedLocalProcedureCall.c:450-521 | a client object owning the block and the handle it was granted, or nothing changed, and every allocation, open and free in order, for every combination of failures |
| `FreshClient.SrvDisconnectServer` | alpc-research/AdvancedLocalProcedureCall.c:440-446 | gives back that block and handle |
| `ClientSessions.CallConserves` | alpc-research/ua.c:370-531 | the effect a client method promises, on a process with any number of connected clients, touches only what its own client owns |
| `ClientSessions.SessionsConserve` | alpc-research/AdvancedLocalProcedureCall.c:341-521 | over any sequence of memories that calls of any clients lead through, heap and handles hold what they held at first plus what connected clients own |
| `ReusedBuffer.GuardNeverRejects` | alpc-research/AdvancedLocalProcedureCallServer.c:27-31 | the signed length check can never be true |
| `ReusedBuffer.InBoundsIffUsable` | alpc-research/AdvancedLocalProcedureCallServer.c:27-41 | with data, zeroing and copying stay in the buffer if and only if the length is not negative and header plus length is at most 0x7FFF; without data, if and only if header plus length is between 0 and 0x7FFF |
| `ReusedBuffer.UnusableLengthAccepted` | alpc-research/AdvancedLocalProcedureCallServer.c:27-33 | a length that the check accepts and the fill cannot honour |
| `ReusedBuffer.InitializedLengths` | alpc-research/AdvancedLocalProcedureCallServer.c:33-41 | for every length in bounds, also a negative one without data: signed readings of the stored lengths give back total and length, and nothing behind the total changes |
| `ReusedBuffer.InitializePortMessage` | alpc-research/client.c:17-38 | the in-place initialization leaves a fresh frame in front of the untouched rest of the buffer, or for a negative length a total below a header |
| `ReusedBuffer.SrvInitializePortMessage` | alpc-research/AdvancedLocalProcedureCallServer.c:18-44 | the same behind the length check |
| `ReusedBuffer.ReusedBufferRefinesFresh` | alpc-research/AdvancedLocalProcedureCallServer.c:381-408 | for any history of sends and kernel writes, every frame from the reused buffer is byte for byte that of a fresh block |
| `ReusedBuffer.EachSendAddsItsFrame` | alpc-research/AdvancedLocalProcedureCallServer.c:381-408 | these frames are one per send, in order |
| `ReusedBuffer.Client.SrvSendDatagram` | alpc-research/AdvancedLocalProcedureCallServer.c:381-408 | the frame sent from the client's buffer, whatever the buffer held, with or without data |
| `ReusedBuffer.SrvConnectServer` | alpc-research/AdvancedLocalProcedureCallServer.c:423-489 | a client owning the two blocks and the handle it was granted, its buffer holding the kernel's answer over the message sent, or nothing changed, and every allocation, open and free in order |
| `ReusedBuffer.SrvDisconnectServer` | alpc-research/AdvancedLocalProcedureCallServer.c:412-419 | gives back both blocks and the handle |
| `ReusedBuffer.CounterFrameCarriesCounter` | alpc-research/client.c:87-100 | the eight body bytes of a counter's frame are the counter, least significant first |
| `ReusedBuffer.CliTestDatagram` | alpc-research/client.c:41-109 | with any loop bound, frame i carries i; heap and handles end as they began on every path |
| `ReusedBuffer.CliTestSyncRequest` | alpc-research/client.c:112-179 | the same while replies overwrite the buffer between sends |
| `ServerModel.Serve` | alpc-research/ua.c:190-253 | receiving and processing any message keeps contexts owned and the buffer's size |
| `ServerModel.ArrivesIsPlausible` | alpc-research/ua.c:190-239 | what is assumed of a delivery, told by the bytes of its message |
| `ServerModel.ServeIsProcessed` | alpc-research/ua.c:46-218 | by byte 4 of any message that arrives: 1 is handled and answered; 3 is handled, and cancelled exactly if bit 0x20 of byte 5 is set; 5 and 6 both close the connection's handle and free its context; 10 gets one verdict under the client id of bytes 8 to 16 or 24; anything else only fills the buffer |
| `ServerModel.AcceptedContextHoldsId` | alpc-research/ua.c:132-146 | a connection request built from eight bytes, an id and a rest leaves, if accepted, a context with exactly that id |
| `ServerModel.ServeCalls` | alpc-research/ua.c:46-86 | the calls made from the buffer are those of the message received, with the handler's answer to that message, and the loop goes on exactly if no needed attribute is missing |
| `ServerModel.DisconnectEffect` | alpc-research/ua.c:90-112 | closes the handle, frees the context, once each and in this order, and changes nothing else |
| `ServerModel.ConnectVerdict` | alpc-research/ua.c:116-186 | each connection request gets one verdict: an accept with a live context holding client id and handle, or a refusal with everything as before, and the events of each path in order |
| `ServerModel.RunKeepsOwnership` | alpc-research/ua.c:90-253 | over any run, live contexts stay one to one with accepted unended connections, own distinct open handles, and the ledger keeps accounting for every block and handle |
| `ServerModel.RunFreesAndClosesInTurn` | alpc-research/ua.c:90-186 | over any run, allocations and frees of every address, and opens and closes of every handle value, take turns, and the last gain is followed by a loss exactly if nothing is held in the end |
| `ServerModel.RunCounts` | alpc-research/ua.c:90-186 | over any run, one verdict per connection request received, and accepts minus processed ends is the number of live contexts |
| `ServerModel.DispatchIsFold` | alpc-research/ua.c:46-86 | over any run, handler calls, replies and cancels are a pure fold over the bytes of the messages, whatever the buffer held |
| `ServerModel.CallsArePaired` | alpc-research/ua.c:50-83 | in the calls of every run, each handled request is answered at once by a reply with its header and length, a datagram is cancelled at once exactly if bit 0x20 of its byte 5 is set, and nothing else is answered or cancelled |
| `ServerModel.OwnedDisconnectSucceeds` | alpc-research/ua.c:105-111 | under ownership the status that a disconnection returns to the loop is success |
| `ServerModel.SurvivesIff` | alpc-research/ua.c:229-250 | the loop stops before a receive fails if and only if the attribute is missing and a message has 3, 5 or 6 in byte 4 |
| `UaServer.Server.UaAlpcRequest` | alpc-research/ua.c:46-62 | the handler is called on the message in the buffer and rewrites its body there, and the reply is that message as the handler left it |
| `UaServer.Server.UaAlpcDatagram` | alpc-research/ua.c:66-86 | with the context attribute, handler call, and cancel exactly if bit 0x20 of byte 5 of the buffer is set; without it, failure |
| `UaServer.Server.UaAlpcDisconnect` | alpc-research/ua.c:90-112 | with the context attribute the connection's handle is closed and its context freed, and nothing else; the result is the status of closing the handle |
| `UaServer.Server.UaAlpcConnect` | alpc-research/ua.c:116-186 | the accept, refuse and failure paths; an accepted context holds bytes 8 to 16 or 24 of the buffer as its client id |
| `UaServer.Server.Dispatch` | alpc-research/ua.c:190-218 | the switch agrees with the model's step |
| `UaServer.Server.UaProcessMessage` | alpc-research/ua.c:190-218 | the model's step, and the law of `ServerModel.ServeIsProcessed` on the bytes of the message |
| `UaServer.Server.UaServerWorker` | alpc-research/ua.c:222-253 | the loop, offering the full buffer at every receive, is the model's run: every message that fits the maximum is received |
| `UaServer.Start` | alpc-research/ua.c:295-343 | what has been obtained, and in which order, when creation fails at each of its steps |
| `UaServer.ObtainBlocks` | alpc-research/ua.c:295-319 | the first of these steps: two blocks, and both attributes in the attribute block |
| `UaServer.StartThread` | alpc-research/ua.c:325-343 | the last two of these steps |
| `UaServer.Cleanup` | alpc-research/ua.c:347-363 | gives back exactly what the non-NULL fields name, once each and in order |
| `UaServer.UaCreateServer` | alpc-research/ua.c:271-366 | for every combination of failures: a server owning three blocks, a port and a thread, with exactly these allocations and opens, or heap and handles as before, with every step up to the failure undone once |
| `UaServer.UaTerminateServer` | alpc-research/ua.c:257-267 | the three blocks and the port are given back; the thread handle and remaining contexts are not |
| `Interleaving.CreatedServerInv` | alpc-research/ua.c:285-345 | a newly created server satisfies the two-thread invariant |
| `Interleaving.PortOpenIff` | alpc-research/ua.c:222-262 | after any interleaving, an instruction of the worker that uses the connection port finds it open if and only if termination has not begun |
| `Interleaving.ReplyOverClosedPort` | alpc-research/ua.c:52-261 | from every state between two messages there is a run to a worker about to reply over the closed port, which is otherwise safe |
| `Interleaving.ThreadsFreeAndCloseInTurn` | alpc-research/ua.c:90-267 | in every interleaving, allocations and frees of every address, and opens and closes of every handle value, take turns |
| `Interleaving.StepIsSafe` | alpc-research/ua.c:222-267 | whatever either thread can do next finds its blocks live, the context handle it closes open and the thread handle it waits for open, and keeps the invariant; the connection port is the exception, see `Interleaving.PortOpenIff` |
| `Interleaving.WorkTouchesWhatItUses` | alpc-research/ua.c:46-239 | the blocks and the port that an instruction of the worker is said to use include all it frees, changes, reads a handle from, calls a handler or the kernel with |
| `Interleaving.TerminationTouchesWhatItFrees` | alpc-research/ua.c:264-266 | the same for the terminating thread |
| `Interleaving.NeverTouchesFreed` | alpc-research/ua.c:222-267 | after any interleaving, neither thread is about to touch a freed block, and the server's blocks are live unless the worker has exited |
| `Interleaving.ServerBlocksFreedOnce` | alpc-research/ua.c:261-266 | in every interleaving each of the three blocks is freed once, exactly when termination has passed it |
| `Interleaving.LeftAfterTermination` | alpc-research/ua.c:257-267 | what is left when termination returns, and that the heap is as before exactly if every connection's end was processed |
| `Interleaving.WaitEnds` | alpc-research/ua.c:261-262 | once the port is closed only the worker can go on, it always can, and every instruction brings it closer to its exit |
| `Interleaving.SoloServe` | alpc-research/ua.c:190-253 | each delivery of the sequential model, of every kind and outcome, is a fixed list of instructions that starts with its receive, leaves the same memory and makes the same calls |
| `Interleaving.SequentialRunIsInterleaved` | alpc-research/ua.c:222-253 | delivery by delivery, every run of the sequential worker is a run of the instruction-by-instruction worker with the same calls and memory |
| `Interleaving.SequentialRunIsSafe` | alpc-research/ua.c:222-253 | at every instruction of every sequential run the blocks touched are live, the port is open and the step is safe |
| `ServerLifetime.CreationStartsSafely` | alpc-research/ua.c:285-345 | the process as a successful creation leaves it, its thread started, satisfies the two-thread invariant |
| `ServerLifetime.SafeFromCreation` | alpc-research/ua.c:222-345 | from creation on, in any order of the threads, both find their blocks live, and the worker finds the port it uses open if and only if termination has not begun |
| `ServerLifetime.ClosedPortIsUsed` | alpc-research/ua.c:52-261 | every created server has a run in which the worker is about to use the closed port |
| `ServerLifetime.LifetimeInAnyOrder` | alpc-research/ua.c:257-345 | from creation to the return of termination, in any order of the threads: what is left, compared with the process before creation |
| `ServerLifetime.CreateServeTerminate` | alpc-research/ua.c:222-366 | creation, worker and termination in sequence: the calls made, what is left and how many contexts, with the ledger accounting for everything |
| `EndToEnd.ProcessDelivers` | alpc-research/ua.c:46-62 | whatever the one buffer held, a queued request reaches the handler as it was sent, and the reply delivered is the handler's answer to it |
| `EndToEnd.SubmitEffect` | alpc-research/ua.c:370-410 | every call of at most the largest length waits, and its message, with its id and bytes, is queued behind all others |
| `EndToEnd.ReplyReturnsCall` | alpc-research/ua.c:403-416 | a delivered reply makes the waiting call return success with the handler's answer to its own bytes, and no other entry changes; otherwise none does |
| `EndToEnd.FailEffect` | alpc-research/ua.c:403-416 | a failed call returns with its own bytes, and nothing else changes |
| `EndToEnd.ReturnedStays` | alpc-research/ua.c:412-416 | what a call has returned is never touched again, in any run |
| `EndToEnd.UnservedKeepsWaiting` | alpc-research/ua.c:403-410 | a call that nobody fails or serves keeps waiting with its message in the queue, in any run |
| `EndToEnd.ServedCallReturns` | alpc-research/ua.c:370-417 | in every run, a call that is submitted, later served and sent its reply has returned the handler's answer in the end |
| `EndToEnd.RequestsMeanTheirAnswers` | alpc-research/ua.c:370-417 | in every run each successful call returns the handler's transformation of its own bytes and each failed call leaves them |
| `EndToEnd.SuccessfulRequest` | alpc-research/ua.c:370-417 | the same from a system without requests |

## Left out

- UaSendSynchronousRequest: assumes that header plus length does not wrap; for other lengths `WritesFitIffNoWrap` says that the writes leave the block, and what they then destroy is not modelled.
- UaSendDatagram: the same assumption.
- UaConnectServer: the same assumption, and an answer of the kernel that is no longer than the message sent.
- FreshClient.SrvConnectServer: the same two assumptions.
- InitializePortMessage: assumes a length that `InBoundsIffUsable` finds in bounds; other lengths are outside any buffer. The same holds for the methods of `ReusedBuffer.dfy` that call it.
- UaTerminateServer: the sequential method starts after the wait; the race with the worker is in `Interleaving.dfy`.
- The 64-bit build reads the tick count as one 64-bit word; that its writer stores it as one word is assumed, so only its conversion is modelled.
- Termination of the tick reader while the writer stays inside an update: a run that is cut off gives no result.
- `SrvSendSynchronousRequest` and `SrvSendDatagram` of `AdvancedLocalProcedureCall.c`: the bodies of the ua.c calls with boolean results.
- The server halves of the two `AdvancedLocalProcedureCall*` files, `server.c` and `ka.c`: variants of ua.c; their differences are not modelled.
- Handlers that change the header of a message. `OnRequest` may answer differently at every delivery, as a handler with state of its own does; only in `EndToEnd.dfy` it is one function of the body.
- Other threads that allocate, free or open handles while the server runs.
- Object names, port and security attributes, delays, printing, and thread scheduling.
- Bit-packing macros, enumeration tables and structure-offset assertions elsewhere in `include/phnt`.
