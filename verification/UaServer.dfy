/** The server of ua.c: creation with cleanup, the worker loop over one message buffer, termination. */
module UaServer {
  import opened Words
  import opened PortMessage
  import opened ProcessMemory
  import opened ServerModel

  const ALPC_MESSAGE_VIEW_ATTRIBUTE: Word32 := 0x4000_0000
  const ALPC_MESSAGE_CONTEXT_ATTRIBUTE: Word32 := 0x2000_0000

  /** Outcomes of the calls that creation makes, each used only if creation gets that far. */
  datatype Creation = Creation(
    server: Option<Address>,
    attributes: Option<Address>,
    initialized: bool,
    message: Option<Address>,
    port: Option<Handle>,
    thread: Option<Handle>)
  {
    predicate Succeeds() {
      server.Some? && attributes.Some? && initialized && message.Some? && port.Some? && thread.Some?
    }

    /** The allocator and the kernel hand out unused values. */
    predicate Plausible(m: Memory) {
      && Grantable(m, server) && Grantable(m, attributes) && Grantable(m, message)
      && Openable(m, port) && Openable(m, thread)
      && (server.Some? ==> attributes != server && message != server)
      && (attributes.Some? ==> message != attributes)
      && (port.Some? ==> thread != port)
    }

    /** What a failed creation does to heap and handles, in order: everything it obtained is given back. */
    function FailureEvents(): seq<Event>
      requires !Succeeds()
    {
      if server == None then []
      else if attributes == None then [Allocated(server.value), Freed(server.value)]
      else if !initialized || message == None then
        [Allocated(server.value), Allocated(attributes.value), Freed(attributes.value), Freed(server.value)]
      else if port == None then
        [Allocated(server.value), Allocated(attributes.value), Allocated(message.value),
         Freed(attributes.value), Freed(message.value), Freed(server.value)]
      else
        [Allocated(server.value), Allocated(attributes.value), Allocated(message.value), Opened(port.value),
         Closed(port.value), Freed(attributes.value), Freed(message.value), Freed(server.value)]
    }

    /** The process once a creation has succeeded. */
    function Created(m: Memory): Memory
      requires Succeeds() && Plausible(m)
    {
      Open(Open(
        Malloc(Malloc(Malloc(m, server.value), attributes.value), message.value), port.value), thread.value)
    }
  }

  /** The events that non-NULL fields of a server stand for, and those of giving all of it back. */
  function Gains(attributes: Address, message: Address, port: Handle, thread: Handle): seq<Event> {
    (if attributes == NULL then [] else [Allocated(attributes)])
    + (if message == NULL then [] else [Allocated(message)])
    + (if port == NULL then [] else [Opened(port)])
    + if thread == NULL then [] else [Opened(thread)]
  }

  function Losses(attributes: Address, message: Address, port: Handle, self: Address): seq<Event> {
    (if port == NULL then [] else [Closed(port)])
    + (if attributes == NULL then [] else [Freed(attributes)])
    + (if message == NULL then [] else [Freed(message)])
    + [Freed(self)]
  }

  lemma FailureGivesBack(creation: Creation, m: Memory, self: Address, attributes: Address, message: Address,
                         port: Handle)
    requires creation.Plausible(m) && !creation.Succeeds() && creation.server == Some(self)
    requires attributes == creation.attributes.GetOr(NULL)
    requires message == if attributes != NULL && creation.initialized then creation.message.GetOr(NULL) else NULL
    requires port == if message != NULL then creation.port.GetOr(NULL) else NULL
    ensures [Allocated(self)] + Gains(attributes, message, port, NULL) + Losses(attributes, message, port, self) ==
      creation.FailureEvents()
  {
  }

  /** UA_SERVER, with the contents of the two blocks it points to. */
  class Server {
    const layout: Layout
    const self: Address
    var portMessage: Address
    var portMessageBytes: array<Byte>    // contents of the block at portMessage
    var messageAttributes: Address
    var allocatedAttributes: Word32      // contents of the block at messageAttributes
    var connectionPortHandle: Handle
    var serverThreadHandle: Handle
    var calls: seq<Call>                 // what the worker has called so far

    /** A zero-filled block: every pointer and handle is NULL. */
    constructor Zeroed(layout: Layout, self: Address)
      ensures this.layout == layout && this.self == self
      ensures portMessage == messageAttributes == connectionPortHandle == serverThreadHandle == NULL
      ensures allocatedAttributes == 0 && calls == [] && fresh(portMessageBytes)
    {
      this.layout, this.self := layout, self;
      portMessage, messageAttributes, connectionPortHandle, serverThreadHandle := NULL, NULL, NULL, NULL;
      allocatedAttributes, calls, portMessageBytes := 0, [], new Byte[0];
    }

    ghost function View(process: Process): World
      reads this, portMessageBytes, process
    {
      World(process.memory, portMessageBytes[..], calls)
    }

    /** AlpcGetMessageAttribute finds an attribute exactly if the block was initialized for it. */
    predicate HasContextAttribute()
      reads this
    {
      allocatedAttributes / ALPC_MESSAGE_CONTEXT_ATTRIBUTE % 2 == 1
    }

    /** The blocks whose pointers are set. */
    function Obtained(): set<Address>
      reads this
    {
      {self} + (if portMessage == NULL then {} else {portMessage})
      + if messageAttributes == NULL then {} else {messageAttributes}
    }

    /** The fields are what the calls of creation yielded. */
    predicate IsFrom(creation: Creation)
      reads this
    {
      && creation.server == Some(self) && creation.message == Some(portMessage)
      && creation.attributes == Some(messageAttributes)
      && creation.port == Some(connectionPortHandle) && creation.thread == Some(serverThreadHandle)
    }

    predicate FieldsDistinct()
      reads this
    {
      && self != portMessage && self != messageAttributes
      && (portMessage != NULL ==> portMessage != messageAttributes)
    }

    predicate BlocksDistinct()
      reads this
    {
      self != portMessage && self != messageAttributes && portMessage != messageAttributes
    }

    ghost predicate Valid(process: Process)
      reads this, portMessageBytes, process
    {
      && portMessageBytes.Length == layout.MaxLength()
      && Ready(layout, View(process))
    }

    /** The handler rewrites the body of the message in the buffer, and the reply is sent from there. */
    method UaAlpcRequest(onRequest: Bytes -> Bytes)
      requires portMessageBytes.Length >= 24 && TotalLength(portMessageBytes[..]) <= portMessageBytes.Length
      requires IsMessage(layout, MessageIn(portMessageBytes[..])) && KeepsLength(onRequest)
      modifies this`calls, portMessageBytes
      ensures var m := old(MessageIn(portMessageBytes[..]));
        && calls == old(calls) + [OnRequest(m), Reply(Answer(layout, m, onRequest))]
        && portMessageBytes[..] == Answer(layout, m, onRequest) + old(portMessageBytes[..])[|m|..]
    {
      ghost var before := portMessageBytes[..];
      var m := MessageIn(portMessageBytes[..]);
      calls := calls + [OnRequest(m)];
      CopyMemory(portMessageBytes, layout.HeaderSize(), onRequest(Body(layout, m)));
      AnswerIsReply(layout, m, onRequest);
      assert portMessageBytes[..] == Overwrite(before, Answer(layout, m, onRequest));
      ReceiveReplacesMessage(layout, before, Answer(layout, m, onRequest));
      calls := calls + [Reply(MessageIn(portMessageBytes[..]))];
    }

    method UaAlpcDatagram() returns (success: bool)
      requires portMessageBytes.Length >= 24 && TotalLength(portMessageBytes[..]) <= portMessageBytes.Length
      modifies this`calls
      ensures success <==> allocatedAttributes / 0x2000_0000 % 2 == 1
      // bit 0x20 of byte 5 is the continuation flag
      ensures var m := MessageIn(portMessageBytes[..]);
        calls == if !success then old(calls) else
          old(calls) + [OnDatagram(m)] + if portMessageBytes[5] / 0x20 % 2 == 1 then [Cancel(m)] else []
    {
      TypeBytes(portMessageBytes[..]);
      if !HasContextAttribute() {
        return false;
      }
      calls := calls + [OnDatagram(MessageIn(portMessageBytes[..]))];
      if ContinuationRequired(portMessageBytes[..]) {
        calls := calls + [Cancel(MessageIn(portMessageBytes[..]))];
      }
      success := true;
    }

    method UaAlpcDisconnect(process: Process, d: Delivery) returns (success: bool)
      requires Owned(process.memory) && d.connection in process.memory.connections
      modifies process
      ensures process.memory ==
        if HasContextAttribute() then Disconnect(old(process.memory), d.connection) else old(process.memory)
      ensures if allocatedAttributes / 0x2000_0000 % 2 == 1
        then EndsConnection(old(process.memory), process.memory, d.connection)
        else process.memory == old(process.memory)
      ensures d.connection in old(process.memory.connections)
        && old(process.memory.connections[d.connection].context in process.memory.contexts)
      ensures success <==> HasContextAttribute() && old(DisconnectSucceeds(process.memory, d.connection))
    {
      if !HasContextAttribute() {
        return false;
      }
      ReportHoldsContext(process.memory, d.connection);
      DisconnectEffect(process.memory, d.connection);
      // The attribute carries the context that was given to the kernel when it accepted the connection.
      var portContext := process.memory.connections[d.connection].context;
      process.memory := Report(process.memory, d.connection);
      success := process.NtClose(process.memory.contexts[portContext].communicationPortHandle);
      process.FreeBlock(portContext);
    }

    method UaAlpcConnect(process: Process, d: Delivery)
      requires portMessageBytes.Length >= layout.HeaderSize()
      requires TotalLength(portMessageBytes[..]) <= portMessageBytes.Length
      requires Owned(process.memory) && d.connection !in process.memory.connections
      requires Grantable(process.memory, d.block) && Openable(process.memory, d.accepted)
      requires |d.message| >= layout.HeaderSize()
      requires ClientId(layout, d.message) == ClientId(layout, portMessageBytes[..])
      modifies process, this`calls
      ensures calls == old(calls) + [OnConnect(MessageIn(portMessageBytes[..]))]
      ensures process.memory ==
        Connect(old(process.memory), d, ClientId(layout, d.message), ClientId(layout, portMessageBytes[..]))
      // the client id starts at byte 8
      ensures AnswersConnect(old(process.memory), process.memory, d,
        portMessageBytes[8..if layout.Layout32? then 16 else 24])
    {
      ConnectVerdict(process.memory, d, ClientId(layout, portMessageBytes[..]));
      assert ClientId(layout, portMessageBytes[..]) == portMessageBytes[8..if layout.Layout32? then 16 else 24];
      calls := calls + [OnConnect(MessageIn(portMessageBytes[..]))];
      if d.wanted {
        var portContext := process.Allocate(d.block);
        if portContext != NULL {
          var context := PortContext(ClientId(layout, portMessageBytes[..]), NULL);
          process.memory := process.memory.(contexts := process.memory.contexts[portContext := context]);
          var handle := process.OpenHandle(d.accepted, context.communicationPortHandle);
          if handle != NULL {
            // The kernel has stored the handle in the context, and remembers the context.
            process.memory := Record(process.memory, Accepted(d.connection)).(
              contexts := process.memory.contexts[portContext := context.(communicationPortHandle := handle)],
              connections :=
                process.memory.connections[d.connection := Link(portContext, ClientId(layout, d.message))]);
          } else {
            process.memory := Record(process.memory, Refused(d.connection));
            process.FreeBlock(portContext);
          }
        } else {
          process.memory := Record(process.memory, Refused(d.connection));
        }
      } else {
        process.memory := Record(process.memory, Refused(d.connection));
      }
    }

    /** The switch of UaProcessMessage, on the buffer as the receive has left it. */
    method Dispatch(process: Process, d: Delivery, ghost before: World) returns (success: bool)
      requires portMessageBytes.Length == layout.MaxLength()
      requires Ready(layout, before) && Plausible(layout, before, d)
      requires View(process) == before.(buffer := Overwrite(before.buffer, d.message))
      modifies process, this`calls, portMessageBytes
      ensures (View(process), success) == Serve(layout, before, d, HasContextAttribute())
    {
      ReceiveReplacesMessage(layout, before.buffer, d.message);
      ghost var served := Serve(layout, before, d, HasContextAttribute());
      var kind := Kind(portMessageBytes[..]);
      success := true;
      if kind == LPC_REQUEST {
        UaAlpcRequest(d.onRequest);
        AnswerIsReply(layout, d.message, d.onRequest);
        assert (View(process), success) == served;
      } else if kind == LPC_DATAGRAM {
        TypeBytes(portMessageBytes[..]);
        success := UaAlpcDatagram();
        assert (View(process), success) == served;
      } else if kind == LPC_PORT_CLOSED || kind == LPC_CLIENT_DIED {
        success := UaAlpcDisconnect(process, d);
        assert (View(process), success) == served;
      } else if kind == LPC_CONNECTION_REQUEST {
        UaAlpcConnect(process, d);
        assert (View(process), success) == served;
      } else {
        assert (View(process), success) == served;
      }
    }

    /** UaProcessMessage: the model's step, and the law of processing told by the bytes of the message. */
    method UaProcessMessage(process: Process, d: Delivery, ghost before: World) returns (success: bool)
      requires portMessageBytes.Length == layout.MaxLength()
      requires Ready(layout, before) && Plausible(layout, before, d)
      requires View(process) == before.(buffer := Overwrite(before.buffer, d.message))
      modifies process, this`calls, portMessageBytes
      ensures (View(process), success) == Serve(layout, before, d, HasContextAttribute())
      ensures |d.message| >= layout.HeaderSize()
        && Processed(layout, before, d, allocatedAttributes / 0x2000_0000 % 2 == 1, View(process), success)
    {
      success := Dispatch(process, d, before);
      ArrivesIsPlausible(layout, before, d);
      ServeIsProcessed(layout, before, d, HasContextAttribute());
    }

    /** The kernel copies the next message into the buffer if it fits the length offered, and writes
        back the message's length; when no message is left the receive fails. */
    method Receive(next: Option<Bytes>, offered: nat) returns (success: bool, bufferLength: nat)
      requires offered <= portMessageBytes.Length
      modifies portMessageBytes
      ensures success <==> next.Some? && |next.value| <= offered
      ensures success ==> portMessageBytes[..] == Overwrite(old(portMessageBytes[..]), next.value)
      ensures success ==> bufferLength == |next.value|
      ensures !success ==> portMessageBytes[..] == old(portMessageBytes[..])
    {
      if next == None || |next.value| > offered {
        return false, offered;
      }
      CopyToFront(portMessageBytes, next.value);
      return true, |next.value|;
    }

    /** The worker loop over the messages of a run, until a receive or the processing of a message fails. */
    method UaServerWorker(process: Process, script: seq<Delivery>) returns (received: nat)
      requires Valid(process) && IsScript(layout, View(process), script, HasContextAttribute())
      modifies process, this`calls, portMessageBytes
      ensures Valid(process)
      ensures var o := Run(layout, old(View(process)), script, HasContextAttribute());
        View(process) == o.world && received == o.received
    {
      ghost var has := HasContextAttribute();
      ghost var whole := Run(layout, View(process), script, has);
      var bufferLength := 0;
      received := 0;
      while true
        invariant received <= |script| && HasContextAttribute() == has
        invariant Valid(process) && IsScript(layout, View(process), script[received..], has)
        invariant var o := Run(layout, View(process), script[received..], has);
          o.world == whole.world && received + o.received == whole.received
        decreases |script| - received
      {
        bufferLength := layout.MaxLength();
        var next := if received < |script| then Some(script[received].message) else None;
        var success;
        ghost var before := View(process);
        ghost var rest := script[received..];
        if received < |script| {
          RunStep(layout, before, rest, has);
        }
        success, bufferLength := Receive(next, bufferLength);
        if !success {
          break;
        }
        success := UaProcessMessage(process, script[received], before);
        received := received + 1;
        assert rest[1..] == script[received..];
        if !success {
          break;
        }
      }
    }
  }

  /** UaCreateServer: everything or nothing, for every combination of failures. */
  method UaCreateServer(process: Process, layout: Layout, creation: Creation) returns (server: Server?)
    requires creation.Plausible(process.memory) && process.memory.contexts.Keys <= process.memory.live
    modifies process
    ensures server != null <==> creation.Succeeds()
    ensures server == null ==>
      && process.memory.live == old(process.memory.live) && process.memory.handles == old(process.memory.handles)
      && process.memory.ledger == old(process.memory.ledger) + creation.FailureEvents()
    ensures server != null ==>
      && fresh(server) && fresh(server.portMessageBytes) && server.layout == layout
      && process.memory.live == old(process.memory.live) + {server.self, server.portMessage, server.messageAttributes}
      && {server.self, server.portMessage, server.messageAttributes} !! old(process.memory.live)
      && server.BlocksDistinct()
      && process.memory.handles ==
           old(process.memory.handles) + {server.connectionPortHandle, server.serverThreadHandle}
      && {server.connectionPortHandle, server.serverThreadHandle} !! old(process.memory.handles)
      && server.connectionPortHandle != server.serverThreadHandle
      && server.allocatedAttributes == 0x6000_0000 && server.HasContextAttribute() && server.calls == []
      && server.portMessageBytes[..] == Zeros(layout.MaxLength())
    ensures server != null ==>
      && process.memory == creation.Created(old(process.memory)) && server.IsFrom(creation)
    ensures process.memory.contexts == old(process.memory.contexts)
    ensures process.memory.connections == old(process.memory.connections)
  {
    var self := process.Allocate(creation.server);
    if self == NULL {
      return null;
    }
    server := new Server.Zeroed(layout, self);
    var started := Start(process, server, creation);
    if !started {
      Cleanup(process, server);
      FailureGivesBack(creation, old(process.memory), self, server.messageAttributes, server.portMessage,
        server.connectionPortHandle);
      server := null;
    }
  }

  /** The steps of creation after the server block is obtained, up to the first failure. */
  method Start(process: Process, server: Server, creation: Creation) returns (started: bool)
    requires creation.attributes.Some? ==> creation.attributes.value !in {server.self, NULL} + process.memory.live
    requires creation.message.Some? ==> creation.message.value !in {server.self, NULL} + process.memory.live
    requires creation.attributes.Some? ==> creation.attributes != creation.message
    requires Openable(process.memory, creation.port) && Openable(process.memory, creation.thread)
    requires creation.port.Some? ==> creation.port != creation.thread
    requires server.portMessage == server.messageAttributes == NULL
    requires server.connectionPortHandle == server.serverThreadHandle == NULL
    requires server.self in process.memory.live && server.self != NULL
    modifies process, server
    ensures started <==>
      && creation.attributes.Some? && creation.initialized && creation.message.Some?
      && creation.port.Some? && creation.thread.Some?
    ensures server.FieldsDistinct()
    ensures process.memory.live == old(process.memory.live) + server.Obtained()
    ensures server.Obtained() - {server.self} !! old(process.memory.live)
    ensures server.connectionPortHandle != NULL ==> server.connectionPortHandle !in old(process.memory.handles)
    ensures process.memory.handles == old(process.memory.handles)
      + (if server.connectionPortHandle == NULL then {} else {server.connectionPortHandle})
      + if server.serverThreadHandle == NULL then {} else {server.serverThreadHandle}
    ensures if started then
        && NULL !in {server.portMessage, server.messageAttributes}
        && NULL !in {server.connectionPortHandle, server.serverThreadHandle}
        && server.IsFrom(creation.(server := Some(server.self)))
        && server.serverThreadHandle !in old(process.memory.handles) + {server.connectionPortHandle}
        && fresh(server.portMessageBytes) && server.portMessageBytes[..] == Zeros(server.layout.MaxLength())
        && server.allocatedAttributes == 0x6000_0000 && server.HasContextAttribute()
      else server.serverThreadHandle == NULL
    ensures process.memory.ledger == old(process.memory.ledger) + 
      Gains(server.messageAttributes, server.portMessage, server.connectionPortHandle, server.serverThreadHandle)
    ensures server.messageAttributes == creation.attributes.GetOr(NULL)
    ensures server.portMessage ==
      if server.messageAttributes != NULL && creation.initialized then creation.message.GetOr(NULL) else NULL
    ensures server.connectionPortHandle == if server.portMessage != NULL then creation.port.GetOr(NULL) else NULL
    ensures server.calls == old(server.calls)
    ensures process.memory.contexts == old(process.memory.contexts)
    ensures process.memory.connections == old(process.memory.connections)
  {
    started := false;
    var obtained := ObtainBlocks(process, server, creation);
    if !obtained {
      return;
    }
    started := StartThread(process, server, creation);
  }

  /** The first of these steps: the attributes, initialized, and the message buffer. */
  method ObtainBlocks(process: Process, server: Server, creation: Creation) returns (obtained: bool)
    requires creation.attributes.Some? ==> creation.attributes.value !in {server.self, NULL} + process.memory.live
    requires creation.message.Some? ==> creation.message.value !in {server.self, NULL} + process.memory.live
    requires creation.attributes.Some? ==> creation.attributes != creation.message
    requires server.portMessage == server.messageAttributes == NULL
    modifies process, server`messageAttributes, server`allocatedAttributes, server`portMessage, server`portMessageBytes
    ensures obtained <==> creation.attributes.Some? && creation.initialized && creation.message.Some?
    ensures server.messageAttributes == creation.attributes.GetOr(NULL)
    ensures server.portMessage ==
      if server.messageAttributes != NULL && creation.initialized then creation.message.GetOr(NULL) else NULL
    ensures obtained ==>
      && NULL !in {server.portMessage, server.messageAttributes}
      && fresh(server.portMessageBytes) && server.portMessageBytes[..] == Zeros(server.layout.MaxLength())
      && server.allocatedAttributes == 0x6000_0000
    ensures process.memory == old(process.memory).(
      live := old(process.memory.live)
        + (if server.messageAttributes == NULL then {} else {server.messageAttributes})
        + (if server.portMessage == NULL then {} else {server.portMessage}),
      ledger := old(process.memory.ledger) + Gains(server.messageAttributes, server.portMessage, NULL, NULL))
  {
    obtained := false;
    server.messageAttributes := process.Allocate(creation.attributes);
    if server.messageAttributes == NULL {
      return;
    }
    if !creation.initialized {
      return;
    }
    server.allocatedAttributes := ALPC_MESSAGE_VIEW_ATTRIBUTE + ALPC_MESSAGE_CONTEXT_ATTRIBUTE;

    server.portMessage := process.Allocate(creation.message);
    if server.portMessage == NULL {
      return;
    }
    server.portMessageBytes := new Byte[server.layout.MaxLength()](_ => 0);
    obtained := true;
  }

  /** The last two steps: the connection port, and the thread that runs the worker. */
  method StartThread(process: Process, server: Server, creation: Creation) returns (started: bool)
    requires Openable(process.memory, creation.port) && Openable(process.memory, creation.thread)
    requires creation.port.Some? ==> creation.port != creation.thread
    requires server.connectionPortHandle == server.serverThreadHandle == NULL
    modifies process, server`connectionPortHandle, server`serverThreadHandle
    ensures started <==> creation.port.Some? && creation.thread.Some?
    ensures server.connectionPortHandle != NULL ==> server.connectionPortHandle !in old(process.memory.handles)
    ensures process.memory == old(process.memory).(
      ledger := process.memory.ledger,
      handles := old(process.memory.handles)
        + (if server.connectionPortHandle == NULL then {} else {server.connectionPortHandle})
        + if server.serverThreadHandle == NULL then {} else {server.serverThreadHandle})
    ensures if started then
        && creation.port == Some(server.connectionPortHandle) && creation.thread == Some(server.serverThreadHandle)
        && NULL !in {server.connectionPortHandle, server.serverThreadHandle}
        && server.serverThreadHandle !in old(process.memory.handles) + {server.connectionPortHandle}
      else server.serverThreadHandle == NULL
    ensures server.connectionPortHandle == creation.port.GetOr(NULL)
    ensures process.memory.ledger == old(process.memory.ledger)
      + (if server.connectionPortHandle == NULL then [] else [Opened(server.connectionPortHandle)])
      + if server.serverThreadHandle == NULL then [] else [Opened(server.serverThreadHandle)]
  {
    started := false;
    server.connectionPortHandle := process.OpenHandle(creation.port, server.connectionPortHandle);
    if server.connectionPortHandle == NULL {
      return;
    }
    server.serverThreadHandle := process.OpenHandle(creation.thread, NULL);
    started := server.serverThreadHandle != NULL;
  }

  /** The cleanup path of creation, after a failure: what was obtained is given back, told by the fields
      that are no longer NULL. */
  method Cleanup(process: Process, server: Server)
    requires server.Obtained() <= process.memory.live && server.Obtained() !! process.memory.contexts.Keys
    requires server.self != NULL && server.FieldsDistinct()
    requires server.connectionPortHandle != NULL ==> server.connectionPortHandle in process.memory.handles
    modifies process
    ensures process.memory.live == old(process.memory.live) - server.Obtained()
    ensures process.memory.handles ==
      old(process.memory.handles) - if server.connectionPortHandle == NULL then {} else {server.connectionPortHandle}
    ensures process.memory.ledger == old(process.memory.ledger) + Losses(server.messageAttributes, server.portMessage,
      server.connectionPortHandle, server.self)
    ensures process.memory.contexts == old(process.memory.contexts)
    ensures process.memory.connections == old(process.memory.connections)
  {
    if server.connectionPortHandle != NULL {
      var _ := process.NtClose(server.connectionPortHandle);
    }
    if server.messageAttributes != NULL {
      process.FreeBlock(server.messageAttributes);
    }
    if server.portMessage != NULL {
      process.FreeBlock(server.portMessage);
    }
    process.FreeBlock(server.self);
  }

  /** The server's blocks are live and its own, and its port is open. */
  predicate Terminable(m: Memory, port: Handle, message: Address, attributes: Address, self: Address) {
    && {self, message, attributes} <= m.live && {self, message, attributes} !! m.contexts.Keys
    && self != message && self != attributes && message != attributes
    && port in m.handles
  }

  /** The process after the calls of termination. */
  function Terminated(m: Memory, port: Handle, message: Address, attributes: Address, self: Address): Memory
    requires Terminable(m, port, message, attributes, self)
  {
    Free(Free(Free(NtClosed(m, port), message), attributes), self)
  }

  /** UaTerminateServer, once its wait for the worker has returned. The thread handle stays open, and
      contexts of connections not yet reported closed stay allocated. */
  method UaTerminateServer(process: Process, server: Server)
    requires Terminable(process.memory, server.connectionPortHandle,
      server.portMessage, server.messageAttributes, server.self)
    modifies process
    ensures process.memory.live ==
      old(process.memory.live) - {server.self, server.portMessage, server.messageAttributes}
    ensures process.memory.handles == old(process.memory.handles) - {server.connectionPortHandle}
    ensures process.memory == Terminated(old(process.memory), server.connectionPortHandle,
      server.portMessage, server.messageAttributes, server.self)
    ensures process.memory.contexts == old(process.memory.contexts)
    ensures process.memory.connections == old(process.memory.connections)
  {
    var self, message, attributes := server.self, server.portMessage, server.messageAttributes;
    var _ := process.NtClose(server.connectionPortHandle);
    process.FreeBlock(message);
    process.FreeBlock(attributes);
    process.FreeBlock(self);
    assert process.memory.contexts == old(process.memory.contexts);
  }
}
