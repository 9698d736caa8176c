/** Clients that allocate a message for every call: the send calls of ua.c and the connection object
    of AdvancedLocalProcedureCall.c. */
module FreshClient {
  import opened Words
  import opened PortMessage
  import opened ProcessMemory
  import ClientSessions

  datatype Status = Success | BufferOverflow | InsufficientResources | CallFailed

  /** The caller's buffer after a synchronous request: the body of the message block, over which the
      kernel has written the reply. */
  function CopiedBack(l: Layout, payload: Bytes, reply: Bytes): (r: Bytes)
    requires l.HeaderSize() + |payload| < TWO16 && |reply| <= l.HeaderSize() + |payload|
    ensures |r| == |payload|
  {
    Overwrite(NewFrame(l, payload), reply)[l.HeaderSize()..]
  }

  /** A reply of the request's length replaces the caller's bytes; a shorter one leaves the rest of them. */
  lemma CopiedBackIsReplyBody(l: Layout, payload: Bytes, reply: Bytes)
    requires l.HeaderSize() + |payload| < TWO16 && IsMessage(l, reply) && |reply| <= l.HeaderSize() + |payload|
    ensures CopiedBack(l, payload, reply) == Body(l, reply) + payload[|reply| - l.HeaderSize()..]
    ensures |reply| == l.HeaderSize() + |payload| ==> CopiedBack(l, payload, reply) == Body(l, reply)
  {
  }

  /** Header and payload stored in a zeroed array of exactly the total length. */
  method StoreMessage(l: Layout, message: array<Byte>, payload: Bytes)
    requires l.HeaderSize() + |payload| < TWO16 && message.Length == l.HeaderSize() + |payload|
    requires message[..] == Zeros(message.Length)
    modifies message
    ensures message[..] == NewFrame(l, payload)
  {
    assert message[..l.HeaderSize()] == Zeros(l.HeaderSize());
    StoreLengths(l, message, StoredTotal(l, |payload|), |payload|);
    CopyMemory(message, l.HeaderSize(), payload);
  }

  /** UaSendSynchronousRequest: what is sent, what the caller gets back, and an unchanged heap on every path. */
  method UaSendSynchronousRequest(l: Layout, process: Process, data: array<Byte>, block: Option<Address>,
                                  reply: Option<Bytes>)
    returns (status: Status, sent: Option<Bytes>)
    requires l.HeaderSize() + data.Length < TWO16
    requires Grantable(process.memory, block) && process.memory.contexts.Keys <= process.memory.live
    // the kernel writes no more than the length offered, and nothing when the call fails
    requires reply.Some? ==> |reply.value| <= l.HeaderSize() + data.Length
    modifies process, data
    ensures status == BufferOverflow <==> l.HeaderSize() + data.Length > l.MaxLength()
    ensures status == InsufficientResources <==> l.HeaderSize() + data.Length <= l.MaxLength() && block == None
    ensures sent == if status.BufferOverflow? || status.InsufficientResources? then None
                    else Some(NewFrame(l, old(data[..])))
    ensures status == Success <==> sent.Some? && reply.Some?
    ensures data[..] == if status.Success? then CopiedBack(l, old(data[..]), reply.value) else old(data[..])
    ensures process.memory == old(process.memory).(ledger := process.memory.ledger)
    ensures ClientSessions.Performs(old(process.memory), process.memory, ClientSessions.Unchanged)
    ensures process.memory.ledger == old(process.memory.ledger) +
      if sent == None then [] else [Allocated(block.value), Freed(block.value)]
  {
    var totalLength := StoredTotal(l, data.Length);
    if totalLength > l.MaxLength() {
      return BufferOverflow, None;
    }
    var address := process.Allocate(block);
    if address == NULL {
      return InsufficientResources, None;
    }
    var message := new Byte[totalLength](_ => 0);
    StoreMessage(l, message, data[..]);
    sent := Some(message[..]);
    if reply.Some? {
      CopyToFront(message, reply.value);
    }
    CopyToFront(data, message[l.HeaderSize()..]);
    assert NewFrame(l, old(data[..]))[l.HeaderSize()..] == old(data[..]);
    process.FreeBlock(address);
    status := if reply.Some? then Success else CallFailed;
  }

  /** UaSendDatagram. */
  method UaSendDatagram(l: Layout, process: Process, datagram: Bytes, block: Option<Address>, succeeds: bool)
    returns (status: Status, sent: Option<Bytes>)
    requires l.HeaderSize() + |datagram| < TWO16
    requires Grantable(process.memory, block) && process.memory.contexts.Keys <= process.memory.live
    modifies process
    ensures status == BufferOverflow <==> l.HeaderSize() + |datagram| > l.MaxLength()
    ensures status == InsufficientResources <==> l.HeaderSize() + |datagram| <= l.MaxLength() && block == None
    ensures sent ==
      if status.BufferOverflow? || status.InsufficientResources? then None else Some(NewFrame(l, datagram))
    ensures status == Success <==> sent.Some? && succeeds
    ensures process.memory == old(process.memory).(ledger := process.memory.ledger)
    ensures ClientSessions.Performs(old(process.memory), process.memory, ClientSessions.Unchanged)
    ensures process.memory.ledger == old(process.memory.ledger) +
      if sent == None then [] else [Allocated(block.value), Freed(block.value)]
  {
    var totalLength := StoredTotal(l, |datagram|);
    if totalLength > l.MaxLength() {
      return BufferOverflow, None;
    }
    var address := process.Allocate(block);
    if address == NULL {
      return InsufficientResources, None;
    }
    var message := new Byte[totalLength](_ => 0);
    StoreMessage(l, message, datagram);
    sent := Some(message[..]);
    process.FreeBlock(address);
    status := if succeeds then Success else CallFailed;
  }

  /** The connect calls offer the kernel the largest length for its answer, whatever the block holds: every
      answer it may write fits if and only if the message sent has that length. */
  lemma OfferedLengthFitsIffLargest(l: Layout, dataLength: Word16)
    requires !GuardRejects(l, dataLength)
    ensures (forall answer: Bytes :: |answer| <= l.MaxLength() ==> |answer| <= StoredTotal(l, dataLength))
      <==> StoredTotal(l, dataLength) == l.MaxLength()
  {
    assert |Zeros(l.MaxLength())| == l.MaxLength();
  }

  /** UaConnectServer: the caller gets a handle, or nothing changed; the message block is gone either way. */
  method UaConnectServer(l: Layout, process: Process, data: Bytes, block: Option<Address>,
                         port: Option<Handle>, was: Handle, answer: Bytes)
    returns (status: Status, handle: Handle, sent: Option<Bytes>)
    requires l.HeaderSize() + |data| < TWO16
    // on success the kernel writes its answer over the message, and stays inside the block
    requires port.Some? ==> |answer| <= l.HeaderSize() + |data|
    requires Grantable(process.memory, block) && Openable(process.memory, port)
    requires process.memory.contexts.Keys <= process.memory.live
    modifies process
    ensures status == BufferOverflow <==> l.HeaderSize() + |data| > l.MaxLength()
    ensures status == InsufficientResources <==> l.HeaderSize() + |data| <= l.MaxLength() && block == None
    ensures sent == if status.BufferOverflow? || status.InsufficientResources? then None else Some(NewFrame(l, data))
    ensures status == Success <==> sent.Some? && port.Some?
    ensures if status == Success then handle == port.value && handle !in old(process.memory.handles)
      else handle == was
    ensures process.memory == old(process.memory).(
      ledger := process.memory.ledger,
      handles := old(process.memory.handles) + if status == Success then {handle} else {})
    ensures process.memory.ledger == old(process.memory.ledger) +
      if sent == None then [] else
      [Allocated(block.value)] + (if port.Some? then [Opened(port.value)] else []) + [Freed(block.value)]
    ensures ClientSessions.Performs(old(process.memory), process.memory,
      if status == Success then ClientSessions.Connected(ClientSessions.Holding({}, handle))
      else ClientSessions.Unchanged)
  {
    var totalLength := StoredTotal(l, |data|);
    if totalLength > l.MaxLength() {
      return BufferOverflow, was, None;
    }
    var address := process.Allocate(block);
    if address == NULL {
      return InsufficientResources, was, None;
    }
    var message := new Byte[totalLength](_ => 0);
    StoreMessage(l, message, data);
    sent := Some(message[..]);
    handle := process.OpenHandle(port, was);
    if port.Some? {
      CopyToFront(message, answer);
    }
    process.FreeBlock(address);
    status := if port.Some? then Success else CallFailed;
  }

  /** UaDisconnectServer. */
  method UaDisconnectServer(process: Process, handle: Handle)
    modifies process
    ensures process.memory == NtClosed(old(process.memory), handle)
    ensures ClientSessions.Performs(old(process.memory), process.memory,
      ClientSessions.Disconnected(ClientSessions.Holding({}, handle)))
  {
    var _ := process.NtClose(handle);
  }

  /** CLIENT_OBJECT of AdvancedLocalProcedureCall.c. */
  class Client {
    const self: Address
    var communicationPortHandle: Handle

    constructor Zeroed(self: Address)
      ensures this.self == self && communicationPortHandle == NULL
    {
      this.self := self;
      communicationPortHandle := NULL;
    }

    function Holding(): ClientSessions.Holding
      reads this
    {
      ClientSessions.Holding({self}, communicationPortHandle)
    }
  }

  /** Outcomes of the calls that connecting makes. */
  datatype Connecting = Connecting(
    client: Option<Address>, message: Option<Address>, port: Option<Handle>, answer: Bytes)
  {
    predicate Plausible(m: Memory) {
      && Grantable(m, client) && Grantable(m, message) && Openable(m, port)
      && (client.Some? ==> client != message)
    }
  }

  /** SrvConnectServer: a client that owns one block and one handle, or nothing changed. */
  method SrvConnectServer(l: Layout, process: Process, data: Bytes, outcome: Connecting)
    returns (client: Client?, sent: Option<Bytes>)
    requires l.HeaderSize() + |data| < TWO16
    requires outcome.Plausible(process.memory) && process.memory.contexts.Keys <= process.memory.live
    requires outcome.port.Some? ==> |outcome.answer| <= l.HeaderSize() + |data|
    modifies process
    ensures client != null <==>
      && l.HeaderSize() + |data| <= l.MaxLength()
      && outcome.client.Some? && outcome.message.Some? && outcome.port.Some?
    ensures client != null ==>
      && fresh(client) && sent == Some(NewFrame(l, data))
      && client.self == outcome.client.value && client.communicationPortHandle == outcome.port.value
      && client.self !in old(process.memory.live) && client.communicationPortHandle !in old(process.memory.handles)
    ensures process.memory == old(process.memory).(
      ledger := process.memory.ledger,
      live := old(process.memory.live) + if client == null then {} else {client.self},
      handles := old(process.memory.handles) + if client == null then {} else {client.communicationPortHandle})
    ensures sent.Some? <==>
      l.HeaderSize() + |data| <= l.MaxLength() && outcome.client.Some? && outcome.message.Some?
    // the object first, then the message, freed before the object if there is no client in the end
    ensures outcome.client == None ==> process.memory == old(process.memory)
    ensures outcome.client.Some? && sent == None ==>
      process.memory.ledger == old(process.memory.ledger) +
        [Allocated(outcome.client.value), Freed(outcome.client.value)]
    ensures sent.Some? && client == null ==>
      process.memory.ledger == old(process.memory.ledger) +
        [Allocated(outcome.client.value), Allocated(outcome.message.value),
         Freed(outcome.message.value), Freed(outcome.client.value)]
    ensures client != null ==>
      process.memory.ledger == old(process.memory.ledger) +
        [Allocated(outcome.client.value), Allocated(outcome.message.value),
         Opened(outcome.port.value), Freed(outcome.message.value)]
    ensures ClientSessions.Performs(old(process.memory), process.memory,
      if client == null then ClientSessions.Unchanged else ClientSessions.Connected(client.Holding()))
  {
    sent := None;
    var self := process.Allocate(outcome.client);
    if self == NULL {
      return null, None;
    }
    client := new Client.Zeroed(self);
    label Attempt: {
      var totalLength := StoredTotal(l, |data|);
      if totalLength > l.MaxLength() {
        break Attempt;
      }
      var address := process.Allocate(outcome.message);
      if address == NULL {
        break Attempt;
      }
      var message := new Byte[totalLength](_ => 0);
      StoreMessage(l, message, data);
      sent := Some(message[..]);
      client.communicationPortHandle := process.OpenHandle(outcome.port, client.communicationPortHandle);
      if outcome.port.Some? {
        CopyToFront(message, outcome.answer);
      }
      process.FreeBlock(address);
      if client.communicationPortHandle == NULL {
        break Attempt;
      }
      return;
    }
    process.FreeBlock(self);
    client := null;
  }

  /** SrvDisconnectServer. */
  method SrvDisconnectServer(process: Process, client: Client)
    requires client.self in process.memory.live && client.self !in process.memory.contexts
    modifies process
    ensures process.memory == old(process.memory).(
      ledger := process.memory.ledger,
      live := old(process.memory.live) - {client.self},
      handles := old(process.memory.handles) - {client.communicationPortHandle})
    ensures process.memory == Free(NtClosed(old(process.memory), client.communicationPortHandle), client.self)
    ensures ClientSessions.Performs(old(process.memory), process.memory, ClientSessions.Disconnected(client.Holding()))
  {
    var _ := process.NtClose(client.communicationPortHandle);
    process.FreeBlock(client.self);
  }
}
