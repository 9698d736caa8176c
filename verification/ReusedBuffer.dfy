/** Clients that keep one message buffer for all their calls: AdvancedLocalProcedureCallServer.c and the
    send loops of client.c. Lengths are signed 16-bit values there. */
module ReusedBuffer {
  import opened Words
  import opened PortMessage
  import opened ProcessMemory
  import ClientSessions

  /** The buffer these clients allocate, and the constant their length check compares with. */
  const CAPACITY := 0xFFEF

  /** header + length as kept in a signed 16-bit TotalLength variable. */
  function SignedTotal(l: Layout, dataLength: int): int {
    ToShort(l.HeaderSize() + dataLength)
  }

  /** A signed length converted to SIZE_T, as the fill and copy routines receive it. */
  function ToSize(l: Layout, x: int): int {
    if x >= 0 then x else if l.Layout32? then x + TWO32 else x + TWO64
  }

  /** The signed comparison of the length check can never be true. */
  lemma GuardNeverRejects(l: Layout, dataLength: int)
    ensures !(SignedTotal(l, dataLength) > CAPACITY)
  {
  }

  predicate UsableLength(l: Layout, dataLength: int) {
    0 <= dataLength && l.HeaderSize() + dataLength <= 0x7FFF
  }

  /** Zeroing the total length, and copying the data if there are any, stay inside the buffer. */
  predicate InBounds(l: Layout, hasData: bool, dataLength: int) {
    && ToSize(l, SignedTotal(l, dataLength)) <= CAPACITY
    && (hasData ==> l.HeaderSize() + ToSize(l, dataLength) <= CAPACITY)
  }

  /** With data, exactly the lengths that are not negative and whose sum with the header is a signed 16-bit
      value are in bounds. Without data nothing is copied, and a negative length is in bounds too as long
      as its sum with the header is not negative. */
  lemma InBoundsIffUsable(l: Layout, hasData: bool, dataLength: int)
    requires -0x8000 <= dataLength <= 0x7FFF
    ensures InBounds(l, hasData, dataLength) <==>
      if hasData then UsableLength(l, dataLength) else 0 <= l.HeaderSize() + dataLength <= 0x7FFF
  {
  }

  /** A length the check accepts although the fill would run past any buffer. */
  lemma UnusableLengthAccepted()
    ensures !(SignedTotal(Layout64, 0x7FFF) > CAPACITY)
    ensures ToSize(Layout64, SignedTotal(Layout64, 0x7FFF)) > CAPACITY
  {
  }

  /** What a message of this length carries: the data, or zeros when no data is given. */
  function Payload(data: Option<Bytes>, dataLength: nat): (p: Bytes)
    requires data.Some? ==> |data.value| == dataLength
    ensures |p| == dataLength
  {
    if data == None then Zeros(dataLength) else data.value
  }

  /** The arguments of an initialization that stays in bounds; without data the length may be negative. */
  predicate Usable(l: Layout, data: Option<Bytes>, dataLength: int) {
    && (data.Some? ==> |data.value| == dataLength)
    && 0 <= l.HeaderSize() + dataLength <= 0x7FFF
  }

  /** A buffer after its initialization: a new frame in front of what it held. A negative length leaves a
      total below a header, both lengths stored over the zeros or over older bytes behind them. */
  function Initialized(l: Layout, buffer: Bytes, data: Option<Bytes>, dataLength: int): (b: Bytes)
    requires Usable(l, data, dataLength) && |buffer| >= l.HeaderSize() && |buffer| >= l.HeaderSize() + dataLength
    ensures |b| == |buffer|
  {
    var total := l.HeaderSize() + dataLength;
    if dataLength >= 0 then Overwrite(buffer, NewFrame(l, Payload(data, dataLength)))
    else PutWord16(PutWord16(Overwrite(buffer, Zeros(total)), 2, total), 0, ToUShort(dataLength))
  }

  /** After any initialization a signed reading of the stored lengths gives back total and length, a message
      without data is zero behind them, and everything behind the total is as it was. */
  lemma InitializedLengths(l: Layout, buffer: Bytes, data: Option<Bytes>, dataLength: int)
    requires Usable(l, data, dataLength) && |buffer| >= l.HeaderSize() && |buffer| >= l.HeaderSize() + dataLength
    ensures var b := Initialized(l, buffer, data, dataLength);
      && TotalLength(b) == l.HeaderSize() + dataLength <= |b|
      && ToShort(DataLength(b)) == dataLength
      && (data == None ==> forall i :: 4 <= i < TotalLength(b) ==> b[i] == 0)
      && (forall i :: 4 <= i < |b| && TotalLength(b) <= i ==> b[i] == buffer[i])
  {
    if dataLength >= 0 {
      SentFromBuffer(l, buffer, Payload(data, dataLength));
      FrameBytes(l, buffer, Payload(data, dataLength));
    } else {
      NegativeLengths(l, buffer, dataLength);
    }
  }

  lemma FrameBytes(l: Layout, buffer: Bytes, payload: Bytes)
    requires UsableLength(l, |payload|) && |buffer| >= l.HeaderSize() + |payload|
    ensures var b := Overwrite(buffer, NewFrame(l, payload));
      && TotalLength(b) == l.HeaderSize() + |payload| && DataLength(b) == |payload|
      && (forall i :: 4 <= i < l.HeaderSize() ==> b[i] == 0)
      && (forall i :: 0 <= i < |payload| ==> b[l.HeaderSize() + i] == payload[i])
      && (forall i :: l.HeaderSize() + |payload| <= i < |b| ==> b[i] == buffer[i])
  {
  }

  lemma NegativeLengths(l: Layout, buffer: Bytes, dataLength: int)
    requires Usable(l, None, dataLength) && dataLength < 0 && |buffer| >= l.HeaderSize()
    ensures var b := Initialized(l, buffer, None, dataLength);
      && TotalLength(b) == l.HeaderSize() + dataLength && ToShort(DataLength(b)) == dataLength
      && (forall i :: 4 <= i < |b| ==> b[i] == if i < TotalLength(b) then 0 else buffer[i])
  {
  }

  /** CliInitializePortMessage: zero the message's part of the buffer, then store lengths and data. */
  method InitializePortMessage(l: Layout, buffer: array<Byte>, data: Option<Bytes>, dataLength: int)
    requires Usable(l, data, dataLength)
    requires buffer.Length >= l.HeaderSize() && buffer.Length >= l.HeaderSize() + dataLength
    modifies buffer
    ensures buffer[..] == Initialized(l, old(buffer[..]), data, dataLength)
  {
    var totalLength := SignedTotal(l, dataLength);
    ghost var before := buffer[..];
    assert totalLength == l.HeaderSize() + dataLength;
    ZeroMemory(buffer, totalLength);
    StoreWord16(buffer, 2, ToUShort(totalLength));
    StoreWord16(buffer, 0, ToUShort(dataLength));
    ZeroedAndStored(l, before, dataLength);
    if data.Some? {
      CopyBody(l, buffer, data.value, before[totalLength..]);
      InitializedWith(l, before, data, dataLength);
    }
  }

  lemma InitializedWith(l: Layout, before: Bytes, data: Option<Bytes>, dataLength: nat)
    requires Usable(l, data, dataLength) && |before| >= l.HeaderSize() + dataLength
    ensures Initialized(l, before, data, dataLength) ==
      NewHeader(l, dataLength) + (Payload(data, dataLength) + before[l.HeaderSize() + dataLength..])
  {
  }

  /** What the buffer holds before data are copied. */
  lemma ZeroedAndStored(l: Layout, before: Bytes, dataLength: int)
    requires Usable(l, None, dataLength) && |before| >= l.HeaderSize() && |before| >= l.HeaderSize() + dataLength
    ensures var total := l.HeaderSize() + dataLength;
      var b := PutWord16(PutWord16(Zeros(total) + before[total..], 2, total), 0, ToUShort(dataLength));
      && b == Initialized(l, before, None, dataLength)
      && (dataLength >= 0 ==> b == NewHeader(l, dataLength) + (Zeros(dataLength) + before[total..]))
  {
    var total := l.HeaderSize() + dataLength;
    assert Zeros(total) + before[total..] == Overwrite(before, Zeros(total));
    if dataLength >= 0 {
      HeaderOfZeros(l, dataLength, before[total..]);
      InitializedWith(l, before, None, dataLength);
    }
  }

  lemma HeaderOfZeros(l: Layout, dataLength: nat, rest: Bytes)
    requires UsableLength(l, dataLength)
    ensures var total := l.HeaderSize() + dataLength;
      PutWord16(PutWord16(Zeros(total) + rest, 2, total), 0, dataLength) ==
        NewHeader(l, dataLength) + (Zeros(dataLength) + rest)
  {
  }

  /** SrvInitializePortMessage: the same behind a length check. */
  method SrvInitializePortMessage(l: Layout, buffer: array<Byte>, data: Option<Bytes>, dataLength: int)
    returns (result: bool)
    requires Usable(l, data, dataLength)
    requires buffer.Length >= l.HeaderSize() && buffer.Length >= l.HeaderSize() + dataLength
    modifies buffer
    ensures result && buffer[..] == Initialized(l, old(buffer[..]), data, dataLength)
  {
    if SignedTotal(l, dataLength) > CAPACITY {
      return false;
    }
    InitializePortMessage(l, buffer, data, dataLength);
    result := true;
  }

  method CopyBody(l: Layout, buffer: array<Byte>, data: Bytes, ghost rest: Bytes)
    requires l.HeaderSize() + |data| < TWO16
    requires buffer[..] == NewHeader(l, |data|) + (Zeros(|data|) + rest)
    modifies buffer
    ensures buffer[..] == NewHeader(l, |data|) + (data + rest)
  {
    CopyMemory(buffer, l.HeaderSize(), data);
  }

  // ---------------------------------------------------------------------------------------------
  // Any history of a reused buffer
  // ---------------------------------------------------------------------------------------------

  /** What happens to the buffer: the client sends, or the kernel writes what it likes. */
  datatype Use = Send(payload: Bytes) | KernelWrites(contents: Bytes)

  predicate IsUse(l: Layout, size: nat, u: Use) {
    match u
    case Send(payload) => UsableLength(l, |payload|) && l.HeaderSize() + |payload| <= size
    case KernelWrites(contents) => |contents| == size
  }

  predicate IsHistory(l: Layout, size: nat, history: seq<Use>) {
    forall i :: 0 <= i < |history| ==> IsUse(l, size, history[i])
  }

  function AfterUse(l: Layout, buffer: Bytes, u: Use): (b: Bytes)
    requires IsUse(l, |buffer|, u)
    ensures |b| == |buffer|
    ensures u.KernelWrites? ==> b == u.contents
    ensures u.Send? ==> var m := NewFrame(l, u.payload); b[..|m|] == m && b[|m|..] == buffer[|m|..]
  {
    match u
    case Send(payload) => Overwrite(buffer, NewFrame(l, payload))
    case KernelWrites(contents) => contents
  }

  /** The frames the kernel is given, read from the one buffer by its stored total length. */
  function FramesFromBuffer(l: Layout, buffer: Bytes, history: seq<Use>): seq<Bytes>
    requires IsHistory(l, |buffer|, history)
    decreases |history|
  {
    if history == [] then [] else
    var next := AfterUse(l, buffer, history[0]);
    var rest := FramesFromBuffer(l, next, history[1..]);
    if history[0].KernelWrites? then rest else
    SentFromBuffer(l, buffer, history[0].payload);
    [MessageIn(next)] + rest
  }

  /** The frames of a client that allocates a message for every call. */
  function FreshFrames(l: Layout, history: seq<Use>): seq<Bytes>
    requires forall i :: 0 <= i < |history| && history[i].Send? ==> l.HeaderSize() + |history[i].payload| < TWO16
  {
    if history == [] then [] else
    var rest := FreshFrames(l, history[1..]);
    if history[0].Send? then [NewFrame(l, history[0].payload)] + rest else rest
  }

  /** Each send adds its own frame behind those before it, and nothing else adds one. */
  lemma {:induction false} EachSendAddsItsFrame(l: Layout, history: seq<Use>, u: Use)
    requires forall i :: 0 <= i < |history| && history[i].Send? ==> l.HeaderSize() + |history[i].payload| < TWO16
    requires u.Send? ==> l.HeaderSize() + |u.payload| < TWO16
    ensures FreshFrames(l, history + [u]) ==
      FreshFrames(l, history) + if u.Send? then [NewFrame(l, u.payload)] else []
    decreases |history|
  {
    if history == [] {
      assert [] + [u] == [u] && [u][1..] == [];
    } else {
      EachSendAddsItsFrame(l, history[1..], u);
      assert (history + [u])[1..] == history[1..] + [u];
    }
  }

  lemma SentFromBuffer(l: Layout, buffer: Bytes, payload: Bytes)
    requires UsableLength(l, |payload|) && l.HeaderSize() + |payload| <= |buffer|
    ensures var b := Overwrite(buffer, NewFrame(l, payload));
      TotalLength(b) <= |b| && MessageIn(b) == NewFrame(l, payload)
  {
  }

  /** Reuse refines allocation: whatever the buffer held and whatever the kernel wrote into it, every
      frame sent from it is, byte for byte, the one a fresh block would have held. */
  lemma {:induction false} ReusedBufferRefinesFresh(l: Layout, buffer: Bytes, history: seq<Use>)
    requires IsHistory(l, |buffer|, history)
    ensures FramesFromBuffer(l, buffer, history) == FreshFrames(l, history)
    decreases |history|
  {
    if history != [] {
      ReusedBufferRefinesFresh(l, AfterUse(l, buffer, history[0]), history[1..]);
    }
  }

  // ---------------------------------------------------------------------------------------------
  // The client object of AdvancedLocalProcedureCallServer.c
  // ---------------------------------------------------------------------------------------------

  class Client {
    const self: Address
    var portMessage: Address
    var portMessageBytes: array<Byte>     // contents of the block at portMessage
    var communicationPortHandle: Handle

    constructor Zeroed(self: Address)
      ensures this.self == self && portMessage == communicationPortHandle == NULL && fresh(portMessageBytes)
    {
      this.self := self;
      portMessage, communicationPortHandle, portMessageBytes := NULL, NULL, new Byte[0];
    }

    function Holding(): ClientSessions.Holding
      reads this
    {
      ClientSessions.Holding({self, portMessage}, communicationPortHandle)
    }

    /** SrvSendDatagram; `frame` is what the kernel reads from the buffer. */
    method SrvSendDatagram(l: Layout, datagram: Option<Bytes>, length: int, succeeds: bool)
      returns (result: bool, frame: Bytes)
      requires portMessageBytes.Length == CAPACITY && Usable(l, datagram, length)
      modifies portMessageBytes
      ensures portMessageBytes[..] == Initialized(l, old(portMessageBytes[..]), datagram, length)
      ensures result == succeeds && |frame| == l.HeaderSize() + length && frame <= portMessageBytes[..]
      ensures length >= 0 ==>
        && frame == NewFrame(l, Payload(datagram, length))
        && portMessageBytes[..] == AfterUse(l, old(portMessageBytes[..]), Send(Payload(datagram, length)))
    {
      result := SrvInitializePortMessage(l, portMessageBytes, datagram, length);
      if !result {
        return false, [];
      }
      InitializedLengths(l, old(portMessageBytes[..]), datagram, length);
      frame := MessageIn(portMessageBytes[..]);
      result := succeeds;
    }
  }

  /** Outcomes of the calls that connecting makes; on success the kernel writes its answer into the buffer. */
  datatype Connecting = Connecting(
    client: Option<Address>, message: Option<Address>, port: Option<Handle>, answer: Bytes)
  {
    predicate Plausible(m: Memory) {
      && Grantable(m, client) && Grantable(m, message) && Openable(m, port)
      && (client.Some? ==> client != message)
      && |answer| <= CAPACITY
    }
  }

  /** SrvConnectServer: a client that owns two blocks and one handle, or nothing changed. */
  method SrvConnectServer(l: Layout, process: Process, data: Option<Bytes>, dataLength: int, outcome: Connecting)
    returns (client: Client?)
    requires Usable(l, data, dataLength)
    requires outcome.Plausible(process.memory) && process.memory.contexts.Keys <= process.memory.live
    modifies process
    ensures client != null <==> outcome.client.Some? && outcome.message.Some? && outcome.port.Some?
    ensures client != null ==>
      && fresh(client) && fresh(client.portMessageBytes)
      && client.portMessageBytes.Length == 0xFFEF
      && client.self == outcome.client.value && client.portMessage == outcome.message.value
      && client.communicationPortHandle == outcome.port.value
      && client.portMessageBytes[..] == Overwrite(Initialized(l, Zeros(CAPACITY), data, dataLength), outcome.answer)
      && {client.self, client.portMessage} !! old(process.memory.live) && client.self != client.portMessage
      && client.communicationPortHandle !in old(process.memory.handles)
    ensures process.memory == old(process.memory).(
      ledger := process.memory.ledger,
      live := old(process.memory.live) + if client == null then {} else {client.self, client.portMessage},
      handles := old(process.memory.handles) + if client == null then {} else {client.communicationPortHandle})
    ensures outcome.client == None ==> process.memory == old(process.memory)
    ensures outcome.client.Some? && outcome.message == None ==>
      process.memory.ledger == old(process.memory.ledger) +
        [Allocated(outcome.client.value), Freed(outcome.client.value)]
    ensures outcome.client.Some? && outcome.message.Some? && outcome.port == None ==>
      process.memory.ledger == old(process.memory.ledger) +
        [Allocated(outcome.client.value), Allocated(outcome.message.value),
         Freed(outcome.message.value), Freed(outcome.client.value)]
    ensures client != null ==>
      process.memory.ledger == old(process.memory.ledger) +
        [Allocated(outcome.client.value), Allocated(outcome.message.value), Opened(outcome.port.value)]
    ensures ClientSessions.Performs(old(process.memory), process.memory,
      if client == null then ClientSessions.Unchanged else ClientSessions.Connected(client.Holding()))
  {
    var self := process.Allocate(outcome.client);
    if self == NULL {
      return null;
    }
    client := new Client.Zeroed(self);
    label Attempt: {
      client.portMessage := process.Allocate(outcome.message);
      if client.portMessage == NULL {
        break Attempt;
      }
      assert process.memory == Malloc(Malloc(old(process.memory), self), client.portMessage);
      client.portMessageBytes := new Byte[CAPACITY](_ => 0);
      assert client.portMessageBytes[..] == Zeros(CAPACITY);
      var initialized := SrvInitializePortMessage(l, client.portMessageBytes, data, dataLength);
      if !initialized {
        break Attempt;
      }
      client.communicationPortHandle := process.OpenHandle(outcome.port, client.communicationPortHandle);
      if client.communicationPortHandle == NULL {
        break Attempt;
      }
      CopyToFront(client.portMessageBytes, outcome.answer);
      return;
    }
    if client.portMessage != NULL {
      process.FreeBlock(client.portMessage);
    }
    process.FreeBlock(self);
    client := null;
  }

  /** SrvDisconnectServer. */
  method SrvDisconnectServer(process: Process, client: Client)
    requires {client.self, client.portMessage} <= process.memory.live && client.self != client.portMessage
    requires {client.self, client.portMessage} !! process.memory.contexts.Keys
    modifies process
    ensures process.memory == old(process.memory).(
      ledger := process.memory.ledger,
      live := old(process.memory.live) - {client.self, client.portMessage},
      handles := old(process.memory.handles) - {client.communicationPortHandle})
    ensures process.memory ==
      Free(Free(NtClosed(old(process.memory), client.communicationPortHandle), client.portMessage), client.self)
    ensures ClientSessions.Performs(old(process.memory), process.memory, ClientSessions.Disconnected(client.Holding()))
  {
    var _ := process.NtClose(client.communicationPortHandle);
    process.FreeBlock(client.portMessage);
    process.FreeBlock(client.self);
  }

  // ---------------------------------------------------------------------------------------------
  // The test clients of client.c
  // ---------------------------------------------------------------------------------------------

  /** The frame that carries a 64-bit counter. */
  function CounterFrame(l: Layout, counter: nat): Bytes {
    NewFrame(l, LittleEndian(8, counter))
  }

  /** Frame i carries i. */
  function CounterFrames(l: Layout, count: nat): (frames: seq<Bytes>)
    ensures |frames| == count && forall i: nat :: i < count ==> frames[i] == CounterFrame(l, i)
  {
    seq(count, (i: nat) => CounterFrame(l, i))
  }

  lemma FourBytes(n: nat, x: nat)
    ensures var b := LittleEndian(4 + n, x);
      && b[4..] == LittleEndian(n, x / TWO32)
      && x == b[0] + TWO8 * b[1] + TWO16 * b[2] + TWO24 * b[3] + TWO32 * (x / TWO32)
  {
    var x1 := x / TWO8;
    var x2 := x1 / TWO8;
    var x3 := x2 / TWO8;
    assert LittleEndian(4 + n, x) == [x % TWO8] + LittleEndian(3 + n, x1);
    assert LittleEndian(3 + n, x1) == [x1 % TWO8] + LittleEndian(2 + n, x2);
    assert LittleEndian(2 + n, x2) == [x2 % TWO8] + LittleEndian(1 + n, x3);
    assert LittleEndian(1 + n, x3) == [x3 % TWO8] + LittleEndian(n, x3 / TWO8);
    assert x3 / TWO8 == x / TWO32;
  }

  lemma EightBytes(x: Word64)
    ensures var b := LittleEndian(8, x);
      x == b[0] + TWO8 * b[1] + TWO16 * b[2] + TWO24 * b[3]
        + TWO32 * (b[4] + TWO8 * b[5] + TWO16 * b[6] + TWO24 * b[7])
  {
    FourBytes(4, x);
    FourBytes(0, x / TWO32);
  }

  /** The body of a counter's frame is the counter, least significant byte first. */
  lemma CounterFrameCarriesCounter(l: Layout, counter: Word64)
    ensures IsMessage(l, CounterFrame(l, counter))
    ensures FromLittleEndian(Body(l, CounterFrame(l, counter))) == counter
    ensures var b := CounterFrame(l, counter)[l.HeaderSize()..];
      && |b| == 8
      && counter == b[0] + TWO8 * b[1] + TWO16 * b[2] + TWO24 * b[3]
           + TWO32 * (b[4] + TWO8 * b[5] + TWO16 * b[6] + TWO24 * b[7])
  {
    EightBytes(counter);
    assert CounterFrame(l, counter)[l.HeaderSize()..] == LittleEndian(8, counter);
    FrameRoundTrip(l, LittleEndian(8, counter));
    assert Range(8) == TWO64;
    LittleEndianRoundTrip(8, counter);
  }

  datatype TestStatus = Success | InsufficientResources | ConnectFailed

  /** One round of the send loops; `frame` is what the kernel reads from the buffer. */
  method SendCounter(l: Layout, portMessage: array<Byte>, counter: nat) returns (frame: Bytes)
    requires l.HeaderSize() + 8 <= portMessage.Length
    modifies portMessage
    ensures frame == CounterFrame(l, counter)
  {
    InitializePortMessage(l, portMessage, Some(LittleEndian(8, counter)), 8);
    SentFromBuffer(l, old(portMessage[..]), LittleEndian(8, counter));
    frame := MessageIn(portMessage[..]);
  }

  /** The process after a test client: what it allocated and opened is closed and freed in turn. */
  function Tested(m: Memory, block: Option<Address>, port: Option<Handle>): Memory
    requires Grantable(m, block) && Openable(m, port)
  {
    if block == None then m
    else if port == None then Free(Malloc(m, block.value), block.value)
    else Free(NtClosed(Open(Malloc(m, block.value), port.value), port.value), block.value)
  }

  /** CliTestDatagram with a loop bound: frame i carries i, and heap and handles end as they began. */
  method CliTestDatagram(l: Layout, process: Process, block: Option<Address>, port: Option<Handle>,
                         capacity: nat, answer: Bytes, bound: nat)
    returns (status: TestStatus, frames: seq<Bytes>)
    requires l.HeaderSize() + 8 <= capacity
    requires Grantable(process.memory, block) && Openable(process.memory, port) && |answer| <= capacity
    requires process.memory.contexts.Keys <= process.memory.live
    modifies process
    ensures status == Success <==> block.Some? && port.Some?
    ensures frames == if status == Success then CounterFrames(l, bound) else []
    ensures process.memory == old(process.memory).(ledger := process.memory.ledger)
    ensures process.memory == Tested(old(process.memory), block, port)
    ensures ClientSessions.Performs(old(process.memory), process.memory, ClientSessions.Unchanged)
  {
    frames := [];
    var address := process.Allocate(block);
    if address == NULL {
      return InsufficientResources, [];
    }
    var portMessage := new Byte[capacity](_ => 0);
    InitializePortMessage(l, portMessage, None, 0);
    var handle := process.OpenHandle(port, NULL);
    if handle == NULL {
      process.FreeBlock(address);
      return ConnectFailed, [];
    }
    CopyToFront(portMessage, answer);
    var counter := 0;
    while counter < bound
      invariant counter <= bound && fresh(portMessage) && portMessage.Length == capacity
      invariant frames == CounterFrames(l, counter)
      invariant process.memory == Open(Malloc(old(process.memory), address), handle)
    {
      var frame := SendCounter(l, portMessage, counter);
      frames := frames + [frame];
      counter := counter + 1;
    }
    var _ := process.NtClose(handle);
    process.FreeBlock(address);
    status := Success;
  }

  /** CliTestSyncRequest with a loop bound: also while every reply overwrites the buffer. */
  method CliTestSyncRequest(l: Layout, process: Process, block: Option<Address>, port: Option<Handle>,
                            capacity: nat, answer: Bytes, replies: seq<Option<Bytes>>)
    returns (status: TestStatus, frames: seq<Bytes>)
    requires l.HeaderSize() + 8 <= capacity
    requires Grantable(process.memory, block) && Openable(process.memory, port) && |answer| <= capacity
    requires forall r :: r in replies && r.Some? ==> |r.value| <= capacity
    requires process.memory.contexts.Keys <= process.memory.live
    modifies process
    ensures status == Success <==> block.Some? && port.Some?
    ensures frames == if status == Success then CounterFrames(l, |replies|) else []
    ensures process.memory == old(process.memory).(ledger := process.memory.ledger)
    ensures process.memory == Tested(old(process.memory), block, port)
    ensures ClientSessions.Performs(old(process.memory), process.memory, ClientSessions.Unchanged)
  {
    frames := [];
    var address := process.Allocate(block);
    if address == NULL {
      return InsufficientResources, [];
    }
    var portMessage := new Byte[capacity](_ => 0);
    InitializePortMessage(l, portMessage, None, 0);
    var handle := process.OpenHandle(port, NULL);
    if handle == NULL {
      process.FreeBlock(address);
      return ConnectFailed, [];
    }
    CopyToFront(portMessage, answer);
    var counter := 0;
    while counter < |replies|
      invariant counter <= |replies| && fresh(portMessage) && portMessage.Length == capacity
      invariant frames == CounterFrames(l, counter)
      invariant process.memory == Open(Malloc(old(process.memory), address), handle)
    {
      var frame := SendCounter(l, portMessage, counter);
      frames := frames + [frame];
      var reply := replies[counter];
      assert reply in replies;
      if reply.Some? {
        CopyToFront(portMessage, reply.value);
      }
      counter := counter + 1;
    }
    var _ := process.NtClose(handle);
    process.FreeBlock(address);
    status := Success;
  }
}
