/** What the server's worker does with each message it receives, and what holds over whole runs. */
module ServerModel {
  import opened Words
  import opened PortMessage
  import opened ProcessMemory

  // ---------------------------------------------------------------------------------------------
  // Ownership of contexts
  // ---------------------------------------------------------------------------------------------

  /** Some accepted connection, its end not yet reported, was given this context. */
  ghost predicate Linked(m: Memory, a: Address) {
    exists c :: c in m.connections && m.connections[c].context == a
  }

  /** Live contexts correspond one to one to accepted connections whose end has not been processed,
      and own distinct open handles; `held` are contexts the worker has allocated but not handed over. */
  ghost predicate OwnedExcept(m: Memory, held: set<Address>) {
    && held <= m.contexts.Keys <= m.live
    && NULL !in m.live && NULL !in m.handles
    && (forall c :: c in m.connections ==> m.connections[c].context in m.contexts && m.connections[c].context !in held)
    && (forall c, d :: c in m.connections && d in m.connections && c != d ==>
         m.connections[c].context != m.connections[d].context)
    && (forall a :: a in m.contexts && a !in held ==>
         Linked(m, a) && m.contexts[a].communicationPortHandle in m.handles)
    && (forall a, b :: a in m.contexts && b in m.contexts && a !in held && b !in held && a != b ==>
         m.contexts[a].communicationPortHandle != m.contexts[b].communicationPortHandle)
    && (forall c :: c in m.connections ==> m.contexts[m.connections[c].context].clientId == m.connections[c].clientId)
  }

  ghost predicate Owned(m: Memory) {
    OwnedExcept(m, {})
  }

  // The steps from which the handlers of connections are made.

  /** UaAlpcConnect obtains a zeroed context and stores the client's id in it. */
  function HoldContext(m: Memory, block: Address, clientId: Bytes): Memory
    requires block !in m.live
  {
    Malloc(m, block).(contexts := m.contexts[block := PortContext(clientId, NULL)])
  }

  /** The kernel accepts: it stores the new handle in the context and remembers the context. */
  function HandOver(m: Memory, c: Connection, block: Address, handle: Handle, clientId: Bytes): Memory
    requires block in m.contexts && handle !in m.handles
  {
    Record(Open(m, handle), Accepted(c)).(
      contexts := m.contexts[block := m.contexts[block].(communicationPortHandle := handle)],
      connections := m.connections[c := Link(block, clientId)])
  }

  /** The kernel reports the end of a connection, once. */
  function Report(m: Memory, c: Connection): Memory {
    Record(m, Disconnected(c)).(connections := m.connections - {c})
  }

  lemma HoldKeepsOwned(m: Memory, block: Address, clientId: Bytes)
    requires Owned(m) && block !in m.live && block != NULL
    ensures OwnedExcept(HoldContext(m, block, clientId), {block})
  {
  }

  /** Contexts stay linked while their connection stays in the table. */
  lemma LinkedElsewhere(m: Memory, n: Memory, a: Address)
    requires Linked(m, a)
    requires forall c :: c in m.connections && m.connections[c].context == a ==>
      c in n.connections && n.connections[c] == m.connections[c]
    ensures Linked(n, a)
  {
  }

  lemma ReleaseHeldKeepsOwned(m: Memory, block: Address)
    requires OwnedExcept(m, {block})
    ensures Owned(Free(m, block))
  {
  }

  lemma HandOverKeepsOwned(m: Memory, c: Connection, block: Address, handle: Handle, clientId: Bytes)
    requires OwnedExcept(m, {block}) && c !in m.connections
    requires handle !in m.handles && handle != NULL && m.contexts[block].clientId == clientId
    ensures Owned(HandOver(m, c, block, handle, clientId))
  {
    var n := HandOver(m, c, block, handle, clientId);
    assert n.connections[c].context == block;
    forall a | a in n.contexts ensures Linked(n, a) {
      if a != block {
        LinkedElsewhere(m, n, a);
      }
    }
  }

  lemma ReportHoldsContext(m: Memory, c: Connection)
    requires Owned(m) && c in m.connections
    ensures OwnedExcept(Report(m, c), {m.connections[c].context})
    ensures m.contexts[m.connections[c].context].communicationPortHandle in m.handles
  {
    var n, ctx := Report(m, c), m.connections[c].context;
    forall a | a in n.contexts && a != ctx ensures Linked(n, a) {
      LinkedElsewhere(m, n, a);
    }
  }

  lemma CloseKeepsOwned(m: Memory, held: set<Address>, handle: Handle)
    requires OwnedExcept(m, held) && handle in m.handles
    requires forall a :: a in m.contexts && a !in held ==> m.contexts[a].communicationPortHandle != handle
    ensures OwnedExcept(Close(m, handle), held)
  {
  }

  lemma SameOwnership(m: Memory, n: Memory, held: set<Address>)
    requires OwnedExcept(m, held)
    requires n == m.(ledger := n.ledger)
    ensures OwnedExcept(n, held)
  {
  }

  // ---------------------------------------------------------------------------------------------
  // One message
  // ---------------------------------------------------------------------------------------------

  /** Calls of the server's procedures and the kernel calls that answer a message. */
  datatype Call =
    | OnRequest(message: Bytes)
    | Reply(message: Bytes)
    | OnDatagram(message: Bytes)
    | Cancel(message: Bytes)
    | OnConnect(message: Bytes)

  /** One successful receive, with the outcome of everything the worker may call before the next. */
  datatype Delivery = Delivery(
    message: Bytes,
    connection: Connection,       // the connection a close or died message reports, or the one requested
    onRequest: Bytes -> Bytes,    // the request handler, as it answers at this moment
    wanted: bool,                 // OnConnect's answer
    block: Option<Address>,       // the context allocation
    accepted: Option<Handle>)     // the accepting call

  datatype World = World(memory: Memory, buffer: Bytes, calls: seq<Call>)

  predicate IsDisconnect(kind: Byte) {
    kind == LPC_PORT_CLOSED || kind == LPC_CLIENT_DIED
  }

  /** Branches that fetch the context attribute first. */
  predicate NeedsAttribute(kind: Byte) {
    kind == LPC_DATAGRAM || IsDisconnect(kind)
  }

  /** What the server relies on: whole messages that fit, a handler that stays within its message,
      an allocator and kernel that hand out unused values, and one end per accepted connection. */
  ghost predicate Plausible(l: Layout, w: World, d: Delivery) {
    && IsMessage(l, d.message)
    && KeepsLength(d.onRequest)
    && Grantable(w.memory, d.block) && Openable(w.memory, d.accepted)
    && (IsDisconnect(Kind(d.message)) ==> d.connection in w.memory.connections)
    && (Kind(d.message) == LPC_CONNECTION_REQUEST ==> d.connection !in w.memory.connections)
  }

  ghost predicate Ready(l: Layout, w: World) {
    Owned(w.memory) && |w.buffer| == l.MaxLength()
  }

  /** UaAlpcDisconnect: close the connection's handle, then free its context. */
  function Disconnect(m: Memory, c: Connection): (n: Memory)
    requires Owned(m) && c in m.connections
    ensures Owned(n)
  {
    var ctx := m.connections[c].context;
    var handle := m.contexts[ctx].communicationPortHandle;
    ReportHoldsContext(m, c);
    CloseKeepsOwned(Report(m, c), {ctx}, handle);
    ReleaseHeldKeepsOwned(NtClosed(Report(m, c), handle), ctx);
    End(m, c, ctx, handle)
  }

  function End(m: Memory, c: Connection, ctx: Address, handle: Handle): Memory
    requires ctx in m.live
  {
    Free(NtClosed(Report(m, c), handle), ctx)
  }

  /** The status of UaAlpcDisconnect is that of closing the connection's handle. */
  predicate DisconnectSucceeds(m: Memory, c: Connection)
    requires c in m.connections && m.connections[c].context in m.contexts
  {
    m.contexts[m.connections[c].context].communicationPortHandle in m.handles
  }

  function Give(m: Memory, c: Connection, block: Address, handle: Handle, requester: Bytes, clientId: Bytes): Memory
    requires block !in m.live && handle !in m.handles
  {
    HandOver(HoldContext(m, block, clientId), c, block, handle, requester)
  }

  function TakeBack(m: Memory, c: Connection, block: Address, clientId: Bytes): Memory
    requires block !in m.live
  {
    Free(Record(HoldContext(m, block, clientId), Refused(c)), block)
  }

  /** UaAlpcConnect, after OnConnect has answered. */
  function Connect(m: Memory, d: Delivery, requester: Bytes, clientId: Bytes): (n: Memory)
    requires Owned(m) && Grantable(m, d.block) && Openable(m, d.accepted)
    requires d.connection !in m.connections && requester == clientId
    ensures Owned(n)
  {
    if !d.wanted || d.block == None then
      SameOwnership(m, Record(m, Refused(d.connection)), {});
      Record(m, Refused(d.connection))
    else if d.accepted == None then
      TakeBackKeepsOwned(m, d.connection, d.block.value, clientId);
      TakeBack(m, d.connection, d.block.value, clientId)
    else
      GiveKeepsOwned(m, d.connection, d.block.value, d.accepted.value, clientId);
      Give(m, d.connection, d.block.value, d.accepted.value, requester, clientId)
  }

  lemma TakeBackKeepsOwned(m: Memory, c: Connection, block: Address, clientId: Bytes)
    requires Owned(m) && block !in m.live && block != NULL
    ensures Owned(TakeBack(m, c, block, clientId))
  {
  }

  lemma GiveKeepsOwned(m: Memory, c: Connection, block: Address, handle: Handle, clientId: Bytes)
    requires Owned(m) && block !in m.live && block != NULL && c !in m.connections
    requires handle !in m.handles && handle != NULL
    ensures Owned(Give(m, c, block, handle, clientId, clientId))
  {
    HandOverKeepsOwned(HoldContext(m, block, clientId), c, block, handle, clientId);
  }

  /** Receive one message and process it; the flag says whether the loop goes on. */
  function Serve(l: Layout, w: World, d: Delivery, hasAttribute: bool): (r: (World, bool))
    requires Ready(l, w) && Plausible(l, w, d)
    ensures Ready(l, r.0)
  {
    ReceiveReplacesMessage(l, w.buffer, d.message);
    var buffer := Overwrite(w.buffer, d.message);
    var received := w.(buffer := buffer);
    var kind := Kind(buffer);
    if NeedsAttribute(kind) && !hasAttribute then
      (received, false)
    else if kind == LPC_REQUEST then
      // the handler works on the buffer, and the reply is sent from it
      var answer := Answer(l, MessageIn(buffer), d.onRequest);
      AnswerIsReply(l, d.message, d.onRequest);
      ReceiveReplacesMessage(l, buffer, answer);
      var answered := Overwrite(buffer, answer);
      var calls := [OnRequest(MessageIn(buffer)), Reply(MessageIn(answered))];
      (received.(buffer := answered, calls := w.calls + calls), true)
    else if kind == LPC_DATAGRAM then
      var cancel := if ContinuationRequired(buffer) then [Cancel(MessageIn(buffer))] else [];
      (received.(calls := w.calls + [OnDatagram(MessageIn(buffer))] + cancel), true)
    else if IsDisconnect(kind) then
      (received.(memory := Disconnect(w.memory, d.connection)), DisconnectSucceeds(w.memory, d.connection))
    else if kind == LPC_CONNECTION_REQUEST then
      var memory := Connect(w.memory, d, ClientId(l, d.message), ClientId(l, buffer));
      (received.(memory := memory, calls := w.calls + [OnConnect(MessageIn(buffer))]), true)
    else
      (received, true)
  }

  // ---------------------------------------------------------------------------------------------
  // Whole runs
  // ---------------------------------------------------------------------------------------------

  /** Every delivery is plausible when its turn comes. */
  ghost predicate IsScript(l: Layout, w: World, script: seq<Delivery>, hasAttribute: bool)
    requires Ready(l, w)
    decreases |script|
  {
    |script| == 0 ||
    (Plausible(l, w, script[0]) &&
     var (next, goesOn) := Serve(l, w, script[0], hasAttribute);
     goesOn ==> IsScript(l, next, script[1..], hasAttribute))
  }

  /** The world when the worker stops, how many messages it received, and whether only the failing
      receive after the script stopped it. */
  datatype Outcome = Outcome(world: World, received: nat, exhausted: bool)

  function Run(l: Layout, w: World, script: seq<Delivery>, hasAttribute: bool): (o: Outcome)
    requires Ready(l, w) && IsScript(l, w, script, hasAttribute)
    ensures Ready(l, o.world) && o.received <= |script|
    decreases |script|
  {
    if |script| == 0 then Outcome(w, 0, true) else
    var (next, goesOn) := Serve(l, w, script[0], hasAttribute);
    if !goesOn then Outcome(next, 1, false) else
    var rest := Run(l, next, script[1..], hasAttribute);
    rest.(received := 1 + rest.received)
  }

  lemma RunStep(l: Layout, w: World, script: seq<Delivery>, hasAttribute: bool)
    requires Ready(l, w) && IsScript(l, w, script, hasAttribute) && |script| != 0
    ensures Plausible(l, w, script[0])
    ensures var (next, goesOn) := Serve(l, w, script[0], hasAttribute);
      var o := Run(l, w, script, hasAttribute);
      if goesOn then
        && IsScript(l, next, script[1..], hasAttribute)
        && var rest := Run(l, next, script[1..], hasAttribute);
        && o == rest.(received := 1 + rest.received)
      else o == Outcome(next, 1, false)
  {
  }

  /** A handle that a live context owns is open, so closing it succeeds. */
  lemma OwnedDisconnectSucceeds(m: Memory, c: Connection)
    requires Owned(m) && c in m.connections
    ensures m.connections[c].context in m.contexts && DisconnectSucceeds(m, c)
  {
    ReportHoldsContext(m, c);
  }

  /** The worker stops before a receive fails if and only if the attribute is missing and a datagram or
      a disconnection arrives: refusals, failed allocations, failed accepts and failed replies never stop it,
      and neither does the status of a disconnection, because every connection owns its open handle. */
  lemma {:induction false} SurvivesIff(l: Layout, w: World, script: seq<Delivery>, hasAttribute: bool)
    requires Ready(l, w) && IsScript(l, w, script, hasAttribute)
    ensures var o := Run(l, w, script, hasAttribute);
      && (o.exhausted <==> hasAttribute || forall d :: d in script ==>
            |d.message| >= 24 && d.message[4] != 3 && d.message[4] != 5 && d.message[4] != 6)
      && (o.exhausted ==> o.received == |script|)
    decreases |script|
  {
    if |script| != 0 {
      RunStep(l, w, script, hasAttribute);
      ServeCalls(l, w, script[0], hasAttribute);
      var (next, goesOn) := Serve(l, w, script[0], hasAttribute);
      if goesOn {
        SurvivesIff(l, next, script[1..], hasAttribute);
      }
    }
  }

  // Dispatch: the calls of a run, read off the bytes of the messages alone. Byte 4 is the low byte of the
  // type, bit 0x20 of byte 5 its continuation flag.

  function Expected(l: Layout, d: Delivery): seq<Call> {
    var m, header := d.message, l.HeaderSize();
    if |m| < header then []
    else if m[4] == 1 then [OnRequest(m), Reply(m[..header] + d.onRequest(m[header..]))]
    else if m[4] == 3 then [OnDatagram(m)] + if m[5] / 0x20 % 2 == 1 then [Cancel(m)] else []
    else if m[4] == 10 then [OnConnect(m)]
    else []
  }

  function ExpectedCalls(l: Layout, script: seq<Delivery>): seq<Call> {
    if |script| == 0 then [] else Expected(l, script[0]) + ExpectedCalls(l, script[1..])
  }

  lemma ServeCalls(l: Layout, w: World, d: Delivery, hasAttribute: bool)
    requires Ready(l, w) && Plausible(l, w, d)
    ensures Serve(l, w, d, hasAttribute).1 <==>
      hasAttribute || (d.message[4] != 3 && d.message[4] != 5 && d.message[4] != 6)
    ensures Serve(l, w, d, hasAttribute).0.calls ==
      w.calls + if Serve(l, w, d, hasAttribute).1 then Expected(l, d) else []
  {
    ReceiveReplacesMessage(l, w.buffer, d.message);
    TypeBytes(d.message);
    var calls := Serve(l, w, d, hasAttribute).0.calls;
    if Kind(d.message) == LPC_REQUEST {
      AnswerIsReply(l, d.message, d.onRequest);
      AnswerBytes(l, d.message, d.onRequest);
      ReceiveReplacesMessage(l, Overwrite(w.buffer, d.message), Answer(l, d.message, d.onRequest));
      assert calls == w.calls + [OnRequest(d.message), Reply(Answer(l, d.message, d.onRequest))];
    } else if Kind(d.message) == LPC_DATAGRAM && hasAttribute {
      var cancel := if ContinuationRequired(d.message) then [Cancel(d.message)] else [];
      assert calls == w.calls + [OnDatagram(d.message)] + cancel;
      Regroup(w.calls, [OnDatagram(d.message)], cancel);
    } else if IsDisconnect(Kind(d.message)) {
      OwnedDisconnectSucceeds(w.memory, d.connection);
    }
  }

  /** A request is the handler's, whatever the buffer held, and its reply is the last call made. */
  lemma ServedRequest(l: Layout, w: World, d: Delivery)
    requires Ready(l, w) && Plausible(l, w, d) && Kind(d.message) == LPC_REQUEST
    ensures var calls, answer := Serve(l, w, d, true).0.calls, Answer(l, d.message, d.onRequest);
      && calls == w.calls + [OnRequest(d.message), Reply(answer)]
      && calls != [] && calls[|calls| - 1] == Reply(answer)
  {
    ServeCalls(l, w, d, true);
    TypeBytes(d.message);
    AnswerBytes(l, d.message, d.onRequest);
  }

  lemma Regroup<T>(a: seq<T>, b: seq<T>, c: seq<T>)
    ensures (a + b) + c == a + (b + c)
  {
  }

  /** In order and exactly once: whatever the buffer held before, the calls of a run are those its
      messages ask for. */
  lemma {:induction false} DispatchIsFold(l: Layout, w: World, script: seq<Delivery>)
    requires Ready(l, w) && IsScript(l, w, script, true)
    ensures Run(l, w, script, true).world.calls == w.calls + ExpectedCalls(l, script)
    decreases |script|
  {
    if |script| != 0 {
      ServeCalls(l, w, script[0], true);
      DispatchIsFold(l, Serve(l, w, script[0], true).0, script[1..]);
      Regroup(w.calls, Expected(l, script[0]), ExpectedCalls(l, script[1..]));
    }
  }

  /** Call `i` stands in its place: a handled request is answered at once, with its own header and length,
      a handled datagram is cancelled at once exactly if it requires continuation, and nothing else is
      answered or cancelled. */
  predicate Placed(l: Layout, calls: seq<Call>, i: nat)
    requires i < |calls|
  {
    var follower := if i + 1 < |calls| then Some(calls[i + 1]) else None;
    match calls[i]
    case OnRequest(m) => follower.Some? && follower.value.Reply? && IsReplyTo(l, follower.value.message, m)
    case Reply(r) => 0 < i && calls[i - 1].OnRequest? && IsReplyTo(l, r, calls[i - 1].message)
    case OnDatagram(m) => |m| >= 24 && (m[5] / 0x20 % 2 == 1 <==> follower == Some(Cancel(m)))
    case Cancel(m) => 0 < i && calls[i - 1] == OnDatagram(m)
    case OnConnect(_) => true
  }

  predicate Paired(l: Layout, calls: seq<Call>) {
    && (forall i :: 0 <= i < |calls| ==> Placed(l, calls, i))
    && (calls != [] ==> !calls[0].Cancel? && !calls[0].Reply?)
  }

  lemma PairedConcat(l: Layout, a: seq<Call>, b: seq<Call>)
    requires Paired(l, a) && Paired(l, b)
    ensures Paired(l, a + b)
  {
    forall i | 0 <= i < |a + b| ensures Placed(l, a + b, i) {
      if i < |a| {
        assert Placed(l, a, i);
      } else {
        assert Placed(l, b, i - |a|);
      }
    }
  }

  lemma ExpectedPaired(l: Layout, d: Delivery)
    requires IsMessage(l, d.message) && KeepsLength(d.onRequest)
    ensures Paired(l, Expected(l, d))
  {
    AnswerIsReply(l, d.message, d.onRequest);
  }

  /** The calls of every run, with or without the attribute, stand in their places. */
  lemma {:induction false} CallsArePaired(l: Layout, w: World, script: seq<Delivery>, hasAttribute: bool)
    requires Ready(l, w) && IsScript(l, w, script, hasAttribute) && Paired(l, w.calls)
    ensures Paired(l, Run(l, w, script, hasAttribute).world.calls)
    decreases |script|
  {
    if |script| != 0 {
      RunStep(l, w, script, hasAttribute);
      ServeCalls(l, w, script[0], hasAttribute);
      ExpectedPaired(l, script[0]);
      PairedConcat(l, w.calls, Expected(l, script[0]));
      var (next, goesOn) := Serve(l, w, script[0], hasAttribute);
      if goesOn {
        CallsArePaired(l, next, script[1..], hasAttribute);
      } else {
        assert w.calls + [] == w.calls;
      }
    }
  }

  // Conservation.

  /** Accepted connections minus reported ends. */
  function Score(ledger: seq<Event>): int {
    if ledger == [] then 0 else
    Score(ledger[..|ledger| - 1]) +
    match ledger[|ledger| - 1]
    case Accepted(_) => 1
    case Disconnected(_) => -1
    case _ => 0
  }

  /** Final answers to connection requests. */
  function Verdicts(ledger: seq<Event>): nat {
    if ledger == [] then 0 else
    var e := ledger[|ledger| - 1];
    Verdicts(ledger[..|ledger| - 1]) + if e.Accepted? || e.Refused? then 1 else 0
  }

  lemma Append(ledger: seq<Event>, e: Event)
    ensures Score(ledger + [e]) == Score(ledger) + if e.Accepted? then 1 else if e.Disconnected? then -1 else 0
    ensures Verdicts(ledger + [e]) == Verdicts(ledger) + if e.Accepted? || e.Refused? then 1 else 0
  {
  }

  /** Nothing but contexts comes and goes, and live contexts count accepted connections less reported ends. */
  ghost predicate Counted(m: Memory, others: set<Address>, offset: int) {
    && m.contexts.Keys <= m.live
    && m.live - m.contexts.Keys == others
    && |m.contexts| == Score(m.ledger) + offset
  }

  lemma EndScores(m: Memory, c: Connection, ctx: Address, handle: Handle)
    requires ctx in m.live
    ensures var n := End(m, c, ctx, handle);
      Score(n.ledger) == Score(m.ledger) - 1 && Verdicts(n.ledger) == Verdicts(m.ledger)
  {
    Append(m.ledger, Disconnected(c));
    Append(Report(m, c).ledger, Closed(handle));
    Append(NtClosed(Report(m, c), handle).ledger, Freed(ctx));
  }

  lemma EndCounts(m: Memory, c: Connection, ctx: Address, handle: Handle, others: set<Address>, offset: int)
    requires ctx in m.contexts && ctx in m.live && Counted(m, others, offset)
    ensures var n := End(m, c, ctx, handle);
      Counted(n, others, offset) && Verdicts(n.ledger) == Verdicts(m.ledger)
  {
    EndScores(m, c, ctx, handle);
    OneFewer(m.contexts, ctx);
  }

  lemma OneFewer(contexts: map<Address, PortContext>, ctx: Address)
    requires ctx in contexts
    ensures |contexts - {ctx}| == |contexts| - 1
  {
    assert contexts.Keys == (contexts - {ctx}).Keys + {ctx};
  }

  lemma EndBooks(m: Memory, c: Connection, ctx: Address, handle: Handle, live0: set<Address>, handles0: set<Handle>)
    requires ctx in m.live && Booked(m, live0, handles0)
    ensures Booked(End(m, c, ctx, handle), live0, handles0)
  {
    ReportBooks(m, c, live0, handles0);
    CloseBooks(Report(m, c), handle, live0, handles0);
    FreeBooks(NtClosed(Report(m, c), handle), ctx, live0, handles0);
  }

  /** The books do not look at what contexts hold, nor at the kernel's table. */
  lemma SameBooks(m: Memory, n: Memory, live0: set<Address>, handles0: set<Handle>)
    requires Booked(m, live0, handles0) && n == m.(contexts := n.contexts, connections := n.connections)
    ensures Booked(n, live0, handles0)
  {
  }

  lemma HoldBooks(m: Memory, block: Address, clientId: Bytes, live0: set<Address>, handles0: set<Handle>)
    requires block !in m.live && Booked(m, live0, handles0)
    ensures Booked(HoldContext(m, block, clientId), live0, handles0)
  {
    MallocBooks(m, block, live0, handles0);
    SameBooks(Malloc(m, block), HoldContext(m, block, clientId), live0, handles0);
  }

  lemma GiveCounts(m: Memory, c: Connection, block: Address, handle: Handle, clientId: Bytes,
                   others: set<Address>, offset: int)
    requires block !in m.live && handle !in m.handles && Counted(m, others, offset)
    ensures var n := Give(m, c, block, handle, clientId, clientId);
      Counted(n, others, offset) && Verdicts(n.ledger) == Verdicts(m.ledger) + 1
  {
    Append(Open(HoldContext(m, block, clientId), handle).ledger, Accepted(c));
  }

  lemma HandOverBooks(m: Memory, c: Connection, block: Address, handle: Handle, clientId: Bytes,
                      live0: set<Address>, handles0: set<Handle>)
    requires block in m.contexts && handle !in m.handles && Booked(m, live0, handles0)
    ensures Booked(HandOver(m, c, block, handle, clientId), live0, handles0)
  {
    OpenBooks(m, handle, live0, handles0);
    RecordBooks(Open(m, handle), Accepted(c), live0, handles0);
    SameBooks(Record(Open(m, handle), Accepted(c)), HandOver(m, c, block, handle, clientId), live0, handles0);
  }

  lemma ReportBooks(m: Memory, c: Connection, live0: set<Address>, handles0: set<Handle>)
    requires Booked(m, live0, handles0)
    ensures Booked(Report(m, c), live0, handles0)
  {
    RecordBooks(m, Disconnected(c), live0, handles0);
    SameBooks(Record(m, Disconnected(c)), Report(m, c), live0, handles0);
  }

  lemma GiveBooks(m: Memory, c: Connection, block: Address, handle: Handle, clientId: Bytes,
                  live0: set<Address>, handles0: set<Handle>)
    requires block !in m.live && handle !in m.handles && Booked(m, live0, handles0)
    ensures Booked(Give(m, c, block, handle, clientId, clientId), live0, handles0)
  {
    HoldBooks(m, block, clientId, live0, handles0);
    HandOverBooks(HoldContext(m, block, clientId), c, block, handle, clientId, live0, handles0);
  }

  lemma TakeBackCounts(m: Memory, c: Connection, block: Address, clientId: Bytes, others: set<Address>, offset: int)
    requires block !in m.live && Counted(m, others, offset)
    ensures var n := TakeBack(m, c, block, clientId);
      Counted(n, others, offset) && Verdicts(n.ledger) == Verdicts(m.ledger) + 1
  {
    Append(Record(Malloc(m, block), Refused(c)).ledger, Freed(block));
  }

  lemma TakeBackBooks(m: Memory, c: Connection, block: Address, clientId: Bytes,
                      live0: set<Address>, handles0: set<Handle>)
    requires block !in m.live && Booked(m, live0, handles0)
    ensures Booked(TakeBack(m, c, block, clientId), live0, handles0)
  {
    var held := HoldContext(m, block, clientId);
    HoldBooks(m, block, clientId, live0, handles0);
    RecordBooks(held, Refused(c), live0, handles0);
    FreeBooks(Record(held, Refused(c)), block, live0, handles0);
  }

  lemma ConnectCounts(m: Memory, d: Delivery, clientId: Bytes, others: set<Address>, offset: int)
    requires Owned(m) && Grantable(m, d.block) && Openable(m, d.accepted) && d.connection !in m.connections
    requires Counted(m, others, offset)
    ensures var n := Connect(m, d, clientId, clientId);
      Counted(n, others, offset) && Verdicts(n.ledger) == Verdicts(m.ledger) + 1
  {
    var c := d.connection;
    if !d.wanted || d.block == None {
      Append(m.ledger, Refused(c));
    } else if d.accepted == None {
      TakeBackCounts(m, c, d.block.value, clientId, others, offset);
    } else {
      GiveCounts(m, c, d.block.value, d.accepted.value, clientId, others, offset);
    }
  }

  lemma ConnectBooks(m: Memory, d: Delivery, clientId: Bytes, live0: set<Address>, handles0: set<Handle>)
    requires Owned(m) && Grantable(m, d.block) && Openable(m, d.accepted) && d.connection !in m.connections
    requires Booked(m, live0, handles0)
    ensures Booked(Connect(m, d, clientId, clientId), live0, handles0)
  {
    var c := d.connection;
    if !d.wanted || d.block == None {
      RecordBooks(m, Refused(c), live0, handles0);
    } else if d.accepted == None {
      TakeBackBooks(m, c, d.block.value, clientId, live0, handles0);
    } else {
      GiveBooks(m, c, d.block.value, d.accepted.value, clientId, live0, handles0);
    }
  }

  // The effect of a message on the memory.

  /** The end of a connection: its handle is closed, then its context freed, once each, and nothing else
      changes. */
  predicate EndsConnection(m: Memory, n: Memory, c: Connection) {
    && c in m.connections && m.connections[c].context in m.contexts
    && var ctx := m.connections[c].context;
    && var handle := m.contexts[ctx].communicationPortHandle;
    && ctx in m.live && handle in m.handles
    && n.live == m.live - {ctx} && n.contexts == m.contexts - {ctx}
    && n.handles == m.handles - {handle} && n.connections == m.connections - {c}
    && n.ledger == m.ledger + [Disconnected(c), Closed(handle), Freed(ctx)]
  }

  lemma DisconnectEffect(m: Memory, c: Connection)
    requires Owned(m) && c in m.connections
    ensures EndsConnection(m, Disconnect(m, c), c)
  {
    var ctx := m.connections[c].context;
    assert End(m, c, ctx, m.contexts[ctx].communicationPortHandle).ledger ==
      m.ledger + [Disconnected(c), Closed(m.contexts[ctx].communicationPortHandle), Freed(ctx)];
  }

  /** One verdict for a connection request: an accept with a live context holding the client's id and the new
      handle, or a refusal that leaves heap, handles and connections as they were. */
  predicate AnswersConnect(m: Memory, n: Memory, d: Delivery, clientId: Bytes) {
    var c := d.connection;
    if d.wanted && d.block.Some? && d.accepted.Some? then
      && n.connections == m.connections[c := Link(d.block.value, clientId)]
      && n.contexts == m.contexts[d.block.value := PortContext(clientId, d.accepted.value)]
      && n.live == m.live + {d.block.value} && n.handles == m.handles + {d.accepted.value}
      && n.ledger == m.ledger + [Allocated(d.block.value), Opened(d.accepted.value), Accepted(c)]
    else
      && n == m.(ledger := n.ledger)
      && n.ledger == m.ledger +
           if d.wanted && d.block.Some? then [Allocated(d.block.value), Refused(c), Freed(d.block.value)]
           else [Refused(c)]
  }

  lemma ConnectVerdict(m: Memory, d: Delivery, clientId: Bytes)
    requires Owned(m) && Grantable(m, d.block) && Openable(m, d.accepted) && d.connection !in m.connections
    ensures AnswersConnect(m, Connect(m, d, clientId, clientId), d, clientId)
  {
    if !d.wanted || d.block == None {
      assert Connect(m, d, clientId, clientId) == Record(m, Refused(d.connection));
    } else if d.accepted == None {
      TakeBackEffect(m, d.connection, d.block.value, clientId);
    } else {
      GiveEffect(m, d.connection, d.block.value, d.accepted.value, clientId);
    }
  }

  lemma GiveEffect(m: Memory, c: Connection, block: Address, handle: Handle, clientId: Bytes)
    requires block !in m.live && handle !in m.handles
    ensures var n := Give(m, c, block, handle, clientId, clientId);
      && n.connections == m.connections[c := Link(block, clientId)]
      && n.contexts == m.contexts[block := PortContext(clientId, handle)]
      && n.live == m.live + {block} && n.handles == m.handles + {handle}
      && n.ledger == m.ledger + [Allocated(block), Opened(handle), Accepted(c)]
  {
  }

  lemma TakeBackEffect(m: Memory, c: Connection, block: Address, clientId: Bytes)
    requires m.contexts.Keys <= m.live && block !in m.live
    ensures var n := TakeBack(m, c, block, clientId);
      && n == m.(ledger := n.ledger)
      && n.ledger == m.ledger + [Allocated(block), Refused(c), Freed(block)]
  {
  }

  function Requests(script: seq<Delivery>): nat {
    if |script| == 0 then 0 else
    Requests(script[1..]) +
    if |script[0].message| >= 24 && script[0].message[4] == 10 then 1 else 0
  }

  lemma ServeMemory(l: Layout, w: World, d: Delivery, hasAttribute: bool)
    requires Ready(l, w) && Plausible(l, w, d)
    ensures Serve(l, w, d, hasAttribute).0.memory == MemoryAfter(l, w.memory, d, hasAttribute)
  {
    ReceiveReplacesMessage(l, w.buffer, d.message);
  }

  /** The memory after one delivery, read off the message instead of the buffer. */
  function MemoryAfter(l: Layout, m: Memory, d: Delivery, hasAttribute: bool): Memory
    requires Owned(m) && |d.message| >= l.HeaderSize()
    requires IsDisconnect(Kind(d.message)) ==> d.connection in m.connections
    requires Kind(d.message) == LPC_CONNECTION_REQUEST ==>
      d.connection !in m.connections && Grantable(m, d.block) && Openable(m, d.accepted)
  {
    if IsDisconnect(Kind(d.message)) && hasAttribute then Disconnect(m, d.connection)
    else if Kind(d.message) == LPC_CONNECTION_REQUEST then Connect(m, d, ClientId(l, d.message), ClientId(l, d.message))
    else m
  }

  // The law of processing, on the bytes of the message delivered.

  /** What the kernel, the allocator and the handler are relied on for, by the bytes of the message: both
      lengths are stored in bytes 0 to 3, byte 4 is the low byte of the type. */
  ghost predicate Arrives(l: Layout, w: World, d: Delivery) {
    var m, header, most := d.message, if l.Layout32? then 24 else 40, if l.Layout32? then 0xFFEF else 0xFFFF;
    && header <= |m| <= most
    && m[2] + TWO8 * m[3] == |m| == m[0] + TWO8 * m[1] + header
    && KeepsLength(d.onRequest)
    && Grantable(w.memory, d.block) && Openable(w.memory, d.accepted)
    && (m[4] == 5 || m[4] == 6 ==> d.connection in w.memory.connections)
    && (m[4] == 10 ==> d.connection !in w.memory.connections)
  }

  lemma ArrivesIsPlausible(l: Layout, w: World, d: Delivery)
    ensures Plausible(l, w, d) <==> Arrives(l, w, d)
  {
    if |d.message| >= 24 {
      TypeBytes(d.message);
    }
  }

  /** How the worker leaves the world behind a message, and whether it goes on. A request (1) is handled and
      answered from the buffer; a datagram (3) is handled and, if it is continued, cancelled; a closed port (5)
      and a died client (6) both end the connection; a connection request (10) gets its one verdict, under the
      client id that starts at byte 8. Datagrams and ends need the attribute. Any other message only fills the
      buffer. */
  ghost predicate Processed(l: Layout, w: World, d: Delivery, hasAttribute: bool, n: World, goesOn: bool)
    requires |d.message| >= if l.Layout32? then 24 else 40
  {
    var m, kind, header := d.message, d.message[4], if l.Layout32? then 24 else 40;
    var answer := m[..header] + d.onRequest(m[header..]);
    && |m| <= |w.buffer| && n.buffer == (if kind == 1 then answer else m) + w.buffer[|m|..]
    && (goesOn <==> hasAttribute || (kind != 3 && kind != 5 && kind != 6))
    && n.calls == w.calls + (
         if kind == 1 then [OnRequest(m), Reply(answer)]
         else if kind == 3 && hasAttribute then [OnDatagram(m)] + if m[5] / 0x20 % 2 == 1 then [Cancel(m)] else []
         else if kind == 10 then [OnConnect(m)]
         else [])
    && (if (kind == 5 || kind == 6) && hasAttribute then EndsConnection(w.memory, n.memory, d.connection)
        else if kind == 10 then
          AnswersConnect(w.memory, n.memory, d, if l.Layout32? then m[8..16] else m[8..24])
        else n.memory == w.memory)
  }

  lemma ServedBuffer(l: Layout, w: World, d: Delivery, hasAttribute: bool)
    requires Ready(l, w) && Plausible(l, w, d)
    ensures var m, header := d.message, l.HeaderSize();
      Serve(l, w, d, hasAttribute).0.buffer ==
        (if m[4] == 1 then m[..header] + d.onRequest(m[header..]) else m) + w.buffer[|m|..]
  {
    ReceiveReplacesMessage(l, w.buffer, d.message);
    TypeBytes(d.message);
    if Kind(d.message) == LPC_REQUEST {
      AnswerIsReply(l, d.message, d.onRequest);
      AnswerBytes(l, d.message, d.onRequest);
      assert Overwrite(w.buffer, d.message)[|d.message|..] == w.buffer[|d.message|..];
    }
  }

  lemma ServedMemory(l: Layout, w: World, d: Delivery, hasAttribute: bool)
    requires Ready(l, w) && Plausible(l, w, d)
    ensures var n, m := Serve(l, w, d, hasAttribute).0.memory, d.message;
      if (m[4] == 5 || m[4] == 6) && hasAttribute then EndsConnection(w.memory, n, d.connection)
      else if m[4] == 10 then AnswersConnect(w.memory, n, d, if l.Layout32? then m[8..16] else m[8..24])
      else n == w.memory
  {
    ServeMemory(l, w, d, hasAttribute);
    TypeBytes(d.message);
    if IsDisconnect(Kind(d.message)) && hasAttribute {
      DisconnectEffect(w.memory, d.connection);
    } else if Kind(d.message) == LPC_CONNECTION_REQUEST {
      ConnectVerdict(w.memory, d, ClientId(l, d.message));
    }
  }

  /** Every message that arrives is processed by this law. */
  lemma ServeIsProcessed(l: Layout, w: World, d: Delivery, hasAttribute: bool)
    requires Ready(l, w) && Arrives(l, w, d)
    ensures Plausible(l, w, d)
    ensures Processed(l, w, d, hasAttribute, Serve(l, w, d, hasAttribute).0, Serve(l, w, d, hasAttribute).1)
  {
    ArrivesIsPlausible(l, w, d);
    ServeCalls(l, w, d, hasAttribute);
    ServedBuffer(l, w, d, hasAttribute);
    ServedMemory(l, w, d, hasAttribute);
  }

  /** A connection request whose sender's id is `id`, behind the eight bytes of lengths and type, leaves a
      context with exactly that id if it is accepted, and the kernel remembers the same id. */
  lemma AcceptedContextHoldsId(l: Layout, w: World, d: Delivery, hasAttribute: bool,
                               front: Bytes, id: Bytes, rest: Bytes)
    requires Ready(l, w) && Arrives(l, w, d)
    requires d.message == front + id + rest && |front| == 8 && |id| == if l.Layout32? then 8 else 16
    requires d.message[4] == 10 && d.wanted && d.block.Some? && d.accepted.Some?
    ensures Plausible(l, w, d)
    ensures var n := Serve(l, w, d, hasAttribute).0.memory;
      && n.contexts == w.memory.contexts[d.block.value := PortContext(id, d.accepted.value)]
      && n.connections == w.memory.connections[d.connection := Link(d.block.value, id)]
  {
    ServeIsProcessed(l, w, d, hasAttribute);
    assert d.message[8..8 + |id|] == id;
  }

  lemma ServeCounts(l: Layout, w: World, d: Delivery, hasAttribute: bool, others: set<Address>, offset: int)
    requires Ready(l, w) && Plausible(l, w, d) && Counted(w.memory, others, offset)
    ensures var n := Serve(l, w, d, hasAttribute).0.memory;
      Counted(n, others, offset) && Verdicts(n.ledger) == Verdicts(w.memory.ledger) + Requests([d])
  {
    ServeMemory(l, w, d, hasAttribute);
    TypeBytes(d.message);
    if IsDisconnect(Kind(d.message)) && hasAttribute {
      var ctx := w.memory.connections[d.connection].context;
      EndCounts(w.memory, d.connection, ctx, w.memory.contexts[ctx].communicationPortHandle, others, offset);
    } else if Kind(d.message) == LPC_CONNECTION_REQUEST {
      ConnectCounts(w.memory, d, ClientId(l, d.message), others, offset);
    }
  }

  lemma ServeBooks(l: Layout, w: World, d: Delivery, hasAttribute: bool, live0: set<Address>, handles0: set<Handle>)
    requires Ready(l, w) && Plausible(l, w, d) && Booked(w.memory, live0, handles0)
    ensures Booked(Serve(l, w, d, hasAttribute).0.memory, live0, handles0)
  {
    ServeMemory(l, w, d, hasAttribute);
    if IsDisconnect(Kind(d.message)) && hasAttribute {
      var ctx := w.memory.connections[d.connection].context;
      EndBooks(w.memory, d.connection, ctx, w.memory.contexts[ctx].communicationPortHandle, live0, handles0);
    } else if Kind(d.message) == LPC_CONNECTION_REQUEST {
      ConnectBooks(w.memory, d, ClientId(l, d.message), live0, handles0);
    }
  }

  /** Over any run, whatever its messages and failures: contexts stay owned one to one, and the ledger
      keeps accounting for every block and every handle. */
  lemma {:induction false} RunKeepsOwnership(l: Layout, w: World, script: seq<Delivery>, hasAttribute: bool,
                                             live0: set<Address>, handles0: set<Handle>)
    requires Ready(l, w) && IsScript(l, w, script, hasAttribute) && Booked(w.memory, live0, handles0)
    ensures Owned(Run(l, w, script, hasAttribute).world.memory)
    ensures Booked(Run(l, w, script, hasAttribute).world.memory, live0, handles0)
    decreases |script|
  {
    if |script| != 0 {
      ServeBooks(l, w, script[0], hasAttribute, live0, handles0);
      var (next, goesOn) := Serve(l, w, script[0], hasAttribute);
      if goesOn {
        RunKeepsOwnership(l, next, script[1..], hasAttribute, live0, handles0);
      }
    }
  }

  /** Over any run, for every address and every handle value: between two allocations there is a free,
      between two frees an allocation, and after the last allocation a free exactly if the block is not
      live in the end; so it is with opening and closing. */
  lemma RunFreesAndClosesInTurn(l: Layout, w: World, script: seq<Delivery>, hasAttribute: bool,
                                live0: set<Address>, handles0: set<Handle>, r: Resource)
    requires Ready(l, w) && IsScript(l, w, script, hasAttribute) && Booked(w.memory, live0, handles0)
    ensures var m := Run(l, w, script, hasAttribute).world.memory;
      TakeTurns(m.ledger, r, Has(m.live, m.handles, r))
  {
    RunKeepsOwnership(l, w, script, hasAttribute, live0, handles0);
    BooksTakeTurns(Run(l, w, script, hasAttribute).world.memory, live0, handles0, r);
  }

  lemma RequestsOfPrefix(script: seq<Delivery>, n: nat)
    requires 0 < n <= |script|
    ensures Requests(script[..n]) == Requests([script[0]]) + Requests(script[1..][..n - 1])
  {
    assert script[..n][1..] == script[1..][..n - 1];
  }

  /** Over any run: no other block is touched, every connection request received has one verdict, and
      accepts minus processed disconnections is the number of live contexts. */
  lemma {:induction false} RunCounts(l: Layout, w: World, script: seq<Delivery>, hasAttribute: bool,
                                     others: set<Address>, offset: int)
    requires Ready(l, w) && IsScript(l, w, script, hasAttribute) && Counted(w.memory, others, offset)
    ensures var o := Run(l, w, script, hasAttribute);
      && Counted(o.world.memory, others, offset)
      && Verdicts(o.world.memory.ledger) == Verdicts(w.memory.ledger) + Requests(script[..o.received])
    decreases |script|
  {
    if |script| != 0 {
      RunStep(l, w, script, hasAttribute);
      ServeCounts(l, w, script[0], hasAttribute, others, offset);
      var (next, goesOn) := Serve(l, w, script[0], hasAttribute);
      if goesOn {
        RunCounts(l, next, script[1..], hasAttribute, others, offset);
        RequestsOfPrefix(script, 1 + Run(l, next, script[1..], hasAttribute).received);
      }
    }
  }
}
