/** A server from its creation to its termination: what the pieces of UaServer, ServerModel and Interleaving
    add up to. */
module ServerLifetime {
  import opened Words
  import opened PortMessage
  import opened ProcessMemory
  import opened ServerModel
  import opened UaServer
  import I = Interleaving

  /** A process that has no server of this kind yet. */
  ghost predicate Unserved(m: Memory) {
    m.contexts == map[] && m.connections == map[] && NULL !in m.live && NULL !in m.handles
  }

  /** The server's own blocks and handles, and everything the process had before. */
  function OwnOf(m: Memory, creation: Creation): I.Fixed
    requires creation.Succeeds()
  {
    I.Fixed(creation.server.value, creation.message.value, creation.attributes.value,
      creation.port.value, creation.thread.value, m.live, m.handles)
  }

  /** A successful creation leaves its two threads in a state from which every step of every run is safe. */
  lemma CreationStartsSafely(m: Memory, creation: Creation)
    requires Unserved(m) && creation.Succeeds() && creation.Plausible(m)
    ensures I.Inv(OwnOf(m, creation), I.Between(creation.Created(m)))
    ensures Owned(creation.Created(m))
  {
    I.CreatedServerInv(OwnOf(m, creation), creation.Created(m));
  }

  /** From creation to the return of termination, with the threads in any order: what is left is the thread
      handle and, for each connection whose end was not processed, its context and its handle. */
  lemma LifetimeInAnyOrder(m: Memory, creation: Creation, steps: seq<I.Step>)
    requires Unserved(m) && creation.Succeeds() && creation.Plausible(m)
    requires I.IsRun(OwnOf(m, creation), I.Between(creation.Created(m)), steps)
    requires I.After(OwnOf(m, creation), I.Between(creation.Created(m)), steps).terminator == I.Done
    ensures var n := I.After(OwnOf(m, creation), I.Between(creation.Created(m)), steps).memory;
      && Owned(n) && n.live == m.live + n.contexts.Keys
      && n.handles == m.handles + {creation.thread.value} + I.ContextHandles(n, {})
      && (n.live == m.live <==> n.connections == map[])
  {
    CreationStartsSafely(m, creation);
    I.LeftAfterTermination(OwnOf(m, creation), I.Between(creation.Created(m)), steps);
  }

  /** From creation on, after any steps in any order: what either thread may do next finds its blocks live, and
      the connection port is open if and only if termination has not begun. */
  lemma SafeFromCreation(m: Memory, creation: Creation, steps: seq<I.Step>, step: I.Step)
    requires Unserved(m) && creation.Succeeds() && creation.Plausible(m)
    requires I.IsRun(OwnOf(m, creation), I.Between(creation.Created(m)), steps)
    ensures var f, t := OwnOf(m, creation), I.After(OwnOf(m, creation), I.Between(creation.Created(m)), steps);
      && I.Touched(f, t.worker) <= t.memory.live && I.TouchedByTerminator(f, t.terminator) <= t.memory.live
      && (I.Enabled(f, t, step) ==> I.Safe(f, t, step))
      && (I.UsesPort(t.worker) ==> (creation.port.value in t.memory.handles <==> t.terminator == I.NotCalled))
  {
    CreationStartsSafely(m, creation);
    I.NeverTouchesFreed(OwnOf(m, creation), I.Between(creation.Created(m)), steps, step);
    I.PortOpenIff(OwnOf(m, creation), I.Between(creation.Created(m)), steps);
  }

  /** The other side does occur: every created server can be about to reply over the closed port, and nothing
      stops it. */
  lemma ClosedPortIsUsed(m: Memory, creation: Creation)
    requires Unserved(m) && creation.Succeeds() && creation.Plausible(m)
    ensures var f, s := OwnOf(m, creation), I.Between(creation.Created(m));
      exists steps :: I.IsRun(f, s, steps)
        && I.After(f, s, steps).worker == I.Replying && I.UsesPort(I.Replying)
        && creation.port.value !in I.After(f, s, steps).memory.handles
        && I.Enabled(f, I.After(f, s, steps), I.ONWARD) && I.Safe(f, I.After(f, s, steps), I.ONWARD)
  {
    CreationStartsSafely(m, creation);
    I.ReplyOverClosedPort(OwnOf(m, creation), creation.Created(m), 0);
  }

  function CreatedWorld(l: Layout, m: Memory, creation: Creation): World
    requires creation.Succeeds() && creation.Plausible(m)
  {
    World(creation.Created(m), Zeros(l.MaxLength()), [])
  }

  /** The messages that a created server receives, with their outcomes. */
  ghost predicate IsLife(l: Layout, m: Memory, creation: Creation, script: seq<Delivery>)
    requires Unserved(m) && creation.Plausible(m)
  {
    creation.Succeeds() ==>
      (CreationStartsSafely(m, creation);
       IsScript(l, CreatedWorld(l, m, creation), script, true))
  }

  lemma CreatedBooks(m: Memory, creation: Creation, live0: set<Address>, handles0: set<Handle>)
    requires creation.Succeeds() && creation.Plausible(m) && Booked(m, live0, handles0)
    ensures Booked(creation.Created(m), live0, handles0)
  {
    var one := Malloc(m, creation.server.value);
    var two := Malloc(one, creation.attributes.value);
    var three := Malloc(two, creation.message.value);
    MallocBooks(m, creation.server.value, live0, handles0);
    MallocBooks(one, creation.attributes.value, live0, handles0);
    MallocBooks(two, creation.message.value, live0, handles0);
    OpenBooks(three, creation.port.value, live0, handles0);
    OpenBooks(Open(three, creation.port.value), creation.thread.value, live0, handles0);
  }

  lemma TerminatedBooks(m: Memory, port: Handle, message: Address, attributes: Address, self: Address,
                        live0: set<Address>, handles0: set<Handle>)
    requires Terminable(m, port, message, attributes, self)
    requires Booked(m, live0, handles0)
    ensures Booked(Terminated(m, port, message, attributes, self), live0, handles0)
  {
    CloseBooks(m, port, live0, handles0);
    FreeBooks(NtClosed(m, port), message, live0, handles0);
    FreeBooks(Free(NtClosed(m, port), message), attributes, live0, handles0);
    FreeBooks(Free(Free(NtClosed(m, port), message), attributes), self, live0, handles0);
  }

  lemma CreatedScore(m: Memory, creation: Creation)
    requires creation.Succeeds() && creation.Plausible(m)
    ensures Score(creation.Created(m).ledger) == Score(m.ledger)
  {
    var one := Malloc(m, creation.server.value);
    var two := Malloc(one, creation.attributes.value);
    var three := Malloc(two, creation.message.value);
    var four := Open(three, creation.port.value);
    Append(m.ledger, Allocated(creation.server.value));
    Append(one.ledger, Allocated(creation.attributes.value));
    Append(two.ledger, Allocated(creation.message.value));
    Append(three.ledger, Opened(creation.port.value));
    Append(four.ledger, Opened(creation.thread.value));
  }

  lemma TerminatedScore(m: Memory, port: Handle, message: Address, attributes: Address, self: Address)
    requires Terminable(m, port, message, attributes, self)
    ensures Score(Terminated(m, port, message, attributes, self).ledger) == Score(m.ledger)
  {
    Append(m.ledger, Closed(port));
    Append(NtClosed(m, port).ledger, Freed(message));
    Append(Free(NtClosed(m, port), message).ledger, Freed(attributes));
    Append(Free(Free(NtClosed(m, port), message), attributes).ledger, Freed(self));
  }

  /** What a worker that has served a script leaves to termination. */
  lemma ServedLife(l: Layout, m: Memory, creation: Creation, script: seq<Delivery>,
                   live0: set<Address>, handles0: set<Handle>)
    requires Unserved(m) && creation.Succeeds() && creation.Plausible(m) && IsLife(l, m, creation, script)
    requires Booked(m, live0, handles0)
    ensures Ready(l, CreatedWorld(l, m, creation)) && IsScript(l, CreatedWorld(l, m, creation), script, true)
    ensures var o := Run(l, CreatedWorld(l, m, creation), script, true);
      var n := o.world.memory;
      && I.Inv(OwnOf(m, creation), I.Between(n)) && Booked(n, live0, handles0)
      && |n.contexts| == Score(n.ledger) - Score(m.ledger)
      && o.world.calls == ExpectedCalls(l, script)
  {
    CreationStartsSafely(m, creation);
    var f, w := OwnOf(m, creation), CreatedWorld(l, m, creation);
    CreatedBooks(m, creation, live0, handles0);
    RunKeepsOwnership(l, w, script, true, live0, handles0);
    CreatedScore(m, creation);
    RunCounts(l, w, script, true, w.memory.live, -Score(m.ledger));
    DispatchIsFold(l, w, script);
    I.SequentialRunIsInterleaved(f, l, w, script);
    I.RunKeepsInv(f, I.Between(w.memory), I.AllInstructions(l, script));
  }

  /** What termination finds. */
  ghost predicate Served(f: I.Fixed, m: Memory) {
    && Terminable(m, f.port, f.message, f.attributes, f.self)
    && m.live - {f.self, f.message, f.attributes} == f.otherBlocks + m.contexts.Keys
    && m.handles - {f.port} == f.otherHandles + {f.thread} + I.ContextHandles(m, {})
    && (m.contexts == map[] <==> m.connections == map[])
    && m.contexts.Keys !! f.otherBlocks
  }

  lemma WorkerLeaves(f: I.Fixed, m: Memory)
    requires I.Inv(f, I.Between(m))
    ensures Served(f, m)
  {
  }

  /** What is left of a server that was terminated, in terms of the process before its creation. */
  ghost predicate Left(m: Memory, creation: Creation, n: Memory) {
    && creation.thread.Some?
    && n.live == m.live + n.contexts.Keys && n.contexts.Keys !! m.live
    && |n.contexts| == Score(n.ledger) - Score(m.ledger)
    && n.handles == m.handles + {creation.thread.value} + I.ContextHandles(n, {})
    && (n.live == m.live <==> n.connections == map[])
  }

  lemma TerminatedShape(n: Memory, port: Handle, message: Address, attributes: Address, self: Address)
    requires Terminable(n, port, message, attributes, self)
    ensures var t := Terminated(n, port, message, attributes, self);
      && t.contexts == n.contexts && t.connections == n.connections
      && t.live == n.live - {self, message, attributes} && t.handles == n.handles - {port}
  {
  }

  lemma LeftInTheEnd(f: I.Fixed, m: Memory, creation: Creation, n: Memory, t: Memory)
    requires creation.Succeeds() && f == OwnOf(m, creation) && Served(f, n)
    requires |n.contexts| == Score(n.ledger) - Score(m.ledger) && Score(t.ledger) == Score(n.ledger)
    requires t.contexts == n.contexts && t.connections == n.connections
    requires t.live == n.live - {f.self, f.message, f.attributes} && t.handles == n.handles - {f.port}
    ensures Left(m, creation, t)
  {
    assert t.live == m.live + t.contexts.Keys;
    assert t.live == m.live <==> t.contexts.Keys == {};
    assert I.ContextHandles(t, {}) == I.ContextHandles(n, {});
  }

  lemma TerminationLeaves(m: Memory, creation: Creation, n: Memory)
    requires creation.Succeeds() && Served(OwnOf(m, creation), n)
    requires |n.contexts| == Score(n.ledger) - Score(m.ledger)
    ensures var f := OwnOf(m, creation); Left(m, creation, Terminated(n, f.port, f.message, f.attributes, f.self))
  {
    var f := OwnOf(m, creation);
    TerminatedScore(n, f.port, f.message, f.attributes, f.self);
    TerminatedShape(n, f.port, f.message, f.attributes, f.self);
    LeftInTheEnd(f, m, creation, n, Terminated(n, f.port, f.message, f.attributes, f.self));
  }

  /** Terminating the server now leaves what it should. */
  ghost predicate EndsWell(m: Memory, creation: Creation, n: Memory, port: Handle, message: Address,
                           attributes: Address, self: Address, live0: set<Address>, handles0: set<Handle>) {
    && Terminable(n, port, message, attributes, self)
    && var t := Terminated(n, port, message, attributes, self);
    && Left(m, creation, t) && Booked(t, live0, handles0)
  }

  /** A worker that serves its script to the end leaves what termination needs. */
  lemma LifeEnds(l: Layout, w: World, m: Memory, creation: Creation, script: seq<Delivery>, port: Handle,
                 message: Address, attributes: Address, self: Address, live0: set<Address>, handles0: set<Handle>)
    requires Unserved(m) && creation.Succeeds() && creation.Plausible(m) && IsLife(l, m, creation, script)
    requires Booked(m, live0, handles0) && w == CreatedWorld(l, m, creation)
    requires creation.port == Some(port) && creation.message == Some(message)
    requires creation.attributes == Some(attributes) && creation.server == Some(self)
    ensures Ready(l, w) && IsScript(l, w, script, true)
    ensures var o := Run(l, w, script, true);
      && o.world.calls == ExpectedCalls(l, script)
      && EndsWell(m, creation, o.world.memory, port, message, attributes, self, live0, handles0)
  {
    ServedLife(l, m, creation, script, live0, handles0);
    var f, n := OwnOf(m, creation), Run(l, w, script, true).world.memory;
    WorkerLeaves(f, n);
    TerminationLeaves(m, creation, n);
    TerminatedBooks(n, f.port, f.message, f.attributes, f.self, live0, handles0);
  }

  /** The worker of a created server. */
  method Serve(process: Process, server: Server, script: seq<Delivery>, ghost w: World, ghost m: Memory,
               ghost creation: Creation)
    requires Unserved(m) && creation.Succeeds() && creation.Plausible(m) && IsLife(server.layout, m, creation, script)
    requires w == server.View(process) == CreatedWorld(server.layout, m, creation) && server.HasContextAttribute()
    modifies process, server`calls, server.portMessageBytes
    ensures Ready(server.layout, w) && IsScript(server.layout, w, script, true)
    ensures process.memory == Run(server.layout, w, script, true).world.memory
    ensures server.calls == Run(server.layout, w, script, true).world.calls
  {
    CreationStartsSafely(m, creation);
    assert server.portMessageBytes.Length == |w.buffer|;
    var _ := server.UaServerWorker(process, script);
  }

  /** A caller that creates a server, lets it serve and terminates it. If creation fails nothing has changed.
      Otherwise the server has answered its messages, the heap holds what it held and one context for every
      accepted connection whose end was not processed, the handle table what it held, the thread handle and
      the handles of those contexts, and the ledger accounts for everything in between. */
  method CreateServeTerminate(process: Process, layout: Layout, creation: Creation, script: seq<Delivery>,
                              ghost live0: set<Address>, ghost handles0: set<Handle>)
    returns (created: bool, calls: seq<Call>)
    requires Unserved(process.memory) && creation.Plausible(process.memory)
    requires IsLife(layout, process.memory, creation, script) && Booked(process.memory, live0, handles0)
    modifies process
    ensures created <==> creation.Succeeds()
    ensures !created ==>
      process.memory.live == old(process.memory.live) && process.memory.handles == old(process.memory.handles)
    ensures created ==>
      && calls == ExpectedCalls(layout, script)
      && Left(old(process.memory), creation, process.memory) && Booked(process.memory, live0, handles0)
  {
    ghost var m := process.memory;
    var server := UaCreateServer(process, layout, creation);
    if server == null {
      return false, [];
    }
    ghost var w := server.View(process);
    assert w == CreatedWorld(layout, m, creation);
    Serve(process, server, script, w, m, creation);
    LifeEnds(layout, w, m, creation, script, server.connectionPortHandle,
      server.portMessage, server.messageAttributes, server.self, live0, handles0);
    UaTerminateServer(process, server);
    return true, server.calls;
  }
}
