/** UaTerminateServer against UaServerWorker: two threads over one heap, one instruction at a time,
    in any order. The server was created, so its attribute block has the context attribute. */
module Interleaving {
  import opened Words
  import opened PortMessage
  import opened ProcessMemory
  import opened ServerModel

  /** The worker's next instruction. `ctx` and `block` are the context it holds, `c` the connection. */
  datatype Worker =
    | Receiving
    | Dispatching(kind: Byte, c: Connection, ended: Option<Address>)
    | Requested                                    // OnRequest
    | Replying
    | DatagramArrived                              // AlpcGetMessageAttribute, OnDatagram
    | Cancelling
    | ReadingContext(ctx: Address)
    | ClosingHandle(ctx: Address, handle: Handle)
    | FreeingContext(ctx: Address)
    | Asking(c: Connection)                        // OnConnect
    | Allocating(c: Connection)
    | Filling(c: Connection, block: Address)
    | Accepting(c: Connection, block: Address)
    | RefusingHeld(c: Connection, block: Address)
    | FreeingHeld(block: Address)
    | Refusing(c: Connection)
    | Exited

  datatype Terminator = NotCalled | Waiting | Joined | MessageFreed | AttributesFreed | Done

  /** What stays the same: the server's blocks and handles, and what the process had besides them. */
  datatype Fixed = Fixed(
    self: Address, message: Address, attributes: Address, port: Handle, thread: Handle,
    otherBlocks: set<Address>, otherHandles: set<Handle>)
  {
    predicate Valid() {
      && self != message && self != attributes && message != attributes
      && {self, message, attributes} !! otherBlocks
      && port != thread && {port, thread} !! otherHandles
    }
  }

  datatype State = State(memory: Memory, worker: Worker, terminator: Terminator)

  /** The context the worker holds: taken out of the table, or not handed over yet. */
  function Held(w: Worker): set<Address> {
    match w
    case Dispatching(_, _, Some(ctx)) => {ctx}
    case ReadingContext(ctx) => {ctx}
    case ClosingHandle(ctx, _) => {ctx}
    case FreeingContext(ctx) => {ctx}
    case Filling(_, block) => {block}
    case Accepting(_, block) => {block}
    case RefusingHeld(_, block) => {block}
    case FreeingHeld(block) => {block}
    case _ => {}
  }

  /** Held contexts whose handle field names no open handle: not stored yet, or already closed. */
  function Handleless(w: Worker): set<Address> {
    if w.Dispatching? || w.ReadingContext? || w.ClosingHandle? then {} else Held(w)
  }

  function ServerBlocks(f: Fixed, t: Terminator): set<Address> {
    match t
    case MessageFreed => {f.self, f.attributes}
    case AttributesFreed => {f.self}
    case Done => {}
    case _ => {f.self, f.message, f.attributes}
  }

  function ServerHandles(f: Fixed, t: Terminator): set<Handle> {
    if t == NotCalled then {f.port, f.thread} else {f.thread}
  }

  function ContextHandles(m: Memory, except: set<Address>): set<Handle> {
    set a | a in m.contexts && a !in except :: m.contexts[a].communicationPortHandle
  }

  /** Contexts that name an open handle name different ones, none of them anybody else's. */
  ghost predicate HandlesOwned(m: Memory, except: set<Address>, others: set<Handle>) {
    && (forall a :: a in m.contexts && a !in except ==>
         m.contexts[a].communicationPortHandle in m.handles && m.contexts[a].communicationPortHandle !in others)
    && (forall a, b :: a in m.contexts && b in m.contexts && a !in except && b !in except && a != b ==>
         m.contexts[a].communicationPortHandle != m.contexts[b].communicationPortHandle)
    && (forall h :: h in m.handles <==> h in others + ContextHandles(m, except))
  }

  /** Every live block belongs to the rest of the process, to the server, or is a context. */
  ghost predicate BlocksOwned(f: Fixed, m: Memory, t: Terminator) {
    && m.contexts.Keys !! f.otherBlocks + ServerBlocks(f, t)
    && m.live == f.otherBlocks + ServerBlocks(f, t) + m.contexts.Keys
  }

  /** Where the two threads are: only an exited worker lets the server's blocks be freed. */
  ghost predicate Control(s: State) {
    && (s.worker.Exited? || s.terminator == NotCalled || s.terminator == Waiting)
    && Held(s.worker) <= s.memory.contexts.Keys
    && (s.worker.ClosingHandle? ==> s.worker.handle == s.memory.contexts[s.worker.ctx].communicationPortHandle)
    && (s.worker.Dispatching? ==> (s.worker.ended.Some? <==> IsDisconnect(s.worker.kind)))
    && (forall c :: Pending(s.worker, c) ==> c !in s.memory.connections)
  }

  /** No context names the connection port, open or closed. */
  ghost predicate PortSpared(port: Handle, m: Memory, except: set<Address>) {
    forall a :: a in m.contexts && a !in except ==> m.contexts[a].communicationPortHandle != port
  }

  /** Every live block and every open handle has exactly one owner. */
  ghost predicate Inv(f: Fixed, s: State) {
    && f.Valid()
    && OwnedExcept(s.memory, Held(s.worker))
    && BlocksOwned(f, s.memory, s.terminator)
    && HandlesOwned(s.memory, Handleless(s.worker), f.otherHandles + ServerHandles(f, s.terminator))
    && PortSpared(f.port, s.memory, Handleless(s.worker))
    && Control(s)
  }

  /** The worker is working on the request to open connection `c`. */
  predicate Pending(w: Worker, c: Connection) {
    match w
    case Dispatching(kind, d, _) => kind == LPC_CONNECTION_REQUEST && c == d
    case Asking(d) => c == d
    case Allocating(d) => c == d
    case Filling(d, _) => c == d
    case Accepting(d, _) => c == d
    case _ => false
  }

  // ---------------------------------------------------------------------------------------------
  // Steps
  // ---------------------------------------------------------------------------------------------

  datatype Step =
    | Receive(kind: Byte, c: Connection)          // a successful receive, which needs the open port
    | ReceiveFails
    | Work(grant: Option<nat>, yes: bool, clientId: Bytes)  // another instruction of the worker, with its outcome
    | Terminate                                   // an instruction of the terminating thread

  predicate Enabled(f: Fixed, s: State, step: Step) {
    match step
    case Receive(kind, c) =>
      && s.worker.Receiving? && s.terminator == NotCalled
      && (IsDisconnect(kind) ==> c in s.memory.connections)
      && (kind == LPC_CONNECTION_REQUEST ==> c !in s.memory.connections)
    case ReceiveFails => s.worker.Receiving?
    case Work(grant, _, _) =>
      && !s.worker.Receiving? && !s.worker.Exited?
      && (s.worker.Allocating? ==> Grantable(s.memory, grant))
      // accepting needs the open connection port
      && (s.worker.Accepting? ==> Openable(s.memory, grant) && (grant.Some? ==> s.terminator == NotCalled))
    case Terminate =>
      match s.terminator
      case Waiting => s.worker.Exited?
      case Done => false
      case _ => true
  }

  /** Blocks the worker's next instruction reads or writes. */
  function Touched(f: Fixed, w: Worker): set<Address> {
    match w
    case Receiving => {f.self, f.message, f.attributes}
    case Dispatching(_, _, _) => {f.self, f.message, f.attributes}
    case Requested => {f.self, f.message}
    case Replying => {f.self, f.message}
    case DatagramArrived => {f.self, f.message, f.attributes}
    case Cancelling => {f.self, f.attributes}
    case ReadingContext(ctx) => {ctx}
    case ClosingHandle(_, _) => {}
    case FreeingContext(ctx) => {ctx}
    case Asking(_) => {f.self, f.message}
    case Allocating(_) => {}
    case Filling(_, block) => {f.self, f.message, block}
    case Accepting(_, block) => {f.self, f.message, block}
    case RefusingHeld(_, _) => {f.self, f.message}
    case FreeingHeld(block) => {block}
    case Refusing(_) => {f.self, f.message}
    case Exited => {}
  }

  /** Blocks the terminating thread's next instruction reads or frees. */
  function TouchedByTerminator(f: Fixed, t: Terminator): set<Address> {
    match t
    case Joined => {f.self, f.message}
    case MessageFreed => {f.self, f.attributes}
    case Done => {}
    case _ => {f.self}
  }

  lemma OnlyLiveBlocksTouched(f: Fixed, s: State)
    requires Inv(f, s)
    ensures Touched(f, s.worker) <= s.memory.live
    ensures TouchedByTerminator(f, s.terminator) <= s.memory.live
  {
  }

  function Received(s: State, kind: Byte, c: Connection): State
    requires IsDisconnect(kind) ==> c in s.memory.connections
  {
    if IsDisconnect(kind) then
      s.(memory := Report(s.memory, c), worker := Dispatching(kind, c, Some(s.memory.connections[c].context)))
    else
      s.(worker := Dispatching(kind, c, None))
  }

  /** The worker's next instruction passes the connection port to a system call. The port is not among what
      `CanWork` demands: termination closes it while the worker may still be about to use it. */
  predicate UsesPort(w: Worker) {
    w.Receiving? || w.Replying? || w.Cancelling? || w.Accepting? || w.RefusingHeld? || w.Refusing?
  }

  /** What the worker's next instruction needs of the memory: its blocks, and the handle of its context. */
  predicate CanWork(s: State, grant: Option<nat>) {
    match s.worker
    case ReadingContext(ctx) => ctx in s.memory.contexts
    case ClosingHandle(_, handle) => handle in s.memory.handles
    case FreeingContext(ctx) => ctx in s.memory.live
    case Allocating(_) => grant.Some? ==> grant.value !in s.memory.live
    case Accepting(_, block) => block in s.memory.contexts && (grant.Some? ==> grant.value !in s.memory.handles)
    case FreeingHeld(block) => block in s.memory.live
    case _ => true
  }

  lemma WorkIsSafe(f: Fixed, s: State, grant: Option<nat>, yes: bool, clientId: Bytes)
    requires Inv(f, s) && Enabled(f, s, Work(grant, yes, clientId))
    ensures CanWork(s, grant)
  {
  }

  /** The worker's instruction; `clientId` is the requester's id, as the message buffer holds it. */
  function Worked(s: State, grant: Option<nat>, yes: bool, clientId: Bytes): State
    requires CanWork(s, grant) && !s.worker.Receiving? && !s.worker.Exited?
  {
    match s.worker
    case Dispatching(kind, c, ended) =>
      s.(worker :=
        if kind == LPC_REQUEST then Requested
        else if kind == LPC_DATAGRAM then DatagramArrived
        else if ended.Some? then ReadingContext(ended.value)
        else if kind == LPC_CONNECTION_REQUEST then Asking(c)
        else Receiving)
    case Requested => s.(worker := Replying)
    case Replying => s.(worker := Receiving)
    case DatagramArrived => s.(worker := if yes then Cancelling else Receiving)
    case Cancelling => s.(worker := Receiving)
    case ReadingContext(ctx) => s.(worker := ClosingHandle(ctx, s.memory.contexts[ctx].communicationPortHandle))
    case ClosingHandle(ctx, handle) => s.(memory := Close(s.memory, handle), worker := FreeingContext(ctx))
    case FreeingContext(ctx) => s.(memory := Free(s.memory, ctx), worker := Receiving)
    case Asking(c) => s.(worker := if yes then Allocating(c) else Refusing(c))
    case Allocating(c) =>
      if grant == None then s.(worker := Refusing(c)) else
      s.(memory := HoldContext(s.memory, grant.value, []), worker := Filling(c, grant.value))
    case Filling(c, block) =>
      s.(memory := s.memory.(contexts := s.memory.contexts[block := PortContext(clientId, NULL)]),
         worker := Accepting(c, block))
    case Accepting(c, block) =>
      if grant == None then s.(worker := RefusingHeld(c, block)) else
      s.(memory := HandOver(s.memory, c, block, grant.value, s.memory.contexts[block].clientId), worker := Receiving)
    case RefusingHeld(c, block) => s.(memory := Record(s.memory, Refused(c)), worker := FreeingHeld(block))
    case FreeingHeld(block) => s.(memory := Free(s.memory, block), worker := Receiving)
    case Refusing(c) => s.(memory := Record(s.memory, Refused(c)), worker := Receiving)
  }

  /** What the terminating thread's next instruction needs of the memory. */
  predicate CanTerminate(f: Fixed, s: State) {
    match s.terminator
    case NotCalled => f.port in s.memory.handles
    case Waiting => f.thread in s.memory.handles
    case Joined => f.message in s.memory.live
    case MessageFreed => f.attributes in s.memory.live
    case AttributesFreed => f.self in s.memory.live
    case Done => false
  }

  function Terminated(f: Fixed, s: State): State
    requires CanTerminate(f, s)
  {
    match s.terminator
    case NotCalled => s.(memory := Close(s.memory, f.port), terminator := Waiting)
    case Waiting => s.(terminator := Joined)
    case Joined => s.(memory := Free(s.memory, f.message), terminator := MessageFreed)
    case MessageFreed => s.(memory := Free(s.memory, f.attributes), terminator := AttributesFreed)
    case AttributesFreed => s.(memory := Free(s.memory, f.self), terminator := Done)
  }

  // ---------------------------------------------------------------------------------------------
  // Every step keeps the invariant
  // ---------------------------------------------------------------------------------------------

  lemma FreeOtherKeepsOwned(m: Memory, held: set<Address>, block: Address)
    requires OwnedExcept(m, held) && block in m.live && block !in m.contexts
    ensures OwnedExcept(Free(m, block), held)
  {
  }

  lemma ContextHandedOver(m: Memory, c: Connection, block: Address, handle: Handle, clientId: Bytes,
                          others: set<Handle>)
    requires HandlesOwned(m, {block}, others) && block in m.contexts && handle !in m.handles
    ensures HandlesOwned(HandOver(m, c, block, handle, clientId), {}, others)
  {
    var n := HandOver(m, c, block, handle, clientId);
    forall h ensures h in n.handles <==> h in others + ContextHandles(n, {}) {
      if h in ContextHandles(m, {block}) {
        var a :| a in m.contexts && a !in {block} && m.contexts[a].communicationPortHandle == h;
        assert a in n.contexts && n.contexts[a].communicationPortHandle == h;
      }
      assert n.contexts[block].communicationPortHandle == handle;
    }
  }

  lemma OtherBlockFreed(m: Memory, except: set<Address>, others: set<Handle>, block: Address)
    requires HandlesOwned(m, except, others) && block in m.live && block !in m.contexts
    ensures HandlesOwned(Free(m, block), except, others)
  {
  }

  lemma ReceiveKeepsInv(f: Fixed, s: State, kind: Byte, c: Connection)
    requires Inv(f, s) && Enabled(f, s, Receive(kind, c))
    ensures Inv(f, Received(s, kind, c))
  {
    if IsDisconnect(kind) {
      ReportHoldsContext(s.memory, c);
    }
  }

  /** The worker can take its next instruction with this outcome. */
  predicate Working(s: State, grant: Option<nat>) {
    && !s.worker.Receiving? && !s.worker.Exited? && CanWork(s, grant)
    && (s.worker.Allocating? ==> Grantable(s.memory, grant))
    && (s.worker.Accepting? ==> Openable(s.memory, grant))
  }

  /** Instructions that end a context. */
  predicate Ending(w: Worker) {
    w.ClosingHandle? || w.FreeingContext? || w.FreeingHeld?
  }

  /** Instructions that set one up. */
  predicate SettingUp(w: Worker) {
    w.Allocating? || w.Filling? || w.Accepting?
  }

  lemma ClosingKeepsOwned(s: State, grant: Option<nat>, yes: bool, clientId: Bytes, others: set<Handle>)
    requires s.worker.ClosingHandle? && Working(s, grant) && Control(s) && OwnedExcept(s.memory, Held(s.worker))
    requires HandlesOwned(s.memory, {}, others)
    ensures var t := Worked(s, grant, yes, clientId); OwnedExcept(t.memory, Held(t.worker))
  {
    CloseKeepsOwned(s.memory, {s.worker.ctx}, s.worker.handle);
  }

  lemma FreeingKeepsOwned(s: State, grant: Option<nat>, yes: bool, clientId: Bytes)
    requires s.worker.FreeingContext? && Working(s, grant) && Control(s) && OwnedExcept(s.memory, Held(s.worker))
    ensures var t := Worked(s, grant, yes, clientId); OwnedExcept(t.memory, Held(t.worker))
  {
  }

  lemma FreeingHeldKeepsOwned(s: State, grant: Option<nat>, yes: bool, clientId: Bytes)
    requires s.worker.FreeingHeld? && Working(s, grant) && Control(s) && OwnedExcept(s.memory, Held(s.worker))
    ensures var t := Worked(s, grant, yes, clientId); OwnedExcept(t.memory, Held(t.worker))
  {
  }

  lemma AllocatingKeepsOwned(s: State, grant: Option<nat>, yes: bool, clientId: Bytes)
    requires s.worker.Allocating? && Working(s, grant) && Control(s) && OwnedExcept(s.memory, Held(s.worker))
    ensures var t := Worked(s, grant, yes, clientId); OwnedExcept(t.memory, Held(t.worker))
  {
    var t := Worked(s, grant, yes, clientId);
    if grant.Some? {
      HoldKeepsOwned(s.memory, grant.value, []);
      assert t.memory == HoldContext(s.memory, grant.value, []) && Held(t.worker) == {grant.value};
    } else {
      assert t.memory == s.memory && Held(t.worker) == {};
    }
  }

  lemma FillingKeepsOwned(s: State, grant: Option<nat>, yes: bool, clientId: Bytes)
    requires s.worker.Filling? && Working(s, grant) && Control(s) && OwnedExcept(s.memory, Held(s.worker))
    ensures var t := Worked(s, grant, yes, clientId); OwnedExcept(t.memory, Held(t.worker))
  {
  }

  lemma AcceptingKeepsOwned(s: State, grant: Option<nat>, yes: bool, clientId: Bytes)
    requires s.worker.Accepting? && Working(s, grant) && Control(s) && OwnedExcept(s.memory, Held(s.worker))
    ensures var t := Worked(s, grant, yes, clientId); OwnedExcept(t.memory, Held(t.worker))
  {
    if grant.Some? {
      var block := s.worker.block;
      HandOverKeepsOwned(s.memory, s.worker.c, block, grant.value, s.memory.contexts[block].clientId);
    }
  }

  lemma OtherWorkKeepsOwned(s: State, grant: Option<nat>, yes: bool, clientId: Bytes)
    requires Working(s, grant) && Control(s) && !Ending(s.worker) && !SettingUp(s.worker)
    requires OwnedExcept(s.memory, Held(s.worker))
    ensures var t := Worked(s, grant, yes, clientId); OwnedExcept(t.memory, Held(t.worker))
  {
    var t := Worked(s, grant, yes, clientId);
    assert Held(t.worker) == Held(s.worker) && t.memory == s.memory.(ledger := t.memory.ledger);
  }

  lemma ClosingKeepsHandles(s: State, grant: Option<nat>, yes: bool, clientId: Bytes, others: set<Handle>)
    requires s.worker.ClosingHandle? && Working(s, grant) && Control(s) && s.memory.contexts.Keys <= s.memory.live
    requires HandlesOwned(s.memory, Handleless(s.worker), others)
    ensures var t := Worked(s, grant, yes, clientId); HandlesOwned(t.memory, Handleless(t.worker), others)
  {
  }

  lemma FreeingKeepsHandles(s: State, grant: Option<nat>, yes: bool, clientId: Bytes, others: set<Handle>)
    requires s.worker.FreeingContext? && Working(s, grant) && Control(s) && s.memory.contexts.Keys <= s.memory.live
    requires HandlesOwned(s.memory, Handleless(s.worker), others)
    ensures var t := Worked(s, grant, yes, clientId); HandlesOwned(t.memory, Handleless(t.worker), others)
  {
  }

  lemma FreeingHeldKeepsHandles(s: State, grant: Option<nat>, yes: bool, clientId: Bytes, others: set<Handle>)
    requires s.worker.FreeingHeld? && Working(s, grant) && Control(s) && s.memory.contexts.Keys <= s.memory.live
    requires HandlesOwned(s.memory, Handleless(s.worker), others)
    ensures var t := Worked(s, grant, yes, clientId); HandlesOwned(t.memory, Handleless(t.worker), others)
  {
  }

  lemma AllocatingKeepsHandles(s: State, grant: Option<nat>, yes: bool, clientId: Bytes, others: set<Handle>)
    requires s.worker.Allocating? && Working(s, grant) && Control(s) && s.memory.contexts.Keys <= s.memory.live
    requires HandlesOwned(s.memory, Handleless(s.worker), others)
    ensures var t := Worked(s, grant, yes, clientId); HandlesOwned(t.memory, Handleless(t.worker), others)
  {
  }

  lemma FillingKeepsHandles(s: State, grant: Option<nat>, yes: bool, clientId: Bytes, others: set<Handle>)
    requires s.worker.Filling? && Working(s, grant) && Control(s) && s.memory.contexts.Keys <= s.memory.live
    requires HandlesOwned(s.memory, Handleless(s.worker), others)
    ensures var t := Worked(s, grant, yes, clientId); HandlesOwned(t.memory, Handleless(t.worker), others)
  {
  }

  lemma AcceptingKeepsHandles(s: State, grant: Option<nat>, yes: bool, clientId: Bytes, others: set<Handle>)
    requires s.worker.Accepting? && Working(s, grant) && Control(s) && s.memory.contexts.Keys <= s.memory.live
    requires HandlesOwned(s.memory, Handleless(s.worker), others)
    ensures var t := Worked(s, grant, yes, clientId); HandlesOwned(t.memory, Handleless(t.worker), others)
  {
    if grant.Some? {
      var block := s.worker.block;
      ContextHandedOver(s.memory, s.worker.c, block, grant.value, s.memory.contexts[block].clientId, others);
    }
  }

  lemma OtherWorkKeepsHandles(s: State, grant: Option<nat>, yes: bool, clientId: Bytes, others: set<Handle>)
    requires Working(s, grant) && Control(s) && !Ending(s.worker) && !SettingUp(s.worker)
    requires HandlesOwned(s.memory, Handleless(s.worker), others)
    ensures var t := Worked(s, grant, yes, clientId); HandlesOwned(t.memory, Handleless(t.worker), others)
  {
    var t := Worked(s, grant, yes, clientId);
    assert Handleless(t.worker) == Handleless(s.worker);
  }

  lemma WorkKeepsOwned(s: State, grant: Option<nat>, yes: bool, clientId: Bytes, others: set<Handle>)
    requires Working(s, grant) && Control(s)
    requires OwnedExcept(s.memory, Held(s.worker)) && HandlesOwned(s.memory, Handleless(s.worker), others)
    ensures var t := Worked(s, grant, yes, clientId); OwnedExcept(t.memory, Held(t.worker))
  {
    match s.worker
    case ClosingHandle(_, _) => ClosingKeepsOwned(s, grant, yes, clientId, others);
    case FreeingContext(_) => FreeingKeepsOwned(s, grant, yes, clientId);
    case FreeingHeld(_) => FreeingHeldKeepsOwned(s, grant, yes, clientId);
    case Allocating(_) => AllocatingKeepsOwned(s, grant, yes, clientId);
    case Filling(_, _) => FillingKeepsOwned(s, grant, yes, clientId);
    case Accepting(_, _) => AcceptingKeepsOwned(s, grant, yes, clientId);
    case _ => OtherWorkKeepsOwned(s, grant, yes, clientId);
  }

  lemma WorkKeepsHandles(s: State, grant: Option<nat>, yes: bool, clientId: Bytes, others: set<Handle>)
    requires Working(s, grant) && Control(s) && s.memory.contexts.Keys <= s.memory.live
    requires HandlesOwned(s.memory, Handleless(s.worker), others)
    ensures var t := Worked(s, grant, yes, clientId); HandlesOwned(t.memory, Handleless(t.worker), others)
  {
    match s.worker
    case ClosingHandle(_, _) => ClosingKeepsHandles(s, grant, yes, clientId, others);
    case FreeingContext(_) => FreeingKeepsHandles(s, grant, yes, clientId, others);
    case FreeingHeld(_) => FreeingHeldKeepsHandles(s, grant, yes, clientId, others);
    case Allocating(_) => AllocatingKeepsHandles(s, grant, yes, clientId, others);
    case Filling(_, _) => FillingKeepsHandles(s, grant, yes, clientId, others);
    case Accepting(_, _) => AcceptingKeepsHandles(s, grant, yes, clientId, others);
    case _ => OtherWorkKeepsHandles(s, grant, yes, clientId, others);
  }

  lemma WorkKeepsBlocks(f: Fixed, s: State, grant: Option<nat>, yes: bool, clientId: Bytes)
    requires Working(s, grant) && Control(s) && BlocksOwned(f, s.memory, s.terminator)
    ensures BlocksOwned(f, Worked(s, grant, yes, clientId).memory, s.terminator)
  {
  }

  lemma WorkKeepsControl(s: State, grant: Option<nat>, yes: bool, clientId: Bytes)
    requires Working(s, grant) && Control(s)
    ensures Control(Worked(s, grant, yes, clientId))
  {
  }

  lemma WorkKeepsPort(s: State, grant: Option<nat>, yes: bool, clientId: Bytes, port: Handle)
    requires Working(s, grant) && Control(s) && PortSpared(port, s.memory, Handleless(s.worker))
    requires s.worker.Accepting? ==> grant != Some(port)
    ensures var t := Worked(s, grant, yes, clientId); PortSpared(port, t.memory, Handleless(t.worker))
  {
  }

  lemma WorkKeepsInv(f: Fixed, s: State, grant: Option<nat>, yes: bool, clientId: Bytes)
    requires Inv(f, s) && Enabled(f, s, Work(grant, yes, clientId))
    ensures Working(s, grant) && Inv(f, Worked(s, grant, yes, clientId))
  {
    WorkIsSafe(f, s, grant, yes, clientId);
    var others := f.otherHandles + ServerHandles(f, s.terminator);
    WorkKeepsOwned(s, grant, yes, clientId, others);
    WorkKeepsHandles(s, grant, yes, clientId, others);
    WorkKeepsBlocks(f, s, grant, yes, clientId);
    WorkKeepsPort(s, grant, yes, clientId, f.port);
    WorkKeepsControl(s, grant, yes, clientId);
  }

  lemma TerminateKeepsInv(f: Fixed, s: State)
    requires Inv(f, s) && Enabled(f, s, Terminate)
    ensures CanTerminate(f, s) && Inv(f, Terminated(f, s))
  {
    if s.terminator == NotCalled {
      PortClosedKeepsInv(f, s);
    } else if s.terminator != Waiting {
      BlockFreedKeepsInv(f, s);
    }
  }

  lemma PortClosedKeepsInv(f: Fixed, s: State)
    requires Inv(f, s) && s.terminator == NotCalled && CanTerminate(f, s)
    ensures Inv(f, Terminated(f, s))
  {
    CloseKeepsOwned(s.memory, Held(s.worker), f.port);
  }

  /** The block the terminating thread frees next. */
  function NextFreed(f: Fixed, t: Terminator): Address {
    if t == Joined then f.message else if t == MessageFreed then f.attributes else f.self
  }

  lemma BlockFreedKeepsBlocks(f: Fixed, s: State)
    requires f.Valid() && CanTerminate(f, s) && s.terminator != NotCalled && s.terminator != Waiting
    requires BlocksOwned(f, s.memory, s.terminator)
    ensures NextFreed(f, s.terminator) !in s.memory.contexts
    ensures BlocksOwned(f, Terminated(f, s).memory, Terminated(f, s).terminator)
  {
  }

  lemma BlockFreedKeepsInv(f: Fixed, s: State)
    requires Inv(f, s) && s.worker.Exited? && s.terminator != NotCalled && s.terminator != Waiting && CanTerminate(f, s)
    ensures Inv(f, Terminated(f, s))
  {
    var t := Terminated(f, s);
    assert Held(s.worker) == {} == Handleless(s.worker) && t.worker == s.worker;
    BlockFreedKeepsBlocks(f, s);
    BlockFreedKeepsRest(f, s);
  }

  lemma BlockFreedKeepsRest(f: Fixed, s: State)
    requires s.terminator != NotCalled && s.terminator != Waiting && CanTerminate(f, s)
    requires OwnedExcept(s.memory, {}) && NextFreed(f, s.terminator) !in s.memory.contexts
    requires HandlesOwned(s.memory, {}, f.otherHandles + {f.thread})
    ensures OwnedExcept(Terminated(f, s).memory, {})
    ensures HandlesOwned(Terminated(f, s).memory, {}, f.otherHandles + {f.thread})
  {
    FreeOtherKeepsOwned(s.memory, {}, NextFreed(f, s.terminator));
    OtherBlockFreed(s.memory, {}, f.otherHandles + {f.thread}, NextFreed(f, s.terminator));
  }

  // ---------------------------------------------------------------------------------------------
  // Whole runs, in every interleaving
  // ---------------------------------------------------------------------------------------------

  /** The step finds the blocks it uses live and the handle of its context open. For the connection port, see
      `PortOpenIff`. */
  predicate Safe(f: Fixed, s: State, step: Step) {
    match step
    case Work(grant, _, _) => CanWork(s, grant)
    case Terminate => CanTerminate(f, s)
    case _ => true
  }

  function Next(f: Fixed, s: State, step: Step): State
    requires Enabled(f, s, step) && Safe(f, s, step)
  {
    match step
    case Receive(kind, c) => Received(s, kind, c)
    case ReceiveFails => s.(worker := Exited)
    case Work(grant, yes, clientId) => Worked(s, grant, yes, clientId)
    case Terminate => Terminated(f, s)
  }

  /** Whatever a thread can do next finds its blocks live and the context handle it closes open, and keeps
      the invariant. */
  lemma StepIsSafe(f: Fixed, s: State, step: Step)
    requires Inv(f, s) && Enabled(f, s, step)
    ensures Safe(f, s, step) && Inv(f, Next(f, s, step))
  {
    match step
    case Receive(kind, c) => ReceiveKeepsInv(f, s, kind, c);
    case ReceiveFails =>
    case Work(grant, yes, clientId) => WorkKeepsInv(f, s, grant, yes, clientId);
    case Terminate => TerminateKeepsInv(f, s);
  }

  ghost predicate IsRun(f: Fixed, s: State, steps: seq<Step>)
    decreases |steps|, 0
  {
    var n := |steps|;
    n == 0 ||
    (IsRun(f, s, steps[..n - 1]) &&
     var t := After(f, s, steps[..n - 1]);
     Enabled(f, t, steps[n - 1]) && Safe(f, t, steps[n - 1]))
  }

  function After(f: Fixed, s: State, steps: seq<Step>): State
    requires IsRun(f, s, steps)
    decreases |steps|, 1
  {
    var n := |steps|;
    if n == 0 then s else Next(f, After(f, s, steps[..n - 1]), steps[n - 1])
  }

  lemma {:induction false} RunKeepsInv(f: Fixed, s: State, steps: seq<Step>)
    requires Inv(f, s) && IsRun(f, s, steps)
    ensures Inv(f, After(f, s, steps))
    decreases |steps|
  {
    var n := |steps|;
    if n > 0 {
      RunKeepsInv(f, s, steps[..n - 1]);
      StepIsSafe(f, After(f, s, steps[..n - 1]), steps[n - 1]);
    }
  }

  /** A newly created server, before its first connection. */
  lemma CreatedServerInv(f: Fixed, m: Memory)
    requires f.Valid() && m.contexts == map[] && m.connections == map[]
    requires m.live == f.otherBlocks + {f.self, f.message, f.attributes} && NULL !in m.live
    requires m.handles == f.otherHandles + {f.port, f.thread} && NULL !in m.handles
    ensures Inv(f, State(m, Receiving, NotCalled))
  {
  }

  lemma PortOpenInState(f: Fixed, s: State)
    requires Inv(f, s)
    ensures f.port in s.memory.handles <==> s.terminator == NotCalled
    ensures f.thread in s.memory.handles
    ensures !s.worker.Exited? ==> s.terminator == NotCalled || s.terminator == Waiting
  {
  }

  /** The one handle the two threads race for: after any steps, an instruction of the worker that uses the
      connection port finds it open if and only if termination has not begun. */
  lemma PortOpenIff(f: Fixed, s: State, steps: seq<Step>)
    requires Inv(f, s) && IsRun(f, s, steps)
    ensures var t := After(f, s, steps);
      && (f.port in t.memory.handles <==> t.terminator == NotCalled)
      && (UsesPort(t.worker) ==> (f.port !in t.memory.handles <==> t.terminator == Waiting))
      && f.thread in t.memory.handles
  {
    RunKeepsInv(f, s, steps);
    PortOpenInState(f, After(f, s, steps));
  }

  /** After any steps of the two threads in any order, neither is about to touch a freed block, whatever
      it does next is safe, and the server's blocks are all live unless the worker has exited. */
  lemma NeverTouchesFreed(f: Fixed, s: State, steps: seq<Step>, step: Step)
    requires Inv(f, s) && IsRun(f, s, steps)
    ensures var t := After(f, s, steps);
      && Touched(f, t.worker) <= t.memory.live
      && TouchedByTerminator(f, t.terminator) <= t.memory.live
      && (!t.worker.Exited? ==> {f.self, f.message, f.attributes} <= t.memory.live)
      && (Enabled(f, t, step) ==> Safe(f, t, step))
  {
    RunKeepsInv(f, s, steps);
    OnlyLiveBlocksTouched(f, After(f, s, steps));
  }

  lemma WorkKeepsBooks(s: State, grant: Option<nat>, yes: bool, clientId: Bytes,
                       live0: set<Address>, handles0: set<Handle>)
    requires Working(s, grant) && Booked(s.memory, live0, handles0)
    ensures Booked(Worked(s, grant, yes, clientId).memory, live0, handles0)
  {
    var n := Worked(s, grant, yes, clientId).memory;
    match s.worker
    case ClosingHandle(_, handle) => CloseBooks(s.memory, handle, live0, handles0);
    case FreeingContext(ctx) => FreeBooks(s.memory, ctx, live0, handles0);
    case FreeingHeld(block) => FreeBooks(s.memory, block, live0, handles0);
    case Allocating(_) =>
      if grant.Some? {
        HoldBooks(s.memory, grant.value, [], live0, handles0);
      }
    case Filling(_, _) => SameBooks(s.memory, n, live0, handles0);
    case Accepting(c, block) =>
      if grant.Some? {
        HandOverBooks(s.memory, c, block, grant.value, s.memory.contexts[block].clientId, live0, handles0);
      }
    case RefusingHeld(c, _) => RecordBooks(s.memory, Refused(c), live0, handles0);
    case Refusing(c) => RecordBooks(s.memory, Refused(c), live0, handles0);
    case _ =>
  }

  lemma StepKeepsBooks(f: Fixed, s: State, step: Step, live0: set<Address>, handles0: set<Handle>)
    requires Enabled(f, s, step) && Safe(f, s, step) && Booked(s.memory, live0, handles0)
    ensures Booked(Next(f, s, step).memory, live0, handles0)
  {
    match step
    case Receive(kind, c) => ReportBooks(s.memory, c, live0, handles0);
    case ReceiveFails =>
    case Work(grant, yes, clientId) => WorkKeepsBooks(s, grant, yes, clientId, live0, handles0);
    case Terminate =>
      if s.terminator == NotCalled {
        CloseBooks(s.memory, f.port, live0, handles0);
      } else if s.terminator != Waiting {
        FreeBooks(s.memory, NextFreed(f, s.terminator), live0, handles0);
      }
  }

  lemma {:induction false} RunKeepsBooks(f: Fixed, s: State, steps: seq<Step>,
                                         live0: set<Address>, handles0: set<Handle>)
    requires IsRun(f, s, steps) && Booked(s.memory, live0, handles0)
    ensures Booked(After(f, s, steps).memory, live0, handles0)
    decreases |steps|
  {
    var n := |steps|;
    if n > 0 {
      RunKeepsBooks(f, s, steps[..n - 1], live0, handles0);
      StepKeepsBooks(f, After(f, s, steps[..n - 1]), steps[n - 1], live0, handles0);
    }
  }

  /** In every interleaving, for every address and every handle value: between two allocations there is a
      free, between two frees an allocation, and after the last allocation a free exactly if the block is not
      live; so it is with opening and closing. */
  lemma ThreadsFreeAndCloseInTurn(f: Fixed, s: State, steps: seq<Step>, live0: set<Address>, handles0: set<Handle>,
                                  r: Resource)
    requires IsRun(f, s, steps) && Booked(s.memory, live0, handles0)
    ensures var m := After(f, s, steps).memory; TakeTurns(m.ledger, r, Has(m.live, m.handles, r))
  {
    RunKeepsBooks(f, s, steps, live0, handles0);
    BooksTakeTurns(After(f, s, steps).memory, live0, handles0, r);
  }

  /** How often a block has been freed. */
  function Frees(m: Memory, block: Address): nat {
    multiset(m.ledger)[Freed(block)]
  }

  lemma WorkFreesOnlyContexts(s: State, grant: Option<nat>, yes: bool, clientId: Bytes, block: Address)
    requires Working(s, grant) && Control(s) && block !in s.memory.contexts
    ensures Frees(Worked(s, grant, yes, clientId).memory, block) == Frees(s.memory, block)
  {
  }

  lemma TerminateFreesServerBlocks(f: Fixed, s: State, block: Address)
    requires f.Valid() && CanTerminate(f, s) && block in {f.self, f.message, f.attributes}
    ensures var t := Terminated(f, s);
      && Frees(t.memory, block) == Frees(s.memory, block) +
           (if block in ServerBlocks(f, s.terminator) - ServerBlocks(f, t.terminator) then 1 else 0)
      && ServerBlocks(f, t.terminator) <= ServerBlocks(f, s.terminator)
  {
  }

  lemma StepFreesServerBlocks(f: Fixed, s: State, step: Step, block: Address)
    requires f.Valid() && Control(s) && BlocksOwned(f, s.memory, s.terminator)
    requires Enabled(f, s, step) && Safe(f, s, step) && block in {f.self, f.message, f.attributes}
    ensures var t := Next(f, s, step);
      && Frees(t.memory, block) == Frees(s.memory, block) +
           (if block in ServerBlocks(f, s.terminator) - ServerBlocks(f, t.terminator) then 1 else 0)
      && ServerBlocks(f, t.terminator) <= ServerBlocks(f, s.terminator)
  {
    match step
    case Receive(_, _) =>
    case ReceiveFails =>
    case Work(grant, yes, clientId) =>
      WorkFreesOnlyContexts(s, grant, yes, clientId, block);
    case Terminate =>
      TerminateFreesServerBlocks(f, s, block);
  }

  /** In every interleaving, each of the server's three blocks is freed at most once, exactly when it is
      no longer among the server's blocks. */
  lemma {:induction false} ServerBlocksFreedOnce(f: Fixed, s: State, steps: seq<Step>, block: Address)
    requires Inv(f, s) && s.terminator == NotCalled && IsRun(f, s, steps)
    requires block in {f.self, f.message, f.attributes} && Frees(s.memory, block) == 0
    ensures var t := After(f, s, steps);
      Frees(t.memory, block) == if block in ServerBlocks(f, t.terminator) then 0 else 1
    decreases |steps|
  {
    var n := |steps|;
    if n > 0 {
      ServerBlocksFreedOnce(f, s, steps[..n - 1], block);
      RunKeepsInv(f, s, steps[..n - 1]);
      StepFreesServerBlocks(f, After(f, s, steps[..n - 1]), steps[n - 1], block);
    }
  }

  /** When UaTerminateServer returns, what is left of the server is the thread handle and, for each
      connection whose end was not processed, its context and its handle: the heap is as before the server
      exactly if the end of every accepted connection was processed. */
  lemma LeftAfterTermination(f: Fixed, s: State, steps: seq<Step>)
    requires Inv(f, s) && IsRun(f, s, steps) && After(f, s, steps).terminator == Done
    ensures var t := After(f, s, steps);
      && t.worker == Exited && Owned(t.memory)
      && t.memory.live == f.otherBlocks + t.memory.contexts.Keys
      && t.memory.handles == f.otherHandles + {f.thread} + ContextHandles(t.memory, {})
      && (t.memory.live == f.otherBlocks <==> t.memory.connections == map[])
  {
    RunKeepsInv(f, s, steps);
    LeftWhenDone(f, After(f, s, steps));
  }

  lemma LeftWhenDone(f: Fixed, t: State)
    requires Inv(f, t) && t.terminator == Done
    ensures t.worker == Exited && Owned(t.memory)
    ensures t.memory.live == f.otherBlocks + t.memory.contexts.Keys
    ensures t.memory.handles == f.otherHandles + {f.thread} + ContextHandles(t.memory, {})
    ensures t.memory.live == f.otherBlocks <==> t.memory.connections == map[]
  {
  }

  /** Instructions left until the worker is back at the receive or has exited. */
  function Rank(w: Worker): nat {
    match w
    case Exited => 0
    case Receiving => 1
    case Dispatching(_, _, _) => 8
    case Requested => 3
    case Replying => 2
    case DatagramArrived => 3
    case Cancelling => 2
    case ReadingContext(_) => 4
    case ClosingHandle(_, _) => 3
    case FreeingContext(_) => 2
    case Asking(_) => 7
    case Allocating(_) => 6
    case Filling(_, _) => 5
    case Accepting(_, _) => 4
    case RefusingHeld(_, _) => 3
    case FreeingHeld(_) => 2
    case Refusing(_) => 2
  }

  /** The wait for the worker ends: once the port is closed, a worker that has not exited can always go
      on, only the worker can, and whatever it does brings it closer to its exit. */
  lemma WaitEnds(f: Fixed, s: State, step: Step)
    requires Inv(f, s) && s.terminator == Waiting && !s.worker.Exited?
    ensures Enabled(f, s, ReceiveFails) || Enabled(f, s, Work(None, true, []))
    ensures Enabled(f, s, step) ==>
      && Safe(f, s, step)
      && Next(f, s, step).terminator == Waiting
      && Rank(Next(f, s, step).worker) < Rank(s.worker)
  {
  }

  // ---------------------------------------------------------------------------------------------
  // The worker of the sequential model is one of these workers
  // ---------------------------------------------------------------------------------------------

  datatype CallKind = RequestCall | ReplyCall | DatagramCall | CancelCall | ConnectCall

  function KindOf(call: Call): CallKind {
    match call
    case OnRequest(_) => RequestCall
    case Reply(_) => ReplyCall
    case OnDatagram(_) => DatagramCall
    case Cancel(_) => CancelCall
    case OnConnect(_) => ConnectCall
  }

  function KindsOf(calls: seq<Call>): seq<CallKind> {
    seq(|calls|, i requires 0 <= i < |calls| => KindOf(calls[i]))
  }

  /** The calls a step makes, of those that the sequential model logs. */
  function Makes(w: Worker, step: Step): seq<CallKind> {
    if !step.Work? then [] else
    match w
    case Requested => [RequestCall]
    case Replying => [ReplyCall]
    case DatagramArrived => [DatagramCall]
    case Cancelling => [CancelCall]
    case Asking(_) => [ConnectCall]
    case _ => []
  }

  /** The events a step adds to the ledger. */
  function Adds(m: Memory, n: Memory): seq<Event> {
    if |m.ledger| <= |n.ledger| then n.ledger[|m.ledger|..] else []
  }

  /** `Touched` and `UsesPort` leave out nothing that an instruction of the worker does: the context it frees,
      fills or reads the handle of, the message of the calls it makes, the attributes of a cancel, and the port of
      the calls to the kernel and of every verdict. */
  lemma WorkTouchesWhatItUses(f: Fixed, s: State, grant: Option<nat>, yes: bool, clientId: Bytes)
    requires Working(s, grant) && s.memory.contexts.Keys <= s.memory.live
    ensures var t, calls := Worked(s, grant, yes, clientId), Makes(s.worker, Work(grant, yes, clientId));
      && (forall e :: e in Adds(s.memory, t.memory) ==>
           && (e.Freed? ==> e.block in Touched(f, s.worker))
           && (e.Accepted? || e.Refused? ==> UsesPort(s.worker) && f.self in Touched(f, s.worker)))
      && (forall a :: a in s.memory.contexts && a in t.memory.contexts && a !in Touched(f, s.worker) ==>
           s.memory.contexts[a] == t.memory.contexts[a])
      && (t.worker.ClosingHandle? ==> t.worker.ctx in Touched(f, s.worker))
      && (|calls| != 0 ==> f.self in Touched(f, s.worker))
      && (|calls| != 0 && calls[0] != CancelCall ==> f.message in Touched(f, s.worker))
      && (|calls| != 0 && (calls[0] == CancelCall || calls[0] == DatagramCall) ==> f.attributes in Touched(f, s.worker))
      && (|calls| != 0 && (calls[0] == CancelCall || calls[0] == ReplyCall) ==> UsesPort(s.worker))
  {
  }

  /** So it is with the terminating thread and the blocks it frees. */
  lemma TerminationTouchesWhatItFrees(f: Fixed, s: State)
    requires CanTerminate(f, s)
    ensures forall e :: e in Adds(s.memory, Terminated(f, s).memory) && e.Freed? ==>
      e.block in TouchedByTerminator(f, s.terminator)
  {
  }

  function Trace(f: Fixed, s: State, steps: seq<Step>): seq<CallKind>
    requires IsRun(f, s, steps)
    decreases |steps|
  {
    var n := |steps|;
    if n == 0 then [] else
    Trace(f, s, steps[..n - 1]) + Makes(After(f, s, steps[..n - 1]).worker, steps[n - 1])
  }

  /** The steps lead from one state to the other and make these calls. */
  ghost predicate Leads(f: Fixed, s: State, steps: seq<Step>, t: State, calls: seq<CallKind>) {
    IsRun(f, s, steps) && After(f, s, steps) == t && Trace(f, s, steps) == calls
  }

  lemma LeadsNext(f: Fixed, s: State, steps: seq<Step>, t: State, calls: seq<CallKind>, step: Step)
    requires Leads(f, s, steps, t, calls) && Enabled(f, t, step) && Safe(f, t, step)
    ensures Leads(f, s, steps + [step], Next(f, t, step), calls + Makes(t.worker, step))
  {
    var longer := steps + [step];
    assert longer[..|longer| - 1] == steps;
  }

  lemma RegroupLast<T>(a: seq<T>, b: seq<T>)
    requires b != []
    ensures (a + b[..|b| - 1]) + [b[|b| - 1]] == a + b
  {
  }

  lemma {:induction false} LeadsOn(f: Fixed, s: State, a: seq<Step>, t: State, x: seq<CallKind>,
                                   b: seq<Step>, u: State, y: seq<CallKind>)
    requires Leads(f, s, a, t, x) && Leads(f, t, b, u, y)
    ensures Leads(f, s, a + b, u, x + y)
    decreases |b|
  {
    if b == [] {
      assert a + b == a && x + y == x;
    } else {
      var before, calls := LeadsToLast(f, t, b, u, y);
      var last := b[|b| - 1];
      LeadsOn(f, s, a, t, x, b[..|b| - 1], before, calls);
      LeadsNext(f, s, a + b[..|b| - 1], before, x + calls, last);
      RegroupLast(a, b);
      Regroup(x, calls, Makes(before.worker, last));
    }
  }

  /** The last step of a run. */
  lemma LeadsToLast(f: Fixed, s: State, steps: seq<Step>, t: State, calls: seq<CallKind>)
    returns (before: State, made: seq<CallKind>)
    requires Leads(f, s, steps, t, calls) && steps != []
    ensures var last := |steps| - 1;
      && Leads(f, s, steps[..last], before, made)
      && Enabled(f, before, steps[last]) && Safe(f, before, steps[last])
      && t == Next(f, before, steps[last]) && calls == made + Makes(before.worker, steps[last])
  {
    before, made := After(f, s, steps[..|steps| - 1]), Trace(f, s, steps[..|steps| - 1]);
  }

  /** States of the worker while the terminating thread has not been called. */
  function Alone(m: Memory, w: Worker): State {
    State(m, w, NotCalled)
  }

  function Between(m: Memory): State {
    Alone(m, Receiving)
  }

  /** An instruction that has only one outcome, or whose outcome is that nothing is granted. */
  const ONWARD: Step := Work(None, true, [])

  /** The instructions that receive one message and process it. */
  function Instructions(l: Layout, d: Delivery): seq<Step> {
    if |d.message| < l.HeaderSize() then [] else
    var kind := Kind(d.message);
    var received := [Receive(kind, d.connection)] + [ONWARD];
    if kind == LPC_REQUEST then received + [ONWARD] + [ONWARD]
    else if kind == LPC_DATAGRAM then
      var notified := received + [Work(None, ContinuationRequired(d.message), [])];
      if ContinuationRequired(d.message) then notified + [ONWARD] else notified
    else if IsDisconnect(kind) then received + [ONWARD] + [ONWARD] + [ONWARD]
    else if kind == LPC_CONNECTION_REQUEST then
      var asked := received + [Work(None, d.wanted, [])];
      if !d.wanted then asked + [ONWARD]
      else if d.block == None then asked + [ONWARD] + [ONWARD]
      else
        var filled := asked + [Work(d.block, true, [])] + [Work(None, true, ClientId(l, d.message))];
        var answered := filled + [Work(d.accepted, true, [])];
        if d.accepted.Some? then answered else answered + [ONWARD] + [ONWARD]
    else received
  }

  function AllInstructions(l: Layout, script: seq<Delivery>): seq<Step> {
    if |script| == 0 then [] else Instructions(l, script[0]) + AllInstructions(l, script[1..])
  }

  /** The receive, and the choice of the branch. */
  lemma SoloReceive(f: Fixed, m: Memory, kind: Byte, c: Connection)
    requires IsDisconnect(kind) ==> c in m.connections
    requires kind == LPC_CONNECTION_REQUEST ==> c !in m.connections
    ensures Leads(f, Between(m), [Receive(kind, c)] + [ONWARD],
      Worked(Received(Between(m), kind, c), None, true, []), [])
  {
    var s, r := Between(m), Received(Between(m), kind, c);
    assert Leads(f, s, [], s, []);
    LeadsNext(f, s, [], s, [], Receive(kind, c));
    assert [] + [Receive(kind, c)] == [Receive(kind, c)];
    LeadsNext(f, s, [Receive(kind, c)], r, [], ONWARD);
  }

  lemma SoloRequest(f: Fixed, m: Memory, c: Connection)
    ensures Leads(f, Between(m), [Receive(LPC_REQUEST, c)] + [ONWARD] + [ONWARD] + [ONWARD], Between(m),
      [RequestCall, ReplyCall])
  {
    var s, received := Between(m), [Receive(LPC_REQUEST, c)] + [ONWARD];
    SoloReceive(f, m, LPC_REQUEST, c);
    LeadsNext(f, s, received, Alone(m, Requested), [], ONWARD);
    LeadsNext(f, s, received + [ONWARD], Alone(m, Replying), [RequestCall], ONWARD);
    assert [RequestCall] + [ReplyCall] == [RequestCall, ReplyCall];
  }

  lemma SoloDatagram(f: Fixed, m: Memory, c: Connection, continued: bool)
    ensures var notified := [Receive(LPC_DATAGRAM, c)] + [ONWARD] + [Work(None, continued, [])];
      if continued then Leads(f, Between(m), notified + [ONWARD], Between(m), [DatagramCall, CancelCall])
      else Leads(f, Between(m), notified, Between(m), [DatagramCall])
  {
    var s, received := Between(m), [Receive(LPC_DATAGRAM, c)] + [ONWARD];
    SoloReceive(f, m, LPC_DATAGRAM, c);
    LeadsNext(f, s, received, Alone(m, DatagramArrived), [], Work(None, continued, []));
    if continued {
      LeadsNext(f, s, received + [Work(None, true, [])], Alone(m, Cancelling), [DatagramCall], ONWARD);
      assert [DatagramCall] + [CancelCall] == [DatagramCall, CancelCall];
    }
  }

  /** The end of a connection. */
  lemma SoloDisconnect(f: Fixed, m: Memory, kind: Byte, c: Connection)
    requires IsDisconnect(kind) && Owned(m) && c in m.connections
    ensures Leads(f, Between(m), [Receive(kind, c)] + [ONWARD] + [ONWARD] + [ONWARD] + [ONWARD],
      Between(Disconnect(m, c)), [])
  {
    var ctx := m.connections[c].context;
    var handle := m.contexts[ctx].communicationPortHandle;
    var reported := Report(m, c);
    var s, received := Between(m), [Receive(kind, c)] + [ONWARD];
    OwnedDisconnectSucceeds(m, c);
    SoloReceive(f, m, kind, c);
    LeadsNext(f, s, received, Alone(reported, ReadingContext(ctx)), [], ONWARD);
    LeadsNext(f, s, received + [ONWARD], Alone(reported, ClosingHandle(ctx, handle)), [], ONWARD);
    LeadsNext(f, s, received + [ONWARD] + [ONWARD], Alone(Close(reported, handle), FreeingContext(ctx)), [], ONWARD);
  }

  /** The steps of a connection request until OnConnect has answered. */
  function Asked(c: Connection, wanted: bool): seq<Step> {
    [Receive(LPC_CONNECTION_REQUEST, c)] + [ONWARD] + [Work(None, wanted, [])]
  }

  lemma SoloAsk(f: Fixed, m: Memory, c: Connection, wanted: bool)
    requires c !in m.connections
    ensures Leads(f, Between(m), Asked(c, wanted), Alone(m, if wanted then Allocating(c) else Refusing(c)),
      [ConnectCall])
  {
    SoloReceive(f, m, LPC_CONNECTION_REQUEST, c);
    LeadsNext(f, Between(m), [Receive(LPC_CONNECTION_REQUEST, c)] + [ONWARD], Alone(m, Asking(c)), [],
      Work(None, wanted, []));
  }

  lemma SoloRefuse(f: Fixed, m: Memory, c: Connection, wanted: bool)
    requires c !in m.connections
    ensures var n := Record(m, Refused(c));
      Leads(f, Between(m), if wanted then Asked(c, true) + [ONWARD] + [ONWARD] else Asked(c, false) + [ONWARD],
        Between(n), [ConnectCall])
  {
    SoloAsk(f, m, c, wanted);
    if wanted {
      LeadsNext(f, Between(m), Asked(c, true), Alone(m, Allocating(c)), [ConnectCall], ONWARD);
      LeadsNext(f, Between(m), Asked(c, true) + [ONWARD], Alone(m, Refusing(c)), [ConnectCall], ONWARD);
    } else {
      LeadsNext(f, Between(m), Asked(c, false), Alone(m, Refusing(c)), [ConnectCall], ONWARD);
    }
  }

  lemma StoreClientId(m: Memory, block: Address, clientId: Bytes)
    requires block !in m.live
    ensures var held := HoldContext(m, block, []);
      held.(contexts := held.contexts[block := PortContext(clientId, NULL)]) == HoldContext(m, block, clientId)
  {
    assert HoldContext(m, block, []).contexts[block := PortContext(clientId, NULL)] ==
      HoldContext(m, block, clientId).contexts;
  }

  lemma SoloFill(f: Fixed, m: Memory, c: Connection, block: Address, clientId: Bytes)
    requires c !in m.connections && Grantable(m, Some(block))
    ensures Leads(f, Between(m), Asked(c, true) + [Work(Some(block), true, [])] + [Work(None, true, clientId)],
      Alone(HoldContext(m, block, clientId), Accepting(c, block)), [ConnectCall])
  {
    var held := HoldContext(m, block, []);
    StoreClientId(m, block, clientId);
    SoloAsk(f, m, c, true);
    LeadsNext(f, Between(m), Asked(c, true), Alone(m, Allocating(c)), [ConnectCall], Work(Some(block), true, []));
    LeadsNext(f, Between(m), Asked(c, true) + [Work(Some(block), true, [])], Alone(held, Filling(c, block)),
      [ConnectCall], Work(None, true, clientId));
  }

  lemma SoloAccept(f: Fixed, m: Memory, c: Connection, block: Address, handle: Option<Handle>, clientId: Bytes)
    requires c !in m.connections && Grantable(m, Some(block)) && Openable(m, handle)
    ensures var filled := Asked(c, true) + [Work(Some(block), true, [])] + [Work(None, true, clientId)];
      var answered := filled + [Work(handle, true, [])];
      if handle.Some? then
        Leads(f, Between(m), answered, Between(Give(m, c, block, handle.value, clientId, clientId)), [ConnectCall])
      else
        Leads(f, Between(m), answered + [ONWARD] + [ONWARD], Between(TakeBack(m, c, block, clientId)), [ConnectCall])
  {
    var held := HoldContext(m, block, clientId);
    var filled := Asked(c, true) + [Work(Some(block), true, [])] + [Work(None, true, clientId)];
    var answered := filled + [Work(handle, true, [])];
    SoloFill(f, m, c, block, clientId);
    LeadsNext(f, Between(m), filled, Alone(held, Accepting(c, block)), [ConnectCall], Work(handle, true, []));
    if handle == None {
      LeadsNext(f, Between(m), answered, Alone(held, RefusingHeld(c, block)), [ConnectCall], ONWARD);
      LeadsNext(f, Between(m), answered + [ONWARD], Alone(Record(held, Refused(c)), FreeingHeld(block)),
        [ConnectCall], ONWARD);
    }
  }

  lemma SoloConnect(f: Fixed, l: Layout, m: Memory, d: Delivery)
    requires |d.message| >= l.HeaderSize() && Kind(d.message) == LPC_CONNECTION_REQUEST
    requires Owned(m) && d.connection !in m.connections && Grantable(m, d.block) && Openable(m, d.accepted)
    ensures var clientId := ClientId(l, d.message);
      Leads(f, Between(m), Instructions(l, d), Between(Connect(m, d, clientId, clientId)), [ConnectCall])
  {
    if !d.wanted || d.block == None {
      SoloRefuse(f, m, d.connection, d.wanted);
    } else {
      SoloAccept(f, m, d.connection, d.block.value, d.accepted, ClientId(l, d.message));
    }
  }

  /** The kinds of call that a message asks for. */
  lemma ExpectedKinds(l: Layout, d: Delivery)
    requires IsMessage(l, d.message)
    ensures KindsOf(Expected(l, d)) ==
      if Kind(d.message) == LPC_REQUEST then [RequestCall, ReplyCall]
      else if Kind(d.message) == LPC_DATAGRAM && ContinuationRequired(d.message) then [DatagramCall, CancelCall]
      else if Kind(d.message) == LPC_DATAGRAM then [DatagramCall]
      else if Kind(d.message) == LPC_CONNECTION_REQUEST then [ConnectCall]
      else []
  {
  }

  /** The kinds of message that leave the memory alone. */
  lemma SoloQuiet(f: Fixed, l: Layout, m: Memory, d: Delivery)
    requires IsMessage(l, d.message)
    requires !IsDisconnect(Kind(d.message)) && Kind(d.message) != LPC_CONNECTION_REQUEST
    ensures Leads(f, Between(m), Instructions(l, d), Between(m), KindsOf(Expected(l, d)))
  {
    ExpectedKinds(l, d);
    var kind := Kind(d.message);
    if kind == LPC_REQUEST {
      SoloRequest(f, m, d.connection);
    } else if kind == LPC_DATAGRAM {
      SoloDatagram(f, m, d.connection, ContinuationRequired(d.message));
    } else {
      SoloReceive(f, m, kind, d.connection);
    }
  }

  lemma SoloDelivery(f: Fixed, l: Layout, m: Memory, d: Delivery)
    requires Owned(m) && IsMessage(l, d.message)
    requires IsDisconnect(Kind(d.message)) ==> d.connection in m.connections
    requires Kind(d.message) == LPC_CONNECTION_REQUEST ==>
      d.connection !in m.connections && Grantable(m, d.block) && Openable(m, d.accepted)
    ensures Leads(f, Between(m), Instructions(l, d), Between(MemoryAfter(l, m, d, true)), KindsOf(Expected(l, d)))
  {
    ExpectedKinds(l, d);
    if IsDisconnect(Kind(d.message)) {
      SoloDisconnect(f, m, Kind(d.message), d.connection);
    } else if Kind(d.message) == LPC_CONNECTION_REQUEST {
      SoloConnect(f, l, m, d);
    } else {
      SoloQuiet(f, l, m, d);
    }
  }

  /** Each delivery, whatever its kind and outcome, is its instructions: same memory, same calls. */
  lemma SoloServe(f: Fixed, l: Layout, w: World, d: Delivery)
    requires Ready(l, w) && Plausible(l, w, d)
    ensures Leads(f, Between(w.memory), Instructions(l, d), Between(Serve(l, w, d, true).0.memory),
      KindsOf(Expected(l, d)))
  {
    ServeMemory(l, w, d, true);
    SoloDelivery(f, l, w.memory, d);
  }

  lemma KindsConcat(a: seq<Call>, b: seq<Call>)
    ensures KindsOf(a + b) == KindsOf(a) + KindsOf(b)
  {
  }

  /** Whatever the messages and outcomes, the worker loop of the sequential model is, delivery by delivery, the
      instruction-by-instruction worker: the same steps, calls and memory. */
  lemma {:induction false} SequentialRunIsInterleaved(f: Fixed, l: Layout, w: World, script: seq<Delivery>)
    requires Ready(l, w) && IsScript(l, w, script, true)
    ensures Leads(f, Between(w.memory), AllInstructions(l, script),
      Between(Run(l, w, script, true).world.memory), KindsOf(ExpectedCalls(l, script)))
    decreases |script|
  {
    if |script| != 0 {
      RunStep(l, w, script, true);
      ServeCalls(l, w, script[0], true);
      SoloServe(f, l, w, script[0]);
      var next := Serve(l, w, script[0], true).0;
      SequentialRunIsInterleaved(f, l, next, script[1..]);
      LeadsOn(f, Between(w.memory), Instructions(l, script[0]), Between(next.memory), KindsOf(Expected(l, script[0])),
        AllInstructions(l, script[1..]), Between(Run(l, next, script[1..], true).world.memory),
        KindsOf(ExpectedCalls(l, script[1..])));
      KindsConcat(Expected(l, script[0]), ExpectedCalls(l, script[1..]));
    }
  }

  /** A run stopped before any of its steps is a run, and termination that has not begun in the end had
      not begun there. */
  lemma {:induction false} RunUpTo(f: Fixed, s: State, steps: seq<Step>, n: nat)
    requires IsRun(f, s, steps) && n <= |steps|
    ensures IsRun(f, s, steps[..n])
    ensures After(f, s, steps).terminator == NotCalled ==> After(f, s, steps[..n]).terminator == NotCalled
    ensures n < |steps| ==> Enabled(f, After(f, s, steps[..n]), steps[n])
    decreases |steps|
  {
    var last := |steps| - 1;
    if n <= last {
      RunUpTo(f, s, steps[..last], n);
      assert steps[..last][..n] == steps[..n];
    } else {
      assert steps[..n] == steps;
    }
  }

  /** So at every instruction of every run of the sequential worker, the blocks it touches are live, the
      connection port it uses is open, and what it does is safe. */
  lemma SequentialRunIsSafe(f: Fixed, l: Layout, w: World, script: seq<Delivery>, n: nat)
    requires Ready(l, w) && IsScript(l, w, script, true) && Inv(f, Between(w.memory))
    requires n < |AllInstructions(l, script)|
    ensures var steps := AllInstructions(l, script);
      && IsRun(f, Between(w.memory), steps[..n])
      && var t := After(f, Between(w.memory), steps[..n]);
      && Touched(f, t.worker) <= t.memory.live
      && f.port in t.memory.handles
      && Enabled(f, t, steps[n]) && Safe(f, t, steps[n])
  {
    var s, steps := Between(w.memory), AllInstructions(l, script);
    SequentialRunIsInterleaved(f, l, w, script);
    RunUpTo(f, s, steps, n);
    NeverTouchesFreed(f, s, steps[..n], steps[n]);
    PortOpenIff(f, s, steps[..n]);
  }

  /** The port is not open at every instruction in every interleaving: for every created server there is a run
      in which the worker is about to reply, which is safe for all blocks, over a port that is closed. */
  lemma ReplyOverClosedPort(f: Fixed, m: Memory, c: Connection)
    requires Inv(f, Between(m))
    ensures var steps := [Receive(LPC_REQUEST, c)] + [ONWARD] + [ONWARD] + [Terminate];
      && IsRun(f, Between(m), steps)
      && var t := After(f, Between(m), steps);
      && t.worker == Replying && UsesPort(t.worker) && f.port !in t.memory.handles
      && Enabled(f, t, ONWARD) && Safe(f, t, ONWARD)
  {
    var s, received := Between(m), [Receive(LPC_REQUEST, c)] + [ONWARD];
    SoloReceive(f, m, LPC_REQUEST, c);
    LeadsNext(f, s, received, Alone(m, Requested), [], ONWARD);
    PortOpenInState(f, s);
    LeadsNext(f, s, received + [ONWARD], Alone(m, Replying), [RequestCall], Terminate);
  }
}
