/** The heap blocks and handles of one process, the kernel's table of accepted connections,
    and a ledger of everything that was allocated, freed, opened and closed. */
module ProcessMemory {
  import opened Words

  type Address = nat
  type Handle = nat
  type Connection = nat

  const NULL: nat := 0

  /** PORT_CONTEXT. A fresh one is zero-filled, so its handle is NULL. */
  datatype PortContext = PortContext(clientId: Bytes, communicationPortHandle: Handle)

  /** What the kernel remembers of an accepted connection until it reports its end. */
  datatype Link = Link(context: Address, clientId: Bytes)

  datatype Event =
    | Allocated(block: Address)
    | Freed(block: Address)
    | Opened(handle: Handle)
    | Closed(handle: Handle)
    | Accepted(connection: Connection)
    | Refused(connection: Connection)
    | Disconnected(connection: Connection)

  datatype Memory = Memory(
    live: set<Address>,
    contexts: map<Address, PortContext>,
    handles: set<Handle>,
    connections: map<Connection, Link>,
    ledger: seq<Event>)

  // The allocator may hand out any block that is not live; addresses and handle values come back into use.

  predicate Grantable(m: Memory, block: Option<Address>) {
    block.Some? ==> block.value != NULL && block.value !in m.live
  }

  predicate Openable(m: Memory, handle: Option<Handle>) {
    handle.Some? ==> handle.value != NULL && handle.value !in m.handles
  }

  function Malloc(m: Memory, block: Address): Memory
    requires block !in m.live
  {
    m.(live := m.live + {block}, ledger := m.ledger + [Allocated(block)])
  }

  function Free(m: Memory, block: Address): (n: Memory)
    requires block in m.live
    ensures block !in m.contexts ==> n.contexts == m.contexts
  {
    m.(live := m.live - {block}, contexts := m.contexts - {block}, ledger := m.ledger + [Freed(block)])
  }

  function Open(m: Memory, handle: Handle): Memory
    requires handle !in m.handles
  {
    m.(handles := m.handles + {handle}, ledger := m.ledger + [Opened(handle)])
  }

  function Close(m: Memory, handle: Handle): Memory
    requires handle in m.handles
  {
    m.(handles := m.handles - {handle}, ledger := m.ledger + [Closed(handle)])
  }

  /** NtClose: a value that is no open handle is refused and changes nothing. */
  function NtClosed(m: Memory, handle: Handle): Memory {
    if handle in m.handles then Close(m, handle) else m
  }

  function Record(m: Memory, event: Event): Memory {
    m.(ledger := m.ledger + [event])
  }

  // ---------------------------------------------------------------------------------------------
  // What the ledger says about one block or one handle
  // ---------------------------------------------------------------------------------------------

  datatype Resource = Block(address: Address) | OpenHandle(handle: Handle)

  function Gain(r: Resource): Event {
    match r
    case Block(a) => Allocated(a)
    case OpenHandle(h) => Opened(h)
  }

  function Loss(r: Resource): Event {
    match r
    case Block(a) => Freed(a)
    case OpenHandle(h) => Closed(h)
  }

  predicate Has(live: set<Address>, handles: set<Handle>, r: Resource) {
    match r
    case Block(a) => a in live
    case OpenHandle(h) => h in handles
  }

  /** Whether the block is live, or the handle open, after the events of a ledger. */
  predicate HeldAfter(first: bool, ledger: seq<Event>, r: Resource) {
    if ledger == [] then first else
    var e := ledger[|ledger| - 1];
    e == Gain(r) || (e != Loss(r) && HeldAfter(first, ledger[..|ledger| - 1], r))
  }

  /** No event of the ledger yields what is held, or gives up what is not. */
  predicate Legal(first: bool, ledger: seq<Event>, r: Resource) {
    ledger == [] ||
    var e, before := ledger[|ledger| - 1], ledger[..|ledger| - 1];
    && Legal(first, before, r)
    && (e == Gain(r) ==> !HeldAfter(first, before, r))
    && (e == Loss(r) ==> HeldAfter(first, before, r))
  }

  /** The ledger accounts for every block and every handle from the first event on. */
  ghost predicate Booked(m: Memory, live0: set<Address>, handles0: set<Handle>) {
    forall r :: Legal(Has(live0, handles0, r), m.ledger, r)
      && (Has(m.live, m.handles, r) <==> HeldAfter(Has(live0, handles0, r), m.ledger, r))
  }

  lemma EventBooked(first: bool, ledger: seq<Event>, e: Event, r: Resource)
    requires Legal(first, ledger, r)
    requires e == Gain(r) ==> !HeldAfter(first, ledger, r)
    requires e == Loss(r) ==> HeldAfter(first, ledger, r)
    ensures Legal(first, ledger + [e], r)
    ensures HeldAfter(first, ledger + [e], r) <==> e == Gain(r) || (e != Loss(r) && HeldAfter(first, ledger, r))
  {
    assert (ledger + [e])[..|ledger|] == ledger;
  }

  /** An event whose effect on the memory is what it says keeps the books. */
  lemma StepBooks(m: Memory, n: Memory, e: Event, live0: set<Address>, handles0: set<Handle>)
    requires Booked(m, live0, handles0) && n.ledger == m.ledger + [e]
    requires forall r :: (e == Gain(r) ==> !Has(m.live, m.handles, r)) && (e == Loss(r) ==> Has(m.live, m.handles, r))
    requires forall r :: Has(n.live, n.handles, r) <==> e == Gain(r) || (e != Loss(r) && Has(m.live, m.handles, r))
    ensures Booked(n, live0, handles0)
  {
    forall r ensures Legal(Has(live0, handles0, r), n.ledger, r)
      && (Has(n.live, n.handles, r) <==> HeldAfter(Has(live0, handles0, r), n.ledger, r))
    {
      EventBooked(Has(live0, handles0, r), m.ledger, e, r);
    }
  }

  lemma MallocBooks(m: Memory, block: Address, live0: set<Address>, handles0: set<Handle>)
    requires Booked(m, live0, handles0) && block !in m.live
    ensures Booked(Malloc(m, block), live0, handles0)
  {
    StepBooks(m, Malloc(m, block), Allocated(block), live0, handles0);
  }

  lemma FreeBooks(m: Memory, block: Address, live0: set<Address>, handles0: set<Handle>)
    requires Booked(m, live0, handles0) && block in m.live
    ensures Booked(Free(m, block), live0, handles0)
  {
    StepBooks(m, Free(m, block), Freed(block), live0, handles0);
  }

  lemma OpenBooks(m: Memory, handle: Handle, live0: set<Address>, handles0: set<Handle>)
    requires Booked(m, live0, handles0) && handle !in m.handles
    ensures Booked(Open(m, handle), live0, handles0)
  {
    StepBooks(m, Open(m, handle), Opened(handle), live0, handles0);
  }

  lemma CloseBooks(m: Memory, handle: Handle, live0: set<Address>, handles0: set<Handle>)
    requires Booked(m, live0, handles0)
    ensures Booked(NtClosed(m, handle), live0, handles0)
  {
    if handle in m.handles {
      StepBooks(m, Close(m, handle), Closed(handle), live0, handles0);
    }
  }

  /** Verdicts and disconnections leave the books alone. */
  lemma RecordBooks(m: Memory, event: Event, live0: set<Address>, handles0: set<Handle>)
    requires Booked(m, live0, handles0)
    requires event.Accepted? || event.Refused? || event.Disconnected?
    ensures Booked(Record(m, event), live0, handles0)
  {
    StepBooks(m, Record(m, event), event, live0, handles0);
  }

  lemma {:induction false} LegalPrefix(first: bool, ledger: seq<Event>, r: Resource, n: nat)
    requires Legal(first, ledger, r) && n <= |ledger|
    ensures Legal(first, ledger[..n], r)
    decreases |ledger|
  {
    if n < |ledger| {
      LegalPrefix(first, ledger[..|ledger| - 1], r, n);
      assert ledger[..|ledger| - 1][..n] == ledger[..n];
    } else {
      assert ledger[..n] == ledger;
    }
  }

  /** What an event leads to. */
  lemma HeldStep(first: bool, ledger: seq<Event>, r: Resource, n: nat)
    requires Legal(first, ledger, r) && n < |ledger|
    ensures ledger[n] == Gain(r) ==> !HeldAfter(first, ledger[..n], r) && HeldAfter(first, ledger[..n + 1], r)
    ensures ledger[n] == Loss(r) ==> HeldAfter(first, ledger[..n], r) && !HeldAfter(first, ledger[..n + 1], r)
    ensures ledger[n] != Gain(r) && ledger[n] != Loss(r) ==>
      (HeldAfter(first, ledger[..n + 1], r) <==> HeldAfter(first, ledger[..n], r))
  {
    LegalPrefix(first, ledger, r, n + 1);
    assert ledger[..n + 1][..n] == ledger[..n];
  }

  /** What is held stays held until it is given up, and the other way round. */
  lemma {:induction false} StaysAsItIs(first: bool, ledger: seq<Event>, r: Resource, i: nat, j: nat)
    requires Legal(first, ledger, r) && i <= j <= |ledger|
    requires forall k :: i <= k < j ==> ledger[k] != if HeldAfter(first, ledger[..i], r) then Loss(r) else Gain(r)
    ensures HeldAfter(first, ledger[..j], r) <==> HeldAfter(first, ledger[..i], r)
    decreases j
  {
    if i < j {
      StaysAsItIs(first, ledger, r, i, j - 1);
      HeldStep(first, ledger, r, j - 1);
    }
  }

  ghost predicate OccursBetween(ledger: seq<Event>, e: Event, i: int, j: int) {
    exists k :: 0 <= i < k < j <= |ledger| && ledger[k] == e
  }

  /** Gains and losses of one resource take turns: between two gains there is a loss, between two losses
      a gain; and after its last gain there is a loss exactly if it is not held in the end. */
  ghost predicate TakeTurns(ledger: seq<Event>, r: Resource, held: bool) {
    && (forall i, j :: 0 <= i < j < |ledger| && ledger[i] == Gain(r) && ledger[j] == Gain(r) ==>
         OccursBetween(ledger, Loss(r), i, j))
    && (forall i, j :: 0 <= i < j < |ledger| && ledger[i] == Loss(r) && ledger[j] == Loss(r) ==>
         OccursBetween(ledger, Gain(r), i, j))
    && (forall i :: 0 <= i < |ledger| && ledger[i] == Gain(r) && !OccursBetween(ledger, Gain(r), i, |ledger|) ==>
         (OccursBetween(ledger, Loss(r), i, |ledger|) <==> !held))
  }

  lemma SomethingBetween(first: bool, ledger: seq<Event>, r: Resource, i: nat, j: nat)
    requires Legal(first, ledger, r) && i < j < |ledger| && ledger[i] == ledger[j]
    requires ledger[i] == Gain(r) || ledger[i] == Loss(r)
    ensures OccursBetween(ledger, if ledger[i] == Gain(r) then Loss(r) else Gain(r), i, j)
  {
    var other := if ledger[i] == Gain(r) then Loss(r) else Gain(r);
    HeldStep(first, ledger, r, i);
    HeldStep(first, ledger, r, j);
    if !OccursBetween(ledger, other, i, j) {
      StaysAsItIs(first, ledger, r, i + 1, j);
      assert false;
    }
  }

  lemma LossAfterLastGain(first: bool, ledger: seq<Event>, r: Resource, i: nat)
    requires Legal(first, ledger, r) && i < |ledger| && ledger[i] == Gain(r)
    requires !OccursBetween(ledger, Gain(r), i, |ledger|)
    ensures OccursBetween(ledger, Loss(r), i, |ledger|) <==> !HeldAfter(first, ledger, r)
  {
    assert ledger[..|ledger|] == ledger;
    HeldStep(first, ledger, r, i);
    if OccursBetween(ledger, Loss(r), i, |ledger|) {
      var k :| i < k < |ledger| && ledger[k] == Loss(r);
      HeldStep(first, ledger, r, k);
      StaysAsItIs(first, ledger, r, k + 1, |ledger|);
    } else {
      StaysAsItIs(first, ledger, r, i + 1, |ledger|);
    }
  }

  /** In books that are kept, every block and every handle takes turns. */
  lemma BooksTakeTurns(m: Memory, live0: set<Address>, handles0: set<Handle>, r: Resource)
    requires Booked(m, live0, handles0)
    ensures TakeTurns(m.ledger, r, Has(m.live, m.handles, r))
  {
    var first, ledger := Has(live0, handles0, r), m.ledger;
    assert Legal(first, ledger, r) && (Has(m.live, m.handles, r) <==> HeldAfter(first, ledger, r));
    forall i, j | 0 <= i < j < |ledger| && ledger[i] == ledger[j] && (ledger[i] == Gain(r) || ledger[i] == Loss(r))
      ensures OccursBetween(ledger, if ledger[i] == Gain(r) then Loss(r) else Gain(r), i, j)
    {
      SomethingBetween(first, ledger, r, i, j);
    }
    forall i | 0 <= i < |ledger| && ledger[i] == Gain(r) && !OccursBetween(ledger, Gain(r), i, |ledger|)
      ensures OccursBetween(ledger, Loss(r), i, |ledger|) <==> !HeldAfter(first, ledger, r)
    {
      LossAfterLastGain(first, ledger, r, i);
    }
  }

  /** The running process: the one place where blocks and handles change. */
  class Process {
    var memory: Memory

    constructor (memory: Memory)
      ensures this.memory == memory
    {
      this.memory := memory;
    }

    /** malloc: NULL when the allocator grants nothing. */
    method Allocate(grant: Option<Address>) returns (block: Address)
      requires Grantable(memory, grant)
      modifies this
      ensures grant == None ==> block == NULL && memory == old(memory)
      ensures grant.Some? ==> block == grant.value != NULL && memory == Malloc(old(memory), block)
    {
      if grant == None {
        return NULL;
      }
      block := grant.value;
      memory := Malloc(memory, block);
    }

    method FreeBlock(block: Address)
      requires block in memory.live
      modifies this
      ensures memory == Free(old(memory), block)
    {
      memory := Free(memory, block);
    }

    /** A system call that opens a handle; a failed one leaves its out-handle as it was. */
    method OpenHandle(grant: Option<Handle>, was: Handle) returns (handle: Handle)
      requires Openable(memory, grant)
      modifies this
      ensures grant == None ==> handle == was && memory == old(memory)
      ensures grant.Some? ==> handle == grant.value != NULL && memory == Open(old(memory), handle)
    {
      if grant == None {
        return was;
      }
      handle := grant.value;
      memory := Open(memory, handle);
    }

    /** The status says whether the handle was open. */
    method NtClose(handle: Handle) returns (success: bool)
      modifies this
      ensures success <==> handle in old(memory.handles)
      ensures memory == NtClosed(old(memory), handle)
    {
      if handle !in memory.handles {
        return false;
      }
      memory := Close(memory, handle);
      success := true;
    }
  }
}
