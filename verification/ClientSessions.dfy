/** Any sequence of client calls: what the contracts of connecting, sending and disconnecting, in all
    client forms, add up to for the heap and the handle table. */
module ClientSessions {
  import opened ProcessMemory

  /** What a connected client owns: no block, one or two, and its handle. */
  datatype Holding = Holding(blocks: set<Address>, handle: Handle)

  datatype Call =
    | Unchanged                      // a send on any path, or a connect that failed
    | Connected(client: Holding)
    | Disconnected(client: Holding)

  /** The effect of one call on the process; the contracts of the client methods promise it. */
  predicate Performs(before: Memory, after: Memory, call: Call) {
    match call
    case Unchanged =>
      after.live == before.live && after.handles == before.handles
    case Connected(c) =>
      && c.blocks !! before.live && c.handle !in before.handles
      && after.live == before.live + c.blocks && after.handles == before.handles + {c.handle}
    case Disconnected(c) =>
      after.live == before.live - c.blocks && after.handles == before.handles - {c.handle}
  }

  function ClientsAfter(clients: set<Holding>, call: Call): set<Holding> {
    match call
    case Unchanged => clients
    case Connected(c) => clients + {c}
    case Disconnected(c) => clients - {c}
  }

  function ClientsInTheEnd(clients: set<Holding>, calls: seq<Call>): set<Holding>
    decreases |calls|
  {
    if calls == [] then clients else ClientsInTheEnd(ClientsAfter(clients, calls[0]), calls[1..])
  }

  /** The calls lead from each memory to the next, and only a connected client is disconnected. */
  ghost predicate IsSession(memories: seq<Memory>, clients: set<Holding>, calls: seq<Call>)
    decreases |calls|
  {
    |memories| == |calls| + 1 &&
    (calls == [] ||
     (Performs(memories[0], memories[1], calls[0])
      && (calls[0].Disconnected? ==> calls[0].client in clients)
      && IsSession(memories[1..], ClientsAfter(clients, calls[0]), calls[1..])))
  }

  function BlocksOf(clients: set<Holding>): set<Address> {
    set c, a | c in clients && a in c.blocks :: a
  }

  function HandlesOf(clients: set<Holding>): set<Handle> {
    set c | c in clients :: c.handle
  }

  /** Beyond the initial heap and handle table there is exactly what connected clients own, each its own. */
  ghost predicate Accounted(m: Memory, clients: set<Holding>, live0: set<Address>, handles0: set<Handle>) {
    && m.live == live0 + BlocksOf(clients) && live0 !! BlocksOf(clients)
    && m.handles == handles0 + HandlesOf(clients) && handles0 !! HandlesOf(clients)
    && (forall c, d :: c in clients && d in clients && c != d ==> c.blocks !! d.blocks && c.handle != d.handle)
  }

  /** A call on a process with any number of connected clients touches only what its own client owns. */
  lemma CallConserves(before: Memory, after: Memory, clients: set<Holding>, call: Call,
                      live0: set<Address>, handles0: set<Handle>)
    requires Performs(before, after, call) && (call.Disconnected? ==> call.client in clients)
    requires Accounted(before, clients, live0, handles0)
    ensures Accounted(after, ClientsAfter(clients, call), live0, handles0)
  {
  }

  /** For any sequence of calls, heap and handle table hold what they held at first and what the
      clients still connected own; when none is, they are as at first. */
  lemma {:induction false} SessionsConserve(memories: seq<Memory>, clients: set<Holding>, calls: seq<Call>,
                                            live0: set<Address>, handles0: set<Handle>)
    requires IsSession(memories, clients, calls) && Accounted(memories[0], clients, live0, handles0)
    ensures var m, c := memories[|calls|], ClientsInTheEnd(clients, calls);
      && Accounted(m, c, live0, handles0)
      && (c == {} ==> m.live == live0 && m.handles == handles0)
    decreases |calls|
  {
    if calls != [] {
      CallConserves(memories[0], memories[1], clients, calls[0], live0, handles0);
      SessionsConserve(memories[1..], ClientsAfter(clients, calls[0]), calls[1..], live0, handles0);
    }
  }
}
