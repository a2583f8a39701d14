/** Who owns which file descriptor in the epoll executor
    (`epoll_single_threaded_executor.hpp`), and the order in which the pipe's sockets drop
    a callback and close its descriptor.

    A node is named by its address, which is what the kernel stores for a descriptor;
    addresses and descriptor numbers are reused once they are free. */
module Executor {
  import opened IpcTypes

  type Fd = int
  type Address = nat

  datatype Node = Node(fd: Fd, events: nat)

  datatype Entry = Entry(events: nat, node: Address)

  /** `interest` is the kernel's list for the executor, `open` the open descriptors. */
  datatype State = State(total: int, nodes: map<Address, Node>, interest: map<Fd, Entry>, open: set<Fd>)

  const INITIAL: State := State(0, map[], map[], {})

  // ---- What the operations do.

  function Made(s: State, a: Address): State {
    s.(nodes := s.nodes[a := Node(-1, 0)])
  }

  /** `EPOLL_CTL_ADD` refuses a descriptor that is closed or listed already. */
  function Setup(s: State, a: Address, fd: Fd, events: nat): State {
    s.(nodes := s.nodes[a := Node(fd, events)], total := s.total + 1,
       interest := if fd in s.open && fd !in s.interest then s.interest[fd := Entry(events, a)] else s.interest)
  }

  /** The move constructor; `EPOLL_CTL_MOD` needs the descriptor to be listed. */
  function Moved(s: State, from: Address, to: Address): State
    requires from in s.nodes
  {
    var n := s.nodes[from];
    s.(nodes := s.nodes[from := Node(-1, 0)][to := n],
       interest := if n.fd >= 0 && n.fd in s.interest then s.interest[n.fd := Entry(n.events, to)] else s.interest)
  }

  /** The destructor; `EPOLL_CTL_DEL` goes by the descriptor alone. */
  function Destroyed(s: State, a: Address): State
    requires a in s.nodes
  {
    var n := s.nodes[a];
    if n.fd >= 0 then s.(nodes := s.nodes - {a}, interest := s.interest - {n.fd}, total := s.total - 1)
    else s.(nodes := s.nodes - {a})
  }

  /** `registerAwaitableCallback`: the node is set up where it is made, then moved out. */
  function Registered(s: State, temp: Address, at: Address, fd: Fd, events: nat): State
    requires temp != at
  {
    Destroyed(Moved(Setup(Made(s, temp), temp, fd, events), temp, at), temp)
  }

  function Opened(s: State, fd: Fd): State {
    s.(open := s.open + {fd})
  }

  /** Closing a descriptor takes it off the kernel's list, and tells no node. */
  function Closed(s: State, fd: Fd): State {
    s.(open := s.open - {fd}, interest := s.interest - {fd})
  }

  datatype Op =
    | Register(temp: Address, at: Address, fd: Fd, events: nat)
    | Move(from: Address, to: Address)
    | Destroy(a: Address)
    | Open(fd: Fd)
    | Close(fd: Fd)

  /** Descriptors are registered once at a time, and closed after their callback is gone. */
  predicate Allowed(s: State, op: Op) {
    match op
    case Register(temp, at, fd, _) =>
      temp != at && temp !in s.nodes && at !in s.nodes && fd >= 0 && fd in s.open && fd !in s.interest
    case Move(from, to) => from in s.nodes && to !in s.nodes
    case Destroy(a) => a in s.nodes
    case Open(fd) => fd >= 0 && fd !in s.open
    case Close(fd) => fd in s.open && fd !in s.interest
  }

  function Apply(s: State, op: Op): State
    requires Allowed(s, op)
  {
    match op
    case Register(temp, at, fd, events) => Registered(s, temp, at, fd, events)
    case Move(from, to) => Moved(s, from, to)
    case Destroy(a) => Destroyed(s, a)
    case Open(fd) => Opened(s, fd)
    case Close(fd) => Closed(s, fd)
  }

  predicate AllAllowed(s: State, ops: seq<Op>)
    decreases |ops|
  {
    ops == [] || (Allowed(s, ops[0]) && AllAllowed(Apply(s, ops[0]), ops[1..]))
  }

  function Run(s: State, ops: seq<Op>): State
    requires AllAllowed(s, ops)
    decreases |ops|
  {
    if ops == [] then s else Run(Apply(s, ops[0]), ops[1..])
  }

  // ---- What they keep.

  function Owners(s: State): set<Address> {
    set a | a in s.nodes && s.nodes[a].fd >= 0
  }

  /** Each descriptor a node owns is open and listed for that very node, nothing else is
      listed, and the count is that of the owning nodes. */
  ghost predicate Owned(s: State) {
    && s.total == |Owners(s)|
    && (forall a :: a in s.nodes && s.nodes[a].fd >= 0 ==>
          s.nodes[a].fd in s.interest && s.interest[s.nodes[a].fd] == Entry(s.nodes[a].events, a))
    && (forall fd :: fd in s.interest ==>
          fd >= 0 && fd in s.open && s.interest[fd].node in s.nodes && s.nodes[s.interest[fd].node].fd == fd)
  }

  lemma SetupKeeps(s: State, a: Address, fd: Fd, events: nat)
    requires Owned(s) && a in s.nodes && s.nodes[a].fd < 0 && fd >= 0 && fd in s.open && fd !in s.interest
    ensures Owned(Setup(s, a, fd, events))
  {
    assert Owners(Setup(s, a, fd, events)) == Owners(s) + {a};
  }

  lemma MadeKeeps(s: State, a: Address)
    requires Owned(s) && a !in s.nodes
    ensures Owned(Made(s, a))
  {
    assert Owners(Made(s, a)) == Owners(s);
  }

  lemma MovedKeeps(s: State, from: Address, to: Address)
    requires Owned(s) && from in s.nodes && to !in s.nodes
    ensures Owned(Moved(s, from, to))
    ensures Moved(s, from, to).interest.Keys == s.interest.Keys
  {
    MovedCount(s, from, to);
    hide Owners;
  }

  lemma MovedCount(s: State, from: Address, to: Address)
    requires from in s.nodes && to !in s.nodes
    ensures |Owners(Moved(s, from, to))| == |Owners(s)|
  {
    assert Owners(Moved(s, from, to)) ==
           if s.nodes[from].fd >= 0 then Owners(s) - {from} + {to} else Owners(s);
  }

  lemma DestroyedKeeps(s: State, a: Address)
    requires Owned(s) && a in s.nodes
    ensures Owned(Destroyed(s, a)) && Destroyed(s, a).total >= 0
  {
    assert Owners(Destroyed(s, a)) == Owners(s) - {a};
  }

  lemma ApplyKeeps(s: State, op: Op)
    requires Owned(s) && Allowed(s, op)
    ensures Owned(Apply(s, op))
  {
    hide Owned;
    match op
    case Register(temp, at, fd, events) =>
      MadeKeeps(s, temp);
      SetupKeeps(Made(s, temp), temp, fd, events);
      MovedKeeps(Setup(Made(s, temp), temp, fd, events), temp, at);
      DestroyedKeeps(Moved(Setup(Made(s, temp), temp, fd, events), temp, at), temp);
    case Move(from, to) => MovedKeeps(s, from, to);
    case Destroy(a) => DestroyedKeeps(s, a);
    case Open(fd) => OpenedKeeps(s, fd);
    case Close(fd) => ClosingListed(s, fd);
  }

  lemma OpenedKeeps(s: State, fd: Fd)
    requires Owned(s)
    ensures Owned(Opened(s, fd))
  {
    assert Owners(Opened(s, fd)) == Owners(s);
  }

  /** Closing a descriptor is harmless exactly if no callback is registered for it. */
  lemma ClosingListed(s: State, fd: Fd)
    requires Owned(s)
    ensures Owned(Closed(s, fd)) <==> fd !in s.interest
  {
    assert Owners(Closed(s, fd)) == Owners(s);
    if fd in s.interest {
      assert s.interest[fd].node in Closed(s, fd).nodes;
    }
  }

  /** After any sequence of operations the count, the nodes and the kernel's list agree. */
  lemma {:induction false} RunKeeps(s: State, ops: seq<Op>)
    requires Owned(s) && AllAllowed(s, ops)
    ensures Owned(Run(s, ops))
    decreases |ops|
  {
    hide Owned, Apply, Allowed;
    if ops != [] {
      ApplyKeeps(s, ops[0]);
      RunKeeps(Apply(s, ops[0]), ops[1..]);
    }
  }

  lemma OwnershipAgrees(ops: seq<Op>)
    requires AllAllowed(INITIAL, ops)
    ensures Owned(Run(INITIAL, ops))
  {
    assert Owners(INITIAL) == {};
    RunKeeps(INITIAL, ops);
  }

  /** Registering keeps all that exactly if the descriptor is open and no callback is
      registered for it yet; a second callback would take it from the first. */
  lemma RegisteringTwice(s: State, temp: Address, at: Address, fd: Fd, events: nat)
    requires Owned(s) && temp != at && temp !in s.nodes && at !in s.nodes && fd >= 0
    ensures Owned(Registered(s, temp, at, fd, events)) <==> fd in s.open && fd !in s.interest
    ensures fd in s.interest ==>
              var s' := Registered(s, temp, at, fd, events);
              s'.interest[fd] == Entry(events, at) && s'.nodes[s.interest[fd].node].fd == fd
  {
    var s' := Registered(s, temp, at, fd, events);
    TakesOver(s, temp, at, fd, events);
    if fd in s.open && fd !in s.interest {
      hide Owned, Registered;
      ApplyKeeps(s, Register(temp, at, fd, events));
    } else if fd in s.interest {
      var former := s.interest[fd].node;
      assert former in s'.nodes && s'.nodes[former].fd == fd && s'.interest[fd].node != former;
    } else {
      assert s'.nodes[at].fd == fd;
    }
  }

  lemma TakesOver(s: State, temp: Address, at: Address, fd: Fd, events: nat)
    requires Owned(s) && temp != at && temp !in s.nodes && at !in s.nodes && fd >= 0
    ensures var s' := Registered(s, temp, at, fd, events);
            && s'.nodes == s.nodes[at := Node(fd, events)]
            && (fd in s.interest ==> s'.interest == s.interest[fd := Entry(events, at)])
            && (fd !in s.open ==> fd !in s'.interest)
  {
    var placed := Moved(Setup(Made(s, temp), temp, fd, events), temp, at);
    assert placed.nodes == s.nodes[temp := Node(-1, 0)][at := Node(fd, events)];
  }

  /** Why the order matters: a descriptor that is closed while it is listed, and whose
      number is then given out again, is taken from its new owner by the old destructor. */
  lemma ClosedTooEarly(s: State, fd: Fd, temp: Address, at: Address, events: nat)
    requires Owned(s) && fd in s.interest && temp != at && temp !in s.nodes && at !in s.nodes
    ensures var former := s.interest[fd].node;
            var again := Registered(Opened(Closed(s, fd), fd), temp, at, fd, events);
            && again.interest[fd] == Entry(events, at) && former in again.nodes
            && at in Destroyed(again, former).nodes && Destroyed(again, former).nodes[at].fd == fd
            && fd !in Destroyed(again, former).interest
  {
  }

  // ---- The sockets of the pipe.

  /** What a registration comes to. */
  lemma RegisteredIs(s: State, temp: Address, at: Address, fd: Fd, events: nat)
    requires temp != at && temp !in s.nodes && at !in s.nodes && fd >= 0 && fd in s.open && fd !in s.interest
    ensures var s' := Registered(s, temp, at, fd, events);
            && s'.nodes == s.nodes[at := Node(fd, events)] && s'.interest == s.interest[fd := Entry(events, at)]
            && s'.open == s.open && s'.total == s.total + 1
  {
    var placed := Moved(Setup(Made(s, temp), temp, fd, events), temp, at);
    assert placed.nodes == s.nodes[temp := Node(-1, 0)][at := Node(fd, events)];
    assert placed.interest == s.interest[fd := Entry(events, at)];
  }

  /** A client's context in the daemon: its descriptor and the callback registered for it. */
  datatype Context = Context(fd: Fd, callback: Address)

  /** The members go in reverse order of declaration: the callback, then the descriptor. */
  function ContextDropped(s: State, k: Context): State
    requires k.callback in s.nodes
  {
    Closed(Destroyed(s, k.callback), k.fd)
  }

  /** A new client's descriptor is accepted and its callback registered. */
  function ContextAdded(s: State, k: Context, temp: Address): State
    requires temp != k.callback
  {
    Registered(Opened(s, k.fd), temp, k.callback, k.fd, 1)
  }

  /** This callback owns the context's descriptor. */
  predicate Fits(s: State, k: Context) {
    k.callback in s.nodes && k.fd >= 0 && s.nodes[k.callback].fd == k.fd
  }

  /** The daemon's table: every context's callback owns its descriptor. */
  ghost predicate TableFits(s: State, table: map<ClientId, Context>) {
    forall c :: c in table ==> Fits(s, table[c])
  }

  predicate TableDistinct(table: map<ClientId, Context>) {
    forall c, d :: c in table && d in table && c != d ==>
      table[c].callback != table[d].callback && table[c].fd != table[d].fd
  }

  /** An owned descriptor is open and listed for its owner. */
  lemma FitsIsListed(s: State, k: Context)
    requires Owned(s) && Fits(s, k)
    ensures k.fd in s.open && k.fd in s.interest && s.interest[k.fd].node == k.callback
  {
  }

  lemma AddedOwned(s: State, k: Context, temp: Address)
    requires Owned(s) && k.fd >= 0 && k.fd !in s.open
    requires temp != k.callback && temp !in s.nodes && k.callback !in s.nodes
    ensures var s' := ContextAdded(s, k, temp);
            Owned(s') && s'.nodes == s.nodes[k.callback := Node(k.fd, 1)]
  {
    NotOpenNotListed(s, k.fd);
    OpenedKeeps(s, k.fd);
    RegisteredIs(Opened(s, k.fd), temp, k.callback, k.fd, 1);
    hide Owned, Registered;
    ApplyKeeps(Opened(s, k.fd), Register(temp, k.callback, k.fd, 1));
  }

  lemma NotOpenNotListed(s: State, fd: Fd)
    requires Owned(s) && fd !in s.open
    ensures fd !in s.interest
  {
  }

  lemma DroppedOwned(s: State, k: Context)
    requires Owned(s) && Fits(s, k)
    ensures var s' := ContextDropped(s, k);
            && Owned(s') && s'.nodes == s.nodes - {k.callback} && s'.total == s.total - 1
            && k.fd !in s'.open && k.fd !in s'.interest
  {
    hide Owned;
    DestroyedKeeps(s, k.callback);
    ClosingListed(Destroyed(s, k.callback), k.fd);
  }

  // ---- The daemon's table over a run.

  datatype Pool = Pool(state: State, table: map<ClientId, Context>)

  /** Besides its own, the daemon's executor serves other nodes; a context's callback may
      also be moved, as `setCallback` does. */
  datatype PoolOp =
    | Accept(c: ClientId, k: Context, temp: Address)
    | Drop(c: ClientId)
    | MoveCallback(c: ClientId, to: Address)
    | Other(op: Op)

  predicate Holds(table: map<ClientId, Context>, a: Address) {
    exists c :: c in table && table[c].callback == a
  }

  predicate PoolAllowed(x: Pool, op: PoolOp) {
    match op
    case Accept(c, k, temp) =>
      && c !in x.table && k.fd >= 0 && k.fd !in x.state.open
      && temp != k.callback && temp !in x.state.nodes && k.callback !in x.state.nodes
    case Drop(c) => c in x.table && x.table[c].callback in x.state.nodes
    case MoveCallback(c, to) =>
      c in x.table && x.table[c].callback in x.state.nodes && to !in x.state.nodes
    case Other(op) =>
      && Allowed(x.state, op)
      && (op.Move? ==> !Holds(x.table, op.from))
      && (op.Destroy? ==> !Holds(x.table, op.a))
  }

  function PoolApply(x: Pool, op: PoolOp): Pool
    requires PoolAllowed(x, op)
  {
    match op
    case Accept(c, k, temp) => Pool(ContextAdded(x.state, k, temp), x.table[c := k])
    case Drop(c) => Pool(ContextDropped(x.state, x.table[c]), x.table - {c})
    case MoveCallback(c, to) =>
      Pool(Moved(x.state, x.table[c].callback, to), x.table[c := x.table[c].(callback := to)])
    case Other(op) => x.(state := Apply(x.state, op))
  }

  predicate AllPoolAllowed(x: Pool, ops: seq<PoolOp>)
    decreases |ops|
  {
    ops == [] || (PoolAllowed(x, ops[0]) && AllPoolAllowed(PoolApply(x, ops[0]), ops[1..]))
  }

  function PoolRun(x: Pool, ops: seq<PoolOp>): Pool
    requires AllPoolAllowed(x, ops)
    decreases |ops|
  {
    if ops == [] then x else PoolRun(PoolApply(x, ops[0]), ops[1..])
  }

  ghost predicate PoolGood(x: Pool) {
    Owned(x.state) && TableFits(x.state, x.table) && TableDistinct(x.table)
  }

  /** No context has this callback or, if the descriptor is not open, this descriptor. */
  lemma Fresh(x: Pool, k: Context)
    requires PoolGood(x) && k.callback !in x.state.nodes && k.fd !in x.state.open
    ensures forall c :: c in x.table ==> x.table[c].callback != k.callback && x.table[c].fd != k.fd
  {
    forall c | c in x.table ensures x.table[c].callback != k.callback && x.table[c].fd != k.fd {
      FitsIsListed(x.state, x.table[c]);
    }
  }

  lemma AcceptKeepsTable(x: Pool, c: ClientId, k: Context, temp: Address)
    requires PoolGood(x) && PoolAllowed(x, Accept(c, k, temp))
    ensures PoolGood(PoolApply(x, Accept(c, k, temp)))
  {
    hide Owned, ContextAdded, TableFits, TableDistinct;
    Fresh(x, k);
    AddedOwned(x.state, k, temp);
    TableGrows(x.state, ContextAdded(x.state, k, temp), x.table, c, k);
  }

  lemma TableGrows(s: State, s': State, table: map<ClientId, Context>, c: ClientId, k: Context)
    requires TableFits(s, table) && TableDistinct(table) && k.callback !in s.nodes && k.fd >= 0
    requires s'.nodes == s.nodes[k.callback := Node(k.fd, 1)]
    requires forall d :: d in table ==> table[d].callback != k.callback && table[d].fd != k.fd
    ensures TableFits(s', table[c := k]) && TableDistinct(table[c := k])
  {
  }

  /** Erasing a context leaves no trace of its descriptor and disturbs no other context. */
  lemma DropKeepsTable(x: Pool, c: ClientId)
    requires PoolGood(x) && c in x.table
    ensures PoolAllowed(x, Drop(c))
    ensures var x' := PoolApply(x, Drop(c));
            && PoolGood(x') && x.table[c].fd !in x'.state.open && x.table[c].fd !in x'.state.interest
            && x'.state.total == x.state.total - 1
  {
    hide Owned, ContextDropped;
    DroppedOwned(x.state, x.table[c]);
  }

  lemma MoveKeepsTable(x: Pool, c: ClientId, to: Address)
    requires PoolGood(x) && PoolAllowed(x, MoveCallback(c, to))
    ensures PoolGood(PoolApply(x, MoveCallback(c, to)))
  {
    MovedKeeps(x.state, x.table[c].callback, to);
    hide Owned;
  }

  /** The nodes of contexts are not what other operations work on. */
  lemma OthersKeepTable(x: Pool, op: Op)
    requires PoolGood(x) && PoolAllowed(x, Other(op))
    ensures PoolGood(PoolApply(x, Other(op)))
  {
    ApplyKeeps(x.state, op);
    if op.Register? { RegisteredIs(x.state, op.temp, op.at, op.fd, op.events); }
    hide Owned, Registered;
    forall c | c in x.table ensures Fits(Apply(x.state, op), x.table[c]) {
      assert Holds(x.table, x.table[c].callback);
    }
  }

  lemma {:induction false} PoolRunKeeps(x: Pool, ops: seq<PoolOp>)
    requires PoolGood(x) && AllPoolAllowed(x, ops)
    ensures PoolGood(PoolRun(x, ops))
    decreases |ops|
  {
    if ops != [] {
      match ops[0] {
        case Accept(c, k, temp) => AcceptKeepsTable(x, c, k, temp);
        case Drop(c) => DropKeepsTable(x, c);
        case MoveCallback(c, to) => MoveKeepsTable(x, c, to);
        case Other(op) => OthersKeepTable(x, op);
      }
      hide PoolGood, PoolApply, PoolAllowed;
      PoolRunKeeps(PoolApply(x, ops[0]), ops[1..]);
    }
  }

  /** After any run of accepts, drops and moves of callbacks, mixed with whatever other users
      of the executor register, move and destroy: the count, the nodes and the kernel's list
      agree, and each context's descriptor is open and listed for its own callback. */
  lemma TableAgrees(ops: seq<PoolOp>)
    requires AllPoolAllowed(Pool(INITIAL, map[]), ops)
    ensures var x := PoolRun(Pool(INITIAL, map[]), ops);
            && Owned(x.state) && TableDistinct(x.table)
            && forall c :: c in x.table ==>
                 && Fits(x.state, x.table[c])
                 && x.table[c].fd in x.state.open && x.table[c].fd in x.state.interest
                 && x.state.interest[x.table[c].fd].node == x.table[c].callback
  {
    assert Owners(INITIAL) == {};
    PoolRunKeeps(Pool(INITIAL, map[]), ops);
    var x := PoolRun(Pool(INITIAL, map[]), ops);
    hide PoolRun, AllPoolAllowed, Owned;
    forall c | c in x.table
      ensures && x.table[c].fd in x.state.open && x.table[c].fd in x.state.interest
              && x.state.interest[x.table[c].fd].node == x.table[c].callback
    {
      FitsIsListed(x.state, x.table[c]);
    }
  }

  // ---- The SDK's socket: connecting, then idle, then receiving, then closed.

  /** Resetting the callback frees the descriptor for another, and leaves it open. */
  lemma CallbackReset(s: State, k: Context)
    requires Owned(s) && Fits(s, k)
    ensures var idle := Destroyed(s, k.callback);
            && Owned(idle) && k.fd in idle.open && k.fd !in idle.interest
            && idle.total == s.total - 1 && idle.interest == s.interest - {k.fd} && idle.nodes == s.nodes - {k.callback}
  {
    FitsIsListed(s, k);
    DestroyedKeeps(s, k.callback);
    hide Owned;
  }

  /** The callback of the receiving phase takes its place. */
  lemma CallbackReplaced(idle: State, fd: Fd, temp: Address, next: Address)
    requires Owned(idle) && Allowed(idle, Register(temp, next, fd, 1))
    ensures var reading := Registered(idle, temp, next, fd, 1);
            && Owned(reading) && Fits(reading, Context(fd, next)) && reading.total == idle.total + 1
            && reading.interest == idle.interest[fd := Entry(1, next)]
  {
    RegisteredIs(idle, temp, next, fd, 1);
    hide Owned, Registered;
    ApplyKeeps(idle, Register(temp, next, fd, 1));
  }

  /** The descriptor is closed after the callback is reset, and the callback of the connecting
      phase is gone before that of the receiving phase is set. */
  lemma ClientSocketKeeps(s: State, k: Context, temp: Address, next: Address)
    requires Owned(s) && Fits(s, k) && temp != next && temp !in s.nodes && next !in s.nodes
    ensures var idle := Destroyed(s, k.callback);
            && Allowed(idle, Register(temp, next, k.fd, 1))
            && (var reading := Registered(idle, temp, next, k.fd, 1);
                && Owned(reading) && reading.total == s.total && next in reading.nodes
                && reading.interest == s.interest[k.fd := Entry(1, next)]
                && (var gone := ContextDropped(reading, Context(k.fd, next));
                    Owned(gone) && k.fd !in gone.open && k.fd !in gone.interest))
  {
    hide Owned, Destroyed, Registered, ContextDropped;
    CallbackReset(s, k);
    var idle := Destroyed(s, k.callback);
    CallbackReplaced(idle, k.fd, temp, next);
    assert (s.interest - {k.fd})[k.fd := Entry(1, next)] == s.interest[k.fd := Entry(1, next)];
    DroppedOwned(Registered(idle, temp, next, k.fd, 1), Context(k.fd, next));
  }

  // ---- The executor itself.

  class AwaitableNode {
    const address: Address
    var fd: Fd
    var events: nat

    constructor (address: Address)
      ensures this.address == address && fd == -1 && events == 0
    {
      this.address := address;
      fd, events := -1, 0;
    }

    /** What the move constructor exchanges. */
    constructor From(address: Address, other: AwaitableNode)
      modifies other
      ensures this.address == address && fd == old(other.fd) && events == old(other.events)
      ensures other.fd == -1 && other.events == 0
    {
      this.address := address;
      fd, events := other.fd, other.events;
      new;
      other.fd, other.events := -1, 0;
    }
  }

  class EpollExecutor {
    var totalAwaitables: int
    var interest: map<Fd, Entry>
    var open: set<Fd>
    ghost var nodes: map<Address, AwaitableNode>

    constructor ()
      ensures Valid() && Abs() == INITIAL
    {
      totalAwaitables, interest, open, nodes := 0, map[], {}, map[];
    }

    ghost predicate Valid()
      reads this
    {
      forall a :: a in nodes ==> nodes[a].address == a
    }

    ghost function Abs(): State
      reads this, nodes.Values
    {
      State(totalAwaitables, map a | a in nodes :: Node(nodes[a].fd, nodes[a].events), interest, open)
    }

    ghost predicate Has(n: AwaitableNode)
      reads this
    {
      n.address in nodes && nodes[n.address] == n
    }

    method EpollAdd(fd: Fd, e: Entry)
      modifies this`interest
      ensures interest == if fd in open && fd !in old(interest) then old(interest)[fd := e] else old(interest)
    {
      if fd in open && fd !in interest { interest := interest[fd := e]; }
    }

    method EpollMod(fd: Fd, e: Entry)
      modifies this`interest
      ensures interest == if fd in old(interest) then old(interest)[fd := e] else old(interest)
    {
      if fd in interest { interest := interest[fd := e]; }
    }

    method EpollDel(fd: Fd)
      modifies this`interest
      ensures interest == old(interest) - {fd}
    {
      interest := interest - {fd};
    }

    method SetupNode(n: AwaitableNode, fd: Fd, events: nat)
      requires Valid() && Has(n)
      modifies this`totalAwaitables, this`interest, n
      ensures Valid() && Has(n) && Abs() == Setup(old(Abs()), n.address, fd, events)
    {
      n.fd, n.events := fd, events;
      totalAwaitables := totalAwaitables + 1;
      EpollAdd(fd, Entry(events, n.address));
    }

    /** The move constructor, which makes the node at `to`. */
    method MoveNode(n: AwaitableNode, to: Address) returns (moved: AwaitableNode)
      requires Valid() && Has(n) && to !in nodes
      modifies this`interest, this`nodes, n
      ensures Valid() && fresh(moved) && moved.address == to && nodes == old(nodes)[to := moved]
      ensures Abs() == Moved(old(Abs()), n.address, to)
    {
      moved := MakeFrom(n, to);
      if moved.fd >= 0 { EpollMod(moved.fd, Entry(moved.events, to)); }
    }

    method MakeFrom(n: AwaitableNode, to: Address) returns (moved: AwaitableNode)
      requires Valid() && Has(n) && to !in nodes
      modifies this`nodes, n
      ensures Valid() && fresh(moved) && moved.address == to && nodes == old(nodes)[to := moved]
      ensures moved.fd == old(n.fd) && moved.events == old(n.events)
      ensures Abs() == old(Abs()).(nodes :=
                old(Abs()).nodes[n.address := Node(-1, 0)][to := Node(moved.fd, moved.events)])
    {
      moved := new AwaitableNode.From(to, n);
      nodes := nodes[to := moved];
    }

    method DestroyNode(n: AwaitableNode)
      requires Valid() && Has(n)
      modifies this`totalAwaitables, this`interest, this`nodes
      ensures Valid() && nodes == old(nodes) - {n.address}
      ensures Abs() == Destroyed(old(Abs()), n.address)
    {
      if n.fd >= 0 {
        EpollDel(n.fd);
        totalAwaitables := totalAwaitables - 1;
      }
      nodes := nodes - {n.address};
    }

    method RegisterAwaitableCallback(temp: Address, at: Address, fd: Fd, events: nat) returns (callback: AwaitableNode)
      requires Valid() && temp != at && temp !in nodes && at !in nodes
      modifies this`totalAwaitables, this`interest, this`nodes
      ensures Valid() && fresh(callback) && callback.address == at && Has(callback)
      ensures Abs() == Registered(old(Abs()), temp, at, fd, events)
    {
      var node := new AwaitableNode(temp);
      nodes := nodes[temp := node];
      assert Abs() == Made(old(Abs()), temp);
      SetupNode(node, fd, events);
      callback := MoveNode(node, at);
      DestroyNode(node);
    }
  }
}
