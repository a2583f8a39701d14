/** The SDK processes and the daemon as one transition system.

    Each process has one connection, a reliable byte stream a direction; here the unit of
    a stream is a whole frame. A label is one atomic action: a user operation on a
    gateway, one turn of a notification loop, or one pipe event. Pipe events are handled
    only when no notification loop of that router is running (one thread each). */
module Network {
  import opened IpcTypes
  import C = ClientRouterSpec
  import S = ServerRouterSpec

  type Pid = nat

  datatype Pipe = Connecting | Open | Closed

  /** One SDK process; `taken` counts the daemon's frames it has read. */
  datatype Host = Host(router: C.ClientState, pipe: Pipe, taken: nat)

  /** `sockets` remembers which process every client id was given to and `ids` is its
      inverse; `contexts` is the daemon's table of open connections, `taken` counts the
      frames it has read. */
  datatype Sys = Sys(
    hosts: map<Pid, Host>,
    server: S.ServerState,
    counter: nat,
    sockets: map<ClientId, Pid>,
    ids: map<Pid, ClientId>,
    contexts: set<ClientId>,
    taken: map<ClientId, nat>)
  {
    function Taken(c: ClientId): nat {
      if c in taken then taken[c] else 0
    }

    function WithRouter(p: Pid, r: C.ClientState): Sys
      requires p in hosts
    {
      this.(hosts := hosts[p := hosts[p].(router := r)])
    }

    /** The frame the daemon reads next from this client. */
    predicate HasNext(c: ClientId) {
      c in sockets && sockets[c] in hosts && Taken(c) < |hosts[sockets[c]].router.outbox|
    }

    function Next(c: ClientId): Frame
      requires HasNext(c)
    {
      hosts[sockets[c]].router.outbox[Taken(c)]
    }

    /** The frame this process reads next from the daemon through connection `c`. */
    predicate HostHasNext(p: Pid, c: ClientId) {
      p in hosts && c in sockets && sockets[c] == p && hosts[p].taken < |server.Outbox(c)|
    }
  }

  datatype Label =
    | Launch(p: Pid)
    | CMake(p: Pid)
    | CSend(p: Pid, t: Tag, service: ServiceId, payload: Payload, pipeError: int)
    | CComplete(p: Pid, t: Tag, error: int)
    | CSubscribe(p: Pid, t: Tag)
    | CDispose(p: Pid, t: Tag, pipeError: int)
    | CPipeUp(p: Pid, pipeError: int)
    | CReceive(p: Pid, c: ClientId, handlerError: int)
    | CGreet(p: Pid, t: Tag)
    | CPipeDown(p: Pid)
    | CMourn(p: Pid, t: Tag)
    | Accept(p: Pid)
    | SReceive(c: ClientId, handlerError: int, pipeError: int)
    | SSend(g: S.Ref, service: ServiceId, payload: Payload, pipeError: int)
    | SComplete(g: S.Ref, error: int)
    | SSubscribe(g: S.Ref)
    | SDispose(g: S.Ref, pipeError: int)
    | SPipeDown(c: ClientId)
    | SMourn(g: S.Ref)

  function Initial(services: set<ServiceId>): Sys {
    Sys(map[], S.ServerState(services, map[], map[], {}, map[]), 0, map[], map[], {}, map[])
  }

  predicate Enabled(s: Sys, l: Label) {
    match l
    case Launch(p) => p !in s.hosts
    case CMake(p) => p in s.hosts
    case CSend(p, t, _, _, _) => p in s.hosts && s.hosts[p].router.Usable(t)
    case CComplete(p, t, _) => p in s.hosts && s.hosts[p].router.Usable(t)
    case CSubscribe(p, t) => p in s.hosts && s.hosts[p].router.Usable(t)
    case CDispose(p, t, _) => p in s.hosts && s.hosts[p].router.Usable(t) && t !in s.hosts[p].router.greeting
    case CPipeUp(p, _) => p in s.hosts && s.hosts[p].pipe.Connecting? && s.hosts[p].router.Idle()
    case CReceive(p, c, _) => s.HostHasNext(p, c) && s.hosts[p].pipe.Open? && s.hosts[p].router.Idle()
    case CGreet(p, t) => p in s.hosts && t in s.hosts[p].router.greeting && t in s.hosts[p].router.gateways
    case CPipeDown(p) => p in s.hosts && !s.hosts[p].pipe.Closed? && s.hosts[p].router.Idle()
    case CMourn(p, t) => p in s.hosts && t in s.hosts[p].router.mourning && t in s.hosts[p].router.gateways
    case Accept(p) => p in s.hosts && p !in s.ids && s.server.mourning == {}
    case SReceive(c, _, _) => c in s.contexts && s.HasNext(c) && s.server.mourning == {}
    case SSend(g, _, _, _) => s.server.Usable(g)
    case SComplete(g, _) => s.server.Usable(g)
    case SSubscribe(g) => s.server.Usable(g)
    case SDispose(g, _) => s.server.Usable(g)
    case SPipeDown(c) => c in s.contexts && s.server.mourning == {}
    case SMourn(g) => g in s.server.mourning
  }

  /** `handle_disconnect` of the SDK's socket, whatever the reason. */
  function LoseServer(s: Sys, p: Pid): Sys
    requires p in s.hosts
  {
    var h := s.hosts[p];
    s.(hosts := s.hosts[p := h.(pipe := Closed, router := C.PipeDisconnected(h.router))])
  }

  /** The daemon drops the client's context, then tells the router. */
  function LoseClient(s: Sys, c: ClientId): Sys {
    s.(contexts := s.contexts - {c}, server := S.PipeDisconnected(s.server, c))
  }

  function HostTakes(s: Sys, p: Pid, c: ClientId): Sys
    requires s.HostHasNext(p, c)
  {
    var h := s.hosts[p];
    var f := s.server.Outbox(c)[h.taken];
    s.(hosts := s.hosts[p := h.(router := C.Receive(h.router, f), taken := h.taken + 1)])
  }

  function ServerTakes(s: Sys, c: ClientId, pipeError: int): Sys
    requires s.HasNext(c)
  {
    s.(server := S.Receive(s.server, c, s.Next(c), pipeError), taken := s.taken[c := s.Taken(c) + 1])
  }

  function Step(s: Sys, l: Label): Sys
    requires Enabled(s, l)
  {
    match l
    case Launch(p) => s.(hosts := s.hosts[p := Host(C.INITIAL, Connecting, 0)])
    case CMake(p) => s.WithRouter(p, C.MakeGateway(s.hosts[p].router))
    case CSend(p, t, service, payload, e) => s.WithRouter(p, C.Send(s.hosts[p].router, t, service, payload, e))
    case CComplete(p, t, e) => s.WithRouter(p, C.Complete(s.hosts[p].router, t, e))
    case CSubscribe(p, t) => s.WithRouter(p, C.Subscribe(s.hosts[p].router, t))
    case CDispose(p, t, e) => s.WithRouter(p, C.Dispose(s.hosts[p].router, t, e))
    case CPipeUp(p, e) =>
      var h := s.hosts[p];
      s.(hosts := s.hosts[p := h.(pipe := Open, router := C.PipeConnected(h.router, e))])
    case CReceive(p, c, handlerError) =>
      var h := s.hosts[p];
      var after := HostTakes(s, p, c);
      if C.ReceiveError(h.router, s.server.Outbox(c)[h.taken], handlerError) == SUCCESS then after
      else LoseServer(after, p)
    case CGreet(p, t) => s.WithRouter(p, C.Greet(s.hosts[p].router, t))
    case CPipeDown(p) => LoseServer(s, p)
    case CMourn(p, t) => s.WithRouter(p, C.Mourn(s.hosts[p].router, t))
    case Accept(p) =>
      var c := s.counter + 1;
      s.(counter := c, sockets := s.sockets[c := p], ids := s.ids[p := c], contexts := s.contexts + {c})
    case SReceive(c, handlerError, pipeError) =>
      var after := ServerTakes(s, c, pipeError);
      if S.ReceiveError(s.server, c, s.Next(c), handlerError, pipeError) == SUCCESS then after
      else LoseClient(after, c)
    case SSend(g, service, payload, e) => s.(server := S.Send(s.server, g, service, payload, e))
    case SComplete(g, e) => s.(server := S.Complete(s.server, g, e))
    case SSubscribe(g) => s.(server := S.Subscribe(s.server, g))
    case SDispose(g, e) => s.(server := S.Dispose(s.server, g, e))
    case SPipeDown(c) => LoseClient(s, c)
    case SMourn(g) => s.(server := S.Mourn(s.server, g))
  }

  /** `labels` is a run from `s`: each is enabled where it happens. */
  predicate Allowed(s: Sys, labels: seq<Label>)
    decreases |labels|
  {
    labels == [] || (Enabled(s, labels[0]) && Allowed(Step(s, labels[0]), labels[1..]))
  }

  function Run(s: Sys, labels: seq<Label>): Sys
    requires Allowed(s, labels)
    decreases |labels|
  {
    if labels == [] then s else Run(Step(s, labels[0]), labels[1..])
  }
}
