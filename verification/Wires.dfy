/** The processes and the daemon of `Network`, with bytes on their connections: routers give
    their frames to a pipe that frames and writes them, and read what arrives in whatever
    pieces the reads give. No step here looks at a log of frames. */
module Wires {
  import opened IpcTypes
  import opened Network
  import opened Projection
  import opened Stack
  import F = Framing
  import RouteCodec
  import C = ClientRouterSpec
  import S = ServerRouterSpec

  /** The two byte streams of a connection. */
  datatype Wire = ToDaemon(p: Pid) | ToProcess(c: ClientId)

  /** `bytes` is all that was ever written; `contexts` is the table of the daemon's socket,
      `readers` the reading state of every process whose socket is not closed. */
  datatype Wired = Wired(
    net: Sys,
    bytes: map<Wire, Payload>,
    contexts: map<ClientId, F.Reader>,
    readers: map<Pid, F.Reader>)
  {
    function On(w: Wire): Payload {
      if w in bytes then bytes[w] else []
    }

    /** What the daemon reads from this client, and what the process reads. */
    function FromClient(c: ClientId): Payload {
      if c in net.sockets then On(ToDaemon(net.sockets[c])) else []
    }

    function FromDaemon(p: Pid): Payload {
      On(ToProcess(IdOf(net, p)))
    }

    function Carry(w: Wire, data: Payload): Wired {
      this.(bytes := bytes[w := On(w) + data])
    }
  }

  function Unwired(services: set<ServiceId>): Wired {
    Wired(Initial(services), map[], map[], map[])
  }

  // ---- Writing.

  /** The frames of this wire that the pipe accepted. */
  function Log(s: Sys, w: Wire): seq<Frame> {
    match w
    case ToDaemon(p) => if p in s.hosts then s.hosts[p].router.outbox else []
    case ToProcess(c) => s.server.Outbox(c)
  }

  /** The wire that an action of a router may write to. */
  function WireOf(l: Label): Option<Wire> {
    match l
    case CSend(p, _, _, _, _) => Some(ToDaemon(p))
    case CDispose(p, _, _) => Some(ToDaemon(p))
    case CPipeUp(p, _) => Some(ToDaemon(p))
    case SSend(g, _, _, _) => Some(ToProcess(g.endpoint.clientId))
    case SDispose(g, _) => Some(ToProcess(g.endpoint.clientId))
    case _ => None
  }

  /** The same action with another answer of the pipe. */
  function Answered(l: Label, pipeError: int): Label {
    match l
    case CSend(p, t, service, payload, _) => CSend(p, t, service, payload, pipeError)
    case CDispose(p, t, _) => CDispose(p, t, pipeError)
    case CPipeUp(p, _) => CPipeUp(p, pipeError)
    case SSend(g, service, payload, _) => SSend(g, service, payload, pipeError)
    case SDispose(g, _) => SDispose(g, pipeError)
    case _ => l
  }

  function Grown(before: seq<Frame>, after: seq<Frame>): Option<Frame> {
    if |after| > |before| then Some(after[|before|]) else None
  }

  /** The frame that the router gives to the pipe, if it does: the one that a pipe which
      accepts everything would have been given. */
  function Offered(s: Sys, l: Label): Option<Frame>
    requires Enabled(s, l)
  {
    if WireOf(l).None? then None
    else Grown(Log(s, WireOf(l).value), Log(Step(s, Answered(l, SUCCESS)), WireOf(l).value))
  }

  /** The frame with which the daemon's router answers `f`. */
  function Reply(s: Sys, c: ClientId, f: Frame): Option<Frame> {
    Grown(s.server.Outbox(c), S.Receive(s.server, c, f, SUCCESS).Outbox(c))
  }

  function SendResult(errors: seq<int>): int {
    if F.Succeed(errors) == |errors| then SUCCESS else errors[F.Succeed(errors)]
  }

  /** The system calls for this frame go through, or fail at the header; `pipeError` is
      what the router is told. */
  predicate Sends(frame: Option<Frame>, errors: seq<int>, pipeError: int) {
    frame.Some? ==>
      && Sendable(frame.value) && |errors| == |Fragments(frame.value)| + 1
      && (F.Succeed(errors) == |errors| || F.Succeed(errors) == 0)
      && pipeError == SendResult(errors)
  }

  function Carried(frame: Option<Frame>, errors: seq<int>): Payload
    requires frame.Some? ==> |errors| == |Fragments(frame.value)| + 1
  {
    if frame.Some? then F.Written(Fragments(frame.value), errors) else []
  }

  // ---- Reading.

  /** The message that this readable event hands to the router, as the router parses it. */
  function Handed(r: F.Reader, stream: Payload, turn: F.Turn): Option<Frame>
    requires F.TurnPossible(r, stream, turn)
  {
    var after := F.Receive(r, stream, turn).0;
    if |after.delivered| > |r.delivered| then RouteCodec.Parse(after.delivered[|r.delivered|]) else None
  }

  function DaemonGets(s: Sys, c: ClientId, f: Frame, pipeError: int): Sys {
    s.(server := S.Receive(s.server, c, f, pipeError), taken := s.taken[c := s.Taken(c) + 1])
  }

  function ProcessGets(s: Sys, p: Pid, f: Frame): Sys
    requires p in s.hosts
  {
    var h := s.hosts[p];
    s.(hosts := s.hosts[p := h.(router := C.Receive(h.router, f), taken := h.taken + 1)])
  }

  // ---- The steps.

  datatype WireEvent =
    | Act(l: Label, errors: seq<int>)
    | DaemonReads(c: ClientId, turn: F.Turn, handlerError: int, pipeError: int, errors: seq<int>)
    | ProcessReads(p: Pid, turn: F.Turn, handlerError: int)

  /** Everything but a readable event: these are where labels are atomic already. A
      connection is given up by an action only when it could not be made. */
  predicate Acts(s: Sys, l: Label)
    requires Enabled(s, l)
  {
    match l
    case CReceive(_, _, _) => false
    case SReceive(_, _, _) => false
    case SPipeDown(_) => false
    case CPipeDown(p) => s.hosts[p].pipe.Connecting?
    case _ => true
  }

  /** The frame that a step of the network writes, if the pipe accepts it. */
  function Writes(s: Sys, l: Label): Option<Frame>
    requires Enabled(s, l)
  {
    if l.SReceive? then Reply(s, l.c, s.Next(l.c)) else if Acts(s, l) then Offered(s, l) else None
  }

  predicate Happens(b: Wired, e: WireEvent) {
    match e
    case Act(l, errors) =>
      Enabled(b.net, l) && Acts(b.net, l) && Sends(Offered(b.net, l), errors, PipeError(l))
    case DaemonReads(c, turn, handlerError, pipeError, errors) =>
      && c in b.contexts && b.net.server.mourning == {}
      && F.TurnPossible(b.contexts[c], b.FromClient(c), turn)
      && (var frame := Handed(b.contexts[c], b.FromClient(c), turn);
          frame.Some? ==>
            && turn.actionError == S.ReceiveError(b.net.server, c, frame.value, handlerError, pipeError)
            && Sends(Reply(b.net, c, frame.value), errors, pipeError))
    case ProcessReads(p, turn, handlerError) =>
      && p in b.readers && p in b.net.hosts && b.net.hosts[p].pipe.Open? && b.net.hosts[p].router.Idle()
      && F.TurnPossible(b.readers[p], b.FromDaemon(p), turn)
      && (var frame := Handed(b.readers[p], b.FromDaemon(p), turn);
          frame.Some? ==> turn.actionError == C.ReceiveError(b.net.hosts[p].router, frame.value, handlerError))
  }

  function PipeError(l: Label): int {
    match l
    case CSend(_, _, _, _, e) => e
    case CDispose(_, _, e) => e
    case CPipeUp(_, e) => e
    case SSend(_, _, _, e) => e
    case SDispose(_, e) => e
    case _ => SUCCESS
  }

  function AfterAct(b: Wired, l: Label, errors: seq<int>): Wired
    requires Happens(b, Act(l, errors))
  {
    var b' := if WireOf(l).Some? then b.Carry(WireOf(l).value, Carried(Offered(b.net, l), errors)) else b;
    var contexts := if l.Accept? then b.contexts[b.net.counter + 1 := F.START] else b.contexts;
    var readers :=
      if l.Launch? then b.readers[l.p := F.START]
      else if l.CPipeDown? then b.readers - {l.p}
      else b.readers;
    b'.(net := Step(b.net, l), contexts := contexts, readers := readers)
  }

  /** `handleClientRequest`: the router's handler runs inside, and may write a reply. */
  function AfterDaemonReads(b: Wired, c: ClientId, turn: F.Turn, pipeError: int, errors: seq<int>): Wired
    requires c in b.contexts && F.TurnPossible(b.contexts[c], b.FromClient(c), turn)
    requires var frame := Handed(b.contexts[c], b.FromClient(c), turn);
             frame.Some? ==> Sends(Reply(b.net, c, frame.value), errors, pipeError)
  {
    var (r, error) := F.Receive(b.contexts[c], b.FromClient(c), turn);
    var frame := Handed(b.contexts[c], b.FromClient(c), turn);
    var got :=
      if frame.Some?
      then b.Carry(ToProcess(c), Carried(Reply(b.net, c, frame.value), errors))
            .(net := DaemonGets(b.net, c, frame.value, pipeError))
      else b;
    if error == SUCCESS then got.(contexts := b.contexts[c := r])
    else got.(net := LoseClient(got.net, c), contexts := b.contexts - {c})
  }

  /** `handle_receive`. */
  function AfterProcessReads(b: Wired, p: Pid, turn: F.Turn): Wired
    requires p in b.readers && p in b.net.hosts && F.TurnPossible(b.readers[p], b.FromDaemon(p), turn)
  {
    var (r, error) := F.Receive(b.readers[p], b.FromDaemon(p), turn);
    var frame := Handed(b.readers[p], b.FromDaemon(p), turn);
    var net := if frame.Some? then ProcessGets(b.net, p, frame.value) else b.net;
    if error == SUCCESS then b.(net := net, readers := b.readers[p := r])
    else b.(net := LoseServer(net, p), readers := b.readers - {p})
  }

  function After(b: Wired, e: WireEvent): Wired
    requires Happens(b, e)
  {
    match e
    case Act(l, errors) => AfterAct(b, l, errors)
    case DaemonReads(c, turn, _, pipeError, errors) => AfterDaemonReads(b, c, turn, pipeError, errors)
    case ProcessReads(p, turn, _) => AfterProcessReads(b, p, turn)
  }

  predicate Possible(b: Wired, events: seq<WireEvent>)
    decreases |events|
  {
    events == [] || (Happens(b, events[0]) && Possible(After(b, events[0]), events[1..]))
  }

  function Run(b: Wired, events: seq<WireEvent>): Wired
    requires Possible(b, events)
    decreases |events|
  {
    if events == [] then b else Run(After(b, events[0]), events[1..])
  }

  // ---- The step of `Network` that an event is.

  /** A read that hands on a frame is the step that takes it; one that only fails is the
      loss of the connection; any other is none. */
  function LabelOf(b: Wired, e: WireEvent): Option<Label>
    requires Happens(b, e)
  {
    match e
    case Act(l, _) => Some(l)
    case DaemonReads(c, turn, handlerError, pipeError, _) =>
      if Handed(b.contexts[c], b.FromClient(c), turn).Some? then Some(SReceive(c, handlerError, pipeError))
      else if F.Receive(b.contexts[c], b.FromClient(c), turn).1 != SUCCESS then Some(SPipeDown(c))
      else None
    case ProcessReads(p, turn, handlerError) =>
      if Handed(b.readers[p], b.FromDaemon(p), turn).Some? then Some(CReceive(p, IdOf(b.net, p), handlerError))
      else if F.Receive(b.readers[p], b.FromDaemon(p), turn).1 != SUCCESS then Some(CPipeDown(p))
      else None
  }

  function Labels(b: Wired, events: seq<WireEvent>): seq<Label>
    requires Possible(b, events)
    decreases |events|
  {
    if events == [] then []
    else
      var rest := Labels(After(b, events[0]), events[1..]);
      match LabelOf(b, events[0])
      case None => rest
      case Some(l) => [l] + rest
  }
}
