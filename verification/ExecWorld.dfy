/** Any number of SDK processes that submit 'exec cmd' requests to one daemon.

    `calls` are the clients, by the gateway of their channel. In the daemon, `fsms` are all
    machines ever made, `live` is the key set of `id_to_fsm_`, `channels` the gateway that
    each machine's channel wraps and `handlers` the machine whose handler a gateway calls.
    Gateways that belong to other services and clients act as they like. */
module ExecWorld {
  import opened IpcTypes
  import opened Channel
  import opened Network
  import opened Projection
  import opened ExecCodec
  import opened ExecSpec
  import opened ExecChannel
  import C = ClientRouterSpec
  import S = ServerRouterSpec

  type FsmId = nat

  datatype World = World(
    net: Sys,
    calls: map<(Pid, Tag), Call>,
    fsms: map<FsmId, Fsm>,
    live: set<FsmId>,
    channels: map<FsmId, S.Ref>,
    handlers: map<S.Ref, FsmId>,
    nextFsm: FsmId)
  {
    function CallAt(p: Pid, t: Tag): Option<Call> {
      if (p, t) in calls then Some(calls[(p, t)]) else None
    }

    predicate Submitted(p: Pid, t: Tag) {
      (p, t) in calls && calls[(p, t)].submitted
    }

    function FsmAt(g: S.Ref): Option<Fsm> {
      if g in handlers && handlers[g] in fsms then Some(fsms[handlers[g]]) else None
    }

    predicate LiveAt(g: S.Ref) {
      g in handlers && handlers[g] in fsms && handlers[g] in live
    }
  }

  function InitialWorld(services: set<ServiceId>): World {
    World(Initial(services), map[], map[], {}, map[], map[], 0)
  }

  datatype Act =
    | NewCall(p: Pid, q: Request)
    | Submit(p: Pid, t: Tag, pipeError: int)
    | Greet(p: Pid, t: Tag, pipeError: int)
    | Drop(p: Pid, t: Tag, pipeError: int)
    | Read(p: Pid, c: ClientId, handlerError: int)
    | Mourn(p: Pid, t: Tag)
    | Serve(c: ClientId, handlerError: int, pipeError: int, launch: Launch, endError: int)
    | Bereave(g: S.Ref, endError: int)
    | Resolve(i: FsmId, n: NodeId, outcome: Outcome, sendError: int, endError: int)
    | Other(l: Label)

  /** What users of other channels, and the connections, may do. */
  predicate OtherMay(x: World, l: Label) {
    match l
    case Launch(_) => true
    case CMake(_) => true
    case CSend(p, t, service, _, _) => (p, t) !in x.calls && service != SERVICE
    case CComplete(p, t, _) => (p, t) !in x.calls
    case CSubscribe(p, t) => (p, t) !in x.calls
    case CDispose(p, t, _) => (p, t) !in x.calls
    case CPipeUp(_, _) => true
    case CPipeDown(_) => true
    case Accept(_) => true
    case SSend(g, _, _, _) => g !in x.handlers
    case SComplete(g, _) => g !in x.handlers
    case SSubscribe(g) => g !in x.handlers
    case SDispose(g, _) => g !in x.handlers
    case SPipeDown(_) => true
    case _ => false
  }

  predicate Can(x: World, a: Act) {
    match a
    case NewCall(p, _) => p in x.net.hosts
    case Submit(p, t, _) => (p, t) in x.calls && Enabled(x.net, CSubscribe(p, t))
    case Greet(p, t, _) => Enabled(x.net, CGreet(p, t))
    case Drop(p, t, e) => (p, t) in x.calls && Enabled(x.net, CDispose(p, t, e))
    case Read(p, c, e) => Enabled(x.net, CReceive(p, c, e))
    case Mourn(p, t) => Enabled(x.net, CMourn(p, t))
    case Serve(c, h, e, launch, _) =>
      Enabled(x.net, SReceive(c, h, e)) && (launch.OneFailed? ==> launch.error != SUCCESS)
    case Bereave(g, _) => Enabled(x.net, SMourn(g))
    case Resolve(i, n, outcome, _, _) =>
      && i in x.live && i in x.fsms && i in x.channels && n in x.fsms[i].ops && x.net.server.mourning == {}
      && (outcome.Answered? ==> ResponseFits(n, outcome.response))
    case Other(l) => Enabled(x.net, l) && OtherMay(x, l)
  }

  function Do(s: Sys, l: Label): Sys {
    if Enabled(s, l) then Step(s, l) else s
  }

  // ---- The SDK end.

  /** `handleEvent(Connected)`: the request is serialized and sent; errors are reported. */
  function SendRequest(x: World, p: Pid, t: Tag, pipeError: int): World
    requires (p, t) in x.calls && p in x.net.hosts
  {
    var c := x.calls[(p, t)];
    var error := if RequestFits(c.request) then C.SendError(x.net.hosts[p].router, t, pipeError) else INVALID;
    x.(net := if RequestFits(c.request)
              then Do(x.net, CSend(p, t, SERVICE, PutRequest(c.request), pipeError)) else x.net,
       calls := x.calls[(p, t) := OnSent(c, error)])
  }

  function SubmitCall(x: World, p: Pid, t: Tag, pipeError: int): World
    requires (p, t) in x.calls && Enabled(x.net, CSubscribe(p, t))
  {
    var c := x.calls[(p, t)];
    var ready := x.(calls := x.calls[(p, t) := c.(submitted := true)], net := Step(x.net, CSubscribe(p, t)));
    if C.SubscribeNotifies(x.net.hosts[p].router, t) then SendRequest(ready, p, t, pipeError) else ready
  }

  function GreetOne(x: World, p: Pid, t: Tag, pipeError: int): World
    requires Enabled(x.net, CGreet(p, t))
  {
    var told := x.(net := Step(x.net, CGreet(p, t)));
    if x.Submitted(p, t) then SendRequest(told, p, t, pipeError) else told
  }

  /** The frame is given to the handler of a client that was submitted. */
  predicate CallHears(x: World, p: Pid, f: Frame)
    requires p in x.net.hosts
  {
    && (f.ChannelMsg? || f.ChannelEnd?)
    && f.tag in x.net.hosts[p].router.table && x.net.hosts[p].router.Usable(f.tag)
    && x.Submitted(p, f.tag)
  }

  /** What the gateway's handler returns: a response that does not decode is an error. */
  function CallError(x: World, p: Pid, f: Frame, handlerError: int): int {
    if (f.ChannelMsg? || f.ChannelEnd?) && (p, f.tag) in x.calls then
      if f.ChannelMsg? && x.Submitted(p, f.tag) && GetResponse(f.payload).None? then INVALID else SUCCESS
    else handlerError
  }

  function ReadOne(x: World, p: Pid, c: ClientId, handlerError: int): World
    requires Enabled(x.net, CReceive(p, c, handlerError))
  {
    var f := x.net.server.Outbox(c)[x.net.hosts[p].taken];
    var read := x.(net := Step(x.net, CReceive(p, c, CallError(x, p, f, handlerError))));
    if !CallHears(x, p, f) then read
    else
      var call := x.calls[(p, f.tag)];
      read.(calls := x.calls[(p, f.tag) :=
        if f.ChannelMsg? then OnInput(call, f.payload) else OnCompleted(call, f.error)])
  }

  function MournOne(x: World, p: Pid, t: Tag): World
    requires Enabled(x.net, CMourn(p, t))
  {
    var told := x.(net := Step(x.net, CMourn(p, t)));
    if x.net.hosts[p].router.Usable(t) && x.Submitted(p, t)
    then told.(calls := x.calls[(p, t) := OnCompleted(x.calls[(p, t)], DISCONNECTED)])
    else told
  }

  // ---- The daemon's end.

  function Finished(s: Sys, g: S.Ref, error: int, endError: int): Sys {
    Do(Do(s, SComplete(g, error)), SDispose(g, endError))
  }

  /** Machine `i` becomes `f`; once complete it leaves `id_to_fsm_` and its channel dies. */
  function Settle(x: World, i: FsmId, g: S.Ref, f: Fsm, endError: int): World {
    if f.completion.None? then x.(fsms := x.fsms[i := f])
    else x.(net := Finished(x.net, g, f.completion.value, endError), fsms := x.fsms[i := f], live := x.live - {i})
  }

  /** The step gave this gateway the event that its channel is complete. */
  predicate Completes(s: Sys, s': Sys, g: S.Ref) {
    && s.server.Exists(g) && s'.server.Exists(g)
    && (var before, after := s.server.At(g).events, s'.server.At(g).events;
        |after| > |before| && after[|before|].Completed?)
  }

  /** `ExecCmdServiceImpl::operator()`, for a request that decodes. */
  function OpenFsm(x: World, g: S.Ref, q: Request, launch: Launch, endError: int): World {
    var i := x.nextFsm;
    var made := x.(net := Do(x.net, SSubscribe(g)), live := x.live + {i}, nextFsm := i + 1,
                   channels := x.channels[i := g], handlers := x.handlers[g := i]);
    Settle(made, i, g, Start(q, launch), endError)
  }

  function FsmError(x: World, c: ClientId, f: Frame, handlerError: int): int {
    if (f.ChannelMsg? || f.ChannelEnd?) && S.Ref(S.Endpoint(f.tag, c), 0) in x.handlers then
      if f.ChannelMsg? && GetRequest(f.payload).None? then INVALID else SUCCESS
    else handlerError
  }

  /** A machine is cancelled by the event that its gateway is given. */
  function ServeOne(x: World, c: ClientId, handlerError: int, pipeError: int, launch: Launch, endError: int): World
    requires Enabled(x.net, SReceive(c, handlerError, pipeError))
  {
    var f := x.net.Next(c);
    var served := x.(net := Step(x.net, SReceive(c, FsmError(x, c, f, handlerError), pipeError)));
    if S.Opens(x.net.server, c, f) && f.service == SERVICE then
      var g := S.Ref(S.Endpoint(f.tag, c), |x.net.server.Objects(S.Endpoint(f.tag, c))|);
      match GetRequest(f.payload)
      case None => served.(net := Do(served.net, SDispose(g, endError)))
      case Some(q) => OpenFsm(served, g, q, launch, endError)
    else if f.ChannelMsg? || f.ChannelEnd? then
      var g := S.Ref(S.Endpoint(f.tag, c), 0);
      if Completes(x.net, served.net, g) && x.LiveAt(g)
      then Settle(served, x.handlers[g], g, Cancel(x.fsms[x.handlers[g]]), endError) else served
    else served
  }

  function BereaveOne(x: World, g: S.Ref, endError: int): World
    requires Enabled(x.net, SMourn(g))
  {
    var told := x.(net := Step(x.net, SMourn(g)));
    if Completes(x.net, told.net, g) && x.LiveAt(g)
    then Settle(told, x.handlers[g], g, Cancel(x.fsms[x.handlers[g]]), endError)
    else told
  }

  function ResolveOne(x: World, i: FsmId, n: NodeId, outcome: Outcome, sendError: int, endError: int): World
    requires Can(x, Resolve(i, n, outcome, sendError, endError))
  {
    var g := x.channels[i];
    var sent := if outcome.Answered?
      then x.(net := Do(x.net, SSend(g, SERVICE, PutResponse(n, outcome.response), sendError))) else x;
    Settle(sent, i, g, ExecSpec.Resolve(x.fsms[i], n, outcome, S.SendError(x.net.server, g, sendError)), endError)
  }

  function Next(x: World, a: Act): World
    requires Can(x, a)
  {
    match a
    case NewCall(p, q) =>
      x.(net := Step(x.net, CMake(p)), calls := x.calls[(p, x.net.hosts[p].router.nextTag) := ExecSpec.NewCall(q)])
    case Submit(p, t, e) => SubmitCall(x, p, t, e)
    case Greet(p, t, e) => GreetOne(x, p, t, e)
    case Drop(p, t, e) => x.(net := Step(x.net, CDispose(p, t, e)))
    case Read(p, c, e) => ReadOne(x, p, c, e)
    case Mourn(p, t) => MournOne(x, p, t)
    case Serve(c, h, e, launch, endError) => ServeOne(x, c, h, e, launch, endError)
    case Bereave(g, endError) => BereaveOne(x, g, endError)
    case Resolve(i, n, outcome, sendError, endError) => ResolveOne(x, i, n, outcome, sendError, endError)
    case Other(l) => x.(net := Step(x.net, l))
  }

  predicate CanAll(x: World, acts: seq<Act>)
    decreases |acts|
  {
    acts == [] || (Can(x, acts[0]) && CanAll(Next(x, acts[0]), acts[1..]))
  }

  function After(x: World, acts: seq<Act>): World
    requires CanAll(x, acts)
    decreases |acts|
  {
    if acts == [] then x else After(Next(x, acts[0]), acts[1..])
  }

  // ---- What every action keeps.

  function LineOf(x: World, p: Pid, t: Tag): Line
    requires Readable(x.net, p)
  {
    var g := S.Ref(S.Endpoint(t, IdOf(x.net, p)), 0);
    Line(ChanOf(x.net, p, t), x.CallAt(p, t), x.FsmAt(g), x.LiveAt(g))
  }

  /** Machines and the gateways they were made for name each other. */
  ghost predicate Books(x: World) {
    && x.channels.Keys == x.fsms.Keys
    && x.live <= x.fsms.Keys
    && (forall i :: i in x.fsms ==> i < x.nextFsm && x.channels[i] in x.handlers && x.handlers[x.channels[i]] == i)
    && (forall g :: g in x.handlers ==>
          && x.handlers[g] in x.fsms && x.channels[x.handlers[g]] == g
          && g.ordinal == 0 && g.endpoint.clientId in x.net.sockets)
    && (forall k :: k in x.calls ==> k.0 in x.net.hosts)
  }

  ghost predicate AllLinesGood(x: World) {
    forall p :: p in x.net.hosts ==> Readable(x.net, p) && forall t :: LineGood(LineOf(x, p, t))
  }

  ghost predicate WorldGood(x: World) {
    Inv(x.net) && Books(x) && AllLinesGood(x)
  }
}
