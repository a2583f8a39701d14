/** What each operation of the daemon-side router does to its state (`server_router.cpp`).

    Gateway objects are told apart by their endpoint and by the order in which they were
    created for it, so that two gateways of one endpoint would be visible as such.
    `tables` is the two-level table of weak pointers; as in the client router a weak
    pointer is a name plus the `alive` flag of the object, a destructor is `Dispose`, and
    the gateways the `Disconnected` loop has still to notify are kept in `mourning`. */
module ServerRouterSpec {
  import opened IpcTypes

  datatype Endpoint = Endpoint(tag: Tag, clientId: ClientId)

  /** The `ordinal`-th gateway object ever created for an endpoint. */
  datatype Ref = Ref(endpoint: Endpoint, ordinal: nat)

  datatype ServerState = ServerState(
    services: set<ServiceId>,
    tables: map<ClientId, map<Tag, nat>>,
    objects: map<Endpoint, seq<View>>,
    mourning: set<Ref>,
    outbox: map<ClientId, seq<Frame>>)
  {
    function Objects(e: Endpoint): seq<View> {
      if e in objects then objects[e] else []
    }

    function Outbox(c: ClientId): seq<Frame> {
      if c in outbox then outbox[c] else []
    }

    predicate Routed(c: ClientId) {
      c in tables
    }

    /** The object the table names for an endpoint. */
    function Registered(e: Endpoint): Option<nat> {
      if e.clientId in tables && e.tag in tables[e.clientId] then Some(tables[e.clientId][e.tag]) else None
    }

    predicate Exists(g: Ref) {
      g.ordinal < |Objects(g.endpoint)|
    }

    predicate Usable(g: Ref) {
      Exists(g) && Objects(g.endpoint)[g.ordinal].alive
    }

    function At(g: Ref): View
      requires Exists(g)
    {
      Objects(g.endpoint)[g.ordinal]
    }

    function Set(g: Ref, v: View): ServerState
      requires Exists(g)
    {
      this.(objects := objects[g.endpoint := Objects(g.endpoint)[g.ordinal := v]])
    }

    function Emit(c: ClientId, f: Frame, pipeError: int): ServerState {
      if pipeError == SUCCESS then this.(outbox := outbox[c := Outbox(c) + [f]]) else this
    }

    function Unregister(e: Endpoint): ServerState
      requires Routed(e.clientId)
    {
      this.(tables := tables[e.clientId := tables[e.clientId] - {e.tag}])
    }
  }

  function SendError(r: ServerState, g: Ref, pipeError: int): int {
    if !r.Routed(g.endpoint.clientId) then NOT_CONNECTED
    else if r.Registered(g.endpoint).None? then SHUTDOWN
    else pipeError
  }

  function Send(r: ServerState, g: Ref, service: ServiceId, payload: Payload, pipeError: int): ServerState
    requires r.Usable(g)
  {
    if r.Registered(g.endpoint).None? then r
    else
      var v := r.At(g);
      r.Set(g, v.AfterSend(payload, pipeError))
       .Emit(g.endpoint.clientId, ChannelMsg(g.endpoint.tag, v.nextSequence, service, payload), pipeError)
  }

  function Complete(r: ServerState, g: Ref, error: int): ServerState
    requires r.Usable(g)
  {
    r.Set(g, r.At(g).(completionError := error))
  }

  /** `subscribe` announces the connection to whichever live gateway the endpoint names. */
  function Subscribe(r: ServerState, g: Ref): ServerState
    requires r.Usable(g)
  {
    match r.Registered(g.endpoint)
    case None => r
    case Some(k) =>
      var named := Ref(g.endpoint, k);
      if r.Usable(named) then r.Set(named, r.At(named).Notified(Connected)) else r
  }

  /** The destructor: it erases by tag, whatever object the tag names. */
  function Dispose(r: ServerState, g: Ref, pipeError: int): ServerState
    requires r.Usable(g)
  {
    var v := r.At(g);
    var gone := r.Set(g, v.(alive := false));
    if r.Registered(g.endpoint).None? then gone
    else gone.Unregister(g.endpoint)
             .Emit(g.endpoint.clientId, ChannelEnd(g.endpoint.tag, v.completionError), pipeError)
  }

  /** The endpoint names a gateway that still exists. */
  predicate Reaches(r: ServerState, e: Endpoint) {
    r.Registered(e).Some? && r.Usable(Ref(e, r.Registered(e).value))
  }

  /** This message makes the router create a gateway and call a channel factory. */
  predicate Opens(r: ServerState, c: ClientId, f: Frame) {
    f.ChannelMsg? && r.Routed(c) && !Reaches(r, Endpoint(f.tag, c)) && f.sequence == 0 && f.service in r.services
  }

  function Named(table: map<Tag, nat>, t: Tag, ordinal: nat): map<Tag, nat> {
    table[t := ordinal]
  }

  function ReceiveConnect(r: ServerState, c: ClientId, pipeError: int): ServerState {
    var replied := r.Emit(c, HELLO, pipeError);
    if pipeError == SUCCESS && !r.Routed(c) then replied.(tables := replied.tables[c := map[]]) else replied
  }

  function ReceiveMsg(r: ServerState, c: ClientId, f: Frame): ServerState
    requires f.ChannelMsg?
  {
    var e := Endpoint(f.tag, c);
    if Reaches(r, e) then
      var g := Ref(e, r.Registered(e).value);
      r.Set(g, r.At(g).Notified(Message(f.sequence, f.payload)))
    else if Opens(r, c, f) then
      var created := FreshView(Some(Opening(f.service, f.payload)));
      r.(objects := r.objects[e := r.Objects(e) + [created]],
         tables := r.tables[c := Named(r.tables[c], f.tag, |r.Objects(e)|)])
    else r
  }

  function ReceiveEnd(r: ServerState, c: ClientId, f: Frame): ServerState
    requires f.ChannelEnd?
  {
    var e := Endpoint(f.tag, c);
    if Reaches(r, e) then
      var g := Ref(e, r.Registered(e).value);
      r.Unregister(e).Set(g, r.At(g).Notified(Completed(f.error)))
    else r
  }

  /** One message from the pipe of client `c`; `pipeError` is for the reply, if any. */
  function Receive(r: ServerState, c: ClientId, f: Frame, pipeError: int): ServerState {
    match f
    case Empty => r
    case Connect(_, _, _) => ReceiveConnect(r, c, pipeError)
    case ChannelMsg(_, _, _, _) => ReceiveMsg(r, c, f)
    case ChannelEnd(_, _) => ReceiveEnd(r, c, f)
  }

  function ReceiveError(r: ServerState, c: ClientId, f: Frame, handlerError: int, pipeError: int): int {
    match f
    case Empty => INVALID
    case Connect(_, _, _) => pipeError
    case ChannelMsg(t, _, _, _) => if Reaches(r, Endpoint(t, c)) then handlerError else SUCCESS
    case ChannelEnd(t, _) => if Reaches(r, Endpoint(t, c)) then handlerError else SUCCESS
  }

  function PipeDisconnected(r: ServerState, c: ClientId): ServerState {
    if !r.Routed(c) then r
    else r.(tables := r.tables - {c},
            mourning := r.mourning + set t | t in r.tables[c] :: Ref(Endpoint(t, c), r.tables[c][t]))
  }

  function Mourn(r: ServerState, g: Ref): ServerState
    requires g in r.mourning
  {
    var rest := r.(mourning := r.mourning - {g});
    if r.Usable(g) then rest.Set(g, r.At(g).Notified(Completed(DISCONNECTED))) else rest
  }

  // ---- The notification loop as a whole, with handlers that call back.

  /** What a handler may do to its router while it runs. */
  datatype Call =
    | CallSend(g: Ref, service: ServiceId, payload: Payload, pipeError: int)
    | CallComplete(g: Ref, error: int)
    | CallSubscribe(g: Ref)
    | CallDispose(g: Ref, pipeError: int)

  /** A gateway that is gone cannot be called. */
  function Called(r: ServerState, call: Call): ServerState {
    if !r.Usable(call.g) then r
    else
      match call
      case CallSend(g, service, payload, e) => Send(r, g, service, payload, e)
      case CallComplete(g, error) => Complete(r, g, error)
      case CallSubscribe(g) => Subscribe(r, g)
      case CallDispose(g, e) => Dispose(r, g, e)
  }

  function AllCalled(r: ServerState, calls: seq<Call>): ServerState {
    if calls == [] then r else Called(AllCalled(r, calls[..|calls| - 1]), calls[|calls| - 1])
  }

  /** Only a living gateway has a handler to react. */
  function MournCalls(r: ServerState, reactions: map<Ref, seq<Call>>, g: Ref): seq<Call> {
    if r.Usable(g) && g in reactions then reactions[g] else []
  }

  /** The loop in this order; the handler of `g` makes the calls `reactions[g]`. */
  function MournLoop(r: ServerState, order: seq<Ref>, reactions: map<Ref, seq<Call>>): ServerState {
    if order == [] then r
    else
      var g := order[|order| - 1];
      var before := MournLoop(r, order[..|order| - 1], reactions);
      if g in before.mourning then AllCalled(Mourn(before, g), MournCalls(before, reactions, g)) else before
  }

  lemma NoTurns(r: ServerState, reactions: map<Ref, seq<Call>>)
    ensures MournLoop(r, [], reactions) == r
  {
  }

  lemma OneMournTurn(r: ServerState, order: seq<Ref>, reactions: map<Ref, seq<Call>>, g: Ref)
    requires g in MournLoop(r, order, reactions).mourning
    ensures var before := MournLoop(r, order, reactions);
            MournLoop(r, order + [g], reactions) == AllCalled(Mourn(before, g), MournCalls(before, reactions, g))
  {
    assert (order + [g])[..|order|] == order;
  }

  ghost predicate Once(order: seq<Ref>) {
    forall i, j :: 0 <= i < j < |order| ==> order[i] != order[j]
  }

  /** One more turn of a loop that takes its gateways from `left`. */
  lemma OneMoreTurn(order: seq<Ref>, left: set<Ref>, g: Ref)
    requires Once(order) && left !! (set h | h in order) && g in left
    ensures Once(order + [g]) && left - {g} !! (set h | h in order + [g])
    ensures (set h | h in order + [g]) + (left - {g}) == (set h | h in order) + left
  {
  }

  lemma CalledKeeps(r: ServerState, call: Call, g: Ref)
    requires r.Exists(g)
    ensures var r' := Called(r, call);
            r'.mourning == r.mourning && r'.tables.Keys == r.tables.Keys && r'.Exists(g)
  {
  }

  lemma CalledTells(r: ServerState, call: Call, g: Ref)
    requires r.Exists(g) && Called(r, call).Exists(g) && !r.Routed(g.endpoint.clientId)
    ensures Called(r, call).At(g).events == r.At(g).events
  {
  }

  /** Calls cannot tell a gateway of a client that is gone anything. */
  lemma {:induction false} CallsKeep(r: ServerState, calls: seq<Call>, g: Ref)
    requires r.Exists(g)
    ensures var r' := AllCalled(r, calls);
            && r'.mourning == r.mourning && r'.tables.Keys == r.tables.Keys && r'.Exists(g)
            && (!r.Routed(g.endpoint.clientId) ==> r'.At(g).events == r.At(g).events)
    decreases |calls|
  {
    hide Called;
    if calls != [] {
      var rest := calls[..|calls| - 1];
      CallsKeep(r, rest, g);
      CalledKeeps(AllCalled(r, rest), calls[|calls| - 1], g);
      if !r.Routed(g.endpoint.clientId) { CalledTells(AllCalled(r, rest), calls[|calls| - 1], g); }
    }
  }

  lemma MournTells(r: ServerState, g: Ref, h: Ref)
    requires g in r.mourning && r.Exists(h)
    ensures var r' := Mourn(r, g);
            && r'.mourning == r.mourning - {g} && r'.tables == r.tables && r'.Exists(h)
            && r'.At(h).events ==
               r.At(h).events + (if g == h && r.Usable(g) then [Completed(DISCONNECTED)] else [])
  {
  }

  /** Whatever the order and whatever the handlers do, the loop tells each gateway of the lost
      client that still exists when its turn comes, once, and nothing else tells it anything. */
  lemma {:induction false} MournsEvery(r: ServerState, order: seq<Ref>, reactions: map<Ref, seq<Call>>, g: Ref)
    requires r.Exists(g) && !r.Routed(g.endpoint.clientId)
    requires Once(order) && forall h :: h in order ==> h in r.mourning
    ensures var r' := MournLoop(r, order, reactions);
            && r'.Exists(g) && r'.tables.Keys == r.tables.Keys
            && r'.mourning == r.mourning - (set h | h in order)
            && (g !in order ==> r'.At(g).events == r.At(g).events)
            && forall i :: 0 <= i < |order| && order[i] == g ==>
                 r'.At(g).events ==
                 r.At(g).events +
                 (if MournLoop(r, order[..i], reactions).Usable(g) then [Completed(DISCONNECTED)] else [])
    decreases |order|
  {
    hide AllCalled, Mourn, MournCalls;
    if order != [] {
      var last, rest := order[|order| - 1], order[..|order| - 1];
      MournsEvery(r, rest, reactions, g);
      var before := MournLoop(r, rest, reactions);
      MournTells(before, last, g);
      CallsKeep(Mourn(before, last), MournCalls(before, reactions, last), g);
      forall i | 0 <= i < |rest| ensures order[..i] == rest[..i] {}
    }
  }
}
