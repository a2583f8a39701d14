/** What each operation of the SDK-side router does to its state (`client_router.cpp`).

    A weak pointer is a tag plus the `alive` flag of its gateway; a destructor is the
    operation `Dispose`. The two loops that notify gateways run user callbacks, so the
    gateways a loop has still to notify are kept in the state: `greeting` for the loop of
    `handleRouteConnect` (its snapshot holds strong pointers), `mourning` for the loop of
    the pipe's `Disconnected` (its snapshot holds weak pointers). Any user operation may
    happen between two notifications. `outbox` is every frame the pipe has accepted. */
module ClientRouterSpec {
  import opened IpcTypes

  datatype ClientState = ClientState(
    nextTag: Tag,
    connected: bool,
    table: set<Tag>,
    gateways: map<Tag, View>,
    greeting: set<Tag>,
    mourning: set<Tag>,
    outbox: seq<Frame>)
  {
    /** The user still owns this gateway. */
    predicate Usable(t: Tag) {
      t in gateways && gateways[t].alive
    }

    /** No notification loop is running. */
    predicate Idle() {
      greeting == {} && mourning == {}
    }

    function Set(t: Tag, v: View): ClientState {
      this.(gateways := gateways[t := v])
    }

    function Emit(f: Frame, pipeError: int): ClientState {
      if pipeError == SUCCESS then this.(outbox := outbox + [f]) else this
    }
  }

  const INITIAL: ClientState := ClientState(0, false, {}, map[], {}, {}, [])

  function MakeGateway(r: ClientState): ClientState {
    r.(nextTag := r.nextTag + 1,
       table := r.table + {r.nextTag},
       gateways := r.gateways[r.nextTag := FreshView(None)])
  }

  function SendError(r: ClientState, t: Tag, pipeError: int): int {
    if !r.connected then NOT_CONNECTED
    else if t !in r.table then SHUTDOWN
    else pipeError
  }

  function Send(r: ClientState, t: Tag, service: ServiceId, payload: Payload, pipeError: int): ClientState
    requires r.Usable(t)
  {
    if !r.connected || t !in r.table then r
    else
      r.Set(t, r.gateways[t].AfterSend(payload, pipeError))
       .Emit(ChannelMsg(t, r.gateways[t].nextSequence, service, payload), pipeError)
  }

  function Complete(r: ClientState, t: Tag, error: int): ClientState
    requires r.Usable(t)
  {
    r.Set(t, r.gateways[t].(completionError := error))
  }

  /** Whether the gateway's handler is called from inside `subscribe`. */
  predicate SubscribeNotifies(r: ClientState, t: Tag)
    requires r.Usable(t)
  {
    r.connected && t in r.table
  }

  function Subscribe(r: ClientState, t: Tag): ClientState
    requires r.Usable(t)
  {
    if SubscribeNotifies(r, t) then r.Set(t, r.gateways[t].Notified(Connected)) else r
  }

  /** The destructor; not before the snapshot of the greeting loop lets go. */
  function Dispose(r: ClientState, t: Tag, pipeError: int): ClientState
    requires r.Usable(t)
  {
    var g := r.gateways[t];
    var gone := r.(table := r.table - {t}).Set(t, g.(alive := false));
    if t in r.table && g.nextSequence > 0 && r.connected
    then gone.Emit(ChannelEnd(t, g.completionError), pipeError)
    else gone
  }

  function PipeConnected(r: ClientState, pipeError: int): ClientState {
    r.Emit(HELLO, pipeError)
  }

  /** One message from the pipe. */
  function Receive(r: ClientState, f: Frame): ClientState {
    match f
    case Empty => r
    case Connect(_, _, _) =>
      if r.connected then r
      else r.(connected := true, greeting := set t | t in r.table && r.Usable(t))
    case ChannelMsg(t, sequence, _, payload) =>
      if t in r.table && r.Usable(t) then r.Set(t, r.gateways[t].Notified(Message(sequence, payload))) else r
    case ChannelEnd(t, error) =>
      if t in r.table && r.Usable(t)
      then r.(table := r.table - {t}).Set(t, r.gateways[t].Notified(Completed(error)))
      else r
  }

  /** What the handler of a pipe message returns; anything but 0 closes the pipe. */
  function ReceiveError(r: ClientState, f: Frame, handlerError: int): int {
    match f
    case Empty => INVALID
    case Connect(_, _, _) => SUCCESS
    case ChannelMsg(t, _, _, _) => if t in r.table && r.Usable(t) then handlerError else SUCCESS
    case ChannelEnd(t, _) => if t in r.table && r.Usable(t) then handlerError else SUCCESS
  }

  /** One turn of the loop that announces the connection. */
  function Greet(r: ClientState, t: Tag): ClientState
    requires t in r.greeting && t in r.gateways
  {
    r.(greeting := r.greeting - {t}).Set(t, r.gateways[t].Notified(Connected))
  }

  function PipeDisconnected(r: ClientState): ClientState {
    if r.connected then r.(connected := false, mourning := r.table, table := {}) else r
  }

  /** One turn of the loop that announces the disconnection. */
  function Mourn(r: ClientState, t: Tag): ClientState
    requires t in r.mourning && t in r.gateways
  {
    var rest := r.(mourning := r.mourning - {t});
    if r.Usable(t) then rest.Set(t, r.gateways[t].Notified(Completed(DISCONNECTED))) else rest
  }

  // ---- The notification loops as a whole, with handlers that call back.

  /** What a handler may do to its router while it runs. */
  datatype Call =
    | CallMake
    | CallSend(t: Tag, service: ServiceId, payload: Payload, pipeError: int)
    | CallComplete(t: Tag, error: int)
    | CallSubscribe(t: Tag)
    | CallDispose(t: Tag, pipeError: int)

  /** A gateway that is gone cannot be called; one that a snapshot holds is not destroyed. */
  function Called(r: ClientState, call: Call, held: set<Tag>): ClientState {
    match call
    case CallMake => MakeGateway(r)
    case CallSend(t, service, payload, e) => if r.Usable(t) then Send(r, t, service, payload, e) else r
    case CallComplete(t, error) => if r.Usable(t) then Complete(r, t, error) else r
    case CallSubscribe(t) => if r.Usable(t) then Subscribe(r, t) else r
    case CallDispose(t, e) => if r.Usable(t) && t !in held then Dispose(r, t, e) else r
  }

  function AllCalled(r: ClientState, calls: seq<Call>, held: set<Tag>): ClientState {
    if calls == [] then r else Called(AllCalled(r, calls[..|calls| - 1], held), calls[|calls| - 1], held)
  }

  function CallsOf(reactions: map<Tag, seq<Call>>, t: Tag): seq<Call> {
    if t in reactions then reactions[t] else []
  }

  /** The greeting loop in this order; the handler of `t` makes the calls `reactions[t]`. The
      snapshot holds all its gateways until the loop is over. */
  function GreetLoop(r: ClientState, order: seq<Tag>, reactions: map<Tag, seq<Call>>): ClientState {
    if order == [] then r
    else
      var t := order[|order| - 1];
      var before := GreetLoop(r, order[..|order| - 1], reactions);
      if t in before.greeting && t in before.gateways
      then AllCalled(Greet(before, t), CallsOf(reactions, t), r.greeting) else before
  }

  /** The same of the loop that announces the disconnection; only living gateways react. It
      holds none but the one it tells, whose own destructor would be the last call. */
  function MournLoop(r: ClientState, order: seq<Tag>, reactions: map<Tag, seq<Call>>): ClientState {
    if order == [] then r
    else
      var t := order[|order| - 1];
      var before := MournLoop(r, order[..|order| - 1], reactions);
      if t in before.mourning && t in before.gateways
      then AllCalled(Mourn(before, t), MournCalls(before, reactions, t), {}) else before
  }

  function MournCalls(r: ClientState, reactions: map<Tag, seq<Call>>, t: Tag): seq<Call> {
    if r.Usable(t) then CallsOf(reactions, t) else []
  }

  lemma NoTurns(r: ClientState, reactions: map<Tag, seq<Call>>)
    ensures GreetLoop(r, [], reactions) == r && MournLoop(r, [], reactions) == r
  {
  }

  lemma OneGreetTurn(r: ClientState, order: seq<Tag>, reactions: map<Tag, seq<Call>>, t: Tag)
    requires var before := GreetLoop(r, order, reactions); t in before.greeting && t in before.gateways
    ensures GreetLoop(r, order + [t], reactions) ==
            AllCalled(Greet(GreetLoop(r, order, reactions), t), CallsOf(reactions, t), r.greeting)
  {
    assert (order + [t])[..|order|] == order;
  }

  lemma OneMournTurn(r: ClientState, order: seq<Tag>, reactions: map<Tag, seq<Call>>, t: Tag)
    requires var before := MournLoop(r, order, reactions); t in before.mourning && t in before.gateways
    ensures var before := MournLoop(r, order, reactions);
            MournLoop(r, order + [t], reactions) == AllCalled(Mourn(before, t), MournCalls(before, reactions, t), {})
  {
    assert (order + [t])[..|order|] == order;
  }

  ghost predicate Once(order: seq<Tag>) {
    forall i, j :: 0 <= i < j < |order| ==> order[i] != order[j]
  }

  /** One more turn of a loop that takes its gateways from `left`. */
  lemma OneMoreTurn(order: seq<Tag>, left: set<Tag>, t: Tag)
    requires Once(order) && left !! (set u | u in order) && t in left
    ensures Once(order + [t]) && left - {t} !! (set u | u in order + [t])
    ensures (set u | u in order + [t]) + (left - {t}) == (set u | u in order) + left
  {
  }

  /** Calls do not touch the snapshots, and no gateway is ever forgotten. */
  lemma {:induction false} CallsKeep(r: ClientState, calls: seq<Call>, held: set<Tag>)
    ensures var r' := AllCalled(r, calls, held);
            r'.greeting == r.greeting && r'.mourning == r.mourning && r.gateways.Keys <= r'.gateways.Keys
    decreases |calls|
  {
    if calls != [] { CallsKeep(r, calls[..|calls| - 1], held); }
  }

  /** The gateways are those whose tags were given out. */
  ghost predicate TagsFit(r: ClientState) {
    forall t :: t in r.gateways ==> t < r.nextTag
  }

  predicate Subscribes(calls: seq<Call>, t: Tag) {
    CallSubscribe(t) in calls
  }

  lemma CalledEvents(r: ClientState, call: Call, held: set<Tag>, t: Tag)
    requires TagsFit(r) && t in r.gateways
    ensures var r' := Called(r, call, held);
            && TagsFit(r') && t in r'.gateways && r'.connected == r.connected
            && (r.gateways[t].events <= r'.gateways[t].events)
            && (call != CallSubscribe(t) || !r.connected ==> r'.gateways[t].events == r.gateways[t].events)
  {
  }

  /** Calls do not change what gateways were told; only `subscribe` adds to it. */
  lemma {:induction false} CallsOnlyAdd(r: ClientState, calls: seq<Call>, held: set<Tag>, t: Tag)
    requires TagsFit(r) && t in r.gateways
    ensures var r' := AllCalled(r, calls, held);
            && TagsFit(r') && t in r'.gateways && r'.connected == r.connected
            && (r.gateways[t].events <= r'.gateways[t].events)
            && (!Subscribes(calls, t) || !r.connected ==> r'.gateways[t].events == r.gateways[t].events)
    decreases |calls|
  {
    hide Called, TagsFit;
    if calls != [] {
      var rest := calls[..|calls| - 1];
      CallsOnlyAdd(r, rest, held, t);
      CalledEvents(AllCalled(r, rest, held), calls[|calls| - 1], held, t);
    }
  }

  /** Whatever the order and whatever the handlers do, the greeting loop tells every gateway
      of its snapshot; and once only, unless its handler or another subscribes it again. */
  lemma {:induction false} GreetsEvery(r: ClientState, order: seq<Tag>, reactions: map<Tag, seq<Call>>, t: Tag)
    requires TagsFit(r) && t in r.gateways
    requires Once(order) && forall u :: u in order ==> u in r.greeting && u in r.gateways
    ensures var r' := GreetLoop(r, order, reactions);
            && TagsFit(r') && r.gateways.Keys <= r'.gateways.Keys && r'.greeting == r.greeting - (set u | u in order)
            && var told := r.gateways[t].events + (if t in order then [Connected] else []);
               && (t in order ==> |r'.gateways[t].events| >= |told|)
               && r.gateways[t].events <= r'.gateways[t].events
               && ((forall u :: !Subscribes(CallsOf(reactions, u), t)) ==> r'.gateways[t].events == told)
    decreases |order|
  {
    hide AllCalled, TagsFit, Subscribes, CallsOf;
    if order != [] {
      var last, rest := order[|order| - 1], order[..|order| - 1];
      GreetsEvery(r, rest, reactions, t);
      var before := GreetLoop(r, rest, reactions);
      GreetFits(before, last);
      CallsKeep(Greet(before, last), CallsOf(reactions, last), r.greeting);
      CallsOnlyAdd(Greet(before, last), CallsOf(reactions, last), r.greeting, t);
    }
  }

  lemma GreetFits(r: ClientState, t: Tag)
    requires TagsFit(r) && t in r.greeting && t in r.gateways
    ensures TagsFit(Greet(r, t))
  {
  }

  /** The loop over the lost gateways tells each that still exists when its turn comes, once,
      and no call of a handler can tell a gateway anything. */
  lemma {:induction false} MournsEvery(r: ClientState, order: seq<Tag>, reactions: map<Tag, seq<Call>>, t: Tag)
    requires TagsFit(r) && t in r.gateways && !r.connected
    requires Once(order) && forall u :: u in order ==> u in r.mourning && u in r.gateways
    ensures var r' := MournLoop(r, order, reactions);
            && TagsFit(r') && !r'.connected && r.gateways.Keys <= r'.gateways.Keys
            && r'.mourning == r.mourning - (set u | u in order)
            && (t !in order ==> r'.gateways[t].events == r.gateways[t].events)
            && forall i :: 0 <= i < |order| && order[i] == t ==>
                 r'.gateways[t].events ==
                 r.gateways[t].events +
                 (if MournLoop(r, order[..i], reactions).Usable(t) then [Completed(DISCONNECTED)] else [])
    decreases |order|
  {
    hide AllCalled, TagsFit, Subscribes, CallsOf;
    if order != [] {
      var last, rest := order[|order| - 1], order[..|order| - 1];
      MournsEvery(r, rest, reactions, t);
      var before := MournLoop(r, rest, reactions);
      var calls := MournCalls(before, reactions, last);
      MournFits(before, last);
      CallsKeep(Mourn(before, last), calls, {});
      CallsOnlyAdd(Mourn(before, last), calls, {}, t);
      forall i | 0 <= i < |rest| ensures order[..i] == rest[..i] {}
    }
  }

  lemma MournFits(r: ClientState, t: Tag)
    requires TagsFit(r) && t in r.mourning && t in r.gateways
    ensures TagsFit(Mourn(r, t))
  {
  }
}
