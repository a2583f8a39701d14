/** One channel of the 'exec cmd' service together with the client at its SDK end and the
    state machine at its daemon end, if they exist; and what their actions keep. */
module ExecChannel {
  import opened IpcTypes
  import opened Channel
  import opened ExecCodec
  import opened ExecSpec

  datatype Line = Line(k: Chan, call: Option<Call>, fsm: Option<Fsm>, live: bool)

  // ---- Actions at the SDK end.

  function LineNewCall(z: Line, q: Request): Line {
    z.(k := Make(z.k), call := Some(NewCall(q)))
  }

  predicate Handles(z: Line) {
    z.call.Some? && z.call.value.submitted
  }

  /** What sending the request gives; the serializer may refuse it first. */
  function SubmitError(n: Near, q: Request, pipeError: int): int {
    if !RequestFits(q) then INVALID
    else if !n.connected then NOT_CONNECTED
    else if !n.listed then SHUTDOWN
    else pipeError
  }

  /** The client's handler of `Connected`: it sends the request. */
  function OnConnected(z: Line, pipeError: int): Line
    requires Handles(z)
  {
    var q := z.call.value.request;
    z.(k := if RequestFits(q) then NearSend(z.k, SERVICE, PutRequest(q), pipeError) else z.k,
       call := Some(OnSent(z.call.value, SubmitError(z.k.near, q, pipeError))))
  }

  function LineDrop(z: Line, pipeError: int): Line {
    z.(k := NearDispose(z.k, pipeError))
  }

  /** The client's handler of whatever event a frame becomes. */
  function LineReads(z: Line, f: Frame): Line {
    var read := z.(k := NearReads(z.k, f));
    if !(f.For(z.k.tag) && z.k.near.listed && z.k.near.made && z.k.near.view.alive && Handles(z)) then read
    else if f.ChannelMsg? then read.(call := Some(OnInput(z.call.value, f.payload)))
    else read.(call := Some(OnCompleted(z.call.value, f.error)))
  }

  function LineMourn(z: Line): Line {
    var told := z.(k := NearMourn(z.k));
    if z.k.near.view.alive && Handles(z) then told.(call := Some(OnCompleted(z.call.value, DISCONNECTED)))
    else told
  }

  // ---- Actions at the daemon's end. The only gateway there is number 0.

  /** `Fsm::complete` and what destroying the machine does to its channel. */
  function Finish(k: Chan, error: int, endError: int): Chan
    requires k.far.views != []
  {
    FarDispose(FarComplete(k, 0, error), 0, endError)
  }

  function Settled(z: Line, f: Fsm, endError: int): Line
    requires z.k.far.views != []
  {
    if f.completion.None? then z.(fsm := Some(f))
    else z.(k := Finish(z.k, f.completion.value, endError), fsm := Some(f), live := false)
  }

  /** The channel factory: decode the request, make the machine, start it. */
  function LineOpen(z: Line, payload: Payload, launch: Launch, endError: int): Line
    requires z.k.far.views != []
  {
    match GetRequest(payload)
    case None => z.(k := FarDispose(z.k, 0, endError))
    case Some(q) => Settled(z.(k := FarSubscribe(z.k), live := true), Start(q, launch), endError)
  }

  predicate Begins(k: Chan, f: Frame) {
    f.ChannelMsg? && f.tag == k.tag && !Reaches(k) && k.far.routed && f.sequence == 0 && f.service in k.far.services
  }

  function LineServes(z: Line, f: Frame, pipeError: int, launch: Launch, endError: int): Line {
    var read := z.(k := FarReads(z.k, f, pipeError));
    if Begins(z.k, f) && f.service == SERVICE && read.k.far.views != [] then
      LineOpen(read, f.payload, launch, endError)
    else if f.ChannelEnd? && f.tag == z.k.tag && Reaches(z.k) && z.fsm.Some? && z.live && read.k.far.views != [] then
      Settled(read, Cancel(z.fsm.value), endError)
    else read
  }

  function LineBereaved(z: Line, endError: int): Line
    requires z.k.far.views != []
  {
    var told := z.(k := FarMourn(z.k, 0));
    if z.k.far.views[0].alive && z.fsm.Some? && z.live then Settled(told, Cancel(z.fsm.value), endError) else told
  }

  /** The promise callback of one node. */
  function LineResolve(z: Line, n: NodeId, outcome: Outcome, sendError: int, endError: int): Line
    requires z.k.far.views != [] && z.fsm.Some? && n in z.fsm.value.ops
    requires outcome.Answered? ==> ResponseFits(n, outcome.response)
  {
    var sent := if outcome.Answered?
      then z.(k := FarSend(z.k, 0, SERVICE, PutResponse(n, outcome.response), sendError)) else z;
    Settled(sent, Resolve(z.fsm.value, n, outcome, ChannelError(z.k.far, sendError)), endError)
  }

  /** What `channel_.send` of the machine returns. */
  function ChannelError(f: Far, sendError: int): int {
    if !f.routed then NOT_CONNECTED
    else if f.named.None? then SHUTDOWN
    else sendError
  }

  // ---- What every action keeps.

  /** All the SDK sends on a channel of this service is the request of its client. */
  ghost predicate Requests(up: seq<Frame>, call: Option<Call>) {
    forall i :: 0 <= i < |up| && up[i].ChannelMsg? ==>
      match call
      case None => up[i].service != SERVICE
      case Some(c) => up[i].service == SERVICE && RequestFits(c.request) && up[i].payload == PutRequest(c.request)
  }

  ghost predicate CallGood(z: Line) {
    && Requests(z.k.up, z.call)
    && (z.call.Some? ==>
          var c := z.call.value;
          && z.k.near.made
          && (!c.submitted ==> z.k.up == [] && z.k.near.view.nextSequence == 0 && c.results == [])
          && c.responses == Collected(z.k.near.view.Delivered())
          && forall m :: Success(m) in c.results ==>
               z.k.near.view.Finished() &&
               z.k.near.view.events[|z.k.near.view.events| - 1] == IpcTypes.Completed(SUCCESS)
               && m == c.responses)
  }

  predicate OpenedForService(v: View) {
    v.opening.Some? && v.opening.value.service == SERVICE
  }

  /** There is a machine exactly for a gateway this service was opened with, it works on
      the request that opened it, and it is registered exactly while it has not completed. */
  ghost predicate FsmGood(z: Line) {
    && (z.fsm.Some? <==> z.k.far.views != [] && OpenedForService(z.k.far.views[0]))
    && (z.live ==> z.fsm.Some?)
    && (z.fsm.Some? ==>
          var f, v := z.fsm.value, z.k.far.views[0];
          && Sound(f)
          && GetRequest(v.opening.value.payload) == Some(f.request)
          && Carries(v.sent, f.relayed)
          && (z.live <==> f.completion.None?)
          && (z.live ==> v.alive && (z.k.far.named.Some? || z.k.far.mourned))
          && (!z.live ==>
                !v.alive && v.completionError == f.completion.value && z.k.far.named.None? && !z.k.far.mourned))
  }

  ghost predicate LineGood(z: Line) {
    Good(z.k) && CallGood(z) && FsmGood(z)
  }
}
