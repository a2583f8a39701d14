/** One channel: the gateway of one tag in one SDK process, the gateways the daemon has
    created for that endpoint, and the frames of that tag in both directions.

    A system state projects to one such record for every process and tag (see
    `Projection`); each action changes a channel by one of the functions below, and
    `Good` is what all of them keep. */
module Channel {
  import opened IpcTypes

  datatype Near = Near(connected: bool, made: bool, view: View, listed: bool, greeting: bool, mourning: bool)

  datatype Far = Far(services: set<ServiceId>, routed: bool, named: Option<nat>, views: seq<View>, mourned: bool)

  /** `up` and `down` are the frames the pipes accepted, the others those taken from them. */
  datatype Chan = Chan(
    tag: Tag,
    near: Near,
    up: seq<Frame>,
    upSeen: seq<Frame>,
    far: Far,
    down: seq<Frame>,
    downSeen: seq<Frame>)

  function Accepted(frames: seq<Frame>, f: Frame, pipeError: int): seq<Frame> {
    if pipeError == SUCCESS then frames + [f] else frames
  }

  // ---- Actions at the SDK end.

  function Make(k: Chan): Chan {
    k.(near := k.near.(made := true, view := FreshView(None), listed := true))
  }

  function NearSend(k: Chan, service: ServiceId, payload: Payload, pipeError: int): Chan {
    if !k.near.connected || !k.near.listed then k
    else
      k.(near := k.near.(view := k.near.view.AfterSend(payload, pipeError)),
         up := Accepted(k.up, ChannelMsg(k.tag, k.near.view.nextSequence, service, payload), pipeError))
  }

  function NearComplete(k: Chan, error: int): Chan {
    k.(near := k.near.(view := k.near.view.(completionError := error)))
  }

  function NearSubscribe(k: Chan): Chan {
    if k.near.connected && k.near.listed then k.(near := k.near.(view := k.near.view.Notified(Connected))) else k
  }

  function NearDispose(k: Chan, pipeError: int): Chan {
    var v := k.near.view;
    k.(near := k.near.(listed := false, view := v.(alive := false)),
       up := if k.near.listed && v.nextSequence > 0 && k.near.connected
             then Accepted(k.up, ChannelEnd(k.tag, v.completionError), pipeError) else k.up)
  }

  function NearHello(k: Chan): Chan {
    if k.near.connected then k
    else k.(near := k.near.(connected := true, greeting := k.near.listed && k.near.made && k.near.view.alive))
  }

  function NearGreet(k: Chan): Chan {
    k.(near := k.near.(greeting := false, view := k.near.view.Notified(Connected)))
  }

  function NearLost(k: Chan): Chan {
    if k.near.connected
    then k.(near := k.near.(connected := false, mourning := k.near.listed, listed := false))
    else k
  }

  function NearMourn(k: Chan): Chan {
    k.(near := k.near.(mourning := false,
                       view := if k.near.view.alive then k.near.view.Notified(Completed(DISCONNECTED))
                               else k.near.view))
  }

  function NearTake(k: Chan, f: Frame): Chan
    requires f.For(k.tag)
  {
    var taken := k.(downSeen := k.downSeen + [f]);
    if !k.near.listed || !k.near.made || !k.near.view.alive then taken
    else if f.ChannelMsg? then
      taken.(near := k.near.(view := k.near.view.Notified(Message(f.sequence, f.payload))))
    else
      taken.(near := k.near.(listed := false, view := k.near.view.Notified(Completed(f.error))))
  }

  /** What a frame read by the process does to a channel of it. */
  function NearReads(k: Chan, f: Frame): Chan {
    if f.For(k.tag) then NearTake(k, f) else if f.Connect? then NearHello(k) else k
  }

  // ---- Actions at the daemon's end; `o` is the ordinal of the gateway that acts.

  function FarSet(k: Chan, o: nat, v: View): Chan
    requires o < |k.far.views|
  {
    k.(far := k.far.(views := k.far.views[o := v]))
  }

  function FarSend(k: Chan, o: nat, service: ServiceId, payload: Payload, pipeError: int): Chan
    requires o < |k.far.views|
  {
    if k.far.named.None? then k
    else
      var v := k.far.views[o];
      FarSet(k, o, v.AfterSend(payload, pipeError))
        .(down := Accepted(k.down, ChannelMsg(k.tag, v.nextSequence, service, payload), pipeError))
  }

  function FarComplete(k: Chan, o: nat, error: int): Chan
    requires o < |k.far.views|
  {
    FarSet(k, o, k.far.views[o].(completionError := error))
  }

  function FarSubscribe(k: Chan): Chan {
    if k.far.named.Some? && k.far.named.value < |k.far.views| && k.far.views[k.far.named.value].alive
    then FarSet(k, k.far.named.value, k.far.views[k.far.named.value].Notified(Connected))
    else k
  }

  function FarDispose(k: Chan, o: nat, pipeError: int): Chan
    requires o < |k.far.views|
  {
    var v := k.far.views[o];
    var gone := FarSet(k, o, v.(alive := false));
    if k.far.named.None? then gone
    else gone.(far := gone.far.(named := None),
               down := Accepted(k.down, ChannelEnd(k.tag, v.completionError), pipeError))
  }

  function FarRouted(k: Chan): Chan {
    if k.far.routed then k else k.(far := k.far.(routed := true, named := None))
  }

  predicate Reaches(k: Chan) {
    k.far.named.Some? && k.far.named.value < |k.far.views| && k.far.views[k.far.named.value].alive
  }

  function FarTake(k: Chan, f: Frame): Chan
    requires f.For(k.tag)
  {
    var taken := k.(upSeen := k.upSeen + [f]);
    if Reaches(k) then
      var o := k.far.named.value;
      var v := k.far.views[o];
      if f.ChannelMsg? then FarSet(taken, o, v.Notified(Message(f.sequence, f.payload)))
      else FarSet(taken.(far := k.far.(named := None)), o, v.Notified(Completed(f.error)))
    else if f.ChannelMsg? && k.far.routed && f.sequence == 0 && f.service in k.far.services then
      taken.(far := k.far.(named := Some(|k.far.views|),
                           views := k.far.views + [FreshView(Some(Opening(f.service, f.payload)))]))
    else taken
  }

  /** What a frame read by the daemon does to a channel of that client. */
  function FarReads(k: Chan, f: Frame, pipeError: int): Chan {
    if f.For(k.tag) then FarTake(k, f)
    else if f.Connect? && pipeError == SUCCESS then FarRouted(k)
    else k
  }

  function FarLost(k: Chan): Chan {
    if k.far.routed
    then k.(far := k.far.(routed := false, named := None, mourned := k.far.mourned || k.far.named == Some(0)))
    else k
  }

  function FarMourn(k: Chan, o: nat): Chan
    requires o < |k.far.views|
  {
    var v := k.far.views[o];
    var rest := k.(far := k.far.(mourned := k.far.mourned && o != 0));
    if v.alive then FarSet(rest, o, v.Notified(Completed(DISCONNECTED))) else rest
  }

  // ---- What every action keeps.

  /** The frames one end has sent: messages in rising sequence, then at most one end. */
  ghost predicate Orderly(frames: seq<Frame>, tag: Tag, bound: nat) {
    && (forall i :: 0 <= i < |frames| ==> frames[i].For(tag))
    && (forall i :: 0 <= i < |frames| - 1 ==> frames[i].ChannelMsg?)
    && (forall i :: 0 <= i < |frames| && frames[i].ChannelMsg? ==> frames[i].sequence < bound)
    && (forall i, j :: 0 <= i < j < |frames| && frames[i].ChannelMsg? && frames[j].ChannelMsg? ==>
          frames[i].sequence < frames[j].sequence)
  }

  /** A `ChannelEnd` is the last of these frames. */
  predicate Ended(frames: seq<Frame>) {
    frames != [] && frames[|frames| - 1].ChannelEnd?
  }

  /** What one end has sent, and how much of it the other end has taken. */
  ghost predicate Stream(view: View, tag: Tag, sent: seq<Frame>, seen: seq<Frame>) {
    && seen <= sent
    && Orderly(sent, tag, view.nextSequence)
    && Items(sent) == view.sent
    && (Ended(sent) ==> !view.alive && sent[|sent| - 1].error == view.completionError)
  }

  ghost predicate NearGood(n: Near) {
    && n.view.opening.None?
    && n.view.CompletesOnce()
    && (!n.made ==> !n.listed && !n.greeting && !n.mourning && n.view == FreshView(None))
    && (n.listed ==> n.view.alive)
    && (n.greeting ==> n.listed && n.connected)
    && (n.mourning ==> !n.listed && !n.connected)
    && (n.view.Finished() ==> !n.listed && !n.mourning)
  }

  ghost predicate FarGood(f: Far) {
    && |f.views| <= 1
    && (f.named.Some? ==> f.named.value == 0 && f.routed && |f.views| == 1 && !f.mourned)
    && (f.mourned ==> |f.views| == 1)
    && (f.views != [] ==>
          var v := f.views[0];
          && v.opening.Some?
          && v.CompletesOnce()
          && (f.named.Some? ==> v.alive)
          && (v.Finished() ==> f.named.None? && !f.mourned))
  }

  /** The first frame taken is the message the daemon's gateway was opened with. */
  predicate OpenedBy(v: View, tag: Tag, seen: seq<Frame>) {
    && v.opening.Some? && seen != []
    && seen[0] == ChannelMsg(tag, 0, v.opening.value.service, v.opening.value.payload)
  }

  /** Each end was given a prefix of what the other end sent: all that was read, as long
      as the end is registered; all that was sent, once it was told of the other's end. */
  ghost predicate Delivery(view: View, registered: bool, seen: seq<Frame>, sent: seq<Frame>) {
    && view.Delivered() <= Items(seen)
    && (registered ==> view.Delivered() == Items(seen) && !Ended(seen))
    && (view.Finished() && view.events[|view.events| - 1].error != DISCONNECTED ==>
          && Ended(seen) && seen == sent
          && seen[|seen| - 1].error == view.events[|view.events| - 1].error
          && view.Delivered() == Items(sent))
  }

  /** The direction from the SDK to the daemon. */
  ghost predicate UpGood(k: Chan) {
    && Stream(k.near.view, k.tag, k.up, k.upSeen)
    && (k.up != [] ==> k.near.made && k.near.view.nextSequence > 0)
    && (Ended(k.up) ==> !k.near.listed)
    && (k.far.views != [] ==>
          && OpenedBy(k.far.views[0], k.tag, k.upSeen)
          && Delivery(k.far.views[0], k.far.named.Some?, k.upSeen, k.up))
  }

  /** The direction from the daemon to the SDK. */
  ghost predicate DownGood(k: Chan) {
    && k.downSeen <= k.down
    && (k.far.views == [] ==> k.down == [])
    && (k.far.views != [] ==> Stream(k.far.views[0], k.tag, k.down, k.downSeen))
    && (Ended(k.down) ==> k.far.named.None?)
    && Delivery(k.near.view, k.near.listed, k.downSeen, k.down)
  }

  ghost predicate Good(k: Chan) {
    NearGood(k.near) && FarGood(k.far) && UpGood(k) && DownGood(k)
  }
}
