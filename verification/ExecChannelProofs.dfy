/** Every action of either end of an 'exec cmd' channel keeps it good. */
module ExecChannelProofs {
  import opened IpcTypes
  import opened Channel
  import opened ChannelProofs
  import opened ExecCodec
  import opened ExecSpec
  import opened ExecChannel

  // ---- The SDK end.

  lemma NewCallGood(z: Line, q: Request)
    requires LineGood(z) && !z.k.near.made
    ensures LineGood(LineNewCall(z, q))
  {
    MakeGood(z.k);
  }

  /** Nothing that leaves the daemon's end and what was delivered alone can upset the machine. */
  lemma NearOnlyKeepsFsm(z: Line, z': Line)
    requires FsmGood(z) && z'.fsm == z.fsm && z'.live == z.live && z'.k.far == z.k.far
    ensures FsmGood(z')
  {
  }

  lemma RequestsGrow(up: seq<Frame>, call: Option<Call>, f: Frame)
    requires Requests(up, call)
    requires f.ChannelMsg? ==>
               match call
               case None => f.service != SERVICE
               case Some(c) => f.service == SERVICE && RequestFits(c.request) && f.payload == PutRequest(c.request)
    ensures Requests(up + [f], call)
  {
  }

  lemma OnConnectedGood(z: Line, pipeError: int)
    requires LineGood(z) && Handles(z) && z.k.near.view.alive
    ensures LineGood(OnConnected(z, pipeError))
  {
    hide Good, Sound, Carries, PutRequest, GetRequest, RequestFits, Collected, FsmGood;
    var c := z.call.value;
    if RequestFits(c.request) {
      NearSendGood(z.k, SERVICE, PutRequest(c.request), pipeError);
      RequestsGrow(z.k.up, z.call, ChannelMsg(z.k.tag, z.k.near.view.nextSequence, SERVICE, PutRequest(c.request)));
    }
    NearOnlyKeepsFsm(z, OnConnected(z, pipeError));
  }

  /** A gateway that is not finished has no success to account for. */
  lemma ConnectedKeepsCall(v: View, c: Call)
    requires v.CompletesOnce() && !v.Finished()
    ensures v.Notified(Connected).Delivered() == v.Delivered()
  {
    NotifiedView(v, Connected);
  }

  lemma SubscribedGood(z: Line)
    requires LineGood(z) && z.call.Some? && z.k.near.view.alive
    ensures LineGood(z.(call := Some(z.call.value.(submitted := true)), k := NearSubscribe(z.k)))
  {
    hide Sound, Carries, PutRequest, GetRequest, RequestFits, Stream, Delivery, FsmGood;
    NearSubscribeGood(z.k);
    if z.k.near.listed { ConnectedKeepsCall(z.k.near.view, z.call.value); }
    NearOnlyKeepsFsm(z, z.(call := Some(z.call.value.(submitted := true)), k := NearSubscribe(z.k)));
  }

  lemma GreetedGood(z: Line)
    requires LineGood(z) && z.k.near.greeting
    ensures LineGood(z.(k := NearGreet(z.k))) && z.k.near.view.alive
  {
    hide Sound, Carries, PutRequest, GetRequest, RequestFits, Stream, Delivery, FsmGood;
    NearGreetGood(z.k);
    if z.call.Some? { ConnectedKeepsCall(z.k.near.view, z.call.value); }
    NearOnlyKeepsFsm(z, z.(k := NearGreet(z.k)));
  }

  lemma DropGood(z: Line, pipeError: int)
    requires LineGood(z) && z.k.near.made && z.k.near.view.alive && !z.k.near.greeting
    ensures LineGood(LineDrop(z, pipeError))
  {
    hide Good, Sound, Carries, PutRequest, GetRequest, RequestFits, FsmGood;
    NearDisposeGood(z.k, pipeError);
    RequestsGrow(z.k.up, z.call, ChannelEnd(z.k.tag, z.k.near.view.completionError));
    NearOnlyKeepsFsm(z, LineDrop(z, pipeError));
  }

  lemma CollectedAppend(items: seq<Item>, item: Item)
    ensures Collected(items + [item]) == Emplaced(Collected(items), item.payload)
  {
    assert (items + [item])[..|items|] == items;
  }

  /** Before its request is submitted, a client's channel carries nothing. */
  lemma SilentBeforeSubmit(z: Line)
    requires Good(z.k) && CallGood(z) && z.call.Some? && !z.call.value.submitted
    ensures z.k.down == []
  {
    hide Orderly, Delivery, NearGood, Requests;
  }

  lemma ToldGood(z: Line, f: Frame, k': Chan, v: View)
    requires CallGood(z) && z.call.Some? && !z.k.near.view.Finished() && Handles(z)
    requires f.ChannelMsg? || f.ChannelEnd?
    requires k'.up == z.k.up && v == z.k.near.view.Notified(Told(f)) && k'.near.view == v && k'.near.made
    ensures var c := if f.ChannelMsg? then OnInput(z.call.value, f.payload) else OnCompleted(z.call.value, f.error);
            CallGood(z.(k := k', call := Some(c)))
  {
    if f.ChannelMsg? { InputGood(z, f, k'); } else { EndedGood(z, f, k'); }
  }

  lemma InputGood(z: Line, f: Frame, k': Chan)
    requires CallGood(z) && z.call.Some? && !z.k.near.view.Finished() && Handles(z) && f.ChannelMsg?
    requires k'.up == z.k.up && k'.near.view == z.k.near.view.Notified(Told(f)) && k'.near.made
    ensures CallGood(z.(k := k', call := Some(OnInput(z.call.value, f.payload))))
  {
    hide GetResponse, Emplaced, PutRequest, RequestFits, Collected;
    NotifiedView(z.k.near.view, Told(f));
    CollectedAppend(z.k.near.view.Delivered(), Item(f.sequence, f.payload));
  }

  lemma EndedGood(z: Line, f: Frame, k': Chan)
    requires CallGood(z) && z.call.Some? && !z.k.near.view.Finished() && Handles(z) && f.ChannelEnd?
    requires k'.up == z.k.up && k'.near.view == z.k.near.view.Notified(Told(f)) && k'.near.made
    ensures CallGood(z.(k := k', call := Some(OnCompleted(z.call.value, f.error))))
  {
    hide GetResponse, Emplaced, PutRequest, RequestFits, Collected;
    NotifiedView(z.k.near.view, Told(f));
  }

  lemma ReadsGood(z: Line, f: Frame)
    requires LineGood(z) && !z.k.near.greeting && !z.k.near.mourning
    requires f.For(z.k.tag) ==> z.k.downSeen + [f] <= z.k.down
    ensures LineGood(LineReads(z, f))
  {
    hide FsmGood, CallGood, Stream, Delivery, UpGood, OnInput, OnCompleted;
    CallMade(z);
    if f.For(z.k.tag) {
      NearTakeGood(z.k, f);
      if z.k.near.listed && z.call.Some? {
        if Handles(z) {
          ToldGood(z, f, LineReads(z, f).k, LineReads(z, f).k.near.view);
        } else {
          SilentBeforeSubmit(z);
        }
      } else {
        SameCall(z, LineReads(z, f));
      }
    } else {
      if f.Connect? { NearHelloGood(z.k); }
      SameCall(z, LineReads(z, f));
    }
    NearOnlyKeepsFsm(z, LineReads(z, f));
  }

  /** A change that tells the client nothing, and lets it send nothing. */
  lemma SameCall(z: Line, z': Line)
    requires CallGood(z) && z'.call == z.call && z'.k.up == z.k.up
    requires z.call.Some? ==> z'.k.near.view == z.k.near.view && z'.k.near.made
    ensures CallGood(z')
  {
  }

  lemma LostGood(z: Line)
    requires LineGood(z) && !z.k.near.greeting && !z.k.near.mourning
    ensures LineGood(z.(k := NearLost(z.k)))
  {
    hide FsmGood, CallGood, Good;
    NearLostGood(z.k);
    CallMade(z);
    SameCall(z, z.(k := NearLost(z.k)));
    NearOnlyKeepsFsm(z, z.(k := NearLost(z.k)));
  }

  lemma CallMade(z: Line)
    requires CallGood(z)
    ensures z.call.Some? ==> z.k.near.made
  {
  }

  lemma MournGood(z: Line)
    requires LineGood(z) && z.k.near.mourning
    ensures LineGood(LineMourn(z))
  {
    hide FsmGood, CallGood, Stream, Delivery, UpGood, DownGood, OnCompleted;
    var z' := LineMourn(z);
    NearMournGood(z.k);
    CallMade(z);
    if z.k.near.view.alive && z.call.Some? {
      var f := ChannelEnd(z.k.tag, DISCONNECTED);
      if Handles(z) {
        ToldGood(z, f, z'.k, z'.k.near.view);
      } else {
        UnsubmittedTold(z, z'.k);
      }
    } else {
      SameCall(z, z');
    }
    NearOnlyKeepsFsm(z, z');
  }

  lemma UnsubmittedTold(z: Line, k': Chan)
    requires CallGood(z) && z.call.Some? && !Handles(z)
    requires k'.up == z.k.up && k'.near.made && k'.near.view == z.k.near.view.Notified(IpcTypes.Completed(DISCONNECTED))
    ensures CallGood(z.(k := k'))
  {
    NotifiedView(z.k.near.view, IpcTypes.Completed(DISCONNECTED));
  }

  /** A gateway that belongs to another user of the same process. */
  lemma OtherNearGood(z: Line, k': Chan)
    requires LineGood(z) && z.call.None? && Good(k') && k'.far == z.k.far && k'.tag == z.k.tag
    requires Requests(k'.up, None)
    ensures LineGood(z.(k := k'))
  {
    hide Good, FsmGood;
    NearOnlyKeepsFsm(z, z.(k := k'));
  }

  // ---- The daemon's end.

  /** What happens at the daemon's end alone does not reach the client yet. */
  lemma FarOnlyKeepsCall(z: Line, z': Line)
    requires CallGood(z) && z'.call == z.call && z'.k.near == z.k.near && z'.k.up == z.k.up
    ensures CallGood(z')
  {
  }

  lemma RoutedGood(z: Line)
    requires LineGood(z)
    ensures LineGood(z.(k := FarRouted(z.k)))
  {
    hide CallGood, Stream, Delivery, NearGood, UpGood, DownGood, Sound, Carries, GetRequest;
    FarRoutedGood(z.k);
    FarOnlyKeepsCall(z, z.(k := FarRouted(z.k)));
  }

  lemma DroppedGood(z: Line)
    requires LineGood(z) && !z.k.far.mourned
    ensures LineGood(z.(k := FarLost(z.k)))
  {
    hide CallGood, Stream, Delivery, NearGood, UpGood, DownGood, Sound, Carries, GetRequest;
    FarLostGood(z.k);
    FarOnlyKeepsCall(z, z.(k := FarLost(z.k)));
  }

  /** Completing a registered gateway and destroying it. */
  lemma FinishGood(k: Chan, error: int, endError: int)
    requires Good(k) && k.far.views != [] && k.far.views[0].alive
    ensures Good(Finish(k, error, endError))
  {
    hide Good;
    FarCompleteGood(k, 0, error);
    FarDisposeGood(FarComplete(k, 0, error), 0, endError);
  }

  /** The machine of a live gateway moves on, and is released if it is done. */
  lemma SettledGood(z: Line, f: Fsm, endError: int)
    requires Good(z.k) && CallGood(z) && z.k.far.views != [] && z.k.far.views[0].alive && z.live
    requires OpenedForService(z.k.far.views[0]) && Sound(f)
    requires GetRequest(z.k.far.views[0].opening.value.payload) == Some(f.request)
    requires Carries(z.k.far.views[0].sent, f.relayed)
    requires !z.k.far.mourned && (f.completion.None? ==> z.k.far.named.Some?)
    ensures LineGood(Settled(z, f, endError))
  {
    hide CallGood, Stream, Delivery, NearGood, UpGood, DownGood, Sound, Carries, GetRequest;
    if f.completion.Some? { FinishGood(z.k, f.completion.value, endError); }
    FarOnlyKeepsCall(z, Settled(z, f, endError));
  }

  /** The daemon's gateway keeps all that the machine depends on. */
  ghost predicate SameForFsm(a: Far, b: Far) {
    && |a.views| == |b.views|
    && a.mourned == b.mourned && a.named == b.named
    && (a.views != [] ==>
          && a.views[0].opening == b.views[0].opening && a.views[0].alive == b.views[0].alive
          && a.views[0].sent == b.views[0].sent && a.views[0].completionError == b.views[0].completionError)
  }

  lemma SameFsm(z: Line, z': Line)
    requires FsmGood(z) && z'.fsm == z.fsm && z'.live == z.live && SameForFsm(z.k.far, z'.k.far)
    ensures FsmGood(z')
  {
    hide Sound, Carries, GetRequest;
  }

  /** The request a channel is opened with is the client's, and it decodes. */
  lemma OpensWithRequest(z: Line, f: Frame)
    requires CallGood(z) && f.ChannelMsg? && f.service == SERVICE && z.k.upSeen + [f] <= z.k.up
    ensures z.call.Some? && GetRequest(f.payload) == Some(z.call.value.request)
  {
    hide Collected;
    assert z.k.up[|z.k.upSeen|] == f;
    RequestRoundTrip(z.call.value.request);
  }

  lemma OpenGood(z: Line, payload: Payload, q: Request, launch: Launch, endError: int)
    requires Good(z.k) && CallGood(z) && z.k.far.views != [] && z.k.far.named == Some(0)
    requires z.k.far.views[0] == FreshView(Some(Opening(SERVICE, payload)))
    requires GetRequest(payload) == Some(q) && (launch.OneFailed? ==> launch.error != SUCCESS)
    ensures LineGood(LineOpen(z, payload, launch, endError))
  {
    hide CallGood, NearGood, UpGood, DownGood, Sound, GetRequest;
    var z' := z.(k := FarSubscribe(z.k), live := true);
    FarSubscribeGood(z.k);
    FarOnlyKeepsCall(z, z');
    StartSound(q, launch);
    SettledGood(z', Start(q, launch), endError);
  }

  lemma TakesGood(z: Line, f: Frame)
    requires LineGood(z) && !z.k.far.mourned && f.For(z.k.tag) && z.k.upSeen + [f] <= z.k.up
    ensures Good(FarTake(z.k, f)) && CallGood(z.(k := FarTake(z.k, f)))
  {
    hide CallGood, Good, FsmGood;
    FarTakeGood(z.k, f);
    FarOnlyKeepsCall(z, z.(k := FarTake(z.k, f)));
  }

  /** Reading a frame that neither opens nor ends the channel. */
  lemma ReadOnGood(z: Line, f: Frame, pipeError: int)
    requires LineGood(z) && !z.k.far.mourned && (f.For(z.k.tag) ==> z.k.upSeen + [f] <= z.k.up)
    requires !Begins(z.k, f) && !(f.ChannelEnd? && Reaches(z.k) && f.For(z.k.tag))
    ensures LineGood(z.(k := FarReads(z.k, f, pipeError)))
  {
    hide CallGood, Stream, Delivery, NearGood, UpGood, DownGood, Sound, Carries, GetRequest;
    if f.For(z.k.tag) {
      TakesGood(z, f);
      SameFsm(z, z.(k := FarTake(z.k, f)));
    } else {
      RoutedGood(z);
    }
  }

  lemma EndReadGood(z: Line, f: Frame, endError: int)
    requires LineGood(z) && !z.k.far.mourned && z.k.upSeen + [f] <= z.k.up
    requires f.ChannelEnd? && Reaches(z.k) && f.For(z.k.tag)
    ensures LineGood(LineServes(z, f, SUCCESS, AllMade, endError))
  {
    hide CallGood, Stream, Delivery, NearGood, UpGood, DownGood, Sound, Carries, GetRequest;
    TakesGood(z, f);
    var read := z.(k := FarTake(z.k, f));
    if z.fsm.Some? {
      CancelSound(z.fsm.value);
      SettledGood(read, Cancel(z.fsm.value), endError);
    }
  }

  lemma ServesGood(z: Line, f: Frame, pipeError: int, launch: Launch, endError: int)
    requires LineGood(z) && !z.k.far.mourned && (f.For(z.k.tag) ==> z.k.upSeen + [f] <= z.k.up)
    requires launch.OneFailed? ==> launch.error != SUCCESS
    ensures LineGood(LineServes(z, f, pipeError, launch, endError))
  {
    hide CallGood, Stream, Delivery, NearGood, UpGood, DownGood, Sound, Carries, GetRequest, LineOpen, Settled;
    if Begins(z.k, f) {
      TakesGood(z, f);
      NothingOpenYet(z.k, f);
      var read := z.(k := FarTake(z.k, f));
      if f.service == SERVICE {
        OpensWithRequest(z, f);
        OpenGood(read, f.payload, z.call.value.request, launch, endError);
      }
    } else if f.ChannelEnd? && Reaches(z.k) && f.For(z.k.tag) {
      EndReadGood(z, f, endError);
    } else {
      ReadOnGood(z, f, pipeError);
    }
  }

  lemma NothingOpenYet(k: Chan, f: Frame)
    requires Good(k) && Begins(k, f) && k.upSeen + [f] <= k.up
    ensures k.far.views == []
  {
    OpeningIsFirst(k, f);
  }

  lemma BereavedGood(z: Line, endError: int)
    requires LineGood(z) && z.k.far.mourned
    ensures LineGood(LineBereaved(z, endError))
  {
    hide CallGood, Stream, Delivery, NearGood, UpGood, DownGood, Sound, Carries, GetRequest;
    FarMournGood(z.k, 0);
    var told := z.(k := FarMourn(z.k, 0));
    FarOnlyKeepsCall(z, told);
    if z.fsm.Some? {
      CancelSound(z.fsm.value);
      SettledGood(told, Cancel(z.fsm.value), endError);
    }
  }

  lemma CarriesMore(items: seq<Item>, relayed: seq<(NodeId, Response)>, item: Item, n: NodeId, a: Response)
    requires Carries(items, relayed) && ResponseFits(n, a) && item.payload == PutResponse(n, a)
    ensures Carries(items + [item], relayed + [(n, a)])
  {
    hide PutResponse, ResponseFits;
  }

  lemma SentGood(z: Line, n: NodeId, a: Response, sendError: int)
    requires LineGood(z) && z.live && z.k.far.named.Some? && ResponseFits(n, a)
    ensures var k := FarSend(z.k, 0, SERVICE, PutResponse(n, a), sendError);
            && Good(k) && CallGood(z.(k := k))
            && |k.far.views| == 1 && k.far.views[0].alive && k.far.named == z.k.far.named
            && k.far.mourned == z.k.far.mourned
            && k.far.views[0].opening == z.k.far.views[0].opening
            && Carries(k.far.views[0].sent,
                       if sendError == SUCCESS then z.fsm.value.relayed + [(n, a)] else z.fsm.value.relayed)
  {
    hide CallGood, Stream, Delivery, NearGood, UpGood, DownGood, Sound, GetRequest, Carries, PutResponse;
    var k := FarSend(z.k, 0, SERVICE, PutResponse(n, a), sendError);
    FarSendGood(z.k, 0, SERVICE, PutResponse(n, a), sendError);
    FarOnlyKeepsCall(z, z.(k := k));
    CarriesMore(z.k.far.views[0].sent, z.fsm.value.relayed,
                Item(z.k.far.views[0].nextSequence, PutResponse(n, a)), n, a);
  }

  lemma ResolveGood(z: Line, n: NodeId, outcome: Outcome, sendError: int, endError: int)
    requires LineGood(z) && z.live && z.k.far.named.Some? && n in z.fsm.value.ops
    requires outcome.Answered? ==> ResponseFits(n, outcome.response)
    ensures z.k.far.views != [] && LineGood(LineResolve(z, n, outcome, sendError, endError))
  {
    hide CallGood, Stream, Delivery, NearGood, UpGood, DownGood, GetRequest, Carries, PutResponse, Settled, FarSend;
    hide Sound;
    var f := z.fsm.value;
    var f' := Resolve(f, n, outcome, ChannelError(z.k.far, sendError));
    ResolveSound(f, n, outcome, ChannelError(z.k.far, sendError));
    if outcome.Answered? {
      SentGood(z, n, outcome.response, sendError);
      var sent := z.(k := FarSend(z.k, 0, SERVICE, PutResponse(n, outcome.response), sendError));
      SettledGood(sent, f', endError);
    } else {
      SettledGood(z, f', endError);
    }
  }

  /** A gateway of another service. */
  lemma OtherFarGood(z: Line, k': Chan)
    requires LineGood(z) && Good(k') && k'.near == z.k.near && k'.up == z.k.up && k'.tag == z.k.tag
    requires z.k.far.views != [] && !OpenedForService(z.k.far.views[0])
    requires k'.far.views != [] && k'.far.views[0].opening == z.k.far.views[0].opening
    ensures LineGood(z.(k := k'))
  {
    hide CallGood, Good;
    FarOnlyKeepsCall(z, z.(k := k'));
  }

  // ---- The result.

  /** A client that is told of success got exactly what the nodes of its own request said:
      the machine for that request was done with every distinct node, and each node that
      answered, and whose answer the pipe took, is there with that answer. */
  lemma SuccessIsComplete(z: Line, m: map<NodeId, Response>)
    requires LineGood(z) && z.call.Some? && Success(m) in z.call.value.results
    ensures z.fsm.Some?
    ensures var f := z.fsm.value;
            && f.request == z.call.value.request && f.completion == Some(SUCCESS)
            && f.outcomes.Keys == NodesOf(z.call.value.request)
            && m == Gathered(f)
  {
    hide NearGood, PutRequest, GetRequest, PutResponse, Good, CallGood, Sound, Carries, Collected, Gathered;
    AllArrived(z, m);
    FirstIsRequest(z);
    SoundSuccess(z.fsm.value);
    CollectsGathered(z.k.far.views[0].sent, z.fsm.value);
  }

  lemma SoundSuccess(f: Fsm)
    requires Sound(f) && f.completion == Some(SUCCESS)
    ensures f.outcomes.Keys == NodesOf(f.request)
  {
  }

  /** Success is reported only when all the daemon's gateway sent has been read. */
  lemma AllArrived(z: Line, m: map<NodeId, Response>)
    requires Good(z.k) && CallGood(z) && z.call.Some? && Success(m) in z.call.value.results
    ensures z.k.far.views != []
    ensures var v := z.k.far.views[0];
            !v.alive && v.completionError == SUCCESS && m == Collected(v.sent)
  {
    hide Orderly, PutRequest, RequestFits, Collected;
    assert z.k.near.view.Finished();
    assert Ended(z.k.down);
  }

  lemma FirstIsRequest(z: Line)
    requires LineGood(z) && z.call.Some? && z.k.far.views != []
    ensures z.fsm.Some? && z.fsm.value.request == z.call.value.request
  {
    hide Sound, Delivery, Collected;
    var f := z.k.upSeen[0];
    assert f == z.k.up[0];
    RequestRoundTrip(z.call.value.request);
  }
}
