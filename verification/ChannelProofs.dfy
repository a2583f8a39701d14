/** Every action of either end keeps a channel good. */
module ChannelProofs {
  import opened IpcTypes
  import opened Channel

  // ---- One direction.

  lemma OrderlyGrows(frames: seq<Frame>, tag: Tag, bound: nat, f: Frame, newBound: nat)
    requires Orderly(frames, tag, bound) && !Ended(frames)
    requires f.For(tag) && bound <= newBound
    requires f.ChannelMsg? ==> f.sequence == bound < newBound
    ensures Orderly(frames + [f], tag, newBound)
  {
    var g := frames + [f];
    forall i | 0 <= i < |g| - 1 ensures g[i].ChannelMsg? {
      assert g[i] == frames[i];
      assert i < |frames| - 1 || i == |frames| - 1;
    }
  }

  /** An end is the last frame of a direction, so whoever has read it has read it all. */
  lemma EndIsLast(seen: seq<Frame>, sent: seq<Frame>, tag: Tag, bound: nat)
    requires Orderly(sent, tag, bound) && seen <= sent && Ended(seen)
    ensures seen == sent
  {
    assert sent[|seen| - 1] == seen[|seen| - 1];
  }

  lemma StreamSends(v: View, tag: Tag, service: ServiceId, payload: Payload, pipeError: int,
                    sent: seq<Frame>, seen: seq<Frame>)
    requires Stream(v, tag, sent, seen) && v.alive
    ensures Stream(v.AfterSend(payload, pipeError), tag,
                   Accepted(sent, ChannelMsg(tag, v.nextSequence, service, payload), pipeError), seen)
  {
    hide Items;
    var f := ChannelMsg(tag, v.nextSequence, service, payload);
    OrderlyGrows(sent, tag, v.nextSequence, f, v.nextSequence + 1);
    OrderlyWidens(sent, tag, v.nextSequence);
    ItemsAppend(sent, f);
    hide Orderly;
  }

  lemma OrderlyWidens(frames: seq<Frame>, tag: Tag, bound: nat)
    requires Orderly(frames, tag, bound)
    ensures Orderly(frames, tag, bound + 1)
  {
  }

  lemma StreamEnds(v: View, tag: Tag, pipeError: int, sent: seq<Frame>, seen: seq<Frame>)
    requires Stream(v, tag, sent, seen) && v.alive
    ensures Stream(v.(alive := false), tag, Accepted(sent, ChannelEnd(tag, v.completionError), pipeError), seen)
  {
    var f := ChannelEnd(tag, v.completionError);
    OrderlyGrows(sent, tag, v.nextSequence, f, v.nextSequence);
    ItemsAppend(sent, f);
  }

  /** A sender that is still there has not ended, so what the receiver knows stays true. */
  lemma DeliveryGrows(v: View, tag: Tag, sender: View, registered: bool, seen: seq<Frame>, sent: seq<Frame>,
                      f: Frame, pipeError: int)
    requires Delivery(v, registered, seen, sent) && Stream(sender, tag, sent, seen) && sender.alive
    ensures Delivery(v, registered, seen, Accepted(sent, f, pipeError))
  {
  }

  lemma NotifiedView(v: View, e: Event)
    ensures e.Message? ==> v.Notified(e).Delivered() == v.Delivered() + [Item(e.sequence, e.payload)]
    ensures !e.Message? ==> v.Notified(e).Delivered() == v.Delivered()
    ensures v.CompletesOnce() && !v.Finished() ==> v.Notified(e).CompletesOnce()
    ensures v.Notified(e).Finished() == e.Completed?
  {
    MessagesInAppend(v.events, e);
    var w := v.Notified(e);
    if v.CompletesOnce() && !v.Finished() {
      forall i | 0 <= i < |w.events| - 1 ensures !w.events[i].Completed? {
        assert w.events[i] == v.events[i];
        assert i < |v.events| - 1 || i == |v.events| - 1;
      }
    }
  }

  lemma DeliveryOther(v: View, registered: bool, seen: seq<Frame>, sent: seq<Frame>, e: Event, still: bool)
    requires Delivery(v, registered, seen, sent) && !v.Finished()
    requires e.Connected? || e == Completed(DISCONNECTED)
    requires still ==> registered
    ensures Delivery(v.Notified(e), still, seen, sent)
  {
    NotifiedView(v, e);
  }

  /** The receiver takes the next frame; it is given it if it is registered. */
  function Told(f: Frame): Event
    requires f.ChannelMsg? || f.ChannelEnd?
  {
    if f.ChannelMsg? then Message(f.sequence, f.payload) else Completed(f.error)
  }

  lemma DeliveryTakes(v: View, tag: Tag, bound: nat, registered: bool, seen: seq<Frame>, sent: seq<Frame>, f: Frame)
    requires Delivery(v, registered, seen, sent) && Orderly(sent, tag, bound)
    requires f.For(tag) && seen + [f] <= sent
    requires registered ==> !v.Finished()
    ensures !registered ==> Delivery(v, false, seen + [f], sent)
    ensures registered ==> Delivery(v.Notified(Told(f)), f.ChannelMsg?, seen + [f], sent)
  {
    ItemsAppend(seen, f);
    if Ended(seen) { EndIsLast(seen, sent, tag, bound); }
    NotifiedView(v, Told(f));
    if f.ChannelEnd? { EndIsLast(seen + [f], sent, tag, bound); }
  }

  // ---- The SDK end.

  lemma MakeGood(k: Chan)
    requires Good(k) && !k.near.made
    ensures Good(Make(k))
  {
  }

  lemma NearSendGood(k: Chan, service: ServiceId, payload: Payload, pipeError: int)
    requires Good(k) && k.near.made && k.near.view.alive
    ensures Good(NearSend(k, service, payload, pipeError))
  {
    if k.near.connected && k.near.listed {
      var f := ChannelMsg(k.tag, k.near.view.nextSequence, service, payload);
      StreamSends(k.near.view, k.tag, service, payload, pipeError, k.up, k.upSeen);
      if k.far.views != [] {
        DeliveryGrows(k.far.views[0], k.tag, k.near.view, k.far.named.Some?, k.upSeen, k.up, f, pipeError);
      }
    }
  }

  lemma NearCompleteGood(k: Chan, error: int)
    requires Good(k) && k.near.made && k.near.view.alive
    ensures Good(NearComplete(k, error))
  {
  }

  lemma NearSubscribeGood(k: Chan)
    requires Good(k) && k.near.made && k.near.view.alive
    ensures Good(NearSubscribe(k))
  {
    NotifiedView(k.near.view, Connected);
    if k.near.listed { DeliveryOther(k.near.view, true, k.downSeen, k.down, Connected, true); }
  }

  lemma NearDisposeGood(k: Chan, pipeError: int)
    requires Good(k) && k.near.made && k.near.view.alive && !k.near.greeting
    ensures Good(NearDispose(k, pipeError))
  {
    hide Stream, Delivery;
    var v := k.near.view;
    var f := ChannelEnd(k.tag, v.completionError);
    StreamEnds(v, k.tag, pipeError, k.up, k.upSeen);
    StreamUnlisted(v, k.tag, k.up, k.upSeen);
    DeliveryUnlisted(v, k.near.listed, k.downSeen, k.down);
    NotEndedYet(v, k.tag, k.up, k.upSeen);
    if k.far.views != [] {
      DeliveryGrows(k.far.views[0], k.tag, v, k.far.named.Some?, k.upSeen, k.up, f, pipeError);
    }
  }

  lemma NotEndedYet(v: View, tag: Tag, sent: seq<Frame>, seen: seq<Frame>)
    requires Stream(v, tag, sent, seen) && v.alive
    ensures !Ended(sent)
  {
  }

  lemma NearHelloGood(k: Chan)
    requires Good(k) && !k.near.mourning
    ensures Good(NearHello(k))
  {
  }

  lemma NearGreetGood(k: Chan)
    requires Good(k) && k.near.greeting
    ensures Good(NearGreet(k))
  {
    NotifiedView(k.near.view, Connected);
    DeliveryOther(k.near.view, true, k.downSeen, k.down, Connected, true);
  }

  lemma NearLostGood(k: Chan)
    requires Good(k) && !k.near.greeting && !k.near.mourning
    ensures Good(NearLost(k))
  {
  }

  lemma NearMournGood(k: Chan)
    requires Good(k) && k.near.mourning
    ensures Good(NearMourn(k))
  {
    NotifiedView(k.near.view, Completed(DISCONNECTED));
    DeliveryOther(k.near.view, false, k.downSeen, k.down, Completed(DISCONNECTED), false);
  }

  lemma NearTakeGood(k: Chan, f: Frame)
    requires Good(k) && !k.near.greeting && !k.near.mourning
    requires f.For(k.tag) && k.downSeen + [f] <= k.down
    ensures Good(NearTake(k, f))
  {
    NotifiedView(k.near.view, Told(f));
    DeliveryTakes(k.near.view, k.tag, k.far.views[0].nextSequence, k.near.listed, k.downSeen, k.down, f);
  }

  // ---- The daemon's end.

  lemma FarSendGood(k: Chan, o: nat, service: ServiceId, payload: Payload, pipeError: int)
    requires Good(k) && o < |k.far.views| && k.far.views[o].alive
    ensures Good(FarSend(k, o, service, payload, pipeError))
  {
    if k.far.named.Some? {
      var v := k.far.views[0];
      var f := ChannelMsg(k.tag, v.nextSequence, service, payload);
      StreamSends(v, k.tag, service, payload, pipeError, k.down, k.downSeen);
      DeliveryGrows(k.near.view, k.tag, v, k.near.listed, k.downSeen, k.down, f, pipeError);
    }
  }

  lemma FarCompleteGood(k: Chan, o: nat, error: int)
    requires Good(k) && o < |k.far.views| && k.far.views[o].alive
    ensures Good(FarComplete(k, o, error))
  {
    hide Stream, Delivery;
    var v := k.far.views[0];
    StreamRecoded(v, k.tag, k.down, k.downSeen, error);
    DeliveryRecoded(v, k.far.named.Some?, k.upSeen, k.up, error);
  }

  /** A sender that is still there may change what it will end with. */
  lemma StreamRecoded(v: View, tag: Tag, sent: seq<Frame>, seen: seq<Frame>, error: int)
    requires Stream(v, tag, sent, seen) && v.alive
    ensures Stream(v.(completionError := error), tag, sent, seen)
  {
  }

  lemma DeliveryRecoded(v: View, registered: bool, seen: seq<Frame>, sent: seq<Frame>, error: int)
    requires Delivery(v, registered, seen, sent)
    ensures Delivery(v.(completionError := error), registered, seen, sent)
  {
  }

  lemma FarSubscribeGood(k: Chan)
    requires Good(k)
    ensures Good(FarSubscribe(k))
  {
    if k.far.named.Some? {
      NotifiedView(k.far.views[0], Connected);
      DeliveryOther(k.far.views[0], true, k.upSeen, k.up, Connected, true);
    }
  }

  lemma FarDisposeGood(k: Chan, o: nat, pipeError: int)
    requires Good(k) && o < |k.far.views| && k.far.views[o].alive
    ensures Good(FarDispose(k, o, pipeError))
  {
    hide Stream, Delivery;
    var v := k.far.views[0];
    var f := ChannelEnd(k.tag, v.completionError);
    StreamEnds(v, k.tag, pipeError, k.down, k.downSeen);
    DeliveryGrows(k.near.view, k.tag, v, k.near.listed, k.downSeen, k.down, f, pipeError);
    DeliveryUnlisted(v, k.far.named.Some?, k.upSeen, k.up);
    if k.far.named.None? { StreamUnlisted(v, k.tag, k.down, k.downSeen); }
  }

  /** A gateway that is destroyed has been told what it has been told. */
  lemma DeliveryUnlisted(v: View, registered: bool, seen: seq<Frame>, sent: seq<Frame>)
    requires Delivery(v, registered, seen, sent)
    ensures Delivery(v.(alive := false), false, seen, sent)
  {
  }

  lemma StreamUnlisted(v: View, tag: Tag, sent: seq<Frame>, seen: seq<Frame>)
    requires Stream(v, tag, sent, seen)
    ensures Stream(v.(alive := false), tag, sent, seen)
  {
  }

  lemma FarRoutedGood(k: Chan)
    requires Good(k)
    ensures Good(FarRouted(k))
  {
  }

  /** The message that opens a channel is the first of it, whatever was dropped before. */
  lemma OpeningIsFirst(k: Chan, f: Frame)
    requires UpGood(k) && f.ChannelMsg? && f.sequence == 0 && k.upSeen + [f] <= k.up
    ensures k.upSeen == []
  {
    assert k.up[|k.upSeen|] == f;
    var first := k.up[0];
    assert first.ChannelMsg?;
  }

  lemma FarTakeGood(k: Chan, f: Frame)
    requires Good(k) && !k.far.mourned
    requires f.For(k.tag) && k.upSeen + [f] <= k.up
    ensures Good(FarTake(k, f))
  {
    if k.far.views != [] {
      NotifiedView(k.far.views[0], Told(f));
      DeliveryTakes(k.far.views[0], k.tag, k.near.view.nextSequence, k.far.named.Some?, k.upSeen, k.up, f);
    }
    if !Reaches(k) && f.ChannelMsg? && f.sequence == 0 {
      OpeningIsFirst(k, f);
      ItemsAppend([], f);
    }
  }

  lemma FarLostGood(k: Chan)
    requires Good(k) && !k.far.mourned
    ensures Good(FarLost(k))
  {
  }

  lemma FarMournGood(k: Chan, o: nat)
    requires Good(k) && o < |k.far.views| && k.far.mourned
    ensures Good(FarMourn(k, o))
  {
    NotifiedView(k.far.views[0], Completed(DISCONNECTED));
    DeliveryOther(k.far.views[0], false, k.upSeen, k.up, Completed(DISCONNECTED), false);
  }
}
