/** Nobody is forgotten: a gateway that lives is known to its router, is due to be told that
    the connection is lost, or has been told that its channel is complete; and what it was
    told is what the other end said. `Channel.Good` says what may be told, this what must. */
module Hearing {
  import opened IpcTypes
  import opened Channel
  import opened ChannelProofs
  import opened Network
  import opened Projection
  import ClientSteps
  import ServerSteps
  import NetworkTheorems
  import C = ClientRouterSpec
  import S = ServerRouterSpec

  /** The last event of a gateway is what this end frame says. */
  predicate ToldOf(v: View, seen: seq<Frame>)
    requires Ended(seen)
  {
    v.Finished() && v.events[|v.events| - 1] == Completed(seen[|seen| - 1].error)
  }

  /** One gateway, registered or due to be told of a lost connection, which `lost` says. */
  ghost predicate Hears(v: View, registered: bool, due: bool, lost: bool, seen: seq<Frame>) {
    && (v.alive ==> registered || due || v.Finished())
    && (due ==> lost && !Ended(seen))
    && (!lost && v.Finished() ==> Ended(seen))
    && (Ended(seen) ==> (v.alive ==> v.Finished()) && (v.Finished() ==> ToldOf(v, seen)))
  }

  ghost predicate NearHears(k: Chan, lost: bool) {
    k.near.made ==> Hears(k.near.view, k.near.listed, k.near.mourning, lost, k.downSeen)
  }

  ghost predicate FarHears(k: Chan, gone: bool) {
    k.far.views != [] ==> Hears(k.far.views[0], k.far.named.Some?, k.far.mourned, gone, k.upSeen)
  }

  // ---- Each action on a channel.

  /** Reading the next frame of the channel: the registered gateway is told of it. */
  lemma ToldFrame(v: View, sent: seq<Frame>, seen: seq<Frame>, tag: Tag, bound: nat, registered: bool, f: Frame)
    requires Hears(v, registered, false, false, seen) && Delivery(v, registered, seen, sent)
    requires Orderly(sent, tag, bound) && f.For(tag) && seen + [f] <= sent
    requires registered ==> v.alive && !v.Finished()
    ensures registered ==> Hears(v.Notified(Told(f)), f.ChannelMsg?, false, false, seen + [f])
    ensures !registered ==> Hears(v, false, false, false, seen + [f])
  {
    if Ended(seen) { EndIsLast(seen, sent, tag, bound); }
    assert (seen + [f])[|seen|] == f;
  }

  lemma NearActs(k: Chan, lost: bool)
    requires Good(k) && NearHears(k, lost) && k.near.made && k.near.view.alive
    ensures forall service, payload, e :: NearHears(NearSend(k, service, payload, e), lost)
    ensures forall error :: NearHears(NearComplete(k, error), lost)
    ensures NearHears(NearSubscribe(k), lost)
    ensures forall e :: NearHears(NearDispose(k, e), lost)
  {
  }

  lemma NearTurns(k: Chan, lost: bool)
    requires Good(k) && NearHears(k, lost)
    ensures NearHears(NearHello(k), lost)
    ensures k.near.greeting ==> NearHears(NearGreet(k), lost)
    ensures k.near.mourning ==> NearHears(NearMourn(k), lost)
    ensures !k.near.mourning ==> NearHears(NearLost(k), true)
    ensures !k.near.made ==> NearHears(Make(k), lost)
  {
  }

  lemma NearTakes(k: Chan, f: Frame)
    requires Good(k) && NearHears(k, false) && !k.near.greeting && !k.near.mourning
    requires f.For(k.tag) && k.downSeen + [f] <= k.down
    ensures NearHears(NearTake(k, f), false)
  {
    ToldFrame(k.near.view, k.down, k.downSeen, k.tag, k.far.views[0].nextSequence, k.near.listed, f);
  }

  lemma FarActs(k: Chan, gone: bool)
    requires Good(k) && FarHears(k, gone) && k.far.views != [] && k.far.views[0].alive
    ensures forall service, payload, e :: FarHears(FarSend(k, 0, service, payload, e), gone)
    ensures forall error :: FarHears(FarComplete(k, 0, error), gone)
    ensures FarHears(FarSubscribe(k), gone)
    ensures forall e :: FarHears(FarDispose(k, 0, e), gone)
  {
  }

  lemma FarTurns(k: Chan, gone: bool)
    requires Good(k) && FarHears(k, gone)
    ensures FarHears(FarRouted(k), gone)
    ensures k.far.mourned ==> FarHears(FarMourn(k, 0), gone)
    ensures !k.far.mourned ==> FarHears(FarLost(k), true)
  {
  }

  lemma FarTakes(k: Chan, f: Frame)
    requires Good(k) && FarHears(k, false) && !k.far.mourned
    requires f.For(k.tag) && k.upSeen + [f] <= k.up
    ensures FarHears(FarTake(k, f), false)
  {
    FarTakeGood(k, f);
    if k.far.views != [] {
      ToldFrame(k.far.views[0], k.up, k.upSeen, k.tag, k.near.view.nextSequence, k.far.named.Some?, f);
    } else if FarTake(k, f).far.views != [] {
      assert (k.upSeen + [f])[|k.upSeen|] == f;
    }
  }

  // ---- Over the whole system.

  predicate Lost(s: Sys, p: Pid)
    requires p in s.hosts
  {
    s.hosts[p].pipe.Closed?
  }

  predicate Gone(s: Sys, p: Pid) {
    p in s.ids && s.ids[p] !in s.contexts
  }

  ghost predicate ProcessHears(s: Sys, p: Pid)
    requires Readable(s, p)
  {
    forall t :: NearHears(ChanOf(s, p, t), Lost(s, p)) && FarHears(ChanOf(s, p, t), Gone(s, p))
  }

  ghost predicate AllHear(s: Sys) {
    forall p :: p in s.hosts ==> Readable(s, p) && ProcessHears(s, p)
  }

  /** Process `p` is as it was or as `h` says, and no other changes. */
  lemma OthersHear(s: Sys, s': Sys, p: Pid)
    requires AllHear(s) && p in s.hosts && OtherProcessesSame(s, s', p)
    requires forall q :: q in s.hosts && q != p ==> (Lost(s', q) <==> Lost(s, q)) && (Gone(s', q) <==> Gone(s, q))
    requires Readable(s', p) && ProcessHears(s', p)
    ensures AllHear(s')
  {
    hide NearHears, FarHears, ChanOf, Lost, Gone;
    forall q | q in s'.hosts ensures Readable(s', q) && ProcessHears(s', q) {
      if q != p {
        assert ProcessHears(s, q);
        assert SameChannels(s, s', q);
      }
    }
  }

  /** The pipe and the context of every process are what they were. */
  ghost predicate SameLinks(s: Sys, s': Sys) {
    && s'.hosts.Keys == s.hosts.Keys
    && (forall q :: q in s.hosts ==> (Lost(s', q) <==> Lost(s, q)))
    && (forall q :: Gone(s', q) <==> Gone(s, q))
  }

  lemma OneHears(s: Sys, s': Sys, p: Pid, t: Tag, k: Chan)
    requires AllHear(s) && OneChanges(s, s', p, t, k) && SameLinks(s, s')
    requires p in s.hosts && NearHears(k, Lost(s, p)) && FarHears(k, Gone(s, p))
    ensures AllHear(s')
  {
    hide NearHears, FarHears, ChanOf, Lost, Gone;
    assert ProcessHears(s, p);
    forall u ensures NearHears(ChanOf(s', p, u), Lost(s', p)) && FarHears(ChanOf(s', p, u), Gone(s', p)) {
      if u != t { assert ChanOf(s', p, u) == ChanOf(s, p, u); }
    }
    OthersHear(s, s', p);
  }

  /** The far end of a channel is not touched by what its near end does, and the other way
      round. */
  lemma NearOnly(k: Chan, k': Chan, gone: bool)
    requires FarHears(k, gone) && k'.far == k.far && k'.upSeen == k.upSeen
    ensures FarHears(k', gone)
  {
  }

  lemma FarOnly(k: Chan, k': Chan, lost: bool)
    requires NearHears(k, lost) && k'.near == k.near && k'.downSeen == k.downSeen
    ensures NearHears(k', lost)
  {
  }

  lemma LinksOfUser(s: Sys, l: Label)
    requires Enabled(s, l)
    requires l.CMake? || l.CSend? || l.CComplete? || l.CSubscribe? || l.CDispose? || l.CGreet? || l.CMourn? ||
             l.CPipeUp?
    ensures SameLinks(s, Step(s, l))
  {
    hide C.Send, C.Dispose, C.Subscribe, C.Greet, C.Mourn, C.Complete, C.MakeGateway, C.PipeConnected;
  }

  lemma LinksOfDaemon(s: Sys, l: Label)
    requires Enabled(s, l)
    requires l.SSend? || l.SComplete? || l.SSubscribe? || l.SDispose? || l.SMourn?
    ensures SameLinks(s, Step(s, l))
  {
    hide S.Send, S.Dispose, S.Subscribe, S.Mourn, S.Complete;
  }

  lemma ChannelHears(s: Sys, p: Pid, t: Tag)
    requires Inv(s) && AllHear(s) && p in s.hosts
    ensures Readable(s, p) && Good(ChanOf(s, p, t))
    ensures NearHears(ChanOf(s, p, t), Lost(s, p)) && FarHears(ChanOf(s, p, t), Gone(s, p))
  {
    hide Good, NearHears, FarHears, Lost, Gone;
    ClientSteps.ReadableOf(s, p);
    assert ProcessHears(s, p);
  }

  lemma UserHears(s: Sys, l: Label, p: Pid, t: Tag)
    requires Inv(s) && AllHear(s) && Enabled(s, l)
    requires match l
             case CSend(q, u, _, _, _) => q == p && u == t
             case CComplete(q, u, _) => q == p && u == t
             case CSubscribe(q, u) => q == p && u == t
             case CDispose(q, u, _) => q == p && u == t
             case _ => false
    ensures AllHear(Step(s, l))
  {
    hide Inv, AllHear, SameLinks, Good, NearHears, FarHears, OneChanges, Step, NearSend, NearDispose, NearSubscribe;
    var s' := Step(s, l);
    ChannelHears(s, p, t);
    var k := ChanOf(s, p, t);
    LinksOfUser(s, l);
    NearActs(k, Lost(s, p));
    match l
    case CSend(_, _, service, payload, e) =>
      ClientSteps.SendKeeps(s, p, t, service, payload, e);
      SendsNear(k, service, payload, e);
      NearOnly(k, NearSend(k, service, payload, e), Gone(s, p));
      OneHears(s, s', p, t, NearSend(k, service, payload, e));
    case CComplete(_, _, error) =>
      ClientSteps.CompleteKeeps(s, p, t, error);
      NearOnly(k, NearComplete(k, error), Gone(s, p));
      OneHears(s, s', p, t, NearComplete(k, error));
    case CSubscribe(_, _) =>
      ClientSteps.SubscribeKeeps(s, p, t);
      SubscribesNear(k);
      NearOnly(k, NearSubscribe(k), Gone(s, p));
      OneHears(s, s', p, t, NearSubscribe(k));
    case CDispose(_, _, e) =>
      ClientSteps.DisposeKeeps(s, p, t, e);
      DisposesNear(k, e);
      NearOnly(k, NearDispose(k, e), Gone(s, p));
      OneHears(s, s', p, t, NearDispose(k, e));
  }

  lemma SendsNear(k: Chan, service: ServiceId, payload: Payload, e: int)
    ensures var k' := NearSend(k, service, payload, e); k'.far == k.far && k'.upSeen == k.upSeen
  {
  }

  lemma SubscribesNear(k: Chan)
    ensures NearSubscribe(k).far == k.far && NearSubscribe(k).upSeen == k.upSeen
  {
  }

  lemma DisposesNear(k: Chan, e: int)
    ensures NearDispose(k, e).far == k.far && NearDispose(k, e).upSeen == k.upSeen
  {
  }

  lemma TurnHears(s: Sys, l: Label)
    requires Inv(s) && AllHear(s) && Enabled(s, l) && (l.CMake? || l.CGreet? || l.CMourn?)
    ensures AllHear(Step(s, l))
  {
    hide Inv, AllHear, SameLinks, Good, NearHears, FarHears, OneChanges, Step, C.MakeGateway, C.Greet, C.Mourn;
    var s', p := Step(s, l), l.p;
    var t := if l.CMake? then s.hosts[p].router.nextTag else l.t;
    ChannelHears(s, p, t);
    var k := ChanOf(s, p, t);
    LinksOfUser(s, l);
    NearTurns(k, Lost(s, p));
    match l
    case CMake(_) =>
      FreshTag(s, p);
      ClientSteps.MakeKeeps(s, p);
      NearOnly(k, Make(k), Gone(s, p));
      OneHears(s, s', p, t, Make(k));
    case CGreet(_, _) =>
      ClientSteps.GreetKeeps(s, p, t);
      NearOnly(k, NearGreet(k), Gone(s, p));
      OneHears(s, s', p, t, NearGreet(k));
    case CMourn(_, _) =>
      ClientSteps.MournKeeps(s, p, t);
      NearOnly(k, NearMourn(k), Gone(s, p));
      OneHears(s, s', p, t, NearMourn(k));
  }

  lemma FreshTag(s: Sys, p: Pid)
    requires Inv(s) && p in s.hosts
    ensures s.hosts[p].router.nextTag !in s.hosts[p].router.gateways
  {
    hide Good, Handshake, CursorsFit;
    assert ProcessGood(s, p);
  }

  lemma GatewayHears(s: Sys, l: Label, g: S.Ref)
    requires Inv(s) && AllHear(s) && Enabled(s, l)
    requires match l
             case SSend(h, _, _, _) => h == g
             case SComplete(h, _) => h == g
             case SSubscribe(h) => h == g
             case SDispose(h, _) => h == g
             case _ => false
    ensures AllHear(Step(s, l))
  {
    hide Inv, AllHear, SameLinks, Good, NearHears, FarHears, OneChanges, Step, FarSend, FarDispose, FarSubscribe;
    var s' := Step(s, l);
    var p, t := OwnerOf(s, g), g.endpoint.tag;
    ChannelHears(s, p, t);
    var k := ChanOf(s, p, t);
    LinksOfDaemon(s, l);
    FarActs(k, Gone(s, p));
    match l
    case SSend(_, service, payload, e) =>
      ServerSteps.SendKeeps(s, g, service, payload, e);
      SendsFar(k, service, payload, e);
      FarOnly(k, FarSend(k, 0, service, payload, e), Lost(s, p));
      OneHears(s, s', p, t, FarSend(k, 0, service, payload, e));
    case SComplete(_, error) =>
      ServerSteps.CompleteKeeps(s, g, error);
      FarOnly(k, FarComplete(k, 0, error), Lost(s, p));
      OneHears(s, s', p, t, FarComplete(k, 0, error));
    case SSubscribe(_) =>
      ServerSteps.SubscribeKeeps(s, g);
      SubscribesFar(k);
      FarOnly(k, FarSubscribe(k), Lost(s, p));
      OneHears(s, s', p, t, FarSubscribe(k));
    case SDispose(_, e) =>
      ServerSteps.DisposeKeeps(s, g, e);
      DisposesFar(k, e);
      FarOnly(k, FarDispose(k, 0, e), Lost(s, p));
      OneHears(s, s', p, t, FarDispose(k, 0, e));
  }

  lemma SendsFar(k: Chan, service: ServiceId, payload: Payload, e: int)
    requires k.far.views != []
    ensures var k' := FarSend(k, 0, service, payload, e); k'.near == k.near && k'.downSeen == k.downSeen
  {
  }

  lemma SubscribesFar(k: Chan)
    ensures FarSubscribe(k).near == k.near && FarSubscribe(k).downSeen == k.downSeen
  {
  }

  lemma DisposesFar(k: Chan, e: int)
    requires k.far.views != []
    ensures FarDispose(k, 0, e).near == k.near && FarDispose(k, 0, e).downSeen == k.downSeen
  {
  }

  /** The process whose gateway has this one for counterpart. */
  function OwnerOf(s: Sys, g: S.Ref): (p: Pid)
    requires Inv(s) && s.server.Exists(g)
    ensures p == s.sockets[g.endpoint.clientId] && p in s.hosts && IdOf(s, p) == g.endpoint.clientId && Readable(s, p)
    ensures g.ordinal == 0
    ensures var k := ChanOf(s, p, g.endpoint.tag);
            k.far.views == s.server.Objects(g.endpoint) && k.far.views != [] && k.far.views[0] == s.server.At(g)
  {
    assert ProcessGood(s, s.sockets[g.endpoint.clientId]);
    ServerSteps.HomeOf(s, g);
    assert FarGood(ChanOf(s, s.sockets[g.endpoint.clientId], g.endpoint.tag).far);
    s.sockets[g.endpoint.clientId]
  }

  lemma MournTurnHears(s: Sys, g: S.Ref)
    requires Inv(s) && AllHear(s) && Enabled(s, SMourn(g)) && s.server.Exists(g)
    ensures AllHear(Step(s, SMourn(g)))
  {
    hide Inv, AllHear, SameLinks, Good, NearHears, FarHears, OneChanges, Step, FarMourn;
    var s' := Step(s, SMourn(g));
    var p, t := OwnerOf(s, g), g.endpoint.tag;
    ChannelHears(s, p, t);
    var k := ChanOf(s, p, t);
    LinksOfDaemon(s, SMourn(g));
    FarTurns(k, Gone(s, p));
    ServerSteps.MournKeeps(s, g);
    assert k.far.mourned;
    MournsFar(k);
    FarOnly(k, FarMourn(k, 0), Lost(s, p));
    OneHears(s, s', p, t, FarMourn(k, 0));
  }

  lemma MournsFar(k: Chan)
    requires k.far.views != []
    ensures FarMourn(k, 0).near == k.near && FarMourn(k, 0).downSeen == k.downSeen
  {
  }

  // ---- The connections.

  lemma AllHearAfter(s: Sys, s': Sys, p: Pid, f: Chan -> Chan)
    requires Inv(s) && AllHear(s) && p in s.hosts && AllChange(s, s', p, f)
    requires forall q :: q in s.hosts && q != p ==> (Lost(s', q) <==> Lost(s, q)) && (Gone(s', q) <==> Gone(s, q))
    requires forall t :: NearHears(f(ChanOf(s, p, t)), Lost(s', p)) && FarHears(f(ChanOf(s, p, t)), Gone(s', p))
    ensures AllHear(s')
  {
    hide Inv, NearHears, FarHears, ChanOf, Lost, Gone;
    forall t ensures NearHears(ChanOf(s', p, t), Lost(s', p)) && FarHears(ChanOf(s', p, t), Gone(s', p)) {
      assert ChanOf(s', p, t) == f(ChanOf(s, p, t));
    }
    OthersHear(s, s', p);
  }

  lemma LinkHears(s: Sys, l: Label)
    requires Inv(s) && AllHear(s) && Enabled(s, l) && (l.CPipeUp? || l.Accept?)
    ensures AllHear(Step(s, l))
  {
    hide Inv, AllHear, Good, NearHears, FarHears, AllChange, ChanOf, Step, C.PipeConnected;
    var s', p := Step(s, l), l.p;
    ClientSteps.ReadableOf(s, p);
    forall t ensures NearHears(ChanOf(s, p, t), Lost(s, p)) && FarHears(ChanOf(s, p, t), Gone(s, p)) {
      ChannelHears(s, p, t);
    }
    if l.CPipeUp? {
      LinksOfUser(s, l);
      ClientSteps.PipeUpKeeps(s, p, l.pipeError);
    } else {
      LinksOfAccept(s, p);
      ServerSteps.AcceptKeeps(s, p);
    }
    AllHearAfter(s, s', p, k => k);
  }

  lemma LinksOfAccept(s: Sys, p: Pid)
    requires Inv(s) && Enabled(s, Accept(p))
    ensures SameLinks(s, Step(s, Accept(p)))
  {
    hide ProcessGood;
  }

  lemma LaunchHears(s: Sys, p: Pid)
    requires Inv(s) && AllHear(s) && Enabled(s, Launch(p))
    ensures AllHear(Step(s, Launch(p)))
  {
    hide NearHears, FarHears, ChanOf, Good, SameChannels, ProcessGood;
    var s' := Step(s, Launch(p));
    ClientSteps.LaunchKeeps(s, p);
    ClientSteps.LaunchStartsGood(s, p);
    forall q | q in s'.hosts ensures Readable(s', q) && ProcessHears(s', q) {
      if q == p {
        forall t ensures NearHears(ChanOf(s', p, t), Lost(s', p)) && FarHears(ChanOf(s', p, t), Gone(s', p)) {
          BlankHears(t, s.server.services, Lost(s', p), Gone(s', p));
        }
      } else {
        assert ProcessHears(s, q);
        StillHears(s, s', q);
      }
    }
  }

  lemma BlankHears(t: Tag, services: set<ServiceId>, lost: bool, gone: bool)
    ensures NearHears(ClientSteps.Blank(t, services), lost) && FarHears(ClientSteps.Blank(t, services), gone)
  {
  }

  lemma StillHears(s: Sys, s': Sys, q: Pid)
    requires q in s.hosts && SameChannels(s, s', q) && ProcessHears(s, q)
    requires (Lost(s', q) <==> Lost(s, q)) && (Gone(s', q) <==> Gone(s, q))
    ensures ProcessHears(s', q)
  {
    hide NearHears, FarHears, ChanOf, Lost, Gone;
  }

  lemma ServerLossHears(s: Sys, p: Pid)
    requires Inv(s) && AllHear(s) && p in s.hosts && s.hosts[p].router.Idle()
    ensures AllHear(LoseServer(s, p))
  {
    hide Inv, AllHear, Good, NearHears, FarHears, AllChange, ChanOf, C.PipeDisconnected, NearLost;
    var s' := LoseServer(s, p);
    ClientSteps.ReadableOf(s, p);
    ClientSteps.LoseServerKeeps(s, p);
    forall t
      ensures NearHears(NearLost(ChanOf(s, p, t)), Lost(s', p)) && FarHears(NearLost(ChanOf(s, p, t)), Gone(s', p))
    {
      ChannelHears(s, p, t);
      NotDue(s, p, t);
      NearTurns(ChanOf(s, p, t), Lost(s, p));
      LosesNear(ChanOf(s, p, t));
      NearOnly(ChanOf(s, p, t), NearLost(ChanOf(s, p, t)), Gone(s, p));
    }
    AllHearAfter(s, s', p, NearLost);
  }

  lemma NotDue(s: Sys, p: Pid, t: Tag)
    requires p in s.hosts && s.hosts[p].router.Idle() && CursorsFit(s, p)
    ensures !ChanOf(s, p, t).near.greeting && !ChanOf(s, p, t).near.mourning
  {
  }

  lemma LosesNear(k: Chan)
    ensures NearLost(k).far == k.far && NearLost(k).upSeen == k.upSeen
  {
  }

  lemma ClientReadHears(s: Sys, p: Pid, c: ClientId)
    requires Inv(s) && AllHear(s) && s.HostHasNext(p, c) && s.hosts[p].router.Idle() && s.hosts[p].pipe.Open?
    ensures AllHear(HostTakes(s, p, c))
  {
    hide Inv, AllHear, Good, NearHears, FarHears, AllChange, ChanOf, C.Receive, NearReads;
    var s' := HostTakes(s, p, c);
    ClientSteps.TakesKeeps(s, p, c);
    var f := Down(s, p)[s.hosts[p].taken];
    forall t
      ensures NearHears(NearReads(ChanOf(s, p, t), f), Lost(s', p))
      ensures FarHears(NearReads(ChanOf(s, p, t), f), Gone(s', p))
    {
      ChannelHears(s, p, t);
      NotDue(s, p, t);
      NextOnTag(s, p, t);
      ReadsNear(ChanOf(s, p, t), f);
      NearOnly(ChanOf(s, p, t), NearReads(ChanOf(s, p, t), f), Gone(s, p));
    }
    AllHearAfter(s, s', p, k => NearReads(k, f));
  }

  lemma NextOnTag(s: Sys, p: Pid, t: Tag)
    requires p in s.hosts && CursorsFit(s, p) && s.hosts[p].taken < |Down(s, p)|
    ensures var f, k := Down(s, p)[s.hosts[p].taken], ChanOf(s, p, t);
            f.For(k.tag) ==> k.downSeen + [f] <= k.down
  {
    ClientSteps.ReadsOne(Down(s, p), s.hosts[p].taken, t);
  }

  lemma ReadsNear(k: Chan, f: Frame)
    requires Good(k) && NearHears(k, false) && !k.near.greeting && !k.near.mourning
    requires f.For(k.tag) ==> k.downSeen + [f] <= k.down
    ensures NearHears(NearReads(k, f), false)
    ensures NearReads(k, f).far == k.far && NearReads(k, f).upSeen == k.upSeen
  {
    hide Good, NearHears;
    if f.For(k.tag) { NearTakes(k, f); } else { NearTurns(k, false); }
  }

  lemma ClientReceiveHears(s: Sys, l: Label)
    requires Inv(s) && AllHear(s) && Enabled(s, l) && l.CReceive?
    ensures AllHear(Step(s, l))
  {
    hide Inv, AllHear, AllChange, ChanOf, C.Receive, C.ReceiveError, LoseServer;
    ClientReadHears(s, l.p, l.c);
    ClientSteps.TakesKeeps(s, l.p, l.c);
    if C.ReceiveError(s.hosts[l.p].router, s.server.Outbox(l.c)[s.hosts[l.p].taken], l.handlerError) != SUCCESS {
      NoneGreeted(s, l);
      ServerLossHears(HostTakes(s, l.p, l.c), l.p);
    }
  }

  /** A read whose handler errs is not the one that connects. */
  lemma NoneGreeted(s: Sys, l: Label)
    requires Enabled(s, l) && l.CReceive?
    requires C.ReceiveError(s.hosts[l.p].router, s.server.Outbox(l.c)[s.hosts[l.p].taken], l.handlerError) != SUCCESS
    ensures HostTakes(s, l.p, l.c).hosts[l.p].router.Idle()
  {
  }

  lemma ClientLossHears(s: Sys, c: ClientId)
    requires Inv(s) && AllHear(s) && s.server.mourning == {} && c in s.sockets
    ensures AllHear(LoseClient(s, c))
  {
    hide Inv, AllHear, Good, NearHears, FarHears, AllChange, ChanOf, S.PipeDisconnected, FarLost;
    var s', p := LoseClient(s, c), s.sockets[c];
    SocketOwner(s, c);
    ServerSteps.LoseClientKeeps(s, c);
    forall t
      ensures NearHears(FarLost(ChanOf(s, p, t)), Lost(s', p)) && FarHears(FarLost(ChanOf(s, p, t)), Gone(s', p))
    {
      ChannelHears(s, p, t);
      NoneMourned(s, p, t);
      FarTurns(ChanOf(s, p, t), Gone(s, p));
      LosesFar(ChanOf(s, p, t));
      FarOnly(ChanOf(s, p, t), FarLost(ChanOf(s, p, t)), Lost(s, p));
    }
    AllHearAfter(s, s', p, FarLost);
  }

  lemma SocketOwner(s: Sys, c: ClientId)
    requires Inv(s) && c in s.sockets
    ensures var p := s.sockets[c];
            && p in s.hosts && p in s.ids && s.ids[p] == c && Readable(s, p)
            && forall q :: q in s.ids && q != p ==> s.ids[q] != c
  {
    hide Good;
    assert ProcessGood(s, s.sockets[c]);
  }

  lemma NoneMourned(s: Sys, p: Pid, t: Tag)
    requires p in s.hosts && CursorsFit(s, p) && s.server.mourning == {}
    ensures !ChanOf(s, p, t).far.mourned
  {
  }

  lemma LosesFar(k: Chan)
    ensures FarLost(k).near == k.near && FarLost(k).downSeen == k.downSeen
  {
  }

  lemma ServerReadHears(s: Sys, c: ClientId, pipeError: int)
    requires Inv(s) && AllHear(s) && c in s.contexts && s.HasNext(c) && s.server.mourning == {}
    ensures AllHear(ServerTakes(s, c, pipeError))
  {
    hide Inv, AllHear, Good, NearHears, FarHears, AllChange, ChanOf, S.Receive, FarReads;
    var s', p := ServerTakes(s, c, pipeError), s.sockets[c];
    SocketOwner(s, c);
    ServerSteps.TakesKeeps(s, c, pipeError);
    var f := s.Next(c);
    forall t
      ensures NearHears(FarReads(ChanOf(s, p, t), f, pipeError), Lost(s', p))
      ensures FarHears(FarReads(ChanOf(s, p, t), f, pipeError), Gone(s', p))
    {
      ChannelHears(s, p, t);
      NoneMourned(s, p, t);
      NextUpOnTag(s, p, t);
      ReadsFar(ChanOf(s, p, t), f, pipeError);
      FarOnly(ChanOf(s, p, t), FarReads(ChanOf(s, p, t), f, pipeError), Lost(s, p));
    }
    AllHearAfter(s, s', p, k => FarReads(k, f, pipeError));
  }

  lemma NextUpOnTag(s: Sys, p: Pid, t: Tag)
    requires p in s.hosts && CursorsFit(s, p) && s.Taken(IdOf(s, p)) < |Up(s, p)|
    ensures var f, k := Up(s, p)[s.Taken(IdOf(s, p))], ChanOf(s, p, t);
            f.For(k.tag) ==> k.upSeen + [f] <= k.up
  {
    ClientSteps.ReadsOne(Up(s, p), s.Taken(IdOf(s, p)), t);
  }

  lemma ReadsFar(k: Chan, f: Frame, pipeError: int)
    requires Good(k) && FarHears(k, false) && !k.far.mourned
    requires f.For(k.tag) ==> k.upSeen + [f] <= k.up
    ensures FarHears(FarReads(k, f, pipeError), false)
    ensures FarReads(k, f, pipeError).near == k.near && FarReads(k, f, pipeError).downSeen == k.downSeen
  {
    hide Good, FarHears;
    if f.For(k.tag) { FarTakes(k, f); } else { FarTurns(k, false); }
  }

  lemma ServerReceiveHears(s: Sys, l: Label)
    requires Inv(s) && AllHear(s) && Enabled(s, l) && l.SReceive?
    ensures AllHear(Step(s, l))
  {
    hide Inv, AllHear, AllChange, ChanOf, S.Receive, S.ReceiveError, LoseClient;
    ServerReadHears(s, l.c, l.pipeError);
    ServerSteps.TakesKeeps(s, l.c, l.pipeError);
    if S.ReceiveError(s.server, l.c, s.Next(l.c), l.handlerError, l.pipeError) != SUCCESS {
      ClientLossHears(ServerTakes(s, l.c, l.pipeError), l.c);
    }
  }

  lemma StepHears(s: Sys, l: Label)
    requires Inv(s) && AllHear(s) && Enabled(s, l)
    ensures AllHear(Step(s, l))
  {
    hide Inv, AllHear, Step;
    match l
    case Launch(p) => LaunchHears(s, p);
    case CMake(_) => TurnHears(s, l);
    case CSend(p, t, _, _, _) => UserHears(s, l, p, t);
    case CComplete(p, t, _) => UserHears(s, l, p, t);
    case CSubscribe(p, t) => UserHears(s, l, p, t);
    case CDispose(p, t, _) => UserHears(s, l, p, t);
    case CPipeUp(_, _) => LinkHears(s, l);
    case CReceive(_, _, _) => ClientReceiveHears(s, l);
    case CGreet(_, _) => TurnHears(s, l);
    case CPipeDown(p) => PipeDownHears(s, p);
    case CMourn(_, _) => TurnHears(s, l);
    case Accept(_) => LinkHears(s, l);
    case SReceive(_, _, _) => ServerReceiveHears(s, l);
    case SSend(g, _, _, _) => GatewayHears(s, l, g);
    case SComplete(g, _) => GatewayHears(s, l, g);
    case SSubscribe(g) => GatewayHears(s, l, g);
    case SDispose(g, _) => GatewayHears(s, l, g);
    case SPipeDown(c) => ContextDownHears(s, c);
    case SMourn(g) =>
      DueExists(s, g);
      MournTurnHears(s, g);
  }

  lemma PipeDownHears(s: Sys, p: Pid)
    requires Inv(s) && AllHear(s) && Enabled(s, CPipeDown(p))
    ensures AllHear(Step(s, CPipeDown(p)))
  {
    hide Inv, AllHear, LoseServer;
    ServerLossHears(s, p);
  }

  lemma ContextDownHears(s: Sys, c: ClientId)
    requires Inv(s) && AllHear(s) && Enabled(s, SPipeDown(c))
    ensures AllHear(Step(s, SPipeDown(c)))
  {
    hide ProcessGood, AllHear, LoseClient;
    ClientLossHears(s, c);
  }

  lemma DueExists(s: Sys, g: S.Ref)
    requires Inv(s) && g in s.server.mourning
    ensures s.server.Exists(g)
  {
    hide ProcessGood;
  }

  lemma {:induction false} RunHears(s: Sys, labels: seq<Label>)
    requires Inv(s) && AllHear(s) && Allowed(s, labels)
    ensures Inv(Run(s, labels)) && AllHear(Run(s, labels))
    decreases |labels|
  {
    hide Inv, AllHear, Step, Enabled;
    if labels != [] {
      NetworkTheorems.StepKeeps(s, labels[0]);
      StepHears(s, labels[0]);
      RunHears(Step(s, labels[0]), labels[1..]);
    }
  }

  lemma ReachableHears(services: set<ServiceId>, s: Sys)
    requires NetworkTheorems.Reachable(services, s)
    ensures Inv(s) && AllHear(s)
  {
    hide Inv;
    var labels: seq<Label> :| Allowed(Initial(services), labels) && s == Run(Initial(services), labels);
    NetworkTheorems.InitialGood(services);
    RunHears(Initial(services), labels);
  }
}
