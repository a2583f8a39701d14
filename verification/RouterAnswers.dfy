/** What the routers' operations answer and do, said in terms of the run alone: whether the
    connection stands, what the gateway was told, and what was given to the pipe before. */
module RouterAnswers {
  import opened IpcTypes
  import opened Channel
  import opened Network
  import opened Projection
  import opened NetworkTheorems
  import opened RouterGuarantees
  import opened Hearing
  import opened ChannelEnds
  import opened Numbering
  import opened Wires
  import ChannelProofs
  import C = ClientRouterSpec
  import S = ServerRouterSpec

  function After(services: set<ServiceId>, labels: seq<Label>): Sys
    requires Allowed(Initial(services), labels)
  {
    Network.Run(Initial(services), labels)
  }

  /** The channel of this gateway is open: its connection stands and the other end has not
      completed it. */
  predicate Open(s: Sys, p: Pid, t: Tag) {
    Stands(s, p) && t in s.hosts[p].router.gateways && !Gateway(s, p, t).Finished()
  }

  predicate OpenAtDaemon(s: Sys, g: S.Ref) {
    g.endpoint.clientId in s.contexts && s.server.Exists(g) && !s.server.At(g).Finished()
  }

  lemma OpenIsListed(services: set<ServiceId>, s: Sys, p: Pid, t: Tag)
    requires Reachable(services, s) && p in s.hosts && s.hosts[p].router.Usable(t)
    ensures s.hosts[p].router.connected <==> Stands(s, p)
    ensures Stands(s, p) ==> (t in s.hosts[p].router.table <==> Open(s, p, t))
  {
    hide Reachable;
    ConnectedIsStanding(services, s, p);
    if Stands(s, p) { ListedIsOpen(services, s, p, t); }
  }

  lemma OpenIsRegistered(services: set<ServiceId>, s: Sys, g: S.Ref)
    requires Reachable(services, s) && s.server.Usable(g)
    ensures s.server.Registered(g.endpoint).Some? <==> OpenAtDaemon(s, g)
    ensures OpenAtDaemon(s, g) ==> s.server.Registered(g.endpoint) == Some(g.ordinal)
    ensures g.endpoint.clientId in s.contexts <==> s.server.Routed(g.endpoint.clientId)
  {
    hide Reachable, Inv, AllHear;
    RegisteredIsOpen(services, s, g);
    ReachableHears(services, s);
    if OpenAtDaemon(s, g) { LivingIsRegistered(s, g); }
    TablesAreOpen(s);
    if g.endpoint.clientId in s.contexts { ExistingIsRouted(s, g); }
  }

  lemma ExistingIsRouted(s: Sys, g: S.Ref)
    requires Inv(s) && s.server.Exists(g) && g.endpoint.clientId in s.contexts
    ensures s.server.Routed(g.endpoint.clientId)
  {
    hide Inv;
    var p := OwnerOf(s, g);
    ChannelOf(s, p, g.endpoint.tag);
    HandshakeAt(s, p);
  }

  // ---- Connecting.

  /** Once its pipe is up a process has written its connect request, if the pipe takes it, and
      nothing else; it is not connected by that. */
  lemma ConnectIsSent(services: set<ServiceId>, s: Sys, p: Pid, pipeError: int)
    requires Reachable(services, s) && Enabled(s, CPipeUp(p, pipeError))
    ensures var s' := Step(s, CPipeUp(p, pipeError));
            && p in s'.hosts && s'.hosts[p].pipe.Open? && !s'.hosts[p].router.connected
            && Up(s', p) == (if pipeError == SUCCESS then [Connect(0, 1, 0)] else [])
  {
    hide Inv, Reachable;
    ReachableGood(services, s);
    HandshakeAt(s, p);
  }

  /** The daemon answers a connect request with its own, and routes the client from then on,
      exactly if the pipe takes the answer; else it drops the client. */
  lemma ConnectIsAnswered(services: set<ServiceId>, s: Sys, c: ClientId, handlerError: int, pipeError: int)
    requires Reachable(services, s) && Enabled(s, SReceive(c, handlerError, pipeError)) && s.Next(c).Connect?
    ensures var s' := Step(s, SReceive(c, handlerError, pipeError));
            && s'.server.Outbox(c) == (if pipeError == SUCCESS then [Connect(0, 1, 0)] else [])
            && (s'.server.Routed(c) <==> pipeError == SUCCESS) && (c in s'.contexts <==> pipeError == SUCCESS)
  {
    hide Inv, Reachable;
    ReachableGood(services, s);
    ClientIs(services, s, c);
    HandshakeOnce(services, s, s.sockets[c], s.Taken(c));
    OpenHasOwner(s, c);
    HandshakeAt(s, s.sockets[c]);
    RoutedIsAnswered(services, s, c);
  }

  // ---- Sending.

  /** A message is refused as not connected while the connection does not stand, as shut
      down once the channel was completed, and else it is up to the pipe; it carries the
      number of messages given before, and only what the pipe accepts is on the stream and in
      the gateway's history. */
  lemma SendIsAnswered(services: set<ServiceId>, labels: seq<Label>, p: Pid, t: Tag, service: ServiceId,
                       payload: Payload, pipeError: int)
    requires Allowed(Initial(services), labels)
    requires Enabled(After(services, labels), CSend(p, t, service, payload, pipeError))
    ensures var s := After(services, labels);
            var s' := Step(s, CSend(p, t, service, payload, pipeError));
            var number := CountOn(Given(Initial(services), labels, ToDaemon(p)), t);
            var taken := Open(s, p, t) && pipeError == SUCCESS;
            && C.SendError(s.hosts[p].router, t, pipeError) ==
               (if !Stands(s, p) then NOT_CONNECTED else if !Open(s, p, t) then SHUTDOWN else pipeError)
            && Up(s', p) == Up(s, p) + (if taken then [ChannelMsg(t, number, service, payload)] else [])
            && t in s'.hosts[p].router.gateways
            && Gateway(s', p, t).sent == Gateway(s, p, t).sent + (if taken then [Item(number, payload)] else [])
  {
    hide Inv, Allowed, Network.Run, Given, CountOn;
    var s := After(services, labels);
    assert Reachable(services, s);
    InitialGood(services);
    CounterCounts(Initial(services), labels, ToDaemon(p), t);
    OpenIsListed(services, s, p, t);
  }

  lemma SendIsAnsweredByDaemon(services: set<ServiceId>, labels: seq<Label>, g: S.Ref, service: ServiceId,
                               payload: Payload, pipeError: int)
    requires Allowed(Initial(services), labels)
    requires Enabled(After(services, labels), SSend(g, service, payload, pipeError))
    ensures var s, c, t := After(services, labels), g.endpoint.clientId, g.endpoint.tag;
            var s' := Step(s, SSend(g, service, payload, pipeError));
            var number := CountOn(Given(Initial(services), labels, ToProcess(c)), t);
            var taken := OpenAtDaemon(s, g) && pipeError == SUCCESS;
            && S.SendError(s.server, g, pipeError) ==
               (if c !in s.contexts then NOT_CONNECTED else if !OpenAtDaemon(s, g) then SHUTDOWN else pipeError)
            && s'.server.Outbox(c) ==
               s.server.Outbox(c) + (if taken then [ChannelMsg(t, number, service, payload)] else [])
            && s'.server.Exists(g)
            && s'.server.At(g).sent == s.server.At(g).sent + (if taken then [Item(number, payload)] else [])
  {
    hide Inv, Allowed, Network.Run, Given, CountOn;
    var s := After(services, labels);
    assert Reachable(services, s);
    InitialGood(services);
    RunKeeps(Initial(services), labels);
    CounterCounts(Initial(services), labels, ToProcess(g.endpoint.clientId), g.endpoint.tag);
    OneObject(s, g);
    FirstObject(s, g);
    OpenIsRegistered(services, s, g);
    DaemonSends(s, g, service, payload, pipeError);
    hide Step, C.Send, S.Send;
  }

  lemma FirstObject(s: Sys, g: S.Ref)
    requires s.server.Usable(g) && |s.server.Objects(g.endpoint)| == 1
    ensures Counter(s, ToProcess(g.endpoint.clientId), g.endpoint.tag) == s.server.At(g).nextSequence
  {
  }

  lemma DaemonSends(s: Sys, g: S.Ref, service: ServiceId, payload: Payload, pipeError: int)
    requires Enabled(s, SSend(g, service, payload, pipeError))
    ensures var c, r' := g.endpoint.clientId, Step(s, SSend(g, service, payload, pipeError)).server;
            var number := s.server.At(g).nextSequence;
            var taken := s.server.Registered(g.endpoint).Some? && pipeError == SUCCESS;
            && r'.Outbox(c) ==
               s.server.Outbox(c) + (if taken then [ChannelMsg(g.endpoint.tag, number, service, payload)] else [])
            && r'.Exists(g)
            && r'.At(g).sent == s.server.At(g).sent + (if taken then [Item(number, payload)] else [])
  {
  }

  // ---- Subscribing.

  /** Subscribing tells the gateway of the connection at once if its channel is open, and
      otherwise nothing. */
  lemma SubscribeIsAnswered(services: set<ServiceId>, s: Sys, p: Pid, t: Tag)
    requires Reachable(services, s) && Enabled(s, CSubscribe(p, t))
    ensures var s' := Step(s, CSubscribe(p, t));
            && p in s'.hosts && t in s'.hosts[p].router.gateways
            && Gateway(s', p, t).events ==
               Gateway(s, p, t).events + (if Open(s, p, t) then [Connected] else [])
  {
    hide Reachable;
    OpenIsListed(services, s, p, t);
  }

  lemma SubscribeIsAnsweredByDaemon(services: set<ServiceId>, s: Sys, g: S.Ref)
    requires Reachable(services, s) && Enabled(s, SSubscribe(g))
    ensures var s' := Step(s, SSubscribe(g));
            && s'.server.Exists(g)
            && s'.server.At(g).events == s.server.At(g).events + (if OpenAtDaemon(s, g) then [Connected] else [])
  {
    hide Reachable;
    OpenIsRegistered(services, s, g);
  }

  // ---- Handlers that err.

  /** The gateway that this frame is for hears it. */
  predicate Hears(s: Sys, p: Pid, f: Frame) {
    (f.ChannelMsg? || f.ChannelEnd?) && Open(s, p, f.tag) && Gateway(s, p, f.tag).alive
  }

  predicate HearsAtDaemon(s: Sys, c: ClientId, f: Frame) {
    && (f.ChannelMsg? || f.ChannelEnd?)
    && (var g := S.Ref(S.Endpoint(f.tag, c), 0); s.server.Usable(g) && OpenAtDaemon(s, g))
  }

  /** A read closes the connection of a process exactly if a gateway hears of the frame and
      its handler errs. */
  lemma HandlerErrorCloses(services: set<ServiceId>, s: Sys, p: Pid, c: ClientId, handlerError: int)
    requires Reachable(services, s) && Enabled(s, CReceive(p, c, handlerError))
    ensures var s', f := Step(s, CReceive(p, c, handlerError)), s.server.Outbox(c)[s.hosts[p].taken];
            p in s'.hosts && (s'.hosts[p].pipe.Closed? <==> Hears(s, p, f) && handlerError != SUCCESS)
  {
    hide Reachable;
    var f := s.server.Outbox(c)[s.hosts[p].taken];
    SocketIs(services, s, p, c);
    HandshakeOnce(services, s, p, s.hosts[p].taken);
    if (f.ChannelMsg? || f.ChannelEnd?) {
      AfterReply(services, s, p, c);
      if s.hosts[p].router.Usable(f.tag) { OpenIsListed(services, s, p, f.tag); }
    }
  }

  lemma SocketIs(services: set<ServiceId>, s: Sys, p: Pid, c: ClientId)
    requires Reachable(services, s) && s.HostHasNext(p, c)
    ensures Down(s, p) == s.server.Outbox(c)
  {
    hide Inv, Reachable;
    ReachableGood(services, s);
    IdMatches(s, p, c);
  }

  lemma ClientIs(services: set<ServiceId>, s: Sys, c: ClientId)
    requires Reachable(services, s) && s.HasNext(c)
    ensures s.sockets[c] in s.hosts
  {
  }

  /** A frame of a channel is not the first that a process reads. */
  lemma AfterReply(services: set<ServiceId>, s: Sys, p: Pid, c: ClientId)
    requires Reachable(services, s) && s.HostHasNext(p, c) && s.hosts[p].pipe.Open?
    requires !s.server.Outbox(c)[s.hosts[p].taken].Connect?
    ensures Stands(s, p)
  {
    hide Inv;
    ReachableGood(services, s);
    HandshakeAt(s, p);
    IdMatches(s, p, c);
  }

  /** A read drops the client exactly if a gateway hears of the frame and its handler errs, or
      if the reply to a connect request is refused. */
  lemma HandlerErrorDrops(services: set<ServiceId>, s: Sys, c: ClientId, handlerError: int, pipeError: int)
    requires Reachable(services, s) && Enabled(s, SReceive(c, handlerError, pipeError))
    ensures var s', f := Step(s, SReceive(c, handlerError, pipeError)), s.Next(c);
            c !in s'.contexts <==>
            (f.Connect? && pipeError != SUCCESS) || (HearsAtDaemon(s, c, f) && handlerError != SUCCESS)
  {
    hide Reachable;
    var f := s.Next(c);
    ClientIs(services, s, c);
    HandshakeOnce(services, s, s.sockets[c], s.Taken(c));
    if (f.ChannelMsg? || f.ChannelEnd?) {
      var g := S.Ref(S.Endpoint(f.tag, c), 0);
      NoAliasing(services, s, g.endpoint);
      if s.server.Usable(g) { OpenIsRegistered(services, s, g); }
    }
  }

  // ---- Opening.

  /** Reading a message makes a gateway exactly if it has sequence 0 and its service is on
      offer, and then the one gateway of its endpoint, with the message for its opening; no
      other frame makes any. */
  lemma OpensIff(services: set<ServiceId>, s: Sys, c: ClientId, handlerError: int, pipeError: int, t: Tag)
    requires Reachable(services, s) && Enabled(s, SReceive(c, handlerError, pipeError))
    ensures var f, s', e := s.Next(c), Step(s, SReceive(c, handlerError, pipeError)), S.Endpoint(t, c);
            if f.ChannelMsg? && f.tag == t && f.sequence == 0 && f.service in services
            then s.server.Objects(e) == [] && s'.server.Objects(e) == [FreshView(Some(Opening(f.service, f.payload)))]
            else |s'.server.Objects(e)| == |s.server.Objects(e)|
  {
    hide Reachable;
    var f := s.Next(c);
    ServicesAreFixed(services, s);
    hide S.Receive, S.ReceiveError, S.PipeDisconnected;
    LossMakesNone(ServerTakes(s, c, pipeError), c, S.Endpoint(t, c));
    if f.ChannelMsg? && f.sequence == 0 && f.service in services {
      OpeningReachesFactory(services, s, c);
      NothingOpen(services, s, c);
      OpeningMakesOne(s.server, c, f, pipeError, t);
    } else {
      OthersMakeNone(s.server, c, f, pipeError, t);
    }
  }

  lemma LossMakesNone(s: Sys, c: ClientId, e: S.Endpoint)
    ensures LoseClient(s, c).server.Objects(e) == s.server.Objects(e)
  {
  }

  lemma OpeningMakesOne(r: S.ServerState, c: ClientId, f: Frame, pipeError: int, t: Tag)
    requires S.Opens(r, c, f)
    ensures var r', e := S.Receive(r, c, f, pipeError), S.Endpoint(t, c);
            if f.tag == t then r'.Objects(e) == r.Objects(e) + [FreshView(Some(Opening(f.service, f.payload)))]
            else r'.Objects(e) == r.Objects(e)
  {
  }

  lemma OthersMakeNone(r: S.ServerState, c: ClientId, f: Frame, pipeError: int, t: Tag)
    requires !(f.ChannelMsg? && f.sequence == 0 && f.service in r.services)
    ensures |S.Receive(r, c, f, pipeError).Objects(S.Endpoint(t, c))| == |r.Objects(S.Endpoint(t, c))|
  {
  }

  lemma NothingOpen(services: set<ServiceId>, s: Sys, c: ClientId)
    requires Reachable(services, s) && c in s.contexts && s.HasNext(c)
    requires s.Next(c).ChannelMsg? && s.Next(c).sequence == 0
    ensures s.server.Objects(S.Endpoint(s.Next(c).tag, c)) == []
  {
    hide Reachable, Inv;
    ReachableGood(services, s);
    OpenHasOwner(s, c);
    var p, f := s.sockets[c], s.Next(c);
    ChannelOf(s, p, f.tag);
    NextUpOnTag(s, p, f.tag);
    NoneBeforeOpening(ChanOf(s, p, f.tag), f);
  }

  lemma OpenHasOwner(s: Sys, c: ClientId)
    requires Inv(s) && c in s.contexts
    ensures c in s.sockets && s.sockets[c] in s.hosts && IdOf(s, s.sockets[c]) == c
  {
    hide ProcessGood;
  }

  lemma NoneBeforeOpening(k: Chan, f: Frame)
    requires Good(k) && f.ChannelMsg? && f.sequence == 0 && k.upSeen + [f] <= k.up
    ensures k.far.views == []
  {
    ChannelProofs.OpeningIsFirst(k, f);
  }
}
