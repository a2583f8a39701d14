/** The actions of an SDK process keep the invariant of the system. */
module ClientSteps {
  import opened IpcTypes
  import opened Channel
  import opened ChannelProofs
  import opened Network
  import opened Projection
  import C = ClientRouterSpec
  import S = ServerRouterSpec

  /** Channel `t` of process `p` once its host has become `h`. */
  function Becomes(s: Sys, p: Pid, h: Host, t: Tag): Chan
    requires p in s.hosts && CursorsFit(s, p)
  {
    ChanOf(s, p, t).(near := NearOf(h.router, t), up := OnTag(h.router.outbox, t))
  }

  /** What a host may do on its own between two reads. */
  ghost predicate Moves(before: Host, after: Host) {
    && HostFits(after)
    && after.taken == before.taken
    && before.router.outbox <= after.router.outbox
    && (before.router.outbox == after.router.outbox || before.router.connected || after.router.outbox == [HELLO])
    && (after.router.connected ==> before.router.connected)
    && (after.pipe.Connecting? ==> before.pipe.Connecting? && after.router.outbox == before.router.outbox)
  }

  lemma MovesKeepsProcess(s: Sys, p: Pid, h: Host)
    requires p in s.hosts && ProcessGood(s, p) && Moves(s.hosts[p], h)
    requires forall t :: Good(Becomes(s, p, h, t))
    ensures var s' := s.(hosts := s.hosts[p := h]);
            ProcessGood(s', p) && Readable(s', p) && forall t :: ChanOf(s', p, t) == Becomes(s, p, h, t)
  {
    hide Good, NearOf, FarOf, OnTag, HostFits;
    var s' := s.(hosts := s.hosts[p := h]);
    var n := s.Taken(IdOf(s, p));
    assert h.router.outbox[..n] == s.hosts[p].router.outbox[..n];
    forall t ensures ChanOf(s', p, t) == Becomes(s, p, h, t) && Good(ChanOf(s', p, t)) {
      assert ChanOf(s', p, t) == Becomes(s, p, h, t);
    }
  }

  lemma HostKeeps(s: Sys, p: Pid, h: Host)
    requires Inv(s) && p in s.hosts && ProcessGood(s, p) && Moves(s.hosts[p], h)
    requires forall t :: Good(Becomes(s, p, h, t))
    ensures var s' := s.(hosts := s.hosts[p := h]);
            && Inv(s') && OtherProcessesSame(s, s', p) && Readable(s', p)
            && forall t :: ChanOf(s', p, t) == Becomes(s, p, h, t)
  {
    hide Good, NearOf, FarOf, OnTag, HostFits, Handshake, Becomes, CursorsFit, SameChannels;
    var s' := s.(hosts := s.hosts[p := h]);
    MovesKeepsProcess(s, p, h);
    forall q | q in s'.hosts ensures ProcessGood(s', q) && (q != p ==> SameChannels(s, s', q)) {
      hide ProcessGood;
      assert ProcessGood(s, q);
      if q != p { Untouched(s, s', q); }
    }
  }

  /** An action on one gateway: the others keep their place and their frames. */
  ghost predicate OnlyTouches(before: C.ClientState, after: C.ClientState, t: Tag) {
    && (after.outbox == before.outbox ||
        (exists f: Frame :: f.For(t) && after.outbox == before.outbox + [f]))
    && forall u :: u != t ==> NearOf(after, u) == NearOf(before, u)
  }

  lemma OtherTag(s: Sys, p: Pid, r: C.ClientState, t: Tag, u: Tag)
    requires p in s.hosts && CursorsFit(s, p) && u != t
    requires OnlyTouches(s.hosts[p].router, r, t)
    ensures Becomes(s, p, s.hosts[p].(router := r), u) == ChanOf(s, p, u)
  {
    hide NearOf, FarOf, OnTag;
    if r.outbox != s.hosts[p].router.outbox {
      var f: Frame :| f.For(t) && r.outbox == s.hosts[p].router.outbox + [f];
      OnTagAppend(s.hosts[p].router.outbox, f, u);
    }
  }

  lemma GatewayKeeps(s: Sys, p: Pid, r: C.ClientState, t: Tag, k: Chan)
    requires Inv(s) && p in s.hosts && ProcessGood(s, p)
    requires Moves(s.hosts[p], s.hosts[p].(router := r))
    requires OnlyTouches(s.hosts[p].router, r, t)
    requires Good(k) && k == Becomes(s, p, s.hosts[p].(router := r), t)
    ensures Inv(s.WithRouter(p, r)) && OneChanges(s, s.WithRouter(p, r), p, t, k)
  {
    hide Good, OtherProcessesSame, Becomes, NearOf, FarOf, OnTag, OnlyTouches, Moves, Inv, HostFits, Handshake, ChanOf;
    var h := s.hosts[p].(router := r);
    forall u ensures Good(Becomes(s, p, h, u)) && (u != t ==> Becomes(s, p, h, u) == ChanOf(s, p, u)) {
      if u != t { OtherTag(s, p, r, t, u); }
    }
    HostKeeps(s, p, h);
  }

  /** A channel that nobody has used. */
  function Blank(t: Tag, services: set<ServiceId>): Chan {
    Chan(t, Near(false, false, FreshView(None), false, false, false), [], [], Far(services, false, None, [], false),
      [], [])
  }

  lemma BlankGood(t: Tag, services: set<ServiceId>)
    ensures Good(Blank(t, services))
  {
  }

  lemma LaunchStartsGood(s: Sys, p: Pid)
    requires IdsFit(s) && p !in s.hosts
    ensures ProcessGood(Step(s, Launch(p)), p) && Readable(Step(s, Launch(p)), p)
    ensures forall t :: ChanOf(Step(s, Launch(p)), p, t) == Blank(t, s.server.services)
  {
    hide Good, OnTag;
    var s' := Step(s, Launch(p));
    assert 0 !in s.sockets;
    assert IdOf(s', p) == 0 && s'.Taken(0) == 0 && s'.server.Outbox(0) == [];
    forall t ensures Good(ChanOf(s', p, t)) && ChanOf(s', p, t) == Blank(t, s.server.services) {
      BlankGood(t, s.server.services);
      assert S.Ref(S.Endpoint(t, 0), 0) !in s.server.mourning;
      assert FarOf(s'.server, 0, t) == Far(s.server.services, false, None, [], false);
      assert OnTag([], t) == [] by { EmptyOnTag(t); }
    }
  }

  lemma EmptyOnTag(t: Tag)
    ensures OnTag([], t) == []
  {
  }

  lemma LaunchKeeps(s: Sys, p: Pid)
    requires Inv(s) && p !in s.hosts
    ensures Inv(Step(s, Launch(p)))
    ensures forall q :: q in s.hosts ==> SameChannels(s, Step(s, Launch(p)), q)
  {
    hide ProcessGood, FarOf, SameChannels, ChanOf;
    var s' := Step(s, Launch(p));
    forall q | q in s'.hosts ensures ProcessGood(s', q) && (q in s.hosts ==> SameChannels(s, s', q)) {
      if q == p {
        LaunchStartsGood(s, p);
      } else {
        assert ProcessGood(s, q);
        Untouched(s, s', q);
      }
    }
  }

  lemma MakeKeeps(s: Sys, p: Pid)
    requires Inv(s) && p in s.hosts
    ensures Inv(Step(s, CMake(p)))
    ensures Readable(s, p)
    ensures OneChanges(s, Step(s, CMake(p)), p, s.hosts[p].router.nextTag,
                       Make(ChanOf(s, p, s.hosts[p].router.nextTag)))
  {
    hide Good, OnTag, Moves, OnlyTouches, FarOf, Make, C.MakeGateway, Handshake;
    assert ProcessGood(s, p);
    var r := s.hosts[p].router;
    var t := r.nextTag;
    assert t !in r.gateways;
    MakeGood(ChanOf(s, p, t));
    MakeMoves(s.hosts[p]);
    MakeBecomes(s, p);
    hide HostFits;
    GatewayKeeps(s, p, C.MakeGateway(r), t, Make(ChanOf(s, p, t)));
  }

  lemma MakeMoves(h: Host)
    requires HostFits(h)
    ensures var r := C.MakeGateway(h.router);
            Moves(h, h.(router := r)) && OnlyTouches(h.router, r, h.router.nextTag)
  {
  }

  lemma MakeBecomes(s: Sys, p: Pid)
    requires p in s.hosts && CursorsFit(s, p)
    ensures var r := s.hosts[p].router;
            Becomes(s, p, s.hosts[p].(router := C.MakeGateway(r)), r.nextTag) == Make(ChanOf(s, p, r.nextTag))
  {
    hide FarOf;
  }

  lemma SendMoves(h: Host, t: Tag, service: ServiceId, payload: Payload, pipeError: int)
    requires HostFits(h) && h.router.Usable(t)
    ensures var r := C.Send(h.router, t, service, payload, pipeError);
            Moves(h, h.(router := r)) && OnlyTouches(h.router, r, t)
  {
    assert ChannelMsg(t, h.router.gateways[t].nextSequence, service, payload).For(t);
  }

  lemma SendBecomes(s: Sys, p: Pid, t: Tag, service: ServiceId, payload: Payload, pipeError: int)
    requires p in s.hosts && CursorsFit(s, p) && s.hosts[p].router.Usable(t)
    ensures Becomes(s, p, s.hosts[p].(router := C.Send(s.hosts[p].router, t, service, payload, pipeError)), t)
         == NearSend(ChanOf(s, p, t), service, payload, pipeError)
  {
    hide FarOf;
    var r := s.hosts[p].router;
    OnTagAppend(r.outbox, ChannelMsg(t, r.gateways[t].nextSequence, service, payload), t);
  }

  lemma SendKeeps(s: Sys, p: Pid, t: Tag, service: ServiceId, payload: Payload, pipeError: int)
    requires Inv(s) && Enabled(s, CSend(p, t, service, payload, pipeError))
    ensures Inv(Step(s, CSend(p, t, service, payload, pipeError)))
    ensures Readable(s, p)
    ensures OneChanges(s, Step(s, CSend(p, t, service, payload, pipeError)), p, t,
                       NearSend(ChanOf(s, p, t), service, payload, pipeError))
  {
    hide Good, OnTag, Moves, OnlyTouches, FarOf, NearSend, C.Send, HostFits, Handshake;
    assert ProcessGood(s, p);
    NearSendGood(ChanOf(s, p, t), service, payload, pipeError);
    SendMoves(s.hosts[p], t, service, payload, pipeError);
    SendBecomes(s, p, t, service, payload, pipeError);
    GatewayKeeps(s, p, C.Send(s.hosts[p].router, t, service, payload, pipeError), t,
                 NearSend(ChanOf(s, p, t), service, payload, pipeError));
  }

  lemma CompleteKeeps(s: Sys, p: Pid, t: Tag, error: int)
    requires Inv(s) && Enabled(s, CComplete(p, t, error))
    ensures Inv(Step(s, CComplete(p, t, error)))
    ensures Readable(s, p)
    ensures OneChanges(s, Step(s, CComplete(p, t, error)), p, t, NearComplete(ChanOf(s, p, t), error))
  {
    hide Good, OnTag, Moves, OnlyTouches, FarOf, NearComplete, C.Complete, HostFits, Handshake;
    assert ProcessGood(s, p);
    NearCompleteGood(ChanOf(s, p, t), error);
    CompleteMoves(s.hosts[p], t, error);
    CompleteBecomes(s, p, t, error);
    GatewayKeeps(s, p, C.Complete(s.hosts[p].router, t, error), t, NearComplete(ChanOf(s, p, t), error));
  }

  lemma CompleteMoves(h: Host, t: Tag, error: int)
    requires HostFits(h) && h.router.Usable(t)
    ensures var r := C.Complete(h.router, t, error);
            Moves(h, h.(router := r)) && OnlyTouches(h.router, r, t)
  {
  }

  lemma CompleteBecomes(s: Sys, p: Pid, t: Tag, error: int)
    requires p in s.hosts && CursorsFit(s, p)
    requires var h := s.hosts[p]; h.router.Usable(t)
    ensures Becomes(s, p, s.hosts[p].(router := C.Complete(s.hosts[p].router, t, error)), t) ==
            NearComplete(ChanOf(s, p, t), error)
  {
    hide FarOf;
  }

  lemma SubscribeKeeps(s: Sys, p: Pid, t: Tag)
    requires Inv(s) && Enabled(s, CSubscribe(p, t))
    ensures Inv(Step(s, CSubscribe(p, t)))
    ensures Readable(s, p)
    ensures OneChanges(s, Step(s, CSubscribe(p, t)), p, t, NearSubscribe(ChanOf(s, p, t)))
  {
    hide Good, OnTag, Moves, OnlyTouches, FarOf, NearSubscribe, C.Subscribe, HostFits, Handshake;
    assert ProcessGood(s, p);
    NearSubscribeGood(ChanOf(s, p, t));
    SubscribeMoves(s.hosts[p], t);
    SubscribeBecomes(s, p, t);
    GatewayKeeps(s, p, C.Subscribe(s.hosts[p].router, t), t, NearSubscribe(ChanOf(s, p, t)));
  }

  lemma SubscribeMoves(h: Host, t: Tag)
    requires HostFits(h) && h.router.Usable(t)
    ensures var r := C.Subscribe(h.router, t);
            Moves(h, h.(router := r)) && OnlyTouches(h.router, r, t)
  {
  }

  lemma SubscribeBecomes(s: Sys, p: Pid, t: Tag)
    requires p in s.hosts && CursorsFit(s, p) && s.hosts[p].router.Usable(t)
    ensures Becomes(s, p, s.hosts[p].(router := C.Subscribe(s.hosts[p].router, t)), t) == NearSubscribe(ChanOf(s, p, t))
  {
    hide FarOf;
  }

  lemma DisposeMoves(h: Host, t: Tag, pipeError: int)
    requires HostFits(h) && h.router.Usable(t)
    ensures var r := C.Dispose(h.router, t, pipeError);
            Moves(h, h.(router := r)) && OnlyTouches(h.router, r, t)
  {
    assert ChannelEnd(t, h.router.gateways[t].completionError).For(t);
  }

  lemma DisposeBecomes(s: Sys, p: Pid, t: Tag, pipeError: int)
    requires p in s.hosts && CursorsFit(s, p) && s.hosts[p].router.Usable(t)
    ensures Becomes(s, p, s.hosts[p].(router := C.Dispose(s.hosts[p].router, t, pipeError)), t)
         == NearDispose(ChanOf(s, p, t), pipeError)
  {
    hide FarOf;
    var r := s.hosts[p].router;
    OnTagAppend(r.outbox, ChannelEnd(t, r.gateways[t].completionError), t);
  }

  lemma DisposeKeeps(s: Sys, p: Pid, t: Tag, pipeError: int)
    requires Inv(s) && Enabled(s, CDispose(p, t, pipeError))
    ensures Inv(Step(s, CDispose(p, t, pipeError)))
    ensures Readable(s, p)
    ensures OneChanges(s, Step(s, CDispose(p, t, pipeError)), p, t, NearDispose(ChanOf(s, p, t), pipeError))
  {
    hide Good, OnTag, Moves, OnlyTouches, FarOf, NearDispose, C.Dispose, HostFits, Handshake;
    assert ProcessGood(s, p);
    NearDisposeGood(ChanOf(s, p, t), pipeError);
    DisposeMoves(s.hosts[p], t, pipeError);
    DisposeBecomes(s, p, t, pipeError);
    GatewayKeeps(s, p, C.Dispose(s.hosts[p].router, t, pipeError), t, NearDispose(ChanOf(s, p, t), pipeError));
  }

  lemma PipeUpKeeps(s: Sys, p: Pid, pipeError: int)
    requires Inv(s) && Enabled(s, CPipeUp(p, pipeError))
    ensures Inv(Step(s, CPipeUp(p, pipeError))) && AllChange(s, Step(s, CPipeUp(p, pipeError)), p, k => k)
  {
    hide Good, Moves, Becomes, ChanOf, OtherProcessesSame, HostFits, Handshake;
    assert ProcessGood(s, p);
    var h := s.hosts[p];
    var h' := h.(pipe := Open, router := C.PipeConnected(h.router, pipeError));
    forall t ensures Good(Becomes(s, p, h', t)) && Becomes(s, p, h', t) == ChanOf(s, p, t) {
      PipeUpBecomes(s, p, pipeError, t);
    }
    PipeUpMoves(s, p, pipeError);
    HostKeeps(s, p, h');
  }

  lemma PipeUpMoves(s: Sys, p: Pid, pipeError: int)
    requires p in s.hosts && ProcessGood(s, p) && s.hosts[p].pipe.Connecting?
    ensures var h := s.hosts[p];
            Moves(h, h.(pipe := Open, router := C.PipeConnected(h.router, pipeError)))
  {
    hide Good;
  }

  lemma PipeUpBecomes(s: Sys, p: Pid, pipeError: int, t: Tag)
    requires p in s.hosts && ProcessGood(s, p) && s.hosts[p].pipe.Connecting?
    ensures var h := s.hosts[p];
            Becomes(s, p, h.(pipe := Open, router := C.PipeConnected(h.router, pipeError)), t) == ChanOf(s, p, t)
  {
    hide Good, FarOf;
    OnTagAppend([], HELLO, t);
  }

  lemma GreetKeeps(s: Sys, p: Pid, t: Tag)
    requires Inv(s) && Enabled(s, CGreet(p, t))
    ensures Inv(Step(s, CGreet(p, t)))
    ensures Readable(s, p)
    ensures OneChanges(s, Step(s, CGreet(p, t)), p, t, NearGreet(ChanOf(s, p, t)))
  {
    hide Good, OnTag, Moves, OnlyTouches, FarOf, NearGreet, C.Greet, HostFits, Handshake;
    assert ProcessGood(s, p);
    NearGreetGood(ChanOf(s, p, t));
    GreetMoves(s.hosts[p], t);
    GreetBecomes(s, p, t);
    GatewayKeeps(s, p, C.Greet(s.hosts[p].router, t), t, NearGreet(ChanOf(s, p, t)));
  }

  lemma GreetMoves(h: Host, t: Tag)
    requires HostFits(h) && t in h.router.greeting && t in h.router.gateways
    ensures var r := C.Greet(h.router, t);
            Moves(h, h.(router := r)) && OnlyTouches(h.router, r, t)
  {
  }

  lemma GreetBecomes(s: Sys, p: Pid, t: Tag)
    requires p in s.hosts && CursorsFit(s, p)
    requires var h := s.hosts[p]; t in h.router.greeting && t in h.router.gateways
    ensures Becomes(s, p, s.hosts[p].(router := C.Greet(s.hosts[p].router, t)), t) == NearGreet(ChanOf(s, p, t))
  {
    hide FarOf;
  }

  lemma LoseServerKeeps(s: Sys, p: Pid)
    requires Inv(s) && p in s.hosts && s.hosts[p].router.Idle()
    ensures Inv(LoseServer(s, p)) && AllChange(s, LoseServer(s, p), p, NearLost)
  {
    hide Good, Moves, Becomes, ChanOf, OtherProcessesSame, HostFits, Handshake, NearLost, C.PipeDisconnected;
    assert ProcessGood(s, p);
    var h := s.hosts[p];
    var h' := h.(pipe := Closed, router := C.PipeDisconnected(h.router));
    forall t ensures Good(Becomes(s, p, h', t)) && Becomes(s, p, h', t) == NearLost(ChanOf(s, p, t)) {
      LosesBecomes(s, p, t);
      NearLostGood(ChanOf(s, p, t));
    }
    LosesMoves(h);
    HostKeeps(s, p, h');
  }

  lemma LosesMoves(h: Host)
    requires HostFits(h) && h.router.Idle()
    ensures Moves(h, h.(pipe := Closed, router := C.PipeDisconnected(h.router)))
  {
  }

  lemma LosesBecomes(s: Sys, p: Pid, t: Tag)
    requires p in s.hosts && CursorsFit(s, p) && s.hosts[p].router.Idle()
    ensures var h := s.hosts[p];
            var h' := h.(pipe := Closed, router := C.PipeDisconnected(h.router));
            Becomes(s, p, h', t) == NearLost(ChanOf(s, p, t))
    ensures !ChanOf(s, p, t).near.greeting && !ChanOf(s, p, t).near.mourning
  {
    hide FarOf;
  }

  lemma MournKeeps(s: Sys, p: Pid, t: Tag)
    requires Inv(s) && Enabled(s, CMourn(p, t))
    ensures Inv(Step(s, CMourn(p, t)))
    ensures Readable(s, p)
    ensures OneChanges(s, Step(s, CMourn(p, t)), p, t, NearMourn(ChanOf(s, p, t)))
  {
    hide Good, OnTag, Moves, OnlyTouches, FarOf, NearMourn, C.Mourn, HostFits, Handshake;
    assert ProcessGood(s, p);
    NearMournGood(ChanOf(s, p, t));
    MournMoves(s.hosts[p], t);
    MournBecomes(s, p, t);
    GatewayKeeps(s, p, C.Mourn(s.hosts[p].router, t), t, NearMourn(ChanOf(s, p, t)));
  }

  lemma MournMoves(h: Host, t: Tag)
    requires HostFits(h) && t in h.router.mourning && t in h.router.gateways
    ensures var r := C.Mourn(h.router, t);
            Moves(h, h.(router := r)) && OnlyTouches(h.router, r, t)
  {
  }

  lemma MournBecomes(s: Sys, p: Pid, t: Tag)
    requires p in s.hosts && CursorsFit(s, p)
    requires var h := s.hosts[p]; t in h.router.mourning && t in h.router.gateways
    ensures Becomes(s, p, s.hosts[p].(router := C.Mourn(s.hosts[p].router, t)), t) == NearMourn(ChanOf(s, p, t))
  {
    hide FarOf;
  }

  /** Reading frame number `n` of a log reads the next frame of its own channel only. */
  lemma ReadsOne(log: seq<Frame>, n: nat, t: Tag)
    requires n < |log|
    ensures OnTag(log[..n + 1], t) == OnTag(log[..n], t) + (if log[n].For(t) then [log[n]] else [])
    ensures OnTag(log[..n + 1], t) <= OnTag(log, t)
  {
    hide Good;
    assert log[..n + 1] == log[..n] + [log[n]];
    OnTagAppend(log[..n], log[n], t);
    OnTagPrefix(log, n + 1, t);
  }

  /** What a read does to the near end of channel `t`. */
  lemma NearReceives(k: Chan, r: C.ClientState, f: Frame, t: Tag)
    requires k.near == NearOf(r, t) && k.tag == t
    ensures C.Receive(r, f).outbox == r.outbox
    ensures f.For(t) ==> NearTake(k, f) == k.(near := NearOf(C.Receive(r, f), t), downSeen := k.downSeen + [f])
    ensures f.Connect? ==> NearHello(k) == k.(near := NearOf(C.Receive(r, f), t))
    ensures !f.For(t) && !f.Connect? ==> NearOf(C.Receive(r, f), t) == k.near
  {
  }

  lemma TakesChannel(s: Sys, p: Pid, c: ClientId, t: Tag)
    requires IdsFit(s) && s.HostHasNext(p, c) && s.hosts[p].router.Idle() && ProcessGood(s, p)
    requires CursorsFit(HostTakes(s, p, c), p)
    ensures ChanOf(HostTakes(s, p, c), p, t) == NearReads(ChanOf(s, p, t), Down(s, p)[s.hosts[p].taken])
    ensures Good(ChanOf(HostTakes(s, p, c), p, t))
  {
    hide Good, FarOf, OnTag, C.Receive, NearTake, NearHello, HostFits, Handshake;
    var n := s.hosts[p].taken;
    var f := Down(s, p)[n];
    var k := ChanOf(s, p, t);
    var k' := ChanOf(HostTakes(s, p, c), p, t);
    ReadsOne(Down(s, p), n, t);
    NearReceives(k, s.hosts[p].router, f, t);
    if f.For(t) {
      NearTakeGood(k, f);
      assert k' == NearTake(k, f);
    } else if f.Connect? {
      NearHelloGood(k);
      assert k' == NearHello(k);
    } else {
      assert k' == k;
    }
  }

  lemma TakesFits(h: Host, f: Frame)
    requires HostFits(h) && h.router.Idle() && h.pipe.Open?
    ensures HostFits(h.(router := C.Receive(h.router, f), taken := h.taken + 1))
  {
  }

  lemma TakesKeepsProcess(s: Sys, p: Pid, c: ClientId)
    requires IdsFit(s) && s.HostHasNext(p, c) && s.hosts[p].router.Idle() && s.hosts[p].pipe.Open?
    requires ProcessGood(s, p)
    ensures ProcessGood(HostTakes(s, p, c), p) && Readable(HostTakes(s, p, c), p)
    ensures forall t :: ChanOf(HostTakes(s, p, c), p, t) == NearReads(ChanOf(s, p, t), Down(s, p)[s.hosts[p].taken])
  {
    hide Good, FarOf, NearOf, OnTag, C.Receive, HostFits;
    var s' := HostTakes(s, p, c);
    var f := Down(s, p)[s.hosts[p].taken];
    TakesFits(s.hosts[p], f);
    NearReceives(ChanOf(s, p, 0), s.hosts[p].router, f, 0);
    assert CursorsFit(s', p);
    forall t
      ensures ChanOf(s', p, t) == NearReads(ChanOf(s, p, t), f) && Good(ChanOf(s', p, t))
    {
      TakesChannel(s, p, c, t);
    }
  }

  lemma TakesKeeps(s: Sys, p: Pid, c: ClientId)
    requires Inv(s) && s.HostHasNext(p, c) && s.hosts[p].router.Idle() && s.hosts[p].pipe.Open?
    ensures Inv(HostTakes(s, p, c)) && Readable(s, p) && Down(s, p) == s.server.Outbox(c)
    ensures var f := Down(s, p)[s.hosts[p].taken];
            AllChange(s, HostTakes(s, p, c), p, k => NearReads(k, f))
  {
    hide ProcessGood, FarOf, C.Receive, SameChannels, NearReads;
    var s' := HostTakes(s, p, c);
    assert Readable(s, p) by { ReadableOf(s, p); }
    forall q | q in s'.hosts ensures ProcessGood(s', q) && (q != p ==> SameChannels(s, s', q)) {
      assert ProcessGood(s, q);
      if q == p { TakesKeepsProcess(s, p, c); } else { Untouched(s, s', q); }
    }
    TakesKeepsProcess(s, p, c);
  }

  lemma ReadableOf(s: Sys, p: Pid)
    requires Inv(s) && p in s.hosts
    ensures Readable(s, p) && ProcessGood(s, p) && forall t :: Good(ChanOf(s, p, t))
  {
    hide Good, ChanOf;
    assert ProcessGood(s, p);
  }
}
