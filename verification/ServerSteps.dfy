/** The actions of the daemon keep the invariant of the system. */
module ServerSteps {
  import opened IpcTypes
  import opened Channel
  import opened ChannelProofs
  import opened Network
  import opened Projection
  import ClientSteps
  import S = ServerRouterSpec

  /** Channel `t` of process `p` once the daemon's router has become `r`. */
  function Becomes(s: Sys, p: Pid, r: S.ServerState, t: Tag): Chan
    requires p in s.hosts && CursorsFit(s, p)
  {
    ChanOf(s, p, t).(far := FarOf(r, IdOf(s, p), t), down := OnTag(r.Outbox(IdOf(s, p)), t))
  }

  /** Bookkeeping of the router that no action may break. */
  ghost predicate Consistent(s: Sys, r: S.ServerState) {
    && r.tables.Keys <= s.contexts
    && r.outbox.Keys <= s.sockets.Keys
    && (forall e :: e in r.objects ==> e.clientId in s.sockets)
    && (forall g :: g in r.mourning ==> g.endpoint.clientId in s.sockets && r.Exists(g))
  }

  /** Nothing that belongs to client `c` changes. */
  ghost predicate Spares(before: S.ServerState, after: S.ServerState, c: ClientId) {
    && after.Routed(c) == before.Routed(c)
    && after.Outbox(c) == before.Outbox(c)
    && forall t :: FarOf(after, c, t) == FarOf(before, c, t)
  }

  /** An action on one endpoint: other clients, and other tags of this one, are spared. */
  ghost predicate OnlyTouches(before: S.ServerState, after: S.ServerState, e: S.Endpoint) {
    var c := e.clientId;
    && (forall d :: d != c ==> Spares(before, after, d))
    && after.Routed(c) == before.Routed(c)
    && (after.Outbox(c) == before.Outbox(c) ||
        (before.Routed(c) && exists f: Frame :: f.For(e.tag) && after.Outbox(c) == before.Outbox(c) + [f]))
    && forall t :: t != e.tag ==> FarOf(after, c, t) == FarOf(before, c, t)
  }

  lemma TouchedProcess(s: Sys, p: Pid, r: S.ServerState, e: S.Endpoint)
    requires p in s.hosts && ProcessGood(s, p) && IdOf(s, p) == e.clientId
    requires OnlyTouches(s.server, r, e)
    requires Good(Becomes(s, p, r, e.tag))
    ensures var s' := s.(server := r);
            && ProcessGood(s', p) && Readable(s', p)
            && ChanOf(s', p, e.tag) == Becomes(s, p, r, e.tag)
            && forall t :: t != e.tag ==> ChanOf(s', p, t) == ChanOf(s, p, t)
  {
    hide Good, NearOf, FarOf, OnTag, HostFits, Spares;
    var s' := s.(server := r);
    var n := s.hosts[p].taken;
    assert r.Outbox(e.clientId)[..n] == s.server.Outbox(e.clientId)[..n];
    forall t
      ensures ChanOf(s', p, t) == (if t == e.tag then Becomes(s, p, r, t) else ChanOf(s, p, t))
      ensures Good(ChanOf(s', p, t))
    {
      assert ChanOf(s', p, t) == Becomes(s, p, r, t);
      if t != e.tag {
        if r.Outbox(e.clientId) != s.server.Outbox(e.clientId) {
          var f: Frame :| f.For(e.tag) && r.Outbox(e.clientId) == s.server.Outbox(e.clientId) + [f];
          OnTagAppend(s.server.Outbox(e.clientId), f, t);
        }
        assert Becomes(s, p, r, t) == ChanOf(s, p, t);
      }
    }
  }

  lemma EndpointKeeps(s: Sys, r: S.ServerState, e: S.Endpoint, k: Chan)
    requires Inv(s) && e.clientId in s.sockets
    requires Consistent(s, r) && OnlyTouches(s.server, r, e)
    requires HasHome(s, e) && Good(k) && k == Becomes(s, s.sockets[e.clientId], r, e.tag)
    ensures Inv(s.(server := r)) && OneChanges(s, s.(server := r), s.sockets[e.clientId], e.tag, k)
  {
    hide ProcessGood, Good, Becomes, FarOf, SameChannels;
    var s' := s.(server := r);
    var p := s.sockets[e.clientId];
    forall q | q in s'.hosts ensures ProcessGood(s', q) && (q != p ==> SameChannels(s, s', q)) {
      assert ProcessGood(s, q);
      if IdOf(s, q) == e.clientId {
        TouchedProcess(s, q, r, e);
      } else {
        assert Spares(s.server, r, IdOf(s, q));
        Untouched(s, s', q);
      }
    }
    TouchedProcess(s, p, r, e);
  }

  /** The endpoint belongs to a client the daemon has accepted. */
  ghost predicate HasHome(s: Sys, e: S.Endpoint) {
    && e.clientId in s.sockets && s.sockets[e.clientId] in s.hosts
    && Readable(s, s.sockets[e.clientId]) && ProcessGood(s, s.sockets[e.clientId])
    && IdOf(s, s.sockets[e.clientId]) == e.clientId
  }

  // ---- Each operation: which endpoint it touches, and what it does to that channel.

  lemma SetTouches(r: S.ServerState, g: S.Ref, v: View)
    requires r.Exists(g)
    ensures OnlyTouches(r, r.Set(g, v), g.endpoint)
  {
  }

  lemma HomeOf(s: Sys, g: S.Ref)
    requires Inv(s) && s.server.Exists(g)
    ensures HasHome(s, g.endpoint)
    ensures var k := ChanOf(s, s.sockets[g.endpoint.clientId], g.endpoint.tag);
            k.far.views == s.server.Objects(g.endpoint) && Good(k)
    ensures IdsFit(s)
  {
    hide Good;
    assert ProcessGood(s, s.sockets[g.endpoint.clientId]);
  }

  lemma SendTouches(r: S.ServerState, g: S.Ref, service: ServiceId, payload: Payload, pipeError: int)
    requires r.Usable(g)
    ensures OnlyTouches(r, S.Send(r, g, service, payload, pipeError), g.endpoint)
  {
    var f := ChannelMsg(g.endpoint.tag, r.At(g).nextSequence, service, payload);
    assert f.For(g.endpoint.tag);
  }

  lemma SendBecomes(s: Sys, p: Pid, g: S.Ref, service: ServiceId, payload: Payload, pipeError: int)
    requires p in s.hosts && CursorsFit(s, p) && IdOf(s, p) == g.endpoint.clientId && s.server.Usable(g)
    ensures Becomes(s, p, S.Send(s.server, g, service, payload, pipeError), g.endpoint.tag)
         == FarSend(ChanOf(s, p, g.endpoint.tag), g.ordinal, service, payload, pipeError)
  {
    hide NearOf;
    OnTagAppend(Down(s, p), ChannelMsg(g.endpoint.tag, s.server.At(g).nextSequence, service, payload), g.endpoint.tag);
  }

  lemma SendConsistent(s: Sys, g: S.Ref, service: ServiceId, payload: Payload, pipeError: int)
    requires IdsFit(s) && s.server.Usable(g)
    ensures Consistent(s, S.Send(s.server, g, service, payload, pipeError))
  {
  }

  lemma SendKeeps(s: Sys, g: S.Ref, service: ServiceId, payload: Payload, pipeError: int)
    requires Inv(s) && s.server.Usable(g)
    ensures Inv(Step(s, SSend(g, service, payload, pipeError)))
    ensures HasHome(s, g.endpoint)
    ensures var p := s.sockets[g.endpoint.clientId];
            OneChanges(s, Step(s, SSend(g, service, payload, pipeError)), p, g.endpoint.tag,
                       FarSend(ChanOf(s, p, g.endpoint.tag), g.ordinal, service, payload, pipeError))
  {
    hide Good, OnlyTouches, Consistent, ProcessGood, FarSend, S.Send, IdsFit, OneChanges;
    HomeOf(s, g);
    var p := s.sockets[g.endpoint.clientId];
    var k := ChanOf(s, p, g.endpoint.tag);
    SendConsistent(s, g, service, payload, pipeError);
    FarSendGood(k, g.ordinal, service, payload, pipeError);
    SendTouches(s.server, g, service, payload, pipeError);
    SendBecomes(s, p, g, service, payload, pipeError);
    EndpointKeeps(s, S.Send(s.server, g, service, payload, pipeError), g.endpoint,
                  FarSend(k, g.ordinal, service, payload, pipeError));
  }

  lemma CompleteKeeps(s: Sys, g: S.Ref, error: int)
    requires Inv(s) && s.server.Usable(g)
    ensures Inv(Step(s, SComplete(g, error)))
    ensures HasHome(s, g.endpoint)
    ensures var p := s.sockets[g.endpoint.clientId];
            OneChanges(s, Step(s, SComplete(g, error)), p, g.endpoint.tag,
                       FarComplete(ChanOf(s, p, g.endpoint.tag), g.ordinal, error))
  {
    hide Good, OnlyTouches, ProcessGood, OneChanges;
    HomeOf(s, g);
    var p := s.sockets[g.endpoint.clientId];
    var k := ChanOf(s, p, g.endpoint.tag);
    var r := S.Complete(s.server, g, error);
    FarCompleteGood(k, g.ordinal, error);
    SetTouches(s.server, g, s.server.At(g).(completionError := error));
    assert Becomes(s, p, r, g.endpoint.tag) == FarComplete(k, g.ordinal, error);
    EndpointKeeps(s, r, g.endpoint, FarComplete(k, g.ordinal, error));
  }

  lemma SubscribeTouches(r: S.ServerState, g: S.Ref)
    requires r.Usable(g)
    ensures OnlyTouches(r, S.Subscribe(r, g), g.endpoint)
  {
  }

  lemma SubscribeBecomes(s: Sys, p: Pid, g: S.Ref)
    requires p in s.hosts && CursorsFit(s, p) && IdOf(s, p) == g.endpoint.clientId && s.server.Usable(g)
    ensures Becomes(s, p, S.Subscribe(s.server, g), g.endpoint.tag) == FarSubscribe(ChanOf(s, p, g.endpoint.tag))
  {
    hide NearOf, OnTag;
  }

  lemma SubscribeConsistent(s: Sys, g: S.Ref)
    requires IdsFit(s) && s.server.Usable(g)
    ensures Consistent(s, S.Subscribe(s.server, g))
  {
  }

  lemma SubscribeKeeps(s: Sys, g: S.Ref)
    requires s.server.Usable(g) && Inv(s)
    ensures HasHome(s, g.endpoint)
    ensures Inv(Step(s, SSubscribe(g)))
    ensures var p := s.sockets[g.endpoint.clientId];
            OneChanges(s, Step(s, SSubscribe(g)), p, g.endpoint.tag,
                       FarSubscribe(ChanOf(s, p, g.endpoint.tag)))
  {
    hide Good, OnlyTouches, Consistent, ProcessGood, FarSubscribe, S.Subscribe, IdsFit, OneChanges;
    HomeOf(s, g);
    var p := s.sockets[g.endpoint.clientId];
    var k := ChanOf(s, p, g.endpoint.tag);
    SubscribeConsistent(s, g);
    FarSubscribeGood(k);
    SubscribeTouches(s.server, g);
    SubscribeBecomes(s, p, g);
    EndpointKeeps(s, S.Subscribe(s.server, g), g.endpoint, FarSubscribe(k));
  }

  lemma DisposeTouches(r: S.ServerState, g: S.Ref, pipeError: int)
    requires r.Usable(g)
    ensures OnlyTouches(r, S.Dispose(r, g, pipeError), g.endpoint)
  {
    assert ChannelEnd(g.endpoint.tag, r.At(g).completionError).For(g.endpoint.tag);
  }

  lemma DisposeBecomes(s: Sys, p: Pid, g: S.Ref, pipeError: int)
    requires p in s.hosts && CursorsFit(s, p) && IdOf(s, p) == g.endpoint.clientId && s.server.Usable(g)
    ensures Becomes(s, p, S.Dispose(s.server, g, pipeError), g.endpoint.tag)
         == FarDispose(ChanOf(s, p, g.endpoint.tag), g.ordinal, pipeError)
  {
    hide NearOf;
    OnTagAppend(Down(s, p), ChannelEnd(g.endpoint.tag, s.server.At(g).completionError), g.endpoint.tag);
  }

  lemma DisposeConsistent(s: Sys, g: S.Ref, pipeError: int)
    requires IdsFit(s) && s.server.Usable(g)
    ensures Consistent(s, S.Dispose(s.server, g, pipeError))
  {
  }

  lemma DisposeKeeps(s: Sys, g: S.Ref, pipeError: int)
    requires Inv(s) && s.server.Usable(g)
    ensures Inv(Step(s, SDispose(g, pipeError)))
    ensures HasHome(s, g.endpoint)
    ensures var p := s.sockets[g.endpoint.clientId];
            OneChanges(s, Step(s, SDispose(g, pipeError)), p, g.endpoint.tag,
                       FarDispose(ChanOf(s, p, g.endpoint.tag), g.ordinal, pipeError))
  {
    hide Good, OnlyTouches, Consistent, ProcessGood, FarDispose, S.Dispose, IdsFit, OneChanges;
    HomeOf(s, g);
    var p := s.sockets[g.endpoint.clientId];
    var k := ChanOf(s, p, g.endpoint.tag);
    DisposeConsistent(s, g, pipeError);
    FarDisposeGood(k, g.ordinal, pipeError);
    DisposeTouches(s.server, g, pipeError);
    DisposeBecomes(s, p, g, pipeError);
    EndpointKeeps(s, S.Dispose(s.server, g, pipeError), g.endpoint, FarDispose(k, g.ordinal, pipeError));
  }

  lemma MournTouches(r: S.ServerState, g: S.Ref)
    requires g in r.mourning && r.Exists(g)
    ensures OnlyTouches(r, S.Mourn(r, g), g.endpoint)
  {
  }

  lemma MournBecomes(s: Sys, p: Pid, g: S.Ref)
    requires p in s.hosts && CursorsFit(s, p) && IdOf(s, p) == g.endpoint.clientId
    requires g in s.server.mourning && s.server.Exists(g)
    ensures Becomes(s, p, S.Mourn(s.server, g), g.endpoint.tag)
         == FarMourn(ChanOf(s, p, g.endpoint.tag), g.ordinal)
  {
    hide NearOf, OnTag;
  }

  lemma MournConsistent(s: Sys, g: S.Ref)
    requires IdsFit(s) && g in s.server.mourning
    ensures Consistent(s, S.Mourn(s.server, g))
  {
  }

  lemma MournedChannel(s: Sys, p: Pid, g: S.Ref)
    requires p in s.hosts && CursorsFit(s, p) && IdOf(s, p) == g.endpoint.clientId
    requires g in s.server.mourning && s.server.Exists(g)
    requires FarGood(ChanOf(s, p, g.endpoint.tag).far)
    ensures g.ordinal == 0 && ChanOf(s, p, g.endpoint.tag).far.mourned
  {
  }

  lemma MournKeeps(s: Sys, g: S.Ref)
    requires Inv(s) && g in s.server.mourning && s.server.Exists(g)
    ensures Inv(Step(s, SMourn(g)))
    ensures HasHome(s, g.endpoint)
    ensures var p := s.sockets[g.endpoint.clientId];
            OneChanges(s, Step(s, SMourn(g)), p, g.endpoint.tag,
                       FarMourn(ChanOf(s, p, g.endpoint.tag), g.ordinal))
  {
    hide OnlyTouches, Consistent, ProcessGood, S.Mourn, Stream, Delivery, FarGood, NearGood, IdsFit, OneChanges;
    hide FarMourn, FarOf, NearOf, OnTag, UpGood, DownGood, Inv;
    HomeOf(s, g);
    var p := s.sockets[g.endpoint.clientId];
    var k := ChanOf(s, p, g.endpoint.tag);
    MournedChannel(s, p, g);
    FarMournGood(k, g.ordinal);
    MournTouches(s.server, g);
    MournBecomes(s, p, g);
    MournConsistent(s, g);
    EndpointKeeps(s, S.Mourn(s.server, g), g.endpoint, FarMourn(k, g.ordinal));
  }

  // ---- Connections come and go.

  lemma AcceptKeeps(s: Sys, p: Pid)
    requires Inv(s) && Enabled(s, Accept(p))
    ensures Inv(Step(s, Accept(p))) && AllChange(s, Step(s, Accept(p)), p, k => k)
  {
    hide Good, OnTag, HostFits, ProcessGood, SameChannels, NearOf, FarOf;
    var s' := Step(s, Accept(p));
    var c := s.counter + 1;
    assert c !in s.sockets && 0 !in s.sockets;
    forall q | q in s'.hosts ensures ProcessGood(s', q) && SameChannels(s, s', q) {
      assert ProcessGood(s, q);
      if q == p { AcceptedProcess(s, p); } else { UntouchedByAccept(s, p, q); }
    }
    assert SameChannels(s, s', p);
    SameIsAllChange(s, s', p);
  }

  lemma SameIsAllChange(s: Sys, s': Sys, p: Pid)
    requires SameChannels(s, s', p) && OtherProcessesSame(s, s', p)
    ensures AllChange(s, s', p, k => k)
  {
    hide ChanOf;
  }

  lemma UntouchedByAccept(s: Sys, p: Pid, q: Pid)
    requires Inv(s) && Enabled(s, Accept(p)) && q in s.hosts && q != p && ProcessGood(s, q)
    ensures ProcessGood(Step(s, Accept(p)), q) && SameChannels(s, Step(s, Accept(p)), q)
  {
    hide Good, OnTag, HostFits, ProcessGood, FarOf, SameChannels;
    assert s.counter + 1 !in s.sockets && 0 !in s.sockets;
    Untouched(s, Step(s, Accept(p)), q);
  }

  /** A client id that was never given out has left nothing behind in the daemon. */
  lemma NewIdIsBlank(s: Sys, c: ClientId, t: Tag)
    requires IdsFit(s) && c !in s.sockets
    ensures s.Taken(c) == 0 && s.server.Outbox(c) == [] && !s.server.Routed(c)
    ensures FarOf(s.server, c, t) == Far(s.server.services, false, None, [], false)
  {
    assert S.Ref(S.Endpoint(t, c), 0) !in s.server.mourning;
  }

  lemma AcceptedProcess(s: Sys, p: Pid)
    requires Inv(s) && Enabled(s, Accept(p)) && ProcessGood(s, p)
    ensures ProcessGood(Step(s, Accept(p)), p) && SameChannels(s, Step(s, Accept(p)), p)
  {
    hide Good, OnTag, HostFits, FarOf, NearOf;
    var s' := Step(s, Accept(p));
    var c := s.counter + 1;
    NewIdIsBlank(s, c, 0);
    NewIdIsBlank(s, 0, 0);
    forall t ensures ChanOf(s', p, t) == ChanOf(s, p, t) && Good(ChanOf(s', p, t)) {
      NewIdIsBlank(s, c, t);
      NewIdIsBlank(s, 0, t);
      assert ChanOf(s', p, t) == ChanOf(s, p, t);
    }
  }

  lemma LostProcess(s: Sys, p: Pid)
    requires Inv(s) && p in s.hosts && ProcessGood(s, p) && s.server.mourning == {}
    ensures ProcessGood(LoseClient(s, IdOf(s, p)), p) && Readable(LoseClient(s, IdOf(s, p)), p)
    ensures forall t :: ChanOf(LoseClient(s, IdOf(s, p)), p, t) == FarLost(ChanOf(s, p, t))
  {
    LostCursors(s, p);
    hide Good, HostFits, Handshake, ChanOf, FarLost, CursorsFit, LoseClient;
    forall t
      ensures ChanOf(LoseClient(s, IdOf(s, p)), p, t) == FarLost(ChanOf(s, p, t))
      ensures Good(ChanOf(LoseClient(s, IdOf(s, p)), p, t))
    {
      LostChannel(s, p, t);
      NotMournedYet(s, p, t);
      FarLostGood(ChanOf(s, p, t));
    }
  }

  lemma LostCursors(s: Sys, p: Pid)
    requires p in s.hosts && ProcessGood(s, p)
    ensures var s' := LoseClient(s, IdOf(s, p));
            && p in s'.hosts && s'.hosts[p] == s.hosts[p] && CursorsFit(s, p) && CursorsFit(s', p) && Handshake(s', p)
  {
    hide Good, HostFits;
  }

  lemma LostChannel(s: Sys, p: Pid, t: Tag)
    requires p in s.hosts && CursorsFit(s, p) && CursorsFit(LoseClient(s, IdOf(s, p)), p) && s.server.mourning == {}
    ensures ChanOf(LoseClient(s, IdOf(s, p)), p, t) == FarLost(ChanOf(s, p, t))
  {
    hide OnTag, NearOf;
    var e := S.Endpoint(t, IdOf(s, p));
    assert S.Ref(e, 0) in LoseClient(s, e.clientId).server.mourning <==> s.server.Registered(e) == Some(0);
  }

  lemma NotMournedYet(s: Sys, p: Pid, t: Tag)
    requires p in s.hosts && CursorsFit(s, p) && s.server.mourning == {}
    ensures !ChanOf(s, p, t).far.mourned
  {
  }

  lemma LosingSpares(r: S.ServerState, c: ClientId, d: ClientId)
    requires c != d
    ensures Spares(r, S.PipeDisconnected(r, c), d)
  {
  }

  lemma NamedExists(s: Sys, c: ClientId, t: Tag)
    requires Inv(s) && s.server.Registered(S.Endpoint(t, c)).Some?
    ensures s.server.Exists(S.Ref(S.Endpoint(t, c), s.server.Registered(S.Endpoint(t, c)).value))
  {
    hide Stream, Delivery;
    var p := s.sockets[c];
    assert ProcessGood(s, p);
    assert Good(ChanOf(s, p, t));
  }

  lemma LoseClientIds(s: Sys, c: ClientId)
    requires Inv(s)
    ensures IdsFit(LoseClient(s, c))
  {
    hide ProcessGood;
    var s' := LoseClient(s, c);
    forall g | g in s'.server.mourning
      ensures g.endpoint.clientId in s'.sockets && s'.server.Exists(g)
    {
      if g !in s.server.mourning { NamedExists(s, c, g.endpoint.tag); }
    }
  }

  lemma LoseClientKeeps(s: Sys, c: ClientId)
    requires Inv(s) && s.server.mourning == {} && c in s.sockets
    ensures Inv(LoseClient(s, c)) && AllChange(s, LoseClient(s, c), s.sockets[c], FarLost)
  {
    hide Good, ProcessGood, Spares, SameChannels;
    var s' := LoseClient(s, c);
    var p := s.sockets[c];
    LoseClientIds(s, c);
    forall q | q in s'.hosts ensures ProcessGood(s', q) && (q != p ==> SameChannels(s, s', q)) {
      assert ProcessGood(s, q);
      if IdOf(s, q) == c {
        LostProcess(s, q);
      } else {
        LosingSpares(s.server, c, IdOf(s, q));
        SparedProcess(s, s', q);
      }
    }
    ReadableAt(s, p);
    LostProcess(s, p);
  }

  lemma ReadableAt(s: Sys, p: Pid)
    requires p in s.hosts && ProcessGood(s, p)
    ensures Readable(s, p)
  {
  }

  lemma SparedProcess(s: Sys, s': Sys, q: Pid)
    requires q in s.hosts && ProcessGood(s, q)
    requires s'.hosts == s.hosts && s'.ids == s.ids
    requires s'.Taken(IdOf(s, q)) == s.Taken(IdOf(s, q))
    requires IdOf(s, q) in s'.contexts <==> IdOf(s, q) in s.contexts
    requires Spares(s.server, s'.server, IdOf(s, q))
    ensures ProcessGood(s', q) && SameChannels(s, s', q)
  {
    hide ProcessGood, FarOf, SameChannels;
    Untouched(s, s', q);
  }

  // ---- The daemon reads one message.

  lemma ReceiveSpares(r: S.ServerState, c: ClientId, d: ClientId, f: Frame, pipeError: int)
    requires d != c
    ensures Spares(r, S.Receive(r, c, f, pipeError), d)
  {
    hide Spares, S.ReceiveConnect, S.ReceiveMsg, S.ReceiveEnd;
    match f
    case Empty => SameSpares(r, d);
    case Connect(_, _, _) => ConnectSpares(r, c, d, pipeError);
    case ChannelMsg(_, _, _, _) => MsgSpares(r, c, d, f);
    case ChannelEnd(_, _) => EndSpares(r, c, d, f);
  }

  lemma SameSpares(r: S.ServerState, d: ClientId)
    ensures Spares(r, r, d)
  {
  }

  lemma ConnectSpares(r: S.ServerState, c: ClientId, d: ClientId, pipeError: int)
    requires d != c
    ensures Spares(r, S.ReceiveConnect(r, c, pipeError), d)
  {
  }

  lemma MsgSpares(r: S.ServerState, c: ClientId, d: ClientId, f: Frame)
    requires d != c && f.ChannelMsg?
    ensures Spares(r, S.ReceiveMsg(r, c, f), d)
  {
  }

  lemma EndSpares(r: S.ServerState, c: ClientId, d: ClientId, f: Frame)
    requires d != c && f.ChannelEnd?
    ensures Spares(r, S.ReceiveEnd(r, c, f), d)
  {
  }

  lemma ReceiveConsistent(s: Sys, c: ClientId, f: Frame, pipeError: int)
    requires IdsFit(s) && c in s.contexts
    ensures Consistent(s, S.Receive(s.server, c, f, pipeError))
    ensures S.Receive(s.server, c, f, pipeError).services == s.server.services
  {
    hide Consistent, S.ReceiveConnect, S.ReceiveMsg, S.ReceiveEnd;
    match f
    case Empty => FitsConsistent(s);
    case Connect(_, _, _) => ConnectConsistent(s, c, pipeError);
    case ChannelMsg(_, _, _, _) => MsgConsistent(s, c, f);
    case ChannelEnd(_, _) => EndConsistent(s, c, f);
  }

  lemma FitsConsistent(s: Sys)
    requires IdsFit(s)
    ensures Consistent(s, s.server)
  {
  }

  lemma ConnectConsistent(s: Sys, c: ClientId, pipeError: int)
    requires IdsFit(s) && c in s.contexts
    ensures var r := S.ReceiveConnect(s.server, c, pipeError);
            Consistent(s, r) && r.services == s.server.services
  {
  }

  lemma MsgConsistent(s: Sys, c: ClientId, f: Frame)
    requires IdsFit(s) && c in s.contexts && f.ChannelMsg?
    ensures var r := S.ReceiveMsg(s.server, c, f);
            Consistent(s, r) && r.services == s.server.services
  {
  }

  lemma EndConsistent(s: Sys, c: ClientId, f: Frame)
    requires IdsFit(s) && c in s.contexts && f.ChannelEnd?
    ensures var r := S.ReceiveEnd(s.server, c, f);
            Consistent(s, r) && r.services == s.server.services
  {
  }

  /** What a message of the channel itself does to the far end. */
  lemma FarReceives(k: Chan, r: S.ServerState, c: ClientId, f: Frame, pipeError: int)
    requires k.far == FarOf(r, c, k.tag) && f.For(k.tag)
    ensures S.Receive(r, c, f, pipeError).Outbox(c) == r.Outbox(c)
    ensures FarTake(k, f) == k.(far := FarOf(S.Receive(r, c, f, pipeError), c, k.tag), upSeen := k.upSeen + [f])
  {
  }

  /** What any other message does to it: at most the handshake completes. */
  lemma FarOverhears(r: S.ServerState, c: ClientId, f: Frame, pipeError: int, k: Chan)
    requires k.far == FarOf(r, c, k.tag) && !f.For(k.tag)
    ensures var r' := S.Receive(r, c, f, pipeError);
            && r'.Outbox(c) == (if f.Connect? && pipeError == SUCCESS then r.Outbox(c) + [HELLO] else r.Outbox(c))
            && FarOf(r', c, k.tag) ==
                 (if f.Connect? && pipeError == SUCCESS then FarRouted(k).far else k.far)
  {
  }

  lemma TakesChannel(s: Sys, c: ClientId, p: Pid, pipeError: int, t: Tag)
    requires s.HasNext(c) && p in s.hosts && ProcessGood(s, p) && IdOf(s, p) == c && s.sockets[c] == p
    requires s.server.mourning == {}
    requires CursorsFit(ServerTakes(s, c, pipeError), p)
    ensures ChanOf(ServerTakes(s, c, pipeError), p, t) == FarReads(ChanOf(s, p, t), s.Next(c), pipeError)
    ensures Good(ChanOf(ServerTakes(s, c, pipeError), p, t))
  {
    hide Good, NearOf, OnTag, S.Receive, FarTake, FarRouted, HostFits, Handshake;
    var n := s.Taken(c);
    var f := Up(s, p)[n];
    var k := ChanOf(s, p, t);
    var s' := ServerTakes(s, c, pipeError);
    var k' := ChanOf(s', p, t);
    ClientSteps.ReadsOne(Up(s, p), n, t);
    if f.For(t) {
      FarReceives(k, s.server, c, f, pipeError);
      FarTakeGood(k, f);
      assert k' == FarTake(k, f);
    } else {
      FarOverhears(s.server, c, f, pipeError, k);
      FarRoutedGood(k);
      TakenIsSame(s, c, p, pipeError);
      OnTagAppend(Down(s, p), HELLO, t);
      assert k'.down == k.down;
      assert k' == k.(far := k'.far);
      FarRoutedOnlyFar(k);
    }
  }

  lemma FarRoutedOnlyFar(k: Chan)
    ensures FarRouted(k) == k.(far := FarRouted(k).far)
  {
  }

  /** Growing at the end leaves what this process has read of it alone. */
  lemma TakenIsSame(s: Sys, c: ClientId, p: Pid, pipeError: int)
    requires s.HasNext(c) && p in s.hosts && CursorsFit(s, p) && IdOf(s, p) == c && s.sockets[c] == p
    ensures var s' := ServerTakes(s, c, pipeError);
            Down(s', p)[..s.hosts[p].taken] == Down(s, p)[..s.hosts[p].taken] &&
            s.hosts[p].taken <= |Down(s', p)|
  {
    var f := s.Next(c);
    assert s.server.Outbox(c) <= S.Receive(s.server, c, f, pipeError).Outbox(c);
  }

  lemma TakesHandshake(s: Sys, c: ClientId, p: Pid, pipeError: int)
    requires s.HasNext(c) && p in s.hosts && ProcessGood(s, p) && IdOf(s, p) == c && s.sockets[c] == p
    ensures CursorsFit(ServerTakes(s, c, pipeError), p)
    ensures Handshake(ServerTakes(s, c, pipeError), p)
  {
    hide Good, NearOf, FarOf, OnTag, HostFits;
    TakenIsSame(s, c, p, pipeError);
  }

  lemma TakesKeepsProcess(s: Sys, c: ClientId, p: Pid, pipeError: int)
    requires s.HasNext(c) && p in s.hosts && ProcessGood(s, p) && IdOf(s, p) == c && s.sockets[c] == p
    requires s.server.mourning == {}
    ensures ProcessGood(ServerTakes(s, c, pipeError), p) && Readable(ServerTakes(s, c, pipeError), p)
    ensures forall t ::
              ChanOf(ServerTakes(s, c, pipeError), p, t) == FarReads(ChanOf(s, p, t), s.Next(c), pipeError)
  {
    hide Good, NearOf, FarOf, OnTag, S.Receive, HostFits, Handshake, FarReads;
    TakesHandshake(s, c, p, pipeError);
    var s' := ServerTakes(s, c, pipeError);
    forall t
      ensures ChanOf(s', p, t) == FarReads(ChanOf(s, p, t), s.Next(c), pipeError) && Good(ChanOf(s', p, t))
    {
      TakesChannel(s, c, p, pipeError, t);
    }
  }

  lemma TakesKeeps(s: Sys, c: ClientId, pipeError: int)
    requires Inv(s) && c in s.contexts && s.HasNext(c) && s.server.mourning == {}
    ensures Inv(ServerTakes(s, c, pipeError))
    ensures ServerTakes(s, c, pipeError).server.mourning == {}
    ensures var f := s.Next(c);
            AllChange(s, ServerTakes(s, c, pipeError), s.sockets[c], k => FarReads(k, f, pipeError))
  {
    hide ProcessGood, Spares, S.Receive, FarOf, SameChannels, FarReads;
    var s' := ServerTakes(s, c, pipeError);
    var p := s.sockets[c];
    ReceiveConsistent(s, c, s.Next(c), pipeError);
    TakesQuietly(s, c, pipeError);
    assert IdsFit(s');
    forall q | q in s'.hosts ensures ProcessGood(s', q) && (q != p ==> SameChannels(s, s', q)) {
      assert ProcessGood(s, q);
      if IdOf(s, q) == c {
        TakesKeepsProcess(s, c, q, pipeError);
      } else {
        ReceiveSpares(s.server, c, IdOf(s, q), s.Next(c), pipeError);
        SparedProcess(s, s', q);
      }
    }
    ReadableAt(s, p);
    TakesKeepsProcess(s, c, p, pipeError);
  }

  lemma TakesQuietly(s: Sys, c: ClientId, pipeError: int)
    requires s.HasNext(c)
    ensures ServerTakes(s, c, pipeError).server.mourning == s.server.mourning
  {
  }
}
