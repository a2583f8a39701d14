/** Every action of any process or of the daemon keeps every 'exec cmd' channel good. */
module ExecWorldProofs {
  import opened IpcTypes
  import opened Channel
  import opened Network
  import opened Projection
  import opened ExecCodec
  import opened ExecSpec
  import opened ExecChannel
  import opened ExecChannelProofs
  import opened ExecWorld
  import ClientSteps
  import ServerSteps
  import NetworkTheorems
  import C = ClientRouterSpec
  import S = ServerRouterSpec

  // ---- Putting channels back together into a world.

  /** Machines of gateways of other clients are left alone. */
  ghost predicate FsmsElsewhereSame(x: World, x': World, p: Pid) {
    forall g: S.Ref :: p !in x.net.ids || g.endpoint.clientId != x.net.ids[p] ==>
      x'.FsmAt(g) == x.FsmAt(g) && x'.LiveAt(g) == x.LiveAt(g)
  }

  ghost predicate CallsElsewhereSame(x: World, x': World, p: Pid) {
    forall q, u :: q != p ==> x'.CallAt(q, u) == x.CallAt(q, u)
  }

  lemma OtherLine(x: World, x': World, p: Pid, q: Pid, u: Tag)
    requires IdsFit(x.net) && q in x.net.hosts && q != p
    requires SameChannels(x.net, x'.net, q) && x'.net.ids == x.net.ids
    requires CallsElsewhereSame(x, x', p) && FsmsElsewhereSame(x, x', p)
    ensures LineOf(x', q, u) == LineOf(x, q, u)
  {
    hide ChanOf;
    var g := S.Ref(S.Endpoint(u, IdOf(x.net, q)), 0);
    assert p !in x.net.ids || g.endpoint.clientId != x.net.ids[p];
  }

  lemma Reassemble(x: World, x': World, p: Pid)
    requires WorldGood(x) && Inv(x'.net) && Books(x') && OtherProcessesSame(x.net, x'.net, p)
    requires x'.net.ids == x.net.ids
    requires CallsElsewhereSame(x, x', p) && FsmsElsewhereSame(x, x', p)
    requires Readable(x'.net, p) && forall u :: LineGood(LineOf(x', p, u))
    ensures WorldGood(x')
  {
    hide LineGood, LineOf, ProcessGood, Books, CallsElsewhereSame, FsmsElsewhereSame;
    forall q | q in x'.net.hosts ensures Readable(x'.net, q) && forall u :: LineGood(LineOf(x', q, u)) {
      if q != p {
        assert SameChannels(x.net, x'.net, q);
        forall u ensures LineGood(LineOf(x', q, u)) {
          OtherLine(x, x', p, q, u);
        }
      }
    }
  }

  /** Clients and machines of other channels are left alone. */
  ghost predicate OnlyHere(x: World, x': World, p: Pid, t: Tag) {
    && x'.net.ids == x.net.ids
    && (forall q: Pid, u: Tag :: (q, u) != (p, t) ==> x'.CallAt(q, u) == x.CallAt(q, u))
    && (forall g: S.Ref :: g != S.Ref(S.Endpoint(t, IdOf(x.net, p)), 0) || p !in x.net.ids ==>
          x'.FsmAt(g) == x.FsmAt(g) && x'.LiveAt(g) == x.LiveAt(g))
  }

  lemma OnlyHereIsElsewhere(x: World, x': World, p: Pid, t: Tag)
    requires OnlyHere(x, x', p, t)
    ensures CallsElsewhereSame(x, x', p) && FsmsElsewhereSame(x, x', p) && x'.net.ids == x.net.ids
  {
  }

  lemma OtherTagLine(x: World, x': World, p: Pid, t: Tag, u: Tag, k: Chan)
    requires OnlyHere(x, x', p, t) && u != t && OneChanges(x.net, x'.net, p, t, k)
    ensures Readable(x.net, p) && Readable(x'.net, p) && LineOf(x', p, u) == LineOf(x, p, u)
  {
    hide ChanOf;
    assert S.Ref(S.Endpoint(u, IdOf(x.net, p)), 0) != S.Ref(S.Endpoint(t, IdOf(x.net, p)), 0);
  }

  lemma OneChangesHere(s: Sys, s': Sys, p: Pid, t: Tag, k: Chan)
    requires OneChanges(s, s', p, t, k)
    ensures Readable(s, p) && Readable(s', p) && ChanOf(s', p, t) == k && OtherProcessesSame(s, s', p)
    ensures p in s.hosts
  {
    hide ChanOf;
  }

  /** Where only one channel changes, the other channels of the process stay good. */
  lemma ReassembleOne(x: World, x': World, p: Pid, t: Tag, k: Chan)
    requires WorldGood(x) && Inv(x'.net) && Books(x') && OneChanges(x.net, x'.net, p, t, k)
    requires OnlyHere(x, x', p, t) && Readable(x'.net, p) && LineGood(LineOf(x', p, t))
    ensures WorldGood(x')
  {
    hide *;
    OneChangesHere(x.net, x'.net, p, t, k);
    forall u ensures LineGood(LineOf(x', p, u)) {
      if u != t {
        OtherTagLine(x, x', p, t, u, k);
        LineAt(x, p, u);
      }
    }
    OnlyHereIsElsewhere(x, x', p, t);
    Reassemble(x, x', p);
  }

  lemma LineAt(x: World, p: Pid, t: Tag)
    requires WorldGood(x) && p in x.net.hosts
    ensures Readable(x.net, p) && LineGood(LineOf(x, p, t)) && Good(ChanOf(x.net, p, t))
    ensures IdsFit(x.net)
  {
    hide Good, CallGood, FsmGood, ProcessGood, Books;
  }

  lemma Chain(s0: Sys, s1: Sys, s2: Sys, p: Pid, t: Tag, k1: Chan, k2: Chan)
    requires OneChanges(s0, s1, p, t, k1) && OneChanges(s1, s2, p, t, k2)
    ensures OneChanges(s0, s2, p, t, k2)
  {
    hide ChanOf, Readable;
  }

  lemma UsableHere(s: Sys, p: Pid, t: Tag)
    requires Readable(s, p)
    ensures s.hosts[p].router.Usable(t) <==> ChanOf(s, p, t).near.made && ChanOf(s, p, t).near.view.alive
    ensures t in s.hosts[p].router.greeting <==> ChanOf(s, p, t).near.greeting
    ensures t in s.hosts[p].router.mourning <==> ChanOf(s, p, t).near.mourning
    ensures t in s.hosts[p].router.table <==> ChanOf(s, p, t).near.listed
    ensures s.hosts[p].router.connected == ChanOf(s, p, t).near.connected
    ensures ChanOf(s, p, t).tag == t
  {
  }

  // ---- Actions of a process.

  /** The act of process `p` changes the client of channel `t` at most. */
  ghost predicate ActsHere(x: World, x': World, p: Pid, t: Tag) {
    && x' == x.(net := x'.net, calls := x'.calls)
    && x'.net.ids == x.net.ids && x'.net.sockets == x.net.sockets && x'.net.hosts.Keys == x.net.hosts.Keys
    && (x'.calls == x.calls || ((p, t) in x'.calls && x'.calls == x.calls[(p, t) := x'.calls[(p, t)]]))
  }

  lemma ActsHereOnly(x: World, x': World, p: Pid, t: Tag)
    requires ActsHere(x, x', p, t) && Books(x) && p in x.net.hosts
    ensures Books(x') && OnlyHere(x, x', p, t)
  {
  }

  lemma ActsHereLine(x: World, x': World, p: Pid, t: Tag)
    requires ActsHere(x, x', p, t) && Readable(x.net, p) && Readable(x'.net, p)
    ensures LineOf(x', p, t) == LineOf(x, p, t).(k := ChanOf(x'.net, p, t), call := x'.CallAt(p, t))
  {
    hide ChanOf;
  }

  lemma ActKeeps(x: World, x': World, p: Pid, t: Tag, z: Line)
    requires WorldGood(x) && ActsHere(x, x', p, t) && Inv(x'.net) && OneChanges(x.net, x'.net, p, t, z.k)
    requires Readable(x.net, p) && z == LineOf(x, p, t).(k := z.k, call := x'.CallAt(p, t)) && LineGood(z)
    ensures WorldGood(x')
  {
    hide *;
    OneChangesHere(x.net, x'.net, p, t, z.k);
    BooksOf(x);
    ActsHereOnly(x, x', p, t);
    ActsHereLine(x, x', p, t);
    ReassembleOne(x, x', p, t, z.k);
  }

  lemma BooksOf(x: World)
    requires WorldGood(x)
    ensures Books(x) && Inv(x.net) && IdsFit(x.net)
  {
    hide ProcessGood, LineGood;
  }

  lemma StepHere(s: Sys, l: Label)
    requires Enabled(s, l) && !l.Accept? && !l.Launch?
    ensures Step(s, l).ids == s.ids && Step(s, l).sockets == s.sockets && Step(s, l).hosts.Keys == s.hosts.Keys
  {
    if l.CReceive? || l.SReceive? {
      ReadHere(s, l);
    } else {
      OtherHere(s, l);
    }
  }

  lemma ReadHere(s: Sys, l: Label)
    requires Enabled(s, l) && (l.CReceive? || l.SReceive?)
    ensures Step(s, l).ids == s.ids && Step(s, l).sockets == s.sockets && Step(s, l).hosts.Keys == s.hosts.Keys
  {
    hide C.Receive, C.ReceiveError, S.Receive, S.ReceiveError, C.PipeDisconnected, S.PipeDisconnected;
  }

  lemma OtherHere(s: Sys, l: Label)
    requires Enabled(s, l) && !l.Accept? && !l.Launch? && !l.CReceive? && !l.SReceive?
    ensures Step(s, l).ids == s.ids && Step(s, l).sockets == s.sockets && Step(s, l).hosts.Keys == s.hosts.Keys
  {
    hide C.Send, C.Dispose, C.PipeDisconnected, C.Mourn, C.Greet, C.Subscribe, C.Complete, C.MakeGateway;
    hide C.PipeConnected;
    hide S.Send, S.Dispose, S.PipeDisconnected, S.Mourn, S.Subscribe, S.Complete;
  }

  lemma NewCallKeeps(x: World, p: Pid, q: Request)
    requires WorldGood(x) && Can(x, Act.NewCall(p, q))
    ensures WorldGood(Next(x, Act.NewCall(p, q)))
  {
    hide LineGood, Good, Inv, OneChanges, ChanOf, WorldGood, Books, Step;
    BooksOf(x);
    var t := x.net.hosts[p].router.nextTag;
    LineAt(x, p, t);
    NextTagIsNew(x.net, p);
    NewCallGood(LineOf(x, p, t), q);
    ClientSteps.MakeKeeps(x.net, p);
    StepHere(x.net, CMake(p));
    ActKeeps(x, Next(x, Act.NewCall(p, q)), p, t, LineNewCall(LineOf(x, p, t), q));
  }

  lemma NextTagIsNew(s: Sys, p: Pid)
    requires Inv(s) && p in s.hosts
    ensures Readable(s, p) && !ChanOf(s, p, s.hosts[p].router.nextTag).near.made
  {
    hide Good;
    assert ProcessGood(s, p);
  }

  lemma SendRequestKeeps(x: World, p: Pid, t: Tag, pipeError: int)
    requires WorldGood(x) && p in x.net.hosts && x.net.hosts[p].router.Usable(t) && x.Submitted(p, t)
    ensures WorldGood(SendRequest(x, p, t, pipeError))
  {
    hide LineGood, Good, Inv, OneChanges, ChanOf, WorldGood, Books, Step, RequestFits, PutRequest, NearSend;
    BooksOf(x);
    var x' := SendRequest(x, p, t, pipeError);
    var q := x.calls[(p, t)].request;
    LineAt(x, p, t);
    var z := LineOf(x, p, t);
    UsableHere(x.net, p, t);
    OnConnectedGood(z, pipeError);
    if RequestFits(q) {
      ClientSteps.SendKeeps(x.net, p, t, SERVICE, PutRequest(q), pipeError);
      StepHere(x.net, CSend(p, t, SERVICE, PutRequest(q), pipeError));
    } else {
      NothingChanges(x.net, p, t);
    }
    ActKeeps(x, x', p, t, OnConnected(z, pipeError));
  }

  lemma NothingChanges(s: Sys, p: Pid, t: Tag)
    requires Inv(s) && p in s.hosts
    ensures Readable(s, p) && OneChanges(s, s, p, t, ChanOf(s, p, t))
  {
    hide Good, ChanOf;
    forall q | q in s.hosts ensures SameChannels(s, s, q) {
      assert ProcessGood(s, q);
    }
  }

  lemma SubmittedKeeps(x: World, p: Pid, t: Tag)
    requires WorldGood(x) && (p, t) in x.calls && Enabled(x.net, CSubscribe(p, t))
    ensures WorldGood(x.(calls := x.calls[(p, t) := x.calls[(p, t)].(submitted := true)],
                         net := Step(x.net, CSubscribe(p, t))))
  {
    hide LineGood, Good, Inv, OneChanges, ChanOf, WorldGood, Books, Step, NearSubscribe;
    BooksOf(x);
    var x' := x.(calls := x.calls[(p, t) := x.calls[(p, t)].(submitted := true)], net := Step(x.net, CSubscribe(p, t)));
    LineAt(x, p, t);
    UsableHere(x.net, p, t);
    var z := LineOf(x, p, t);
    SubscribedGood(z);
    ClientSteps.SubscribeKeeps(x.net, p, t);
    StepHere(x.net, CSubscribe(p, t));
    ActKeeps(x, x', p, t, z.(call := Some(z.call.value.(submitted := true)), k := NearSubscribe(z.k)));
  }

  lemma SubmitKeeps(x: World, p: Pid, t: Tag, pipeError: int)
    requires WorldGood(x) && Can(x, Act.Submit(p, t, pipeError))
    ensures WorldGood(Next(x, Act.Submit(p, t, pipeError)))
  {
    hide WorldGood, SendRequest;
    SubmittedKeeps(x, p, t);
    var x1 := x.(calls := x.calls[(p, t) := x.calls[(p, t)].(submitted := true)], net := Step(x.net, CSubscribe(p, t)));
    if C.SubscribeNotifies(x.net.hosts[p].router, t) {
      SendRequestKeeps(x1, p, t, pipeError);
    }
  }

  lemma GreetedKeeps(x: World, p: Pid, t: Tag)
    requires WorldGood(x) && Enabled(x.net, CGreet(p, t))
    ensures WorldGood(x.(net := Step(x.net, CGreet(p, t)))) && x.net.hosts[p].router.Usable(t)
  {
    hide LineGood, Good, Inv, OneChanges, ChanOf, WorldGood, Books, Step, NearGreet;
    BooksOf(x);
    LineAt(x, p, t);
    UsableHere(x.net, p, t);
    var z := LineOf(x, p, t);
    GreetedGood(z);
    ClientSteps.GreetKeeps(x.net, p, t);
    StepHere(x.net, CGreet(p, t));
    GreetedIsMade(z);
    ActKeeps(x, x.(net := Step(x.net, CGreet(p, t))), p, t, z.(k := NearGreet(z.k)));
  }

  lemma GreetedIsMade(z: Line)
    requires LineGood(z) && z.k.near.greeting
    ensures z.k.near.made && z.k.near.view.alive
  {
  }

  lemma GreetKeeps(x: World, p: Pid, t: Tag, pipeError: int)
    requires WorldGood(x) && Can(x, Act.Greet(p, t, pipeError))
    ensures WorldGood(Next(x, Act.Greet(p, t, pipeError)))
  {
    hide WorldGood, SendRequest;
    GreetedKeeps(x, p, t);
    if x.Submitted(p, t) {
      SendRequestKeeps(x.(net := Step(x.net, CGreet(p, t))), p, t, pipeError);
    }
  }

  lemma DropKeeps(x: World, p: Pid, t: Tag, pipeError: int)
    requires WorldGood(x) && Enabled(x.net, CDispose(p, t, pipeError))
    ensures WorldGood(x.(net := Step(x.net, CDispose(p, t, pipeError))))
  {
    hide LineGood, Good, Inv, OneChanges, ChanOf, WorldGood, Books, Step, NearDispose;
    BooksOf(x);
    LineAt(x, p, t);
    UsableHere(x.net, p, t);
    var z := LineOf(x, p, t);
    DropGood(z, pipeError);
    ClientSteps.DisposeKeeps(x.net, p, t, pipeError);
    StepHere(x.net, CDispose(p, t, pipeError));
    ActKeeps(x, x.(net := Step(x.net, CDispose(p, t, pipeError))), p, t, LineDrop(z, pipeError));
  }

  lemma MournKeeps(x: World, p: Pid, t: Tag)
    requires WorldGood(x) && Can(x, Act.Mourn(p, t))
    ensures WorldGood(Next(x, Act.Mourn(p, t)))
  {
    hide LineGood, Good, Inv, OneChanges, ChanOf, WorldGood, Books, Step, NearMourn, OnCompleted;
    BooksOf(x);
    LineAt(x, p, t);
    UsableHere(x.net, p, t);
    var z := LineOf(x, p, t);
    ExecChannelProofs.MournGood(z);
    ClientSteps.MournKeeps(x.net, p, t);
    StepHere(x.net, CMourn(p, t));
    MournedIsMade(z);
    ActKeeps(x, MournOne(x, p, t), p, t, LineMourn(z));
  }

  lemma MournedIsMade(z: Line)
    requires LineGood(z) && z.k.near.mourning
    ensures z.k.near.made
  {
  }

  lemma AllChangeHere(s: Sys, s': Sys, p: Pid, f: Chan -> Chan, t: Tag)
    requires AllChange(s, s', p, f)
    ensures Readable(s, p) && Readable(s', p) && ChanOf(s', p, t) == f(ChanOf(s, p, t)) && OtherProcessesSame(s, s', p)
    ensures p in s.hosts
  {
    hide ChanOf;
  }

  lemma ActsHereElsewhere(x: World, x': World, p: Pid, t: Tag)
    requires ActsHere(x, x', p, t) && Books(x) && p in x.net.hosts
    ensures Books(x') && CallsElsewhereSame(x, x', p) && FsmsElsewhereSame(x, x', p) && x'.net.ids == x.net.ids
    ensures forall u :: u != t ==> x'.CallAt(p, u) == x.CallAt(p, u)
  {
  }

  lemma FsmsSameLine(x: World, x': World, p: Pid, t: Tag)
    requires Readable(x.net, p) && Readable(x'.net, p) && x'.net.ids == x.net.ids
    requires x'.fsms == x.fsms && x'.live == x.live && x'.handlers == x.handlers
    ensures LineOf(x', p, t) == LineOf(x, p, t).(k := ChanOf(x'.net, p, t), call := x'.CallAt(p, t))
  {
    hide ChanOf;
  }

  /** The process reads a frame; its client hears of it. */
  lemma TakesLine(x: World, x': World, p: Pid, c: ClientId, u: Tag)
    requires WorldGood(x) && x.net.HostHasNext(p, c) && x.net.hosts[p].router.Idle() && x.net.hosts[p].pipe.Open?
    requires var f := x.net.server.Outbox(c)[x.net.hosts[p].taken];
             x' == Heard(x, p, f).(net := HostTakes(x.net, p, c))
    ensures Readable(x'.net, p) && LineGood(LineOf(x', p, u))
  {
    hide LineGood, Good, Inv, AllChange, ChanOf, WorldGood, Books, OnInput, OnCompleted, NearReads, C.Receive;
    BooksOf(x);
    var f := x.net.server.Outbox(c)[x.net.hosts[p].taken];
    ClientSteps.TakesKeeps(x.net, p, c);
    LineAt(x, p, u);
    UsableHere(x.net, p, u);
    IdleHere(x.net, p, u);
    AllChangeHere(x.net, x'.net, p, k => NearReads(k, f), u);
    NextIsNext(x.net, p, c, u);
    ReadsGood(LineOf(x, p, u), f);
    FsmsSameLine(x, x', p, u);
    HeardLine(x, x', p, f, u);
  }

  lemma HeardLine(x: World, x': World, p: Pid, f: Frame, u: Tag)
    requires Readable(x.net, p) && Readable(x'.net, p) && x'.calls == Heard(x, p, f).calls
    requires LineOf(x', p, u) == LineOf(x, p, u).(k := NearReads(LineOf(x, p, u).k, f), call := x'.CallAt(p, u))
    ensures LineOf(x', p, u) == LineReads(LineOf(x, p, u), f)
  {
    hide ChanOf, OnInput, OnCompleted, NearReads, LineOf;
    LineParts(x, p, u);
    UsableHere(x.net, p, u);
  }

  /** What the client of the frame's channel, if it listens, does with it. */
  function Heard(x: World, p: Pid, f: Frame): World
    requires p in x.net.hosts
  {
    if !CallHears(x, p, f) then x
    else x.(calls := x.calls[(p, f.tag) := if f.ChannelMsg? then OnInput(x.calls[(p, f.tag)], f.payload)
                                           else OnCompleted(x.calls[(p, f.tag)], f.error)])
  }

  lemma TakesKeeps(x: World, x': World, p: Pid, c: ClientId)
    requires WorldGood(x) && x.net.HostHasNext(p, c) && x.net.hosts[p].router.Idle() && x.net.hosts[p].pipe.Open?
    requires var f := x.net.server.Outbox(c)[x.net.hosts[p].taken];
             x' == Heard(x, p, f).(net := HostTakes(x.net, p, c))
    ensures WorldGood(x')
  {
    hide LineGood, Inv, AllChange, WorldGood, Books, OnInput, OnCompleted, NearReads, C.Receive, LineOf, Readable;
    hide CallsElsewhereSame, FsmsElsewhereSame;
    BooksOf(x);
    var f := x.net.server.Outbox(c)[x.net.hosts[p].taken];
    ClientSteps.TakesKeeps(x.net, p, c);
    forall u ensures Readable(x'.net, p) && LineGood(LineOf(x', p, u)) {
      TakesLine(x, x', p, c, u);
    }
    AllChangeHere(x.net, x'.net, p, k => NearReads(k, f), 0);
    ActsHereElsewhere(x, x', p, if f.ChannelMsg? || f.ChannelEnd? then f.tag else 0);
    Reassemble(x, x', p);
  }

  lemma IdleHere(s: Sys, p: Pid, t: Tag)
    requires Readable(s, p) && s.hosts[p].router.Idle()
    ensures !ChanOf(s, p, t).near.greeting && !ChanOf(s, p, t).near.mourning
  {
  }

  lemma NextIsNext(s: Sys, p: Pid, c: ClientId, t: Tag)
    requires Inv(s) && s.HostHasNext(p, c) && Readable(s, p)
    ensures var f := s.server.Outbox(c)[s.hosts[p].taken];
            f.For(t) ==> ChanOf(s, p, t).downSeen + [f] <= ChanOf(s, p, t).down
  {
    hide ProcessGood;
    ClientSteps.ReadsOne(s.server.Outbox(c), s.hosts[p].taken, t);
  }

  lemma LosesServerLine(x: World, p: Pid, u: Tag)
    requires WorldGood(x) && p in x.net.hosts && x.net.hosts[p].router.Idle()
    ensures Readable(LoseServer(x.net, p), p) && LineGood(LineOf(x.(net := LoseServer(x.net, p)), p, u))
  {
    hide LineGood, Good, Inv, AllChange, ChanOf, WorldGood, Books, NearLost, C.PipeDisconnected;
    BooksOf(x);
    var x' := x.(net := LoseServer(x.net, p));
    ClientSteps.LoseServerKeeps(x.net, p);
    LineAt(x, p, u);
    IdleHere(x.net, p, u);
    AllChangeHere(x.net, x'.net, p, NearLost, u);
    LostGood(LineOf(x, p, u));
    FsmsSameLine(x, x', p, u);
  }

  lemma LosesServerKeeps(x: World, p: Pid)
    requires WorldGood(x) && p in x.net.hosts && x.net.hosts[p].router.Idle()
    ensures WorldGood(x.(net := LoseServer(x.net, p)))
  {
    hide LineGood, Inv, AllChange, WorldGood, Books, LineOf, Readable, CallsElsewhereSame, FsmsElsewhereSame;
    BooksOf(x);
    var x' := x.(net := LoseServer(x.net, p));
    ClientSteps.LoseServerKeeps(x.net, p);
    forall u ensures Readable(x'.net, p) && LineGood(LineOf(x', p, u)) {
      LosesServerLine(x, p, u);
    }
    AllChangeHere(x.net, x'.net, p, NearLost, 0);
    ActsHereElsewhere(x, x', p, 0);
    Reassemble(x, x', p);
  }

  lemma ReadKeeps(x: World, p: Pid, c: ClientId, handlerError: int)
    requires WorldGood(x) && Can(x, Act.Read(p, c, handlerError))
    ensures WorldGood(Next(x, Act.Read(p, c, handlerError)))
  {
    hide WorldGood, OnInput, OnCompleted;
    var f := x.net.server.Outbox(c)[x.net.hosts[p].taken];
    var error := CallError(x, p, f, handlerError);
    var x1 := Heard(x, p, f).(net := HostTakes(x.net, p, c));
    TakesKeeps(x, x1, p, c);
    if C.ReceiveError(x.net.hosts[p].router, f, error) != SUCCESS {
      LosesServerKeeps(x1, p);
    }
  }

  // ---- Actions of the daemon.

  /** Only the daemon's router changed. */
  predicate ServerOnly(s: Sys, s': Sys) {
    s' == s.(server := s'.server)
  }

  lemma FinishedNet(s: Sys, g: S.Ref, error: int, endError: int)
    requires s.server.Usable(g)
    ensures ServerOnly(s, Finished(s, g, error, endError))
    ensures Step(s, SComplete(g, error)).server.Usable(g)
    ensures Finished(s, g, error, endError) == Step(Step(s, SComplete(g, error)), SDispose(g, endError))
  {
  }

  lemma SameHome(s: Sys, s': Sys, e: S.Endpoint, k: Chan)
    requires ServerSteps.HasHome(s, e) && ServerOnly(s, s')
    requires OneChanges(s, s', s.sockets[e.clientId], e.tag, k)
    ensures s'.sockets == s.sockets && ChanOf(s', s.sockets[e.clientId], e.tag) == k
  {
    hide ChanOf, ProcessGood;
  }

  lemma FinishedKeeps(s: Sys, g: S.Ref, error: int, endError: int)
    requires Inv(s) && s.server.Usable(g) && g.ordinal == 0
    ensures Inv(Finished(s, g, error, endError)) && ServerSteps.HasHome(s, g.endpoint)
    ensures ServerOnly(s, Finished(s, g, error, endError))
    ensures var p := s.sockets[g.endpoint.clientId];
            var k := ChanOf(s, p, g.endpoint.tag);
            && k.far.views != []
            && OneChanges(s, Finished(s, g, error, endError), p, g.endpoint.tag, Finish(k, error, endError))
  {
    hide Inv, Good, ChanOf, OneChanges, Finished, Finish, FarComplete, FarDispose, ServerSteps.HasHome, S.Complete;
    var s1 := Step(s, SComplete(g, error));
    FinishedNet(s, g, error, endError);
    HomeIsHere(s, g);
    var p := s.sockets[g.endpoint.clientId];
    var k := ChanOf(s, p, g.endpoint.tag);
    ServerSteps.CompleteKeeps(s, g, error);
    CompleteNet(s, g, error);
    SameHome(s, s1, g.endpoint, FarComplete(k, 0, error));
    ServerSteps.DisposeKeeps(s1, g, endError);
    FinishIs(k, error, endError);
    Chain(s, s1, Finished(s, g, error, endError), p, g.endpoint.tag, FarComplete(k, 0, error),
      Finish(k, error, endError));
  }

  lemma CompleteNet(s: Sys, g: S.Ref, error: int)
    requires s.server.Usable(g)
    ensures ServerOnly(s, Step(s, SComplete(g, error)))
  {
  }

  lemma FinishIs(k: Chan, error: int, endError: int)
    requires k.far.views != []
    ensures FarComplete(k, 0, error).far.views != []
    ensures Finish(k, error, endError) == FarDispose(FarComplete(k, 0, error), 0, endError)
  {
  }

  lemma HomeIsHere(s: Sys, g: S.Ref)
    requires Inv(s) && s.server.Exists(g)
    ensures ServerSteps.HasHome(s, g.endpoint) && Inv(s) && IdsFit(s)
    ensures s.sockets[g.endpoint.clientId] in s.hosts && Readable(s, s.sockets[g.endpoint.clientId])
    ensures ChanOf(s, s.sockets[g.endpoint.clientId], g.endpoint.tag).far.views == s.server.Objects(g.endpoint)
    ensures IdOf(s, s.sockets[g.endpoint.clientId]) == g.endpoint.clientId
    ensures ChanOf(s, s.sockets[g.endpoint.clientId], g.endpoint.tag).far.views != []
  {
    hide Good, ProcessGood;
    ServerSteps.HomeOf(s, g);
  }

  /** Everything the daemon's machines do not own is as it was. */
  predicate SdkSame(x: World, x': World) {
    && x'.calls == x.calls && x'.net.hosts == x.net.hosts
    && x'.net.ids == x.net.ids && x'.net.sockets == x.net.sockets
  }

  /** The books of the daemon are as they were. */
  predicate MachinesSame(x: World, x': World) {
    && x'.fsms == x.fsms && x'.live == x.live && x'.channels == x.channels && x'.handlers == x.handlers
    && x'.nextFsm == x.nextFsm
  }

  /** `i` is the next machine and has been entered everywhere but in `fsms`. */
  predicate MachineEntered(x: World, x': World, i: FsmId, g: S.Ref) {
    && i == x.nextFsm && x'.nextFsm == i + 1 && x'.fsms == x.fsms && x'.live == x.live + {i}
    && x'.channels == x.channels[i := g] && x'.handlers == x.handlers[g := i]
    && g !in x.handlers && g.ordinal == 0 && g.endpoint.clientId in x.net.sockets
  }

  predicate MachineReady(x: World, m: World, i: FsmId, g: S.Ref) {
    || (MachinesSame(x, m) && i in x.fsms && g in x.handlers && x.handlers[g] == i)
    || MachineEntered(x, m, i, g)
  }

  /** What settling does to the books. */
  predicate Booked(m: World, x': World, i: FsmId, f: Fsm) {
    && x'.fsms == m.fsms[i := f] && x'.live == (if f.completion.None? then m.live else m.live - {i})
    && x'.channels == m.channels && x'.handlers == m.handlers && x'.nextFsm == m.nextFsm
  }

  lemma SettleIs(m: World, i: FsmId, g: S.Ref, f: Fsm, endError: int)
    requires f.completion.Some? ==> m.net.server.Usable(g)
    ensures Booked(m, Settle(m, i, g, f, endError), i, f) && SdkSame(m, Settle(m, i, g, f, endError))
  {
    if f.completion.Some? { FinishedNet(m.net, g, f.completion.value, endError); }
    hide Finished;
  }

  lemma KnownBooks(x: World, m: World, x': World, i: FsmId, f: Fsm)
    requires Books(x) && SdkSame(x, m) && SdkSame(m, x') && Booked(m, x', i, f)
    requires MachinesSame(x, m) && i in x.fsms
    ensures Books(x')
  {
  }

  lemma EnteredBooks(x: World, m: World, x': World, i: FsmId, g: S.Ref, f: Fsm)
    requires Books(x) && SdkSame(x, m) && SdkSame(m, x') && Booked(m, x', i, f)
    requires MachineEntered(x, m, i, g)
    ensures Books(x')
  {
    forall h | h in x'.handlers
      ensures x'.handlers[h] in x'.fsms && x'.channels[x'.handlers[h]] == h
    {
      if h != g { assert x.handlers[h] in x.fsms; }
    }
  }

  lemma SettleBooks(x: World, m: World, i: FsmId, g: S.Ref, f: Fsm, endError: int)
    requires Books(x) && SdkSame(x, m) && MachineReady(x, m, i, g)
    requires f.completion.Some? ==> m.net.server.Usable(g)
    ensures var x' := Settle(m, i, g, f, endError);
            Books(x') && SdkSame(x, x')
  {
    hide Books, Settle, Booked, MachinesSame, MachineEntered;
    SettleIs(m, i, g, f, endError);
    if MachineEntered(x, m, i, g) {
      EnteredBooks(x, m, Settle(m, i, g, f, endError), i, g, f);
    } else {
      KnownBooks(x, m, Settle(m, i, g, f, endError), i, f);
    }
  }

  lemma SettleOnlyHere(x: World, m: World, i: FsmId, g: S.Ref, f: Fsm, endError: int, p: Pid)
    requires Books(x) && SdkSame(x, m) && MachineReady(x, m, i, g)
    requires f.completion.Some? ==> m.net.server.Usable(g)
    requires p in x.net.ids && g == S.Ref(S.Endpoint(g.endpoint.tag, IdOf(x.net, p)), 0)
    ensures OnlyHere(x, Settle(m, i, g, f, endError), p, g.endpoint.tag)
  {
    hide Settle, Inv;
    SettleIs(m, i, g, f, endError);
    var x' := Settle(m, i, g, f, endError);
    forall h: S.Ref | h != g ensures x'.FsmAt(h) == x.FsmAt(h) && x'.LiveAt(h) == x.LiveAt(h) {
      assert h in x'.handlers <==> h in x.handlers;
      if h in x.handlers {
        assert x.channels[x.handlers[h]] == h;
      }
    }
  }

  /** How settling changes the channel. */
  function SettledChan(k: Chan, f: Fsm, endError: int): Chan
    requires k.far.views != []
  {
    if f.completion.None? then k else Finish(k, f.completion.value, endError)
  }

  lemma SettleKeepsNet(m: World, i: FsmId, g: S.Ref, f: Fsm, endError: int)
    requires Inv(m.net) && m.net.server.Usable(g) && g.ordinal == 0
    ensures var x' := Settle(m, i, g, f, endError);
            var p := m.net.sockets[g.endpoint.clientId];
            && Inv(x'.net) && ServerOnly(m.net, x'.net) && ServerSteps.HasHome(m.net, g.endpoint)
            && ChanOf(m.net, p, g.endpoint.tag).far.views != []
            && OneChanges(m.net, x'.net, p, g.endpoint.tag,
                          SettledChan(ChanOf(m.net, p, g.endpoint.tag), f, endError))
  {
    hide Inv, Good, ChanOf, OneChanges, Finished, Finish;
    HomeIsHere(m.net, g);
    if f.completion.Some? {
      FinishedKeeps(m.net, g, f.completion.value, endError);
    } else {
      NothingChanges(m.net, m.net.sockets[g.endpoint.clientId], g.endpoint.tag);
    }
  }

  /** The machine in the books is the one on the line. */
  lemma SettleLine(x: World, m: World, i: FsmId, g: S.Ref, f: Fsm, endError: int, p: Pid, z: Line)
    requires SdkSame(x, m) && MachineReady(x, m, i, g)
    requires Readable(m.net, p) && p in m.net.ids && g == S.Ref(S.Endpoint(g.endpoint.tag, IdOf(m.net, p)), 0)
    requires var x' := Settle(m, i, g, f, endError);
             && Readable(x'.net, p) && x'.net.ids == m.net.ids && z.k.far.views != []
             && ChanOf(x'.net, p, g.endpoint.tag) == SettledChan(z.k, f, endError)
    requires z.live && z.call == x.CallAt(p, g.endpoint.tag) && i in m.live
    ensures LineOf(Settle(m, i, g, f, endError), p, g.endpoint.tag) == Settled(z, f, endError)
  {
    hide ChanOf, Finish, Finished;
  }

  lemma NotMourned(s: Sys, p: Pid, t: Tag)
    requires Readable(s, p) && s.server.mourning == {}
    ensures !ChanOf(s, p, t).far.mourned
  {
  }

  lemma NextIsNextUp(s: Sys, c: ClientId, t: Tag)
    requires Inv(s) && s.HasNext(c)
    ensures Readable(s, s.sockets[c]) && s.sockets[c] in s.ids && IdOf(s, s.sockets[c]) == c
    ensures var k := ChanOf(s, s.sockets[c], t);
            s.Next(c).For(t) ==> k.upSeen + [s.Next(c)] <= k.up
  {
    hide Good;
    assert ProcessGood(s, s.sockets[c]);
    ClientSteps.ReadsOne(Up(s, s.sockets[c]), s.Taken(c), t);
  }

  lemma ThenOthersSame(s: Sys, s1: Sys, s2: Sys, p: Pid, t: Tag, k: Chan, f: Chan -> Chan, u: Tag)
    requires AllChange(s, s1, p, f) && OneChanges(s1, s2, p, t, k)
    ensures OtherProcessesSame(s, s2, p) && Readable(s, p) && Readable(s2, p)
    ensures u != t ==> ChanOf(s2, p, u) == f(ChanOf(s, p, u))
    ensures Readable(s1, p) && ChanOf(s1, p, t) == f(ChanOf(s, p, t)) && ChanOf(s2, p, t) == k
  {
    hide ChanOf;
  }

  /** A channel of the client whose frame was read, but not the one that goes on from there. */
  lemma ServedLine(x: World, x': World, c: ClientId, f: Frame, pipeError: int, t: Tag, k: Chan, u: Tag)
    requires WorldGood(x) && c in x.net.contexts && x.net.HasNext(c) && x.net.server.mourning == {}
    requires f == x.net.Next(c)
    requires OneChanges(ServerTakes(x.net, c, pipeError), x'.net, x.net.sockets[c], t, k)
    requires OnlyHere(x, x', x.net.sockets[c], t) && u != t && !f.For(u)
    ensures Readable(x'.net, x.net.sockets[c]) && LineGood(LineOf(x', x.net.sockets[c], u))
  {
    hide Inv, Good, WorldGood, Books, ChanOf, LineGood, OneChanges, AllChange, FarReads, ServerTakes, Begins, Reaches;
    BooksOf(x);
    var p := x.net.sockets[c];
    ServerSteps.TakesKeeps(x.net, c, pipeError);
    ThenOthersSame(x.net, ServerTakes(x.net, c, pipeError), x'.net, p, t, k, j => FarReads(j, f, pipeError), u);
    LineAt(x, p, u);
    NotMourned(x.net, p, u);
    UsableHere(x.net, p, u);
    NextIsNextUp(x.net, c, u);
    NotForOpens(LineOf(x, p, u).k, f);
    ReadOnGood(LineOf(x, p, u), f, pipeError);
    assert LineOf(x', p, u) == LineOf(x, p, u).(k := FarReads(LineOf(x, p, u).k, f, pipeError)) by {
      assert S.Ref(S.Endpoint(u, c), 0) != S.Ref(S.Endpoint(t, c), 0);
    }
  }

  lemma NotForOpens(k: Chan, f: Frame)
    requires !f.For(k.tag)
    ensures !Begins(k, f)
  {
  }

  /** A frame was read, and one channel went on from there. */
  lemma ServedKeeps(x: World, x': World, c: ClientId, f: Frame, pipeError: int, t: Tag, k: Chan)
    requires WorldGood(x) && c in x.net.contexts && x.net.HasNext(c) && x.net.server.mourning == {}
    requires f == x.net.Next(c)
    requires OneChanges(ServerTakes(x.net, c, pipeError), x'.net, x.net.sockets[c], t, k)
    requires Inv(x'.net) && Books(x') && OnlyHere(x, x', x.net.sockets[c], t)
    requires Readable(x'.net, x.net.sockets[c]) && LineGood(LineOf(x', x.net.sockets[c], t))
    requires forall u: Tag :: u != t ==> !f.For(u)
    ensures WorldGood(x')
  {
    hide Inv, Good, WorldGood, Books, ChanOf, LineGood, LineOf, OneChanges, AllChange, FarReads, OnlyHere, ServerTakes;
    hide CallsElsewhereSame, FsmsElsewhereSame, Readable;
    BooksOf(x);
    var p := x.net.sockets[c];
    forall u ensures LineGood(LineOf(x', p, u)) {
      if u != t { ServedLine(x, x', c, f, pipeError, t, k, u); }
    }
    ServerSteps.TakesKeeps(x.net, c, pipeError);
    ThenOthersSame(x.net, ServerTakes(x.net, c, pipeError), x'.net, p, t, k, j => FarReads(j, f, pipeError), t);
    OnlyHereIsElsewhere(x, x', p, t);
    Reassemble(x, x', p);
  }

  lemma DropsLine(x: World, c: ClientId, u: Tag)
    requires WorldGood(x) && c in x.net.sockets && x.net.server.mourning == {}
    ensures var p := x.net.sockets[c];
            var x' := x.(net := LoseClient(x.net, c));
            Readable(x'.net, p) && LineGood(LineOf(x', p, u))
  {
    hide LineGood, Good, Inv, AllChange, ChanOf, WorldGood, Books, FarLost, S.PipeDisconnected;
    BooksOf(x);
    var p := x.net.sockets[c];
    var x' := x.(net := LoseClient(x.net, c));
    ServerSteps.LoseClientKeeps(x.net, c);
    LineAt(x, p, u);
    NotMourned(x.net, p, u);
    AllChangeHere(x.net, x'.net, p, FarLost, u);
    DroppedGood(LineOf(x, p, u));
    FsmsSameLine(x, x', p, u);
  }

  lemma DropsClientKeeps(x: World, c: ClientId)
    requires WorldGood(x) && c in x.net.sockets && x.net.server.mourning == {}
    ensures WorldGood(x.(net := LoseClient(x.net, c)))
  {
    hide LineGood, Inv, AllChange, WorldGood, Books, LineOf, Readable, CallsElsewhereSame, FsmsElsewhereSame;
    BooksOf(x);
    var x' := x.(net := LoseClient(x.net, c));
    var p := x.net.sockets[c];
    ServerSteps.LoseClientKeeps(x.net, c);
    forall u ensures Readable(x'.net, p) && LineGood(LineOf(x', p, u)) {
      DropsLine(x, c, u);
    }
    AllChangeHere(x.net, x'.net, p, FarLost, 0);
    ActsHereElsewhere(x, x', p, 0);
    Reassemble(x, x', p);
  }

  /** No client or machine takes notice of the frame. */
  predicate Unnoticed(z: Line, f: Frame) {
    && !(Begins(z.k, f) && f.service == SERVICE)
    && !(f.ChannelEnd? && f.tag == z.k.tag && Reaches(z.k) && z.fsm.Some? && z.live)
  }

  lemma UnnoticedGood(z: Line, f: Frame, pipeError: int)
    requires LineGood(z) && !z.k.far.mourned && (f.For(z.k.tag) ==> z.k.upSeen + [f] <= z.k.up) && Unnoticed(z, f)
    ensures LineGood(z.(k := FarReads(z.k, f, pipeError)))
  {
    hide LineGood, FarReads, Begins, Reaches;
    ServesGood(z, f, pipeError, AllMade, 0);
  }

  lemma TakesQuietlyLine(x: World, c: ClientId, pipeError: int, t: Tag)
    requires WorldGood(x) && c in x.net.contexts && x.net.HasNext(c) && x.net.server.mourning == {}
    requires Readable(x.net, x.net.sockets[c]) && Unnoticed(LineOf(x, x.net.sockets[c], t), x.net.Next(c))
    ensures var x' := x.(net := ServerTakes(x.net, c, pipeError));
            Inv(x'.net) && Readable(x'.net, x.net.sockets[c]) && LineGood(LineOf(x', x.net.sockets[c], t))
  {
    hide Inv, Good, WorldGood, Books, ChanOf, LineGood, AllChange, FarReads, S.Receive, Unnoticed;
    BooksOf(x);
    var p, f := x.net.sockets[c], x.net.Next(c);
    var x' := x.(net := ServerTakes(x.net, c, pipeError));
    ServerSteps.TakesKeeps(x.net, c, pipeError);
    LineAt(x, p, t);
    NotMourned(x.net, p, t);
    UsableHere(x.net, p, t);
    NextIsNextUp(x.net, c, t);
    AllChangeHere(x.net, x'.net, p, k => FarReads(k, f, pipeError), t);
    UnnoticedGood(LineOf(x, p, t), f, pipeError);
    FsmsSameLine(x, x', p, t);
  }

  lemma TakesQuietlyKeeps(x: World, c: ClientId, pipeError: int, t: Tag)
    requires WorldGood(x) && c in x.net.contexts && x.net.HasNext(c) && x.net.server.mourning == {}
    requires Readable(x.net, x.net.sockets[c]) && Unnoticed(LineOf(x, x.net.sockets[c], t), x.net.Next(c))
    requires forall u: Tag :: u != t ==> !x.net.Next(c).For(u)
    ensures WorldGood(x.(net := ServerTakes(x.net, c, pipeError)))
  {
    hide Inv, Good, WorldGood, Books, ChanOf, LineGood, LineOf, OneChanges, Unnoticed, S.Receive;
    BooksOf(x);
    var p := x.net.sockets[c];
    var x' := x.(net := ServerTakes(x.net, c, pipeError));
    TakesQuietlyLine(x, c, pipeError, t);
    NothingChanges(x'.net, p, t);
    ActsHereOnly(x, x', p, t);
    ServedKeeps(x, x', c, x.net.Next(c), pipeError, t, ChanOf(x'.net, p, t));
  }

  lemma OpensHere(s: Sys, c: ClientId, p: Pid, f: Frame)
    requires Readable(s, p) && IdOf(s, p) == c && f.ChannelMsg?
    ensures S.Opens(s.server, c, f) <==> Begins(ChanOf(s, p, f.tag), f)
    ensures s.server.Objects(S.Endpoint(f.tag, c)) == ChanOf(s, p, f.tag).far.views
  {
  }

  lemma OpensTakes(s: Sys, c: ClientId, handlerError: int, pipeError: int)
    requires Enabled(s, SReceive(c, handlerError, pipeError)) && S.Opens(s.server, c, s.Next(c))
    ensures Step(s, SReceive(c, handlerError, pipeError)) == ServerTakes(s, c, pipeError)
  {
  }

  lemma FarOfServer(s: Sys, p: Pid, g: S.Ref)
    requires Readable(s, p) && IdOf(s, p) == g.endpoint.clientId
    ensures ChanOf(s, p, g.endpoint.tag).far.views == s.server.Objects(g.endpoint)
    ensures ChanOf(s, p, g.endpoint.tag).tag == g.endpoint.tag
    ensures ChanOf(s, p, g.endpoint.tag).far.mourned <==> S.Ref(g.endpoint, 0) in s.server.mourning
    ensures ChanOf(s, p, g.endpoint.tag).far.named == s.server.Registered(g.endpoint)
    ensures ChanOf(s, p, g.endpoint.tag).far.routed == s.server.Routed(g.endpoint.clientId)
  {
  }

  lemma TakesNet(s: Sys, c: ClientId, pipeError: int)
    requires s.HasNext(c)
    ensures var s' := ServerTakes(s, c, pipeError);
            s'.hosts == s.hosts && s'.ids == s.ids && s'.sockets == s.sockets && s'.contexts == s.contexts
  {
  }

  lemma SubscribeNet(s: Sys, g: S.Ref)
    requires s.server.Usable(g)
    ensures ServerOnly(s, Step(s, SSubscribe(g))) && Step(s, SSubscribe(g)).server.Usable(g)
    ensures Do(s, SSubscribe(g)) == Step(s, SSubscribe(g))
  {
  }

  /** The request is read and its gateway exists. */
  lemma OpenedChannel(z: Line, f: Frame)
    requires LineGood(z) && !z.k.far.mourned && f.ChannelMsg? && f.service == SERVICE
    requires Begins(z.k, f) && z.k.upSeen + [f] <= z.k.up
    ensures z.k.far.views == [] && z.fsm.None? && z.call.Some? && GetRequest(f.payload) == Some(z.call.value.request)
    ensures var k := FarTake(z.k, f);
            && k == FarReads(z.k, f, SUCCESS)
            && Good(k) && CallGood(z.(k := k)) && k.far.named == Some(0)
            && k.far.views == [FreshView(Some(Opening(SERVICE, f.payload)))]
  {
    hide GetRequest, Sound, Carries, Stream, Delivery, NearGood, Requests;
    NothingOpenYet(z.k, f);
    OpensWithRequest(z, f);
    TakesGood(z, f);
  }

  lemma NoMachineYet(x: World, p: Pid, g: S.Ref)
    requires Books(x) && Readable(x.net, p) && IdOf(x.net, p) == g.endpoint.clientId && g.ordinal == 0
    requires LineOf(x, p, g.endpoint.tag).fsm.None?
    ensures g !in x.handlers
  {
    hide ChanOf;
  }

  /** Settling a machine: the books, the line, and what stays as it was. */
  lemma SettlesHere(x: World, m: World, i: FsmId, g: S.Ref, f: Fsm, endError: int, p: Pid, z: Line)
    requires Books(x) && SdkSame(x, m) && MachineReady(x, m, i, g) && i in m.live
    requires Inv(m.net) && m.net.server.Usable(g)
    requires p in x.net.ids && g == S.Ref(S.Endpoint(g.endpoint.tag, IdOf(x.net, p)), 0)
    requires g.endpoint.clientId in m.net.sockets && m.net.sockets[g.endpoint.clientId] == p
    requires Readable(m.net, p) && z.k == ChanOf(m.net, p, g.endpoint.tag)
    requires z.live && z.call == x.CallAt(p, g.endpoint.tag)
    ensures var x' := Settle(m, i, g, f, endError);
            && Inv(x'.net) && Books(x') && OnlyHere(x, x', p, g.endpoint.tag) && z.k.far.views != []
            && OneChanges(m.net, x'.net, p, g.endpoint.tag, SettledChan(z.k, f, endError))
            && SdkSame(x, x')
            && Readable(x'.net, p) && LineOf(x', p, g.endpoint.tag) == Settled(z, f, endError)
  {
    hide Inv, Books, ChanOf, OneChanges, Settle, Settled, SettledChan, OnlyHere, MachineReady, Readable, LineOf;
    SettleKeepsNet(m, i, g, f, endError);
    var x' := Settle(m, i, g, f, endError);
    OneChangesHere(m.net, x'.net, p, g.endpoint.tag, SettledChan(z.k, f, endError));
    SettleBooks(x, m, i, g, f, endError);
    SettleOnlyHere(x, m, i, g, f, endError, p);
    SettleLine(x, m, i, g, f, endError, p, z);
  }

  /** The daemon once the frame that opens a channel is read. */
  lemma OpenedNet(x: World, c: ClientId, pipeError: int)
    requires WorldGood(x) && c in x.net.contexts && x.net.HasNext(c) && x.net.server.mourning == {}
    requires S.Opens(x.net.server, c, x.net.Next(c)) && x.net.Next(c).service == SERVICE
    ensures var p, f := x.net.sockets[c], x.net.Next(c);
            var n1 := ServerTakes(x.net, c, pipeError);
            var g := S.Ref(S.Endpoint(f.tag, c), 0);
            && p in x.net.ids && IdOf(x.net, p) == c && Readable(x.net, p) && Readable(n1, p) && Inv(n1)
            && g !in x.handlers && x.net.server.Objects(g.endpoint) == [] && n1.server.Usable(g)
            && (var z := LineOf(x, p, f.tag);
                && ChanOf(n1, p, f.tag) == FarTake(z.k, f) && z.fsm.None?
                && z.call.Some? && GetRequest(f.payload) == Some(z.call.value.request)
                && Good(FarTake(z.k, f)) && CallGood(z.(k := FarTake(z.k, f))) && FarTake(z.k, f).far.named == Some(0)
                && FarTake(z.k, f).far.views == [FreshView(Some(Opening(SERVICE, f.payload)))])
  {
    hide Inv, Good, WorldGood, Books, ChanOf, LineGood, AllChange, FarReads, FarTake, S.Receive;
    hide S.Opens, Begins, GetRequest, CallGood, Readable, ServerTakes;
    OpeningIsMessage(x.net, c, x.net.Next(c));
    BooksOf(x);
    var p, f := x.net.sockets[c], x.net.Next(c);
    var g := S.Ref(S.Endpoint(f.tag, c), 0);
    NextIsNextUp(x.net, c, f.tag);
    LineAt(x, p, f.tag);
    NotMourned(x.net, p, f.tag);
    OpensHere(x.net, c, p, f);
    UsableHere(x.net, p, f.tag);
    var z := LineOf(x, p, f.tag);
    OpenedChannel(z, f);
    NoMachineYet(x, p, g);
    var n1 := ServerTakes(x.net, c, pipeError);
    TakesNet(x.net, c, pipeError);
    ServerSteps.TakesKeeps(x.net, c, pipeError);
    AllChangeHere(x.net, n1, p, k => FarReads(k, f, pipeError), f.tag);
    ForReads(z.k, f, pipeError);
    FarOfServer(n1, p, g);
  }

  lemma OpeningIsMessage(s: Sys, c: ClientId, f: Frame)
    requires S.Opens(s.server, c, f)
    ensures f.ChannelMsg?
  {
  }

  /** A machine is made for the gateway, and starts. */
  lemma OpenFsmKeeps(x: World, n1: Sys, g: S.Ref, q: Request, launch: Launch, endError: int, p: Pid, z: Line, k1: Chan)
    requires Books(x) && SdkSame(x, x.(net := n1)) && Inv(n1) && n1.server.Usable(g) && g !in x.handlers
    requires p in x.net.ids && g == S.Ref(S.Endpoint(g.endpoint.tag, IdOf(x.net, p)), 0)
    requires g.endpoint.clientId in x.net.sockets && x.net.sockets[g.endpoint.clientId] == p
    requires Readable(n1, p) && ChanOf(n1, p, g.endpoint.tag) == k1 && z.call == x.CallAt(p, g.endpoint.tag)
    ensures var x' := OpenFsm(x.(net := n1), g, q, launch, endError);
            var z2 := z.(k := FarSubscribe(k1), live := true);
            && Inv(x'.net) && Books(x') && OnlyHere(x, x', p, g.endpoint.tag)
            && z2.k.far.views != []
            && OneChanges(n1, x'.net, p, g.endpoint.tag, SettledChan(z2.k, Start(q, launch), endError))
            && Readable(x'.net, p) && LineOf(x', p, g.endpoint.tag) == Settled(z2, Start(q, launch), endError)
  {
    hide Inv, Books, ChanOf, OneChanges, FarSubscribe, Settle, Settled, Start, Readable, SettledChan, OnlyHere, Step;
    hide LineOf;
    hide IdsFit, ProcessGood, Do;
    var t, i := g.endpoint.tag, x.nextFsm;
    HomeIsHere(n1, g);
    ServerSteps.SubscribeKeeps(n1, g);
    SubscribeNet(n1, g);
    var n2 := Step(n1, SSubscribe(g));
    OneChangesHere(n1, n2, p, t, FarSubscribe(k1));
    var m := x.(net := n2, live := x.live + {i}, nextFsm := i + 1,
                channels := x.channels[i := g], handlers := x.handlers[g := i]);
    var z2 := z.(k := FarSubscribe(k1), live := true);
    SettlesHere(x, m, i, g, Start(q, launch), endError, p, z2);
    Chain(n1, n2, Settle(m, i, g, Start(q, launch), endError).net, p, t, z2.k,
      SettledChan(z2.k, Start(q, launch), endError));
  }

  lemma ServeOpensIs(x: World, c: ClientId, handlerError: int, pipeError: int, launch: Launch, endError: int,
    q: Request)
    requires Can(x, Act.Serve(c, handlerError, pipeError, launch, endError))
    requires S.Opens(x.net.server, c, x.net.Next(c)) && x.net.Next(c).service == SERVICE
    requires GetRequest(x.net.Next(c).payload) == Some(q)
    requires x.net.server.Objects(S.Endpoint(x.net.Next(c).tag, c)) == []
    ensures ServeOne(x, c, handlerError, pipeError, launch, endError) ==
            OpenFsm(x.(net := ServerTakes(x.net, c, pipeError)), S.Ref(S.Endpoint(x.net.Next(c).tag, c), 0), q,
              launch, endError)
  {
    hide OpenFsm, S.Receive, Step, GetRequest;
    OpensTakes(x.net, c, FsmError(x, c, x.net.Next(c), handlerError), pipeError);
  }

  lemma OpensKeeps(x: World, x': World, c: ClientId, handlerError: int, pipeError: int, launch: Launch, endError: int)
    requires Can(x, Act.Serve(c, handlerError, pipeError, launch, endError))
    requires x' == ServeOne(x, c, handlerError, pipeError, launch, endError)
    requires S.Opens(x.net.server, c, x.net.Next(c)) && x.net.Next(c).service == SERVICE
    requires WorldGood(x)
    ensures WorldGood(x')
  {
    hide Inv, Good, WorldGood, Books, ChanOf, LineGood, OneChanges, AllChange, FarReads, FarTake, FarSubscribe;
    hide S.Receive;
    hide S.Opens, Settled, Start, Step, GetRequest, CallGood, Readable, SettledChan, OnlyHere, ServerTakes, OpenFsm;
    hide LineOf;
    hide ServeOne;
    OpeningIsMessage(x.net, c, x.net.Next(c));
    BooksOf(x);
    var p, f := x.net.sockets[c], x.net.Next(c);
    OpenedNet(x, c, pipeError);
    TakesNet(x.net, c, pipeError);
    var n1 := ServerTakes(x.net, c, pipeError);
    var g := S.Ref(S.Endpoint(f.tag, c), 0);
    var z := LineOf(x, p, f.tag);
    LineParts(x, p, f.tag);
    var k1 := FarTake(z.k, f);
    var q := z.call.value.request;
    OpenFsmKeeps(x, n1, g, q, launch, endError, p, z, k1);
    OpenGood(z.(k := k1), f.payload, q, launch, endError);
    LineOpenIs(z.(k := k1), f.payload, q, launch, endError);
    ServedKeeps(x, OpenFsm(x.(net := n1), g, q, launch, endError), c, f, pipeError, f.tag,
                SettledChan(FarSubscribe(k1), Start(q, launch), endError));
    ServeOpensIs(x, c, handlerError, pipeError, launch, endError, q);
  }

  lemma LineParts(x: World, p: Pid, t: Tag)
    requires Readable(x.net, p)
    ensures LineOf(x, p, t).call == x.CallAt(p, t) && LineOf(x, p, t).k == ChanOf(x.net, p, t)
    ensures LineOf(x, p, t).k.tag == t
    ensures LineOf(x, p, t).fsm == x.FsmAt(S.Ref(S.Endpoint(t, IdOf(x.net, p)), 0))
    ensures LineOf(x, p, t).live == x.LiveAt(S.Ref(S.Endpoint(t, IdOf(x.net, p)), 0))
  {
  }

  lemma LineOpenIs(z: Line, payload: Payload, q: Request, launch: Launch, endError: int)
    requires z.k.far.views != [] && GetRequest(payload) == Some(q)
    requires FarSubscribe(z.k).far.views != []
    ensures LineOpen(z, payload, launch, endError) ==
            Settled(z.(k := FarSubscribe(z.k), live := true), Start(q, launch), endError)
  {
  }

  lemma ForReads(k: Chan, f: Frame, pipeError: int)
    requires f.For(k.tag)
    ensures FarReads(k, f, pipeError) == FarTake(k, f)
  {
  }

  lemma ReachesHere(s: Sys, c: ClientId, p: Pid, t: Tag)
    requires Readable(s, p) && IdOf(s, p) == c
    ensures S.Reaches(s.server, S.Endpoint(t, c)) <==> Reaches(ChanOf(s, p, t))
    ensures s.server.Registered(S.Endpoint(t, c)) == ChanOf(s, p, t).far.named
  {
  }

  /** The peer's end of a channel with a machine is read: the machine is cancelled. */
  lemma EndedChannel(z: Line, f: Frame, endError: int)
    requires LineGood(z) && !z.k.far.mourned && f.ChannelEnd? && f.For(z.k.tag) && Reaches(z.k)
    requires z.k.upSeen + [f] <= z.k.up && z.live
    ensures z.fsm.Some? && z.k.far.named == Some(0)
    ensures var k := FarTake(z.k, f);
            && Good(k) && k.far.views != [] && k.far.views[0].alive
            && LineGood(Settled(z.(k := k), Cancel(z.fsm.value), endError))
  {
    hide Stream, Delivery, NearGood, CallGood, Sound, Carries, GetRequest, Settled, UpGood, DownGood;
    TakesGood(z, f);
    EndReadGood(z, f, endError);
  }

  lemma EndTakes(s: Sys, c: ClientId, pipeError: int)
    requires Enabled(s, SReceive(c, SUCCESS, pipeError)) && s.Next(c).ChannelEnd?
    ensures Step(s, SReceive(c, SUCCESS, pipeError)) == ServerTakes(s, c, pipeError)
  {
  }

  lemma ServeEndsIs(x: World, c: ClientId, handlerError: int, pipeError: int, launch: Launch, endError: int, g: S.Ref)
    requires Can(x, Act.Serve(c, handlerError, pipeError, launch, endError))
    requires x.net.Next(c).ChannelEnd? && g == S.Ref(S.Endpoint(x.net.Next(c).tag, c), 0)
    requires S.Reaches(x.net.server, g.endpoint) && x.net.server.Registered(g.endpoint) == Some(0) && x.LiveAt(g)
    ensures ServeOne(x, c, handlerError, pipeError, launch, endError) ==
            Settle(x.(net := ServerTakes(x.net, c, pipeError)), x.handlers[g], g, Cancel(x.fsms[x.handlers[g]]),
              endError)
  {
    hide Settle, S.Receive, Step, Completes;
    EndTakes(x.net, c, pipeError);
    EndCompletes(x.net, c, pipeError, g);
  }

  lemma EndCompletes(s: Sys, c: ClientId, pipeError: int, g: S.Ref)
    requires s.HasNext(c) && s.Next(c).ChannelEnd? && g == S.Ref(S.Endpoint(s.Next(c).tag, c), 0)
    requires S.Reaches(s.server, g.endpoint) && s.server.Registered(g.endpoint) == Some(0)
    ensures Completes(s, ServerTakes(s, c, pipeError), g)
  {
  }

  /** Of all reads, only that of an end completes a gateway, and only the registered one. */
  lemma OnlyEndsComplete(s: Sys, c: ClientId, handlerError: int, pipeError: int, g: S.Ref)
    requires Enabled(s, SReceive(c, handlerError, pipeError)) && g.endpoint.clientId == c
    requires Completes(s, Step(s, SReceive(c, handlerError, pipeError)), g)
    ensures s.Next(c).ChannelEnd? && g.endpoint.tag == s.Next(c).tag
    ensures S.Reaches(s.server, g.endpoint) && s.server.Registered(g.endpoint) == Some(g.ordinal)
  {
    hide S.ReceiveError, S.PipeDisconnected;
    LossTellsNone(ServerTakes(s, c, pipeError), c, g);
  }

  lemma LossTellsNone(s: Sys, c: ClientId, g: S.Ref)
    ensures LoseClient(s, c).server.Objects(g.endpoint) == s.server.Objects(g.endpoint)
  {
  }

  lemma EndsKeeps(x: World, x': World, c: ClientId, handlerError: int, pipeError: int, launch: Launch, endError: int)
    requires Can(x, Act.Serve(c, handlerError, pipeError, launch, endError))
    requires x' == ServeOne(x, c, handlerError, pipeError, launch, endError)
    requires x.net.Next(c).ChannelEnd? && S.Reaches(x.net.server, S.Endpoint(x.net.Next(c).tag, c))
    requires x.LiveAt(S.Ref(S.Endpoint(x.net.Next(c).tag, c), 0))
    requires WorldGood(x)
    ensures WorldGood(x')
  {
    hide Inv, Good, WorldGood, Books, ChanOf, LineGood, OneChanges, AllChange, FarReads, FarTake, S.Receive;
    hide S.Reaches, Reaches, Settled, Settle, Step, Readable, SettledChan, OnlyHere, ServerTakes, LineOf, ServeOne;
    BooksOf(x);
    var p, f := x.net.sockets[c], x.net.Next(c);
    var g := S.Ref(S.Endpoint(f.tag, c), 0);
    NextIsNextUp(x.net, c, f.tag);
    LineAt(x, p, f.tag);
    NotMourned(x.net, p, f.tag);
    LineParts(x, p, f.tag);
    ReachesHere(x.net, c, p, f.tag);
    var z := LineOf(x, p, f.tag);
    EndedChannel(z, f, endError);
    var n1 := ServerTakes(x.net, c, pipeError);
    TakesNet(x.net, c, pipeError);
    ServerSteps.TakesKeeps(x.net, c, pipeError);
    AllChangeHere(x.net, n1, p, k => FarReads(k, f, pipeError), f.tag);
    ForReads(z.k, f, pipeError);
    FarOfServer(n1, p, g);
    var m, i := x.(net := n1), x.handlers[g];
    ServeEndsIs(x, c, handlerError, pipeError, launch, endError, g);
    SettlesHere(x, m, i, g, Cancel(x.fsms[i]), endError, p, z.(k := FarTake(z.k, f)));
    ServedKeeps(x, x', c, f, pipeError, f.tag, SettledChan(FarTake(z.k, f), Cancel(x.fsms[i]), endError));
  }

  /** The frame makes the daemon's machines do something. */
  predicate MakesMachine(x: World, c: ClientId, f: Frame) {
    S.Opens(x.net.server, c, f) && f.service == SERVICE
  }

  predicate CancelsMachine(x: World, c: ClientId, f: Frame) {
    && f.ChannelEnd? && S.Reaches(x.net.server, S.Endpoint(f.tag, c))
    && x.LiveAt(S.Ref(S.Endpoint(f.tag, c), x.net.server.Registered(S.Endpoint(f.tag, c)).value))
  }

  lemma ServeQuietlyIs(x: World, c: ClientId, handlerError: int, pipeError: int, launch: Launch, endError: int)
    requires Can(x, Act.Serve(c, handlerError, pipeError, launch, endError))
    requires !MakesMachine(x, c, x.net.Next(c)) && !CancelsMachine(x, c, x.net.Next(c))
    ensures var n1 := ServerTakes(x.net, c, pipeError);
            var x' := ServeOne(x, c, handlerError, pipeError, launch, endError);
            x' == x.(net := n1) || x' == x.(net := LoseClient(n1, c))
  {
    hide S.Receive, S.ReceiveError, S.Reaches, Settle, OpenFsm, Completes, FsmError;
    var f := x.net.Next(c);
    if f.ChannelMsg? || f.ChannelEnd? { NoneIsCancelled(x, c, FsmError(x, c, f, handlerError), pipeError, f.tag); }
  }

  lemma NoneIsCancelled(x: World, c: ClientId, handlerError: int, pipeError: int, t: Tag)
    requires Enabled(x.net, SReceive(c, handlerError, pipeError)) && !CancelsMachine(x, c, x.net.Next(c))
    ensures var g := S.Ref(S.Endpoint(t, c), 0);
            !(Completes(x.net, Step(x.net, SReceive(c, handlerError, pipeError)), g) && x.LiveAt(g))
  {
    hide Step, Completes, S.Reaches;
    var g := S.Ref(S.Endpoint(t, c), 0);
    if Completes(x.net, Step(x.net, SReceive(c, handlerError, pipeError)), g) {
      OnlyEndsComplete(x.net, c, handlerError, pipeError, g);
    }
  }

  lemma UnnoticedHere(x: World, c: ClientId, p: Pid, f: Frame, t: Tag)
    requires Readable(x.net, p) && IdOf(x.net, p) == c && FarGood(ChanOf(x.net, p, t).far)
    requires (f.ChannelMsg? || f.ChannelEnd?) ==> f.tag == t
    requires !MakesMachine(x, c, f) && !CancelsMachine(x, c, f)
    ensures Unnoticed(LineOf(x, p, t), f)
  {
    hide ChanOf, Reaches, S.Opens, S.Reaches;
    if f.ChannelMsg? { OpensHere(x.net, c, p, f); }
    LineParts(x, p, t);
    ReachesHere(x.net, c, p, t);
    NamedIsFirst(ChanOf(x.net, p, t));
  }

  lemma NamedIsFirst(k: Chan)
    requires FarGood(k.far)
    ensures Reaches(k) ==> k.far.named == Some(0)
  {
  }

  lemma FarOfGood(k: Chan)
    requires Good(k)
    ensures FarGood(k.far)
  {
  }

  lemma QuietlyKeeps(x: World, c: ClientId, pipeError: int)
    requires c in x.net.contexts && x.net.HasNext(c) && x.net.server.mourning == {}
    requires !MakesMachine(x, c, x.net.Next(c)) && !CancelsMachine(x, c, x.net.Next(c))
    requires WorldGood(x)
    ensures var n1 := ServerTakes(x.net, c, pipeError);
            && WorldGood(x.(net := n1)) && WorldGood(x.(net := LoseClient(n1, c)))
  {
    hide Inv, Good, WorldGood, Books, ChanOf, LineGood, AllChange, S.Receive, FarGood, Unnoticed, MakesMachine;
    hide CancelsMachine;
    hide ServerTakes, LineOf, LoseClient;
    BooksOf(x);
    var p, f := x.net.sockets[c], x.net.Next(c);
    var t := if f.ChannelMsg? || f.ChannelEnd? then f.tag else 0;
    NextIsNextUp(x.net, c, t);
    LineAt(x, p, t);
    FarOfGood(ChanOf(x.net, p, t));
    UnnoticedHere(x, c, p, f, t);
    TakesQuietlyKeeps(x, c, pipeError, t);
    TakesNet(x.net, c, pipeError);
    ServerSteps.TakesKeeps(x.net, c, pipeError);
    DropsClientKeeps(x.(net := ServerTakes(x.net, c, pipeError)), c);
  }

  lemma ServeKeeps(x: World, x': World, c: ClientId, handlerError: int, pipeError: int, launch: Launch, endError: int)
    requires Can(x, Act.Serve(c, handlerError, pipeError, launch, endError))
    requires x' == ServeOne(x, c, handlerError, pipeError, launch, endError)
    requires WorldGood(x)
    ensures WorldGood(x')
  {
    hide WorldGood, ServeOne, S.Opens, S.Reaches;
    var f := x.net.Next(c);
    if MakesMachine(x, c, f) {
      OpensKeeps(x, x', c, handlerError, pipeError, launch, endError);
    } else if CancelsMachine(x, c, f) {
      EndIsFirst(x, c, f);
      EndsKeeps(x, x', c, handlerError, pipeError, launch, endError);
    } else {
      ServeQuietlyIs(x, c, handlerError, pipeError, launch, endError);
      QuietlyKeeps(x, c, pipeError);
    }
  }

  lemma EndIsFirst(x: World, c: ClientId, f: Frame)
    requires WorldGood(x) && c in x.net.contexts && x.net.HasNext(c) && f == x.net.Next(c) && CancelsMachine(x, c, f)
    ensures x.net.server.Registered(S.Endpoint(f.tag, c)) == Some(0)
  {
    hide Inv, Good, WorldGood, Books, ChanOf, LineGood, S.Reaches, Reaches, FarGood;
    BooksOf(x);
    var p := x.net.sockets[c];
    NextIsNextUp(x.net, c, f.tag);
    LineAt(x, p, f.tag);
    ReachesHere(x.net, c, p, f.tag);
    FarOfGood(ChanOf(x.net, p, f.tag));
    NamedIsFirst(ChanOf(x.net, p, f.tag));
  }

  lemma MournNet(s: Sys, g: S.Ref)
    requires Enabled(s, SMourn(g))
    ensures ServerOnly(s, Step(s, SMourn(g)))
  {
  }

  lemma MournedIsFirst(s: Sys, p: Pid, g: S.Ref)
    requires Readable(s, p) && IdOf(s, p) == g.endpoint.clientId && g in s.server.mourning && s.server.Exists(g)
    requires Good(ChanOf(s, p, g.endpoint.tag))
    ensures g.ordinal == 0 && ChanOf(s, p, g.endpoint.tag).far.mourned
  {
    hide UpGood, DownGood, NearGood, Stream, Delivery;
    ServerSteps.MournedChannel(s, p, g);
  }

  lemma BereavedIs(z: Line, endError: int)
    requires z.k.far.views != []
    ensures FarMourn(z.k, 0).far.views != [] && FarMourn(z.k, 0).far.views[0].alive == z.k.far.views[0].alive
    ensures LineBereaved(z, endError) ==
            if z.k.far.views[0].alive && z.fsm.Some? && z.live
            then Settled(z.(k := FarMourn(z.k, 0)), Cancel(z.fsm.value), endError)
            else z.(k := FarMourn(z.k, 0))
  {
    hide Settled, Cancel;
  }

  lemma UsableAt(s: Sys, g: S.Ref)
    ensures s.server.Usable(g) <==>
            g.ordinal < |s.server.Objects(g.endpoint)| && s.server.Objects(g.endpoint)[g.ordinal].alive
  {
  }

  lemma MournCompletes(s: Sys, g: S.Ref)
    requires Enabled(s, SMourn(g)) && s.server.Exists(g)
    ensures Completes(s, Step(s, SMourn(g)), g) <==> s.server.Usable(g)
  {
  }

  lemma BereaveKeeps(x: World, x': World, g: S.Ref, endError: int)
    requires Can(x, Act.Bereave(g, endError)) && x' == BereaveOne(x, g, endError)
    requires WorldGood(x)
    ensures WorldGood(x')
  {
    hide Inv, Good, WorldGood, Books, ChanOf, LineGood, OneChanges, Settle, Settled, Cancel, Step, OnlyHere;
    hide SettledChan;
    hide FarMourn, LineBereaved, ServerSteps.HasHome, LineOf, Readable, Completes;
    BooksOf(x);
    HomeIsHere(x.net, g);
    MournCompletes(x.net, g);
    var p, t := x.net.sockets[g.endpoint.clientId], g.endpoint.tag;
    LineAt(x, p, t);
    LineParts(x, p, t);
    var z := LineOf(x, p, t);
    MournedIsFirst(x.net, p, g);
    ServerSteps.MournKeeps(x.net, g);
    MournNet(x.net, g);
    UsableAt(x.net, g);
    BereavedGood(z, endError);
    BereavedIs(z, endError);
    var m := x.(net := Step(x.net, SMourn(g)));
    OneChangesHere(x.net, m.net, p, t, FarMourn(z.k, 0));
    if x.net.server.Usable(g) && x.LiveAt(g) {
      var i := x.handlers[g];
      FarOfServer(m.net, p, g);
      SettlesHere(x, m, i, g, Cancel(x.fsms[i]), endError, p, z.(k := FarMourn(z.k, 0)));
      Chain(x.net, m.net, x'.net, p, t, FarMourn(z.k, 0), SettledChan(FarMourn(z.k, 0), Cancel(x.fsms[i]), endError));
      ReassembleOne(x, x', p, t, SettledChan(FarMourn(z.k, 0), Cancel(x.fsms[i]), endError));
    } else {
      ActsHereOnly(x, x', p, t);
      FsmsSameLine(x, x', p, t);
      ReassembleOne(x, x', p, t, FarMourn(z.k, 0));
    }
  }

  lemma LiveMachine(x: World, i: FsmId)
    requires WorldGood(x) && i in x.live && x.net.server.mourning == {}
    ensures i in x.fsms && i in x.channels
    ensures var g := x.channels[i];
            && g in x.handlers && x.handlers[g] == i && g.ordinal == 0 && x.net.server.Usable(g)
            && g.endpoint.clientId in x.net.sockets && x.net.server.Registered(g.endpoint).Some?
            && (var p := x.net.sockets[g.endpoint.clientId];
                && p in x.net.ids && IdOf(x.net, p) == g.endpoint.clientId && Readable(x.net, p)
                && LineOf(x, p, g.endpoint.tag).fsm == Some(x.fsms[i]) && LineOf(x, p, g.endpoint.tag).live)
  {
    hide Inv, Good, WorldGood, ChanOf, CallGood, Sound, Carries, GetRequest;
    BooksOf(x);
    var g := x.channels[i];
    var p := x.net.sockets[g.endpoint.clientId];
    LineAt(x, p, g.endpoint.tag);
    LineParts(x, p, g.endpoint.tag);
    FarOfServer(x.net, p, g);
    UsableAt(x.net, g);
    assert LineOf(x, p, g.endpoint.tag).live;
  }

  lemma SendNet(s: Sys, g: S.Ref, service: ServiceId, payload: Payload, pipeError: int)
    requires s.server.Usable(g)
    ensures var l := SSend(g, service, payload, pipeError);
            ServerOnly(s, Step(s, l)) && Do(s, l) == Step(s, l) && Step(s, l).server.Usable(g)
  {
  }

  lemma ResolveKeeps(x: World, x': World, i: FsmId, n: NodeId, outcome: Outcome, sendError: int, endError: int)
    requires Can(x, Act.Resolve(i, n, outcome, sendError, endError))
    requires x' == ResolveOne(x, i, n, outcome, sendError, endError)
    requires WorldGood(x)
    ensures WorldGood(x')
  {
    hide Inv, Good, WorldGood, Books, ChanOf, LineGood, OneChanges, Settle, Settled, Step, OnlyHere, SettledChan;
    hide FarSend, ServerSteps.HasHome, LineOf, Readable, ExecSpec.Resolve, PutResponse, ResponseFits, Do;
    BooksOf(x);
    LiveMachine(x, i);
    var g := x.channels[i];
    var p, t := x.net.sockets[g.endpoint.clientId], g.endpoint.tag;
    LineAt(x, p, t);
    LineParts(x, p, t);
    FarOfServer(x.net, p, g);
    var z := LineOf(x, p, t);
    var f := ExecSpec.Resolve(x.fsms[i], n, outcome, S.SendError(x.net.server, g, sendError));
    ResolveGood(z, n, outcome, sendError, endError);
    if outcome.Answered? {
      var payload := PutResponse(n, outcome.response);
      ServerSteps.SendKeeps(x.net, g, SERVICE, payload, sendError);
      SendNet(x.net, g, SERVICE, payload, sendError);
      var m := x.(net := Step(x.net, SSend(g, SERVICE, payload, sendError)));
      var k1 := FarSend(z.k, 0, SERVICE, payload, sendError);
      OneChangesHere(x.net, m.net, p, t, k1);
      SettlesHere(x, m, i, g, f, endError, p, z.(k := k1));
      Chain(x.net, m.net, x'.net, p, t, k1, SettledChan(k1, f, endError));
      ReassembleOne(x, x', p, t, SettledChan(k1, f, endError));
    } else {
      SettlesHere(x, x, i, g, f, endError, p, z);
      ReassembleOne(x, x', p, t, SettledChan(z.k, f, endError));
    }
  }

  // ---- Users of other channels, and the connections.

  /** The gateway of another user of the process. */
  lemma NearOtherKeeps(x: World, l: Label, p: Pid, t: Tag, k': Chan)
    requires Enabled(x.net, l) && !l.Accept? && !l.Launch? && (p, t) !in x.calls
    requires Inv(Step(x.net, l)) && Step(x.net, l).hosts.Keys == x.net.hosts.Keys
    requires OneChanges(x.net, Step(x.net, l), p, t, k') && Readable(x.net, p)
    requires k'.far == ChanOf(x.net, p, t).far && k'.tag == t
    requires Requests(ChanOf(x.net, p, t).up, None) ==> Requests(k'.up, None)
    requires WorldGood(x)
    ensures WorldGood(x.(net := Step(x.net, l)))
  {
    hide Inv, Good, WorldGood, Books, ChanOf, LineGood, OneChanges, Step, Requests;
    BooksOf(x);
    var x' := x.(net := Step(x.net, l));
    LineAt(x, p, t);
    LineParts(x, p, t);
    var z := LineOf(x, p, t);
    RequestsOf(z);
    OneChangesHere(x.net, x'.net, p, t, k');
    GoodAt(x'.net, p, t);
    OtherNearGood(z, k');
    StepHere(x.net, l);
    ActKeeps(x, x', p, t, z.(k := k'));
  }

  lemma RequestsOf(z: Line)
    requires LineGood(z)
    ensures Requests(z.k.up, z.call)
  {
  }

  lemma GoodAt(s: Sys, p: Pid, t: Tag)
    requires Inv(s) && p in s.hosts
    ensures Readable(s, p) && Good(ChanOf(s, p, t))
  {
    hide Good;
    assert ProcessGood(s, p);
  }

  /** The channel's near end and the message that opened its far end are as they were. */
  predicate SameOpening(k: Chan, k': Chan) {
    && k'.near == k.near && k'.up == k.up && k'.tag == k.tag && |k'.far.views| == |k.far.views|
    && (k.far.views != [] ==> k'.far.views[0].opening == k.far.views[0].opening)
  }

  lemma FarKeepsOpening(k: Chan, o: nat, service: ServiceId, payload: Payload, error: int)
    requires o < |k.far.views|
    ensures SameOpening(k, FarSend(k, o, service, payload, error)) && SameOpening(k, FarComplete(k, o, error))
    ensures SameOpening(k, FarSubscribe(k)) && SameOpening(k, FarDispose(k, o, error))
  {
  }

  /** A gateway of the daemon that belongs to another service. */
  lemma FarOtherKeeps(x: World, l: Label, g: S.Ref, p: Pid, k': Chan)
    requires Enabled(x.net, l) && x.net.server.Usable(g) && g !in x.handlers
    requires Inv(Step(x.net, l)) && ServerOnly(x.net, Step(x.net, l))
    requires ServerSteps.HasHome(x.net, g.endpoint) && p == x.net.sockets[g.endpoint.clientId]
    requires OneChanges(x.net, Step(x.net, l), p, g.endpoint.tag, k')
    requires SameOpening(ChanOf(x.net, p, g.endpoint.tag), k')
    requires WorldGood(x)
    ensures WorldGood(x.(net := Step(x.net, l)))
  {
    hide Inv, Good, WorldGood, Books, ChanOf, LineGood, OneChanges, Step, OnlyHere, ServerSteps.HasHome;
    BooksOf(x);
    HomeIsHere(x.net, g);
    var t := g.endpoint.tag;
    var x' := x.(net := Step(x.net, l));
    LineAt(x, p, t);
    LineParts(x, p, t);
    FarOfServer(x.net, p, g);
    UsableAt(x.net, g);
    var z := LineOf(x, p, t);
    FirstAndOnly(z.k, g.ordinal);
    OtherService(z);
    OneChangesHere(x.net, x'.net, p, t, k');
    GoodAt(x'.net, p, t);
    OtherFarGood(z, k');
    FsmsSameLine(x, x', p, t);
    ActsHereOnly(x, x', p, t);
    ReassembleOne(x, x', p, t, k');
  }

  lemma FirstAndOnly(k: Chan, o: nat)
    requires Good(k) && o < |k.far.views|
    ensures o == 0
  {
  }

  lemma OtherService(z: Line)
    requires LineGood(z) && z.fsm.None? && z.k.far.views != []
    ensures !OpenedForService(z.k.far.views[0])
  {
    hide Good, CallGood;
  }

  lemma FarNet(s: Sys, l: Label)
    requires Enabled(s, l) && (l.SSend? || l.SComplete? || l.SSubscribe? || l.SDispose?)
    ensures ServerOnly(s, Step(s, l))
  {
  }

  lemma FarActsKeep(x: World, l: Label)
    requires Enabled(x.net, l) && (l.SSend? || l.SComplete? || l.SSubscribe? || l.SDispose?)
    requires OtherMay(x, l) && WorldGood(x)
    ensures WorldGood(x.(net := Step(x.net, l)))
  {
    hide Inv, Good, WorldGood, Books, ChanOf, LineGood, OneChanges, Step, ServerSteps.HasHome, SameOpening;
    hide FarSend, FarComplete, FarSubscribe, FarDispose;
    BooksOf(x);
    HomeIsHere(x.net, l.g);
    UsableAt(x.net, l.g);
    FarNet(x.net, l);
    var p := x.net.sockets[l.g.endpoint.clientId];
    var k := ChanOf(x.net, p, l.g.endpoint.tag);
    match l
    case SSend(g, service, payload, e) =>
      FarKeepsOpening(k, g.ordinal, service, payload, e);
      ServerSteps.SendKeeps(x.net, g, service, payload, e);
      FarOtherKeeps(x, l, g, p, FarSend(k, g.ordinal, service, payload, e));
    case SComplete(g, e) =>
      FarKeepsOpening(k, g.ordinal, 0, [], e);
      ServerSteps.CompleteKeeps(x.net, g, e);
      FarOtherKeeps(x, l, g, p, FarComplete(k, g.ordinal, e));
    case SSubscribe(g) =>
      FarKeepsOpening(k, g.ordinal, 0, [], 0);
      ServerSteps.SubscribeKeeps(x.net, g);
      FarOtherKeeps(x, l, g, p, FarSubscribe(k));
    case SDispose(g, e) =>
      FarKeepsOpening(k, g.ordinal, 0, [], e);
      ServerSteps.DisposeKeeps(x.net, g, e);
      FarOtherKeeps(x, l, g, p, FarDispose(k, g.ordinal, e));
    case _ =>
  }

  lemma NearActsKeep(x: World, l: Label)
    requires Enabled(x.net, l) && (l.CMake? || l.CSend? || l.CComplete? || l.CSubscribe?)
    requires OtherMay(x, l) && WorldGood(x)
    ensures WorldGood(x.(net := Step(x.net, l)))
  {
    hide Inv, Good, WorldGood, Books, ChanOf, LineGood, OneChanges, Step;
    BooksOf(x);
    StepHere(x.net, l);
    match l
    case CMake(p) =>
      var t := x.net.hosts[p].router.nextTag;
      NextTagIsNew(x.net, p);
      LineAt(x, p, t);
      LineParts(x, p, t);
      CallMadeOf(LineOf(x, p, t));
      ClientSteps.MakeKeeps(x.net, p);
      NearOtherKeeps(x, l, p, t, Make(ChanOf(x.net, p, t)));
    case CSend(p, t, service, payload, e) =>
      LineAt(x, p, t);
      UsableHere(x.net, p, t);
      ClientSteps.SendKeeps(x.net, p, t, service, payload, e);
      var k := ChanOf(x.net, p, t);
      if Requests(k.up, None) { RequestsGrow(k.up, None, ChannelMsg(t, k.near.view.nextSequence, service, payload)); }
      NearOtherKeeps(x, l, p, t, NearSend(k, service, payload, e));
    case CComplete(p, t, e) =>
      LineAt(x, p, t);
      UsableHere(x.net, p, t);
      ClientSteps.CompleteKeeps(x.net, p, t, e);
      NearOtherKeeps(x, l, p, t, NearComplete(ChanOf(x.net, p, t), e));
    case CSubscribe(p, t) =>
      LineAt(x, p, t);
      UsableHere(x.net, p, t);
      ClientSteps.SubscribeKeeps(x.net, p, t);
      NearOtherKeeps(x, l, p, t, NearSubscribe(ChanOf(x.net, p, t)));
    case _ =>
  }

  lemma CallMadeOf(z: Line)
    requires LineGood(z)
    ensures z.call.Some? ==> z.k.near.made
  {
  }

  /** A change that no channel shows. */
  lemma ReassembleSame(x: World, x': World)
    requires WorldGood(x) && Inv(x'.net) && Books(x')
    requires forall p :: p in x'.net.hosts ==>
               Readable(x'.net, p) && forall t :: LineGood(LineOf(x', p, t))
    ensures WorldGood(x')
  {
    hide LineGood, LineOf, ProcessGood, Books, Readable;
  }

  lemma SameLine(x: World, x': World, q: Pid, u: Tag)
    requires SameChannels(x.net, x'.net, q) && IdOf(x'.net, q) == IdOf(x.net, q)
    requires MachinesSame(x, x') && x'.calls == x.calls
    ensures LineOf(x', q, u) == LineOf(x, q, u)
  {
    hide ChanOf;
  }

  lemma NothingYet(x: World, p: Pid, t: Tag)
    requires Books(x) && IdsFit(x.net) && p !in x.net.hosts
    ensures x.CallAt(p, t).None? && x.FsmAt(S.Ref(S.Endpoint(t, 0), 0)).None? && !x.LiveAt(S.Ref(S.Endpoint(t, 0), 0))
    ensures p !in x.net.ids
  {
  }

  lemma BlankLineGood(t: Tag, services: set<ServiceId>)
    ensures LineGood(Line(ClientSteps.Blank(t, services), None, None, false))
  {
  }

  lemma LaunchedLine(x: World, p: Pid, q: Pid, u: Tag)
    requires WorldGood(x) && p !in x.net.hosts && (q == p || q in x.net.hosts)
    ensures var x' := x.(net := Step(x.net, Launch(p)));
            Readable(x'.net, q) && LineGood(LineOf(x', q, u))
  {
    hide Inv, WorldGood, Books, ChanOf, LineGood, SameChannels, Good, ProcessGood, ClientSteps.Blank;
    BooksOf(x);
    var x' := x.(net := Step(x.net, Launch(p)));
    if q == p {
      NothingYet(x, p, u);
      ClientSteps.LaunchStartsGood(x.net, p);
      BlankLineGood(u, x.net.server.services);
    } else {
      ClientSteps.LaunchKeeps(x.net, p);
      assert SameChannels(x.net, x'.net, q);
      SameChannelsReadable(x.net, x'.net, q);
      LineAt(x, q, u);
      SameLine(x, x', q, u);
    }
  }

  lemma SameChannelsReadable(s: Sys, s': Sys, q: Pid)
    requires SameChannels(s, s', q)
    ensures Readable(s, q) && Readable(s', q)
  {
    hide ChanOf;
  }

  lemma LaunchKeeps(x: World, p: Pid)
    requires WorldGood(x) && p !in x.net.hosts
    ensures WorldGood(x.(net := Step(x.net, Launch(p))))
  {
    hide Inv, WorldGood, ChanOf, LineGood, LineOf, SameChannels, Good, ProcessGood, Readable;
    BooksOf(x);
    var x' := x.(net := Step(x.net, Launch(p)));
    ClientSteps.LaunchKeeps(x.net, p);
    forall q | q in x'.net.hosts ensures Readable(x'.net, q) && forall u :: LineGood(LineOf(x', q, u)) {
      LaunchedLine(x, p, q, 0);
      forall u ensures LineGood(LineOf(x', q, u)) { LaunchedLine(x, p, q, u); }
    }
    ReassembleSame(x, x');
  }

  lemma AcceptedLine(x: World, p: Pid, q: Pid, u: Tag)
    requires WorldGood(x) && Enabled(x.net, Accept(p)) && q in x.net.hosts
    ensures var x' := x.(net := Step(x.net, Accept(p)));
            Readable(x'.net, q) && LineGood(LineOf(x', q, u))
  {
    hide Inv, WorldGood, ChanOf, LineGood, SameChannels, Good, ProcessGood;
    BooksOf(x);
    var x' := x.(net := Step(x.net, Accept(p)));
    ServerSteps.AcceptKeeps(x.net, p);
    LineAt(x, q, u);
    if q == p {
      AllChangeHere(x.net, x'.net, p, k => k, u);
      hide IdsFit, Books;
      AcceptedSame(x, p, u);
    } else {
      assert SameChannels(x.net, x'.net, q);
      SameChannelsReadable(x.net, x'.net, q);
      SameLine(x, x', q, u);
    }
  }

  /** No machine has a gateway under the new id, nor had one under none. */
  lemma AcceptedSame(x: World, p: Pid, u: Tag)
    requires Books(x) && IdsFit(x.net) && Enabled(x.net, Accept(p))
    requires var x' := x.(net := Step(x.net, Accept(p)));
             Readable(x.net, p) && Readable(x'.net, p) && ChanOf(x'.net, p, u) == ChanOf(x.net, p, u)
    ensures LineOf(x.(net := Step(x.net, Accept(p))), p, u) == LineOf(x, p, u)
  {
    hide ChanOf;
    var c := x.net.counter + 1;
    assert c !in x.net.sockets && 0 !in x.net.sockets;
  }

  lemma AcceptKeeps(x: World, p: Pid)
    requires Enabled(x.net, Accept(p)) && WorldGood(x)
    ensures WorldGood(x.(net := Step(x.net, Accept(p))))
  {
    hide Inv, WorldGood, ChanOf, LineGood, LineOf, SameChannels, Good, ProcessGood, Readable, AllChange;
    BooksOf(x);
    var x' := x.(net := Step(x.net, Accept(p)));
    ServerSteps.AcceptKeeps(x.net, p);
    forall q | q in x'.net.hosts ensures Readable(x'.net, q) && forall u :: LineGood(LineOf(x', q, u)) {
      AcceptedLine(x, p, q, 0);
      forall u ensures LineGood(LineOf(x', q, u)) { AcceptedLine(x, p, q, u); }
    }
    ReassembleSame(x, x');
  }

  lemma PipeUpLine(x: World, p: Pid, e: int, u: Tag)
    requires Enabled(x.net, CPipeUp(p, e)) && WorldGood(x)
    ensures var x' := x.(net := Step(x.net, CPipeUp(p, e)));
            Readable(x'.net, p) && LineGood(LineOf(x', p, u))
  {
    hide LineGood, Good, Inv, AllChange, ChanOf, WorldGood, Books, Step;
    var x' := x.(net := Step(x.net, CPipeUp(p, e)));
    BooksOf(x);
    StepHere(x.net, CPipeUp(p, e));
    ClientSteps.PipeUpKeeps(x.net, p, e);
    LineAt(x, p, u);
    LineParts(x, p, u);
    AllChangeHere(x.net, x'.net, p, k => k, u);
    FsmsSameLine(x, x', p, u);
  }

  lemma PipeUpKeeps(x: World, p: Pid, e: int)
    requires Enabled(x.net, CPipeUp(p, e)) && WorldGood(x)
    ensures WorldGood(x.(net := Step(x.net, CPipeUp(p, e))))
  {
    hide LineGood, Inv, AllChange, WorldGood, Books, LineOf, Readable, CallsElsewhereSame, FsmsElsewhereSame, Step;
    BooksOf(x);
    var x' := x.(net := Step(x.net, CPipeUp(p, e)));
    StepHere(x.net, CPipeUp(p, e));
    ClientSteps.PipeUpKeeps(x.net, p, e);
    forall u ensures Readable(x'.net, p) && LineGood(LineOf(x', p, u)) {
      PipeUpLine(x, p, e, u);
    }
    AllChangeHere(x.net, x'.net, p, k => k, 0);
    ActsHereElsewhere(x, x', p, 0);
    Reassemble(x, x', p);
  }

  lemma OtherKeeps(x: World, l: Label)
    requires Can(x, Act.Other(l)) && WorldGood(x)
    ensures WorldGood(x.(net := Step(x.net, l)))
  {
    hide WorldGood, S.Send, S.Dispose, S.Subscribe, S.Complete, S.PipeDisconnected, C.PipeDisconnected;
    match l
    case Launch(p) => LaunchKeeps(x, p);
    case CPipeUp(p, e) => PipeUpKeeps(x, p, e);
    case CPipeDown(p) => LosesServerKeeps(x, p);
    case CDispose(p, t, e) => DropKeeps(x, p, t, e);
    case Accept(p) => AcceptKeeps(x, p);
    case SPipeDown(c) =>
      BooksOf(x);
      DropsClientKeeps(x, c);
    case _ =>
      if l.CMake? || l.CSend? || l.CComplete? || l.CSubscribe? { NearActsKeep(x, l); } else { FarActsKeep(x, l); }
  }

  // ---- Runs.

  lemma NextKeeps(x: World, a: Act)
    requires Can(x, a) && WorldGood(x)
    ensures WorldGood(Next(x, a))
  {
    hide WorldGood, SubmitCall, GreetOne, ReadOne, MournOne, ServeOne, BereaveOne, ResolveOne, Step, Enabled;
    match a
    case NewCall(p, q) => NewCallKeeps(x, p, q);
    case Submit(p, t, e) => SubmitKeeps(x, p, t, e);
    case Greet(p, t, e) => GreetKeeps(x, p, t, e);
    case Drop(p, t, e) => DropKeeps(x, p, t, e);
    case Read(p, c, e) => ReadKeeps(x, p, c, e);
    case Mourn(p, t) => MournKeeps(x, p, t);
    case Serve(c, h, e, launch, endError) => ServeKeeps(x, Next(x, a), c, h, e, launch, endError);
    case Bereave(g, endError) => BereaveKeeps(x, Next(x, a), g, endError);
    case Resolve(i, n, outcome, sendError, endError) => ResolveKeeps(x, Next(x, a), i, n, outcome, sendError, endError);
    case Other(l) => OtherKeeps(x, l);
  }

  lemma InitialKeeps(services: set<ServiceId>)
    ensures WorldGood(InitialWorld(services))
  {
    NetworkTheorems.InitialGood(services);
  }

  lemma {:induction false} AfterKeeps(x: World, acts: seq<Act>)
    requires CanAll(x, acts) && WorldGood(x)
    ensures WorldGood(After(x, acts))
    decreases |acts|
  {
    hide WorldGood, Next, Can;
    if acts != [] {
      NextKeeps(x, acts[0]);
      AfterKeeps(Next(x, acts[0]), acts[1..]);
    }
  }
}
