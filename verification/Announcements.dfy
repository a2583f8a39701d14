/** What the connections' coming and going tells the gateways, over every run: each that a
    process or the daemon had when its connection was made or lost is told, in whatever
    order and whatever handlers do meanwhile, or was destroyed before its turn. */
module Announcements {
  import opened IpcTypes
  import opened Network
  import opened Projection
  import opened NetworkTheorems
  import opened RouterGuarantees
  import opened Hearing
  import opened ChannelEnds
  import C = ClientRouterSpec
  import S = ServerRouterSpec

  // ---- A process loses its connection.

  /** Gateway `t` is still due to be told, or was told, or was destroyed before its turn. */
  ghost predicate DueOrTold(s: Sys, p: Pid, t: Tag, before: seq<Event>) {
    && p in s.hosts && t in s.hosts[p].router.gateways
    && t !in s.hosts[p].router.table && t !in s.hosts[p].router.greeting
    && var v := Gateway(s, p, t);
       if t in s.hosts[p].router.mourning then v.events == before
       else v.events == before + [Completed(DISCONNECTED)] || (v.events == before && !v.alive)
  }

  lemma DueStays(s: Sys, l: Label, p: Pid, t: Tag)
    requires Enabled(s, l) && p in s.hosts && HostFits(s.hosts[p]) && t in s.hosts[p].router.mourning
    requires t in s.hosts[p].router.gateways && t !in s.hosts[p].router.table && t !in s.hosts[p].router.greeting
    requires l != CMourn(p, t) && !ByDaemon(l)
    ensures var s' := Step(s, l);
            && p in s'.hosts && t in s'.hosts[p].router.gateways && t in s'.hosts[p].router.mourning
            && Gateway(s', p, t).events == Gateway(s, p, t).events
  {
    hide C.Receive, C.ReceiveError, C.PipeDisconnected, C.PipeConnected;
  }

  /** A gateway that is not registered stays so. */
  lemma UnlistedStays(s: Sys, l: Label, p: Pid, t: Tag)
    requires Enabled(s, l) && p in s.hosts && HostFits(s.hosts[p]) && !ByDaemon(l)
    requires t in s.hosts[p].router.gateways && t !in s.hosts[p].router.table && t !in s.hosts[p].router.greeting
    ensures var s' := Step(s, l);
            p in s'.hosts && t !in s'.hosts[p].router.table && t !in s'.hosts[p].router.greeting
  {
    if l.CReceive? || l.CPipeDown? || l.CPipeUp? || l.Launch? || l.Accept? {
      UnlistedByPipe(s, l, p, t);
    } else {
      UnlistedByUser(s, l, p, t);
    }
  }

  lemma UnlistedByUser(s: Sys, l: Label, p: Pid, t: Tag)
    requires Enabled(s, l) && p in s.hosts && HostFits(s.hosts[p])
    requires l.CMake? || l.CSend? || l.CComplete? || l.CSubscribe? || l.CDispose? || l.CGreet? || l.CMourn?
    requires t in s.hosts[p].router.gateways && t !in s.hosts[p].router.table && t !in s.hosts[p].router.greeting
    ensures var s' := Step(s, l);
            p in s'.hosts && t !in s'.hosts[p].router.table && t !in s'.hosts[p].router.greeting
  {
  }

  lemma UnlistedByPipe(s: Sys, l: Label, p: Pid, t: Tag)
    requires Enabled(s, l) && p in s.hosts
    requires l.CReceive? || l.CPipeDown? || l.CPipeUp? || l.Launch? || l.Accept?
    requires t !in s.hosts[p].router.table && t !in s.hosts[p].router.greeting
    ensures var s' := Step(s, l);
            p in s'.hosts && t !in s'.hosts[p].router.table && t !in s'.hosts[p].router.greeting
  {
    hide C.Receive, C.ReceiveError;
    if l.CReceive? && l.p == p { UnlistedByRead(s.hosts[p].router, s.server.Outbox(l.c)[s.hosts[p].taken], t); }
  }

  lemma UnlistedByRead(r: C.ClientState, f: Frame, t: Tag)
    requires t !in r.table && t !in r.greeting
    ensures t !in C.Receive(r, f).table && t !in C.Receive(r, f).greeting
    ensures C.Receive(r, f).mourning == r.mourning
  {
  }

  lemma TurnTells(s: Sys, p: Pid, t: Tag)
    requires Enabled(s, CMourn(p, t))
    ensures var s' := Step(s, CMourn(p, t));
            && p in s'.hosts && t in s'.hosts[p].router.gateways && t !in s'.hosts[p].router.mourning
            && Gateway(s', p, t).alive == Gateway(s, p, t).alive
            && Gateway(s', p, t).events ==
               Gateway(s, p, t).events + if Gateway(s, p, t).alive then [Completed(DISCONNECTED)] else []
  {
  }

  /** The dead stay dead, and a gateway that was not due does not become so. */
  lemma NeverAgain(s: Sys, l: Label, p: Pid, t: Tag)
    requires Enabled(s, l) && p in s.hosts && HostFits(s.hosts[p]) && !ByDaemon(l)
    requires t in s.hosts[p].router.gateways && t !in s.hosts[p].router.table
    requires t !in s.hosts[p].router.mourning
    ensures var s' := Step(s, l);
            && p in s'.hosts && t in s'.hosts[p].router.gateways && t !in s'.hosts[p].router.mourning
            && (!Gateway(s, p, t).alive ==> !Gateway(s', p, t).alive)
  {
    if l.CReceive? || l.CPipeDown? || l.CPipeUp? || l.Launch? || l.Accept? {
      NeverAgainByPipe(s, l, p, t);
    } else {
      NeverAgainByUser(s, l, p, t);
    }
  }

  lemma NeverAgainByUser(s: Sys, l: Label, p: Pid, t: Tag)
    requires Enabled(s, l) && p in s.hosts && HostFits(s.hosts[p])
    requires l.CMake? || l.CSend? || l.CComplete? || l.CSubscribe? || l.CDispose? || l.CGreet? || l.CMourn?
    requires t in s.hosts[p].router.gateways && t !in s.hosts[p].router.mourning
    ensures var s' := Step(s, l);
            && p in s'.hosts && t in s'.hosts[p].router.gateways && t !in s'.hosts[p].router.mourning
            && (!Gateway(s, p, t).alive ==> !Gateway(s', p, t).alive)
  {
  }

  lemma NeverAgainByPipe(s: Sys, l: Label, p: Pid, t: Tag)
    requires Enabled(s, l) && p in s.hosts
    requires l.CReceive? || l.CPipeDown? || l.CPipeUp? || l.Launch? || l.Accept?
    requires t in s.hosts[p].router.gateways && t !in s.hosts[p].router.table
    requires t !in s.hosts[p].router.mourning
    ensures var s' := Step(s, l);
            && p in s'.hosts && t in s'.hosts[p].router.gateways && t !in s'.hosts[p].router.mourning
            && (!Gateway(s, p, t).alive ==> !Gateway(s', p, t).alive)
  {
    hide C.Receive, C.ReceiveError;
    if l.CReceive? && l.p == p {
      var f := s.server.Outbox(l.c)[s.hosts[p].taken];
      QuietReceive(s.hosts[p].router, f, t);
      TableShrinks(s.hosts[p].router, f, t);
    }
  }

  lemma TableShrinks(r: C.ClientState, f: Frame, t: Tag)
    requires t !in r.table
    ensures t !in C.Receive(r, f).table && C.Receive(r, f).mourning == r.mourning
  {
  }

  lemma StepTells(s: Sys, l: Label, p: Pid, t: Tag, before: seq<Event>)
    requires Inv(s) && Enabled(s, l) && DueOrTold(s, p, t, before)
    ensures DueOrTold(Step(s, l), p, t, before)
  {
    hide Inv, Step, Enabled, HostFits;
    HandshakeAt(s, p);
    if ByDaemon(l) {
      DaemonStepLeavesProcesses(s, l);
    } else {
      UnlistedStays(s, l, p, t);
      if t !in s.hosts[p].router.mourning {
        QuietStep(s, l, p, t);
        NeverAgain(s, l, p, t);
      } else if l == CMourn(p, t) {
        TurnTells(s, p, t);
      } else {
        DueStays(s, l, p, t);
      }
    }
  }

  lemma {:induction false} RunTells(s: Sys, labels: seq<Label>, p: Pid, t: Tag, before: seq<Event>)
    requires Inv(s) && Allowed(s, labels) && DueOrTold(s, p, t, before)
    ensures Inv(Run(s, labels)) && DueOrTold(Run(s, labels), p, t, before)
    decreases |labels|
  {
    hide Inv, Step, Enabled, DueOrTold;
    if labels != [] {
      StepTells(s, labels[0], p, t, before);
      StepKeeps(s, labels[0]);
      RunTells(Step(s, labels[0]), labels[1..], p, t, before);
    }
  }

  /** This step loses the connection of `p`: its socket is closed from here on. */
  predicate Loses(s: Sys, l: Label, p: Pid)
    requires Enabled(s, l) && p in s.hosts
  {
    !s.hosts[p].pipe.Closed? && p in Step(s, l).hosts && Step(s, l).hosts[p].pipe.Closed?
  }

  /** The step is the process's read of the end of this very channel. */
  predicate ReadsEndOf(s: Sys, l: Label, p: Pid, t: Tag)
    requires Enabled(s, l)
  {
    l.CReceive? && l.p == p && s.server.Outbox(l.c)[s.hosts[p].taken].ChannelEnd? &&
    s.server.Outbox(l.c)[s.hosts[p].taken].tag == t
  }

  lemma LossMakesDue(s: Sys, l: Label, p: Pid, t: Tag)
    requires Enabled(s, l) && p in s.hosts && Loses(s, l, p) && !ReadsEndOf(s, l, p, t)
    requires s.hosts[p].router.connected && t in s.hosts[p].router.table && s.hosts[p].router.Usable(t)
    ensures l == CPipeDown(p) || (l.CReceive? && l.p == p)
    ensures var s' := Step(s, l);
            && t in s'.hosts[p].router.gateways && t in s'.hosts[p].router.mourning
            && DueOrTold(s', p, t, Gateway(s', p, t).events)
  {
    if l.CReceive? && l.p == p {
      ReadLossMakesDue(s, l, p, t);
    } else if l != CPipeDown(p) {
      StaysOpen(s, l, p);
    } else {
      NotGreeted(s.hosts[p].router);
    }
  }

  lemma NotGreeted(r: C.ClientState)
    requires r.Idle() && r.connected
    ensures C.PipeDisconnected(r).mourning == r.table && C.PipeDisconnected(r).greeting == {}
    ensures C.PipeDisconnected(r).table == {} && C.PipeDisconnected(r).gateways == r.gateways
  {
  }

  lemma StaysOpen(s: Sys, l: Label, p: Pid)
    requires Enabled(s, l) && p in s.hosts && !s.hosts[p].pipe.Closed?
    requires l != CPipeDown(p) && !(l.CReceive? && l.p == p)
    ensures p in Step(s, l).hosts && !Step(s, l).hosts[p].pipe.Closed?
  {
    if ByDaemon(l) { DaemonStepLeavesProcesses(s, l); }
  }

  lemma ReadLossMakesDue(s: Sys, l: Label, p: Pid, t: Tag)
    requires Enabled(s, l) && l.CReceive? && l.p == p && Loses(s, l, p) && !ReadsEndOf(s, l, p, t)
    requires s.hosts[p].router.connected && t in s.hosts[p].router.table && s.hosts[p].router.Usable(t)
    ensures var s' := Step(s, l);
            && t in s'.hosts[p].router.gateways && t in s'.hosts[p].router.mourning
            && t !in s'.hosts[p].router.table && t !in s'.hosts[p].router.greeting
  {
    hide C.ReceiveError, C.Receive, C.PipeDisconnected;
    var f := s.server.Outbox(l.c)[s.hosts[p].taken];
    ReadKeepsListed(s.hosts[p].router, f, t);
    NotGreeted(C.Receive(s.hosts[p].router, f));
  }

  lemma ReadKeepsListed(r: C.ClientState, f: Frame, t: Tag)
    requires r.Idle() && r.connected && t in r.table && r.Usable(t) && !(f.ChannelEnd? && f.tag == t)
    ensures var r' := C.Receive(r, f); r'.Idle() && r'.connected && t in r'.table && t in r'.gateways
  {
  }

  /** A standing connection is lost, for whatever reason. From then on a gateway that lived
      and was not completed is due to be told, and can be; and when it is due no more it was
      told, last of all, that the connection is lost, or it was destroyed before its turn. */
  lemma LossIsTold(services: set<ServiceId>, s: Sys, l: Label, labels: seq<Label>, p: Pid, t: Tag)
    requires Reachable(services, s) && Enabled(s, l) && Allowed(Step(s, l), labels)
    requires Stands(s, p) && Loses(s, l, p)
    requires s.hosts[p].router.Usable(t) && !Gateway(s, p, t).Finished() && !ReadsEndOf(s, l, p, t)
    ensures var s', s'' := Step(s, l), Run(Step(s, l), labels);
            && t in s'.hosts[p].router.mourning && t in s'.hosts[p].router.gateways
            && p in s''.hosts && t in s''.hosts[p].router.gateways
            && var told, v := Gateway(s', p, t).events, Gateway(s'', p, t);
               if t in s''.hosts[p].router.mourning then v.events == told && Enabled(s'', CMourn(p, t))
               else v.events == told + [Completed(DISCONNECTED)] || (v.events == told && !v.alive)
  {
    hide Inv, AllHear, Reachable, Allowed, Run, Step, Loses, ReadsEndOf;
    ReachableHears(services, s);
    ConnectedIsStanding(services, s, p);
    LivingIsListed(s, p, t);
    LossMakesDue(s, l, p, t);
    StepKeeps(s, l);
    RunTells(Step(s, l), labels, p, t, Gateway(Step(s, l), p, t).events);
  }

  // ---- The daemon loses a client.

  ghost predicate DueOrToldAtDaemon(s: Sys, g: S.Ref, before: seq<Event>) {
    && s.server.Exists(g) && g.endpoint.clientId in s.sockets && g.endpoint.clientId !in s.contexts
    && var v := s.server.At(g);
       if g in s.server.mourning then v.events == before
       else v.events == before + [Completed(DISCONNECTED)] || (v.events == before && !v.alive)
  }

  lemma ClosedStays(s: Sys, l: Label, c: ClientId)
    requires Inv(s) && Enabled(s, l) && c in s.sockets && c !in s.contexts
    ensures c in Step(s, l).sockets && c !in Step(s, l).contexts
    ensures forall t :: s.server.Registered(S.Endpoint(t, c)).None?
  {
    hide ProcessGood, C.Send, C.Dispose, C.Subscribe, C.Greet, C.Mourn, C.Complete, C.MakeGateway, C.Receive;
    hide C.PipeDisconnected, C.PipeConnected, C.ReceiveError;
    hide S.Send, S.Dispose, S.Subscribe, S.Mourn, S.Complete, S.Receive, S.PipeDisconnected, S.ReceiveError;
  }

  lemma DueStaysAtDaemon(s: Sys, l: Label, g: S.Ref)
    requires Enabled(s, l) && s.server.Exists(g) && g in s.server.mourning && l != SMourn(g) && ByDaemon(l)
    requires s.server.Registered(g.endpoint).None?
    ensures var r' := Step(s, l).server;
            r'.Exists(g) && g in r'.mourning && r'.At(g).events == s.server.At(g).events
  {
    if l.SMourn? {
      OtherTurnSpares(s, l.g, g);
    } else {
      hide Step;
      UserSpares(s, l, g);
    }
  }

  lemma OtherTurnSpares(s: Sys, h: S.Ref, g: S.Ref)
    requires Enabled(s, SMourn(h)) && s.server.Exists(g) && g in s.server.mourning && h != g
    ensures var r' := Step(s, SMourn(h)).server;
            r'.Exists(g) && g in r'.mourning && r'.At(g).events == s.server.At(g).events
  {
  }

  lemma UserSpares(s: Sys, l: Label, g: S.Ref)
    requires Enabled(s, l) && (l.SSend? || l.SComplete? || l.SSubscribe? || l.SDispose?)
    requires s.server.Exists(g) && s.server.Registered(g.endpoint).None?
    ensures var r' := Step(s, l).server; r'.Exists(g) && r'.mourning == s.server.mourning
    ensures Step(s, l).server.At(g).events == s.server.At(g).events
  {
    hide Step;
    QuietDaemonUser(s, l, g);
    UserLeavesDue(s, l);
  }

  lemma UserLeavesDue(s: Sys, l: Label)
    requires Enabled(s, l) && (l.SSend? || l.SComplete? || l.SSubscribe? || l.SDispose?)
    ensures Step(s, l).server.mourning == s.server.mourning
  {
  }

  lemma TurnTellsAtDaemon(s: Sys, g: S.Ref)
    requires Enabled(s, SMourn(g)) && s.server.Exists(g)
    ensures var r' := Step(s, SMourn(g)).server;
            && r'.Exists(g) && g !in r'.mourning && r'.At(g).alive == s.server.At(g).alive
            && r'.At(g).events == s.server.At(g).events + if s.server.At(g).alive then [Completed(DISCONNECTED)] else []
  {
  }

  lemma NeverAgainAtDaemon(s: Sys, l: Label, g: S.Ref)
    requires Enabled(s, l) && s.server.Exists(g) && g !in s.server.mourning && ByDaemon(l)
    requires s.server.Registered(g.endpoint).None?
    ensures var r' := Step(s, l).server;
            r'.Exists(g) && g !in r'.mourning && (!s.server.At(g).alive ==> !r'.At(g).alive)
  {
    if l.SReceive? || l.SPipeDown? {
      NeverAgainByPipeAtDaemon(s, l, g);
    } else {
      NeverAgainByUserAtDaemon(s, l, g);
    }
  }

  lemma NeverAgainByUserAtDaemon(s: Sys, l: Label, g: S.Ref)
    requires Enabled(s, l) && s.server.Exists(g) && g !in s.server.mourning
    requires l.SSend? || l.SComplete? || l.SSubscribe? || l.SDispose? || l.SMourn?
    ensures var r' := Step(s, l).server;
            r'.Exists(g) && g !in r'.mourning && (!s.server.At(g).alive ==> !r'.At(g).alive)
  {
    if l.SMourn? {
      TurnRevivesNone(s, l.g, g);
    } else {
      hide Step;
      UserLeavesDue(s, l);
      UserRevivesNone(s, l, g);
    }
  }

  lemma TurnRevivesNone(s: Sys, h: S.Ref, g: S.Ref)
    requires Enabled(s, SMourn(h)) && s.server.Exists(g) && g !in s.server.mourning
    ensures var r' := Step(s, SMourn(h)).server;
            r'.Exists(g) && g !in r'.mourning && (!s.server.At(g).alive ==> !r'.At(g).alive)
  {
  }

  lemma UserRevivesNone(s: Sys, l: Label, g: S.Ref)
    requires Enabled(s, l) && s.server.Exists(g)
    requires l.SSend? || l.SComplete? || l.SSubscribe? || l.SDispose?
    ensures Step(s, l).server.Exists(g) && (!s.server.At(g).alive ==> !Step(s, l).server.At(g).alive)
  {
    hide Step;
    if l.SSend? || l.SComplete? { SendRevivesNone(s, l, g); } else { DisposeRevivesNone(s, l, g); }
  }

  lemma SendRevivesNone(s: Sys, l: Label, g: S.Ref)
    requires Enabled(s, l) && s.server.Exists(g) && (l.SSend? || l.SComplete?)
    ensures Step(s, l).server.Exists(g) && Step(s, l).server.At(g).alive == s.server.At(g).alive
  {
  }

  lemma DisposeRevivesNone(s: Sys, l: Label, g: S.Ref)
    requires Enabled(s, l) && s.server.Exists(g) && (l.SSubscribe? || l.SDispose?)
    ensures Step(s, l).server.Exists(g) && (!s.server.At(g).alive ==> !Step(s, l).server.At(g).alive)
  {
  }

  lemma NeverAgainByPipeAtDaemon(s: Sys, l: Label, g: S.Ref)
    requires Enabled(s, l) && s.server.Exists(g) && g !in s.server.mourning && (l.SReceive? || l.SPipeDown?)
    requires s.server.Registered(g.endpoint).None?
    ensures var r' := Step(s, l).server;
            r'.Exists(g) && g !in r'.mourning && (!s.server.At(g).alive ==> !r'.At(g).alive)
  {
    hide S.Receive, S.ReceiveError, S.PipeDisconnected;
    LossSpares(s.server, l.c, g);
    if l.SReceive? {
      QuietDaemonReceive(s.server, l.c, s.Next(l.c), l.pipeError, g);
      ReadRegistersNoOther(s.server, l.c, s.Next(l.c), l.pipeError, g);
      LossSpares(S.Receive(s.server, l.c, s.Next(l.c), l.pipeError), l.c, g);
    }
  }

  lemma LossSpares(r: S.ServerState, c: ClientId, g: S.Ref)
    requires r.Exists(g) && r.Registered(g.endpoint) != Some(g.ordinal)
    ensures var r' := S.PipeDisconnected(r, c);
            r'.Objects(g.endpoint) == r.Objects(g.endpoint) && (g in r'.mourning <==> g in r.mourning)
  {
  }

  lemma ReadRegistersNoOther(r: S.ServerState, c: ClientId, f: Frame, pipeError: int, g: S.Ref)
    requires r.Exists(g) && r.Registered(g.endpoint).None?
    ensures S.Receive(r, c, f, pipeError).Registered(g.endpoint) != Some(g.ordinal)
    ensures S.Receive(r, c, f, pipeError).mourning == r.mourning
  {
  }

  lemma StepTellsAtDaemon(s: Sys, l: Label, g: S.Ref, before: seq<Event>)
    requires Inv(s) && Enabled(s, l) && DueOrToldAtDaemon(s, g, before)
    ensures DueOrToldAtDaemon(Step(s, l), g, before)
  {
    hide Inv, Step, Enabled;
    ClosedStays(s, l, g.endpoint.clientId);
    assert s.server.Registered(S.Endpoint(g.endpoint.tag, g.endpoint.clientId)).None?;
    if !ByDaemon(l) {
      ProcessStepLeavesDaemon(s, l);
    } else if g !in s.server.mourning {
      QuietDaemon(s, l, g);
      NeverAgainAtDaemon(s, l, g);
    } else if l == SMourn(g) {
      TurnTellsAtDaemon(s, g);
    } else {
      DueStaysAtDaemon(s, l, g);
    }
  }

  lemma {:induction false} RunTellsAtDaemon(s: Sys, labels: seq<Label>, g: S.Ref, before: seq<Event>)
    requires Inv(s) && Allowed(s, labels) && DueOrToldAtDaemon(s, g, before)
    ensures DueOrToldAtDaemon(Run(s, labels), g, before)
    decreases |labels|
  {
    hide Inv, Step, Enabled, DueOrToldAtDaemon;
    if labels != [] {
      StepTellsAtDaemon(s, labels[0], g, before);
      StepKeeps(s, labels[0]);
      RunTellsAtDaemon(Step(s, labels[0]), labels[1..], g, before);
    }
  }

  /** This step drops client `c`: its context is erased. */
  predicate Drops(s: Sys, l: Label, c: ClientId)
    requires Enabled(s, l)
  {
    c in s.contexts && c !in Step(s, l).contexts
  }

  /** The step is the daemon's read of the end of this very channel. */
  predicate DaemonReadsEndOf(s: Sys, l: Label, g: S.Ref)
    requires Enabled(s, l)
  {
    l.SReceive? && l.c == g.endpoint.clientId && s.Next(l.c).ChannelEnd? && s.Next(l.c).tag == g.endpoint.tag
  }

  lemma DropMakesDue(s: Sys, l: Label, g: S.Ref)
    requires Enabled(s, l) && Drops(s, l, g.endpoint.clientId) && !DaemonReadsEndOf(s, l, g)
    requires s.server.Usable(g) && s.server.Registered(g.endpoint) == Some(g.ordinal)
    requires g.endpoint.clientId in s.sockets
    ensures var s' := Step(s, l);
            && g.endpoint.clientId in s'.sockets && g.endpoint.clientId !in s'.contexts
            && s'.server.Exists(g) && g in s'.server.mourning
  {
    var c := g.endpoint.clientId;
    DropIs(s, l, c);
    hide S.Receive, S.ReceiveError, S.PipeDisconnected;
    if l.SReceive? {
      ReadKeepsRegistered(s.server, c, s.Next(c), l.pipeError, g);
      LossNames(S.Receive(s.server, c, s.Next(c), l.pipeError), g);
    } else {
      LossNames(s.server, g);
    }
  }

  lemma DropIs(s: Sys, l: Label, c: ClientId)
    requires Enabled(s, l) && Drops(s, l, c)
    ensures l == SPipeDown(c) || (l.SReceive? && l.c == c)
  {
    hide C.Send, C.Dispose, C.Subscribe, C.Greet, C.Mourn, C.Complete, C.MakeGateway, C.Receive;
    hide C.PipeDisconnected, C.PipeConnected, C.ReceiveError;
    hide S.Send, S.Dispose, S.Subscribe, S.Mourn, S.Complete, S.Receive, S.PipeDisconnected, S.ReceiveError;
  }

  lemma ReadKeepsRegistered(r: S.ServerState, c: ClientId, f: Frame, pipeError: int, g: S.Ref)
    requires r.Usable(g) && r.Registered(g.endpoint) == Some(g.ordinal) && g.endpoint.clientId == c
    requires !(f.ChannelEnd? && f.tag == g.endpoint.tag)
    ensures var r' := S.Receive(r, c, f, pipeError);
            r'.Exists(g) && r'.Registered(g.endpoint) == Some(g.ordinal)
  {
  }

  lemma LossNames(r: S.ServerState, g: S.Ref)
    requires r.Exists(g) && r.Registered(g.endpoint) == Some(g.ordinal)
    ensures var r' := S.PipeDisconnected(r, g.endpoint.clientId); r'.Exists(g) && g in r'.mourning
  {
  }

  /** The same of the daemon's gateways when a client is dropped, for whatever reason. */
  lemma LossIsToldAtDaemon(services: set<ServiceId>, s: Sys, l: Label, labels: seq<Label>, g: S.Ref)
    requires Reachable(services, s) && Enabled(s, l) && Allowed(Step(s, l), labels)
    requires Drops(s, l, g.endpoint.clientId)
    requires s.server.Usable(g) && !s.server.At(g).Finished() && !DaemonReadsEndOf(s, l, g)
    ensures var s', s'' := Step(s, l), Run(Step(s, l), labels);
            && s'.server.Exists(g) && g in s'.server.mourning && s''.server.Exists(g)
            && var told, v := s'.server.At(g).events, s''.server.At(g);
               if g in s''.server.mourning then v.events == told && Enabled(s'', SMourn(g))
               else v.events == told + [Completed(DISCONNECTED)] || (v.events == told && !v.alive)
  {
    hide Inv, AllHear, Reachable, Allowed, Run, Step, DaemonReadsEndOf;
    ReachableHears(services, s);
    LivingIsRegistered(s, g);
    OpenHasSocket(s, g.endpoint.clientId);
    DropMakesDue(s, l, g);
    StepKeeps(s, l);
    RunTellsAtDaemon(Step(s, l), labels, g, Step(s, l).server.At(g).events);
  }

  lemma OpenHasSocket(s: Sys, c: ClientId)
    requires Inv(s) && c in s.contexts
    ensures c in s.sockets
  {
    hide ProcessGood;
  }

  // ---- A process is connected.

  /** Gateway `t` is still due to hear of the connection, or heard of it next. */
  ghost predicate DueToGreet(s: Sys, p: Pid, t: Tag, before: seq<Event>) {
    && p in s.hosts && t in s.hosts[p].router.gateways
    && var events := Gateway(s, p, t).events;
       || (t in s.hosts[p].router.greeting && events == before)
       || (|events| > |before| && before <= events && events[|before|] == Connected)
  }

  lemma GreetStays(s: Sys, l: Label, p: Pid, t: Tag)
    requires Enabled(s, l) && p in s.hosts && HostFits(s.hosts[p]) && t in s.hosts[p].router.greeting && !ByDaemon(l)
    requires t !in s.hosts[p].router.mourning
    ensures p in Step(s, l).hosts && t in Step(s, l).hosts[p].router.gateways
    ensures var s', events := Step(s, l), Gateway(s, p, t).events;
            || (t in s'.hosts[p].router.greeting && Gateway(s', p, t).events == events)
            || Gateway(s', p, t).events == events + [Connected]
  {
    hide C.Receive, C.ReceiveError, C.PipeDisconnected, C.PipeConnected;
  }

  lemma NotBothDue(s: Sys, p: Pid, t: Tag)
    requires Inv(s) && p in s.hosts && t in s.hosts[p].router.greeting
    ensures t !in s.hosts[p].router.mourning
  {
    hide Inv;
    ChannelOf(s, p, t);
    GoodNear(ChanOf(s, p, t));
  }

  /** What a gateway was told is never taken back. */
  lemma EventsGrow(s: Sys, l: Label, p: Pid, t: Tag)
    requires Enabled(s, l) && p in s.hosts && HostFits(s.hosts[p]) && t in s.hosts[p].router.gateways && !ByDaemon(l)
    ensures p in Step(s, l).hosts && t in Step(s, l).hosts[p].router.gateways
    ensures Gateway(s, p, t).events <= Gateway(Step(s, l), p, t).events
  {
    if l.CReceive? || l.CPipeDown? || l.CPipeUp? || l.Launch? || l.Accept? {
      EventsGrowByPipe(s, l, p, t);
    } else {
      EventsGrowByUser(s, l, p, t);
    }
  }

  lemma EventsGrowByUser(s: Sys, l: Label, p: Pid, t: Tag)
    requires Enabled(s, l) && p in s.hosts && HostFits(s.hosts[p]) && t in s.hosts[p].router.gateways
    requires l.CMake? || l.CSend? || l.CComplete? || l.CSubscribe? || l.CDispose? || l.CGreet? || l.CMourn?
    ensures p in Step(s, l).hosts && t in Step(s, l).hosts[p].router.gateways
    ensures Gateway(s, p, t).events <= Gateway(Step(s, l), p, t).events
  {
  }

  lemma EventsGrowByPipe(s: Sys, l: Label, p: Pid, t: Tag)
    requires Enabled(s, l) && p in s.hosts && t in s.hosts[p].router.gateways
    requires l.CReceive? || l.CPipeDown? || l.CPipeUp? || l.Launch? || l.Accept?
    ensures p in Step(s, l).hosts && t in Step(s, l).hosts[p].router.gateways
    ensures Gateway(s, p, t).events <= Gateway(Step(s, l), p, t).events
  {
    hide C.Receive, C.ReceiveError, C.PipeDisconnected, C.PipeConnected;
    LinkTellsNone(s.hosts[p].router, if l.CPipeUp? then l.pipeError else SUCCESS);
    if l.CReceive? && l.p == p { LinkTellsNone(HostTakes(s, p, l.c).hosts[p].router, SUCCESS); }
    if l.CReceive? && l.p == p { EventsGrowByRead(s.hosts[p].router, s.server.Outbox(l.c)[s.hosts[p].taken], t); }
  }

  lemma LinkTellsNone(r: C.ClientState, pipeError: int)
    ensures C.PipeDisconnected(r).gateways == r.gateways && C.PipeConnected(r, pipeError).gateways == r.gateways
  {
  }

  lemma EventsGrowByRead(r: C.ClientState, f: Frame, t: Tag)
    requires t in r.gateways
    ensures t in C.Receive(r, f).gateways && r.gateways[t].events <= C.Receive(r, f).gateways[t].events
  {
  }

  lemma StepGreets(s: Sys, l: Label, p: Pid, t: Tag, before: seq<Event>)
    requires Inv(s) && Enabled(s, l) && DueToGreet(s, p, t, before)
    ensures DueToGreet(Step(s, l), p, t, before)
  {
    hide Inv, Step, Enabled, HostFits;
    HandshakeAt(s, p);
    if ByDaemon(l) {
      DaemonStepLeavesProcesses(s, l);
    } else if t in s.hosts[p].router.greeting && Gateway(s, p, t).events == before {
      NotBothDue(s, p, t);
      GreetStays(s, l, p, t);
    } else {
      EventsGrow(s, l, p, t);
    }
  }

  lemma {:induction false} RunGreets(s: Sys, labels: seq<Label>, p: Pid, t: Tag, before: seq<Event>)
    requires Inv(s) && Allowed(s, labels) && DueToGreet(s, p, t, before)
    ensures DueToGreet(Run(s, labels), p, t, before)
    decreases |labels|
  {
    hide Inv, Step, Enabled, DueToGreet;
    if labels != [] {
      StepGreets(s, labels[0], p, t, before);
      StepKeeps(s, labels[0]);
      RunGreets(Step(s, labels[0]), labels[1..], p, t, before);
    }
  }

  lemma ReplyGreets(s: Sys, l: Label, t: Tag)
    requires Enabled(s, l) && l.CReceive? && s.server.Outbox(l.c)[s.hosts[l.p].taken].Connect?
    requires !s.hosts[l.p].router.connected && t in s.hosts[l.p].router.table && s.hosts[l.p].router.Usable(t)
    ensures var s' := Step(s, l);
            && l.p in s'.hosts && t in s'.hosts[l.p].router.greeting && t in s'.hosts[l.p].router.gateways
            && Gateway(s', l.p, t).events == Gateway(s, l.p, t).events
  {
  }

  lemma NoneCompletedYet(s: Sys, p: Pid, t: Tag)
    requires Inv(s) && AllHear(s) && p in s.hosts && s.hosts[p].taken == 0 && !s.hosts[p].pipe.Closed?
    requires s.hosts[p].router.Usable(t)
    ensures !Gateway(s, p, t).Finished()
  {
    hide Inv, AllHear;
    ChannelHears(s, p, t);
    assert Down(s, p)[..0] == [];
    assert OnTag([], t) == [];
  }

  /** The process reads its first frame, the reply. From then on every gateway that lived is
      due to hear of it, and can; and when it is due no more, that is what it heard next,
      before anything else. */
  lemma ReplyIsTold(services: set<ServiceId>, s: Sys, l: Label, labels: seq<Label>, t: Tag)
    requires Reachable(services, s) && Enabled(s, l) && l.CReceive? && Allowed(Step(s, l), labels)
    requires s.hosts[l.p].taken == 0 && s.hosts[l.p].router.Usable(t)
    ensures var s'', before := Run(Step(s, l), labels), Gateway(s, l.p, t).events;
            && l.p in s''.hosts && t in s''.hosts[l.p].router.gateways
            && var events := Gateway(s'', l.p, t).events;
               || (Enabled(s'', CGreet(l.p, t)) && events == before)
               || (|events| > |before| && before <= events && events[|before|] == Connected)
  {
    hide Inv, AllHear, Reachable, Allowed, Run, Step;
    ReachableHears(services, s);
    ConnectedIsStanding(services, s, l.p);
    NoneCompletedYet(s, l.p, t);
    LivingIsListed(s, l.p, t);
    HandshakeAt(s, l.p);
    IdMatches(s, l.p, l.c);
    ReplyGreets(s, l, t);
    StepKeeps(s, l);
    RunGreets(Step(s, l), labels, l.p, t, Gateway(s, l.p, t).events);
  }

  // ---- The loops of the routers.

  /** The loop that follows a lost connection, whatever its order and what handlers do: it
      comes to every gateway that was in the table, and tells it if it still exists. */
  lemma LoopTellsAll(r: C.ClientState, order: seq<Tag>, reactions: map<Tag, seq<C.Call>>, t: Tag)
    requires C.TagsFit(r) && r.connected && r.mourning == {} && r.table <= r.gateways.Keys && t in r.table
    requires C.Once(order) && (set u | u in order) == C.PipeDisconnected(r).mourning
    ensures exists i :: 0 <= i < |order| && order[i] == t
    ensures forall i :: 0 <= i < |order| && order[i] == t ==>
              var r' := C.MournLoop(C.PipeDisconnected(r), order, reactions);
              && t in r'.gateways
              && r'.gateways[t].events ==
                 r.gateways[t].events +
                 if C.MournLoop(C.PipeDisconnected(r), order[..i], reactions).Usable(t)
                 then [Completed(DISCONNECTED)] else []
  {
    hide C.MournLoop;
    var lost := C.PipeDisconnected(r);
    assert t in (set u | u in order);
    C.MournsEvery(lost, order, reactions, t);
  }

  lemma LoopTellsAllAtDaemon(r: S.ServerState, c: ClientId, order: seq<S.Ref>,
                             reactions: map<S.Ref, seq<S.Call>>, g: S.Ref)
    requires r.Exists(g) && r.Registered(g.endpoint) == Some(g.ordinal) && g.endpoint.clientId == c
    requires r.mourning == {} && S.Once(order) && (set h | h in order) == S.PipeDisconnected(r, c).mourning
    ensures exists i :: 0 <= i < |order| && order[i] == g
    ensures forall i :: 0 <= i < |order| && order[i] == g ==>
              var r' := S.MournLoop(S.PipeDisconnected(r, c), order, reactions);
              && r'.Exists(g)
              && r'.At(g).events ==
                 r.At(g).events +
                 if S.MournLoop(S.PipeDisconnected(r, c), order[..i], reactions).Usable(g)
                 then [Completed(DISCONNECTED)] else []
  {
    hide S.MournLoop;
    var lost := S.PipeDisconnected(r, c);
    LossNames(r, g);
    assert g in (set h | h in order);
    assert lost.Objects(g.endpoint) == r.Objects(g.endpoint);
    S.MournsEvery(lost, order, reactions, g);
  }
}
