/** How a channel ends, over every run: the gateway that is destroyed says so on the stream,
    with the code it was completed with, and the gateway at the other end is told. */
module ChannelEnds {
  import opened IpcTypes
  import opened Channel
  import opened Network
  import opened Projection
  import opened NetworkTheorems
  import opened RouterGuarantees
  import opened Hearing
  import opened Numbering
  import opened Wires
  import C = ClientRouterSpec
  import S = ServerRouterSpec

  // ---- An end that is read is heard.

  lemma {:induction false} OrderlyPrefix(a: seq<Frame>, b: seq<Frame>, t: Tag, bound: nat)
    requires Orderly(b, t, bound) && a <= b
    ensures Orderly(a, t, bound)
  {
    forall i | 0 <= i < |a| ensures a[i] == b[i] {}
  }

  lemma EndIsSeen(log: seq<Frame>, n: nat, t: Tag, bound: nat, i: nat)
    requires Orderly(OnTag(log, t), t, bound) && i < n <= |log| && log[i].ChannelEnd? && log[i].tag == t
    ensures var seen := OnTag(log[..n], t); Ended(seen) && seen[|seen| - 1] == log[i]
  {
    hide Orderly;
    OnTagPrefix(log, n, t);
    OrderlyPrefix(OnTag(log[..n], t), OnTag(log, t), t, bound);
    assert log[..n][i] == log[i];
    EndOfLog(log[..n], t, bound, i, i);
  }

  /** What the gateway was told, if it lived to be told of it. */
  predicate HeardEnd(v: View, error: int) {
    v.alive || v.Finished() ==> v.Finished() && v.events[|v.events| - 1] == Completed(error)
  }

  lemma ChannelAt(services: set<ServiceId>, s: Sys, p: Pid, t: Tag)
    requires Reachable(services, s) && p in s.hosts
    ensures Readable(s, p) && Good(ChanOf(s, p, t)) && IdsFit(s) && HostFits(s.hosts[p])
    ensures NearHears(ChanOf(s, p, t), Lost(s, p)) && FarHears(ChanOf(s, p, t), Gone(s, p))
  {
    hide Good, Reachable, NearHears, FarHears, AllHear, Handshake, Inv, IdsFit, HostFits;
    ReachableHears(services, s);
    ChannelHears(s, p, t);
    GoodChannel(services, s, p, t);
  }

  /** In every reachable state: a gateway whose counterpart's end was read, and that was not
      destroyed before, was told of exactly that end, last of all. */
  lemma EndIsHeard(services: set<ServiceId>, s: Sys, p: Pid, t: Tag, i: nat)
    requires Reachable(services, s) && p in s.hosts && i < s.hosts[p].taken && i < |Down(s, p)|
    requires Down(s, p)[i].ChannelEnd? && Down(s, p)[i].tag == t
    ensures t in s.hosts[p].router.gateways && HeardEnd(Gateway(s, p, t), Down(s, p)[i].error)
  {
    hide Reachable, Orderly, Delivery, OnTag, HostFits, IdsFit;
    ChannelAt(services, s, p, t);
    OnTagMembers(Down(s, p), t, Down(s, p)[i]);
    EndIsSeen(Down(s, p), s.hosts[p].taken, t, ChanOf(s, p, t).far.views[0].nextSequence, i);
  }

  lemma EndIsHeardByDaemon(services: set<ServiceId>, s: Sys, p: Pid, t: Tag, i: nat)
    requires Reachable(services, s) && p in s.hosts && i < s.Taken(IdOf(s, p)) && i < |Up(s, p)|
    requires Up(s, p)[i].ChannelEnd? && Up(s, p)[i].tag == t
    ensures forall v :: v in Counterparts(s, p, t) ==> HeardEnd(v, Up(s, p)[i].error)
  {
    hide Reachable, Orderly, Delivery, OnTag, HostFits, IdsFit;
    ChannelAt(services, s, p, t);
    EndIsSeen(Up(s, p), s.Taken(IdOf(s, p)), t, ChanOf(s, p, t).near.view.nextSequence, i);
  }

  // ---- And from then on.

  lemma {:induction false} CompletedStays(s: Sys, labels: seq<Label>, p: Pid, t: Tag)
    requires Inv(s) && Allowed(s, labels) && p in s.hosts && t in s.hosts[p].router.gateways
    requires Gateway(s, p, t).Finished()
    ensures var s' := Network.Run(s, labels);
            && p in s'.hosts && t in s'.hosts[p].router.gateways
            && Gateway(s', p, t).events == Gateway(s, p, t).events
    decreases |labels|
  {
    hide Inv, Step, Enabled;
    if labels != [] {
      NotDueAgain(s, p, t);
      QuietStep(s, labels[0], p, t);
      StepKeeps(s, labels[0]);
      CompletedStays(Step(s, labels[0]), labels[1..], p, t);
    }
  }

  lemma NotDueAgain(s: Sys, p: Pid, t: Tag)
    requires Inv(s) && p in s.hosts && t in s.hosts[p].router.gateways && Gateway(s, p, t).Finished()
    ensures HostFits(s.hosts[p]) && t !in s.hosts[p].router.table
    ensures t !in s.hosts[p].router.greeting && t !in s.hosts[p].router.mourning
  {
    hide Stream, Delivery, UpGood, DownGood, FarGood, OnTag, Handshake, IdsFit;
    assert ProcessGood(s, p);
    assert Good(ChanOf(s, p, t));
  }

  lemma {:induction false} CompletedStaysAtDaemon(s: Sys, labels: seq<Label>, g: S.Ref)
    requires Inv(s) && Allowed(s, labels) && s.server.Exists(g) && s.server.At(g).Finished()
    ensures Network.Run(s, labels).server.Exists(g)
    ensures Network.Run(s, labels).server.At(g).events == s.server.At(g).events
    decreases |labels|
  {
    hide Inv, Step, Enabled;
    if labels != [] {
      NotDueAgainAtDaemon(s, g);
      QuietDaemon(s, labels[0], g);
      StepKeeps(s, labels[0]);
      CompletedStaysAtDaemon(Step(s, labels[0]), labels[1..], g);
    }
  }

  lemma NotDueAgainAtDaemon(s: Sys, g: S.Ref)
    requires Inv(s) && s.server.Exists(g) && s.server.At(g).Finished()
    ensures s.server.Registered(g.endpoint).None? && g !in s.server.mourning
  {
    hide Inv, Good;
    var p := OwnerOf(s, g);
    ChannelOf(s, p, g.endpoint.tag);
    GoodFar(ChanOf(s, p, g.endpoint.tag));
  }

  lemma ChannelOf(s: Sys, p: Pid, t: Tag)
    requires Inv(s) && p in s.hosts
    ensures Readable(s, p) && Good(ChanOf(s, p, t))
  {
    hide Good;
    assert ProcessGood(s, p);
  }

  /** A living gateway of the daemon that was not told of its completion, and whose client's
      context exists, is the one its endpoint names. */
  lemma LivingIsRegistered(s: Sys, g: S.Ref)
    requires Inv(s) && AllHear(s)
    requires s.server.Usable(g) && !s.server.At(g).Finished() && g.endpoint.clientId in s.contexts
    ensures s.server.Registered(g.endpoint) == Some(g.ordinal) && s.server.Routed(g.endpoint.clientId)
  {
    hide Inv, AllHear, Good;
    var p := OwnerOf(s, g);
    ChannelHears(s, p, g.endpoint.tag);
    GoodFar(ChanOf(s, p, g.endpoint.tag));
    SocketOwner2(s, g);
  }

  lemma SocketOwner2(s: Sys, g: S.Ref)
    requires Inv(s) && s.server.Exists(g) && g.endpoint.clientId in s.contexts
    ensures !Gone(s, s.sockets[g.endpoint.clientId])
  {
    hide ProcessGood;
  }

  /** Reading the end of a living gateway's counterpart tells it, once and for all. */
  lemma EndIsHeardForGood(services: set<ServiceId>, s: Sys, l: Label, g: S.Ref, labels: seq<Label>)
    requires Reachable(services, s) && Enabled(s, l) && l.SReceive? && Allowed(Step(s, l), labels)
    requires s.server.Usable(g) && !s.server.At(g).Finished() && g.endpoint.clientId == l.c
    requires s.Next(l.c).ChannelEnd? && s.Next(l.c).tag == g.endpoint.tag
    ensures var s' := Network.Run(Step(s, l), labels);
            && s'.server.Exists(g)
            && s'.server.At(g).events == s.server.At(g).events + [IpcTypes.Completed(s.Next(l.c).error)]
  {
    hide Inv, Reachable, AllHear, Allowed, Network.Run;
    ReachableHears(services, s);
    LivingIsRegistered(s, g);
    StepKeeps(s, l);
    ReadsEnd(s, l, g);
    CompletedStaysAtDaemon(Step(s, l), labels, g);
  }

  lemma ReadsEnd(s: Sys, l: Label, g: S.Ref)
    requires Enabled(s, l) && l.SReceive? && s.server.Usable(g) && g.endpoint.clientId == l.c
    requires s.server.Registered(g.endpoint) == Some(g.ordinal)
    requires s.Next(l.c).ChannelEnd? && s.Next(l.c).tag == g.endpoint.tag
    ensures Step(s, l).server.Exists(g)
    ensures Step(s, l).server.At(g).events == s.server.At(g).events + [IpcTypes.Completed(s.Next(l.c).error)]
  {
  }

  /** The same of a process: while its connection stands, a living gateway is registered. */
  lemma LivingIsListed(s: Sys, p: Pid, t: Tag)
    requires Inv(s) && AllHear(s) && p in s.hosts && s.hosts[p].router.Usable(t) && !Gateway(s, p, t).Finished()
    requires !s.hosts[p].pipe.Closed?
    ensures t in s.hosts[p].router.table
  {
    hide Inv, AllHear, Good;
    ChannelHears(s, p, t);
  }

  lemma EndIsHeardForGoodAtProcess(services: set<ServiceId>, s: Sys, l: Label, t: Tag, labels: seq<Label>)
    requires Reachable(services, s) && Enabled(s, l) && l.CReceive? && Allowed(Step(s, l), labels)
    requires s.hosts[l.p].router.Usable(t) && !Gateway(s, l.p, t).Finished()
    requires var f := s.server.Outbox(l.c)[s.hosts[l.p].taken]; f.ChannelEnd? && f.tag == t
    ensures var s' := Network.Run(Step(s, l), labels);
            && l.p in s'.hosts && t in s'.hosts[l.p].router.gateways
            && Gateway(s', l.p, t).events ==
               Gateway(s, l.p, t).events +
               [IpcTypes.Completed(s.server.Outbox(l.c)[s.hosts[l.p].taken].error)]
  {
    hide Inv, Reachable, AllHear, Allowed, Network.Run;
    ReachableHears(services, s);
    LivingIsListed(s, l.p, t);
    StepKeeps(s, l);
    ProcessReadsEnd(s, l, t);
    CompletedStays(Step(s, l), labels, l.p, t);
  }

  lemma ProcessReadsEnd(s: Sys, l: Label, t: Tag)
    requires Enabled(s, l) && l.CReceive? && s.hosts[l.p].router.Usable(t) && t in s.hosts[l.p].router.table
    requires var f := s.server.Outbox(l.c)[s.hosts[l.p].taken]; f.ChannelEnd? && f.tag == t
    ensures var s' := Step(s, l);
            && l.p in s'.hosts && t in s'.hosts[l.p].router.gateways
            && Gateway(s', l.p, t).events ==
               Gateway(s, l.p, t).events +
               [IpcTypes.Completed(s.server.Outbox(l.c)[s.hosts[l.p].taken].error)]
  {
  }

  // ---- The code a gateway was completed with.

  /** The code that a gateway was last completed with in this run, `code` if it was not. */
  function CodeGiven(labels: seq<Label>, p: Pid, t: Tag, code: int): int {
    if labels == [] then code
    else CodeGiven(labels[1..], p, t, if Completes(labels[0], p, t) then labels[0].error else code)
  }

  predicate Completes(l: Label, p: Pid, t: Tag) {
    l.CComplete? && l.p == p && l.t == t
  }

  function CodeGivenAtDaemon(labels: seq<Label>, g: S.Ref, code: int): int {
    if labels == [] then code
    else CodeGivenAtDaemon(labels[1..], g, if CompletesAtDaemon(labels[0], g) then labels[0].error else code)
  }

  predicate CompletesAtDaemon(l: Label, g: S.Ref) {
    l.SComplete? && l.g == g
  }

  function CodeOf(s: Sys, p: Pid, t: Tag): int {
    if p in s.hosts && t in s.hosts[p].router.gateways then Gateway(s, p, t).completionError else 0
  }

  function CodeAt(s: Sys, g: S.Ref): int {
    if s.server.Exists(g) then s.server.At(g).completionError else 0
  }

  lemma UserCodes(s: Sys, l: Label, p: Pid, t: Tag)
    requires Enabled(s, l)
    requires l.CMake? || l.CSend? || l.CComplete? || l.CSubscribe? || l.CDispose? || l.CGreet? || l.CMourn?
    requires l.CMake? ==> s.hosts[l.p].router.nextTag !in s.hosts[l.p].router.gateways
    ensures CodeOf(Step(s, l), p, t) == if Completes(l, p, t) then l.error else CodeOf(s, p, t)
  {
  }

  lemma PipeCodes(s: Sys, l: Label, p: Pid, t: Tag)
    requires Enabled(s, l)
    requires l.CReceive? || l.CPipeUp? || l.CPipeDown? || l.Launch? || l.Accept?
    ensures CodeOf(Step(s, l), p, t) == CodeOf(s, p, t)
  {
    hide C.ReceiveError, C.Receive, C.PipeConnected, C.PipeDisconnected;
    if l.CReceive? {
      RouterCodes(s.hosts[l.p].router, s.server.Outbox(l.c)[s.hosts[l.p].taken], SUCCESS, t);
      RouterCodes(HostTakes(s, l.p, l.c).hosts[l.p].router, Empty, SUCCESS, t);
    } else if l.CPipeUp? {
      RouterCodes(s.hosts[l.p].router, Empty, l.pipeError, t);
    } else if l.CPipeDown? {
      RouterCodes(s.hosts[l.p].router, Empty, SUCCESS, t);
    }
  }

  lemma RouterCodes(r: C.ClientState, f: Frame, pipeError: int, t: Tag)
    ensures t in C.Receive(r, f).gateways <==> t in r.gateways
    ensures t in r.gateways ==> C.Receive(r, f).gateways[t].completionError == r.gateways[t].completionError
    ensures C.PipeDisconnected(r).gateways == r.gateways && C.PipeConnected(r, pipeError).gateways == r.gateways
  {
  }

  lemma StepCodes(s: Sys, l: Label, p: Pid, t: Tag)
    requires Inv(s) && Enabled(s, l)
    ensures CodeOf(Step(s, l), p, t) == if Completes(l, p, t) then l.error else CodeOf(s, p, t)
  {
    hide Inv, Step, Enabled;
    if ByDaemon(l) {
      DaemonStepLeavesProcesses(s, l);
    } else if l.CReceive? || l.CPipeUp? || l.CPipeDown? || l.Launch? || l.Accept? {
      PipeCodes(s, l, p, t);
    } else {
      if l.CMake? { MakesFresh(s, l.p); }
      UserCodes(s, l, p, t);
    }
  }

  lemma MakesFresh(s: Sys, p: Pid)
    requires Inv(s) && Enabled(s, CMake(p))
    ensures s.hosts[p].router.nextTag !in s.hosts[p].router.gateways
  {
    hide Inv;
    FreshTag(s, p);
  }

  /** The code of a gateway of a process is the one it was last completed with, 0 before. */
  lemma {:induction false} CodeIsLastGiven(s: Sys, labels: seq<Label>, p: Pid, t: Tag)
    requires Inv(s) && Allowed(s, labels)
    ensures CodeOf(Network.Run(s, labels), p, t) == CodeGiven(labels, p, t, CodeOf(s, p, t))
    decreases |labels|
  {
    hide Inv, Step, Enabled, CodeOf, Completes;
    if labels != [] {
      StepKeeps(s, labels[0]);
      StepCodes(s, labels[0], p, t);
      CodeIsLastGiven(Step(s, labels[0]), labels[1..], p, t);
    }
  }

  lemma GatewayCodes(s: Sys, l: Label, g: S.Ref)
    requires Enabled(s, l) && (l.SSend? || l.SComplete?)
    ensures CodeAt(Step(s, l), g) == if CompletesAtDaemon(l, g) then l.error else CodeAt(s, g)
  {
  }

  lemma DisposalCodes(s: Sys, l: Label, g: S.Ref)
    requires Enabled(s, l) && l.SDispose?
    ensures CodeAt(Step(s, l), g) == CodeAt(s, g)
  {
  }

  lemma NoticeCodes(s: Sys, l: Label, g: S.Ref)
    requires Enabled(s, l) && (l.SSubscribe? || l.SMourn?)
    ensures CodeAt(Step(s, l), g) == CodeAt(s, g)
  {
  }

  lemma DaemonPipeCodes(s: Sys, l: Label, g: S.Ref)
    requires Enabled(s, l) && (l.SReceive? || l.SPipeDown?)
    ensures CodeAt(Step(s, l), g) == CodeAt(s, g)
  {
    hide S.Receive, S.ReceiveError, S.PipeDisconnected;
    LossCodes(s.server, l.c, g);
    if l.SReceive? {
      ReceiveCodes(s.server, l.c, s.Next(l.c), l.pipeError, g);
      LossCodes(S.Receive(s.server, l.c, s.Next(l.c), l.pipeError), l.c, g);
    }
  }

  lemma LossCodes(r: S.ServerState, c: ClientId, g: S.Ref)
    ensures S.PipeDisconnected(r, c).Objects(g.endpoint) == r.Objects(g.endpoint)
  {
  }

  lemma ReceiveCodes(r: S.ServerState, c: ClientId, f: Frame, pipeError: int, g: S.Ref)
    ensures var r' := S.Receive(r, c, f, pipeError);
            (if r'.Exists(g) then r'.At(g).completionError else 0) ==
            (if r.Exists(g) then r.At(g).completionError else 0)
  {
  }

  lemma StepCodesAtDaemon(s: Sys, l: Label, g: S.Ref)
    requires Enabled(s, l)
    ensures CodeAt(Step(s, l), g) == if CompletesAtDaemon(l, g) then l.error else CodeAt(s, g)
  {
    hide Step, Enabled;
    if l.SReceive? || l.SPipeDown? {
      DaemonPipeCodes(s, l, g);
    } else if l.SSubscribe? || l.SMourn? {
      NoticeCodes(s, l, g);
    } else if l.SDispose? {
      DisposalCodes(s, l, g);
    } else if ByDaemon(l) {
      GatewayCodes(s, l, g);
    } else {
      ProcessStepLeavesDaemon(s, l);
    }
  }

  lemma {:induction false} CodeIsLastGivenAtDaemon(s: Sys, labels: seq<Label>, g: S.Ref)
    requires Allowed(s, labels)
    ensures CodeAt(Network.Run(s, labels), g) == CodeGivenAtDaemon(labels, g, CodeAt(s, g))
    decreases |labels|
  {
    hide Step, Enabled, CodeAt, CompletesAtDaemon;
    if labels != [] {
      StepCodesAtDaemon(s, labels[0], g);
      CodeIsLastGivenAtDaemon(Step(s, labels[0]), labels[1..], g);
    }
  }

  // ---- The end that a destructor sends.

  /** The connection of this process stands: it is open and the reply was read. */
  predicate Stands(s: Sys, p: Pid) {
    p in s.hosts && s.hosts[p].pipe.Open? && 0 < s.hosts[p].taken
  }

  ghost predicate StandingAreConnected(s: Sys) {
    forall p :: Stands(s, p) ==> s.hosts[p].router.connected
  }

  lemma PipeConnects(s: Sys, l: Label)
    requires Enabled(s, l) && (l.CPipeUp? || l.CPipeDown? || l.Launch? || l.Accept?)
    requires l.CPipeUp? ==> s.hosts[l.p].taken == 0
    requires StandingAreConnected(s)
    ensures StandingAreConnected(Step(s, l))
  {
  }

  lemma ReadConnects(s: Sys, l: Label)
    requires Enabled(s, l) && l.CReceive?
    requires s.hosts[l.p].taken == 0 ==> s.server.Outbox(l.c)[0].Connect?
    requires StandingAreConnected(s)
    ensures StandingAreConnected(Step(s, l))
  {
  }

  lemma UserConnects(s: Sys, l: Label)
    requires Enabled(s, l)
    requires l.CMake? || l.CSend? || l.CComplete? || l.CSubscribe? || l.CDispose? || l.CGreet? || l.CMourn?
    requires StandingAreConnected(s)
    ensures StandingAreConnected(Step(s, l))
  {
  }

  lemma HandshakeAt(s: Sys, p: Pid)
    requires Inv(s) && p in s.hosts
    ensures Handshake(s, p) && HostFits(s.hosts[p]) && CursorsFit(s, p)
  {
    hide Good;
    assert ProcessGood(s, p);
  }

  lemma StepConnects(s: Sys, l: Label)
    requires Inv(s) && Enabled(s, l) && StandingAreConnected(s)
    ensures StandingAreConnected(Step(s, l))
  {
    hide Step, StandingAreConnected, Inv, HostFits;
    if ByDaemon(l) {
      DaemonStepLeavesProcesses(s, l);
      SameHostsConnect(s, Step(s, l));
    } else if l.CReceive? {
      HandshakeAt(s, l.p);
      IdMatches(s, l.p, l.c);
      ReadConnects(s, l);
    } else if l.CPipeUp? || l.CPipeDown? || l.Launch? || l.Accept? {
      if l.CPipeUp? { HandshakeAt(s, l.p); }
      PipeConnects(s, l);
    } else {
      UserConnects(s, l);
    }
  }

  lemma SameHostsConnect(s: Sys, s': Sys)
    requires StandingAreConnected(s) && s'.hosts == s.hosts
    ensures StandingAreConnected(s')
  {
  }

  lemma IdMatches(s: Sys, p: Pid, c: ClientId)
    requires Inv(s) && c in s.sockets && s.sockets[c] == p
    ensures IdOf(s, p) == c
  {
    hide ProcessGood;
  }

  lemma {:induction false} RunConnects(s: Sys, labels: seq<Label>)
    requires Inv(s) && Allowed(s, labels) && StandingAreConnected(s)
    ensures StandingAreConnected(Network.Run(s, labels))
    decreases |labels|
  {
    hide Inv, Step, Enabled, StandingAreConnected;
    if labels != [] {
      StepKeeps(s, labels[0]);
      StepConnects(s, labels[0]);
      RunConnects(Step(s, labels[0]), labels[1..]);
    }
  }

  /** The router's flag is nothing but the state of the pipe and of what was read. */
  lemma ConnectedIsStanding(services: set<ServiceId>, s: Sys, p: Pid)
    requires Reachable(services, s) && p in s.hosts
    ensures s.hosts[p].router.connected <==> Stands(s, p)
  {
    hide Inv, Allowed, Network.Run;
    ReachableGood(services, s);
    HandshakeAt(s, p);
    var labels: seq<Label> :| Allowed(Initial(services), labels) && s == Network.Run(Initial(services), labels);
    InitialGood(services);
    RunConnects(Initial(services), labels);
  }

  /** The daemon routes exactly the open connections whose connect request it has answered. */
  lemma RoutedIsAnswered(services: set<ServiceId>, s: Sys, c: ClientId)
    requires Reachable(services, s)
    ensures s.server.Routed(c) <==> c in s.contexts && s.server.Outbox(c) != []
  {
    hide Reachable, Good, HostFits;
    ReachableGood(services, s);
    if c in s.contexts {
      HandshakeAt(s, s.sockets[c]);
    }
  }

  /** A living gateway of a standing connection is registered until it is told of its end. */
  lemma ListedIsOpen(services: set<ServiceId>, s: Sys, p: Pid, t: Tag)
    requires Reachable(services, s) && p in s.hosts && s.hosts[p].router.Usable(t) && !s.hosts[p].pipe.Closed?
    ensures t in s.hosts[p].router.table <==> !Gateway(s, p, t).Finished()
  {
    hide Reachable, Inv, AllHear, HostFits;
    ReachableHears(services, s);
    if !Gateway(s, p, t).Finished() { LivingIsListed(s, p, t); } else { NotDueAgain(s, p, t); }
  }

  lemma RegisteredIsOpen(services: set<ServiceId>, s: Sys, g: S.Ref)
    requires Reachable(services, s) && s.server.Usable(g)
    ensures s.server.Registered(g.endpoint).Some? <==>
            g.endpoint.clientId in s.contexts && !s.server.At(g).Finished()
  {
    hide Reachable, Inv, AllHear;
    ReachableHears(services, s);
    if s.server.At(g).Finished() {
      NotDueAgainAtDaemon(s, g);
    } else if g.endpoint.clientId in s.contexts {
      LivingIsRegistered(s, g);
    } else {
      TablesAreOpen(s);
    }
  }

  lemma TablesAreOpen(s: Sys)
    requires Inv(s)
    ensures s.server.tables.Keys <= s.contexts
  {
    hide ProcessGood;
  }

  /** The gateway has given a message to the pipe, accepted or not. */
  predicate Tried(services: set<ServiceId>, labels: seq<Label>, w: Wire, t: Tag)
    requires Allowed(Initial(services), labels)
  {
    CountOn(Given(Initial(services), labels, w), t) > 0
  }

  lemma TriedIsCounted(services: set<ServiceId>, labels: seq<Label>, p: Pid, t: Tag)
    requires Allowed(Initial(services), labels)
    requires var s := Network.Run(Initial(services), labels); p in s.hosts && t in s.hosts[p].router.gateways
    ensures var s := Network.Run(Initial(services), labels);
            && (Tried(services, labels, ToDaemon(p), t) <==> Gateway(s, p, t).nextSequence > 0)
            && (Gateway(s, p, t).sent != [] ==> Gateway(s, p, t).nextSequence > 0)
  {
    hide Inv, Given, CountOn, Network.Run;
    var s := Network.Run(Initial(services), labels);
    InitialGood(services);
    RunKeeps(Initial(services), labels);
    CounterCounts(Initial(services), labels, ToDaemon(p), t);
    ChannelOf(s, p, t);
    SentIsCounted(ChanOf(s, p, t));
  }

  lemma SentIsCounted(k: Chan)
    requires Good(k)
    ensures k.near.view.sent != [] ==> k.near.view.nextSequence > 0
  {
    hide Orderly, Delivery;
    assert Items([]) == [];
  }

  /** Destroying a gateway of a process writes the end of its channel, with the code it was
      last completed with, exactly if the connection stands, the channel was not completed
      from the other end, the gateway has tried to send, and the pipe accepts it. */
  lemma EndIsSent(services: set<ServiceId>, labels: seq<Label>, p: Pid, t: Tag, pipeError: int)
    requires Allowed(Initial(services), labels)
    requires Enabled(Network.Run(Initial(services), labels), CDispose(p, t, pipeError))
    ensures var s := Network.Run(Initial(services), labels);
            var s' := Step(s, CDispose(p, t, pipeError));
            && Up(s', p) == Up(s, p) +
               (if Stands(s, p) && !Gateway(s, p, t).Finished() && Tried(services, labels, ToDaemon(p), t) &&
                   pipeError == SUCCESS
                then [ChannelEnd(t, CodeGiven(labels, p, t, 0))] else [])
            && (Gateway(s, p, t).sent != [] ==> Tried(services, labels, ToDaemon(p), t))
            && !s'.hosts[p].router.Usable(t)
  {
    hide Inv, Tried, CodeGiven, Allowed, Network.Run, HostFits;
    var s := Network.Run(Initial(services), labels);
    assert Reachable(services, s);
    InitialGood(services);
    CodeIsLastGiven(Initial(services), labels, p, t);
    TriedIsCounted(services, labels, p, t);
    ConnectedIsStanding(services, s, p);
    if Stands(s, p) { ListedIsOpen(services, s, p, t); }
  }

  /** The daemon's gateways need not have tried to send. */
  lemma EndIsSentByDaemon(services: set<ServiceId>, labels: seq<Label>, g: S.Ref, pipeError: int)
    requires Allowed(Initial(services), labels)
    requires Enabled(Network.Run(Initial(services), labels), SDispose(g, pipeError))
    ensures var s := Network.Run(Initial(services), labels);
            var s', c := Step(s, SDispose(g, pipeError)), g.endpoint.clientId;
            && s'.server.Outbox(c) == s.server.Outbox(c) +
               (if c in s.contexts && !s.server.At(g).Finished() && pipeError == SUCCESS
                then [ChannelEnd(g.endpoint.tag, CodeGivenAtDaemon(labels, g, 0))] else [])
            && !s'.server.Usable(g)
  {
    hide Inv, CodeGivenAtDaemon, Allowed, Network.Run;
    var s := Network.Run(Initial(services), labels);
    assert Reachable(services, s);
    CodeIsLastGivenAtDaemon(Initial(services), labels, g);
    RegisteredIsOpen(services, s, g);
  }
}
