/** Every run over bytes is a run of `Network`, and every step of `Network` can happen. */
module WireProofs {
  import opened IpcTypes
  import opened Network
  import opened Projection
  import opened Stack
  import opened Wires
  import F = Framing
  import RouteCodec
  import NetworkTheorems
  import G = RouterGuarantees
  import P = PipeEvents
  import C = ClientRouterSpec
  import S = ServerRouterSpec

  // ---- What ties the bytes to the logs of frames.

  /** An open reader of this log that has handed on its first `n` frames. */
  ghost predicate ReaderFits(r: F.Reader, log: seq<Frame>, n: nat) {
    !r.closed && |r.delivered| == n && F.Placed(r, Messages(log))
  }

  ghost predicate WiresFit(b: Wired) {
    forall w :: AllSendable(Log(b.net, w)) && b.On(w) == OnWire(Log(b.net, w))
  }

  /** The socket's table of contexts is the network's set of open connections. */
  ghost predicate ContextsFit(s: Sys, table: map<ClientId, F.Reader>) {
    && table.Keys == s.contexts
    && forall c :: c in table ==> ContextFits(s, table[c], c)
  }

  ghost predicate ContextFits(s: Sys, r: F.Reader, c: ClientId) {
    c in s.sockets && ReaderFits(r, Log(s, ToDaemon(s.sockets[c])), s.Taken(c))
  }

  ghost predicate ReadersFit(s: Sys, table: map<Pid, F.Reader>) {
    && (forall p :: p in table <==> p in s.hosts && !s.hosts[p].pipe.Closed?)
    && forall p :: p in table ==> HostReads(s, table[p], p)
  }

  ghost predicate HostReads(s: Sys, r: F.Reader, p: Pid) {
    p in s.hosts && ReaderFits(r, Down(s, p), s.hosts[p].taken)
  }

  ghost predicate Tied(b: Wired) {
    Inv(b.net) && WiresFit(b) && ContextsFit(b.net, b.contexts) && ReadersFit(b.net, b.readers)
  }

  // ---- One read.

  lemma DeliversAtMostOne(r: F.Reader, stream: Payload, turn: F.Turn)
    requires F.TurnPossible(r, stream, turn)
    ensures var (r', error) := F.Receive(r, stream, turn);
            && (|r'.delivered| > |r.delivered| ==> |r'.delivered| == |r.delivered| + 1 && error == turn.actionError)
            && |r'.delivered| >= |r.delivered| && r'.closed == r.closed
  {
  }

  /** A read from a wire hands on the next frame of its log, or nothing. */
  lemma ReadsNext(r: F.Reader, log: seq<Frame>, n: nat, turn: F.Turn)
    requires AllSendable(log) && ReaderFits(r, log, n) && F.TurnPossible(r, OnWire(log), turn)
    ensures var (r', error) := F.Receive(r, OnWire(log), turn);
            match Handed(r, OnWire(log), turn)
            case Some(f) =>
              n < |log| && f == log[n] && error == turn.actionError && (error == SUCCESS ==> ReaderFits(r', log, n + 1))
            case None => error == SUCCESS ==> ReaderFits(r', log, n)
  {
    hide F.Receive, F.TurnPossible, F.Encoded, Sendable, RouteCodec.Message, RouteCodec.Parse, F.Sized;
    var (r', error) := F.Receive(r, OnWire(log), turn);
    MessagesAreSized(log);
    F.HandleKeeps(r, Messages(log), turn);
    DeliversAtMostOne(r, OnWire(log), turn);
    if |r'.delivered| > n {
      assert r'.delivered[n] == RouteCodec.Message(log[n]);
      ParsesBack(log, n);
    }
  }

  lemma ParsesBack(log: seq<Frame>, n: nat)
    requires AllSendable(log) && n < |log|
    ensures RouteCodec.Parse(RouteCodec.Message(log[n])) == Some(log[n])
  {
    hide RouteCodec.Parse, RouteCodec.Message, RouteCodec.Encodable;
    assert Sendable(log[n]);
    RouteCodec.RoundTrip(log[n]);
  }

  lemma ReaderGrows(r: F.Reader, log: seq<Frame>, log': seq<Frame>, n: nat)
    requires ReaderFits(r, log, n) && log <= log'
    ensures ReaderFits(r, log', n)
  {
    hide F.Encoded, RouteCodec.Message;
    var before, after := Messages(log), Messages(log');
    assert after[..|before|] == before;
    assert after[..n] == before[..n];
  }

  lemma FreshReader(log: seq<Frame>)
    ensures ReaderFits(F.START, log, 0)
  {
    assert Messages(log)[..0] == [];
  }

  // ---- What an action writes.

  predicate Longer(s: Sys, l: Label, w: Wire)
    requires Enabled(s, l)
  {
    && WireOf(l) == Some(w) && PipeError(l) == SUCCESS
    && |Log(Step(s, l), w)| == |Log(s, w)| + 1 && Log(s, w) <= Log(Step(s, l), w)
  }

  lemma ProcessLogs(s: Sys, l: Label, w: Wire)
    requires Enabled(s, l) && Acts(s, l)
    requires l.Launch? || l.CMake? || l.CSend? || l.CComplete? || l.CSubscribe? || l.CDispose?
    ensures Log(Step(s, l), w) == Log(s, w) || Longer(s, l, w)
  {
  }

  lemma PipeLogs(s: Sys, l: Label, w: Wire)
    requires Enabled(s, l) && Acts(s, l)
    requires l.CPipeUp? || l.CGreet? || l.CPipeDown? || l.CMourn? || l.Accept?
    ensures Log(Step(s, l), w) == Log(s, w) || Longer(s, l, w)
  {
  }

  lemma DaemonLogs(s: Sys, l: Label, w: Wire)
    requires Enabled(s, l) && Acts(s, l)
    requires l.SComplete? || l.SSubscribe? || l.SMourn?
    ensures Log(Step(s, l), w) == Log(s, w)
  {
  }

  lemma GatewayLogs(s: Sys, l: Label, w: Wire)
    requires Enabled(s, l) && Acts(s, l)
    requires l.SSend? || l.SDispose?
    ensures Log(Step(s, l), w) == Log(s, w) || Longer(s, l, w)
  {
  }

  lemma AnyLogs(s: Sys, l: Label, w: Wire)
    requires Enabled(s, l) && Acts(s, l)
    ensures Log(Step(s, l), w) == Log(s, w) || Longer(s, l, w)
  {
    hide Step, Longer;
    match l
    case Launch(_) => ProcessLogs(s, l, w);
    case CMake(_) => ProcessLogs(s, l, w);
    case CSend(_, _, _, _, _) => ProcessLogs(s, l, w);
    case CComplete(_, _, _) => ProcessLogs(s, l, w);
    case CSubscribe(_, _) => ProcessLogs(s, l, w);
    case CDispose(_, _, _) => ProcessLogs(s, l, w);
    case CPipeUp(_, _) => PipeLogs(s, l, w);
    case CGreet(_, _) => PipeLogs(s, l, w);
    case CPipeDown(_) => PipeLogs(s, l, w);
    case CMourn(_, _) => PipeLogs(s, l, w);
    case Accept(_) => PipeLogs(s, l, w);
    case SSend(_, _, _, _) => GatewayLogs(s, l, w);
    case SComplete(_, _) => DaemonLogs(s, l, w);
    case SSubscribe(_) => DaemonLogs(s, l, w);
    case SDispose(_, _) => GatewayLogs(s, l, w);
    case SMourn(_) => DaemonLogs(s, l, w);
    case CReceive(_, _, _) =>
    case SReceive(_, _, _) =>
    case SPipeDown(_) =>
  }

  /** The log of a wire grows by the frame that the pipe was given, if it accepted one. */
  lemma ActLogs(s: Sys, l: Label, w: Wire)
    requires Enabled(s, l) && Acts(s, l)
    ensures Log(Step(s, l), w) ==
            if WireOf(l) == Some(w) && PipeError(l) == SUCCESS && Offered(s, l).Some?
            then Log(s, w) + [Offered(s, l).value] else Log(s, w)
  {
    hide Enabled, Step, Acts;
    AnyLogs(s, l, w);
    if WireOf(l) == Some(w) && PipeError(l) == SUCCESS { assert Answered(l, SUCCESS) == l; }
  }

  // ---- What an action leaves where it was.

  /** Connections are never renamed, and logs only grow. */
  ghost predicate Later(s: Sys, s': Sys) {
    && (forall c :: c in s.sockets ==> c in s'.sockets && s'.sockets[c] == s.sockets[c])
    && (forall p :: p in s.ids ==> p in s'.ids && s'.ids[p] == s.ids[p])
    && (forall w :: Log(s, w) <= Log(s', w))
  }

  ghost predicate SamePlaces(s: Sys, s': Sys, l: Label) {
    && s'.taken == s.taken
    && s'.contexts == (if l.Accept? then s.contexts + {s.counter + 1} else s.contexts)
    && (forall p :: p in s'.hosts <==> p in s.hosts || l == Launch(p))
    && (forall p :: p in s.hosts ==> p in s'.hosts && s'.hosts[p].taken == s.hosts[p].taken)
    && (forall p :: p in s.hosts ==> (s'.hosts[p].pipe.Closed? <==> s.hosts[p].pipe.Closed? || l == CPipeDown(p)))
  }

  lemma ProcessPlaces(s: Sys, l: Label)
    requires Enabled(s, l) && Acts(s, l)
    requires l.CMake? || l.CSend? || l.CComplete? || l.CSubscribe? || l.CDispose? || l.CGreet? || l.CMourn?
    ensures SamePlaces(s, Step(s, l), l) && Step(s, l).sockets == s.sockets && Step(s, l).ids == s.ids
  {
    hide C.Send, C.Dispose, C.Subscribe, C.Greet, C.Mourn, C.Complete, C.MakeGateway;
  }

  lemma PipePlaces(s: Sys, l: Label)
    requires Enabled(s, l) && Acts(s, l)
    requires l.Launch? || l.CPipeUp? || l.CPipeDown?
    ensures SamePlaces(s, Step(s, l), l) && Step(s, l).sockets == s.sockets && Step(s, l).ids == s.ids
  {
    hide C.PipeConnected, C.PipeDisconnected;
  }

  lemma AcceptPlaces(s: Sys, l: Label)
    requires Enabled(s, l) && Acts(s, l) && IdsFit(s) && l.Accept?
    ensures SamePlaces(s, Step(s, l), l)
    ensures forall c :: c in s.sockets ==> c in Step(s, l).sockets && Step(s, l).sockets[c] == s.sockets[c]
    ensures forall p :: p in s.ids ==> p in Step(s, l).ids && Step(s, l).ids[p] == s.ids[p]
  {
  }

  lemma DaemonPlaces(s: Sys, l: Label)
    requires Enabled(s, l) && Acts(s, l)
    requires l.SSend? || l.SComplete? || l.SSubscribe? || l.SDispose? || l.SMourn?
    ensures SamePlaces(s, Step(s, l), l) && Step(s, l).sockets == s.sockets && Step(s, l).ids == s.ids
  {
    hide S.Send, S.Dispose, S.Subscribe, S.Mourn, S.Complete;
  }

  lemma ActPlaces(s: Sys, l: Label)
    requires IdsFit(s) && Enabled(s, l) && Acts(s, l)
    ensures SamePlaces(s, Step(s, l), l) && Later(s, Step(s, l))
  {
    hide Step, SamePlaces, Offered;
    forall w ensures Log(s, w) <= Log(Step(s, l), w) { ActLogs(s, l, w); }
    if l.Accept? {
      AcceptPlaces(s, l);
    } else if l.Launch? || l.CPipeUp? || l.CPipeDown? {
      PipePlaces(s, l);
    } else if l.SSend? || l.SComplete? || l.SSubscribe? || l.SDispose? || l.SMourn? {
      DaemonPlaces(s, l);
    } else {
      ProcessPlaces(s, l);
    }
  }

  // ---- An action keeps the tie.

  /** The log after the pipe was given this frame. */
  function LogAfter(log: seq<Frame>, frame: Option<Frame>, pipeError: int): seq<Frame> {
    if pipeError == SUCCESS && frame.Some? then log + [frame.value] else log
  }

  lemma CarriesFrame(log: seq<Frame>, frame: Option<Frame>, errors: seq<int>, pipeError: int)
    requires AllSendable(log) && Sends(frame, errors, pipeError)
    ensures AllSendable(LogAfter(log, frame, pipeError))
    ensures OnWire(log) + Carried(frame, errors) == OnWire(LogAfter(log, frame, pipeError))
  {
    hide Sendable, OnWire, F.Written, F.Succeed, Fragments;
    if frame.Some? { SendsFrame(log, frame.value, errors); }
  }

  lemma ActWires(b: Wired, l: Label, errors: seq<int>)
    requires WiresFit(b) && Happens(b, Act(l, errors))
    ensures WiresFit(AfterAct(b, l, errors))
  {
    hide Enabled, Step, Acts, Offered, Sends, Carried, OnWire, AllSendable, Log;
    var b' := AfterAct(b, l, errors);
    forall w ensures AllSendable(Log(b'.net, w)) && b'.On(w) == OnWire(Log(b'.net, w)) {
      ActLogs(b.net, l, w);
      if WireOf(l) == Some(w) { CarriesFrame(Log(b.net, w), Offered(b.net, l), errors, PipeError(l)); }
    }
  }

  /** A table of readers that still fits after the logs have grown. */
  lemma StillReads(s: Sys, s': Sys, r: F.Reader, w: Wire, n: nat)
    requires Later(s, s') && ReaderFits(r, Log(s, w), n)
    ensures ReaderFits(r, Log(s', w), n)
  {
    hide ReaderFits, Log;
    ReaderGrows(r, Log(s, w), Log(s', w), n);
  }

  lemma StillReadsDown(s: Sys, s': Sys, r: F.Reader, p: Pid, n: nat)
    requires IdsFit(s) && Later(s, s') && ReaderFits(r, Down(s, p), n)
    ensures ReaderFits(r, Down(s', p), n)
  {
    hide ReaderFits;
    assert Down(s, p) == Log(s, ToProcess(IdOf(s, p)));
    assert Down(s, p) <= Down(s', p) by {
      if p in s.ids { assert Log(s, ToProcess(s.ids[p])) <= Log(s', ToProcess(s.ids[p])); }
    }
    ReaderGrows(r, Down(s, p), Down(s', p), n);
  }

  /** All contexts but `c` are where they were, and `c`, if it is there, fits. */
  lemma ContextsMove(s: Sys, s': Sys, table: map<ClientId, F.Reader>, table': map<ClientId, F.Reader>, c: ClientId)
    requires Later(s, s') && table'.Keys == s'.contexts
    requires forall d :: d in table' && d != c ==> d in table && table'[d] == table[d] && s'.Taken(d) == s.Taken(d)
    requires c in table' ==> ContextFits(s', table'[c], c)
    requires ContextsFit(s, table)
    ensures ContextsFit(s', table')
  {
    hide ReaderFits, Log;
    forall d | d in table' && d != c ensures ContextFits(s', table'[d], d) {
      assert ContextFits(s, table[d], d);
      StillReads(s, s', table[d], ToDaemon(s.sockets[d]), s.Taken(d));
    }
  }

  lemma ReadersMove(s: Sys, s': Sys, table: map<Pid, F.Reader>, table': map<Pid, F.Reader>, p: Pid)
    requires IdsFit(s) && Later(s, s')
    requires forall q :: q in table' <==> q in s'.hosts && !s'.hosts[q].pipe.Closed?
    requires forall q :: q in table' && q != p ==>
               q in table && table'[q] == table[q] && q in s.hosts && s'.hosts[q].taken == s.hosts[q].taken
    requires p in table' ==> HostReads(s', table'[p], p)
    requires ReadersFit(s, table)
    ensures ReadersFit(s', table')
  {
    hide ReaderFits, Down, IdsFit;
    forall q | q in table' && q != p ensures HostReads(s', table'[q], q) {
      assert HostReads(s, table[q], q);
      StillReadsDown(s, s', table[q], q, s.hosts[q].taken);
    }
  }

  lemma FewerReaders(s: Sys, s': Sys, table: map<Pid, F.Reader>, table': map<Pid, F.Reader>)
    requires IdsFit(s) && Later(s, s')
    requires forall p :: p in s.hosts ==> p in s'.hosts && s'.hosts[p].taken == s.hosts[p].taken
    requires forall p :: p in table' <==> p in s'.hosts && !s'.hosts[p].pipe.Closed?
    requires forall p :: p in table' ==> p in table && table'[p] == table[p]
    requires ReadersFit(s, table)
    ensures ReadersFit(s', table')
  {
    hide ReaderFits, Down, IdsFit, Later;
    forall p | p in table' ensures HostReads(s', table'[p], p) {
      assert HostReads(s, table[p], p);
      StillReadsDown(s, s', table[p], p, s.hosts[p].taken);
    }
  }

  lemma SameContexts(s: Sys, s': Sys, table: map<ClientId, F.Reader>)
    requires Later(s, s') && s'.contexts == s.contexts && s'.taken == s.taken && ContextsFit(s, table)
    ensures ContextsFit(s', table)
  {
    hide ReaderFits, Log;
    forall c | c in table ensures ContextFits(s', table[c], c) {
      assert ContextFits(s, table[c], c);
      StillReads(s, s', table[c], ToDaemon(s.sockets[c]), s.Taken(c));
    }
  }

  lemma ActTables(b: Wired, l: Label, errors: seq<int>)
    requires Happens(b, Act(l, errors))
    ensures Enabled(b.net, l) && Acts(b.net, l)
    ensures var b' := AfterAct(b, l, errors);
            && b'.net == Step(b.net, l)
            && b'.contexts == (if l.Accept? then b.contexts[b.net.counter + 1 := F.START] else b.contexts)
            && b'.readers == (if l.Launch? then b.readers[l.p := F.START]
                              else if l.CPipeDown? then b.readers - {l.p} else b.readers)
  {
    hide Step, Enabled, Acts, Offered, Sends, Carried;
  }

  lemma ActContexts(b: Wired, l: Label, errors: seq<int>)
    requires Happens(b, Act(l, errors)) && IdsFit(b.net) && ContextsFit(b.net, b.contexts)
    ensures ContextsFit(AfterAct(b, l, errors).net, AfterAct(b, l, errors).contexts)
  {
    hide Happens, AfterAct, Step, Enabled, Acts, Log, ReaderFits, Later, IdsFit;
    var s, b' := b.net, AfterAct(b, l, errors);
    ActTables(b, l, errors);
    ActPlaces(s, l);
    if l.Accept? {
      AcceptedSocket(s, l);
      FreshReader(Log(b'.net, ToDaemon(b'.net.sockets[s.counter + 1])));
      ContextsMove(s, b'.net, b.contexts, b'.contexts, s.counter + 1);
    } else {
      SameContexts(s, b'.net, b.contexts);
    }
  }

  lemma AcceptedSocket(s: Sys, l: Label)
    requires IdsFit(s) && Enabled(s, l)
    ensures l.Accept? ==> s.counter + 1 in Step(s, l).sockets && s.counter + 1 !in s.taken
  {
  }

  lemma ActReaders(b: Wired, l: Label, errors: seq<int>)
    requires Happens(b, Act(l, errors)) && IdsFit(b.net) && ReadersFit(b.net, b.readers)
    ensures ReadersFit(AfterAct(b, l, errors).net, AfterAct(b, l, errors).readers)
  {
    hide Happens, AfterAct, Step, Enabled, Acts, ReaderFits, Later, IdsFit, Down;
    var s, b' := b.net, AfterAct(b, l, errors);
    ActTables(b, l, errors);
    ActPlaces(s, l);
    LaunchedHost(s, l);
    if l.Launch? {
      FreshReader(Down(b'.net, l.p));
      ReadersMove(s, b'.net, b.readers, b'.readers, l.p);
    } else {
      FewerReaders(s, b'.net, b.readers, b'.readers);
    }
  }

  lemma LaunchedHost(s: Sys, l: Label)
    requires Enabled(s, l)
    ensures l.Launch? ==> l.p !in s.hosts && Step(s, l).hosts[l.p] == Host(C.INITIAL, Connecting, 0)
    ensures l.CPipeDown? ==> l.p in s.hosts
  {
  }

  lemma ActKeeps(b: Wired, l: Label, errors: seq<int>)
    requires Tied(b) && Happens(b, Act(l, errors))
    ensures Tied(AfterAct(b, l, errors)) && AfterAct(b, l, errors).net == Step(b.net, l)
  {
    hide Inv, ContextsFit, ReadersFit, WiresFit, Step, Enabled;
    IdsOf(b.net);
    ActWires(b, l, errors);
    ActContexts(b, l, errors);
    ActReaders(b, l, errors);
    NetworkTheorems.StepKeeps(b.net, l);
  }

  lemma IdsOf(s: Sys)
    requires Inv(s)
    ensures IdsFit(s)
  {
  }

  // ---- A read of the daemon keeps the tie, and is a step or none.

  /** What the event reads is the next frame of the client's log, if anything. */
  lemma DaemonReadsNext(b: Wired, e: WireEvent)
    requires e.DaemonReads? && Happens(b, e)
    requires IdsFit(b.net) && WiresFit(b) && ContextsFit(b.net, b.contexts)
    ensures b.FromClient(e.c) == OnWire(Log(b.net, ToDaemon(b.net.sockets[e.c])))
    ensures var (r, error) := F.Receive(b.contexts[e.c], b.FromClient(e.c), e.turn);
            var frame := Handed(b.contexts[e.c], b.FromClient(e.c), e.turn);
            var log := Log(b.net, ToDaemon(b.net.sockets[e.c]));
            && (frame.Some? ==> b.net.HasNext(e.c) && frame.value == b.net.Next(e.c) && error == e.turn.actionError)
            && (error == SUCCESS ==> ReaderFits(r, log, b.net.Taken(e.c) + if frame.Some? then 1 else 0))
  {
    hide F.Receive, F.TurnPossible, Handed, ReaderFits, Reply, Sends, OnWire, S.ReceiveError;
    ReadsNext(b.contexts[e.c], Log(b.net, ToDaemon(b.net.sockets[e.c])), b.net.Taken(e.c), e.turn);
  }

  /** Only the answer to a connect request is written, to this client. */
  lemma ReplyLogs(s: Sys, c: ClientId, f: Frame, pipeError: int, w: Wire)
    ensures Log(DaemonGets(s, c, f, pipeError), w) ==
            if w == ToProcess(c) then LogAfter(Log(s, w), Reply(s, c, f), pipeError) else Log(s, w)
    ensures Log(LoseClient(s, c), w) == Log(s, w)
  {
  }

  lemma DaemonReadLogs(b: Wired, e: WireEvent, w: Wire)
    requires e.DaemonReads? && Happens(b, e)
    ensures var frame := Handed(b.contexts[e.c], b.FromClient(e.c), e.turn);
            Log(After(b, e).net, w) ==
            if frame.Some? && w == ToProcess(e.c)
            then LogAfter(Log(b.net, w), Reply(b.net, e.c, frame.value), e.pipeError) else Log(b.net, w)
  {
    hide F.Receive, F.TurnPossible, Handed, Reply, Sends, Carried, Log, LogAfter, S.ReceiveError, LoseClient;
    hide DaemonGets;
    var frame := Handed(b.contexts[e.c], b.FromClient(e.c), e.turn);
    if frame.Some? {
      ReplyLogs(b.net, e.c, frame.value, e.pipeError, w);
      ReplyLogs(DaemonGets(b.net, e.c, frame.value, e.pipeError), e.c, frame.value, e.pipeError, w);
    } else {
      ReplyLogs(b.net, e.c, Empty, e.pipeError, w);
    }
  }

  lemma DaemonReadWires(b: Wired, e: WireEvent)
    requires e.DaemonReads? && WiresFit(b) && Happens(b, e)
    ensures WiresFit(After(b, e))
  {
    hide F.Receive, F.TurnPossible, Handed, Reply, Sends, Carried, Log, LogAfter, S.ReceiveError, LoseClient;
    hide DaemonGets;
    hide OnWire, AllSendable;
    var b' := After(b, e);
    var frame := Handed(b.contexts[e.c], b.FromClient(e.c), e.turn);
    forall w ensures AllSendable(Log(b'.net, w)) && b'.On(w) == OnWire(Log(b'.net, w)) {
      DaemonReadLogs(b, e, w);
      if frame.Some? { CarriesFrame(Log(b.net, w), Reply(b.net, e.c, frame.value), e.errors, e.pipeError); }
    }
  }

  lemma DaemonReadPlaces(b: Wired, e: WireEvent)
    requires e.DaemonReads? && Happens(b, e)
    ensures var s, s' := b.net, After(b, e).net;
            var frame := Handed(b.contexts[e.c], b.FromClient(e.c), e.turn);
            && Later(s, s') && s'.hosts == s.hosts && s'.ids == s.ids && s'.sockets == s.sockets
            && s'.taken == (if frame.Some? then s.taken[e.c := s.Taken(e.c) + 1] else s.taken)
            && s'.contexts == (if F.Receive(b.contexts[e.c], b.FromClient(e.c), e.turn).1 == SUCCESS
                               then s.contexts else s.contexts - {e.c})
  {
    hide F.Receive, F.TurnPossible, Handed, Reply, Sends, Carried, Log, S.ReceiveError, S.Receive, S.PipeDisconnected;
    forall w ensures Log(b.net, w) <= Log(After(b, e).net, w) { DaemonReadLogs(b, e, w); }
  }

  lemma DaemonReadContexts(b: Wired, e: WireEvent)
    requires e.DaemonReads? && Happens(b, e)
    requires IdsFit(b.net) && WiresFit(b) && ContextsFit(b.net, b.contexts)
    ensures ContextsFit(After(b, e).net, After(b, e).contexts)
  {
    hide F.Receive, F.TurnPossible, Handed, Happens, After, Log, ReaderFits, WiresFit, IdsFit, Later;
    var s, b' := b.net, After(b, e);
    DaemonReadsNext(b, e);
    DaemonReadPlaces(b, e);
    DaemonReadTable(b, e);
    if e.c in b'.contexts { StillReads(s, b'.net, b'.contexts[e.c], ToDaemon(s.sockets[e.c]), b'.net.Taken(e.c)); }
    ContextsMove(s, b'.net, b.contexts, b'.contexts, e.c);
  }

  lemma DaemonReadTable(b: Wired, e: WireEvent)
    requires e.DaemonReads? && Happens(b, e)
    ensures var (r, error) := F.Receive(b.contexts[e.c], b.FromClient(e.c), e.turn);
            && e.c in b.contexts
            && After(b, e).contexts == (if error == SUCCESS then b.contexts[e.c := r] else b.contexts - {e.c})
            && After(b, e).readers == b.readers
  {
    hide F.Receive, F.TurnPossible, Handed, Reply, Sends, Carried, Log, S.ReceiveError, LoseClient, DaemonGets;
  }

  lemma DaemonReadReaders(b: Wired, e: WireEvent)
    requires e.DaemonReads? && Happens(b, e)
    requires IdsFit(b.net) && ReadersFit(b.net, b.readers)
    ensures ReadersFit(After(b, e).net, After(b, e).readers)
  {
    DaemonReadPlaces(b, e);
    DaemonReadTable(b, e);
    hide F.Receive, Happens, Handed, After, Later, ReaderFits, Down, IdsFit;
    FewerReaders(b.net, After(b, e).net, b.readers, b.readers);
  }

  lemma DaemonReadNet(b: Wired, e: WireEvent)
    requires e.DaemonReads? && Happens(b, e)
    ensures var frame := Handed(b.contexts[e.c], b.FromClient(e.c), e.turn);
            var got := if frame.Some? then DaemonGets(b.net, e.c, frame.value, e.pipeError) else b.net;
            After(b, e).net ==
            if F.Receive(b.contexts[e.c], b.FromClient(e.c), e.turn).1 == SUCCESS then got else LoseClient(got, e.c)
  {
    hide F.Receive, F.TurnPossible, Handed, Reply, Sends, Carried, Log, S.ReceiveError, LoseClient, DaemonGets;
  }

  lemma TakesIsStep(s: Sys, c: ClientId, handlerError: int, pipeError: int)
    requires c in s.contexts && s.HasNext(c) && s.server.mourning == {}
    ensures Enabled(s, SReceive(c, handlerError, pipeError))
    ensures var after := DaemonGets(s, c, s.Next(c), pipeError);
            Step(s, SReceive(c, handlerError, pipeError)) ==
            if S.ReceiveError(s.server, c, s.Next(c), handlerError, pipeError) == SUCCESS then after
            else LoseClient(after, c)
  {
    hide S.Receive, S.ReceiveError, LoseClient;
  }

  lemma LosesIsStep(s: Sys, c: ClientId)
    requires c in s.contexts && s.server.mourning == {}
    ensures Enabled(s, SPipeDown(c)) && Step(s, SPipeDown(c)) == LoseClient(s, c)
  {
  }

  /** The network's own step, or none if no whole message has come. */
  lemma DaemonReadIsStep(b: Wired, e: WireEvent)
    requires e.DaemonReads? && Happens(b, e)
    requires IdsFit(b.net) && WiresFit(b) && ContextsFit(b.net, b.contexts)
    ensures match LabelOf(b, e)
            case Some(l) => Enabled(b.net, l) && After(b, e).net == Step(b.net, l)
            case None => After(b, e).net == b.net
  {
    DaemonReadsNext(b, e);
    DaemonReadNet(b, e);
    hide F.Receive, F.TurnPossible, Handed, Reply, Sends, S.ReceiveError, LoseClient, DaemonGets;
    hide After, Step, Enabled, OnWire, Log, ReaderFits, WiresFit, IdsFit;
    LosesIsStep(b.net, e.c);
    if Handed(b.contexts[e.c], b.FromClient(e.c), e.turn).Some? {
      TakesIsStep(b.net, e.c, e.handlerError, e.pipeError);
    }
  }

  lemma DaemonReadKeeps(b: Wired, e: WireEvent)
    requires e.DaemonReads? && Tied(b) && Happens(b, e)
    ensures Tied(After(b, e))
  {
    hide Inv, ContextsFit, ReadersFit, WiresFit, Step, Enabled, After, Happens;
    IdsOf(b.net);
    DaemonReadIsStep(b, e);
    DaemonReadWires(b, e);
    DaemonReadContexts(b, e);
    DaemonReadReaders(b, e);
    if LabelOf(b, e).Some? { NetworkTheorems.StepKeeps(b.net, LabelOf(b, e).value); }
  }

  // ---- So is a read of a process.

  lemma ProcessReadsNext(b: Wired, e: WireEvent)
    requires e.ProcessReads? && Happens(b, e)
    requires IdsFit(b.net) && WiresFit(b) && ReadersFit(b.net, b.readers)
    ensures var (r, error) := F.Receive(b.readers[e.p], b.FromDaemon(e.p), e.turn);
            var frame := Handed(b.readers[e.p], b.FromDaemon(e.p), e.turn);
            var n := b.net.hosts[e.p].taken;
            && (frame.Some? ==>
                  && b.net.HostHasNext(e.p, IdOf(b.net, e.p)) && frame.value == Down(b.net, e.p)[n]
                  && error == e.turn.actionError)
            && (error == SUCCESS ==> ReaderFits(r, Down(b.net, e.p), n + if frame.Some? then 1 else 0))
  {
    hide F.Receive, F.TurnPossible, Handed, ReaderFits, OnWire, C.ReceiveError, AllSendable;
    assert Down(b.net, e.p) == Log(b.net, ToProcess(IdOf(b.net, e.p)));
    ReadsNext(b.readers[e.p], Down(b.net, e.p), b.net.hosts[e.p].taken, e.turn);
  }

  lemma ProcessReadNet(b: Wired, e: WireEvent)
    requires e.ProcessReads? && Happens(b, e)
    ensures e.p in b.net.hosts && b.net.hosts[e.p].pipe.Open? && b.net.hosts[e.p].router.Idle()
    ensures var frame := Handed(b.readers[e.p], b.FromDaemon(e.p), e.turn);
            var got := if frame.Some? then ProcessGets(b.net, e.p, frame.value) else b.net;
            After(b, e).net ==
            if F.Receive(b.readers[e.p], b.FromDaemon(e.p), e.turn).1 == SUCCESS then got else LoseServer(got, e.p)
  {
    hide F.Receive, F.TurnPossible, Handed, C.ReceiveError, LoseServer, ProcessGets;
  }

  /** Reading writes nothing. */
  lemma GetsLogs(s: Sys, p: Pid, f: Frame, w: Wire)
    requires p in s.hosts
    ensures Log(ProcessGets(s, p, f), w) == Log(s, w) && Log(LoseServer(s, p), w) == Log(s, w)
  {
  }

  lemma ProcessReadLogs(b: Wired, e: WireEvent, w: Wire)
    requires e.ProcessReads? && Happens(b, e)
    ensures Log(After(b, e).net, w) == Log(b.net, w)
  {
    ProcessReadNet(b, e);
    hide F.Receive, F.TurnPossible, Handed, Happens, After, LoseServer, Log;
    var frame := Handed(b.readers[e.p], b.FromDaemon(e.p), e.turn);
    if frame.Some? {
      GetsLogs(b.net, e.p, frame.value, w);
      GetsLogs(ProcessGets(b.net, e.p, frame.value), e.p, frame.value, w);
    } else {
      GetsLogs(b.net, e.p, Empty, w);
    }
  }

  lemma ProcessReadWires(b: Wired, e: WireEvent)
    requires e.ProcessReads? && WiresFit(b) && Happens(b, e)
    ensures WiresFit(After(b, e))
  {
    hide F.Receive, F.TurnPossible, Handed, C.ReceiveError, Log, OnWire, AllSendable, LoseServer, ProcessGets;
    var b' := After(b, e);
    forall w ensures AllSendable(Log(b'.net, w)) && b'.On(w) == OnWire(Log(b'.net, w)) { ProcessReadLogs(b, e, w); }
  }

  lemma ProcessReadPlaces(b: Wired, e: WireEvent)
    requires e.ProcessReads? && Happens(b, e)
    ensures var s, s' := b.net, After(b, e).net;
            var frame := Handed(b.readers[e.p], b.FromDaemon(e.p), e.turn);
            && Later(s, s') && s'.ids == s.ids && s'.sockets == s.sockets && s'.taken == s.taken
            && s'.contexts == s.contexts && s'.server == s.server && s'.hosts.Keys == s.hosts.Keys
            && (forall p :: p in s.hosts && p != e.p ==> s'.hosts[p] == s.hosts[p])
            && s'.hosts[e.p].taken == s.hosts[e.p].taken + (if frame.Some? then 1 else 0)
            && (s'.hosts[e.p].pipe.Closed? <==>
                F.Receive(b.readers[e.p], b.FromDaemon(e.p), e.turn).1 != SUCCESS)
  {
    hide F.Receive, F.TurnPossible, Handed, C.ReceiveError, C.Receive, C.PipeDisconnected, Log;
    forall w ensures Log(b.net, w) <= Log(After(b, e).net, w) { ProcessReadLogs(b, e, w); }
  }

  lemma ProcessReadContexts(b: Wired, e: WireEvent)
    requires e.ProcessReads? && Happens(b, e) && ContextsFit(b.net, b.contexts)
    ensures ContextsFit(After(b, e).net, After(b, e).contexts)
  {
    ProcessReadPlaces(b, e);
    ProcessReadTable(b, e);
    hide F.Receive, Happens, Handed, After, Later, ReaderFits, Log;
    SameContexts(b.net, After(b, e).net, b.contexts);
  }

  lemma ProcessReadTable(b: Wired, e: WireEvent)
    requires e.ProcessReads? && Happens(b, e)
    ensures var (r, error) := F.Receive(b.readers[e.p], b.FromDaemon(e.p), e.turn);
            && e.p in b.readers && e.p in b.net.hosts
            && After(b, e).readers == (if error == SUCCESS then b.readers[e.p := r] else b.readers - {e.p})
            && After(b, e).contexts == b.contexts
  {
    hide F.Receive, F.TurnPossible, Handed, C.ReceiveError, LoseServer, ProcessGets;
  }

  lemma ProcessReadReaders(b: Wired, e: WireEvent)
    requires e.ProcessReads? && Happens(b, e)
    requires IdsFit(b.net) && WiresFit(b) && ReadersFit(b.net, b.readers)
    ensures ReadersFit(After(b, e).net, After(b, e).readers)
  {
    hide F.Receive, F.TurnPossible, Handed, Happens, After, ReaderFits, Later, WiresFit, IdsFit;
    var s, b' := b.net, After(b, e);
    ProcessReadsNext(b, e);
    ProcessReadPlaces(b, e);
    ProcessReadTable(b, e);
    assert Down(b'.net, e.p) == Down(s, e.p);
    hide Down;
    ReadersMove(s, b'.net, b.readers, b'.readers, e.p);
  }

  lemma HostTakesIsStep(s: Sys, p: Pid, handlerError: int)
    requires s.HostHasNext(p, IdOf(s, p)) && s.hosts[p].pipe.Open? && s.hosts[p].router.Idle()
    ensures Enabled(s, CReceive(p, IdOf(s, p), handlerError))
    ensures var f := Down(s, p)[s.hosts[p].taken];
            Step(s, CReceive(p, IdOf(s, p), handlerError)) ==
            if C.ReceiveError(s.hosts[p].router, f, handlerError) == SUCCESS then ProcessGets(s, p, f)
            else LoseServer(ProcessGets(s, p, f), p)
  {
    hide C.Receive, C.ReceiveError, LoseServer;
  }

  lemma HostLosesIsStep(s: Sys, p: Pid)
    requires p in s.hosts && s.hosts[p].pipe.Open? && s.hosts[p].router.Idle()
    ensures Enabled(s, CPipeDown(p)) && Step(s, CPipeDown(p)) == LoseServer(s, p)
  {
  }

  lemma ProcessReadIsStep(b: Wired, e: WireEvent)
    requires e.ProcessReads? && Happens(b, e)
    requires IdsFit(b.net) && WiresFit(b) && ReadersFit(b.net, b.readers)
    ensures match LabelOf(b, e)
            case Some(l) => Enabled(b.net, l) && After(b, e).net == Step(b.net, l)
            case None => After(b, e).net == b.net
  {
    ProcessReadsNext(b, e);
    ProcessReadNet(b, e);
    hide F.Receive, F.TurnPossible, Handed, C.ReceiveError, LoseServer, ProcessGets;
    hide After, Step, Enabled, ReaderFits, WiresFit, IdsFit, ReadersFit;
    HostLosesIsStep(b.net, e.p);
    if Handed(b.readers[e.p], b.FromDaemon(e.p), e.turn).Some? { HostTakesIsStep(b.net, e.p, e.handlerError); }
  }

  lemma ProcessReadKeeps(b: Wired, e: WireEvent)
    requires e.ProcessReads? && Tied(b) && Happens(b, e)
    ensures Tied(After(b, e))
  {
    hide Inv, ContextsFit, ReadersFit, WiresFit, Step, Enabled, After, Happens;
    IdsOf(b.net);
    ProcessReadIsStep(b, e);
    ProcessReadWires(b, e);
    ProcessReadContexts(b, e);
    ProcessReadReaders(b, e);
    if LabelOf(b, e).Some? { NetworkTheorems.StepKeeps(b.net, LabelOf(b, e).value); }
  }

  // ---- Runs.

  /** An event over bytes is one enabled step of the network, or leaves it where it is. */
  lemma EventProjects(b: Wired, e: WireEvent)
    requires Tied(b) && Happens(b, e)
    ensures Tied(After(b, e))
    ensures match LabelOf(b, e)
            case Some(l) => Enabled(b.net, l) && After(b, e).net == Step(b.net, l)
            case None => After(b, e).net == b.net
  {
    hide Inv, Step, Enabled, WiresFit, ContextsFit, ReadersFit, AfterDaemonReads, AfterProcessReads, AfterAct;
    IdsOf(b.net);
    match e
    case Act(l, errors) =>
      ActKeeps(b, l, errors);
    case DaemonReads(_, _, _, _, _) =>
      DaemonReadIsStep(b, e);
      DaemonReadKeeps(b, e);
    case ProcessReads(_, _, _) =>
      ProcessReadIsStep(b, e);
      ProcessReadKeeps(b, e);
  }

  /** So every run over bytes projects to a run of the network. */
  lemma {:induction false} RunProjects(b: Wired, events: seq<WireEvent>)
    requires Tied(b) && Wires.Possible(b, events)
    ensures Tied(Wires.Run(b, events))
    ensures Allowed(b.net, Labels(b, events))
    ensures Wires.Run(b, events).net == Network.Run(b.net, Labels(b, events))
    decreases |events|
  {
    hide Tied, Happens, After, LabelOf, Enabled, Step;
    if events != [] {
      EventProjects(b, events[0]);
      RunProjects(After(b, events[0]), events[1..]);
    }
  }

  lemma UnwiredIsTied(services: set<ServiceId>)
    ensures Tied(Unwired(services))
  {
    var b := Unwired(services);
    NetworkTheorems.InitialGood(services);
    forall w ensures AllSendable(Log(b.net, w)) && b.On(w) == OnWire(Log(b.net, w)) {}
  }

  /** Whatever the reads give and however they cut the streams, the daemon and the processes
      only get into states that the network of frames reaches, and the socket's table is its
      set of open connections. */
  lemma BytesReachFrames(services: set<ServiceId>, events: seq<WireEvent>)
    requires Wires.Possible(Unwired(services), events)
    ensures var b := Wires.Run(Unwired(services), events);
            && NetworkTheorems.Reachable(services, b.net)
            && b.contexts.Keys == b.net.contexts
            && forall w :: b.On(w) == OnWire(Log(b.net, w))
  {
    hide Inv, OnWire, Log, AllSendable;
    UnwiredIsTied(services);
    RunProjects(Unwired(services), events);
  }

  // ---- Every step of the network happens.

  lemma ReaderWithin(r: F.Reader, log: seq<Frame>, n: nat)
    requires ReaderFits(r, log, n)
    ensures n <= |log| && r.taken <= |OnWire(log)|
  {
    hide F.Framed, RouteCodec.Message;
    var messages := Messages(log);
    if n < |messages| { F.EncodedSplit(messages, n); } else { assert messages[..n] == messages; }
    if r.phase.AtPayload? { FramedSize(messages[n]); }
  }

  lemma FramedSize(m: Payload)
    ensures |F.Framed(m)| == F.HEADER_SIZE + |m|
  {
  }

  /** The reads that take the next frame, wherever the reader is. */
  lemma NextTurn(r: F.Reader, log: seq<Frame>, n: nat, actionError: int) returns (turn: F.Turn)
    requires AllSendable(log) && ReaderFits(r, log, n) && n < |log|
    ensures F.TurnPossible(r, OnWire(log), turn) && turn.actionError == actionError
    ensures Handed(r, OnWire(log), turn) == Some(log[n])
  {
    hide Sendable, RouteCodec.Message, RouteCodec.Parse, F.Encoded;
    var m := RouteCodec.Message(log[n]);
    turn := F.Turn(F.Got(F.HEADER_SIZE), F.Got(|m|), actionError);
    MessagesAreSized(log);
    assert F.Sized(Messages(log)[n]);
    F.StreamAt(Messages(log), n, OnWire(log));
    ParsesBack(log, n);
    ReadsNext(r, log, n, turn);
  }

  /** A read that fails loses the connection and hands on nothing. */
  lemma FailedTurn(r: F.Reader, stream: Payload)
    requires r.taken <= |stream|
    ensures var turn := F.Turn(F.Failed(INVALID), F.Failed(INVALID), SUCCESS);
            && F.TurnPossible(r, stream, turn) && Handed(r, stream, turn).None?
            && F.Receive(r, stream, turn).1 != SUCCESS
  {
  }

  function Answers(frame: Option<Frame>, pipeError: int): seq<int> {
    seq(if frame.Some? then |Fragments(frame.value)| + 1 else 0, _ => pipeError)
  }

  lemma AnswersSend(frame: Option<Frame>, pipeError: int)
    requires frame.Some? ==> Sendable(frame.value)
    ensures Sends(frame, Answers(frame, pipeError), pipeError)
  {
    hide Sendable, Fragments;
    if frame.Some? {
      var errors := Answers(frame, pipeError);
      F.SucceedFirst(errors, if pipeError == SUCCESS then |errors| else 0);
    }
  }

  lemma ServerReadHappens(b: Wired, l: Label) returns (e: WireEvent)
    requires l.SReceive? && Tied(b) && Enabled(b.net, l)
    requires Writes(b.net, l).Some? ==> Sendable(Writes(b.net, l).value)
    ensures Happens(b, e) && LabelOf(b, e) == Some(l)
  {
    hide Inv, ReadersFit, S.ReceiveError, Reply, Sends, Sendable, ReaderFits, Handed, F.TurnPossible, OnWire;
    hide AllSendable;
    var s := b.net;
    var w := ToDaemon(s.sockets[l.c]);
    assert ContextFits(s, b.contexts[l.c], l.c);
    assert b.FromClient(l.c) == OnWire(Log(s, w)) && AllSendable(Log(s, w));
    var f := s.Next(l.c);
    var turn := NextTurn(b.contexts[l.c], Log(s, w), s.Taken(l.c),
                         S.ReceiveError(s.server, l.c, f, l.handlerError, l.pipeError));
    AnswersSend(Reply(s, l.c, f), l.pipeError);
    e := DaemonReads(l.c, turn, l.handlerError, l.pipeError, Answers(Reply(s, l.c, f), l.pipeError));
  }

  lemma ClientReadHappens(b: Wired, l: Label) returns (e: WireEvent)
    requires l.CReceive? && Tied(b) && Enabled(b.net, l)
    ensures Happens(b, e) && LabelOf(b, e) == Some(l)
  {
    hide ContextsFit, C.ReceiveError, ReaderFits, Handed, F.TurnPossible, OnWire, AllSendable, ProcessGood;
    var s, p := b.net, l.p;
    var log := Down(s, p);
    assert IdOf(s, p) == l.c;
    assert HostReads(s, b.readers[p], p);
    assert log == Log(s, ToProcess(l.c));
    var turn := NextTurn(b.readers[p], log, s.hosts[p].taken,
                         C.ReceiveError(s.hosts[p].router, log[s.hosts[p].taken], l.handlerError));
    e := ProcessReads(p, turn, l.handlerError);
  }

  lemma LossHappens(b: Wired, l: Label) returns (e: WireEvent)
    requires (l.SPipeDown? || l.CPipeDown?) && Tied(b) && Enabled(b.net, l) && !Acts(b.net, l)
    ensures Happens(b, e) && LabelOf(b, e) == Some(l)
  {
    hide Inv, S.ReceiveError, C.ReceiveError, ReaderFits, Handed, F.TurnPossible, F.Receive, OnWire, AllSendable;
    var s := b.net;
    var turn := F.Turn(F.Failed(INVALID), F.Failed(INVALID), SUCCESS);
    if l.SPipeDown? {
      assert ContextFits(s, b.contexts[l.c], l.c);
      assert b.FromClient(l.c) == OnWire(Log(s, ToDaemon(s.sockets[l.c])));
      ReaderWithin(b.contexts[l.c], Log(s, ToDaemon(s.sockets[l.c])), s.Taken(l.c));
      FailedTurn(b.contexts[l.c], b.FromClient(l.c));
      e := DaemonReads(l.c, turn, SUCCESS, SUCCESS, []);
    } else {
      assert HostReads(s, b.readers[l.p], l.p);
      assert b.FromDaemon(l.p) == OnWire(Down(s, l.p)) by { assert Down(s, l.p) == Log(s, ToProcess(IdOf(s, l.p))); }
      ReaderWithin(b.readers[l.p], Down(s, l.p), s.hosts[l.p].taken);
      FailedTurn(b.readers[l.p], b.FromDaemon(l.p));
      e := ProcessReads(l.p, turn, SUCCESS);
    }
  }

  /** Conversely every enabled step of the network is some event over bytes, as long as the
      frame it writes, if any, is within the size limit. */
  lemma EveryStepHappens(b: Wired, l: Label) returns (e: WireEvent)
    requires Tied(b) && Enabled(b.net, l)
    requires Writes(b.net, l).Some? ==> Sendable(Writes(b.net, l).value)
    ensures Happens(b, e) && LabelOf(b, e) == Some(l)
    ensures After(b, e).net == Step(b.net, l)
  {
    hide Tied, Enabled, Step, Sendable, Sends, Offered, Reply, AfterAct, AfterDaemonReads, AfterProcessReads;
    if Acts(b.net, l) {
      AnswersSend(Offered(b.net, l), PipeError(l));
      e := Act(l, Answers(Offered(b.net, l), PipeError(l)));
    } else if l.SReceive? {
      e := ServerReadHappens(b, l);
    } else if l.CReceive? {
      e := ClientReadHappens(b, l);
    } else {
      e := LossHappens(b, l);
    }
    EventProjects(b, e);
  }

  // ---- What a gateway is given, over bytes.

  /** A reader that has taken all there is has handed on all of the log. */
  lemma DrainedHasRead(r: F.Reader, log: seq<Frame>, n: nat)
    requires AllSendable(log) && ReaderFits(r, log, n) && r.taken == |OnWire(log)|
    ensures n == |log|
  {
    hide F.Encoded, RouteCodec.Message, Sendable;
    MessagesAreSized(log);
    if n < |log| {
      assert F.Sized(Messages(log)[n]);
      F.StreamAt(Messages(log), n, OnWire(log));
    }
  }

  /** In order, none twice and none from elsewhere, however the reads cut the streams; and
      all of it once the process has read every byte. */
  lemma DeliveredOverBytes(services: set<ServiceId>, events: seq<WireEvent>, p: Pid, t: Tag)
    requires Wires.Possible(Unwired(services), events)
    ensures var b := Wires.Run(Unwired(services), events);
            var s := b.net;
            p in s.hosts && t in s.hosts[p].router.gateways ==>
              var near, far := G.Gateway(s, p, t), G.Counterparts(s, p, t);
              && (forall v :: v in far ==> v.Delivered() <= near.sent)
              && (if far == [] then near.Delivered() == [] else near.Delivered() <= far[0].sent)
              && (p in b.readers && b.readers[p].taken == |b.FromDaemon(p)| && t in s.hosts[p].router.table ==>
                    near.Delivered() == if far == [] then [] else far[0].sent)
  {
    hide Inv, WiresFit, ContextsFit, Log, ReaderFits, OnWire, AllSendable, NetworkTheorems.Reachable;
    UnwiredIsTied(services);
    RunProjects(Unwired(services), events);
    BytesReachFrames(services, events);
    var b := Wires.Run(Unwired(services), events);
    if p in b.net.hosts && t in b.net.hosts[p].router.gateways {
      G.DeliveredInOrder(services, b.net, p, t);
      G.DeliveredInFull(services, b.net, p, t);
      if p in b.readers && b.readers[p].taken == |b.FromDaemon(p)| { ProcessHasRead(b, p); }
    }
  }

  lemma ProcessHasRead(b: Wired, p: Pid)
    requires WiresFit(b) && ReadersFit(b.net, b.readers) && p in b.readers && p in b.net.hosts
    requires b.readers[p].taken == |b.FromDaemon(p)|
    ensures b.net.hosts[p].taken == |Down(b.net, p)|
  {
    hide ReaderFits, OnWire, AllSendable;
    assert HostReads(b.net, b.readers[p], p);
    assert Down(b.net, p) == Log(b.net, ToProcess(IdOf(b.net, p)));
    DrainedHasRead(b.readers[p], Down(b.net, p), b.net.hosts[p].taken);
  }

  // ---- The daemon's socket object goes through the same tables.

  ghost predicate Serves(server: P.SocketServer, b: Wired)
    reads server
  {
    server.Valid() && server.uniqueClientIdCounter == b.net.counter && server.clientIdToContext == b.contexts
  }

  method AcceptOnWires(server: P.SocketServer, b: Wired, p: Pid)
    requires Serves(server, b) && Happens(b, Act(Accept(p), []))
    modifies server
    ensures Serves(server, After(b, Act(Accept(p), [])))
  {
    hide Sends, Offered;
    var c := server.HandleAccept();
  }

  method ReadOnWires(server: P.SocketServer, b: Wired, e: WireEvent)
    requires e.DaemonReads? && Serves(server, b) && Happens(b, e)
    modifies server`clientIdToContext, server`log, server`gone
    ensures Serves(server, After(b, e))
  {
    hide F.Receive, F.TurnPossible, Handed, Reply, Sends, Carried, S.ReceiveError, S.Receive, S.PipeDisconnected;
    server.HandleClientRequest(e.c, b.FromClient(e.c), e.turn);
  }

  /** No other event touches the table or hands out an id. */
  lemma TableStays(server: P.SocketServer, b: Wired, e: WireEvent)
    requires Serves(server, b) && Happens(b, e) && !e.DaemonReads? && !(e.Act? && e.l.Accept?)
    ensures Serves(server, After(b, e))
  {
    hide F.Receive, F.TurnPossible, Handed, Sends, Carried, Offered, P.SocketServer.Valid;
    if e.Act? {
      hide Step, Enabled, Acts;
      CounterStays(b.net, e.l);
      ActTables(b, e.l, e.errors);
    } else {
      hide C.ReceiveError, C.Receive, C.PipeDisconnected;
    }
  }

  lemma CounterStays(s: Sys, l: Label)
    requires Enabled(s, l) && !l.Accept?
    ensures Step(s, l).counter == s.counter
  {
    hide C.Send, C.Dispose, C.Subscribe, C.Greet, C.Mourn, C.Complete, C.MakeGateway, C.Receive, C.PipeDisconnected;
    hide S.Send, S.Dispose, S.Subscribe, S.Mourn, S.Complete, S.Receive, S.PipeDisconnected;
  }
}
