/** The routers number what they send: on one wire no two channel messages carry the same
    tag and sequence, accepted or not. So `TornFrames` says what torn sends do to them. */
module Numbering {
  import opened IpcTypes
  import opened Channel
  import opened Network
  import opened Projection
  import opened Wires
  import opened TornFrames
  import NetworkTheorems
  import RouterGuarantees
  import TornStream
  import C = ClientRouterSpec
  import S = ServerRouterSpec

  /** The frame that this step gives to the pipe for wire `w`, accepted or not. */
  function GivenBy(s: Sys, l: Label, w: Wire): seq<Frame>
    requires Enabled(s, l)
  {
    if Writes(s, l).Some? && (WireOf(l) == Some(w) || (l.SReceive? && w == ToProcess(l.c)))
    then [Writes(s, l).value] else []
  }

  /** All frames that a run gives to the pipe for this wire. */
  function Given(s: Sys, labels: seq<Label>, w: Wire): seq<Frame>
    requires Allowed(s, labels)
    decreases |labels|
  {
    if labels == [] then [] else GivenBy(s, labels[0], w) + Given(Step(s, labels[0]), labels[1..], w)
  }

  /** The next sequence number of the channel on this wire. */
  function Counter(s: Sys, w: Wire, t: Tag): nat {
    match w
    case ToDaemon(p) =>
      if p in s.hosts && t in s.hosts[p].router.gateways then s.hosts[p].router.gateways[t].nextSequence else 0
    case ToProcess(c) =>
      var objects := s.server.Objects(S.Endpoint(t, c));
      if objects == [] then 0 else objects[0].nextSequence
  }

  // ---- Only a message that is given to the pipe moves a counter.

  lemma ProcessCounts(s: Sys, l: Label, w: Wire, t: Tag)
    requires Enabled(s, l) && !RouterGuarantees.ByDaemon(l) && !l.CSend?
    requires l.CMake? ==> s.hosts[l.p].router.nextTag !in s.hosts[l.p].router.gateways
    ensures Counter(Step(s, l), w, t) == Counter(s, w, t)
  {
    hide Step;
    if l.CReceive? || l.CPipeUp? || l.CPipeDown? || l.Launch? || l.Accept? {
      PipeCounts(s, l, w, t);
    } else {
      UserCounts(s, l, w, t);
    }
  }

  lemma UserCounts(s: Sys, l: Label, w: Wire, t: Tag)
    requires Enabled(s, l)
    requires l.CMake? || l.CComplete? || l.CSubscribe? || l.CDispose? || l.CGreet? || l.CMourn?
    requires l.CMake? ==> s.hosts[l.p].router.nextTag !in s.hosts[l.p].router.gateways
    ensures Counter(Step(s, l), w, t) == Counter(s, w, t)
  {
  }

  lemma PipeCounts(s: Sys, l: Label, w: Wire, t: Tag)
    requires Enabled(s, l)
    requires l.CReceive? || l.CPipeUp? || l.CPipeDown? || l.Launch? || l.Accept?
    ensures Counter(Step(s, l), w, t) == Counter(s, w, t)
  {
    hide C.ReceiveError, C.Receive, C.PipeConnected, C.PipeDisconnected;
    if l.CReceive? {
      RouterCounts(s.hosts[l.p].router, s.server.Outbox(l.c)[s.hosts[l.p].taken], SUCCESS, t);
      RouterCounts(HostTakes(s, l.p, l.c).hosts[l.p].router, Empty, SUCCESS, t);
    } else if l.CPipeUp? {
      RouterCounts(s.hosts[l.p].router, Empty, l.pipeError, t);
    } else if l.CPipeDown? {
      RouterCounts(s.hosts[l.p].router, Empty, SUCCESS, t);
    }
  }

  lemma RouterCounts(r: C.ClientState, f: Frame, pipeError: int, t: Tag)
    ensures t in C.Receive(r, f).gateways <==> t in r.gateways
    ensures t in r.gateways ==> C.Receive(r, f).gateways[t].nextSequence == r.gateways[t].nextSequence
    ensures C.PipeDisconnected(r).gateways == r.gateways && C.PipeConnected(r, pipeError).gateways == r.gateways
  {
  }

  lemma ReceiveCounts(r: S.ServerState, c: ClientId, f: Frame, pipeError: int, e: S.Endpoint)
    ensures var r' := S.Receive(r, c, f, pipeError);
            (if r'.Objects(e) == [] then 0 else r'.Objects(e)[0].nextSequence) ==
            (if r.Objects(e) == [] then 0 else r.Objects(e)[0].nextSequence)
  {
  }

  lemma LossCounts(s: Sys, c: ClientId, e: S.Endpoint)
    ensures LoseClient(s, c).server.Objects(e) == s.server.Objects(e)
  {
  }

  lemma DaemonPipeCounts(s: Sys, l: Label, w: Wire, t: Tag)
    requires Enabled(s, l) && (l.SReceive? || l.SPipeDown?)
    ensures Counter(Step(s, l), w, t) == Counter(s, w, t)
  {
    hide S.Receive, S.ReceiveError, LoseClient;
    if w.ToProcess? {
      var e := S.Endpoint(t, w.c);
      LossCounts(s, l.c, e);
      if l.SReceive? {
        LossCounts(ServerTakes(s, l.c, l.pipeError), l.c, e);
        ReceiveCounts(s.server, l.c, s.Next(l.c), l.pipeError, e);
      }
    } else {
      LossHosts(s, l.c);
      if l.SReceive? { LossHosts(ServerTakes(s, l.c, l.pipeError), l.c); }
    }
  }

  lemma LossHosts(s: Sys, c: ClientId)
    ensures LoseClient(s, c).hosts == s.hosts
  {
  }

  /** The step gives a message of channel `t` to the pipe for this wire. */
  ghost predicate GivesOn(s: Sys, l: Label, w: Wire, t: Tag)
    requires Enabled(s, l)
  {
    exists f: Frame :: GivenBy(s, l, w) == [f] && f.ChannelMsg? && f.tag == t
  }

  /** The send reaches the pipe: its gateway is connected and registered. */
  predicate Gives(s: Sys, l: Label)
    requires Enabled(s, l) && l.CSend?
  {
    s.hosts[l.p].router.connected && l.t in s.hosts[l.p].router.table
  }

  lemma SendCounts(s: Sys, l: Label, w: Wire, t: Tag)
    requires Enabled(s, l) && l.CSend?
    ensures Counter(Step(s, l), w, t) == Counter(s, w, t) + if GivesOn(s, l, w, t) then 1 else 0
  {
    hide Step, Counter, Enabled;
    SendGives(s, l, w);
    SendMoves(s, l, w, t);
  }

  lemma SendGives(s: Sys, l: Label, w: Wire)
    requires Enabled(s, l) && l.CSend?
    ensures GivenBy(s, l, w) ==
            if w == ToDaemon(l.p) && Gives(s, l)
            then [ChannelMsg(l.t, s.hosts[l.p].router.gateways[l.t].nextSequence, l.service, l.payload)] else []
  {
  }

  lemma SendMoves(s: Sys, l: Label, w: Wire, t: Tag)
    requires Enabled(s, l) && l.CSend?
    ensures Counter(Step(s, l), w, t) ==
            Counter(s, w, t) + if w == ToDaemon(l.p) && t == l.t && Gives(s, l) then 1 else 0
  {
  }

  lemma DaemonSendCounts(s: Sys, l: Label, w: Wire, t: Tag)
    requires Enabled(s, l) && l.SSend? && |s.server.Objects(l.g.endpoint)| == 1
    ensures Counter(Step(s, l), w, t) == Counter(s, w, t) + if GivesOn(s, l, w, t) then 1 else 0
  {
    hide Step, Counter, Enabled;
    DaemonSendGives(s, l, w);
    DaemonSendMoves(s, l, w, t);
  }

  lemma DaemonSendGives(s: Sys, l: Label, w: Wire)
    requires Enabled(s, l) && l.SSend?
    ensures GivenBy(s, l, w) ==
            if w == ToProcess(l.g.endpoint.clientId) && s.server.Registered(l.g.endpoint).Some?
            then [ChannelMsg(l.g.endpoint.tag, s.server.At(l.g).nextSequence, l.service, l.payload)] else []
  {
  }

  lemma DaemonSendMoves(s: Sys, l: Label, w: Wire, t: Tag)
    requires Enabled(s, l) && l.SSend? && |s.server.Objects(l.g.endpoint)| == 1
    ensures var g := l.g.endpoint;
            Counter(Step(s, l), w, t) ==
            Counter(s, w, t) +
            if w == ToProcess(g.clientId) && t == g.tag && s.server.Registered(g).Some? then 1 else 0
  {
  }

  lemma DisposeCounts(s: Sys, l: Label, w: Wire, t: Tag)
    requires Enabled(s, l) && l.SDispose?
    ensures Counter(Step(s, l), w, t) == Counter(s, w, t)
  {
  }

  lemma SubscribeCounts(s: Sys, l: Label, w: Wire, t: Tag)
    requires Enabled(s, l) && (l.SComplete? || l.SSubscribe?)
    ensures Counter(Step(s, l), w, t) == Counter(s, w, t)
  {
  }

  lemma MournCounts(s: Sys, l: Label, w: Wire, t: Tag)
    requires Enabled(s, l) && l.SMourn?
    ensures Counter(Step(s, l), w, t) == Counter(s, w, t)
  {
  }

  // ---- A message carries the counter, and raises it.

  lemma ProcessNumbers(s: Sys, l: Label, w: Wire, f: Frame)
    requires Enabled(s, l) && l.CSend? && GivenBy(s, l, w) == [f]
    ensures f.ChannelMsg? && f.sequence == Counter(s, w, f.tag) && Counter(Step(s, l), w, f.tag) == f.sequence + 1
  {
  }

  lemma DaemonNumbers(s: Sys, l: Label, w: Wire, f: Frame)
    requires Enabled(s, l) && l.SSend? && GivenBy(s, l, w) == [f]
    requires |s.server.Objects(l.g.endpoint)| == 1
    ensures f.ChannelMsg? && f.sequence == Counter(s, w, f.tag) && Counter(Step(s, l), w, f.tag) == f.sequence + 1
  {
  }

  /** Nothing but a send gives a channel message to the pipe. */
  lemma OthersGiveNone(s: Sys, l: Label, w: Wire, f: Frame)
    requires Enabled(s, l) && !l.CSend? && !l.SSend? && GivenBy(s, l, w) == [f]
    ensures !f.ChannelMsg?
  {
  }

  lemma OneObject(s: Sys, g: S.Ref)
    requires Inv(s) && s.server.Usable(g)
    ensures |s.server.Objects(g.endpoint)| == 1
  {
    hide Good;
    var p := s.sockets[g.endpoint.clientId];
    assert ProcessGood(s, p);
    RouterGuarantees.AtMostOne(ChanOf(s, p, g.endpoint.tag));
  }

  lemma Counts(s: Sys, l: Label, w: Wire, t: Tag)
    requires Inv(s) && Enabled(s, l)
    ensures Counter(Step(s, l), w, t) == Counter(s, w, t) + if GivesOn(s, l, w, t) then 1 else 0
  {
    hide Step, Counter, GivenBy, Inv;
    if l.CSend? {
      SendCounts(s, l, w, t);
    } else if l.SSend? {
      OneObject(s, l.g);
      DaemonSendCounts(s, l, w, t);
    } else {
      if GivesOn(s, l, w, t) {
        var f: Frame :| GivenBy(s, l, w) == [f] && f.ChannelMsg?;
        OthersGiveNone(s, l, w, f);
      }
      OtherCounts(s, l, w, t);
    }
  }

  lemma OtherCounts(s: Sys, l: Label, w: Wire, t: Tag)
    requires Inv(s) && Enabled(s, l) && !l.CSend? && !l.SSend?
    ensures Counter(Step(s, l), w, t) == Counter(s, w, t)
  {
    hide Step, Counter, Good, Handshake, CursorsFit, IdsFit;
    if l.SReceive? || l.SPipeDown? {
      DaemonPipeCounts(s, l, w, t);
    } else if l.SDispose? {
      DisposeCounts(s, l, w, t);
    } else if l.SMourn? {
      MournCounts(s, l, w, t);
    } else if RouterGuarantees.ByDaemon(l) {
      SubscribeCounts(s, l, w, t);
    } else {
      if l.CMake? { assert ProcessGood(s, l.p); }
      ProcessCounts(s, l, w, t);
    }
  }

  lemma Numbers(s: Sys, l: Label, w: Wire, f: Frame)
    requires Inv(s) && Enabled(s, l) && GivenBy(s, l, w) == [f] && f.ChannelMsg?
    ensures f.sequence == Counter(s, w, f.tag) && Counter(Step(s, l), w, f.tag) == f.sequence + 1
  {
    hide Inv, Step, Counter, GivenBy;
    if l.CSend? {
      ProcessNumbers(s, l, w, f);
    } else if l.SSend? {
      OneObject(s, l.g);
      DaemonNumbers(s, l, w, f);
    } else {
      OthersGiveNone(s, l, w, f);
    }
  }

  // ---- Over a run.

  /** How many messages of channel `t` are among these frames. */
  function CountOn(frames: seq<Frame>, t: Tag): nat {
    if frames == [] then 0
    else (if frames[0].ChannelMsg? && frames[0].tag == t then 1 else 0) + CountOn(frames[1..], t)
  }

  lemma {:induction false} CountJoins(a: seq<Frame>, b: seq<Frame>, t: Tag)
    ensures CountOn(a + b, t) == CountOn(a, t) + CountOn(b, t)
    decreases |a|
  {
    if a == [] {
      assert a + b == b;
    } else {
      assert (a + b)[1..] == a[1..] + b;
      CountJoins(a[1..], b, t);
    }
  }

  lemma CountOne(s: Sys, l: Label, w: Wire, t: Tag)
    requires Enabled(s, l)
    ensures CountOn(GivenBy(s, l, w), t) == if GivesOn(s, l, w, t) then 1 else 0
  {
    hide Step, Writes;
    var given := GivenBy(s, l, w);
    if given != [] { assert given == [given[0]] && given[1..] == []; }
  }

  /** The next sequence number counts the messages given to the pipe, accepted or not. */
  lemma {:induction false} CounterCounts(s: Sys, labels: seq<Label>, w: Wire, t: Tag)
    requires Inv(s) && Allowed(s, labels)
    ensures Counter(Network.Run(s, labels), w, t) == Counter(s, w, t) + CountOn(Given(s, labels, w), t)
    decreases |labels|
  {
    hide Inv, Step, Enabled, Counter, GivenBy, GivesOn;
    if labels != [] {
      NetworkTheorems.StepKeeps(s, labels[0]);
      Counts(s, labels[0], w, t);
      CountOne(s, labels[0], w, t);
      CountJoins(GivenBy(s, labels[0], w), Given(Step(s, labels[0]), labels[1..], w), t);
      CounterCounts(Step(s, labels[0]), labels[1..], w, t);
    }
  }

  /** Every message carries the number of messages of its channel given before it. */
  lemma {:induction false} GivenInOrder(s: Sys, labels: seq<Label>, w: Wire, i: nat)
    requires Inv(s) && Allowed(s, labels) && i < |Given(s, labels, w)| && Given(s, labels, w)[i].ChannelMsg?
    ensures var given := Given(s, labels, w);
            given[i].sequence == Counter(s, w, given[i].tag) + CountOn(given[..i], given[i].tag)
    decreases |labels|
  {
    hide Inv, Step, Enabled, Counter, GivenBy, GivesOn;
    var s', first := Step(s, labels[0]), GivenBy(s, labels[0], w);
    var rest := Given(s', labels[1..], w);
    var f := Given(s, labels, w)[i];
    AtMostOneGiven(s, labels[0], w);
    if i < |first| {
      assert f in first;
      Numbers(s, labels[0], w, f);
    } else {
      NetworkTheorems.StepKeeps(s, labels[0]);
      assert rest[i - |first|] == f;
      GivenInOrder(s', labels[1..], w, i - |first|);
      Counts(s, labels[0], w, f.tag);
      CountOne(s, labels[0], w, f.tag);
      assert (first + rest)[..i] == first + rest[..i - |first|];
      CountJoins(first, rest[..i - |first|], f.tag);
    }
  }

  /** All channel messages given from here on are numbered from the counter up, and apart. */
  lemma {:induction false} GivenApart(s: Sys, labels: seq<Label>, w: Wire)
    requires Inv(s) && Allowed(s, labels)
    ensures forall f :: f in Given(s, labels, w) && f.ChannelMsg? ==> f.sequence >= Counter(s, w, f.tag)
    ensures Apart(Given(s, labels, w))
    decreases |labels|
  {
    hide Inv, Step, Enabled, Counter, GivenBy;
    if labels != [] {
      var s', first := Step(s, labels[0]), GivenBy(s, labels[0], w);
      NetworkTheorems.StepKeeps(s, labels[0]);
      GivenApart(s', labels[1..], w);
      AtMostOneGiven(s, labels[0], w);
      forall f | f in first && f.ChannelMsg?
        ensures f.sequence == Counter(s, w, f.tag) && Counter(s', w, f.tag) == f.sequence + 1
      {
        Numbers(s, labels[0], w, f);
      }
      forall t ensures Counter(s, w, t) <= Counter(s', w, t) { Counts(s, labels[0], w, t); }
      hide Apart;
      var rest := Given(s', labels[1..], w);
      forall j | 0 <= j < |rest| ensures first != [] ==> !SameNumber(first[0], rest[j]) {
        assert rest[j] in rest;
        if first != [] { assert first[0] in first; }
      }
      StillApart(first, rest);
    }
  }

  lemma StillApart(first: seq<Frame>, rest: seq<Frame>)
    requires |first| <= 1 && Apart(rest)
    requires forall j :: 0 <= j < |rest| && first != [] ==> !SameNumber(first[0], rest[j])
    ensures Apart(first + rest)
  {
    hide SameNumber;
    forall i, j | 0 <= i < j < |first + rest| ensures !SameNumber((first + rest)[i], (first + rest)[j]) {
      if i >= |first| { assert (first + rest)[i] == rest[i - |first|]; }
      assert (first + rest)[j] == rest[j - |first|];
    }
  }

  lemma AtMostOneGiven(s: Sys, l: Label, w: Wire)
    requires Enabled(s, l)
    ensures |GivenBy(s, l, w)| <= 1
    ensures forall f :: f in GivenBy(s, l, w) ==> GivenBy(s, l, w) == [f]
  {
  }

  /** So whatever the processes and the daemon do, and wherever the system calls for one wire
      fail, the peer is handed something else than a prefix of the accepted frames, for some
      schedule of reads, exactly if what follows the first torn send fills it. */
  lemma TornOnWire(services: set<ServiceId>, labels: seq<Label>, w: Wire, sends: seq<Sending>)
    requires Allowed(Initial(services), labels) && AllSent(sends)
    requires var given := Given(Initial(services), labels, w);
             |sends| == |given| && forall i :: 0 <= i < |sends| ==> sends[i].frame == given[i]
    ensures (exists turns :: GoesWrong(sends, turns)) <==>
            (exists i :: TornStream.FirstTorn(Made(sends), i) && TornStream.Filled(Made(sends), i))
  {
    hide Inv, AllSent, TornStream.Filled, TornStream.FirstTorn, GoesWrong;
    NetworkTheorems.InitialGood(services);
    GivenApart(Initial(services), labels, w);
    assert Numbered(sends) by {
      assert seq(|sends|, i requires 0 <= i < |sends| => sends[i].frame) == Given(Initial(services), labels, w);
    }
    StopsBeingPrefixIff(sends);
  }
}
