/** The guarantees of the two routers, over every run of any number of SDK processes. */
module RouterGuarantees {
  import opened IpcTypes
  import opened Channel
  import opened Network
  import opened Projection
  import opened NetworkTheorems
  import ChannelProofs
  import ClientSteps
  import C = ClientRouterSpec
  import S = ServerRouterSpec

  function Gateway(s: Sys, p: Pid, t: Tag): View
    requires p in s.hosts && t in s.hosts[p].router.gateways
  {
    s.hosts[p].router.gateways[t]
  }

  /** The gateways the daemon ever created for tag `t` of process `p`. */
  function Counterparts(s: Sys, p: Pid, t: Tag): seq<View> {
    s.server.Objects(S.Endpoint(t, IdOf(s, p)))
  }

  /** Messages arrive in order, none twice, none from elsewhere: what a gateway has been
      given is a prefix of what the pipe accepted from its one counterpart. */
  lemma DeliveredInOrder(services: set<ServiceId>, s: Sys, p: Pid, t: Tag)
    requires Reachable(services, s) && p in s.hosts && t in s.hosts[p].router.gateways
    ensures forall v :: v in Counterparts(s, p, t) ==> v.Delivered() <= Gateway(s, p, t).sent
    ensures Counterparts(s, p, t) == [] ==> Gateway(s, p, t).Delivered() == []
    ensures Counterparts(s, p, t) != [] ==> Gateway(s, p, t).Delivered() <= Counterparts(s, p, t)[0].sent
  {
    GoodChannel(services, s, p, t);
    var k := ChanOf(s, p, t);
    ItemsPrefix(k.upSeen, k.up);
    ItemsPrefix(k.downSeen, k.down);
  }

  /** Nothing is dropped either: once all frames are read, a gateway that its router still
      knows has been given everything its counterpart sent. */
  lemma DeliveredInFull(services: set<ServiceId>, s: Sys, p: Pid, t: Tag)
    requires Reachable(services, s) && p in s.hosts && t in s.hosts[p].router.gateways
    ensures t in s.hosts[p].router.table && s.hosts[p].taken == |Down(s, p)| ==>
              Gateway(s, p, t).Delivered() ==
                (if Counterparts(s, p, t) == [] then [] else Counterparts(s, p, t)[0].sent)
    ensures s.server.Registered(S.Endpoint(t, IdOf(s, p))).Some? && s.Taken(IdOf(s, p)) == |Up(s, p)| ==>
              |Counterparts(s, p, t)| == 1 && Counterparts(s, p, t)[0].Delivered() == Gateway(s, p, t).sent
  {
    GoodChannel(services, s, p, t);
    assert s.hosts[p].taken == |Down(s, p)| ==> Down(s, p)[..s.hosts[p].taken] == Down(s, p);
    assert s.Taken(IdOf(s, p)) == |Up(s, p)| ==> Up(s, p)[..s.Taken(IdOf(s, p))] == Up(s, p);
  }

  /** The daemon creates at most one gateway per endpoint, ever; so erasing by tag can only
      remove the registration of the gateway that is being destroyed. */
  lemma NoAliasing(services: set<ServiceId>, s: Sys, e: S.Endpoint)
    requires Reachable(services, s)
    ensures |s.server.Objects(e)| <= 1
    ensures s.server.Objects(e) != [] ==>
              && e.clientId in s.sockets && s.sockets[e.clientId] in s.hosts
              && e.tag in s.hosts[s.sockets[e.clientId]].router.gateways
    ensures forall g: S.Ref :: s.server.Usable(g) && g.endpoint == e && s.server.Registered(e).Some? ==>
              s.server.Registered(e).value == g.ordinal
  {
    hide Good, Reachable, ProcessGood;
    ReachableGood(services, s);
    if s.server.Objects(e) != [] || s.server.Registered(e).Some? {
      var p := s.sockets[e.clientId];
      GoodChannel(services, s, p, e.tag);
      AtMostOne(ChanOf(s, p, e.tag));
    }
  }

  lemma AtMostOne(k: Chan)
    requires Good(k)
    ensures |k.far.views| <= 1 && (k.far.views != [] ==> k.near.made)
    ensures k.far.named.Some? ==> k.far.named.value == 0
  {
    hide Delivery;
  }

  /** The client id to whose pipe the daemon's router writes in this step, accepted or not. */
  function WritesTo(s: Sys, l: Label): Option<ClientId>
    requires Enabled(s, l)
  {
    match l
    case SSend(g, _, _, _) =>
      if s.server.Registered(g.endpoint).Some? then Some(g.endpoint.clientId) else None
    case SDispose(g, _) =>
      if s.server.Registered(g.endpoint).Some? then Some(g.endpoint.clientId) else None
    case SReceive(c, _, _) => if s.Next(c).Connect? then Some(c) else None
    case _ => None
  }

  // ---- Channel ends.

  lemma {:induction false} OrderlyLog(log: seq<Frame>, t: Tag, bound: nat, i: nat, j: nat)
    requires Orderly(OnTag(log, t), t, bound) && i < j < |log| && log[i].For(t) && log[j].For(t)
    ensures log[i].ChannelMsg?
    ensures log[j].ChannelMsg? ==> log[i].sequence < log[j].sequence
    decreases |log|
  {
    var shorter := log[..|log| - 1];
    var last := log[|log| - 1];
    assert log == shorter + [last];
    OnTagAppend(shorter, last, t);
    if j == |log| - 1 {
      assert shorter[i] == log[i];
      OnTagMembers(shorter, t, log[i]);
      var k :| 0 <= k < |OnTag(shorter, t)| && OnTag(shorter, t)[k] == log[i];
      assert OnTag(log, t)[k] == log[i];
      assert OnTag(log, t)[|OnTag(log, t)| - 1] == last;
    } else {
      assert Orderly(OnTag(shorter, t), t, bound) by {
        var a, b := OnTag(shorter, t), OnTag(log, t);
        assert a <= b;
        assert forall n :: 0 <= n < |a| ==> a[n] == b[n];
      }
      OrderlyLog(shorter, t, bound, i, j);
    }
  }

  /** A channel end is the last frame of its tag in its direction, so there is at most one;
      a process never ends a channel on which it did not try to send. */
  lemma EndIsLastFrame(services: set<ServiceId>, s: Sys, p: Pid, t: Tag, i: nat, j: nat)
    requires Reachable(services, s) && p in s.hosts
    ensures i < j < |Up(s, p)| && Up(s, p)[i].ChannelEnd? && Up(s, p)[i].tag == t ==> !Up(s, p)[j].For(t)
    ensures i < j < |Down(s, p)| && Down(s, p)[i].ChannelEnd? && Down(s, p)[i].tag == t ==> !Down(s, p)[j].For(t)
    ensures i < |Up(s, p)| && Up(s, p)[i].ChannelEnd? && Up(s, p)[i].tag == t ==>
              && t in s.hosts[p].router.gateways && Gateway(s, p, t).nextSequence > 0
              && !Gateway(s, p, t).alive && Up(s, p)[i].error == Gateway(s, p, t).completionError
    ensures i < |Down(s, p)| && Down(s, p)[i].ChannelEnd? && Down(s, p)[i].tag == t ==>
              && |Counterparts(s, p, t)| == 1 && !Counterparts(s, p, t)[0].alive
              && Down(s, p)[i].error == Counterparts(s, p, t)[0].completionError
  {
    hide Good, OnTag, Reachable, HostFits, IdsFit, Handshake, CursorsFit;
    GoodChannel(services, s, p, t);
    if i < |Up(s, p)| && Up(s, p)[i].ChannelEnd? && Up(s, p)[i].tag == t {
      NearEnds(ChanOf(s, p, t), Up(s, p), i, j);
    }
    if i < |Down(s, p)| && Down(s, p)[i].ChannelEnd? && Down(s, p)[i].tag == t {
      FarEnds(ChanOf(s, p, t), Down(s, p), i, j);
    }
  }

  lemma EndOfLog(log: seq<Frame>, t: Tag, bound: nat, i: nat, j: nat)
    requires Orderly(OnTag(log, t), t, bound) && i < |log| && log[i].ChannelEnd? && log[i].tag == t
    ensures Ended(OnTag(log, t)) && OnTag(log, t)[|OnTag(log, t)| - 1] == log[i]
    ensures i < j < |log| ==> !log[j].For(t)
  {
    hide Orderly;
    OnTagMembers(log, t, log[i]);
    EndIsAtTheEnd(OnTag(log, t), t, bound, log[i]);
    if i < j < |log| && log[j].For(t) { OrderlyLog(log, t, bound, i, j); }
  }

  lemma NearEnds(k: Chan, log: seq<Frame>, i: nat, j: nat)
    requires Good(k) && k.up == OnTag(log, k.tag) && i < |log| && log[i].ChannelEnd? && log[i].tag == k.tag
    ensures i < j < |log| ==> !log[j].For(k.tag)
    ensures k.near.made && k.near.view.nextSequence > 0
    ensures !k.near.view.alive && log[i].error == k.near.view.completionError
  {
    hide Orderly, Delivery, OnTag;
    EndOfLog(log, k.tag, k.near.view.nextSequence, i, j);
  }

  lemma FarEnds(k: Chan, log: seq<Frame>, i: nat, j: nat)
    requires Good(k) && k.down == OnTag(log, k.tag) && i < |log| && log[i].ChannelEnd? && log[i].tag == k.tag
    ensures i < j < |log| ==> !log[j].For(k.tag)
    ensures |k.far.views| == 1 && !k.far.views[0].alive && log[i].error == k.far.views[0].completionError
  {
    hide Orderly, Delivery, OnTag;
    OnTagMembers(log, k.tag, log[i]);
    EndOfLog(log, k.tag, k.far.views[0].nextSequence, i, j);
  }

  lemma EndIsAtTheEnd(frames: seq<Frame>, t: Tag, bound: nat, f: Frame)
    requires Orderly(frames, t, bound) && f in frames && f.ChannelEnd?
    ensures Ended(frames) && frames[|frames| - 1] == f
  {
  }

  /** Once a process has read the daemon's end of a channel, it sends nothing more on it:
      an end is never answered by an end. */
  lemma EndIsNotAnswered(services: set<ServiceId>, s: Sys, l: Label, p: Pid, t: Tag, i: nat)
    requires Reachable(services, s) && Enabled(s, l)
    requires p in s.hosts && i < s.hosts[p].taken && i < |Down(s, p)|
    requires Down(s, p)[i].ChannelEnd? && Down(s, p)[i].tag == t
    ensures p in Step(s, l).hosts && OnTag(Up(Step(s, l), p), t) == OnTag(Up(s, p), t)
  {
    hide Good, Step, Enabled, OnTag, IdsFit, HostFits, Reachable;
    GoodChannel(services, s, p, t);
    ProcessIsDone(s, p, t, i);
    SilentProcess(s, l, p, t);
  }

  /** A process writes nothing on a tag that is not in its table. */
  lemma SilentProcess(s: Sys, l: Label, p: Pid, t: Tag)
    requires Enabled(s, l) && p in s.hosts && t !in s.hosts[p].router.table
    ensures p in Step(s, l).hosts && OnTag(Up(Step(s, l), p), t) == OnTag(Up(s, p), t)
  {
    if ByDaemon(l) {
      hide Step, OnTag;
      DaemonStepLeavesProcesses(s, l);
    } else {
      SilentStep(s, l, p, t);
    }
  }

  lemma SilentStep(s: Sys, l: Label, p: Pid, t: Tag)
    requires Enabled(s, l) && !ByDaemon(l) && p in s.hosts && t !in s.hosts[p].router.table
    ensures p in Step(s, l).hosts && OnTag(Up(Step(s, l), p), t) == OnTag(Up(s, p), t)
  {
    if l.CReceive? || l.CPipeDown? || l.CPipeUp? || l.Launch? {
      SilentPipe(s, l, p, t);
    } else {
      SilentUser(s, l, p, t);
    }
  }

  lemma SilentPipe(s: Sys, l: Label, p: Pid, t: Tag)
    requires Enabled(s, l) && p in s.hosts && (l.CReceive? || l.CPipeDown? || l.CPipeUp? || l.Launch?)
    ensures p in Step(s, l).hosts && OnTag(Up(Step(s, l), p), t) == OnTag(Up(s, p), t)
  {
    hide OnTag, C.Receive, C.ReceiveError;
    if l.CPipeUp? && l.p == p {
      OnTagAppend(Up(s, p), HELLO, t);
    } else if l.CReceive? && l.p == p {
      ReceivingIsSilent(s.hosts[p].router, s.server.Outbox(l.c)[s.hosts[p].taken]);
    }
  }

  lemma ReceivingIsSilent(r: C.ClientState, f: Frame)
    ensures C.Receive(r, f).outbox == r.outbox
  {
  }

  lemma SilentUser(s: Sys, l: Label, p: Pid, t: Tag)
    requires Enabled(s, l) && !ByDaemon(l) && !l.CReceive? && !l.CPipeDown? && !l.CPipeUp? && !l.Launch?
    requires p in s.hosts && t !in s.hosts[p].router.table
    ensures p in Step(s, l).hosts && OnTag(Up(Step(s, l), p), t) == OnTag(Up(s, p), t)
  {
    hide OnTag;
    if l.CSend? && l.p == p {
      OnTagAppend(Up(s, p), ChannelMsg(l.t, Gateway(s, p, l.t).nextSequence, l.service, l.payload), t);
    } else if l.CDispose? && l.p == p {
      OnTagAppend(Up(s, p), ChannelEnd(l.t, Gateway(s, p, l.t).completionError), t);
    }
  }

  lemma ProcessIsDone(s: Sys, p: Pid, t: Tag, i: nat)
    requires p in s.hosts && Readable(s, p) && Good(ChanOf(s, p, t))
    requires i < s.hosts[p].taken && Down(s, p)[i].ChannelEnd? && Down(s, p)[i].tag == t
    ensures t !in s.hosts[p].router.table
  {
    var k := ChanOf(s, p, t);
    var f := Down(s, p)[i];
    assert f == Down(s, p)[..s.hosts[p].taken][i];
    OnTagMembers(Down(s, p)[..s.hosts[p].taken], t, f);
    EndWasRead(k.downSeen, k.down, t, k.far.views[0].nextSequence, f);
  }

  lemma EndWasRead(seen: seq<Frame>, sent: seq<Frame>, t: Tag, bound: nat, f: Frame)
    requires Orderly(sent, t, bound) && seen <= sent && f in seen && f.ChannelEnd?
    ensures Ended(seen) && Ended(sent)
  {
    EndIsAtTheEnd(sent, t, bound, f);
    var i :| 0 <= i < |seen| && seen[i] == f;
    assert sent[i] == f;
  }

  /** The same of the daemon: having read a process's end, it sends nothing more on that tag. */
  lemma EndIsNotAnsweredByDaemon(services: set<ServiceId>, s: Sys, l: Label, p: Pid, t: Tag, i: nat)
    requires Reachable(services, s) && Enabled(s, l)
    requires p in s.hosts && i < s.Taken(IdOf(s, p)) && i < |Up(s, p)|
    requires Up(s, p)[i].ChannelEnd? && Up(s, p)[i].tag == t
    ensures OnTag(Down(Step(s, l), p), t) == OnTag(Down(s, p), t)
  {
    hide Good, Step, Enabled, WritesTo;
    GoodChannel(services, s, p, t);
    DaemonIsDone(s, p, t, i);
    assert p in s.ids;
    UnregisteredIsSilent(s, l, p, t);
  }

  lemma UnregisteredIsSilent(s: Sys, l: Label, p: Pid, t: Tag)
    requires Enabled(s, l) && p in s.ids && s.server.Registered(S.Endpoint(t, s.ids[p])).None?
    ensures OnTag(Down(Step(s, l), p), t) == OnTag(Down(s, p), t)
  {
    var c := s.ids[p];
    KeepsId(s, l, p);
    WritesOnlyThere(s, l, c);
    if WritesTo(s, l) == Some(c) {
      hide Step, OnTag;
      if l.SSend? {
        OnTagAppend(s.server.Outbox(c),
                    ChannelMsg(l.g.endpoint.tag, s.server.At(l.g).nextSequence, l.service, l.payload), t);
      } else if l.SDispose? {
        OnTagAppend(s.server.Outbox(c), ChannelEnd(l.g.endpoint.tag, s.server.At(l.g).completionError), t);
      } else {
        OnTagAppend(s.server.Outbox(c), HELLO, t);
      }
      WritesThis(s, l, c);
    }
  }

  lemma KeepsId(s: Sys, l: Label, p: Pid)
    requires Enabled(s, l) && p in s.ids
    ensures p in Step(s, l).ids && Step(s, l).ids[p] == s.ids[p]
  {
  }

  /** What a step writes to the pipe it writes to. */
  lemma WritesThis(s: Sys, l: Label, c: ClientId)
    requires Enabled(s, l) && WritesTo(s, l) == Some(c)
    ensures var f := if l.SSend? then
                       ChannelMsg(l.g.endpoint.tag, s.server.At(l.g).nextSequence, l.service, l.payload)
                     else if l.SDispose? then ChannelEnd(l.g.endpoint.tag, s.server.At(l.g).completionError)
                     else HELLO;
            Step(s, l).server.Outbox(c) == Accepted(s.server.Outbox(c), f, l.pipeError)
  {
  }

  lemma WritesOnlyThere(s: Sys, l: Label, c: ClientId)
    requires Enabled(s, l)
    ensures Step(s, l).server.Outbox(c) != s.server.Outbox(c) ==> WritesTo(s, l) == Some(c)
  {
    if ByDaemon(l) {
      DaemonWritesOnlyThere(s, l, c);
    } else {
      hide Step, WritesTo;
      ProcessStepLeavesDaemon(s, l);
    }
  }

  lemma DaemonWritesOnlyThere(s: Sys, l: Label, c: ClientId)
    requires Enabled(s, l) && ByDaemon(l)
    ensures Step(s, l).server.Outbox(c) != s.server.Outbox(c) ==> WritesTo(s, l) == Some(c)
  {
    if l.SReceive? || l.SPipeDown? || l.SMourn? {
      PipeWritesOnlyThere(s, l, c);
    } else {
      UserWritesOnlyThere(s, l, c);
    }
  }

  lemma PipeWritesOnlyThere(s: Sys, l: Label, c: ClientId)
    requires Enabled(s, l) && (l.SReceive? || l.SPipeDown? || l.SMourn?)
    ensures Step(s, l).server.Outbox(c) != s.server.Outbox(c) ==> WritesTo(s, l) == Some(c)
  {
    hide S.Receive, S.ReceiveError;
    if l.SReceive? { ReceiveWrites(s.server, l.c, s.Next(l.c), l.pipeError, c); }
  }

  lemma UserWritesOnlyThere(s: Sys, l: Label, c: ClientId)
    requires Enabled(s, l) && (l.SSend? || l.SComplete? || l.SSubscribe? || l.SDispose?)
    ensures Step(s, l).server.Outbox(c) != s.server.Outbox(c) ==> WritesTo(s, l) == Some(c)
  {
  }

  lemma ReceiveWrites(r: S.ServerState, c: ClientId, f: Frame, pipeError: int, d: ClientId)
    ensures S.Receive(r, c, f, pipeError).Outbox(d) != r.Outbox(d) ==> f.Connect? && d == c
  {
  }

  lemma DaemonIsDone(s: Sys, p: Pid, t: Tag, i: nat)
    requires p in s.hosts && Readable(s, p) && Good(ChanOf(s, p, t))
    requires i < s.Taken(IdOf(s, p)) && Up(s, p)[i].ChannelEnd? && Up(s, p)[i].tag == t
    ensures s.server.Registered(S.Endpoint(t, IdOf(s, p))).None?
  {
    var k := ChanOf(s, p, t);
    var f := Up(s, p)[i];
    assert f == Up(s, p)[..s.Taken(IdOf(s, p))][i];
    OnTagMembers(Up(s, p)[..s.Taken(IdOf(s, p))], t, f);
    EndWasRead(k.upSeen, k.up, t, k.near.view.nextSequence, f);
  }

  /** A channel that was completed by its other end, and not by a lost connection, was
      completed in full: that end is gone, with this error code, and all it sent arrived. */
  lemma CompletedInFull(services: set<ServiceId>, s: Sys, p: Pid, t: Tag, error: int)
    requires Reachable(services, s) && p in s.hosts && t in s.hosts[p].router.gateways
    requires Completed(error) in Gateway(s, p, t).events && error != DISCONNECTED
    ensures |Counterparts(s, p, t)| == 1
    ensures var v := Counterparts(s, p, t)[0];
            !v.alive && v.completionError == error && Gateway(s, p, t).Delivered() == v.sent
  {
    hide Good, CursorsFit, HostFits, Handshake, IdsFit, Reachable;
    GoodChannel(services, s, p, t);
    NearCompleted(ChanOf(s, p, t), error);
  }

  lemma NearCompleted(k: Chan, error: int)
    requires Good(k) && Completed(error) in k.near.view.events && error != DISCONNECTED
    ensures |k.far.views| == 1
    ensures !k.far.views[0].alive && k.far.views[0].completionError == error
    ensures k.near.view.Delivered() == k.far.views[0].sent
  {
    hide Orderly;
    CompletionIsLast(k.near.view, error);
  }

  lemma FarCompleted(k: Chan, error: int)
    requires Good(k) && k.far.views != [] && Completed(error) in k.far.views[0].events && error != DISCONNECTED
    ensures k.near.made && !k.near.view.alive && k.near.view.completionError == error
    ensures k.far.views[0].Delivered() == k.near.view.sent
  {
    hide Orderly;
    CompletionIsLast(k.far.views[0], error);
  }

  lemma CompletionIsLast(v: View, error: int)
    requires v.CompletesOnce() && Completed(error) in v.events
    ensures v.Finished() && v.events[|v.events| - 1] == Completed(error)
  {
  }

  lemma CompletedInFullAtDaemon(services: set<ServiceId>, s: Sys, p: Pid, t: Tag, error: int)
    requires Reachable(services, s) && p in s.hosts && Counterparts(s, p, t) != []
    requires Completed(error) in Counterparts(s, p, t)[0].events && error != DISCONNECTED
    ensures t in s.hosts[p].router.gateways
    ensures var v := Gateway(s, p, t);
            !v.alive && v.completionError == error && Counterparts(s, p, t)[0].Delivered() == v.sent
  {
    hide Good, CursorsFit, HostFits, Handshake, IdsFit, Reachable;
    GoodChannel(services, s, p, t);
    FarCompleted(ChanOf(s, p, t), error);
  }

  // ---- Events.

  lemma {:induction false} MessageIsDelivered(events: seq<Event>, e: Event)
    requires e in events && e.Message?
    ensures Item(e.sequence, e.payload) in MessagesIn(events)
  {
    var shorter, last := events[..|events| - 1], events[|events| - 1];
    assert events == shorter + [last];
    if e in shorter { MessageIsDelivered(shorter, e); }
  }

  /** Every gateway is told of its completion at most once and of nothing afterwards; no
      gateway of a process is given a message before the handshake is over. */
  lemma EventLanguage(services: set<ServiceId>, s: Sys, p: Pid, t: Tag)
    requires Reachable(services, s) && p in s.hosts && t in s.hosts[p].router.gateways
    ensures Gateway(s, p, t).CompletesOnce()
    ensures forall v :: v in Counterparts(s, p, t) ==> v.CompletesOnce()
    ensures (exists e :: e in Gateway(s, p, t).events && e.Message?) ==>
              0 < s.hosts[p].taken <= |Down(s, p)| && Down(s, p)[0].Connect?
  {
    hide Good, HostFits, IdsFit, Reachable;
    GoodChannel(services, s, p, t);
    Language(ChanOf(s, p, t));
    if e :| e in Gateway(s, p, t).events && e.Message? {
      assert Down(s, p)[..s.hosts[p].taken] != [];
    }
  }

  lemma Language(k: Chan)
    requires Good(k)
    ensures k.near.view.CompletesOnce() && forall v :: v in k.far.views ==> v.CompletesOnce()
    ensures forall e :: e in k.near.view.events && e.Message? ==> k.downSeen != []
  {
    hide Stream, UpGood;
    if e :| e in k.near.view.events && e.Message? {
      MessageIsDelivered(k.near.view.events, e);
      assert k.near.view.Delivered() == MessagesIn(k.near.view.events);
      assert k.near.view.Delivered() != [];
    }
  }

  /** A gateway that was told of its completion is told nothing by any later step. */
  lemma NothingAfterCompletion(services: set<ServiceId>, s: Sys, l: Label, p: Pid, t: Tag)
    requires Reachable(services, s) && Enabled(s, l) && p in s.hosts && t in s.hosts[p].router.gateways
    requires Gateway(s, p, t).Finished()
    ensures p in Step(s, l).hosts && t in Step(s, l).hosts[p].router.gateways
    ensures Gateway(Step(s, l), p, t).events == Gateway(s, p, t).events
  {
    hide Good, Step, Enabled;
    GoodChannel(services, s, p, t);
    GoodNear(ChanOf(s, p, t));
    QuietStep(s, l, p, t);
  }

  lemma QuietStep(s: Sys, l: Label, p: Pid, t: Tag)
    requires Enabled(s, l) && p in s.hosts && HostFits(s.hosts[p])
    requires t in s.hosts[p].router.gateways && t !in s.hosts[p].router.table
    requires t !in s.hosts[p].router.greeting && t !in s.hosts[p].router.mourning
    ensures p in Step(s, l).hosts && t in Step(s, l).hosts[p].router.gateways
    ensures Gateway(Step(s, l), p, t).events == Gateway(s, p, t).events
  {
    if ByDaemon(l) {
      hide Step;
      DaemonStepLeavesProcesses(s, l);
    } else if l.CReceive? || l.CPipeDown? || l.CPipeUp? {
      QuietPipe(s, l, p, t);
    } else {
      QuietUser(s, l, p, t);
    }
  }

  lemma QuietPipe(s: Sys, l: Label, p: Pid, t: Tag)
    requires Enabled(s, l) && p in s.hosts && (l.CReceive? || l.CPipeDown? || l.CPipeUp?)
    requires t in s.hosts[p].router.gateways && t !in s.hosts[p].router.table
    ensures p in Step(s, l).hosts && t in Step(s, l).hosts[p].router.gateways
    ensures Gateway(Step(s, l), p, t).events == Gateway(s, p, t).events
  {
    hide C.Receive, C.ReceiveError;
    if l.CReceive? && l.p == p {
      QuietReceive(s.hosts[p].router, s.server.Outbox(l.c)[s.hosts[p].taken], t);
    }
  }

  lemma QuietReceive(r: C.ClientState, f: Frame, t: Tag)
    requires t in r.gateways && t !in r.table
    ensures t in C.Receive(r, f).gateways && C.Receive(r, f).gateways[t] == r.gateways[t]
  {
  }

  lemma QuietUser(s: Sys, l: Label, p: Pid, t: Tag)
    requires Enabled(s, l) && p in s.hosts && !ByDaemon(l) && !l.CReceive? && !l.CPipeDown? && !l.CPipeUp?
    requires HostFits(s.hosts[p])
    requires t in s.hosts[p].router.gateways && t !in s.hosts[p].router.table
    requires t !in s.hosts[p].router.greeting && t !in s.hosts[p].router.mourning
    ensures p in Step(s, l).hosts && t in Step(s, l).hosts[p].router.gateways
    ensures Gateway(Step(s, l), p, t).events == Gateway(s, p, t).events
  {
  }

  lemma GoodNear(k: Chan)
    requires Good(k)
    ensures NearGood(k.near)
  {
  }

  /** The same of the daemon's gateways. */
  lemma NothingAfterCompletionAtDaemon(services: set<ServiceId>, s: Sys, l: Label, g: S.Ref)
    requires Reachable(services, s) && Enabled(s, l) && s.server.Exists(g) && s.server.At(g).Finished()
    ensures Step(s, l).server.Exists(g) && Step(s, l).server.At(g).events == s.server.At(g).events
  {
    hide Good, Step, Enabled, ProcessGood;
    ReachableGood(services, s);
    var p := s.sockets[g.endpoint.clientId];
    GoodChannel(services, s, p, g.endpoint.tag);
    GoodFar(ChanOf(s, p, g.endpoint.tag));
    QuietDaemon(s, l, g);
  }

  lemma GoodFar(k: Chan)
    requires Good(k)
    ensures FarGood(k.far)
  {
  }

  lemma QuietDaemon(s: Sys, l: Label, g: S.Ref)
    requires Enabled(s, l) && s.server.Exists(g) && s.server.Registered(g.endpoint).None? && g !in s.server.mourning
    ensures Step(s, l).server.Exists(g) && Step(s, l).server.At(g).events == s.server.At(g).events
  {
    if l.SReceive? || l.SPipeDown? || l.SMourn? {
      QuietDaemonPipe(s, l, g);
    } else if ByDaemon(l) {
      QuietDaemonUser(s, l, g);
    } else {
      hide Step;
      ProcessStepLeavesDaemon(s, l);
    }
  }

  lemma QuietDaemonPipe(s: Sys, l: Label, g: S.Ref)
    requires Enabled(s, l) && (l.SReceive? || l.SPipeDown? || l.SMourn?)
    requires s.server.Exists(g) && s.server.Registered(g.endpoint).None? && g !in s.server.mourning
    ensures Step(s, l).server.Exists(g) && Step(s, l).server.At(g).events == s.server.At(g).events
  {
    hide S.Receive, S.ReceiveError;
    if l.SReceive? { QuietDaemonReceive(s.server, l.c, s.Next(l.c), l.pipeError, g); }
  }

  lemma QuietDaemonUser(s: Sys, l: Label, g: S.Ref)
    requires Enabled(s, l) && (l.SSend? || l.SComplete? || l.SSubscribe? || l.SDispose?)
    requires s.server.Exists(g) && s.server.Registered(g.endpoint).None?
    ensures Step(s, l).server.Exists(g) && Step(s, l).server.At(g).events == s.server.At(g).events
  {
  }

  lemma QuietDaemonReceive(r: S.ServerState, c: ClientId, f: Frame, pipeError: int, g: S.Ref)
    requires r.Exists(g) && r.Registered(g.endpoint).None?
    ensures S.Receive(r, c, f, pipeError).Exists(g) && S.Receive(r, c, f, pipeError).At(g) == r.At(g)
  {
  }

  // ---- The connection.

  /** While a process is connected the daemon routes it, unless it has dropped it already. */
  lemma HandshakeAgrees(services: set<ServiceId>, s: Sys, p: Pid)
    requires Reachable(services, s) && p in s.hosts && s.hosts[p].router.connected
    ensures p in s.ids && (s.server.Routed(s.ids[p]) || s.ids[p] !in s.contexts)
  {
    hide Good;
    GoodChannel(services, s, p, 0);
  }

  /** No frame is empty, and only the first can be a connect frame, of version 0.1. */
  predicate OneConnect(log: seq<Frame>) {
    forall i :: 0 <= i < |log| ==>
      !log[i].Empty? && (log[i].Connect? ==> i == 0 && log[i] == Connect(0, 1, 0))
  }

  ghost predicate ConnectsOnce(s: Sys) {
    && (forall p :: p in s.hosts ==> OneConnect(s.hosts[p].router.outbox))
    && (forall c: ClientId :: OneConnect(s.server.Outbox(c)))
  }

  /** What a step adds to what a process has written. */
  lemma ProcessWrites(s: Sys, l: Label, p: Pid)
    requires Enabled(s, l) && p in Step(s, l).hosts
    ensures p !in s.hosts ==> Up(Step(s, l), p) == []
    ensures p in s.hosts ==>
              || Up(Step(s, l), p) == Up(s, p)
              || (s.hosts[p].pipe.Connecting? && Up(Step(s, l), p) == Up(s, p) + [HELLO])
              || (exists f: Frame :: (f.ChannelMsg? || f.ChannelEnd?) && Up(Step(s, l), p) == Up(s, p) + [f])
  {
    if ByDaemon(l) {
      hide Step;
      DaemonStepLeavesProcesses(s, l);
    } else if l.CReceive? || l.CPipeDown? || l.CPipeUp? || l.Launch? {
      PipeWrites(s, l, p);
    } else {
      UserWrites(s, l, p);
    }
  }

  lemma PipeWrites(s: Sys, l: Label, p: Pid)
    requires Enabled(s, l) && p in Step(s, l).hosts && (l.CReceive? || l.CPipeDown? || l.CPipeUp? || l.Launch?)
    ensures p !in s.hosts ==> Up(Step(s, l), p) == []
    ensures p in s.hosts ==>
              || Up(Step(s, l), p) == Up(s, p)
              || (s.hosts[p].pipe.Connecting? && Up(Step(s, l), p) == Up(s, p) + [HELLO])
  {
    hide C.Receive, C.ReceiveError;
    if l.CReceive? && l.p == p {
      ReceivingIsSilent(s.hosts[p].router, s.server.Outbox(l.c)[s.hosts[p].taken]);
    }
  }

  lemma UserWrites(s: Sys, l: Label, p: Pid)
    requires Enabled(s, l) && !ByDaemon(l) && !l.CReceive? && !l.CPipeDown? && !l.CPipeUp? && !l.Launch?
    requires p in Step(s, l).hosts
    ensures p in s.hosts
    ensures || Up(Step(s, l), p) == Up(s, p)
            || (exists f: Frame :: (f.ChannelMsg? || f.ChannelEnd?) && Up(Step(s, l), p) == Up(s, p) + [f])
  {
    if l.CSend? && l.p == p {
      var f := ChannelMsg(l.t, Gateway(s, p, l.t).nextSequence, l.service, l.payload);
      assert f.ChannelMsg? || f.ChannelEnd?;
    } else if l.CDispose? && l.p == p {
      var f := ChannelEnd(l.t, Gateway(s, p, l.t).completionError);
      assert f.ChannelMsg? || f.ChannelEnd?;
    }
  }

  lemma HandshakeOf(s: Sys, p: Pid)
    requires Inv(s) && p in s.hosts
    ensures Readable(s, p) && Handshake(s, p) && IdsFit(s)
  {
    hide Good, Handshake;
    assert ProcessGood(s, p);
  }

  lemma ProcessConnectsOnce(s: Sys, l: Label, p: Pid)
    requires Inv(s) && Enabled(s, l) && ConnectsOnce(s) && p in Step(s, l).hosts
    ensures OneConnect(Up(Step(s, l), p))
  {
    hide Inv, Step, Enabled;
    ProcessWrites(s, l, p);
    if p in s.hosts { HandshakeOf(s, p); }
  }

  lemma DaemonConnectsOnce(s: Sys, l: Label, c: ClientId)
    requires Inv(s) && Enabled(s, l) && ConnectsOnce(s)
    ensures OneConnect(Step(s, l).server.Outbox(c))
  {
    hide Inv, Step;
    WritesOnlyThere(s, l, c);
    if WritesTo(s, l) == Some(c) {
      WritesThis(s, l, c);
      if l.SReceive? {
        FirstConnect(s, c);
      }
    }
  }

  /** A connect frame that is read is the first frame, and nothing was sent back before. */
  lemma FirstConnect(s: Sys, c: ClientId)
    requires Inv(s) && ConnectsOnce(s) && s.HasNext(c) && s.Next(c).Connect?
    ensures s.server.Outbox(c) == []
  {
    hide Inv, OneConnect;
    HandshakeOf(s, s.sockets[c]);
    assert OneConnect(s.hosts[s.sockets[c]].router.outbox);
    FirstOf(Up(s, s.sockets[c]), s.Taken(c));
  }

  lemma FirstOf(log: seq<Frame>, i: nat)
    requires OneConnect(log) && i < |log| && log[i].Connect?
    ensures i == 0
  {
  }

  lemma StepConnectsOnce(s: Sys, l: Label)
    requires Inv(s) && Enabled(s, l) && ConnectsOnce(s)
    ensures ConnectsOnce(Step(s, l))
  {
    hide Inv, Step, Enabled, OneConnect;
    forall p | p in Step(s, l).hosts ensures OneConnect(Step(s, l).hosts[p].router.outbox) {
      ProcessConnectsOnce(s, l, p);
    }
    forall c: ClientId ensures OneConnect(Step(s, l).server.Outbox(c)) {
      DaemonConnectsOnce(s, l, c);
    }
  }

  lemma {:induction false} RunConnectsOnce(s: Sys, labels: seq<Label>)
    requires Inv(s) && ConnectsOnce(s) && Allowed(s, labels)
    ensures ConnectsOnce(Run(s, labels))
    decreases |labels|
  {
    hide Inv, ConnectsOnce, Step, Enabled;
    if labels != [] {
      StepKeeps(s, labels[0]);
      StepConnectsOnce(s, labels[0]);
      RunConnectsOnce(Step(s, labels[0]), labels[1..]);
    }
  }

  /** Each end of a connection sends one connect frame, before anything else: frame 0, with
      version 0.1 and no error, and no later one; and no end sends an empty frame. */
  lemma HandshakeOnce(services: set<ServiceId>, s: Sys, p: Pid, i: nat)
    requires Reachable(services, s) && p in s.hosts
    ensures i < |Up(s, p)| ==> (Up(s, p)[i].Connect? <==> i == 0) && !Up(s, p)[i].Empty?
    ensures i < |Down(s, p)| ==> (Down(s, p)[i].Connect? <==> i == 0) && !Down(s, p)[i].Empty?
    ensures Up(s, p) != [] ==> Up(s, p)[0] == Connect(0, 1, 0)
    ensures Down(s, p) != [] ==> Down(s, p)[0] == Connect(0, 1, 0)
  {
    hide Inv, Run, Allowed;
    ReachableGood(services, s);
    HandshakeOf(s, p);
    var labels: seq<Label> :| Allowed(Initial(services), labels) && s == Run(Initial(services), labels);
    InitialGood(services);
    RunConnectsOnce(Initial(services), labels);
    assert OneConnect(s.server.Outbox(IdOf(s, p)));
  }

  /** In any state in which the client is routed, another connect request that is answered
      keeps its row and every gateway in it; one whose reply is refused drops the client. */
  lemma ConnectsAgain(s: Sys, c: ClientId, handlerError: int, pipeError: int, t: Tag)
    requires Enabled(s, SReceive(c, handlerError, pipeError)) && s.Next(c).Connect? && s.server.Routed(c)
    ensures var s', e := Step(s, SReceive(c, handlerError, pipeError)), S.Endpoint(t, c);
            && s'.server.Objects(e) == s.server.Objects(e)
            && (pipeError == SUCCESS ==> s'.server.Routed(c) && s'.server.Registered(e) == s.server.Registered(e))
            && (pipeError != SUCCESS ==> !s'.server.Routed(c) && c !in s'.contexts)
  {
  }

  /** A process that is connected takes no notice of another reply. */
  lemma RepliesAgain(s: Sys, p: Pid, c: ClientId, handlerError: int)
    requires Enabled(s, CReceive(p, c, handlerError)) && s.hosts[p].router.connected
    requires s.server.Outbox(c)[s.hosts[p].taken].Connect?
    ensures var s' := Step(s, CReceive(p, c, handlerError));
            p in s'.hosts && s'.hosts[p] == s.hosts[p].(taken := s.hosts[p].taken + 1)
  {
  }

  /** The first message of a channel for a service on offer reaches its factory. */
  lemma OpeningReachesFactory(services: set<ServiceId>, s: Sys, c: ClientId)
    requires Reachable(services, s) && c in s.contexts && s.HasNext(c)
    requires s.Next(c).ChannelMsg? && s.Next(c).sequence == 0 && s.Next(c).service in services
    ensures S.Opens(s.server, c, s.Next(c))
  {
    var p := s.sockets[c];
    var f := s.Next(c);
    GoodChannel(services, s, p, f.tag);
    ServicesAreFixed(services, s);
    ClientSteps.ReadsOne(Up(s, p), s.Taken(c), f.tag);
    assert s.Taken(c) > 0;
    ChannelProofs.OpeningIsFirst(ChanOf(s, p, f.tag), f);
  }

  lemma ServicesAreFixed(services: set<ServiceId>, s: Sys)
    requires Reachable(services, s)
    ensures s.server.services == services
  {
    var labels: seq<Label> :| Allowed(Initial(services), labels) && s == Run(Initial(services), labels);
    RunFixesServices(Initial(services), labels);
  }

  lemma {:induction false} RunFixesServices(s: Sys, labels: seq<Label>)
    requires Allowed(s, labels)
    ensures Run(s, labels).server.services == s.server.services
    decreases |labels|
  {
    if labels != [] {
      StepFixesServices(s, labels[0]);
      RunFixesServices(Step(s, labels[0]), labels[1..]);
    }
  }

  lemma StepFixesServices(s: Sys, l: Label)
    requires Enabled(s, l)
    ensures Step(s, l).server.services == s.server.services
  {
    if ByDaemon(l) {
      DaemonStepFixesServices(s, l);
    } else {
      ProcessStepLeavesDaemon(s, l);
    }
  }

  lemma DaemonStepFixesServices(s: Sys, l: Label)
    requires Enabled(s, l) && ByDaemon(l)
    ensures Step(s, l).server.services == s.server.services
  {
    if l.SReceive? || l.SPipeDown? || l.SMourn? {
      hide S.Receive, S.ReceiveError;
      PipeFixesServices(s, l);
    } else {
      UserFixesServices(s, l);
    }
  }

  lemma PipeFixesServices(s: Sys, l: Label)
    requires Enabled(s, l) && (l.SReceive? || l.SPipeDown? || l.SMourn?)
    ensures Step(s, l).server.services == s.server.services
  {
    hide S.Receive, S.ReceiveError;
    if l.SReceive? { ReceiveFixesServices(s.server, l.c, s.Next(l.c), l.pipeError); }
  }

  lemma UserFixesServices(s: Sys, l: Label)
    requires Enabled(s, l) && (l.SSend? || l.SComplete? || l.SSubscribe? || l.SDispose?)
    ensures Step(s, l).server.services == s.server.services
  {
  }

  lemma ReceiveFixesServices(r: S.ServerState, c: ClientId, f: Frame, pipeError: int)
    ensures S.Receive(r, c, f, pipeError).services == r.services
  {
  }

  lemma ProcessStepLeavesDaemon(s: Sys, l: Label)
    requires Enabled(s, l) && !ByDaemon(l)
    ensures Step(s, l).server == s.server
  {
    hide C.Send, C.Dispose, C.Receive, C.ReceiveError, C.PipeDisconnected, C.Mourn, C.Greet, C.Subscribe, C.Complete;
    hide C.PipeConnected, C.MakeGateway;
  }

  lemma DaemonStepLeavesProcesses(s: Sys, l: Label)
    requires Enabled(s, l) && ByDaemon(l)
    ensures Step(s, l).hosts == s.hosts
  {
    hide S.Send, S.Dispose, S.Receive, S.ReceiveError, S.PipeDisconnected, S.Mourn, S.Subscribe, S.Complete;
  }

  /** Steps of the daemon's router. */
  predicate ByDaemon(l: Label) {
    l.SReceive? || l.SSend? || l.SComplete? || l.SSubscribe? || l.SDispose? || l.SPipeDown? || l.SMourn?
  }

  /** Routed clients are open connections, ids are never given out twice, and the router
      only ever writes to a client whose context exists: not even a destructor that runs
      while a disconnection is announced does otherwise. */
  lemma PipeAndRouterAgree(services: set<ServiceId>, s: Sys, l: Label, c: ClientId)
    requires Reachable(services, s) && Enabled(s, l)
    ensures s.server.tables.Keys <= s.contexts <= s.sockets.Keys
    ensures WritesTo(s, l) == Some(c) ==> c in s.contexts
    ensures Step(s, l).server.Outbox(c) != s.server.Outbox(c) ==> WritesTo(s, l) == Some(c)
    ensures forall d :: c in s.sockets && d in s.sockets && s.sockets[c] == s.sockets[d] ==> c == d
    ensures c in s.sockets ==> c in Step(s, l).sockets && Step(s, l).sockets[c] == s.sockets[c]
  {
    hide ProcessGood, Step;
    ReachableGood(services, s);
    WritesOnlyThere(s, l, c);
    if c in s.sockets { SocketsStay(s, l, c); }
  }

  lemma SocketsStay(s: Sys, l: Label, c: ClientId)
    requires IdsFit(s) && Enabled(s, l) && c in s.sockets
    ensures c in Step(s, l).sockets && Step(s, l).sockets[c] == s.sockets[c]
  {
  }
}
