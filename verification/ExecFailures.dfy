/** Where the code of a failure comes from: what a machine completes with, and what a client
    is told, over every run. */
module ExecFailures {
  import opened IpcTypes
  import opened Channel
  import opened Network
  import opened Projection
  import opened Hearing
  import opened ExecCodec
  import opened ExecSpec
  import opened ExecChannel
  import opened ExecWorld
  import opened ExecWorldProofs
  import opened ExecNetwork
  import opened ExecReactions
  import ChannelProofs
  import ExecChannelProofs
  import ExecGuarantees
  import ExecSubmitOnce
  import NetworkTheorems
  import RouterGuarantees
  import ChannelEnds
  import C = ClientRouterSpec
  import S = ServerRouterSpec

  // ---- Machines.

  /** What machine `i` completed with, if it exists and has. */
  function Done(x: World, i: FsmId): Option<int> {
    if i in x.fsms then x.fsms[i].completion else None
  }

  /** In this action machine `i` is made, and one of its calls fails with `error`. */
  predicate FailsNow(x: World, a: Act, i: FsmId, error: int) {
    a.Serve? && a.launch == OneFailed(error) && x.nextFsm == i
  }

  /** How machine `i` came to complete with `error` in this action. */
  ghost predicate Causes(x: World, a: Act, i: FsmId, error: int) {
    || (a.Serve? && x.nextFsm == i && (error == SUCCESS || FailsNow(x, a, i, error)))
    || (a.Resolve? && a.i == i && error == SUCCESS)
    || ((a.Serve? || a.Bereave?) && i in x.live && error == CANCELED)
  }

  /** A machine completes with 0 by its last promise or for want of nodes, with the error of
      the call that failed when it was made, or as cancelled, when its gateway is told that
      its channel is complete. */
  lemma CompletionHasCause(x: World, a: Act, i: FsmId, error: int)
    requires Can(x, a) && Done(Next(x, a), i) == Some(error) && Done(x, i).None?
    requires WorldGood(x)
    ensures Causes(x, a, i, error)
  {
    hide WorldGood, Next, Can, S.SendError;
    if a.Resolve? {
      ExecGuarantees.ResolveNotes(x, a);
      ResolvesWithSuccess(x.fsms[a.i], a.n, a.outcome, S.SendError(x.net.server, x.channels[a.i], a.sendError));
    } else {
      ExecGuarantees.NextMoves(x, a);
      OnlyDaemonMoves(x, a);
    }
  }

  lemma ResolvesWithSuccess(f: Fsm, n: NodeId, outcome: Outcome, sendError: int)
    requires n in f.ops
    ensures var f' := ExecSpec.Resolve(f, n, outcome, sendError);
            f'.completion == f.completion || f'.completion == Some(SUCCESS)
  {
  }

  lemma OnlyDaemonMoves(x: World, a: Act)
    requires Can(x, a) && !a.Resolve?
    ensures Next(x, a).fsms != x.fsms ==> a.Serve? || a.Bereave?
    ensures a.Bereave? ==> Next(x, a).fsms == x.fsms || x.LiveAt(a.g)
    ensures a.Bereave? && x.LiveAt(a.g) ==>
              Next(x, a).fsms == x.fsms || Next(x, a).fsms == x.fsms[x.handlers[a.g] := Cancel(x.fsms[x.handlers[a.g]])]
  {
    hide Next, Can, Cancel;
    if !a.Serve? && !a.Bereave? {
      ExecGuarantees.OthersMoveNothing(x, a);
    } else if a.Bereave? {
      BereavesOne(x, a);
    }
  }

  lemma BereavesOne(x: World, a: Act)
    requires Can(x, a) && a.Bereave?
    ensures Next(x, a).fsms == x.fsms || x.LiveAt(a.g)
    ensures x.LiveAt(a.g) ==>
              Next(x, a).fsms == x.fsms || Next(x, a).fsms == x.fsms[x.handlers[a.g] := Cancel(x.fsms[x.handlers[a.g]])]
  {
    hide Step, Do, Finished, Cancel, Enabled, Completes;
  }

  // ---- A gateway that is gone stays silent.

  ghost predicate Silent(s: Sys, g: S.Ref) {
    s.server.Exists(g) && s.server.Registered(g.endpoint).None?
  }

  function DownOn(s: Sys, g: S.Ref): seq<Frame> {
    OnTag(s.server.Outbox(g.endpoint.clientId), g.endpoint.tag)
  }

  /** Two gateways of one endpoint there never are, so the name is not given again. */
  lemma UnregisteredStays(s: Sys, l: Label, g: S.Ref)
    requires Inv(s) && Enabled(s, l) && Silent(s, g)
    ensures Silent(Step(s, l), g)
  {
    hide Inv, Step, Enabled;
    NetworkTheorems.StepKeeps(s, l);
    NamesNewOnly(s, l, g);
    if Step(s, l).server.Registered(g.endpoint).Some? {
      RouterGuarantees.AtMostOne(OwnChannel(Step(s, l), g));
      assert false;
    }
  }

  /** The channel that this gateway is the far end of. */
  function OwnChannel(s: Sys, g: S.Ref): (k: Chan)
    requires Inv(s) && s.server.Exists(g)
    ensures Good(k) && k.far.views == s.server.Objects(g.endpoint) && k.tag == g.endpoint.tag
    ensures k.far.named == s.server.Registered(g.endpoint) && k.down == DownOn(s, g)
    ensures k.far.mourned <==> S.Ref(g.endpoint, 0) in s.server.mourning
  {
    HomeIsHere(s, g);
    var p := s.sockets[g.endpoint.clientId];
    assert ProcessGood(s, p);
    FarOfServer(s, p, g);
    ChanOf(s, p, g.endpoint.tag)
  }

  /** A name is only given to a gateway that is made then. */
  lemma NamesNewOnly(s: Sys, l: Label, g: S.Ref)
    requires Enabled(s, l) && Silent(s, g)
    ensures Step(s, l).server.Exists(g)
    ensures Step(s, l).server.Registered(g.endpoint).Some? ==>
              |Step(s, l).server.Objects(g.endpoint)| > |s.server.Objects(g.endpoint)|
  {
    if l.SReceive? || l.SPipeDown? {
      PipeNamesNewOnly(s, l, g);
    } else if RouterGuarantees.ByDaemon(l) {
      UserNamesNone(s, l, g);
    } else {
      hide Step;
      RouterGuarantees.ProcessStepLeavesDaemon(s, l);
    }
  }

  lemma UserNamesNone(s: Sys, l: Label, g: S.Ref)
    requires Enabled(s, l) && Silent(s, g) && RouterGuarantees.ByDaemon(l) && !l.SReceive? && !l.SPipeDown?
    ensures Silent(Step(s, l), g)
  {
    if l.SSend? {
      SendNamesNone(s, l, g);
    } else if l.SDispose? {
      DisposeNamesNone(s, l, g);
    } else {
      NoticeNamesNone(s, l, g);
    }
  }

  lemma SendNamesNone(s: Sys, l: Label, g: S.Ref)
    requires Enabled(s, l) && Silent(s, g) && l.SSend?
    ensures Silent(Step(s, l), g)
  {
  }

  lemma DisposeNamesNone(s: Sys, l: Label, g: S.Ref)
    requires Enabled(s, l) && Silent(s, g) && l.SDispose?
    ensures Silent(Step(s, l), g)
  {
  }

  lemma NoticeNamesNone(s: Sys, l: Label, g: S.Ref)
    requires Enabled(s, l) && Silent(s, g) && (l.SComplete? || l.SSubscribe? || l.SMourn?)
    ensures Silent(Step(s, l), g)
  {
  }

  lemma PipeNamesNewOnly(s: Sys, l: Label, g: S.Ref)
    requires Enabled(s, l) && Silent(s, g) && (l.SReceive? || l.SPipeDown?)
    ensures Step(s, l).server.Exists(g)
    ensures Step(s, l).server.Registered(g.endpoint).Some? ==>
              |Step(s, l).server.Objects(g.endpoint)| > |s.server.Objects(g.endpoint)|
  {
    hide S.Receive, S.ReceiveError, S.PipeDisconnected;
    LossNamesNone(s.server, l.c, g.endpoint);
    if l.SReceive? {
      ReadNamesNew(s.server, l.c, s.Next(l.c), l.pipeError, g);
      LossNamesNone(S.Receive(s.server, l.c, s.Next(l.c), l.pipeError), l.c, g.endpoint);
    }
  }

  lemma LossNamesNone(r: S.ServerState, c: ClientId, e: S.Endpoint)
    ensures S.PipeDisconnected(r, c).Objects(e) == r.Objects(e)
    ensures S.PipeDisconnected(r, c).Registered(e).Some? ==> r.Registered(e).Some?
  {
  }

  lemma ReadNamesNew(r: S.ServerState, c: ClientId, f: Frame, pipeError: int, g: S.Ref)
    requires r.Exists(g) && r.Registered(g.endpoint).None?
    ensures var r' := S.Receive(r, c, f, pipeError);
            r'.Exists(g) && (r'.Registered(g.endpoint).Some? ==> |r'.Objects(g.endpoint)| > |r.Objects(g.endpoint)|)
  {
  }

  lemma SilentStep(s: Sys, l: Label, g: S.Ref)
    requires Inv(s) && Enabled(s, l) && Silent(s, g)
    ensures DownOn(Step(s, l), g) == DownOn(s, g)
  {
    hide Inv, Step, Enabled, OnTag;
    HomeOfGateway(s, g);
    var p := s.sockets[g.endpoint.clientId];
    RouterGuarantees.KeepsId(s, l, p);
    RouterGuarantees.UnregisteredIsSilent(s, l, p, g.endpoint.tag);
  }

  lemma HomeOfGateway(s: Sys, g: S.Ref)
    requires Inv(s) && s.server.Exists(g)
    ensures g.endpoint.clientId in s.sockets
    ensures var p := s.sockets[g.endpoint.clientId]; p in s.ids && p in s.hosts && s.ids[p] == g.endpoint.clientId
  {
    hide ProcessGood;
    HomeIsHere(s, g);
  }

  lemma {:induction false} SilentRun(s: Sys, labels: seq<Label>, g: S.Ref)
    requires Inv(s) && Allowed(s, labels) && Silent(s, g)
    ensures Silent(Run(s, labels), g) && DownOn(Run(s, labels), g) == DownOn(s, g)
    decreases |labels|
  {
    hide Inv, Step, Enabled, Silent, DownOn;
    if labels != [] {
      UnregisteredStays(s, labels[0], g);
      SilentStep(s, labels[0], g);
      NetworkTheorems.StepKeeps(s, labels[0]);
      SilentRun(Step(s, labels[0]), labels[1..], g);
    }
  }

  lemma SilentLeads(s: Sys, s': Sys, g: S.Ref)
    requires Inv(s) && Leads(s, s') && Silent(s, g)
    ensures Silent(s', g) && DownOn(s', g) == DownOn(s, g)
  {
    hide Inv, Silent, DownOn, Run, Allowed;
    var labels :| Allowed(s, labels) && Run(s, labels) == s';
    SilentRun(s, labels, g);
  }

  // ---- A machine that is cancelled ends its channel in silence.

  /** The gateway of this machine is unregistered, and no end of its channel was written. */
  ghost predicate EndsSilently(x: World, i: FsmId) {
    i in x.channels && Silent(x.net, x.channels[i]) && !Ended(DownOn(x.net, x.channels[i]))
  }

  lemma LiveGateway(x: World, i: FsmId)
    requires WorldGood(x) && i in x.live
    ensures i in x.channels && x.channels[i] in x.handlers && x.handlers[x.channels[i]] == i && x.LiveAt(x.channels[i])
    ensures var g := x.channels[i]; x.net.server.Exists(g) && g.ordinal == 0 && !Ended(DownOn(x.net, g))
    ensures x.net.server.Registered(x.channels[i].endpoint).Some? || x.channels[i] in x.net.server.mourning
  {
    hide Inv, Good, WorldGood, ChanOf, CallGood, Sound, Carries, GetRequest, LineOf, FsmGood;
    BooksOf(x);
    var g := x.channels[i];
    var p := x.net.sockets[g.endpoint.clientId];
    LineAt(x, p, g.endpoint.tag);
    LineParts(x, p, g.endpoint.tag);
    FarOfServer(x.net, p, g);
    ChannelDown(x.net, p, g);
    LiveLine(LineOf(x, p, g.endpoint.tag));
  }

  lemma ChannelDown(s: Sys, p: Pid, g: S.Ref)
    requires Readable(s, p) && IdOf(s, p) == g.endpoint.clientId
    ensures ChanOf(s, p, g.endpoint.tag).down == DownOn(s, g)
  {
    hide OnTag;
  }

  lemma LiveLine(z: Line)
    requires LineGood(z) && z.live
    ensures z.k.far.views != [] && z.k.far.views[0].alive && !Ended(z.k.down)
    ensures z.k.far.named.Some? || z.k.far.mourned
  {
    hide CallGood, Delivery, Sound, Carries, Orderly;
  }

  lemma DueIsSilent(s: Sys, g: S.Ref)
    requires Inv(s) && s.server.Exists(g) && g.ordinal == 0 && g in s.server.mourning
    ensures Silent(s, g)
  {
    hide Inv, Good, DownOn;
    MournedIsSilent(OwnChannel(s, g));
  }

  lemma MournedIsSilent(k: Chan)
    requires Good(k) && k.far.mourned
    ensures k.far.named.None?
  {
    hide UpGood, DownGood, NearGood;
  }

  /** The daemon reads the end of a machine's channel: its gateway is no longer registered, and
      nothing was written. */
  lemma EndSilences(s: Sys, l: Label, g: S.Ref)
    requires Enabled(s, l) && l.SReceive? && g.endpoint.clientId == l.c
    requires s.Next(l.c).ChannelEnd? && s.Next(l.c).tag == g.endpoint.tag
    requires S.Reaches(s.server, g.endpoint) && s.server.Exists(g)
    ensures Silent(Step(s, l), g) && DownOn(Step(s, l), g) == DownOn(s, g)
  {
    hide OnTag;
  }

  /** A serve that cancels a machine read the end of its channel. */
  lemma ServeCancels(x: World, a: Act, i: FsmId)
    requires a.Serve? && Can(x, a) && i in x.live && i in x.fsms && i != x.nextFsm
    requires var fsms := ServeOne(x, a.c, a.handlerError, a.pipeError, a.launch, a.endError).fsms;
             i in fsms && fsms[i] != x.fsms[i]
    ensures var f := x.net.Next(a.c);
            && (f.ChannelMsg? || f.ChannelEnd?)
            && (var g := S.Ref(S.Endpoint(f.tag, a.c), 0);
                && g in x.handlers && x.handlers[g] == i
                && Completes(x.net, Step(x.net, SReceive(a.c, FsmError(x, a.c, f, a.handlerError), a.pipeError)), g))
  {
    hide Step, Do, Cancel, GetRequest, Completes, OpenFsm, Settle, FsmError;
    var f := x.net.Next(a.c);
    var served := x.(net := Step(x.net, SReceive(a.c, FsmError(x, a.c, f, a.handlerError), a.pipeError)));
    if S.Opens(x.net.server, a.c, f) && f.service == SERVICE {
      if GetRequest(f.payload).Some? {
        var g := S.Ref(S.Endpoint(f.tag, a.c), |x.net.server.Objects(S.Endpoint(f.tag, a.c))|);
        ExecGuarantees.OpenMoves(served, g, GetRequest(f.payload).value, a.launch, a.endError);
      }
      assert false;
    } else if f.ChannelMsg? || f.ChannelEnd? {
      var g := S.Ref(S.Endpoint(f.tag, a.c), 0);
      if x.LiveAt(g) {
        ExecGuarantees.SettleMoves(served, x.handlers[g], g, Cancel(x.fsms[x.handlers[g]]), a.endError);
      }
    }
  }

  lemma BereaveIsDue(x: World, a: Act)
    requires Can(x, a) && a.Bereave?
    ensures a.g in x.net.server.mourning
  {
  }

  lemma CancelEndsSilently(x: World, a: Act, i: FsmId, error: int)
    requires Can(x, a) && (a.Serve? || a.Bereave?) && i in x.live && i in x.fsms
    requires Done(Next(x, a), i) == Some(error) && Done(x, i).None?
    requires WorldGood(x)
    ensures EndsSilently(Next(x, a), i)
  {
    hide Inv, WorldGood, Silent, DownOn, Ended, Leads, Step, ServeOne, BereaveOne, Completes, Enabled;
    BooksOf(x);
    LiveGateway(x, i);
    ChannelsStay(x, a, i);
    var g := x.channels[i];
    if a.Bereave? {
      OnlyDaemonMoves(x, a);
      BereaveIsDue(x, a);
      DueIsSilent(x.net, g);
      NextLeads(x, a);
      SilentLeads(x.net, Next(x, a).net, g);
    } else {
      ServeEndsSilently(x, a, i);
    }
  }

  /** The label of the read in a serve, with what the handler answers. */
  function ServeLabel(x: World, a: Act): Label
    requires a.Serve? && x.net.HasNext(a.c)
  {
    SReceive(a.c, FsmError(x, a.c, x.net.Next(a.c), a.handlerError), a.pipeError)
  }

  /** The serve that cancels machine `i` reads the end of its registered gateway. */
  lemma ServeReadsEnd(x: World, a: Act, i: FsmId)
    requires a.Serve? && Can(x, a) && i in x.live && i in x.fsms && i in x.channels && i != x.nextFsm
    requires x.channels[i] in x.handlers && forall g :: g in x.handlers && x.handlers[g] == i ==> g == x.channels[i]
    requires var fsms := ServeOne(x, a.c, a.handlerError, a.pipeError, a.launch, a.endError).fsms;
             i in fsms && fsms[i] != x.fsms[i]
    ensures Enabled(x.net, ServeLabel(x, a))
    ensures var f, g := x.net.Next(a.c), x.channels[i];
            && f.ChannelEnd? && f.tag == g.endpoint.tag && g.endpoint.clientId == a.c
            && S.Reaches(x.net.server, g.endpoint)
  {
    hide Step, ServeOne, Completes, FsmError, S.Reaches;
    ServeCancels(x, a, i);
    var l := ServeLabel(x, a);
    OnlyEndsComplete(x.net, a.c, l.handlerError, a.pipeError, x.channels[i]);
  }

  lemma OneGateway(x: World, i: FsmId)
    requires WorldGood(x) && i in x.fsms
    ensures forall g :: g in x.handlers && x.handlers[g] == i ==> i in x.channels && g == x.channels[i]
  {
    hide Inv, AllLinesGood;
  }

  lemma ServeEndsSilently(x: World, a: Act, i: FsmId)
    requires a.Serve? && Can(x, a) && i in x.live && i in x.fsms && i in x.channels
    requires var fsms := ServeOne(x, a.c, a.handlerError, a.pipeError, a.launch, a.endError).fsms;
             i in fsms && fsms[i] != x.fsms[i]
    requires WorldGood(x)
    ensures var s' := ServeOne(x, a.c, a.handlerError, a.pipeError, a.launch, a.endError).net;
            Silent(s', x.channels[i]) && !Ended(DownOn(s', x.channels[i]))
  {
    hide Inv, WorldGood, Books, Silent, DownOn, Ended, Leads, Step, ServeOne, Completes, FsmError, S.Reaches;
    hide ServeLabel, IdsFit;
    BooksOf(x);
    LiveGateway(x, i);
    OneGateway(x, i);
    ExecGuarantees.NextIdIsNew(x);
    ServeReadsEnd(x, a, i);
    ServedLeads(x, a);
    EndReadSilences(x.net, ServeLabel(x, a), x.channels[i],
                    ServeOne(x, a.c, a.handlerError, a.pipeError, a.launch, a.endError).net);
  }

  lemma ServedLeads(x: World, a: Act)
    requires a.Serve? && Can(x, a)
    ensures Enabled(x.net, ServeLabel(x, a)) && ServeLabel(x, a).SReceive? && ServeLabel(x, a).c == a.c
    ensures Leads(Step(x.net, ServeLabel(x, a)),
                  ServeOne(x, a.c, a.handlerError, a.pipeError, a.launch, a.endError).net)
  {
    hide Leads, Step, ServeOne, FsmError;
    ServeLeads(x, a.c, a.handlerError, a.pipeError, a.launch, a.endError);
  }

  lemma EndReadSilences(s: Sys, l: Label, g: S.Ref, s': Sys)
    requires Inv(s) && Enabled(s, l) && l.SReceive? && g.endpoint.clientId == l.c
    requires s.Next(l.c).ChannelEnd? && s.Next(l.c).tag == g.endpoint.tag
    requires S.Reaches(s.server, g.endpoint) && s.server.Exists(g) && Leads(Step(s, l), s')
    ensures Silent(s', g) && DownOn(s', g) == DownOn(s, g)
  {
    hide Inv, Silent, DownOn, Leads, Step;
    EndSilences(s, l, g);
    NetworkTheorems.StepKeeps(s, l);
    SilentLeads(Step(s, l), s', g);
  }

  /** The gateway of a machine is the one it was made for. */
  lemma ChannelsStay(x: World, a: Act, i: FsmId)
    requires Can(x, a) && i in x.channels && i != x.nextFsm
    ensures i in Next(x, a).channels && Next(x, a).channels[i] == x.channels[i]
  {
    hide Step, Do, GetRequest, Completes, Cancel, Start, ExecSpec.Resolve, CallHears, SendRequest, PutResponse, S.Opens;
    if a.Submit? || a.Greet? { SendingKeepsChannels(x, a); }
  }

  lemma SendingKeepsChannels(x: World, a: Act)
    requires Can(x, a) && (a.Submit? || a.Greet?)
    ensures Next(x, a).channels == x.channels
  {
    hide Step, Do, RequestFits, PutRequest;
  }

  // ---- Over a run.

  /** In this run machine `i` was made and one of its calls failed with `error`. */
  ghost predicate FailsToLaunch(x: World, acts: seq<Act>, i: FsmId, error: int)
    requires CanAll(x, acts)
    decreases |acts|
  {
    acts != [] && (FailsNow(x, acts[0], i, error) || FailsToLaunch(Next(x, acts[0]), acts[1..], i, error))
  }

  /** Machine `i`, if it has completed, did so with 0, or was cancelled in silence. */
  ghost predicate Explained(x: World, i: FsmId) {
    Done(x, i).Some? ==> Done(x, i) == Some(SUCCESS) || (Done(x, i) == Some(CANCELED) && EndsSilently(x, i))
  }

  lemma DoneStays(x: World, a: Act, i: FsmId)
    requires Can(x, a) && Done(x, i).Some?
    requires WorldGood(x)
    ensures Done(Next(x, a), i) == Done(x, i)
    ensures i in x.channels && i != x.nextFsm
  {
    hide WorldGood, Next, Can, S.SendError, ExecSpec.Resolve, Sound;
    ExecGuarantees.MachineIsSound(x, i);
    ExecGuarantees.NextIdIsNew(x);
    HasChannel(x, i);
    if a.Resolve? { ExecGuarantees.ResolveNotes(x, a); } else { ExecGuarantees.NextMoves(x, a); }
  }

  lemma HasChannel(x: World, i: FsmId)
    requires WorldGood(x) && i in x.fsms
    ensures i in x.channels
  {
    hide Inv, AllLinesGood;
  }

  lemma StaysExplained(x: World, a: Act, i: FsmId)
    requires Can(x, a) && Done(x, i).Some? && Explained(x, i)
    requires WorldGood(x)
    ensures Explained(Next(x, a), i)
  {
    hide Inv, WorldGood, Next, Can, Silent, DownOn, Ended, Leads;
    BooksOf(x);
    DoneStays(x, a, i);
    ChannelsStay(x, a, i);
    NextLeads(x, a);
    if EndsSilently(x, i) { SilentLeads(x.net, Next(x, a).net, x.channels[i]); }
  }

  lemma NextExplained(x: World, a: Act, i: FsmId)
    requires Can(x, a) && Explained(x, i)
    requires WorldGood(x)
    ensures Explained(Next(x, a), i) || exists error :: FailsNow(x, a, i, error) && Done(Next(x, a), i) == Some(error)
  {
    hide WorldGood, Next, Can, EndsSilently;
    if Done(x, i).Some? {
      StaysExplained(x, a, i);
    } else if Done(Next(x, a), i).Some? {
      var error := Done(Next(x, a), i).value;
      CompletionHasCause(x, a, i, error);
      if (a.Serve? || a.Bereave?) && i in x.live && error == CANCELED && !FailsNow(x, a, i, error) {
        BooksOf(x);
        ExecGuarantees.NextIdIsNew(x);
        CancelEndsSilently(x, a, i, error);
      }
    }
  }

  lemma {:induction false} DoneForGood(x: World, acts: seq<Act>, i: FsmId)
    requires CanAll(x, acts) && Done(x, i).Some? && WorldGood(x)
    ensures Done(After(x, acts), i) == Done(x, i)
    decreases |acts|
  {
    hide WorldGood, Next, Can, Done;
    if acts != [] {
      DoneStays(x, acts[0], i);
      NextKeeps(x, acts[0]);
      DoneForGood(Next(x, acts[0]), acts[1..], i);
    }
  }

  /** A machine that completed did so with 0, with the error of a call of its own that failed,
      or because its peer was gone, and then no end of its channel was written. */
  lemma {:induction false} CodeIsExplained(x: World, acts: seq<Act>, i: FsmId, error: int)
    requires CanAll(x, acts) && Explained(x, i) && WorldGood(x)
    requires Done(After(x, acts), i) == Some(error)
    ensures FailsToLaunch(x, acts, i, error) || Explained(After(x, acts), i)
    decreases |acts|
  {
    hide WorldGood, Next, Can, Done, Explained, FailsNow;
    if acts != [] {
      var x' := Next(x, acts[0]);
      NextExplained(x, acts[0], i);
      NextKeeps(x, acts[0]);
      if Explained(x', i) {
        CodeIsExplained(x', acts[1..], i, error);
      } else {
        var e :| FailsNow(x, acts[0], i, e) && Done(x', i) == Some(e);
        DoneForGood(x', acts[1..], i);
      }
    }
  }

  // ---- What a client is told.

  /** In this run sending the client's request failed with `error`. */
  ghost predicate FailsToSend(x: World, acts: seq<Act>, p: Pid, t: Tag, error: int)
    requires CanAll(x, acts)
    decreases |acts|
  {
    acts != [] && (SendFailsNow(x, acts[0], p, t, error) || FailsToSend(Next(x, acts[0]), acts[1..], p, t, error))
  }

  predicate SendFailsNow(x: World, a: Act, p: Pid, t: Tag, error: int) {
    && Sends(a, p, t) && (p, t) in x.calls && p in x.net.hosts
    && SendAnswer(x, p, t, PipeErrorOf(a)) == error != SUCCESS
  }

  predicate Told(x: World, p: Pid, t: Tag, r: Result) {
    (p, t) in x.calls && r in x.calls[(p, t)].results
  }

  lemma NewCallsAreSilent(x: World, a: Act, p: Pid, t: Tag)
    requires Can(x, a) && (p, t) !in x.calls && (p, t) in Next(x, a).calls
    ensures Next(x, a).calls[(p, t)].results == []
  {
    hide Step, Do, C.SendError, RequestFits, PutRequest, ServeOne, BereaveOne, ResolveOne, Enabled, C.SubscribeNotifies;
    if a.Serve? || a.Bereave? || a.Resolve? { ExecSubmitOnce.DaemonActsHosts(x, a); }
  }

  /** A failure that a client is newly told of is that of its send, or of its channel. */
  lemma NextFailure(x: World, a: Act, p: Pid, t: Tag, error: int)
    requires Can(x, a) && Told(Next(x, a), p, t, Failure(error)) && !Told(x, p, t, Failure(error))
    requires WorldGood(x)
    ensures SendFailsNow(x, a, p, t, error) || IpcTypes.Completed(error) in EventsAt(Next(x, a), p, t)
    ensures error != SUCCESS
  {
    hide WorldGood, Next, Can, SendAnswer, GetResponse;
    if (p, t) in x.calls {
      ClientReacts(x, a, p, t);
    } else {
      NewCallsAreSilent(x, a, p, t);
    }
  }

  lemma EventsStay(x: World, a: Act, p: Pid, t: Tag, e: Event)
    requires Can(x, a) && (p, t) in x.calls && e in EventsAt(x, p, t)
    requires WorldGood(x)
    ensures (p, t) in Next(x, a).calls && e in EventsAt(Next(x, a), p, t)
  {
    hide WorldGood, Next, Can, SendAnswer, Reaction;
    ClientReacts(x, a, p, t);
    var i :| 0 <= i < |EventsAt(x, p, t)| && EventsAt(x, p, t)[i] == e;
    assert EventsAt(Next(x, a), p, t)[i] == e;
  }

  lemma {:induction false} EventsStayAfter(x: World, acts: seq<Act>, p: Pid, t: Tag, e: Event)
    requires CanAll(x, acts) && (p, t) in x.calls && e in EventsAt(x, p, t)
    requires WorldGood(x)
    ensures e in EventsAt(After(x, acts), p, t)
    decreases |acts|
  {
    hide WorldGood, Next, Can, EventsAt;
    if acts != [] {
      EventsStay(x, acts[0], p, t, e);
      NextKeeps(x, acts[0]);
      EventsStayAfter(Next(x, acts[0]), acts[1..], p, t, e);
    }
  }

  lemma {:induction false} FailureComes(x: World, acts: seq<Act>, p: Pid, t: Tag, error: int)
    requires CanAll(x, acts) && Told(After(x, acts), p, t, Failure(error)) && !Told(x, p, t, Failure(error))
    requires WorldGood(x)
    ensures FailsToSend(x, acts, p, t, error) || IpcTypes.Completed(error) in EventsAt(After(x, acts), p, t)
    ensures error != SUCCESS
    decreases |acts|
  {
    hide WorldGood, Next, Can, EventsAt, SendFailsNow;
    if acts != [] {
      var x' := Next(x, acts[0]);
      NextKeeps(x, acts[0]);
      if Told(x', p, t, Failure(error)) {
        NextFailure(x, acts[0], p, t, error);
        if IpcTypes.Completed(error) in EventsAt(x', p, t) {
          EventsStayAfter(x', acts[1..], p, t, IpcTypes.Completed(error));
        }
      } else {
        FailureComes(x', acts[1..], p, t, error);
      }
    }
  }

  /** A gateway that is told of an error, and not because its connection is lost, is told what
      its counterpart ended with. */
  lemma ToldOfEnd(k: Chan, lost: bool, error: int)
    requires Good(k) && NearHears(k, lost) && k.near.made
    requires IpcTypes.Completed(error) in k.near.view.events && !(lost && error == DISCONNECTED)
    ensures Ended(k.down) && k.far.views != []
    ensures !k.far.views[0].alive && k.far.views[0].completionError == error
  {
    hide Orderly, UpGood, FarGood, Stream;
    RouterGuarantees.CompletionIsLast(k.near.view, error);
    assert Ended(k.downSeen) && k.downSeen[|k.downSeen| - 1].error == error;
    hide NearHears, NearGood, Delivery;
    EndOfCounterpart(k);
  }

  lemma EndOfCounterpart(k: Chan)
    requires DownGood(k) && Ended(k.downSeen)
    ensures Ended(k.down) && k.far.views != []
    ensures !k.far.views[0].alive && k.far.views[0].completionError == k.downSeen[|k.downSeen| - 1].error
  {
    hide Delivery;
    ChannelProofs.EndIsLast(k.downSeen, k.down, k.tag, k.far.views[0].nextSequence);
  }

  /** So a client is told the code that its own machine completed with. */
  lemma ToldMachineCode(z: Line, lost: bool, error: int)
    requires LineGood(z) && NearHears(z.k, lost) && z.call.Some? && z.k.near.made
    requires IpcTypes.Completed(error) in z.k.near.view.events && !(lost && error == DISCONNECTED)
    ensures Ended(z.k.down) && z.k.far.views != []
    ensures z.fsm.Some? && z.fsm.value.completion == Some(error)
  {
    ToldOfEnd(z.k, lost, error);
    hide Good, NearHears, CallGood, FsmGood;
    CodeOfLine(z);
  }

  lemma CodeOfLine(z: Line)
    requires LineGood(z) && z.call.Some? && z.k.far.views != [] && !z.k.far.views[0].alive
    ensures z.fsm.Some? && z.fsm.value.completion == Some(z.k.far.views[0].completionError)
  {
    hide Good, CallGood, Sound, Carries, GetRequest;
    ExecChannelProofs.FirstIsRequest(z);
  }

  lemma NothingYet(services: set<ServiceId>, p: Pid, t: Tag, i: FsmId)
    ensures Explained(InitialWorld(services), i) && !exists r :: Told(InitialWorld(services), p, t, r)
  {
  }

  /** The machine at the other end of a client's channel. */
  function MachineOf(x: World, p: Pid, t: Tag): Option<FsmId> {
    var g := ExecGuarantees.Answering(x, p, t);
    if g in x.handlers then Some(x.handlers[g]) else None
  }

  lemma ToldByMachine(services: set<ServiceId>, acts: seq<Act>, p: Pid, t: Tag, error: int)
    requires CanAll(InitialWorld(services), acts)
    requires var x := After(InitialWorld(services), acts);
             && (p, t) in x.calls && p in x.net.hosts && IpcTypes.Completed(error) in EventsAt(x, p, t)
             && error != SUCCESS && !(error == DISCONNECTED && x.net.hosts[p].pipe.Closed?)
    ensures var x := After(InitialWorld(services), acts);
            MachineOf(x, p, t).Some? && FailsToLaunch(InitialWorld(services), acts, MachineOf(x, p, t).value, error)
  {
    hide WorldGood, Inv, Good, LineGood, ChanOf, NearHears, FarHears, CanAll, After, NetworkTheorems.Reachable, Ended;
    hide FailsToLaunch, DownOn, Silent;
    var w := InitialWorld(services);
    var x := After(w, acts);
    ExecGuarantees.RunGood(services, acts);
    InitialKeeps(services);
    ServiceRunsOnNetwork(services, acts);
    ChannelEnds.ChannelAt(services, x.net, p, t);
    LineAt(x, p, t);
    LineParts(x, p, t);
    NearAt(x, p, t);
    ToldMachineCode(LineOf(x, p, t), Lost(x.net, p), error);
    var g := ExecGuarantees.Answering(x, p, t);
    var i := x.handlers[g];
    NothingYet(services, p, t, i);
    CodeIsExplained(w, acts, i, error);
    MachineGateway(x, g);
    ChannelDown(x.net, p, g);
  }

  lemma MachineGateway(x: World, g: S.Ref)
    requires WorldGood(x) && g in x.handlers
    ensures x.handlers[g] in x.channels && x.channels[x.handlers[g]] == g
  {
    hide Inv, AllLinesGood;
  }

  lemma NearAt(x: World, p: Pid, t: Tag)
    requires Readable(x.net, p) && EventsAt(x, p, t) != []
    ensures var k := ChanOf(x.net, p, t); k.near.made && k.near.view.events == EventsAt(x, p, t)
  {
  }

  /** In every run, a client is told of a failure only with the error of its own send; with
      that of a lost connection, once its process has lost it; or with the error of a call
      that failed when its own machine was made. So on a connection that stands, a failure
      is one of its own. */
  lemma FailureIsExplained(services: set<ServiceId>, acts: seq<Act>, p: Pid, t: Tag, error: int)
    requires CanAll(InitialWorld(services), acts)
    requires Told(After(InitialWorld(services), acts), p, t, Failure(error))
    ensures var w := InitialWorld(services);
            var x := After(w, acts);
            && p in x.net.hosts && error != SUCCESS
            && (|| FailsToSend(w, acts, p, t, error)
                || (error == DISCONNECTED && x.net.hosts[p].pipe.Closed?)
                || (MachineOf(x, p, t).Some? && FailsToLaunch(w, acts, MachineOf(x, p, t).value, error)))
  {
    hide WorldGood, CanAll, After, FailsToLaunch, FailsToSend;
    var w := InitialWorld(services);
    ExecGuarantees.RunGood(services, acts);
    InitialKeeps(services);
    BooksOf(After(w, acts));
    NothingYet(services, p, t, 0);
    FailureComes(w, acts, p, t, error);
    var x := After(w, acts);
    if IpcTypes.Completed(error) in EventsAt(x, p, t) && !(error == DISCONNECTED && x.net.hosts[p].pipe.Closed?) {
      ToldByMachine(services, acts, p, t, error);
    }
  }
}
