/** The guarantees of the 'exec cmd' service, over every run of any number of clients. */
module ExecGuarantees {
  import opened IpcTypes
  import opened Channel
  import opened Network
  import opened Projection
  import opened ExecCodec
  import opened ExecSpec
  import opened ExecChannel
  import opened ExecChannelProofs
  import opened ExecWorld
  import opened ExecWorldProofs
  import C = ClientRouterSpec
  import S = ServerRouterSpec

  lemma RunGood(services: set<ServiceId>, acts: seq<Act>)
    requires CanAll(InitialWorld(services), acts)
    ensures WorldGood(After(InitialWorld(services), acts))
  {
    hide WorldGood;
    InitialKeeps(services);
    AfterKeeps(InitialWorld(services), acts);
  }

  /** The daemon's gateway that would answer tag `t` of process `p`. */
  function Answering(x: World, p: Pid, t: Tag): S.Ref {
    S.Ref(S.Endpoint(t, IdOf(x.net, p)), 0)
  }

  // ---- The result.

  lemma ResultComesFromMachine(x: World, p: Pid, t: Tag, m: map<NodeId, Response>)
    requires WorldGood(x) && (p, t) in x.calls && Success(m) in x.calls[(p, t)].results
    ensures var g := Answering(x, p, t);
            && g in x.handlers && x.handlers[g] in x.fsms && x.handlers[g] in x.channels
            && x.channels[x.handlers[g]] == g
            && (var f := x.fsms[x.handlers[g]];
                && f.request == x.calls[(p, t)].request && f.completion == Some(SUCCESS)
                && f.outcomes.Keys == NodesOf(x.calls[(p, t)].request)
                && m == Gathered(f))
  {
    hide LineGood, Good, WorldGood, ChanOf, Inv, Gathered;
    BooksOf(x);
    LineAt(x, p, t);
    LineParts(x, p, t);
    SuccessIsComplete(LineOf(x, p, t), m);
  }

  /** The pipe accepts every response a machine sends. */
  predicate ResponsesAccepted(acts: seq<Act>) {
    forall k :: 0 <= k < |acts| && acts[k].Resolve? ==> acts[k].sendError == SUCCESS
  }

  predicate NoRefusals(x: World) {
    forall i :: i in x.fsms ==> x.fsms[i].refused == {}
  }

  lemma ResolveRefusesNothing(x: World, a: Act)
    requires Can(x, a) && a.Resolve? && a.sendError == SUCCESS
    requires NoRefusals(x) && WorldGood(x)
    ensures NoRefusals(Next(x, a))
  {
    hide WorldGood, Finished, Step, LineOf, Readable, ProcessGood;
    LiveMachine(x, a.i);
    BooksOf(x);
    assert S.SendError(x.net.server, x.channels[a.i], SUCCESS) == SUCCESS;
  }

  /** How one action changes the machines: at most one is made, cancelled or told an outcome. */
  ghost predicate Moved(x: World, fsms: map<FsmId, Fsm>, launch: Launch) {
    || fsms == x.fsms
    || (exists q :: fsms == x.fsms[x.nextFsm := Start(q, launch)])
    || (exists i :: i in x.live && i in x.fsms && fsms == x.fsms[i := Cancel(x.fsms[i])])
  }

  lemma ServeMoves(x: World, c: ClientId, handlerError: int, pipeError: int, launch: Launch, endError: int)
    requires Enabled(x.net, SReceive(c, handlerError, pipeError))
    ensures Moved(x, ServeOne(x, c, handlerError, pipeError, launch, endError).fsms, launch)
  {
    hide Step, Do, Start, Cancel, GetRequest, Completes, OpenFsm, Settle;
    var f := x.net.Next(c);
    var served := x.(net := Step(x.net, SReceive(c, FsmError(x, c, f, handlerError), pipeError)));
    if S.Opens(x.net.server, c, f) && f.service == SERVICE {
      if GetRequest(f.payload).Some? {
        var g := S.Ref(S.Endpoint(f.tag, c), |x.net.server.Objects(S.Endpoint(f.tag, c))|);
        OpenMoves(served, g, GetRequest(f.payload).value, launch, endError);
      }
    } else if f.ChannelMsg? || f.ChannelEnd? {
      var g := S.Ref(S.Endpoint(f.tag, c), 0);
      if x.LiveAt(g) { SettleMoves(served, x.handlers[g], g, Cancel(x.fsms[x.handlers[g]]), endError); }
    }
  }

  lemma SettleMoves(m: World, i: FsmId, g: S.Ref, f: Fsm, endError: int)
    ensures Settle(m, i, g, f, endError).fsms == m.fsms[i := f]
  {
  }

  lemma OpenMoves(m: World, g: S.Ref, q: Request, launch: Launch, endError: int)
    ensures OpenFsm(m, g, q, launch, endError).fsms == m.fsms[m.nextFsm := Start(q, launch)]
  {
    hide Step, Do, Finished, Start;
  }

  lemma BereaveMoves(x: World, g: S.Ref, endError: int)
    requires Enabled(x.net, SMourn(g))
    ensures Moved(x, BereaveOne(x, g, endError).fsms, AllMade)
  {
    hide Step, Do, Finished, Start, Cancel, Enabled, Completes;
  }

  lemma ResolveMoves(x: World, i: FsmId, n: NodeId, outcome: Outcome, sendError: int, endError: int)
    requires Can(x, Act.Resolve(i, n, outcome, sendError, endError))
    ensures ResolveOne(x, i, n, outcome, sendError, endError).fsms ==
            x.fsms[i := ExecSpec.Resolve(x.fsms[i], n, outcome, S.SendError(x.net.server, x.channels[i], sendError))]
  {
    hide Step, Do, Finished, S.SendError, PutResponse, ExecSpec.Resolve, Enabled;
  }

  lemma OthersMoveNothing(x: World, a: Act)
    requires Can(x, a) && !a.Resolve? && !a.Serve? && !a.Bereave?
    ensures Next(x, a).fsms == x.fsms
  {
    hide Step, Do, C.SubscribeNotifies, SendRequest, Enabled, CallHears;
    if a.Submit? || a.Greet? { SendingMovesNothing(x, a); }
  }

  lemma SendingMovesNothing(x: World, a: Act)
    requires Can(x, a) && (a.Submit? || a.Greet?)
    ensures Next(x, a).fsms == x.fsms
  {
    hide Step, Do, C.SendError, C.SubscribeNotifies, RequestFits, PutRequest, OnSent;
  }

  /** How the calls of a machine go that is made in this action. */
  function LaunchOf(a: Act): Launch {
    if a.Serve? then a.launch else AllMade
  }

  lemma NextMoves(x: World, a: Act)
    requires Can(x, a) && !a.Resolve?
    ensures Moved(x, Next(x, a).fsms, LaunchOf(a))
  {
    hide Moved, SubmitCall, GreetOne, ReadOne, MournOne, ServeOne, BereaveOne, ResolveOne, Step, Enabled;
    if a.Serve? {
      ServeMoves(x, a.c, a.handlerError, a.pipeError, a.launch, a.endError);
    } else if a.Bereave? {
      BereaveMoves(x, a.g, a.endError);
    } else {
      OthersMoveNothing(x, a);
      SameMoved(x, Next(x, a).fsms, LaunchOf(a));
    }
  }

  lemma SameMoved(x: World, fsms: map<FsmId, Fsm>, launch: Launch)
    requires fsms == x.fsms
    ensures Moved(x, fsms, launch)
  {
  }

  lemma NextRefusesNothing(x: World, a: Act)
    requires Can(x, a) && (a.Resolve? ==> a.sendError == SUCCESS)
    requires NoRefusals(x) && WorldGood(x)
    ensures NoRefusals(Next(x, a))
  {
    hide WorldGood, Next, Can;
    if a.Resolve? {
      ResolveRefusesNothing(x, a);
    } else {
      NextMoves(x, a);
    }
  }

  lemma {:induction false} AfterRefusesNothing(x: World, acts: seq<Act>)
    requires CanAll(x, acts) && ResponsesAccepted(acts) && NoRefusals(x) && WorldGood(x)
    ensures NoRefusals(After(x, acts))
    decreases |acts|
  {
    hide WorldGood, Next, Can, NoRefusals;
    if acts != [] {
      NextKeeps(x, acts[0]);
      NextRefusesNothing(x, acts[0]);
      AfterRefusesNothing(Next(x, acts[0]), acts[1..]);
    }
  }

  /** In this run the promise of machine `i` for node `n` resolved with `outcome`. */
  ghost predicate Resolved(acts: seq<Act>, i: FsmId, n: NodeId, outcome: Outcome) {
    exists k :: 0 <= k < |acts| && acts[k].Resolve? && acts[k].i == i && acts[k].n == n && acts[k].outcome == outcome
  }

  /** What a machine has noted of its node `n`. */
  function Noted(x: World, i: FsmId, n: NodeId): Option<Outcome> {
    if i in x.fsms && n in x.fsms[i].outcomes then Some(x.fsms[i].outcomes[n]) else None
  }

  lemma MachineIsSound(x: World, i: FsmId)
    requires WorldGood(x) && i in x.fsms
    ensures Sound(x.fsms[i])
    ensures i in x.live <==> x.fsms[i].completion.None?
  {
    hide Inv, Good, WorldGood, ChanOf, CallGood, Sound, Carries, GetRequest;
    BooksOf(x);
    var g := x.channels[i];
    var p := x.net.sockets[g.endpoint.clientId];
    LineAt(x, p, g.endpoint.tag);
    LineParts(x, p, g.endpoint.tag);
    assert LineOf(x, p, g.endpoint.tag).fsm == Some(x.fsms[i]);
  }

  /** A step notes an outcome only for the promise that it resolves; nothing is overwritten. */
  lemma NextNotes(x: World, a: Act, i: FsmId, n: NodeId)
    requires Can(x, a) && WorldGood(x)
    ensures Noted(Next(x, a), i, n) ==
            if a.Resolve? && a.i == i && a.n == n then Some(a.outcome) else Noted(x, i, n)
    ensures a.Resolve? && a.i == i && a.n == n ==> Noted(x, i, n).None?
  {
    hide WorldGood, Next, Can, S.SendError;
    if a.Resolve? {
      ResolveNotes(x, a);
      MachineIsSound(x, a.i);
    } else {
      NextMoves(x, a);
      NextIdIsNew(x);
    }
  }

  lemma NextIdIsNew(x: World)
    requires WorldGood(x)
    ensures x.nextFsm !in x.fsms
  {
    hide ProcessGood, LineGood;
  }

  lemma ResolveNotes(x: World, a: Act)
    requires Can(x, a) && a.Resolve?
    ensures a.i in x.fsms && a.n in x.fsms[a.i].ops && a.i in x.channels && a.i in x.live
    ensures Next(x, a).fsms == x.fsms[a.i :=
              ExecSpec.Resolve(x.fsms[a.i], a.n, a.outcome, S.SendError(x.net.server, x.channels[a.i], a.sendError))]
  {
    hide ResolveOne, S.SendError, ExecSpec.Resolve;
    ResolveMoves(x, a.i, a.n, a.outcome, a.sendError, a.endError);
  }

  lemma {:induction false} AfterNotes(x: World, acts: seq<Act>, i: FsmId, n: NodeId, outcome: Outcome)
    requires CanAll(x, acts) && WorldGood(x)
    ensures Noted(After(x, acts), i, n) == Some(outcome) <==>
            Noted(x, i, n) == Some(outcome) || Resolved(acts, i, n, outcome)
    ensures Noted(x, i, n).Some? ==> Noted(After(x, acts), i, n) == Noted(x, i, n)
    decreases |acts|
  {
    hide WorldGood, Next, Can;
    if acts != [] {
      NextKeeps(x, acts[0]);
      NextNotes(x, acts[0], i, n);
      AfterNotes(Next(x, acts[0]), acts[1..], i, n, outcome);
      ResolvedSplit(acts, i, n, outcome);
    }
  }

  lemma ResolvedSplit(acts: seq<Act>, i: FsmId, n: NodeId, outcome: Outcome)
    requires acts != []
    ensures Resolved(acts, i, n, outcome) <==>
            (acts[0].Resolve? && acts[0].i == i && acts[0].n == n && acts[0].outcome == outcome)
            || Resolved(acts[1..], i, n, outcome)
  {
    if Resolved(acts[1..], i, n, outcome) {
      var k :| 0 <= k < |acts[1..]| && acts[1..][k].Resolve? && acts[1..][k].i == i && acts[1..][k].n == n
               && acts[1..][k].outcome == outcome;
      assert acts[k + 1] == acts[1..][k];
    }
    if Resolved(acts, i, n, outcome) {
      var k :| 0 <= k < |acts| && acts[k].Resolve? && acts[k].i == i && acts[k].n == n && acts[k].outcome == outcome;
      if k > 0 { assert acts[1..][k - 1] == acts[k]; }
    }
  }

  /** End to end, when the pipe takes every response: a client that is told of success has
      exactly one entry for each distinct node it asked for whose promise succeeded, and it
      is that node's response to this very request. */
  lemma EndToEnd(services: set<ServiceId>, acts: seq<Act>, p: Pid, t: Tag, m: map<NodeId, Response>)
    requires CanAll(InitialWorld(services), acts) && ResponsesAccepted(acts)
    requires var x := After(InitialWorld(services), acts);
             (p, t) in x.calls && Success(m) in x.calls[(p, t)].results
    ensures var x := After(InitialWorld(services), acts);
            var g := Answering(x, p, t);
            && g in x.handlers && x.handlers[g] in x.channels && x.handlers[g] in x.fsms
            && x.channels[x.handlers[g]] == g
            && x.fsms[x.handlers[g]].request == x.calls[(p, t)].request
            && forall n: NodeId, r: Response ::
                 n in m && m[n] == r <==>
                   n in x.calls[(p, t)].request.nodes && Resolved(acts, x.handlers[g], n, Answered(r))
    ensures var x := After(InitialWorld(services), acts);
            var i := x.handlers[Answering(x, p, t)];
            forall n :: n in x.calls[(p, t)].request.nodes ==> exists o :: Resolved(acts, i, n, o)
  {
    hide WorldGood, Next, Can, Resolved, InitialWorld, CanAll, After;
    var w := InitialWorld(services);
    var x := After(w, acts);
    RunGood(services, acts);
    ResultComesFromMachine(x, p, t, m);
    NothingNotedAtFirst(services);
    AfterRefusesNothingAtAll(services, acts);
    var i := x.handlers[Answering(x, p, t)];
    var f := x.fsms[i];
    InitialKeeps(services);
    forall n: NodeId, r: Response
      ensures n in m && m[n] == r <==> n in x.calls[(p, t)].request.nodes && Resolved(acts, i, n, Answered(r))
    {
      AfterNotes(w, acts, i, n, Answered(r));
      assert n in x.calls[(p, t)].request.nodes <==> n in f.outcomes;
    }
    forall n | n in x.calls[(p, t)].request.nodes ensures exists o :: Resolved(acts, i, n, o) {
      assert n in f.outcomes;
      AfterNotes(w, acts, i, n, f.outcomes[n]);
    }
  }

  lemma NothingNotedAtFirst(services: set<ServiceId>)
    ensures forall i, n :: Noted(InitialWorld(services), i, n).None?
  {
  }

  lemma AfterRefusesNothingAtAll(services: set<ServiceId>, acts: seq<Act>)
    requires CanAll(InitialWorld(services), acts) && ResponsesAccepted(acts)
    ensures NoRefusals(After(InitialWorld(services), acts))
  {
    hide WorldGood, Next, Can;
    InitialKeeps(services);
    AfterRefusesNothing(InitialWorld(services), acts);
  }

  // ---- Machines.

  lemma MachineState(x: World, i: FsmId)
    requires WorldGood(x) && i in x.fsms && x.net.server.mourning == {}
    ensures i in x.channels
    ensures var g := x.channels[i];
            && (i in x.live ==> x.net.server.Registered(g.endpoint) == Some(g.ordinal) && x.net.server.Usable(g)
                                && OpenedForService(x.net.server.At(g)))
            && (i !in x.live ==> x.net.server.Registered(g.endpoint).None? && !x.net.server.Usable(g))
  {
    hide Inv, Good, WorldGood, ChanOf, CallGood, Sound, Carries, GetRequest;
    BooksOf(x);
    var g := x.channels[i];
    var p := x.net.sockets[g.endpoint.clientId];
    LineAt(x, p, g.endpoint.tag);
    LineParts(x, p, g.endpoint.tag);
    FarOfServer(x.net, p, g);
    FarOfGood(ChanOf(x.net, p, g.endpoint.tag));
    UsableAt(x.net, g);
    assert LineOf(x, p, g.endpoint.tag).fsm.Some?;
  }

  lemma GatewayHasMachine(x: World, g: S.Ref)
    requires WorldGood(x) && x.net.server.mourning == {}
    requires x.net.server.Registered(g.endpoint) == Some(g.ordinal) && x.net.server.Exists(g)
    requires OpenedForService(x.net.server.At(g))
    ensures g in x.handlers && x.handlers[g] in x.live && x.handlers[g] in x.channels && x.channels[x.handlers[g]] == g
  {
    hide Inv, Good, WorldGood, ChanOf, CallGood, Sound, Carries, GetRequest;
    BooksOf(x);
    HomeIsHere(x.net, g);
    var p := x.net.sockets[g.endpoint.clientId];
    LineAt(x, p, g.endpoint.tag);
    LineParts(x, p, g.endpoint.tag);
    FarOfServer(x.net, p, g);
    FarOfGood(ChanOf(x.net, p, g.endpoint.tag));
    assert LineOf(x, p, g.endpoint.tag).live;
  }

  /** Between two events, the machines in `id_to_fsm_` and the 'exec cmd' gateways in the
      router's table correspond one to one; a machine that is gone has taken its gateway
      with it. So each way of losing the gateway releases the machine, and the converse. */
  lemma MachinesMatchGateways(services: set<ServiceId>, acts: seq<Act>)
    requires CanAll(InitialWorld(services), acts)
    requires After(InitialWorld(services), acts).net.server.mourning == {}
    ensures var x := After(InitialWorld(services), acts);
            && x.live <= x.channels.Keys
            && (forall g: S.Ref ::
                  (exists i :: i in x.live && x.channels[i] == g) <==>
                  && x.net.server.Registered(g.endpoint) == Some(g.ordinal) && x.net.server.Exists(g)
                  && OpenedForService(x.net.server.At(g)))
            && (forall i, j :: i in x.live && j in x.live && x.channels[i] == x.channels[j] ==> i == j)
            && (forall i :: i in x.channels && i !in x.live ==> !x.net.server.Usable(x.channels[i]))
  {
    hide WorldGood, Next, Can, OpenedForService;
    var x := After(InitialWorld(services), acts);
    RunGood(services, acts);
    BooksOf(x);
    forall i | i in x.fsms
      ensures i in x.channels
      ensures i in x.live ==>
                && x.net.server.Registered(x.channels[i].endpoint) == Some(x.channels[i].ordinal)
                && x.net.server.Usable(x.channels[i]) && OpenedForService(x.net.server.At(x.channels[i]))
      ensures i !in x.live ==> !x.net.server.Usable(x.channels[i])
    {
      MachineState(x, i);
    }
    forall g: S.Ref |
      && x.net.server.Registered(g.endpoint) == Some(g.ordinal) && x.net.server.Exists(g)
      && OpenedForService(x.net.server.At(g))
      ensures exists i :: i in x.live && x.channels[i] == g
    {
      GatewayHasMachine(x, g);
      assert x.channels[x.handlers[g]] == g;
    }
  }

  /** A machine completes once: nothing that happens later touches it, no promise callback
      of it runs, and none is pending. */
  lemma CompletesOnce(services: set<ServiceId>, acts: seq<Act>, a: Act, i: FsmId)
    requires CanAll(InitialWorld(services), acts) && Can(After(InitialWorld(services), acts), a)
    requires var x := After(InitialWorld(services), acts);
             i in x.fsms && x.fsms[i].completion.Some?
    ensures var x := After(InitialWorld(services), acts);
            && i in Next(x, a).fsms && Next(x, a).fsms[i] == x.fsms[i] && x.fsms[i].ops == {}
            && (a.Resolve? ==> a.i != i)
  {
    hide WorldGood, Next, Can, S.SendError, InitialWorld, CanAll, After;
    var x := After(InitialWorld(services), acts);
    RunGood(services, acts);
    MachineIsSound(x, i);
    NextIdIsNew(x);
    if a.Resolve? { ResolveNotes(x, a); } else { NextMoves(x, a); }
  }

  /** A machine that completed with success did so after the promise of every distinct node
      of its request had resolved, with one outcome each. */
  lemma SucceedsAfterAll(services: set<ServiceId>, acts: seq<Act>, i: FsmId, n: NodeId)
    requires CanAll(InitialWorld(services), acts)
    requires var x := After(InitialWorld(services), acts);
             i in x.fsms && x.fsms[i].completion == Some(SUCCESS) && n in x.fsms[i].request.nodes
    ensures exists o :: Resolved(acts, i, n, o)
    ensures forall o, o' :: Resolved(acts, i, n, o) && Resolved(acts, i, n, o') ==> o == o'
  {
    hide WorldGood, Next, Can, Resolved, InitialWorld, CanAll, After;
    var w := InitialWorld(services);
    var x := After(w, acts);
    RunGood(services, acts);
    InitialKeeps(services);
    NothingNotedAtFirst(services);
    MachineIsSound(x, i);
    assert n in NodesOf(x.fsms[i].request);
    forall o ensures Resolved(acts, i, n, o) <==> o == x.fsms[i].outcomes[n] {
      AfterNotes(w, acts, i, n, o);
    }
    assert Resolved(acts, i, n, x.fsms[i].outcomes[n]);
  }
}
