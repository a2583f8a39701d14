/** Every run of the 'exec cmd' service is a run of the network: what holds of the routers
    in all their runs holds under the service. */
module ExecNetwork {
  import opened IpcTypes
  import opened Network
  import opened ExecCodec
  import opened ExecSpec
  import opened ExecWorld
  import NetworkTheorems
  import C = ClientRouterSpec
  import S = ServerRouterSpec

  /** The network gets from the one state to the other. */
  ghost predicate Leads(s: Sys, s': Sys) {
    exists labels :: Allowed(s, labels) && Run(s, labels) == s'
  }

  lemma {:induction false} RunJoins(s: Sys, a: seq<Label>, b: seq<Label>)
    requires Allowed(s, a) && Allowed(Run(s, a), b)
    ensures Allowed(s, a + b) && Run(s, a + b) == Run(Run(s, a), b)
    decreases |a|
  {
    hide Step, Enabled;
    if a == [] {
      assert a + b == b;
    } else {
      assert (a + b)[1..] == a[1..] + b;
      RunJoins(Step(s, a[0]), a[1..], b);
    }
  }

  lemma LeadsOn(s: Sys, s': Sys, s'': Sys)
    requires Leads(s, s') && Leads(s', s'')
    ensures Leads(s, s'')
  {
    hide Run, Allowed;
    var a :| Allowed(s, a) && Run(s, a) == s';
    var b :| Allowed(s', b) && Run(s', b) == s'';
    RunJoins(s, a, b);
  }

  lemma LeadsNowhere(s: Sys)
    ensures Leads(s, s)
  {
    assert Allowed(s, []) && Run(s, []) == s;
  }

  lemma StepLeads(s: Sys, l: Label)
    requires Enabled(s, l)
    ensures Leads(s, Step(s, l))
  {
    hide Step, Enabled;
    assert [l][1..] == [];
    assert Allowed(s, [l]) && Run(s, [l]) == Step(s, l);
  }

  lemma DoLeads(s: Sys, l: Label)
    ensures Leads(s, Do(s, l))
  {
    hide Step, Enabled, Leads;
    if Enabled(s, l) { StepLeads(s, l); } else { LeadsNowhere(s); }
  }

  lemma SettleLeads(x: World, i: FsmId, g: S.Ref, f: Fsm, endError: int)
    ensures Leads(x.net, Settle(x, i, g, f, endError).net)
  {
    hide Leads, Do;
    if f.completion.None? {
      LeadsNowhere(x.net);
    } else {
      var s := Do(x.net, SComplete(g, f.completion.value));
      DoLeads(x.net, SComplete(g, f.completion.value));
      DoLeads(s, SDispose(g, endError));
      LeadsOn(x.net, s, Do(s, SDispose(g, endError)));
    }
  }

  lemma OpenLeads(x: World, g: S.Ref, q: Request, launch: Launch, endError: int)
    ensures Leads(x.net, OpenFsm(x, g, q, launch, endError).net)
  {
    hide Leads, Do, Settle, Start;
    var i := x.nextFsm;
    var made := x.(net := Do(x.net, SSubscribe(g)), live := x.live + {i}, nextFsm := i + 1,
                   channels := x.channels[i := g], handlers := x.handlers[g := i]);
    DoLeads(x.net, SSubscribe(g));
    SettleLeads(made, i, g, Start(q, launch), endError);
    LeadsOn(x.net, made.net, Settle(made, i, g, Start(q, launch), endError).net);
  }

  lemma ServeLeads(x: World, c: ClientId, handlerError: int, pipeError: int, launch: Launch, endError: int)
    requires Enabled(x.net, SReceive(c, handlerError, pipeError))
    ensures Leads(x.net, ServeOne(x, c, handlerError, pipeError, launch, endError).net)
    ensures Leads(Step(x.net, SReceive(c, FsmError(x, c, x.net.Next(c), handlerError), pipeError)),
                  ServeOne(x, c, handlerError, pipeError, launch, endError).net)
  {
    hide Leads, Do, Settle, OpenFsm, Step, Completes, GetRequest, FsmError, Cancel;
    var f := x.net.Next(c);
    var l := SReceive(c, FsmError(x, c, f, handlerError), pipeError);
    var served := x.(net := Step(x.net, l));
    StepLeads(x.net, l);
    if S.Opens(x.net.server, c, f) && f.service == SERVICE {
      var g := S.Ref(S.Endpoint(f.tag, c), |x.net.server.Objects(S.Endpoint(f.tag, c))|);
      match GetRequest(f.payload)
      case None => DoLeads(served.net, SDispose(g, endError));
      case Some(q) => OpenLeads(served, g, q, launch, endError);
    } else if f.ChannelMsg? || f.ChannelEnd? {
      var g := S.Ref(S.Endpoint(f.tag, c), 0);
      LeadsNowhere(served.net);
      if x.LiveAt(g) { SettleLeads(served, x.handlers[g], g, Cancel(x.fsms[x.handlers[g]]), endError); }
    } else {
      LeadsNowhere(served.net);
    }
    LeadsOn(x.net, served.net, ServeOne(x, c, handlerError, pipeError, launch, endError).net);
  }

  lemma BereaveLeads(x: World, g: S.Ref, endError: int)
    requires Enabled(x.net, SMourn(g))
    ensures Leads(x.net, BereaveOne(x, g, endError).net)
  {
    hide Leads, Settle, Step, Completes, Cancel;
    var told := x.(net := Step(x.net, SMourn(g)));
    StepLeads(x.net, SMourn(g));
    LeadsNowhere(told.net);
    if x.LiveAt(g) { SettleLeads(told, x.handlers[g], g, Cancel(x.fsms[x.handlers[g]]), endError); }
    LeadsOn(x.net, told.net, BereaveOne(x, g, endError).net);
  }

  lemma ResolveLeads(x: World, i: FsmId, n: NodeId, outcome: Outcome, sendError: int, endError: int)
    requires Can(x, Act.Resolve(i, n, outcome, sendError, endError))
    ensures Leads(x.net, ResolveOne(x, i, n, outcome, sendError, endError).net)
  {
    hide Leads, Settle, Do, ExecSpec.Resolve, S.SendError, PutResponse;
    var g := x.channels[i];
    var sent := if outcome.Answered?
      then x.(net := Do(x.net, SSend(g, SERVICE, PutResponse(n, outcome.response), sendError))) else x;
    if outcome.Answered? {
      DoLeads(x.net, SSend(g, SERVICE, PutResponse(n, outcome.response), sendError));
    } else {
      LeadsNowhere(x.net);
    }
    var f := ExecSpec.Resolve(x.fsms[i], n, outcome, S.SendError(x.net.server, g, sendError));
    SettleLeads(sent, i, g, f, endError);
    LeadsOn(x.net, sent.net, Settle(sent, i, g, f, endError).net);
  }

  lemma SendLeads(x: World, p: Pid, t: Tag, pipeError: int)
    requires (p, t) in x.calls && p in x.net.hosts
    ensures Leads(x.net, SendRequest(x, p, t, pipeError).net)
  {
    hide Leads, Do, RequestFits, PutRequest, C.SendError;
    LeadsNowhere(x.net);
    if RequestFits(x.calls[(p, t)].request) {
      DoLeads(x.net, CSend(p, t, SERVICE, PutRequest(x.calls[(p, t)].request), pipeError));
    }
  }

  lemma ClientLeads(x: World, a: Act)
    requires Can(x, a) && (a.Submit? || a.Greet?)
    ensures Leads(x.net, Next(x, a).net)
  {
    hide Leads, SendRequest, C.SubscribeNotifies;
    if a.Submit? {
      var c := x.calls[(a.p, a.t)];
      var ready := x.(calls := x.calls[(a.p, a.t) := c.(submitted := true)], net := Step(x.net, CSubscribe(a.p, a.t)));
      StepLeads(x.net, CSubscribe(a.p, a.t));
      SendLeads(ready, a.p, a.t, a.pipeError);
      LeadsOn(x.net, ready.net, SendRequest(ready, a.p, a.t, a.pipeError).net);
    } else {
      var told := x.(net := Step(x.net, CGreet(a.p, a.t)));
      StepLeads(x.net, CGreet(a.p, a.t));
      if x.Submitted(a.p, a.t) {
        SendLeads(told, a.p, a.t, a.pipeError);
        LeadsOn(x.net, told.net, SendRequest(told, a.p, a.t, a.pipeError).net);
      }
    }
  }

  lemma OneLabelLeads(x: World, a: Act)
    requires Can(x, a) && (a.NewCall? || a.Drop? || a.Read? || a.Mourn? || a.Other?)
    ensures Leads(x.net, Next(x, a).net)
  {
    hide Leads, Step, CallHears, CallError;
    match a
    case NewCall(p, _) => StepLeads(x.net, CMake(p));
    case Drop(p, t, e) => StepLeads(x.net, CDispose(p, t, e));
    case Read(p, c, e) =>
      StepLeads(x.net, CReceive(p, c, CallError(x, p, x.net.server.Outbox(c)[x.net.hosts[p].taken], e)));
    case Mourn(p, t) => StepLeads(x.net, CMourn(p, t));
    case Other(l) => StepLeads(x.net, l);
  }

  /** Every action is a few steps of the network. */
  lemma NextLeads(x: World, a: Act)
    requires Can(x, a)
    ensures Leads(x.net, Next(x, a).net)
  {
    hide Leads, ServeOne, BereaveOne, ResolveOne, Step;
    match a
    case Submit(_, _, _) => ClientLeads(x, a);
    case Greet(_, _, _) => ClientLeads(x, a);
    case Serve(c, h, e, launch, endError) => ServeLeads(x, c, h, e, launch, endError);
    case Bereave(g, endError) => BereaveLeads(x, g, endError);
    case Resolve(i, n, outcome, sendError, endError) => ResolveLeads(x, i, n, outcome, sendError, endError);
    case _ => OneLabelLeads(x, a);
  }

  lemma {:induction false} AfterLeads(x: World, acts: seq<Act>)
    requires CanAll(x, acts)
    ensures Leads(x.net, After(x, acts).net)
    decreases |acts|
  {
    hide Leads, Next, Can;
    if acts == [] {
      LeadsNowhere(x.net);
    } else {
      NextLeads(x, acts[0]);
      AfterLeads(Next(x, acts[0]), acts[1..]);
      LeadsOn(x.net, Next(x, acts[0]).net, After(x, acts).net);
    }
  }

  /** So the routers and connections under any run of the service are in a state that the
      network reaches, and every guarantee of the routers holds of them. */
  lemma ServiceRunsOnNetwork(services: set<ServiceId>, acts: seq<Act>)
    requires CanAll(InitialWorld(services), acts)
    ensures NetworkTheorems.Reachable(services, After(InitialWorld(services), acts).net)
  {
    hide Run, Allowed, CanAll, After;
    AfterLeads(InitialWorld(services), acts);
  }
}
