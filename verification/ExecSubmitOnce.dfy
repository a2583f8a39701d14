/** A client that is submitted once sends its request at most once and, if the pipe takes
    it, reports at most one result. */
module ExecSubmitOnce {
  import opened IpcTypes
  import opened Channel
  import opened Network
  import opened Projection
  import opened ExecCodec
  import opened ExecSpec
  import opened ExecChannel
  import opened ExecWorld
  import opened ExecWorldProofs
  import ExecGuarantees
  import C = ClientRouterSpec
  import S = ServerRouterSpec

  /** What the routers guarantee of one client's gateway, as far as it matters here. */
  ghost predicate Tidy(x: World, p: Pid, t: Tag) {
    (p, t) in x.calls ==>
      && p in x.net.hosts && t in x.net.hosts[p].router.gateways
      && (var r := x.net.hosts[p].router;
          && t < r.nextTag
          && (t in r.table ==> r.gateways[t].alive)
          && (t in r.greeting ==> t in r.table && r.connected)
          && (t in r.mourning ==> t !in r.table)
          && (r.gateways[t].Finished() ==> t !in r.table && t !in r.mourning)
          && r.gateways[t].CompletesOnce())
  }

  lemma TidyOf(x: World, p: Pid, t: Tag)
    requires WorldGood(x)
    ensures Tidy(x, p, t)
  {
    hide Inv, Good, WorldGood, ChanOf, FsmGood, ProcessGood, Requests, Collected, LineGood;
    BooksOf(x);
    if (p, t) in x.calls {
      LineAt(x, p, t);
      LineParts(x, p, t);
      CallMadeOf(LineOf(x, p, t));
      TidyChannel(x.net, p, t);
    }
  }

  lemma TidyChannel(s: Sys, p: Pid, t: Tag)
    requires Inv(s) && p in s.hosts && Readable(s, p) && Good(ChanOf(s, p, t)) && ChanOf(s, p, t).near.made
    ensures t in s.hosts[p].router.gateways && t < s.hosts[p].router.nextTag
    ensures var r := s.hosts[p].router;
            && (t in r.table ==> r.gateways[t].alive)
            && (t in r.greeting ==> t in r.table && r.connected)
            && (t in r.mourning ==> t !in r.table)
            && (r.gateways[t].Finished() ==> t !in r.table && t !in r.mourning)
            && r.gateways[t].CompletesOnce()
  {
    hide UpGood, DownGood, FarGood;
    assert ProcessGood(s, p);
  }

  /** The client of channel `t`: at most one attempt to send its request was made, exactly
      one if it could be; and if the pipe took it, at most one result was reported. */
  predicate OnceAt(r: C.ClientState, t: Tag, c: Call)
    requires t in r.gateways
  {
    var v := r.gateways[t];
    && |v.sent| <= v.nextSequence <= 1
    && (!RequestFits(c.request) ==> v.nextSequence == 0)
    && (!c.submitted ==> v.nextSequence == 0 && c.results == [])
    && (c.submitted && RequestFits(c.request) && t in r.table && (!r.connected || t in r.greeting) ==>
         v.nextSequence == 0 && c.results == [])
    && (c.submitted && RequestFits(c.request) && t in r.table && r.connected && t !in r.greeting ==>
         v.nextSequence == 1)
    && (v.sent != [] ==> |c.results| <= if v.Finished() then 1 else 0)
  }

  predicate Once(x: World, p: Pid, t: Tag) {
    (p, t) in x.calls ==>
      p in x.net.hosts && t in x.net.hosts[p].router.gateways && OnceAt(x.net.hosts[p].router, t, x.calls[(p, t)])
  }

  /** If this action submits the client of channel `t`, then it is the first to do so, and if
      the request serializes it is not done while the announcement is on its way. */
  predicate SubmitsOnce(x: World, a: Act, p: Pid, t: Tag) {
    a.Submit? && a.p == p && a.t == t && (p, t) in x.calls && p in x.net.hosts ==>
      !x.calls[(p, t)].submitted && (RequestFits(x.calls[(p, t)].request) ==> t !in x.net.hosts[p].router.greeting)
  }

  lemma DaemonStep(s: Sys, l: Label)
    requires l.SReceive? || l.SSend? || l.SComplete? || l.SSubscribe? || l.SDispose? || l.SMourn? || l.SPipeDown?
    ensures Do(s, l).hosts == s.hosts
  {
  }

  lemma SettleHosts(x: World, i: FsmId, g: S.Ref, f: Fsm, endError: int)
    ensures Settle(x, i, g, f, endError).net.hosts == x.net.hosts && Settle(x, i, g, f, endError).calls == x.calls
  {
    hide Step, Enabled, Do;
    if f.completion.Some? {
      DaemonStep(x.net, SComplete(g, f.completion.value));
      DaemonStep(Do(x.net, SComplete(g, f.completion.value)), SDispose(g, endError));
    }
  }

  lemma OpenHosts(x: World, g: S.Ref, q: Request, launch: Launch, endError: int)
    ensures OpenFsm(x, g, q, launch, endError).net.hosts == x.net.hosts &&
            OpenFsm(x, g, q, launch, endError).calls == x.calls
  {
    hide Step, Do, Settle, Start;
    var i := x.nextFsm;
    DaemonStep(x.net, SSubscribe(g));
    SettleHosts(x.(net := Do(x.net, SSubscribe(g)), live := x.live + {i}, nextFsm := i + 1,
                   channels := x.channels[i := g], handlers := x.handlers[g := i]), i, g, Start(q, launch), endError);
  }

  lemma ServeHosts(x: World, c: ClientId, handlerError: int, pipeError: int, launch: Launch, endError: int)
    requires Enabled(x.net, SReceive(c, handlerError, pipeError))
    ensures var x' := ServeOne(x, c, handlerError, pipeError, launch, endError);
            x'.net.hosts == x.net.hosts && x'.calls == x.calls
  {
    hide Step, Do, Settle, OpenFsm, Cancel, GetRequest, Completes, FsmError;
    var f := x.net.Next(c);
    var l := SReceive(c, FsmError(x, c, f, handlerError), pipeError);
    DaemonStep(x.net, l);
    DoIs(x.net, l);
    var served := x.(net := Step(x.net, l));
    if S.Opens(x.net.server, c, f) && f.service == SERVICE {
      var g := S.Ref(S.Endpoint(f.tag, c), |x.net.server.Objects(S.Endpoint(f.tag, c))|);
      DaemonStep(served.net, SDispose(g, endError));
      if GetRequest(f.payload).Some? {
        OpenHosts(served, g, GetRequest(f.payload).value, launch, endError);
      }
    } else if f.ChannelMsg? || f.ChannelEnd? {
      var g := S.Ref(S.Endpoint(f.tag, c), 0);
      if x.LiveAt(g) { SettleHosts(served, x.handlers[g], g, Cancel(x.fsms[x.handlers[g]]), endError); }
    }
  }

  lemma DoIs(s: Sys, l: Label)
    requires Enabled(s, l)
    ensures Do(s, l) == Step(s, l)
  {
  }

  lemma DaemonActsHosts(x: World, a: Act)
    requires Can(x, a) && (a.Serve? || a.Bereave? || a.Resolve?)
    ensures Next(x, a).net.hosts == x.net.hosts && Next(x, a).calls == x.calls
  {
    hide Step, Do, Settle, Cancel, ExecSpec.Resolve, PutResponse, S.SendError, ServeOne, Completes;
    if a.Serve? {
      ServeHosts(x, a.c, a.handlerError, a.pipeError, a.launch, a.endError);
    } else if a.Bereave? {
      DaemonStep(x.net, SMourn(a.g));
      DoIs(x.net, SMourn(a.g));
      if a.g in x.handlers && x.handlers[a.g] in x.fsms {
        SettleHosts(x.(net := Step(x.net, SMourn(a.g))), x.handlers[a.g], a.g, Cancel(x.fsms[x.handlers[a.g]]),
          a.endError);
      }
    } else {
      var g := x.channels[a.i];
      var f := ExecSpec.Resolve(x.fsms[a.i], a.n, a.outcome, S.SendError(x.net.server, g, a.sendError));
      if a.outcome.Answered? {
        var l := SSend(g, SERVICE, PutResponse(a.n, a.outcome.response), a.sendError);
        DaemonStep(x.net, l);
        SettleHosts(x.(net := Do(x.net, l)), a.i, g, f, a.endError);
      } else {
        SettleHosts(x, a.i, g, f, a.endError);
      }
    }
  }

  /** Nothing changed for the client of channel `t`. */
  predicate SameClient(x: World, x': World, p: Pid, t: Tag) {
    && ((p, t) in x'.calls <==> (p, t) in x.calls)
    && ((p, t) in x.calls ==> x'.calls[(p, t)] == x.calls[(p, t)])
    && (p in x.net.hosts ==>
          && p in x'.net.hosts
          && (var r, r' := x.net.hosts[p].router, x'.net.hosts[p].router;
              && r'.connected == r.connected && (t in r'.table <==> t in r.table)
              && (t in r'.greeting <==> t in r.greeting)
              && (t in r.gateways ==> t in r'.gateways && r'.gateways[t] == r.gateways[t])))
  }

  lemma SameClientOnce(x: World, x': World, p: Pid, t: Tag)
    requires Once(x, p, t) && SameClient(x, x', p, t)
    ensures Once(x', p, t)
  {
  }

  /** The action is one of process `q` on its channel `u`. */
  predicate ActsOn(x: World, a: Act, q: Pid, u: Tag) {
    match a
    case NewCall(p, _) => q == p && p in x.net.hosts && u == x.net.hosts[p].router.nextTag
    case Submit(p, t, _) => q == p && u == t
    case Greet(p, t, _) => q == p && u == t
    case Drop(p, t, _) => q == p && u == t
    case Mourn(p, t) => q == p && u == t
    case Other(l) =>
      (match l
       case CMake(p) => q == p && p in x.net.hosts && u == x.net.hosts[p].router.nextTag
       case CSend(p, t, _, _, _) => q == p && u == t
       case CComplete(p, t, _) => q == p && u == t
       case CSubscribe(p, t) => q == p && u == t
       case CDispose(p, t, _) => q == p && u == t
       case _ => false)
    case _ => false
  }

  lemma SendRequestElsewhere(x: World, q: Pid, u: Tag, e: int, p: Pid, t: Tag)
    requires (q, u) in x.calls && q in x.net.hosts && (q, u) != (p, t)
    ensures SameClient(x, SendRequest(x, q, u, e), p, t)
  {
    hide PutRequest, RequestFits, C.SendError;
  }

  lemma SameClientThen(x: World, x1: World, x2: World, p: Pid, t: Tag)
    requires SameClient(x, x1, p, t) && SameClient(x1, x2, p, t)
    ensures SameClient(x, x2, p, t)
  {
  }

  lemma SubmitElsewhere(x: World, q: Pid, u: Tag, e: int, p: Pid, t: Tag)
    requires Can(x, Act.Submit(q, u, e)) && (q, u) != (p, t)
    ensures SameClient(x, SubmitCall(x, q, u, e), p, t)
  {
    hide SendRequest, SameClient;
    var x1 := x.(calls := x.calls[(q, u) := x.calls[(q, u)].(submitted := true)], net := Step(x.net, CSubscribe(q, u)));
    assert SameClient(x, x1, p, t) by { SubscribedElsewhere(x, q, u, p, t); }
    if C.SubscribeNotifies(x.net.hosts[q].router, u) {
      SendRequestElsewhere(x1, q, u, e, p, t);
      SameClientThen(x, x1, SendRequest(x1, q, u, e), p, t);
    }
  }

  lemma SubscribedElsewhere(x: World, q: Pid, u: Tag, p: Pid, t: Tag)
    requires (q, u) in x.calls && Enabled(x.net, CSubscribe(q, u)) && (q, u) != (p, t)
    ensures SameClient(x, x.(calls := x.calls[(q, u) := x.calls[(q, u)].(submitted := true)],
                             net := Step(x.net, CSubscribe(q, u))), p, t)
  {
  }

  lemma GreetElsewhere(x: World, q: Pid, u: Tag, e: int, p: Pid, t: Tag)
    requires Enabled(x.net, CGreet(q, u)) && (q, u) != (p, t)
    ensures SameClient(x, GreetOne(x, q, u, e), p, t)
  {
    hide SendRequest, SameClient;
    var x1 := x.(net := Step(x.net, CGreet(q, u)));
    assert SameClient(x, x1, p, t) by { GreetedElsewhere(x, q, u, p, t); }
    if x.Submitted(q, u) {
      SendRequestElsewhere(x1, q, u, e, p, t);
      SameClientThen(x, x1, SendRequest(x1, q, u, e), p, t);
    }
  }

  lemma GreetedElsewhere(x: World, q: Pid, u: Tag, p: Pid, t: Tag)
    requires Enabled(x.net, CGreet(q, u)) && (q, u) != (p, t)
    ensures SameClient(x, x.(net := Step(x.net, CGreet(q, u))), p, t)
  {
  }

  lemma LabelElsewhere(x: World, l: Label, p: Pid, t: Tag)
    requires Enabled(x.net, l) && OtherMay(x, l) && !ActsOn(x, Act.Other(l), p, t)
    requires !(l.CPipeDown? && l.p == p)
    ensures SameClient(x, x.(net := Step(x.net, l)), p, t)
  {
    if l.CMake? || l.CSend? || l.CComplete? || l.CSubscribe? || l.CDispose? {
      UserElsewhere(x, l, p, t);
    } else {
      hide S.Send, S.Dispose, S.Subscribe, S.Complete, S.PipeDisconnected;
      PipesElsewhere(x, l, p, t);
    }
  }

  lemma UserElsewhere(x: World, l: Label, p: Pid, t: Tag)
    requires Enabled(x.net, l) && !ActsOn(x, Act.Other(l), p, t)
    requires l.CMake? || l.CSend? || l.CComplete? || l.CSubscribe? || l.CDispose?
    ensures SameClient(x, x.(net := Step(x.net, l)), p, t)
  {
  }

  lemma PipesElsewhere(x: World, l: Label, p: Pid, t: Tag)
    requires Enabled(x.net, l) && OtherMay(x, l) && !(l.CPipeDown? && l.p == p)
    requires !(l.CMake? || l.CSend? || l.CComplete? || l.CSubscribe? || l.CDispose?)
    ensures SameClient(x, x.(net := Step(x.net, l)), p, t)
  {
    hide S.Send, S.Dispose, S.Subscribe, S.Complete, S.PipeDisconnected;
  }

  lemma DropElsewhere(x: World, q: Pid, u: Tag, e: int, p: Pid, t: Tag)
    requires Enabled(x.net, CDispose(q, u, e)) && (q, u) != (p, t)
    ensures SameClient(x, x.(net := Step(x.net, CDispose(q, u, e))), p, t)
  {
  }

  lemma MournElsewhere(x: World, q: Pid, u: Tag, p: Pid, t: Tag)
    requires Enabled(x.net, CMourn(q, u)) && (q, u) != (p, t)
    ensures SameClient(x, MournOne(x, q, u), p, t)
  {
    hide OnCompleted, C.Mourn, SameClient;
    MournsOne(x.net.hosts[q].router, u, t);
    RouterElsewhere(x, MournOne(x, q, u), q, u, C.Mourn(x.net.hosts[q].router, u), p, t);
  }

  /** Only this router changed, and not for channel `t`. */
  lemma RouterElsewhere(x: World, x': World, q: Pid, u: Tag, r: C.ClientState, p: Pid, t: Tag)
    requires q in x.net.hosts && (q, u) != (p, t) && x'.net == x.net.WithRouter(q, r)
    requires x'.calls == x.calls ||
             ((q, u) in x.calls && (q, u) in x'.calls && x'.calls == x.calls[(q, u) := x'.calls[(q, u)]])
    requires q == p ==>
               var r0 := x.net.hosts[q].router;
               && r.connected == r0.connected && (t in r.table <==> t in r0.table)
               && (t in r.greeting <==> t in r0.greeting)
               && (t in r0.gateways ==> t in r.gateways && r.gateways[t] == r0.gateways[t])
    ensures SameClient(x, x', p, t)
  {
  }

  lemma MournsOne(r: C.ClientState, u: Tag, t: Tag)
    requires u in r.mourning && u in r.gateways
    ensures var r' := C.Mourn(r, u);
            && r'.connected == r.connected && r'.table == r.table && r'.greeting == r.greeting
            && (t != u && t in r.gateways ==> t in r'.gateways && r'.gateways[t] == r.gateways[t])
            && (t in r.gateways ==> t in r'.gateways)
  {
  }

  lemma NewCallElsewhere(x: World, q: Pid, request: Request, p: Pid, t: Tag)
    requires Can(x, Act.NewCall(q, request)) && !ActsOn(x, Act.NewCall(q, request), p, t)
    ensures SameClient(x, Next(x, Act.NewCall(q, request)), p, t)
  {
  }

  lemma ActElsewhere(x: World, a: Act, p: Pid, t: Tag)
    requires Can(x, a) && !ActsOn(x, a, p, t)
    requires a.NewCall? || a.Submit? || a.Greet? || a.Drop? || a.Mourn?
    ensures SameClient(x, Next(x, a), p, t)
  {
    hide SubmitCall, GreetOne, MournOne, SameClient, Step;
    if a.NewCall? {
      NewCallElsewhere(x, a.p, a.q, p, t);
    } else if a.Submit? {
      SubmitElsewhere(x, a.p, a.t, a.pipeError, p, t);
    } else if a.Greet? {
      GreetElsewhere(x, a.p, a.t, a.pipeError, p, t);
    } else if a.Drop? {
      DropElsewhere(x, a.p, a.t, a.pipeError, p, t);
    } else {
      MournElsewhere(x, a.p, a.t, p, t);
    }
  }

  // ---- Actions on the channel itself.

  /** The client is about to send for the first time. */
  predicate Fresh(x: World, p: Pid, t: Tag) {
    && (p, t) in x.calls && p in x.net.hosts && x.net.hosts[p].router.Usable(t)
    && (var r, v, c := x.net.hosts[p].router, x.net.hosts[p].router.gateways[t], x.calls[(p, t)];
        && r.connected && t in r.table && c.submitted && v.nextSequence == 0 && v.sent == []
        && (RequestFits(c.request) ==> t !in r.greeting && c.results == []))
  }

  lemma SendRequestOnce(x: World, p: Pid, t: Tag, e: int)
    requires Fresh(x, p, t)
    ensures Once(SendRequest(x, p, t, e), p, t)
  {
    hide PutRequest, RequestFits;
  }

  lemma SubmitOnce(x: World, p: Pid, t: Tag, e: int)
    requires Can(x, Act.Submit(p, t, e)) && Tidy(x, p, t) && Once(x, p, t)
    requires SubmitsOnce(x, Act.Submit(p, t, e), p, t)
    ensures Once(SubmitCall(x, p, t, e), p, t)
  {
    hide SendRequest, RequestFits;
    var x1 := x.(calls := x.calls[(p, t) := x.calls[(p, t)].(submitted := true)], net := Step(x.net, CSubscribe(p, t)));
    if C.SubscribeNotifies(x.net.hosts[p].router, t) { SendRequestOnce(x1, p, t, e); }
  }

  lemma GreetOnce(x: World, p: Pid, t: Tag, e: int)
    requires Enabled(x.net, CGreet(p, t)) && Tidy(x, p, t) && Once(x, p, t)
    ensures Once(GreetOne(x, p, t, e), p, t)
  {
    hide SendRequest, RequestFits;
    if x.Submitted(p, t) { SendRequestOnce(x.(net := Step(x.net, CGreet(p, t))), p, t, e); }
  }

  lemma MournedOnce(x: World, p: Pid, t: Tag)
    requires Enabled(x.net, CMourn(p, t)) && Tidy(x, p, t) && Once(x, p, t)
    ensures Once(MournOne(x, p, t), p, t)
  {
    hide OnceAt, C.Mourn, OnCompleted;
    if (p, t) in x.calls {
      var call, r := x.calls[(p, t)], x.net.hosts[p].router;
      MournedAt(r, t, call, if r.Usable(t) && call.submitted then OnCompleted(call, DISCONNECTED) else call);
    }
  }

  lemma MournedAt(r: C.ClientState, t: Tag, call: Call, told: Call)
    requires t in r.gateways && t in r.mourning && t !in r.table && !r.gateways[t].Finished() && OnceAt(r, t, call)
    requires told == if r.Usable(t) && call.submitted then OnCompleted(call, DISCONNECTED) else call
    ensures t in C.Mourn(r, t).gateways && OnceAt(C.Mourn(r, t), t, told)
  {
    hide RequestFits;
  }

  lemma DropOnce(x: World, p: Pid, t: Tag, e: int)
    requires Enabled(x.net, CDispose(p, t, e)) && Tidy(x, p, t) && Once(x, p, t)
    ensures Once(x.(net := Step(x.net, CDispose(p, t, e))), p, t)
  {
    hide RequestFits;
  }

  lemma NewCallOnce(x: World, p: Pid, q: Request, t: Tag)
    requires Can(x, Act.NewCall(p, q)) && t == x.net.hosts[p].router.nextTag
    ensures Once(Next(x, Act.NewCall(p, q)), p, t)
  {
    hide RequestFits;
  }

  lemma LostOnce(x: World, q: Pid, p: Pid, t: Tag)
    requires q in x.net.hosts && Once(x, p, t)
    ensures Once(x.(net := LoseServer(x.net, q)), p, t)
  {
    hide RequestFits;
  }

  lemma HeardOnce(x: World, q: Pid, c: ClientId, p: Pid, t: Tag)
    requires x.net.HostHasNext(q, c) && Tidy(x, p, t) && Once(x, p, t)
    ensures var f := x.net.server.Outbox(c)[x.net.hosts[q].taken];
            Once(Heard(x, q, f).(net := HostTakes(x.net, q, c)), p, t)
  {
    hide RequestFits, Emplaced, OnceAt, C.Receive, OnInput, OnCompleted;
    var f := x.net.server.Outbox(c)[x.net.hosts[q].taken];
    if (p, t) in x.calls {
      if q == p {
        HeardHere(x, f, c, p, t);
      } else {
        HeardElsewhere(x, f, q, c, p, t);
      }
    }
  }

  lemma HeardElsewhere(x: World, f: Frame, q: Pid, c: ClientId, p: Pid, t: Tag)
    requires x.net.HostHasNext(q, c) && q != p && f == x.net.server.Outbox(c)[x.net.hosts[q].taken] && Once(x, p, t)
    ensures Once(Heard(x, q, f).(net := HostTakes(x.net, q, c)), p, t)
  {
    hide RequestFits, OnceAt, C.Receive, CallHears, OnInput, OnCompleted;
  }

  lemma HeardHere(x: World, f: Frame, c: ClientId, p: Pid, t: Tag)
    requires x.net.HostHasNext(p, c) && f == x.net.server.Outbox(c)[x.net.hosts[p].taken]
    requires (p, t) in x.calls && Tidy(x, p, t) && Once(x, p, t)
    ensures Once(Heard(x, p, f).(net := HostTakes(x.net, p, c)), p, t)
  {
    hide OnceAt, C.Receive, OnInput, OnCompleted;
    var call := x.calls[(p, t)];
    var told := if CallHears(x, p, f) && f.tag == t then
                  if f.ChannelMsg? then OnInput(call, f.payload) else OnCompleted(call, f.error)
                else call;
    HeardAt(x.net.hosts[p].router, f, t, call, told);
    assert Heard(x, p, f).calls[(p, t)] == told;
  }

  lemma HeardAt(r: C.ClientState, f: Frame, t: Tag, call: Call, told: Call)
    requires t in r.gateways && OnceAt(r, t, call)
    requires (t in r.table ==> r.gateways[t].alive && !r.gateways[t].Finished())
    requires told == if f.For(t) && t in r.table && r.gateways[t].alive && call.submitted then
                       if f.ChannelMsg? then OnInput(call, f.payload) else OnCompleted(call, f.error)
                     else call
    ensures t in C.Receive(r, f).gateways && OnceAt(C.Receive(r, f), t, told)
  {
    hide RequestFits, Emplaced;
  }

  lemma ReadOnce(x: World, q: Pid, c: ClientId, h: int, p: Pid, t: Tag)
    requires Can(x, Act.Read(q, c, h)) && Tidy(x, p, t) && Once(x, p, t)
    ensures Once(ReadOne(x, q, c, h), p, t)
  {
    hide Once, OnInput, OnCompleted;
    HeardOnce(x, q, c, p, t);
    var f := x.net.server.Outbox(c)[x.net.hosts[q].taken];
    if C.ReceiveError(x.net.hosts[q].router, f, CallError(x, q, f, h)) != SUCCESS {
      LostOnce(Heard(x, q, f).(net := HostTakes(x.net, q, c)), q, p, t);
    }
  }

  /** Other users of the process never touch the client's gateway. */
  lemma OtherOnce(x: World, l: Label, p: Pid, t: Tag)
    requires Can(x, Act.Other(l)) && Tidy(x, p, t) && Once(x, p, t)
    ensures Once(x.(net := Step(x.net, l)), p, t)
  {
    if l.CPipeDown? {
      LostOnce(x, l.p, p, t);
    } else if ActsOn(x, Act.Other(l), p, t) {
      assert (p, t) !in x.calls;
    } else {
      hide Step;
      LabelElsewhere(x, l, p, t);
      SameClientOnce(x, x.(net := Step(x.net, l)), p, t);
    }
  }

  lemma NextOnce(x: World, a: Act, p: Pid, t: Tag)
    requires Can(x, a) && SubmitsOnce(x, a, p, t)
    requires Once(x, p, t) && Tidy(x, p, t)
    ensures Once(Next(x, a), p, t)
  {
    hide Once, Tidy, SubmitCall, GreetOne, ReadOne, MournOne, ServeOne, BereaveOne, ResolveOne, Step, SameClient;
    if a.Serve? || a.Bereave? || a.Resolve? {
      DaemonActsHosts(x, a);
      SdkSameClient(x, Next(x, a), p, t);
      SameClientOnce(x, Next(x, a), p, t);
    } else if a.Read? {
      ReadOnce(x, a.p, a.c, a.handlerError, p, t);
    } else if a.Other? {
      OtherOnce(x, a.l, p, t);
    } else if !ActsOn(x, a, p, t) {
      ActElsewhere(x, a, p, t);
      SameClientOnce(x, Next(x, a), p, t);
    } else if a.NewCall? {
      NewCallOnce(x, p, a.q, t);
    } else if a.Submit? {
      SubmitOnce(x, p, t, a.pipeError);
    } else if a.Greet? {
      GreetOnce(x, p, t, a.pipeError);
    } else if a.Drop? {
      DropOnce(x, p, t, a.pipeError);
    } else {
      MournedOnce(x, p, t);
    }
  }

  lemma SdkSameClient(x: World, x': World, p: Pid, t: Tag)
    requires x'.net.hosts == x.net.hosts && x'.calls == x.calls
    ensures SameClient(x, x', p, t)
  {
  }

  /** In this run the client of channel `t` is submitted once, and if its request serializes
      not while the announcement is on its way to it. */
  predicate SubmittedOnce(x: World, acts: seq<Act>, p: Pid, t: Tag)
    requires CanAll(x, acts)
    decreases |acts|
  {
    acts != [] ==> SubmitsOnce(x, acts[0], p, t) && SubmittedOnce(Next(x, acts[0]), acts[1..], p, t)
  }

  lemma {:induction false} AfterOnce(x: World, acts: seq<Act>, p: Pid, t: Tag)
    requires CanAll(x, acts) && SubmittedOnce(x, acts, p, t) && Once(x, p, t)
    requires WorldGood(x)
    ensures Once(After(x, acts), p, t)
    decreases |acts|
  {
    hide WorldGood, Next, Can, Once, Tidy, SubmitsOnce;
    if acts != [] {
      TidyOf(x, p, t);
      NextOnce(x, acts[0], p, t);
      NextKeeps(x, acts[0]);
      AfterOnce(Next(x, acts[0]), acts[1..], p, t);
    }
  }

  /** Submitted once, whether before or after the connection is announced, a client hands
      its request to the pipe at most once; it has done so exactly once when the connection
      stands and the request can be serialized; and if the pipe took it, the receiver is
      called at most once in the whole run. */
  lemma RequestedOnce(services: set<ServiceId>, acts: seq<Act>, p: Pid, t: Tag)
    requires CanAll(InitialWorld(services), acts) && SubmittedOnce(InitialWorld(services), acts, p, t)
    requires (p, t) in After(InitialWorld(services), acts).calls
    ensures var x := After(InitialWorld(services), acts);
            && p in x.net.hosts && t in x.net.hosts[p].router.gateways
            && (var r, v, c := x.net.hosts[p].router, x.net.hosts[p].router.gateways[t], x.calls[(p, t)];
                && |v.sent| <= v.nextSequence <= 1
                && (c.submitted && RequestFits(c.request) && r.connected && t in r.table && t !in r.greeting ==>
                      v.nextSequence == 1)
                && (v.sent != [] ==> |c.results| <= 1))
  {
    hide WorldGood, Next, Can, SubmitsOnce, RequestFits;
    ExecGuarantees.RunGood(services, acts);
    InitialKeeps(services);
    AfterOnce(InitialWorld(services), acts, p, t);
  }

  /** A client submitted while the announcement has still to reach its gateway sends its
      request twice. */
  lemma SubmittedWhileAnnounced(x: World, p: Pid, t: Tag)
    requires (p, t) in x.calls && !x.calls[(p, t)].submitted && RequestFits(x.calls[(p, t)].request)
    requires Enabled(x.net, CGreet(p, t)) && t in x.net.hosts[p].router.greeting
    requires WorldGood(x)
    ensures Can(x, Act.Submit(p, t, SUCCESS))
    ensures var x1 := Next(x, Act.Submit(p, t, SUCCESS));
            && Can(x1, Act.Greet(p, t, SUCCESS))
            && (var x2 := Next(x1, Act.Greet(p, t, SUCCESS));
                && p in x2.net.hosts && t in x2.net.hosts[p].router.gateways
                && |x2.net.hosts[p].router.gateways[t].sent| == 2)
  {
    hide WorldGood, Next, Can, RequestFits, Told;
    TidyOf(x, p, t);
    UnsubmittedIsSilent(x, p, t);
    SubmitSends(x, p, t);
    GreetSends(Next(x, Act.Submit(p, t, SUCCESS)), p, t);
  }

  /** The gateway is connected, and its client is still to be told so; it has sent `n` requests. */
  predicate Told(x: World, p: Pid, t: Tag, n: nat) {
    && (p, t) in x.calls && RequestFits(x.calls[(p, t)].request)
    && p in x.net.hosts && x.net.hosts[p].router.Usable(t)
    && (var r := x.net.hosts[p].router;
        r.connected && t in r.table && t in r.greeting && |r.gateways[t].sent| == n)
  }

  lemma SubmitSends(x: World, p: Pid, t: Tag)
    requires (p, t) in x.calls && RequestFits(x.calls[(p, t)].request) && Tidy(x, p, t)
    requires t in x.net.hosts[p].router.greeting && x.net.hosts[p].router.gateways[t].sent == []
    ensures Can(x, Act.Submit(p, t, SUCCESS))
    ensures var x1 := Next(x, Act.Submit(p, t, SUCCESS));
            Told(x1, p, t, 1) && x1.calls[(p, t)].submitted
  {
    hide PutRequest, RequestFits;
  }

  lemma GreetSends(x: World, p: Pid, t: Tag)
    requires Told(x, p, t, 1) && x.calls[(p, t)].submitted
    ensures Can(x, Act.Greet(p, t, SUCCESS))
    ensures var x' := Next(x, Act.Greet(p, t, SUCCESS));
            && p in x'.net.hosts && t in x'.net.hosts[p].router.gateways
            && |x'.net.hosts[p].router.gateways[t].sent| == 2
  {
    hide PutRequest, RequestFits;
  }

  predicate Submits(a: Act, p: Pid, t: Tag) {
    a.Submit? && a.p == p && a.t == t
  }

  /** After this submission, and the actions `more` that hold no other, the pipe has taken
      two requests from the client. */
  predicate SendsTwice(x: World, p: Pid, t: Tag, pipeError: int, more: seq<Act>) {
    && Can(x, Act.Submit(p, t, pipeError)) && CanAll(Next(x, Act.Submit(p, t, pipeError)), more)
    && (forall k :: 0 <= k < |more| ==> !Submits(more[k], p, t))
    && (var y := After(Next(x, Act.Submit(p, t, pipeError)), more);
        && p in y.net.hosts && t in y.net.hosts[p].router.gateways && |y.net.hosts[p].router.gateways[t].sent| >= 2)
  }

  lemma {:induction false} NoOtherSubmit(x: World, acts: seq<Act>, p: Pid, t: Tag)
    requires CanAll(x, acts) && forall k :: 0 <= k < |acts| ==> !Submits(acts[k], p, t)
    ensures SubmittedOnce(x, acts, p, t)
    decreases |acts|
  {
    hide Next, Can;
    if acts != [] {
      assert !Submits(acts[0], p, t);
      NoOtherSubmit(Next(x, acts[0]), acts[1..], p, t);
    }
  }

  lemma UnsubmittedIsOnce(x: World, p: Pid, t: Tag)
    requires WorldGood(x) && (p, t) in x.calls && !x.calls[(p, t)].submitted
    ensures Once(x, p, t)
  {
    hide WorldGood, RequestFits;
    UnsubmittedIsSilent(x, p, t);
  }

  lemma SendsOnceOnly(x: World, p: Pid, t: Tag, pipeError: int, more: seq<Act>)
    requires (p, t) in x.calls && !x.calls[(p, t)].submitted && p in x.net.hosts
    requires !(t in x.net.hosts[p].router.greeting && RequestFits(x.calls[(p, t)].request))
    requires Can(x, Act.Submit(p, t, pipeError)) && CanAll(Next(x, Act.Submit(p, t, pipeError)), more)
    requires forall k :: 0 <= k < |more| ==> !Submits(more[k], p, t)
    requires WorldGood(x)
    ensures !SendsTwice(x, p, t, pipeError, more)
  {
    hide WorldGood, Next, Can, RequestFits, Tidy, CanAll, After;
    var a := Act.Submit(p, t, pipeError);
    TidyOf(x, p, t);
    UnsubmittedIsOnce(x, p, t);
    NextOnce(x, a, p, t);
    NextKeeps(x, a);
    NoOtherSubmit(Next(x, a), more, p, t);
    AfterOnce(Next(x, a), more, p, t);
    CallStays(x, a, p, t);
    CallStaysAfter(Next(x, a), more, p, t);
  }

  /** In every reachable state: the first submission of a client can be followed, without
      another, by a second request that the pipe takes if and only if the announcement of the
      connection has still to reach the client and its request can be serialized. */
  lemma SecondRequestIff(services: set<ServiceId>, acts: seq<Act>, p: Pid, t: Tag)
    requires CanAll(InitialWorld(services), acts)
    requires var x := After(InitialWorld(services), acts);
             (p, t) in x.calls && !x.calls[(p, t)].submitted
    ensures var x := After(InitialWorld(services), acts);
            && p in x.net.hosts
            && ((exists pipeError, more :: SendsTwice(x, p, t, pipeError, more)) <==>
                t in x.net.hosts[p].router.greeting && RequestFits(x.calls[(p, t)].request))
  {
    hide WorldGood, Next, Can, RequestFits, CanAll, After, SendsTwice;
    var x := After(InitialWorld(services), acts);
    ExecGuarantees.RunGood(services, acts);
    TidyOf(x, p, t);
    if t in x.net.hosts[p].router.greeting && RequestFits(x.calls[(p, t)].request) {
      SubmittedWhileAnnounced(x, p, t);
      GreetIsTheSecond(x, p, t);
    } else {
      forall pipeError, more ensures !SendsTwice(x, p, t, pipeError, more) {
        NeverTwice(x, p, t, pipeError, more);
      }
    }
  }

  lemma NeverTwice(x: World, p: Pid, t: Tag, pipeError: int, more: seq<Act>)
    requires (p, t) in x.calls && !x.calls[(p, t)].submitted && p in x.net.hosts
    requires !(t in x.net.hosts[p].router.greeting && RequestFits(x.calls[(p, t)].request))
    requires WorldGood(x)
    ensures !SendsTwice(x, p, t, pipeError, more)
  {
    hide WorldGood, Next, Can, RequestFits, CanAll, After;
    if SendsTwice(x, p, t, pipeError, more) { SendsOnceOnly(x, p, t, pipeError, more); }
  }

  /** A client is never forgotten. */
  lemma CallStays(x: World, a: Act, p: Pid, t: Tag)
    requires Can(x, a) && (p, t) in x.calls
    ensures (p, t) in Next(x, a).calls
  {
    hide Step, Do, Enabled, OnSent, OnInput, OnCompleted, CallHears, ServeOne, BereaveOne, ResolveOne;
    if a.Serve? || a.Bereave? || a.Resolve? {
      DaemonActsHosts(x, a);
    }
  }

  lemma {:induction false} CallStaysAfter(x: World, acts: seq<Act>, p: Pid, t: Tag)
    requires CanAll(x, acts) && (p, t) in x.calls
    ensures (p, t) in After(x, acts).calls
    decreases |acts|
  {
    hide Next, Can;
    if acts != [] {
      CallStays(x, acts[0], p, t);
      CallStaysAfter(Next(x, acts[0]), acts[1..], p, t);
    }
  }

  lemma GreetIsTheSecond(x: World, p: Pid, t: Tag)
    requires Can(x, Act.Submit(p, t, SUCCESS))
    requires var x1 := Next(x, Act.Submit(p, t, SUCCESS));
             && Can(x1, Act.Greet(p, t, SUCCESS))
             && (var x2 := Next(x1, Act.Greet(p, t, SUCCESS));
                 && p in x2.net.hosts && t in x2.net.hosts[p].router.gateways
                 && |x2.net.hosts[p].router.gateways[t].sent| == 2)
    ensures SendsTwice(x, p, t, SUCCESS, [Act.Greet(p, t, SUCCESS)])
  {
    hide Next, Can;
    var greet := [Act.Greet(p, t, SUCCESS)];
    var x1 := Next(x, Act.Submit(p, t, SUCCESS));
    var x2 := Next(x1, greet[0]);
    assert greet[1..] == [];
    assert CanAll(x2, []) && After(x2, []) == x2;
    assert CanAll(x1, greet) && After(x1, greet) == x2;
  }

  lemma UnsubmittedIsSilent(x: World, p: Pid, t: Tag)
    requires WorldGood(x) && (p, t) in x.calls && !x.calls[(p, t)].submitted
    ensures p in x.net.hosts && t in x.net.hosts[p].router.gateways
    ensures x.net.hosts[p].router.gateways[t].sent == [] && x.net.hosts[p].router.gateways[t].nextSequence == 0
    ensures x.calls[(p, t)].results == []
  {
    hide Inv, Good, WorldGood, ChanOf, FsmGood, ProcessGood, LineGood;
    TidyOf(x, p, t);
    BooksOf(x);
    LineAt(x, p, t);
    LineParts(x, p, t);
    SilentLine(LineOf(x, p, t));
    ViewOf(x.net, p, t);
  }

  lemma SilentLine(z: Line)
    requires LineGood(z) && z.call.Some? && !z.call.value.submitted
    ensures z.k.near.view.sent == [] && z.k.near.view.nextSequence == 0 && z.call.value.results == []
  {
    hide FsmGood, DownGood, NearGood, FarGood;
  }

  lemma ViewOf(s: Sys, p: Pid, t: Tag)
    requires Readable(s, p) && t in s.hosts[p].router.gateways
    ensures ChanOf(s, p, t).near.view == s.hosts[p].router.gateways[t]
  {
  }
}
