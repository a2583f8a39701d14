/** What clients do is what their gateways are told: in every action, of whomever, a client
    changes by the one event its gateway was given, and not at all without one. */
module ExecReactions {
  import opened IpcTypes
  import opened Network
  import opened ExecCodec
  import opened ExecSpec
  import opened ExecWorld
  import opened ExecWorldProofs
  import opened ExecSubmitOnce
  import C = ClientRouterSpec

  function EventsAt(x: World, p: Pid, t: Tag): seq<Event> {
    if p in x.net.hosts && t in x.net.hosts[p].router.gateways then x.net.hosts[p].router.gateways[t].events else []
  }

  /** What a client that was submitted does on an event of its gateway; `sendError` is what
      sending its request gives. The first response of a node stays. */
  function Reaction(c: Call, e: Event, sendError: int): Call {
    match e
    case Connected =>
      if sendError == SUCCESS then c else c.(results := c.results + [Failure(sendError)])
    case Message(_, payload) =>
      (match GetResponse(payload)
       case None => c
       case Some(r) => if r.0 in c.responses then c else c.(responses := c.responses[r.0 := r.1]))
    case Completed(error) =>
      c.(results := c.results + [if error == SUCCESS then Success(c.responses) else Failure(error)])
  }

  /** What sending its request now would give the client. */
  function SendAnswer(x: World, p: Pid, t: Tag, pipeError: int): int
    requires (p, t) in x.calls && p in x.net.hosts
  {
    if !RequestFits(x.calls[(p, t)].request) then INVALID
    else C.SendError(x.net.hosts[p].router, t, pipeError)
  }

  function PipeErrorOf(a: Act): int {
    match a
    case Submit(_, _, e) => e
    case Greet(_, _, e) => e
    case _ => SUCCESS
  }

  /** The client is submitted, or told that its channel is connected. */
  predicate Sends(a: Act, p: Pid, t: Tag) {
    (a.Submit? || a.Greet?) && a.p == p && a.t == t
  }

  ghost predicate Reacts(x: World, a: Act, x': World, p: Pid, t: Tag)
    requires (p, t) in x.calls && p in x.net.hosts
  {
    && (p, t) in x'.calls
    && (var c, c' := x.calls[(p, t)].(submitted := x.calls[(p, t)].submitted || Submits(a, p, t)), x'.calls[(p, t)];
        var before, after := EventsAt(x, p, t), EventsAt(x', p, t);
        || (after == before && c' == c)
        || (|after| == |before| + 1 && before <= after && (after[|before|].Connected? ==> Sends(a, p, t)) &&
            c' == if c.submitted then Reaction(c, after[|before|], SendAnswer(x, p, t, PipeErrorOf(a))) else c))
  }

  lemma SameReacts(x: World, a: Act, x': World, p: Pid, t: Tag)
    requires (p, t) in x.calls && p in x.net.hosts && t in x.net.hosts[p].router.gateways
    requires SameClient(x, x', p, t) && !Submits(a, p, t)
    ensures Reacts(x, a, x', p, t)
  {
  }

  lemma SendReacts(x: World, x1: World, p: Pid, t: Tag, pipeError: int)
    requires (p, t) in x.calls && p in x.net.hosts && x.net.hosts[p].router.Usable(t)
    requires (p, t) in x1.calls && x1.calls[(p, t)] == x.calls[(p, t)].(submitted := true)
    requires p in x1.net.hosts && x1.net.hosts[p].router.Usable(t)
    requires var r, r1 := x.net.hosts[p].router, x1.net.hosts[p].router;
             r1.connected == r.connected && (t in r1.table <==> t in r.table)
    ensures var x' := SendRequest(x1, p, t, pipeError);
            && (p, t) in x'.calls && EventsAt(x', p, t) == EventsAt(x1, p, t)
            && x'.calls[(p, t)] == Reaction(x1.calls[(p, t)], Connected, SendAnswer(x, p, t, pipeError))
  {
    hide RequestFits, PutRequest;
  }

  lemma SubmitReacts(x: World, p: Pid, t: Tag, e: int)
    requires Can(x, Act.Submit(p, t, e)) && p in x.net.hosts
    ensures Reacts(x, Act.Submit(p, t, e), SubmitCall(x, p, t, e), p, t)
  {
    hide SendRequest, RequestFits, Reaction, SendAnswer;
    var x1 := x.(calls := x.calls[(p, t) := x.calls[(p, t)].(submitted := true)], net := Step(x.net, CSubscribe(p, t)));
    if C.SubscribeNotifies(x.net.hosts[p].router, t) { SendReacts(x, x1, p, t, e); }
  }

  lemma GreetReacts(x: World, p: Pid, t: Tag, e: int)
    requires (p, t) in x.calls && Enabled(x.net, CGreet(p, t)) && Tidy(x, p, t)
    ensures Reacts(x, Act.Greet(p, t, e), GreetOne(x, p, t, e), p, t)
  {
    hide SendRequest, RequestFits, Reaction, SendAnswer;
    if x.Submitted(p, t) { SendReacts(x, x.(net := Step(x.net, CGreet(p, t))), p, t, e); }
  }

  lemma MournReacts(x: World, p: Pid, t: Tag)
    requires (p, t) in x.calls && Enabled(x.net, CMourn(p, t))
    ensures Reacts(x, Act.Mourn(p, t), MournOne(x, p, t), p, t)
  {
    hide SendAnswer;
  }

  lemma DropReacts(x: World, p: Pid, t: Tag, e: int)
    requires (p, t) in x.calls && Enabled(x.net, CDispose(p, t, e))
    ensures Reacts(x, Act.Drop(p, t, e), x.(net := Step(x.net, CDispose(p, t, e))), p, t)
  {
  }

  /** What a frame tells gateway `t`, and what its client makes of it. */
  lemma RouterTells(r: C.ClientState, f: Frame, t: Tag)
    requires t in r.gateways
    ensures t in C.Receive(r, f).gateways
    ensures C.Receive(r, f).gateways[t].events ==
            r.gateways[t].events +
            if !(f.For(t) && t in r.table && r.gateways[t].alive) then []
            else if f.ChannelMsg? then [Message(f.sequence, f.payload)]
            else [IpcTypes.Completed(f.error)]
    ensures C.PipeDisconnected(r).gateways == r.gateways
  {
  }

  /** What a read leaves: the other processes as they were, and of this one the gateways that
      the frame leaves, whether or not the connection survives. */
  lemma ReadLeavesNet(s: Sys, q: Pid, c: ClientId, h: int)
    requires Enabled(s, CReceive(q, c, h))
    ensures var f, s' := s.server.Outbox(c)[s.hosts[q].taken], Step(s, CReceive(q, c, h));
            && q in s'.hosts && s'.hosts[q].router.gateways == C.Receive(s.hosts[q].router, f).gateways
            && forall p :: p in s.hosts && p != q ==> p in s'.hosts && s'.hosts[p] == s.hosts[p]
  {
    hide C.Receive, C.ReceiveError, C.PipeDisconnected;
    RouterTellsNone(C.Receive(s.hosts[q].router, s.server.Outbox(c)[s.hosts[q].taken]));
  }

  lemma ReadLeaves(x: World, q: Pid, c: ClientId, h: int)
    requires Enabled(x.net, CReceive(q, c, h))
    ensures var f := x.net.server.Outbox(c)[x.net.hosts[q].taken];
            var x' := ReadOne(x, q, c, h);
            && x'.calls == Heard(x, q, f).calls
            && q in x'.net.hosts && x'.net.hosts[q].router.gateways == C.Receive(x.net.hosts[q].router, f).gateways
            && forall p :: p in x.net.hosts && p != q ==> p in x'.net.hosts && x'.net.hosts[p] == x.net.hosts[p]
  {
    hide Step, C.Receive, CallHears, OnInput, OnCompleted, CallError;
    ReadLeavesNet(x.net, q, c, CallError(x, q, x.net.server.Outbox(c)[x.net.hosts[q].taken], h));
  }

  lemma RouterTellsNone(r: C.ClientState)
    ensures C.PipeDisconnected(r).gateways == r.gateways
  {
  }

  lemma ReadReacts(x: World, q: Pid, c: ClientId, h: int, p: Pid, t: Tag)
    requires Can(x, Act.Read(q, c, h)) && (p, t) in x.calls && Tidy(x, p, t)
    ensures Reacts(x, Act.Read(q, c, h), ReadOne(x, q, c, h), p, t)
  {
    hide C.Receive, ReadOne, SendAnswer, GetResponse;
    ReadLeaves(x, q, c, h);
    var f := x.net.server.Outbox(c)[x.net.hosts[q].taken];
    if q == p { RouterTells(x.net.hosts[p].router, f, t); }
  }

  lemma OtherReacts(x: World, l: Label, p: Pid, t: Tag)
    requires Can(x, Act.Other(l)) && (p, t) in x.calls && Tidy(x, p, t)
    ensures Reacts(x, Act.Other(l), x.(net := Step(x.net, l)), p, t)
  {
    if l.CPipeDown? && l.p == p {
      RouterTells(x.net.hosts[p].router, Empty, t);
    } else {
      hide Step;
      NotActed(x, l, p, t);
      LabelElsewhere(x, l, p, t);
      SameReacts(x, Act.Other(l), x.(net := Step(x.net, l)), p, t);
    }
  }

  lemma NotActed(x: World, l: Label, p: Pid, t: Tag)
    requires Can(x, Act.Other(l)) && (p, t) in x.calls && Tidy(x, p, t)
    ensures !ActsOn(x, Act.Other(l), p, t)
  {
  }

  /** In every state a run reaches and for every action: the client of a channel, which was
      submitted before or is now, reacts to what its gateway is told, once, and to nothing
      else. */
  lemma ClientReacts(x: World, a: Act, p: Pid, t: Tag)
    requires Can(x, a) && (p, t) in x.calls && WorldGood(x)
    ensures p in x.net.hosts && Reacts(x, a, Next(x, a), p, t)
  {
    hide WorldGood, Tidy, SubmitCall, GreetOne, ReadOne, MournOne, ServeOne, BereaveOne, ResolveOne, Step, Reacts;
    TidyOf(x, p, t);
    MadeGateway(x, p, t);
    if a.Serve? || a.Bereave? || a.Resolve? {
      DaemonActsHosts(x, a);
      SdkSameClient(x, Next(x, a), p, t);
      SameReacts(x, a, Next(x, a), p, t);
    } else if a.Read? {
      ReadReacts(x, a.p, a.c, a.handlerError, p, t);
    } else if a.Other? {
      OtherReacts(x, a.l, p, t);
    } else if !ActsOn(x, a, p, t) {
      ActElsewhere(x, a, p, t);
      SameReacts(x, a, Next(x, a), p, t);
    } else if a.Submit? {
      SubmitReacts(x, p, t, a.pipeError);
    } else if a.Greet? {
      GreetReacts(x, p, t, a.pipeError);
    } else if a.Drop? {
      DropReacts(x, p, t, a.pipeError);
    } else {
      NotNew(x, a, p, t);
      MournReacts(x, p, t);
    }
  }

  lemma MadeGateway(x: World, p: Pid, t: Tag)
    requires (p, t) in x.calls && Tidy(x, p, t)
    ensures p in x.net.hosts && t in x.net.hosts[p].router.gateways && t < x.net.hosts[p].router.nextTag
  {
  }

  lemma NotNew(x: World, a: Act, p: Pid, t: Tag)
    requires Can(x, a) && ActsOn(x, a, p, t) && p in x.net.hosts && t < x.net.hosts[p].router.nextTag
    ensures !a.NewCall?
  {
  }
}
