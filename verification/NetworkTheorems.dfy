/** What holds in every state that any run of the processes and the daemon can reach. */
module NetworkTheorems {
  import opened IpcTypes
  import opened Channel
  import opened Network
  import opened Projection
  import ClientSteps
  import ServerSteps
  import C = ClientRouterSpec
  import S = ServerRouterSpec

  lemma InitialGood(services: set<ServiceId>)
    ensures Inv(Initial(services))
  {
  }

  lemma ClientReceiveKeeps(s: Sys, p: Pid, c: ClientId, handlerError: int)
    requires Inv(s) && Enabled(s, CReceive(p, c, handlerError))
    ensures Inv(Step(s, CReceive(p, c, handlerError)))
  {
    hide Inv, AllChange;
    ClientSteps.TakesKeeps(s, p, c);
    var h := s.hosts[p];
    if C.ReceiveError(h.router, s.server.Outbox(c)[h.taken], handlerError) != SUCCESS {
      ClientSteps.LoseServerKeeps(HostTakes(s, p, c), p);
    }
  }

  lemma ServerReceiveKeeps(s: Sys, c: ClientId, handlerError: int, pipeError: int)
    requires Inv(s) && Enabled(s, SReceive(c, handlerError, pipeError))
    ensures Inv(Step(s, SReceive(c, handlerError, pipeError)))
  {
    hide Inv, AllChange;
    ServerSteps.TakesKeeps(s, c, pipeError);
    if S.ReceiveError(s.server, c, s.Next(c), handlerError, pipeError) != SUCCESS {
      ServerSteps.LoseClientKeeps(ServerTakes(s, c, pipeError), c);
    }
  }

  lemma StepKeeps(s: Sys, l: Label)
    requires Inv(s) && Enabled(s, l)
    ensures Inv(Step(s, l))
  {
    hide Inv, OneChanges, AllChange, Step;
    match l
    case Launch(p) => ClientSteps.LaunchKeeps(s, p);
    case CMake(p) => ClientSteps.MakeKeeps(s, p);
    case CSend(p, t, service, payload, e) => ClientSteps.SendKeeps(s, p, t, service, payload, e);
    case CComplete(p, t, e) => ClientSteps.CompleteKeeps(s, p, t, e);
    case CSubscribe(p, t) => ClientSteps.SubscribeKeeps(s, p, t);
    case CDispose(p, t, e) => ClientSteps.DisposeKeeps(s, p, t, e);
    case CPipeUp(p, e) => ClientSteps.PipeUpKeeps(s, p, e);
    case CReceive(p, c, e) => ClientReceiveKeeps(s, p, c, e);
    case CGreet(p, t) => ClientSteps.GreetKeeps(s, p, t);
    case CPipeDown(p) => PipeDownKeeps(s, p);
    case CMourn(p, t) => ClientSteps.MournKeeps(s, p, t);
    case Accept(p) => ServerSteps.AcceptKeeps(s, p);
    case SReceive(c, h, e) => ServerReceiveKeeps(s, c, h, e);
    case SSend(g, service, payload, e) => ServerSteps.SendKeeps(s, g, service, payload, e);
    case SComplete(g, e) => ServerSteps.CompleteKeeps(s, g, e);
    case SSubscribe(g) => ServerSteps.SubscribeKeeps(s, g);
    case SDispose(g, e) => ServerSteps.DisposeKeeps(s, g, e);
    case SPipeDown(c) => DropKeeps(s, c);
    case SMourn(g) => FarMournKeeps(s, g);
  }

  lemma PipeDownKeeps(s: Sys, p: Pid)
    requires Inv(s) && Enabled(s, CPipeDown(p))
    ensures Inv(Step(s, CPipeDown(p)))
  {
    hide Inv, AllChange;
    ClientSteps.LoseServerKeeps(s, p);
  }

  lemma DropKeeps(s: Sys, c: ClientId)
    requires Inv(s) && Enabled(s, SPipeDown(c))
    ensures Inv(Step(s, SPipeDown(c)))
  {
    hide ProcessGood;
    ServerSteps.LoseClientKeeps(s, c);
  }

  lemma FarMournKeeps(s: Sys, g: S.Ref)
    requires Inv(s) && Enabled(s, SMourn(g))
    ensures Inv(Step(s, SMourn(g)))
  {
    hide ProcessGood;
    ServerSteps.MournKeeps(s, g);
  }

  /** The invariant holds after every run. */
  lemma {:induction false} RunKeeps(s: Sys, labels: seq<Label>)
    requires Inv(s) && Allowed(s, labels)
    ensures Inv(Run(s, labels))
    decreases |labels|
  {
    hide Inv, Step, Enabled;
    if labels != [] {
      StepKeeps(s, labels[0]);
      RunKeeps(Step(s, labels[0]), labels[1..]);
    }
  }

  /** `s` is the state after some run of a daemon that offers `services`. */
  ghost predicate Reachable(services: set<ServiceId>, s: Sys) {
    exists labels: seq<Label> :: Allowed(Initial(services), labels) && s == Run(Initial(services), labels)
  }

  lemma ReachableGood(services: set<ServiceId>, s: Sys)
    requires Reachable(services, s)
    ensures Inv(s)
  {
    hide Inv;
    var labels: seq<Label> :| Allowed(Initial(services), labels) && s == Run(Initial(services), labels);
    InitialGood(services);
    RunKeeps(Initial(services), labels);
  }

  lemma GoodChannel(services: set<ServiceId>, s: Sys, p: Pid, t: Tag)
    requires Reachable(services, s) && p in s.hosts
    ensures Readable(s, p) && Good(ChanOf(s, p, t)) && ProcessGood(s, p) && IdsFit(s)
  {
    hide Good, Reachable;
    ReachableGood(services, s);
    assert ProcessGood(s, p);
  }
}
