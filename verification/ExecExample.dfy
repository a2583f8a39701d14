/** One complete run: a process connects, asks for node 5 twice, and is told what it said.
    It shows that the guarantees of the service are about runs that do happen. */
module ExecExample {
  import opened IpcTypes
  import opened Network
  import opened ExecCodec
  import opened ExecSpec
  import opened ExecWorld
  import ExecWorldProofs
  import opened Bytes
  import C = ClientRouterSpec
  import S = ServerRouterSpec
  import ExecGuarantees
  import ExecSubmitOnce

  const REQUEST: Request := Request(1000, [5, 5], 65535, [])
  const RESPONSE: Response := Response(0, [7])
  const AT: S.Endpoint := S.Endpoint(0, 1)
  const G: S.Ref := S.Ref(AT, 0)

  function Asked(): Frame {
    ChannelMsg(0, 0, SERVICE, Question())
  }

  function Question(): Payload {
    Fits();
    PutRequest(REQUEST)
  }

  function Answer(): Payload {
    Fits();
    PutResponse(5, RESPONSE)
  }

  lemma Fits()
    ensures RequestFits(REQUEST) && ResponseFits(5, RESPONSE)
  {
    Pow256Values();
  }

  lemma Decodes()
    ensures GetRequest(Question()) == Some(REQUEST) && GetResponse(Answer()) == Some((5, RESPONSE))
  {
    Fits();
    RequestRoundTrip(REQUEST);
    ResponseRoundTrip(5, RESPONSE);
  }

  // ---- The process and the daemon's router along the way.

  function Client(connected: bool, made: bool, listed: bool, view: View, outbox: seq<Frame>): C.ClientState {
    C.ClientState(if made then 1 else 0, connected, if listed then {0} else {}, if made then map[0 := view] else map[],
                  {}, {}, outbox)
  }

  function Router(
    rows: map<ClientId, map<Tag, nat>>, objects: map<S.Endpoint, seq<View>>, outbox: map<ClientId, seq<Frame>>):
    S.ServerState
  {
    S.ServerState({SERVICE}, rows, objects, {}, outbox)
  }

  function Net(host: Host, router: S.ServerState, accepted: bool, taken: map<ClientId, nat>): Sys {
    Sys(map[0 := host], router, if accepted then 1 else 0, if accepted then map[1 := 0] else map[],
        if accepted then map[0 := 1] else map[], if accepted then {1} else {}, taken)
  }

  function NearView(sequence: nat, events: seq<Event>, sent: seq<Item>): View {
    View(None, true, sequence, 0, events, sent)
  }

  function FarView(alive: bool, sequence: nat, sent: seq<Item>): View {
    View(Some(Opening(SERVICE, Question())), alive, sequence, 0, [Connected], sent)
  }

  const BLANK: S.ServerState := Router(map[], map[], map[])
  const GREETED: S.ServerState := Router(map[1 := map[]], map[], map[1 := [HELLO]])

  function Sent(): View {
    NearView(1, [Connected], [Item(0, Question())])
  }

  function Out(): seq<Frame> {
    [HELLO, Asked()]
  }

  function Opened(): S.ServerState {
    Router(map[1 := map[0 := 0]], map[AT := [FarView(true, 0, [])]], map[1 := [HELLO]])
  }

  function AllSent(): S.ServerState {
    Router(map[1 := map[]], map[AT := [FarView(false, 1, [Item(0, Answer())])]],
           map[1 := [HELLO, ChannelMsg(0, 0, SERVICE, Answer()), ChannelEnd(0, SUCCESS)]])
  }

  function Quiet(net: Sys): World {
    World(net, map[], map[], {}, map[], map[], 0)
  }

  function Calling(net: Sys, call: Call): World {
    Quiet(net).(calls := map[(0, 0) := call])
  }

  function Pending(): Fsm {
    Fsm(REQUEST, {5}, map[], [], {}, None)
  }

  function Done(): Fsm {
    Fsm(REQUEST, {}, map[5 := Answered(RESPONSE)], [(5, RESPONSE)], {}, Some(SUCCESS))
  }

  function Serving(net: Sys, call: Call, fsm: Fsm): World {
    var live := if fsm.completion.None? then {0} else {};
    World(net, map[(0, 0) := call], map[0 := fsm], live, map[0 := G], map[G := 0], 1)
  }

  const W0: World := InitialWorld({SERVICE})
  const W1: World := Quiet(Net(Host(C.INITIAL, Connecting, 0), BLANK, false, map[]))
  const W2: World := Quiet(Net(Host(Client(false, false, false, Sent(), [HELLO]), Open, 0), BLANK, false, map[]))
  const W3: World := Quiet(Net(Host(Client(false, false, false, Sent(), [HELLO]), Open, 0), BLANK, true, map[]))
  const W4: World := Quiet(Net(Host(Client(false, false, false, Sent(), [HELLO]), Open, 0), GREETED, true, map[1 := 1]))
  const W5: World := Quiet(Net(Host(Client(true, false, false, Sent(), [HELLO]), Open, 1), GREETED, true, map[1 := 1]))
  const W6: World := Calling(Net(Host(Client(true, true, true, FreshView(None), [HELLO]), Open, 1),
                                 GREETED, true, map[1 := 1]),
                             ExecSpec.NewCall(REQUEST))
  const W7: World := Calling(Net(Host(Client(true, true, true, Sent(), Out()), Open, 1), GREETED, true, map[1 := 1]),
                             Call(REQUEST, true, map[], []))
  const W8: World := Serving(Net(Host(Client(true, true, true, Sent(), Out()), Open, 1), Opened(), true, map[1 := 2]),
                             Call(REQUEST, true, map[], []), Pending())
  const W9: World := Serving(Net(Host(Client(true, true, true, Sent(), Out()), Open, 1), AllSent(), true, map[1 := 2]),
                             Call(REQUEST, true, map[], []), Done())
  const W10: World := Serving(Net(Host(Client(true, true, true,
                                   Sent().Notified(Message(0, Answer())), Out()), Open, 2),
                                  AllSent(), true, map[1 := 2]),
                              Call(REQUEST, true, map[5 := RESPONSE], []), Done())
  const W11: World := Serving(Net(Host(Client(true, true, false,
                                   Sent().Notified(Message(0, Answer())).Notified(IpcTypes.Completed(SUCCESS)),
                                   Out()), Open, 3),
                                  AllSent(), true, map[1 := 2]),
                              Call(REQUEST, true, map[5 := RESPONSE], [Success(map[5 := RESPONSE])]), Done())

  /** Two worlds are the same if their parts are. */
  lemma SameWorld(x: World, y: World)
    requires x.net.hosts.Keys == y.net.hosts.Keys == {0} && x.net.hosts[0] == y.net.hosts[0]
    requires x.net.server == y.net.server && x.net.counter == y.net.counter && x.net.sockets == y.net.sockets
    requires x.net.ids == y.net.ids && x.net.contexts == y.net.contexts && x.net.taken == y.net.taken
    requires x.calls == y.calls && x.fsms == y.fsms && x.live == y.live && x.channels == y.channels
    requires x.handlers == y.handlers && x.nextFsm == y.nextFsm
    ensures x == y
  {
    assert x.net.hosts == y.net.hosts;
  }

  lemma Step0()
    ensures Can(W0, Act.Other(Launch(0))) && Next(W0, Act.Other(Launch(0))) == W1
  {
  }

  lemma Step1()
    ensures Can(W1, Act.Other(CPipeUp(0, 0))) && Next(W1, Act.Other(CPipeUp(0, 0))) == W2
  {
    SameWorld(Next(W1, Act.Other(CPipeUp(0, 0))), W2);
  }

  lemma Step2()
    ensures Can(W2, Act.Other(Accept(0))) && Next(W2, Act.Other(Accept(0))) == W3
  {
  }

  lemma Step3()
    ensures Can(W3, Act.Serve(1, 0, 0, AllMade, 0)) && Next(W3, Act.Serve(1, 0, 0, AllMade, 0)) == W4
  {
    hide Question;
    assert S.Receive(BLANK, 1, HELLO, 0) == GREETED by {
      assert BLANK.Outbox(1) + [HELLO] == [HELLO];
    }
    SameWorld(Next(W3, Act.Serve(1, 0, 0, AllMade, 0)), W4);
  }

  lemma Step4()
    ensures Can(W4, Act.Read(0, 1, 0)) && Next(W4, Act.Read(0, 1, 0)) == W5
  {
    hide Question;
    var r := W4.net.hosts[0].router;
    assert C.Receive(r, HELLO).greeting == {};
    assert C.Receive(r, HELLO) == W5.net.hosts[0].router;
    SameWorld(Next(W4, Act.Read(0, 1, 0)), W5);
  }

  lemma Step5()
    ensures Can(W5, Act.NewCall(0, REQUEST)) && Next(W5, Act.NewCall(0, REQUEST)) == W6
  {
    hide Question;
    assert C.MakeGateway(W5.net.hosts[0].router) == W6.net.hosts[0].router;
    SameWorld(Next(W5, Act.NewCall(0, REQUEST)), W6);
  }

  /** The client's router once it has announced the connection to its gateway. */
  function Told(): C.ClientState {
    Client(true, true, true, NearView(0, [Connected], []), [HELLO])
  }

  lemma IsTold()
    ensures C.Subscribe(W6.net.hosts[0].router, 0) == Told()
  {
    hide Question;
    var r := W6.net.hosts[0].router;
    assert FreshView(None).Notified(Connected) == NearView(0, [Connected], []);
    assert C.Subscribe(r, 0).gateways == Told().gateways;
  }

  lemma Asks()
    ensures C.Send(Told(), 0, SERVICE, Question(), 0) == W7.net.hosts[0].router
  {
    hide Question;
    assert NearView(0, [Connected], []).AfterSend(Question(), 0) == Sent();
    assert C.Send(Told(), 0, SERVICE, Question(), 0).gateways == W7.net.hosts[0].router.gateways;
  }

  lemma Step6()
    ensures Can(W6, Act.Submit(0, 0, 0)) && Next(W6, Act.Submit(0, 0, 0)) == W7
  {
    Fits();
    IsTold();
    Asks();
    hide PutRequest, RequestFits, C.Subscribe, C.Send;
    SameWorld(Next(W6, Act.Submit(0, 0, 0)), W7);
  }

  lemma Step7()
    ensures Can(W7, Act.Serve(1, 0, 0, AllMade, 0)) && Next(W7, Act.Serve(1, 0, 0, AllMade, 0)) == W8
  {
    Decodes();
    hide GetRequest, Question, RequestFits, Can, Next, S.Receive, S.Subscribe;
    var read := Router(map[1 := map[0 := 0]], map[AT := [FreshView(Some(Opening(SERVICE, Question())))]],
      map[1 := [HELLO]]);
    OpensRead(read);
    SubscribesRead(read);
    assert NodesOf(REQUEST) == {5};
    CanServe();
    Opens(W7, REQUEST, read, Opened());
    SameWorld(Next(W7, Act.Serve(1, 0, 0, AllMade, 0)), W8);
  }

  lemma CanServe()
    ensures Can(W7, Act.Serve(1, 0, 0, AllMade, 0))
    ensures W7.net.Next(1) == Asked() && S.Opens(W7.net.server, 1, Asked())
  {
    hide Question;
  }

  lemma OpensRead(read: S.ServerState)
    requires read == Router(map[1 := map[0 := 0]], map[AT := [FreshView(Some(Opening(SERVICE, Question())))]],
                            map[1 := [HELLO]])
    ensures S.Receive(GREETED, 1, Asked(), 0) == read
  {
    hide Question;
    var created := FreshView(Some(Opening(SERVICE, Question())));
    assert GREETED.Objects(AT) + [created] == [created];
    var r := S.Receive(GREETED, 1, Asked(), 0);
    assert r.objects == read.objects;
    assert S.Named(GREETED.tables[1], 0, 0) == map[0 := 0];
    assert r.tables == read.tables;
  }

  lemma SubscribesRead(read: S.ServerState)
    requires read == Router(map[1 := map[0 := 0]], map[AT := [FreshView(Some(Opening(SERVICE, Question())))]],
                            map[1 := [HELLO]])
    ensures S.Subscribe(read, G) == Opened()
  {
    hide Question;
    var v := FreshView(Some(Opening(SERVICE, Question())));
    assert v.Notified(Connected) == FarView(true, 0, []);
    assert [v][0 := v.Notified(Connected)] == [FarView(true, 0, [])];
    assert S.Subscribe(read, G).objects == Opened().objects;
  }

  /** Reading a request that opens the first channel of client 1. */
  lemma Opens(x: World, q: Request, read: S.ServerState, told: S.ServerState)
    requires Can(x, Act.Serve(1, 0, 0, AllMade, 0))
    requires var f := x.net.Next(1);
             && S.Opens(x.net.server, 1, f) && f.tag == 0 && f.service == SERVICE && GetRequest(f.payload) == Some(q)
             && S.Receive(x.net.server, 1, f, 0) == read
    requires x.net.server.Objects(AT) == [] && q.nodes != []
    requires read.Usable(G) && S.Subscribe(read, G) == told
    ensures Next(x, Act.Serve(1, 0, 0, AllMade, 0)) ==
            x.(net := x.net.(server := told, taken := x.net.taken[1 := x.net.Taken(1) + 1]),
               live := x.live + {x.nextFsm}, nextFsm := x.nextFsm + 1,
               channels := x.channels[x.nextFsm := G], handlers := x.handlers[G := x.nextFsm],
               fsms := x.fsms[x.nextFsm := Start(q, AllMade)])
  {
    hide GetRequest, S.Receive, S.Subscribe, ServeOne, S.Opens;
    ExecWorldProofs.ServeOpensIs(x, 1, 0, 0, AllMade, 0, q);
  }

  /** The daemon's router once the response is sent, and once the completion code is set. */
  function Relayed(): S.ServerState {
    Router(map[1 := map[0 := 0]], map[AT := [FarView(true, 1, [Item(0, Answer())])]],
           map[1 := [HELLO, ChannelMsg(0, 0, SERVICE, Answer())]])
  }

  lemma SendsAnswer()
    ensures S.Send(Opened(), G, SERVICE, Answer(), 0) == Relayed()
  {
    hide Question, Answer;
    var v := FarView(true, 0, []);
    assert v.AfterSend(Answer(), 0) == FarView(true, 1, [Item(0, Answer())]);
    assert [v][0 := v.AfterSend(Answer(), 0)] == [FarView(true, 1, [Item(0, Answer())])];
    var r := S.Send(Opened(), G, SERVICE, Answer(), 0);
    assert r.objects == Relayed().objects;
    assert [HELLO] + [ChannelMsg(0, 0, SERVICE, Answer())] == [HELLO, ChannelMsg(0, 0, SERVICE, Answer())];
    assert r.outbox == Relayed().outbox;
  }

  lemma CompletesRelayed()
    ensures S.Complete(Relayed(), G, SUCCESS) == Relayed()
  {
    hide Question, Answer;
    var v := FarView(true, 1, [Item(0, Answer())]);
    assert [v][0 := v.(completionError := SUCCESS)] == [v];
    assert S.Complete(Relayed(), G, SUCCESS).objects == Relayed().objects;
  }

  lemma DisposesRelayed()
    ensures S.Dispose(Relayed(), G, 0) == AllSent()
  {
    hide Question, Answer;
    var v := FarView(true, 1, [Item(0, Answer())]);
    assert [v][0 := v.(alive := false)] == [FarView(false, 1, [Item(0, Answer())])];
    var r := S.Dispose(Relayed(), G, 0);
    assert r.objects == AllSent().objects;
    assert r.tables == AllSent().tables;
    assert r.outbox[1] == AllSent().outbox[1];
    assert r.outbox == AllSent().outbox;
  }

  lemma ResolvesPending()
    ensures ExecSpec.Resolve(Pending(), 5, Answered(RESPONSE), SUCCESS) == Done()
  {
  }

  lemma FinishesRelayed(s: Sys)
    requires s.server == Relayed()
    ensures Finished(s, G, SUCCESS, 0) == s.(server := AllSent())
  {
    hide Question, Answer, S.Complete, S.Dispose;
    CompletesRelayed();
    DisposesRelayed();
  }

  lemma Step8()
    ensures Can(W8, Act.Resolve(0, 5, Answered(RESPONSE), 0, 0)) &&
            Next(W8, Act.Resolve(0, 5, Answered(RESPONSE), 0, 0)) == W9
  {
    Fits();
    hide PutResponse, Question, ResponseFits, S.Send, ExecSpec.Resolve, Finished, Relayed, AllSent;
    SendsAnswer();
    ResolvesPending();
    FinishesRelayed(W8.net.(server := Relayed()));
    assert Do(W8.net, SSend(G, SERVICE, Answer(), 0)) == W8.net.(server := Relayed());
    SameWorld(Next(W8, Act.Resolve(0, 5, Answered(RESPONSE), 0, 0)), W9);
  }

  lemma ReceivesAnswer()
    ensures C.Receive(W9.net.hosts[0].router, ChannelMsg(0, 0, SERVICE, Answer())) == W10.net.hosts[0].router
  {
    hide Question, Answer;
    var r := W9.net.hosts[0].router;
    assert C.Receive(r, ChannelMsg(0, 0, SERVICE, Answer())).gateways == W10.net.hosts[0].router.gateways;
  }

  lemma HearsAnswer()
    ensures OnInput(W9.calls[(0, 0)], Answer()) == W10.calls[(0, 0)]
    ensures W9.calls[(0, 0) := W10.calls[(0, 0)]] == W10.calls
  {
    Decodes();
    hide GetResponse, Question, Answer;
  }

  lemma CanReadAnswer()
    ensures Can(W9, Act.Read(0, 1, 0))
    ensures W9.net.server.Outbox(1)[W9.net.hosts[0].taken] == ChannelMsg(0, 0, SERVICE, Answer())
    ensures CallHears(W9, 0, ChannelMsg(0, 0, SERVICE, Answer()))
  {
    hide Question, Answer;
  }

  lemma CanReadEnd()
    ensures Can(W10, Act.Read(0, 1, 0))
    ensures W10.net.server.Outbox(1)[W10.net.hosts[0].taken] == ChannelEnd(0, SUCCESS)
    ensures CallHears(W10, 0, ChannelEnd(0, SUCCESS))
  {
    hide Question, Answer;
  }

  /** Reading a frame that the client of channel 0 hears of. */
  lemma Reads(x: World, f: Frame, r: C.ClientState, call: Call)
    requires Can(x, Act.Read(0, 1, 0)) && f == x.net.server.Outbox(1)[x.net.hosts[0].taken] && f.For(0)
    requires CallHears(x, 0, f) && (f.ChannelMsg? ==> GetResponse(f.payload).Some?)
    requires r == C.Receive(x.net.hosts[0].router, f)
    requires call == if f.ChannelMsg? then OnInput(x.calls[(0, 0)], f.payload)
                     else OnCompleted(x.calls[(0, 0)], f.error)
    ensures Next(x, Act.Read(0, 1, 0)) == Further(x, r, call)
  {
    hide GetResponse, C.Receive, OnInput, OnCompleted;
  }

  /** What reading one more frame makes of a world. */
  function Further(x: World, r: C.ClientState, call: Call): World
    requires 0 in x.net.hosts
  {
    x.(net := x.net.(hosts := x.net.hosts[0 := x.net.hosts[0].(router := r, taken := x.net.hosts[0].taken + 1)]),
       calls := x.calls[(0, 0) := call])
  }

  lemma NineToTen()
    ensures 0 in W9.net.hosts && 0 in W10.net.hosts && (0, 0) in W9.calls && (0, 0) in W10.calls
    ensures Further(W9, W10.net.hosts[0].router, W10.calls[(0, 0)]) == W10
  {
    hide Question, Answer, AllSent, Done, Sent, Out, OnInput, Client;
    assert W9.net.hosts[0 := W10.net.hosts[0]] == W10.net.hosts;
    assert W9.calls[(0, 0) := W10.calls[(0, 0)]] == W10.calls;
  }

  lemma Step9()
    ensures Can(W9, Act.Read(0, 1, 0)) && Next(W9, Act.Read(0, 1, 0)) == W10
  {
    CanReadAnswer();
    Decodes();
    ReceivesAnswer();
    HearsAnswer();
    NineToTen();
    hide GetResponse, Question, Answer, C.Receive, OnInput, Can, Next, CallHears, W9, W10, Further;
    Reads(W9, ChannelMsg(0, 0, SERVICE, Answer()), W10.net.hosts[0].router, W10.calls[(0, 0)]);
  }

  lemma ReceivesEnd()
    ensures C.Receive(W10.net.hosts[0].router, ChannelEnd(0, SUCCESS)) == W11.net.hosts[0].router
  {
    hide Question, Answer, AllSent, Done;
    var r := W10.net.hosts[0].router;
    assert C.Receive(r, ChannelEnd(0, SUCCESS)).gateways == W11.net.hosts[0].router.gateways;
    assert C.Receive(r, ChannelEnd(0, SUCCESS)).table == {};
  }

  lemma IsDone()
    ensures OnCompleted(W10.calls[(0, 0)], SUCCESS) == W11.calls[(0, 0)]
    ensures 0 in W10.net.hosts && 0 in W11.net.hosts && (0, 0) in W10.calls && (0, 0) in W11.calls
  {
    hide Question, Answer, AllSent, Done, Sent, Out;
  }

  lemma TenToEleven()
    ensures 0 in W10.net.hosts && 0 in W11.net.hosts && (0, 0) in W10.calls && (0, 0) in W11.calls
    ensures Further(W10, W11.net.hosts[0].router, W11.calls[(0, 0)]) == W11
  {
    hide Question, Answer, AllSent, Done, Sent, Out, Client;
    assert W10.net.hosts[0 := W11.net.hosts[0]] == W11.net.hosts;
    assert W10.calls[(0, 0) := W11.calls[(0, 0)]] == W11.calls;
  }

  lemma Step10()
    ensures Can(W10, Act.Read(0, 1, 0)) && Next(W10, Act.Read(0, 1, 0)) == W11
  {
    CanReadEnd();
    IsDone();
    ReceivesEnd();
    TenToEleven();
    hide GetResponse, Question, Answer, C.Receive, OnCompleted, Can, Next, CallHears, W10, W11, Further;
    Reads(W10, ChannelEnd(0, SUCCESS), W11.net.hosts[0].router, W11.calls[(0, 0)]);
  }

  // ---- The whole run.

  const ACTS: seq<Act> := [
    Act.Other(Launch(0)), Act.Other(CPipeUp(0, 0)), Act.Other(Accept(0)), Act.Serve(1, 0, 0, AllMade, 0),
    Act.Read(0, 1, 0),
    Act.NewCall(0, REQUEST), Act.Submit(0, 0, 0), Act.Serve(1, 0, 0, AllMade, 0),
    Act.Resolve(0, 5, Answered(RESPONSE), 0, 0), Act.Read(0, 1, 0), Act.Read(0, 1, 0)]

  /** One action before the rest of a run. */
  lemma Before(acts: seq<Act>, k: nat, x: World, x': World, y: World)
    requires k < |acts| && Can(x, acts[k]) && Next(x, acts[k]) == x'
    requires CanAll(x', acts[k + 1..]) && After(x', acts[k + 1..]) == y
    ensures CanAll(x, acts[k..]) && After(x, acts[k..]) == y
  {
    hide Can, Next;
    assert acts[k..][1..] == acts[k + 1..];
  }

  lemma NoActs(x: World, acts: seq<Act>)
    ensures CanAll(x, acts[|acts|..]) && After(x, acts[|acts|..]) == x
  {
  }

  lemma LastThree()
    ensures CanAll(W8, ACTS[8..]) && After(W8, ACTS[8..]) == W11
  {
    hide Can, Next, CanAll, After, W8, W9, W10, W11;
    Step8(); Step9(); Step10();
    NoActs(W11, ACTS);
    Before(ACTS, 10, W10, W11, W11);
    Before(ACTS, 9, W9, W10, W11);
    Before(ACTS, 8, W8, W9, W11);
  }

  lemma LastSix()
    ensures CanAll(W5, ACTS[5..]) && After(W5, ACTS[5..]) == W11
  {
    hide Can, Next, CanAll, After, W5, W6, W7, W8, W11;
    Step5(); Step6(); Step7();
    LastThree();
    Before(ACTS, 7, W7, W8, W11);
    Before(ACTS, 6, W6, W7, W11);
    Before(ACTS, 5, W5, W6, W11);
  }

  /** There is a run in which every response is accepted and the client is told of success,
      with the one response of the node that it asked twice. */
  lemma SuccessHappens()
    ensures CanAll(InitialWorld({SERVICE}), ACTS) && ExecGuarantees.ResponsesAccepted(ACTS)
    ensures var x := After(InitialWorld({SERVICE}), ACTS);
            (0, 0) in x.calls && x.calls[(0, 0)].request == REQUEST
            && x.calls[(0, 0)].results == [Success(map[5 := RESPONSE])]
  {
    hide CanAll, After, ACTS, W11, InitialWorld;
    LastWorld();
    WholeRun();
    OneResolution();
  }

  lemma WholeRun()
    ensures CanAll(InitialWorld({SERVICE}), ACTS) && After(InitialWorld({SERVICE}), ACTS) == W11
  {
    hide Can, Next, CanAll, After, W1, W2, W3, W4, W5, W11, InitialWorld;
    Step0(); Step1(); Step2(); Step3(); Step4();
    LastSix();
    Before(ACTS, 4, W4, W5, W11);
    Before(ACTS, 3, W3, W4, W11);
    Before(ACTS, 2, W2, W3, W11);
    Before(ACTS, 1, W1, W2, W11);
    Before(ACTS, 0, W0, W1, W11);
    assert ACTS[0..] == ACTS;
  }

  lemma OneResolution()
    ensures ExecGuarantees.ResponsesAccepted(ACTS)
  {
  }

  lemma LastWorld()
    ensures (0, 0) in W11.calls && W11.calls[(0, 0)].request == REQUEST
    ensures W11.calls[(0, 0)].results == [Success(map[5 := RESPONSE])]
  {
    hide Question, Answer;
  }

  // ---- A run that sends one request twice.

  /** A client and the gateway of another user, both made before the connect reply is read. */
  function Both(connected: bool, greeting: set<Tag>, other: View): World {
    var r := C.ClientState(2, connected, {0, 1}, map[0 := FreshView(None), 1 := other], greeting, {}, [HELLO]);
    Calling(Net(Host(r, Open, if connected then 1 else 0), GREETED, true, map[1 := 1]), ExecSpec.NewCall(REQUEST))
  }

  const EARLY: World :=
    Calling(Net(Host(Client(false, true, true, FreshView(None), [HELLO]), Open, 0), GREETED, true, map[1 := 1]),
            ExecSpec.NewCall(REQUEST))

  const CROWDED: World := Both(false, {}, FreshView(None))
  const ANNOUNCED: World := Both(true, {0, 1}, FreshView(None))

  /** The other gateway was told first; its handler may now call back. */
  const HALFWAY: World := Both(true, {0}, FreshView(None).Notified(Connected))

  lemma CallsEarly()
    ensures Can(W4, Act.NewCall(0, REQUEST)) && Next(W4, Act.NewCall(0, REQUEST)) == EARLY
  {
    hide Question;
    assert C.MakeGateway(W4.net.hosts[0].router) == EARLY.net.hosts[0].router;
    SameWorld(Next(W4, Act.NewCall(0, REQUEST)), EARLY);
  }

  lemma MakesOther()
    ensures C.MakeGateway(EARLY.net.hosts[0].router) == CROWDED.net.hosts[0].router
  {
    var r := C.MakeGateway(EARLY.net.hosts[0].router);
    assert r.gateways == CROWDED.net.hosts[0].router.gateways;
    assert r.table == {0, 1};
  }

  lemma OtherComes()
    ensures Can(EARLY, Act.Other(CMake(0))) && Next(EARLY, Act.Other(CMake(0))) == CROWDED
  {
    MakesOther();
    hide C.MakeGateway;
    SameWorld(Next(EARLY, Act.Other(CMake(0))), CROWDED);
  }

  lemma ReceivesHello()
    ensures C.Receive(CROWDED.net.hosts[0].router, HELLO) == ANNOUNCED.net.hosts[0].router
  {
    assert C.Receive(CROWDED.net.hosts[0].router, HELLO).greeting == {0, 1};
  }

  lemma IsAnnounced()
    ensures Can(CROWDED, Act.Read(0, 1, 0)) && Next(CROWDED, Act.Read(0, 1, 0)) == ANNOUNCED
  {
    ReceivesHello();
    hide C.Receive;
    SameWorld(Next(CROWDED, Act.Read(0, 1, 0)), ANNOUNCED);
  }

  lemma GreetsOther()
    ensures C.Greet(ANNOUNCED.net.hosts[0].router, 1) == HALFWAY.net.hosts[0].router
  {
    var r := C.Greet(ANNOUNCED.net.hosts[0].router, 1);
    assert r.greeting == {0};
    assert r.gateways == HALFWAY.net.hosts[0].router.gateways;
  }

  lemma OtherIsTold()
    ensures Can(ANNOUNCED, Act.Greet(0, 1, 0)) && Next(ANNOUNCED, Act.Greet(0, 1, 0)) == HALFWAY
  {
    GreetsOther();
    hide C.Greet;
    SameWorld(Next(ANNOUNCED, Act.Greet(0, 1, 0)), HALFWAY);
  }

  const TO_HALFWAY: seq<Act> := [
    Act.Other(Launch(0)), Act.Other(CPipeUp(0, 0)), Act.Other(Accept(0)), Act.Serve(1, 0, 0, AllMade, 0),
    Act.NewCall(0, REQUEST), Act.Other(CMake(0)), Act.Read(0, 1, 0), Act.Greet(0, 1, 0)]

  lemma GetsHalfway()
    ensures CanAll(InitialWorld({SERVICE}), TO_HALFWAY) && After(InitialWorld({SERVICE}), TO_HALFWAY) == HALFWAY
  {
    hide Can, Next, CanAll, After, W1, W2, W3, W4, InitialWorld, HALFWAY;
    Step0(); Step1(); Step2(); Step3();
    FromConnected();
    Before(TO_HALFWAY, 3, W3, W4, HALFWAY);
    Before(TO_HALFWAY, 2, W2, W3, HALFWAY);
    Before(TO_HALFWAY, 1, W1, W2, HALFWAY);
    Before(TO_HALFWAY, 0, W0, W1, HALFWAY);
    assert TO_HALFWAY[0..] == TO_HALFWAY;
  }

  lemma FromConnected()
    ensures CanAll(W4, TO_HALFWAY[4..]) && After(W4, TO_HALFWAY[4..]) == HALFWAY
  {
    hide Can, Next, CanAll, After, W4, EARLY, CROWDED, ANNOUNCED, HALFWAY;
    CallsEarly(); OtherComes(); IsAnnounced(); OtherIsTold();
    NoActs(HALFWAY, TO_HALFWAY);
    Before(TO_HALFWAY, 7, ANNOUNCED, HALFWAY, HALFWAY);
    Before(TO_HALFWAY, 6, CROWDED, ANNOUNCED, HALFWAY);
    Before(TO_HALFWAY, 5, EARLY, CROWDED, HALFWAY);
    Before(TO_HALFWAY, 4, W4, EARLY, HALFWAY);
  }

  lemma {:induction false} AfterThen(x: World, acts: seq<Act>, more: seq<Act>)
    requires CanAll(x, acts) && CanAll(After(x, acts), more)
    ensures CanAll(x, acts + more) && After(x, acts + more) == After(After(x, acts), more)
    decreases |acts|
  {
    hide Can, Next;
    if acts == [] {
      assert acts + more == more;
    } else {
      AfterThen(Next(x, acts[0]), acts[1..], more);
      assert (acts + more)[1..] == acts[1..] + more;
    }
  }

  /** There is a run in which a client is submitted once, by the handler of another gateway
      that was told of the connection before it, and the pipe takes its request twice. */
  lemma TwoRequestsHappen()
    ensures var acts := TO_HALFWAY + [Act.Submit(0, 0, SUCCESS), Act.Greet(0, 0, SUCCESS)];
            && CanAll(InitialWorld({SERVICE}), acts)
            && (var x := After(InitialWorld({SERVICE}), acts);
                && 0 in x.net.hosts && 0 in x.net.hosts[0].router.gateways
                && |x.net.hosts[0].router.gateways[0].sent| == 2)
  {
    Fits();
    hide Can, Next, WorldGood, RequestFits, Question, CanAll, After;
    GetsHalfway();
    ExecGuarantees.RunGood({SERVICE}, TO_HALFWAY);
    HalfwayIs();
    ExecSubmitOnce.SubmittedWhileAnnounced(HALFWAY, 0, 0);
    TwoActs(HALFWAY, Act.Submit(0, 0, SUCCESS), Act.Greet(0, 0, SUCCESS));
    AfterThen(InitialWorld({SERVICE}), TO_HALFWAY, [Act.Submit(0, 0, SUCCESS), Act.Greet(0, 0, SUCCESS)]);
  }

  lemma HalfwayIs()
    ensures (0, 0) in HALFWAY.calls && !HALFWAY.calls[(0, 0)].submitted && HALFWAY.calls[(0, 0)].request == REQUEST
    ensures Enabled(HALFWAY.net, CGreet(0, 0)) && 0 in HALFWAY.net.hosts[0].router.greeting
  {
  }

  lemma TwoActs(x: World, a: Act, b: Act)
    requires Can(x, a) && Can(Next(x, a), b)
    ensures CanAll(x, [a, b]) && After(x, [a, b]) == Next(Next(x, a), b)
  {
    hide Can, Next;
    assert [a, b][1..] == [b] && [b][1..] == [];
    assert CanAll(Next(Next(x, a), b), []);
    assert CanAll(Next(x, a), [b]) && After(Next(x, a), [b]) == Next(Next(x, a), b);
  }
}
