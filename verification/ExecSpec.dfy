/** The 'exec cmd' service at both ends: the daemon's state machine for one request
    (`exec_cmd_service.cpp`) and the SDK's client for one request (`exec_cmd_client.cpp`). */
module ExecSpec {
  import opened IpcTypes
  import opened ExecCodec

  /** CRC-64/WE of "ocvsmd.svc.node.exec_cmd". */
  const SERVICE: ServiceId := 0x5FAE_48D0_F51B_C328

  /** How the promise of a Cyphal service call resolves. */
  datatype Outcome = Answered(response: Response) | Unanswered(error: int)

  /** How the loop of `start` over the distinct nodes goes: every call is made, or one fails. */
  datatype Launch = AllMade | OneFailed(error: int)

  /** One state machine: the request, the calls still pending (`node_id_to_op_`), and its
      history: the promises that resolved, the responses the channel accepted and those it
      refused, and how the machine completed. */
  datatype Fsm = Fsm(
    request: Request,
    ops: set<NodeId>,
    outcomes: map<NodeId, Outcome>,
    relayed: seq<(NodeId, Response)>,
    refused: set<NodeId>,
    completion: Option<int>)

  function NodesOf(q: Request): set<NodeId> {
    set n | n in q.nodes
  }

  function Completed(f: Fsm, error: int): Fsm {
    f.(ops := {}, completion := Some(error))
  }

  function Start(q: Request, launch: Launch): Fsm {
    var f := Fsm(q, {}, map[], [], {}, None);
    if q.nodes == [] then Completed(f, SUCCESS)
    else
      match launch
      case AllMade => f.(ops := NodesOf(q))
      case OneFailed(error) => Completed(f, error)
  }

  /** The promise callback for node `n`; `sendError` is what the channel answers. */
  function Resolve(f: Fsm, n: NodeId, outcome: Outcome, sendError: int): Fsm
    requires n in f.ops
  {
    var f' := f.(
      ops := f.ops - {n},
      outcomes := f.outcomes[n := outcome],
      relayed := if outcome.Answered? && sendError == SUCCESS then f.relayed + [(n, outcome.response)] else f.relayed,
      refused := if outcome.Answered? && sendError != SUCCESS then f.refused + {n} else f.refused);
    if f'.ops == {} then Completed(f', SUCCESS) else f'
  }

  function Cancel(f: Fsm): Fsm {
    Completed(f, CANCELED)
  }

  /** Outcomes and pending calls partition the requested nodes until the machine completes,
      and a machine only succeeds when none is pending. */
  ghost predicate Progress(f: Fsm) {
    && (f.completion.None? ==> f.ops != {} && f.ops !! f.outcomes.Keys && f.ops + f.outcomes.Keys == NodesOf(f.request))
    && (f.completion.Some? ==> f.ops == {})
    && (f.completion == Some(SUCCESS) ==> f.outcomes.Keys == NodesOf(f.request))
    && f.outcomes.Keys <= NodesOf(f.request)
  }

  /** Each answer was relayed once or refused. */
  ghost predicate Relays(f: Fsm) {
    && (forall i, j :: 0 <= i < j < |f.relayed| ==> f.relayed[i].0 != f.relayed[j].0)
    && (forall i :: 0 <= i < |f.relayed| ==>
          && f.relayed[i].0 in f.outcomes && f.outcomes[f.relayed[i].0] == Answered(f.relayed[i].1)
          && f.relayed[i].0 !in f.refused && ResponseFits(f.relayed[i].0, f.relayed[i].1))
    && (forall n :: n in f.outcomes && f.outcomes[n].Answered? && n !in f.refused ==>
          (n, f.outcomes[n].response) in f.relayed)
    && (forall n :: n in f.refused ==> n in f.outcomes && f.outcomes[n].Answered?)
  }

  /** Which machines can be. */
  ghost predicate Sound(f: Fsm) {
    Progress(f) && Relays(f)
  }

  /** What the nodes that answered said, as far as the channel took it. */
  function Gathered(f: Fsm): map<NodeId, Response> {
    map n | n in f.outcomes && f.outcomes[n].Answered? && n !in f.refused :: f.outcomes[n].response
  }

  lemma StartSound(q: Request, launch: Launch)
    requires launch.OneFailed? ==> launch.error != SUCCESS
    ensures Sound(Start(q, launch))
  {
    if q.nodes != [] { assert q.nodes[0] in NodesOf(q); }
  }

  lemma ResolveSound(f: Fsm, n: NodeId, outcome: Outcome, sendError: int)
    requires Sound(f) && n in f.ops
    requires outcome.Answered? ==> ResponseFits(n, outcome.response)
    ensures Sound(Resolve(f, n, outcome, sendError))
  {
    hide Resolve, Relays, ResponseFits;
    ResolveProgresses(f, n, outcome, sendError);
    hide Progress;
    ResolveRelays(f, n, outcome, sendError);
  }

  lemma ResolveProgresses(f: Fsm, n: NodeId, outcome: Outcome, sendError: int)
    requires Progress(f) && n in f.ops
    ensures Progress(Resolve(f, n, outcome, sendError)) && n !in f.outcomes
  {
  }

  lemma ResolveRelays(f: Fsm, n: NodeId, outcome: Outcome, sendError: int)
    requires Relays(f) && n in f.ops && n !in f.outcomes
    requires outcome.Answered? ==> ResponseFits(n, outcome.response)
    ensures Relays(Resolve(f, n, outcome, sendError))
  {
    hide ResponseFits;
    var f' := Resolve(f, n, outcome, sendError);
    assert f'.relayed == f.relayed || f'.relayed == f.relayed + [(n, outcome.response)];
    forall m | m in f'.outcomes && f'.outcomes[m].Answered? && m !in f'.refused
      ensures (m, f'.outcomes[m].response) in f'.relayed
    {
      if m == n {
        assert f'.relayed[|f.relayed|] == (n, outcome.response);
      } else {
        assert (m, f.outcomes[m].response) in f.relayed;
      }
    }
  }

  lemma CancelSound(f: Fsm)
    requires Sound(f)
    ensures Sound(Cancel(f))
  {
  }

  // ---- The SDK's client.

  datatype Result = Success(responses: map<NodeId, Response>) | Failure(error: int)

  /** One client: its request, whether it was submitted, what it accumulated, and every
      result its receiver was called with. */
  datatype Call = Call(
    request: Request,
    submitted: bool,
    responses: map<NodeId, Response>,
    results: seq<Result>)

  function NewCall(q: Request): Call {
    Call(q, false, map[], [])
  }

  /** `emplace`: the first response of a node stays. */
  function Emplaced(m: map<NodeId, Response>, payload: Payload): map<NodeId, Response> {
    match GetResponse(payload)
    case None => m
    case Some(r) => if r.0 in m then m else m[r.0 := r.1]
  }

  function OnInput(c: Call, payload: Payload): Call {
    c.(responses := Emplaced(c.responses, payload))
  }

  function OnCompleted(c: Call, error: int): Call {
    c.(results := c.results + [if error == SUCCESS then Success(c.responses) else Failure(error)])
  }

  function OnSent(c: Call, error: int): Call {
    if error == SUCCESS then c else c.(results := c.results + [Failure(error)])
  }

  /** What a client that was given these messages has accumulated. */
  function Collected(items: seq<Item>): map<NodeId, Response> {
    if items == [] then map[]
    else Emplaced(Collected(items[..|items| - 1]), items[|items| - 1].payload)
  }

  /** The messages are the machine's responses, in the order they were relayed. */
  ghost predicate Carries(items: seq<Item>, relayed: seq<(NodeId, Response)>) {
    && |items| == |relayed|
    && forall i :: 0 <= i < |items| ==>
         ResponseFits(relayed[i].0, relayed[i].1) && items[i].payload == PutResponse(relayed[i].0, relayed[i].1)
  }

  function Paired(relayed: seq<(NodeId, Response)>): map<NodeId, Response> {
    if relayed == [] then map[]
    else
      var last := relayed[|relayed| - 1];
      Paired(relayed[..|relayed| - 1])[last.0 := last.1]
  }

  lemma {:induction false} PairedIs(relayed: seq<(NodeId, Response)>)
    requires forall i, j :: 0 <= i < j < |relayed| ==> relayed[i].0 != relayed[j].0
    ensures forall n :: n in Paired(relayed) <==> exists i :: 0 <= i < |relayed| && relayed[i].0 == n
    ensures forall i :: 0 <= i < |relayed| ==>
              relayed[i].0 in Paired(relayed) && Paired(relayed)[relayed[i].0] == relayed[i].1
    decreases |relayed|
  {
    if relayed != [] {
      var shorter := relayed[..|relayed| - 1];
      PairedIs(shorter);
      forall n | n in Paired(relayed) ensures exists i :: 0 <= i < |relayed| && relayed[i].0 == n {
        if n in Paired(shorter) {
          var i :| 0 <= i < |shorter| && shorter[i].0 == n;
          assert relayed[i].0 == n;
        } else {
          assert relayed[|relayed| - 1].0 == n;
        }
      }
      forall i | 0 <= i < |relayed|
        ensures relayed[i].0 in Paired(relayed) && Paired(relayed)[relayed[i].0] == relayed[i].1
      {
        if i < |shorter| { assert shorter[i] == relayed[i]; }
      }
    }
  }

  lemma {:induction false} CollectsRelayed(items: seq<Item>, relayed: seq<(NodeId, Response)>)
    requires Carries(items, relayed)
    requires forall i, j :: 0 <= i < j < |relayed| ==> relayed[i].0 != relayed[j].0
    ensures Collected(items) == Paired(relayed)
    decreases |items|
  {
    hide PutResponse, GetResponse, ResponseFits;
    if items != [] {
      var n := |items| - 1;
      CollectsRelayed(items[..n], relayed[..n]);
      ResponseRoundTrip(relayed[n].0, relayed[n].1);
      PairedIs(relayed[..n]);
      assert items[n].payload == PutResponse(relayed[n].0, relayed[n].1);
    }
  }

  /** A client that got all that a machine relayed has what the nodes that answered said. */
  lemma CollectsGathered(items: seq<Item>, f: Fsm)
    requires Sound(f) && Carries(items, f.relayed)
    ensures Collected(items) == Gathered(f)
  {
    hide Collected, Carries, Paired, Gathered, ResponseFits;
    CollectsRelayed(items, f.relayed);
    PairedIs(f.relayed);
    hide Sound;
    forall n | n in Gathered(f) ensures n in Paired(f.relayed) && Paired(f.relayed)[n] == Gathered(f)[n] {
      GatheredIsRelayed(f, n);
    }
    forall n | n in Paired(f.relayed) ensures n in Gathered(f) {
      RelayedIsGathered(f, n);
    }
  }

  lemma GatheredIsRelayed(f: Fsm, n: NodeId)
    requires Sound(f) && n in Gathered(f)
    ensures n in Paired(f.relayed) && Paired(f.relayed)[n] == Gathered(f)[n]
  {
    hide Paired, ResponseFits;
    PairedIs(f.relayed);
    var i :| 0 <= i < |f.relayed| && f.relayed[i] == (n, f.outcomes[n].response);
  }

  lemma RelayedIsGathered(f: Fsm, n: NodeId)
    requires Sound(f) && n in Paired(f.relayed)
    ensures n in Gathered(f)
  {
    hide Paired, ResponseFits;
    PairedIs(f.relayed);
    var i :| 0 <= i < |f.relayed| && f.relayed[i].0 == n;
  }

  // ---- Termination.

  /** Resolving the promises of a machine one after the other, in any order; with each
      answer goes what the channel says to the response being sent. */
  function ResolveAll(f: Fsm, order: seq<NodeId>, answers: map<NodeId, (Outcome, int)>): Fsm
    requires forall n :: n in order ==> n in answers
    decreases |order|
  {
    if order == [] then f
    else if order[0] !in f.ops then ResolveAll(f, order[1..], answers)
    else ResolveAll(Resolve(f, order[0], answers[order[0]].0, answers[order[0]].1), order[1..], answers)
  }

  function Elements(order: seq<NodeId>): set<NodeId> {
    set n | n in order
  }

  /** When every pending promise resolves, whatever the order and the outcomes, the machine
      completes with success, and not before the last of them. */
  lemma {:induction false} CompletesWithLast(f: Fsm, order: seq<NodeId>, answers: map<NodeId, (Outcome, int)>)
    requires Sound(f) && f.completion.None?
    requires forall n :: n in order ==>
               n in answers && (answers[n].0.Answered? ==> ResponseFits(n, answers[n].0.response))
    ensures var done := ResolveAll(f, order, answers);
            && done.ops == f.ops - Elements(order)
            && (done.completion == Some(SUCCESS) <==> f.ops <= Elements(order))
            && (done.completion.Some? ==> done.completion == Some(SUCCESS))
    decreases |order|
  {
    if order != [] {
      var rest := order[1..];
      assert Elements(order) == {order[0]} + Elements(rest);
      if order[0] !in f.ops {
        CompletesWithLast(f, rest, answers);
      } else {
        var f' := Resolve(f, order[0], answers[order[0]].0, answers[order[0]].1);
        ResolveSound(f, order[0], answers[order[0]].0, answers[order[0]].1);
        assert f.ops - Elements(order) == (f.ops - {order[0]}) - Elements(rest);
        if f'.completion.None? {
          CompletesWithLast(f', rest, answers);
        } else {
          NothingPending(f', rest, answers);
          assert f.ops - Elements(order) == {};
        }
      }
    }
  }

  /** No callback of a completed machine runs: it has no pending promise left. */
  lemma {:induction false} NothingPending(f: Fsm, order: seq<NodeId>, answers: map<NodeId, (Outcome, int)>)
    requires f.ops == {} && forall n :: n in order ==> n in answers
    ensures ResolveAll(f, order, answers) == f
    decreases |order|
  {
    if order != [] { NothingPending(f, order[1..], answers); }
  }
}
