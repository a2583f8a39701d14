/** The daemon's 'exec cmd' service as objects with mutable state (`exec_cmd_service.cpp`).

    A pending call is its node id: the Cyphal client and promise of a call have no state
    of their own here. Whatever Cyphal and the pipe answer is a parameter. Every method is
    proved to change a machine exactly as the function of `ExecSpec` with its name. */
module ExecService {
  import opened IpcTypes
  import opened ExecCodec
  import Spec = ExecSpec

  /** The machine's end of its channel. */
  class Channel {
    var accepted: seq<(NodeId, Response)>
    var completionErrorCode: Option<int>

    constructor ()
      ensures accepted == [] && completionErrorCode == None
    {
      accepted, completionErrorCode := [], None;
    }

    method Send(node: NodeId, response: Response, sendError: int) returns (error: int)
      modifies this`accepted
      ensures error == sendError
      ensures accepted == if sendError == SUCCESS then old(accepted) + [(node, response)] else old(accepted)
    {
      if sendError == SUCCESS { accepted := accepted + [(node, response)]; }
      error := sendError;
    }

    method Complete(errorCode: int)
      modifies this`completionErrorCode
      ensures completionErrorCode == Some(errorCode)
    {
      completionErrorCode := Some(errorCode);
    }
  }

  class Service {
    var nextFsmId: nat
    var idToFsm: map<nat, Fsm>

    constructor ()
      ensures Valid() && idToFsm == map[] && nextFsmId == 0
    {
      nextFsmId, idToFsm := 0, map[];
    }

    ghost predicate Valid()
      reads this
    {
      forall i :: i in idToFsm ==> i < nextFsmId && idToFsm[i].id == i
    }

    /** `operator()`: a machine for a new channel; it is registered unless it is done at once. */
    method Open(channel: Channel, request: Request, callErrors: map<NodeId, int>)
      returns (fsm: Fsm, ghost launch: Spec.Launch)
      requires Valid() && channel.accepted == [] && channel.completionErrorCode == None
      requires Spec.NodesOf(request) <= callErrors.Keys
      modifies this, channel
      ensures Valid() && fresh(fsm) && fsm.id == old(nextFsmId) && nextFsmId == old(nextFsmId) + 1
      ensures fsm.channel == channel && fsm.service == this
      ensures fsm.Abs() == Spec.Start(request, launch) && LaunchOf(request, callErrors, launch)
      ensures Started(request, callErrors, fsm.Abs())
      ensures idToFsm == if fsm.Abs().completion.None? then old(idToFsm)[fsm.id := fsm] else old(idToFsm)
    {
      var fsmId := nextFsmId;
      nextFsmId := nextFsmId + 1;
      fsm := new Fsm(this, fsmId, channel, request);
      idToFsm := idToFsm[fsmId := fsm];
      launch := fsm.Start(request, callErrors);
      assert old(idToFsm)[fsmId := fsm] - {fsmId} == old(idToFsm);
    }

    method ReleaseFsmBy(fsmId: nat)
      requires Valid()
      modifies this`idToFsm
      ensures Valid() && idToFsm == old(idToFsm) - {fsmId}
    {
      idToFsm := idToFsm - {fsmId};
    }
  }

  /** How the calls go: all are made, or the launch stops at a node whose call fails. */
  ghost predicate LaunchOf(request: Request, callErrors: map<NodeId, int>, launch: Spec.Launch)
    requires Spec.NodesOf(request) <= callErrors.Keys
  {
    match launch
    case AllMade => forall n :: n in request.nodes ==> callErrors[n] == SUCCESS
    case OneFailed(error) => error != SUCCESS && exists n :: n in request.nodes && callErrors[n] == error
  }

  /** What a started machine is: done with 0 for no nodes; done with the error of a call that
      failed; or waiting for every distinct node, if no call failed. */
  ghost predicate Started(request: Request, callErrors: map<NodeId, int>, f: Spec.Fsm)
    requires Spec.NodesOf(request) <= callErrors.Keys
  {
    match f.completion
    case None =>
      && request.nodes != [] && f.ops == Spec.NodesOf(request)
      && forall n <- request.nodes :: callErrors[n] == SUCCESS
    case Some(error) =>
      if request.nodes == [] then error == SUCCESS
      else error != SUCCESS && exists n <- request.nodes :: callErrors[n] == error
  }

  class Fsm {
    const id: nat
    const service: Service
    const channel: Channel
    var nodeIdToOp: set<NodeId>
    ghost const request: Request
    ghost var outcomes: map<NodeId, Spec.Outcome>
    ghost var refused: set<NodeId>

    constructor (service: Service, id: nat, channel: Channel, ghost request: Request)
      ensures this.id == id && this.service == service && this.channel == channel && this.request == request
      ensures nodeIdToOp == {} && outcomes == map[] && refused == {}
    {
      this.service, this.id, this.channel, this.request := service, id, channel, request;
      nodeIdToOp, outcomes, refused := {}, map[], {};
    }

    ghost function Abs(): Spec.Fsm
      reads this, channel
    {
      Spec.Fsm(request, nodeIdToOp, outcomes, channel.accepted, refused, channel.completionErrorCode)
    }

    method Start(request: Request, callErrors: map<NodeId, int>) returns (ghost launch: Spec.Launch)
      requires service.Valid() && request == this.request && Spec.NodesOf(request) <= callErrors.Keys
      requires Abs() == Spec.Fsm(request, {}, map[], [], {}, None)
      modifies this`nodeIdToOp, channel`completionErrorCode, service`idToFsm
      ensures service.Valid() && Abs() == Spec.Start(request, launch) && LaunchOf(request, callErrors, launch)
      ensures Started(request, callErrors, Abs())
      ensures service.idToFsm == if Abs().completion.None? then old(service.idToFsm) else old(service.idToFsm) - {id}
    {
      launch := Spec.AllMade;
      if |request.nodes| == 0 {
        Complete(SUCCESS);
        return;
      }
      var remaining := set n | n in request.nodes;
      assert remaining == Spec.NodesOf(request);
      while remaining != {}
        invariant remaining <= Spec.NodesOf(request)
        invariant nodeIdToOp == Spec.NodesOf(request) - remaining
        invariant forall n :: n in nodeIdToOp ==> callErrors[n] == SUCCESS
        invariant channel.completionErrorCode == None
        invariant service.idToFsm == old(service.idToFsm)
        decreases |remaining|
      {
        var node :| node in remaining;
        remaining := remaining - {node};
        var error := callErrors[node];
        if error != SUCCESS {
          launch := Spec.OneFailed(error);
          Complete(error);
          return;
        }
        nodeIdToOp := nodeIdToOp + {node};
      }
    }

    /** The promise callback of one node. */
    method OnResolved(node: NodeId, outcome: Spec.Outcome, sendError: int)
      requires service.Valid() && node in nodeIdToOp && Abs().completion.None?
      modifies this`nodeIdToOp, this`outcomes, this`refused, channel, service`idToFsm
      ensures service.Valid() && Abs() == Spec.Resolve(old(Abs()), node, outcome, sendError)
      ensures service.idToFsm == if Abs().completion.None? then old(service.idToFsm) else old(service.idToFsm) - {id}
    {
      match outcome {
        case Unanswered(_) =>
        case Answered(response) =>
          var error := channel.Send(node, response, sendError);
          if error != SUCCESS { refused := refused + {node}; }
      }
      outcomes := outcomes[node := outcome];
      nodeIdToOp := nodeIdToOp - {node};
      if nodeIdToOp == {} { Complete(SUCCESS); }
    }

    method HandleCompleted()
      requires service.Valid()
      modifies this`nodeIdToOp, channel`completionErrorCode, service`idToFsm
      ensures service.Valid() && Abs() == Spec.Cancel(old(Abs()))
      ensures service.idToFsm == old(service.idToFsm) - {id}
    {
      Complete(CANCELED);
    }

    method Complete(errorCode: int)
      requires service.Valid()
      modifies this`nodeIdToOp, channel`completionErrorCode, service`idToFsm
      ensures service.Valid() && Abs() == Spec.Completed(old(Abs()), errorCode)
      ensures service.idToFsm == old(service.idToFsm) - {id}
    {
      nodeIdToOp := {};
      channel.Complete(errorCode);
      service.ReleaseFsmBy(id);
    }
  }
}
