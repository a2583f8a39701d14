/** The SDK's 'exec cmd' client as an object with mutable state (`exec_cmd_client.cpp`),
    with the event adapter of its channel (`channel.hpp`).

    `results` is every call of the receiver. Every method is proved to change the client
    as the function of `ExecSpec` that models it. */
module ExecClient {
  import opened IpcTypes
  import opened ExecCodec
  import Spec = ExecSpec

  class Client {
    const request: Request
    var submitted: bool
    var nodeIdToResponse: map<NodeId, Response>
    var results: seq<Spec.Result>
    var sent: seq<Payload>

    constructor (request: Request)
      ensures Abs() == Spec.NewCall(request) && sent == []
    {
      this.request := request;
      submitted, nodeIdToResponse, results, sent := false, map[], [], [];
    }

    ghost function Abs(): Spec.Call
      reads this
    {
      Spec.Call(request, submitted, nodeIdToResponse, results)
    }

    /** `submitImpl`; a gateway that is connected already announces it from inside `subscribe`. */
    method Submit(connected: bool, sendError: int)
      modifies this
      ensures var ready := old(Abs()).(submitted := true);
              Abs() ==
              if connected then Spec.OnSent(ready, if RequestFits(request) then sendError else INVALID) else ready
      ensures connected && RequestFits(request) && sendError == SUCCESS ==> sent == old(sent) + [PutRequest(request)]
      ensures !(connected && RequestFits(request) && sendError == SUCCESS) ==> sent == old(sent)
    {
      submitted := true;
      if connected { HandleConnected(sendError); }
    }

    /** An error of the send, or of the serializer before it, goes to the receiver. */
    method HandleConnected(sendError: int)
      modifies this`results, this`sent
      ensures Abs() == Spec.OnSent(old(Abs()), if RequestFits(request) then sendError else INVALID)
      ensures RequestFits(request) && sendError == SUCCESS ==> sent == old(sent) + [PutRequest(request)]
      ensures !(RequestFits(request) && sendError == SUCCESS) ==> sent == old(sent)
    {
      var error := Send(sendError);
      if error != SUCCESS {
        results := results + [Spec.Failure(error)];
      }
    }

    /** `Channel::send`: what does not serialize is refused before the gateway sees it. */
    method Send(sendError: int) returns (error: int)
      modifies this`sent
      ensures error == if RequestFits(request) then sendError else INVALID
      ensures RequestFits(request) && sendError == SUCCESS ==> sent == old(sent) + [PutRequest(request)]
      ensures !(RequestFits(request) && sendError == SUCCESS) ==> sent == old(sent)
    {
      if !RequestFits(request) { return INVALID; }
      if sendError == SUCCESS { sent := sent + [PutRequest(request)]; }
      error := sendError;
    }

    /** The adapter's `Message`: what does not decode is an error, and reaches nobody. */
    method OnMessage(payload: Payload) returns (error: int)
      modifies this`nodeIdToResponse
      ensures Abs() == Spec.OnInput(old(Abs()), payload)
      ensures error == if GetResponse(payload).None? then INVALID else SUCCESS
    {
      match GetResponse(payload) {
        case None => error := INVALID;
        case Some(input) =>
          if input.0 !in nodeIdToResponse {
            nodeIdToResponse := nodeIdToResponse[input.0 := input.1];
          }
          error := SUCCESS;
      }
    }

    method HandleCompleted(errorCode: int)
      modifies this`results
      ensures Abs() == Spec.OnCompleted(old(Abs()), errorCode)
    {
      if errorCode != SUCCESS {
        results := results + [Spec.Failure(errorCode)];
        return;
      }
      results := results + [Spec.Success(nodeIdToResponse)];
    }
  }
}
