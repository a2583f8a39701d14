/** The two ends of the pipe as objects: which connections exist, and which events their
    users are given (`pipe/socket_server.cpp`, `pipe/socket_client.cpp`).

    A connection's reading state is a `Framing.Reader`; the bytes that have arrived and what
    the system calls give are parameters. `log` is every event the user's handler got. */
module PipeEvents {
  import opened IpcTypes
  import F = Framing

  datatype PipeEvent = Up(client: ClientId) | Got(client: ClientId, payload: Payload) | Down(client: ClientId)

  function OfClient(log: seq<PipeEvent>, c: ClientId): seq<PipeEvent> {
    if log == [] then []
    else OfClient(log[..|log| - 1], c) + (if log[|log| - 1].client == c then [log[|log| - 1]] else [])
  }

  function Received(c: ClientId, payloads: seq<Payload>): seq<PipeEvent> {
    if payloads == [] then [] else Received(c, payloads[..|payloads| - 1]) + [Got(c, payloads[|payloads| - 1])]
  }

  lemma OfClientAppend(log: seq<PipeEvent>, e: PipeEvent, c: ClientId)
    ensures OfClient(log + [e], c) == OfClient(log, c) + (if e.client == c then [e] else [])
  {
    assert (log + [e])[..|log|] == log;
  }

  lemma ReceivedAppend(c: ClientId, payloads: seq<Payload>, p: Payload)
    ensures Received(c, payloads + [p]) == Received(c, payloads) + [Got(c, p)]
  {
    assert (payloads + [p])[..|payloads|] == payloads;
  }

  /** What one readable event did, and the one message it handed on, if any. */
  lemma ReceiveDelivers(r: F.Reader, stream: Payload, turn: F.Turn)
    requires F.TurnPossible(r, stream, turn)
    ensures var r' := F.Receive(r, stream, turn).0;
            r'.delivered == r.delivered ||
            (|r'.delivered| == |r.delivered| + 1 && r'.delivered[..|r.delivered|] == r.delivered)
  {
  }

  class SocketServer {
    var uniqueClientIdCounter: nat
    var clientIdToContext: map<ClientId, F.Reader>
    ghost var log: seq<PipeEvent>
    ghost var gone: map<ClientId, seq<Payload>>

    constructor ()
      ensures Valid() && uniqueClientIdCounter == 0 && log == []
    {
      uniqueClientIdCounter, clientIdToContext, log, gone := 0, map[], [], map[];
    }

    /** The events of each client: up, the messages read from it in order, and down once its
        context is gone; an id that was given out is never given out again. */
    ghost predicate Valid()
      reads this
    {
      && clientIdToContext.Keys !! gone.Keys
      && (forall c :: c in clientIdToContext || c in gone <==> 0 < c <= uniqueClientIdCounter)
      && (forall c :: c in clientIdToContext ==>
            OfClient(log, c) == [Up(c)] + Received(c, clientIdToContext[c].delivered))
      && (forall c :: c in gone ==> OfClient(log, c) == [Up(c)] + Received(c, gone[c]) + [Down(c)])
      && (forall c: ClientId :: c == 0 || c > uniqueClientIdCounter ==> OfClient(log, c) == [])
    }

    ghost method Notify(e: PipeEvent)
      modifies this`log
      ensures log == old(log) + [e]
      ensures forall c :: OfClient(log, c) == OfClient(old(log), c) + (if e.client == c then [e] else [])
    {
      forall c ensures OfClient(log + [e], c) == OfClient(log, c) + (if e.client == c then [e] else []) {
        OfClientAppend(log, e, c);
      }
      log := log + [e];
    }

    method HandleAccept() returns (c: ClientId)
      requires Valid()
      modifies this
      ensures Valid() && c == old(uniqueClientIdCounter) + 1 && uniqueClientIdCounter == c
      ensures clientIdToContext == old(clientIdToContext)[c := F.START] && gone == old(gone)
      ensures log == old(log) + [Up(c)]
    {
      uniqueClientIdCounter := uniqueClientIdCounter + 1;
      c := uniqueClientIdCounter;
      clientIdToContext := clientIdToContext[c := F.START];
      Notify(Up(c));
    }

    /** The context's state moves on; a message that is complete goes to the user. */
    method Deliver(c: ClientId, r: F.Reader)
      requires Valid() && c in clientIdToContext
      requires var before := clientIdToContext[c].delivered;
               r.delivered == before || (|r.delivered| == |before| + 1 && r.delivered[..|before|] == before)
      modifies this`clientIdToContext, this`log
      ensures Valid() && clientIdToContext == old(clientIdToContext)[c := r]
    {
      hide Received, OfClient;
      var before := clientIdToContext[c].delivered;
      clientIdToContext := clientIdToContext[c := r];
      if |r.delivered| > |before| {
        var message := r.delivered[|before|];
        assert r.delivered == before + [message];
        ReceivedAppend(c, before, message);
        Notify(Got(c, message));
        assert [Up(c)] + Received(c, before) + [Got(c, message)] == [Up(c)] + Received(c, r.delivered);
      }
    }

    method Erase(c: ClientId)
      requires Valid() && c in clientIdToContext
      modifies this`clientIdToContext, this`log, this`gone
      ensures Valid() && clientIdToContext == old(clientIdToContext) - {c}
      ensures gone == old(gone)[c := old(clientIdToContext)[c].delivered]
    {
      hide Received, OfClient;
      gone := gone[c := clientIdToContext[c].delivered];
      clientIdToContext := clientIdToContext - {c};
      Notify(Down(c));
    }

    /** An error, the end of the stream included, erases the context before it is announced. */
    method HandleClientRequest(c: ClientId, stream: Payload, turn: F.Turn)
      requires Valid() && c in clientIdToContext && F.TurnPossible(clientIdToContext[c], stream, turn)
      modifies this`clientIdToContext, this`log, this`gone
      ensures Valid()
      ensures var (r, error) := F.Receive(old(clientIdToContext[c]), stream, turn);
              && clientIdToContext == (if error == SUCCESS then old(clientIdToContext)[c := r]
                   else old(clientIdToContext) - {c})
              && gone == (if error == SUCCESS then old(gone) else old(gone)[c := r.delivered])
    {
      hide F.Receive, Valid;
      var (r, error) := F.Receive(clientIdToContext[c], stream, turn);
      ReceiveDelivers(clientIdToContext[c], stream, turn);
      Deliver(c, r);
      if error != SUCCESS {
        Erase(c);
        assert clientIdToContext == old(clientIdToContext) - {c};
      }
    }

    /** A client that is not connected is an error; the pipe of any other is not touched. */
    method Send(c: ClientId, pipes: map<ClientId, F.Stream>, fragments: seq<Payload>, errors: seq<int>)
      returns (error: int)
      requires Valid() && clientIdToContext.Keys <= pipes.Keys && |errors| == |fragments| + 1
      modifies if c in clientIdToContext then {pipes[c]} else {}
      ensures c !in clientIdToContext ==> error == INVALID
      ensures c in clientIdToContext ==>
                && pipes[c].bytes == old(pipes[c].bytes) + F.Written(fragments, errors)
                && error == (if F.Succeed(errors) == |errors| then SUCCESS else errors[F.Succeed(errors)])
    {
      if c in clientIdToContext {
        error := F.Send(pipes[c], fragments, errors);
      } else {
        error := INVALID;
      }
    }
  }

  datatype Callback = NoCallback | OnWritable | OnReadable

  /** The SDK's end; its one connection is client 0 of its own log. */
  class SocketClient {
    var state: F.Reader
    var socketCallback: Callback
    ghost var log: seq<PipeEvent>
    ghost var connected: bool

    constructor ()
      ensures Valid() && socketCallback == OnWritable && log == []
    {
      state, socketCallback, log, connected := F.START, OnWritable, [], false;
    }

    /** Connecting: no event yet. Reading: up, then the messages. Closed: down is the last
        event, and up came before it only if the connection was made. */
    ghost predicate Valid()
      reads this
    {
      && (socketCallback.OnWritable? ==> log == [] && !connected && state == F.START)
      && (socketCallback.OnReadable? ==> connected && log == [Up(0)] + Received(0, state.delivered))
      && (socketCallback.NoCallback? ==>
            log == if connected then [Up(0)] + Received(0, state.delivered) + [Down(0)] else [Down(0)])
    }

    method HandleConnect(socketError: int)
      requires Valid() && socketCallback.OnWritable?
      modifies this
      ensures Valid() && (socketError == SUCCESS ==> socketCallback.OnReadable? && log == [Up(0)])
      ensures socketError != SUCCESS ==> socketCallback.NoCallback? && log == [Down(0)]
    {
      socketCallback := NoCallback;
      if socketError != SUCCESS {
        HandleDisconnect();
        return;
      }
      socketCallback := OnReadable;
      state := state.(phase := F.AtHeader);
      connected := true;
      log := log + [Up(0)];
    }

    method HandleReceive(stream: Payload, turn: F.Turn)
      requires Valid() && socketCallback.OnReadable? && F.TurnPossible(state, stream, turn)
      modifies this
      ensures Valid() && old(log) <= log
      ensures state.delivered == F.Receive(old(state), stream, turn).0.delivered
      ensures socketCallback.NoCallback? <==> F.Receive(old(state), stream, turn).1 != SUCCESS
    {
      hide F.Receive;
      var before := state;
      var (r, error) := F.Receive(before, stream, turn);
      ReceiveDelivers(before, stream, turn);
      state := r;
      if |r.delivered| > |before.delivered| {
        ghost var message := r.delivered[|before.delivered|];
        assert r.delivered == before.delivered + [message];
        ReceivedAppend(0, before.delivered, message);
        log := log + [Got(0, message)];
      }
      if error != SUCCESS { HandleDisconnect(); }
    }

    /** The callback goes before the descriptor is closed, and the event comes last. */
    method HandleDisconnect()
      modifies this
      ensures socketCallback.NoCallback? && log == old(log) + [Down(0)]
      ensures state == old(state).(phase := F.AtHeader) && connected == old(connected)
    {
      socketCallback := NoCallback;
      state := state.(phase := F.AtHeader);
      log := log + [Down(0)];
    }
  }
}
