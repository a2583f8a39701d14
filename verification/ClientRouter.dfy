/** The SDK-side router as an object with mutable state (`client_router.cpp`).

    Every method is proved to change the abstract state exactly as the function of
    `ClientRouterSpec` with its name. `pipeError` and `handlerError` stand for what the
    pipe and the user's handler answer when they are called. */
module ClientRouter {
  import opened IpcTypes
  import Spec = ClientRouterSpec

  class Gateway {
    const tag: Tag
    var alive: bool
    var nextSequence: nat
    var completionErrorCode: int
    ghost var events: seq<Event>
    ghost var sent: seq<Item>

    constructor (tag: Tag)
      ensures this.tag == tag && Abs() == FreshView(None)
    {
      this.tag := tag;
      alive, nextSequence, completionErrorCode := true, 0, 0;
      events, sent := [], [];
    }

    ghost function Abs(): View
      reads this
    {
      View(None, alive, nextSequence, completionErrorCode, events, sent)
    }

    /** Calls the gateway's handler. */
    ghost method Event(e: Event)
      modifies this
      ensures Abs() == old(Abs()).Notified(e)
    {
      events := events + [e];
    }
  }

  class Router {
    var nextTag: Tag
    var isConnected: bool
    var mapOfGateways: map<Tag, Gateway>
    var greeting: set<Tag>
    var mourning: set<Tag>
    var outbox: seq<Frame>
    ghost var objects: map<Tag, Gateway>

    constructor ()
      ensures Valid() && Abs() == Spec.INITIAL
    {
      nextTag, isConnected := 0, false;
      mapOfGateways, greeting, mourning, outbox := map[], {}, {}, [];
      objects := map[];
    }

    ghost predicate Valid()
      reads this, objects.Values
    {
      && (forall t <- objects :: objects[t].tag == t && t < nextTag)
      && (forall t <- mapOfGateways :: t in objects && mapOfGateways[t] == objects[t])
      && greeting + mourning <= objects.Keys
    }

    ghost function Abs(): Spec.ClientState
      reads this, objects.Values
    {
      Spec.ClientState(nextTag, isConnected, mapOfGateways.Keys, AllViews(), greeting, mourning, outbox)
    }

    ghost function AllViews(): map<Tag, View>
      reads this, objects.Values
    {
      map t <- objects :: objects[t].Abs()
    }

    twostate lemma ViewsOnlyThis(g: Gateway)
      requires old(g.tag in objects && objects[g.tag] == g)
      requires forall t <- old(objects) :: old(objects)[t].tag == t
      requires unchanged(this)
      requires forall t <- objects :: objects[t] != g ==> unchanged(objects[t])
      ensures AllViews() == old(AllViews())[g.tag := g.Abs()]
    {
    }

    /** Changing the fields of one gateway changes its record and nothing else. */
    twostate lemma OnlyThis(g: Gateway)
      requires old(Valid()) && old(g.tag in objects && objects[g.tag] == g)
      requires unchanged(this)
      requires forall t <- objects :: objects[t] != g ==> unchanged(objects[t])
      ensures Valid()
      ensures Abs() == old(Abs()).Set(g.tag, g.Abs())
    {
      ViewsOnlyThis(g);
    }

    /** The user holds a pointer to `g`, so it exists and is a gateway of this router. */
    ghost predicate Owns(g: Gateway)
      reads this, g
    {
      g.tag in objects && objects[g.tag] == g && g.alive
    }

    method MakeGateway() returns (g: Gateway)
      requires Valid()
      modifies this
      ensures Valid() && Owns(g) && fresh(g) && g.tag == old(nextTag) && nextTag == old(nextTag) + 1
      ensures objects == old(objects)[g.tag := g]
      ensures Abs() == Spec.MakeGateway(old(Abs()))
    {
      ghost var views := AllViews();
      g := new Gateway(nextTag);
      nextTag := nextTag + 1;
      mapOfGateways := mapOfGateways[g.tag := g];
      objects := objects[g.tag := g];
      assert AllViews() == views[g.tag := FreshView(None)];
    }

    /** `ClientPipe::send`: all or nothing. */
    method PipeSend(f: Frame, pipeError: int) returns (error: int)
      requires Valid()
      modifies this`outbox
      ensures Valid() && error == pipeError
      ensures Abs() == old(Abs()).Emit(f, pipeError)
    {
      if pipeError == SUCCESS {
        outbox := outbox + [f];
      }
      error := pipeError;
    }

    method Send(g: Gateway, service: ServiceId, payload: Payload, pipeError: int) returns (error: int)
      requires Valid() && Owns(g)
      modifies this`outbox, g
      ensures Valid() && Owns(g)
      ensures Abs() == Spec.Send(old(Abs()), g.tag, service, payload, pipeError)
      ensures error == Spec.SendError(old(Abs()), g.tag, pipeError)
    {
      if !isConnected {
        return NOT_CONNECTED;
      }
      if g.tag !in mapOfGateways {
        return SHUTDOWN;
      }
      var message := ChannelMsg(g.tag, g.nextSequence, service, payload);
      g.nextSequence := g.nextSequence + 1;
      if pipeError == SUCCESS {
        g.sent := g.sent + [Item(message.sequence, payload)];
      }
      OnlyThis(g);
      assert g.Abs() == old(g.Abs()).AfterSend(payload, pipeError);
      assert old(Abs()).gateways[g.tag] == old(g.Abs());
      error := PipeSend(message, pipeError);
    }

    method Complete(g: Gateway, errorCode: int)
      requires Valid() && Owns(g)
      modifies g
      ensures Valid() && Owns(g)
      ensures Abs() == Spec.Complete(old(Abs()), g.tag, errorCode)
    {
      g.completionErrorCode := errorCode;
    }

    method Subscribe(g: Gateway)
      requires Valid() && Owns(g)
      modifies g
      ensures Valid() && Owns(g)
      ensures Abs() == Spec.Subscribe(old(Abs()), g.tag)
    {
      if isConnected && g.tag in mapOfGateways {
        mapOfGateways[g.tag].Event(Connected);
      }
    }

    /** The gateway's destructor and `onGatewayDisposal`. */
    method Dispose(g: Gateway, pipeError: int)
      requires Valid() && Owns(g)
      modifies this, g
      ensures Valid() && objects == old(objects)
      ensures Abs() == Spec.Dispose(old(Abs()), g.tag, pipeError)
    {
      g.alive := false;
      OnlyThis(g);
      var wasRegistered := g.tag in mapOfGateways;
      Unregister(g.tag);
      if wasRegistered && g.nextSequence > 0 && isConnected {
        var _ := PipeSend(ChannelEnd(g.tag, g.completionErrorCode), pipeError);
      }
    }

    method Unregister(t: Tag)
      requires Valid()
      modifies this`mapOfGateways
      ensures Valid() && Abs() == old(Abs()).(table := old(Abs()).table - {t})
    {
      mapOfGateways := mapOfGateways - {t};
      assert mapOfGateways.Keys == old(mapOfGateways).Keys - {t};
    }

    method HandlePipeConnected(pipeError: int) returns (error: int)
      requires Valid()
      modifies this`outbox
      ensures Valid() && error == pipeError
      ensures Abs() == Spec.PipeConnected(old(Abs()), pipeError)
    {
      error := PipeSend(HELLO, pipeError);
    }

    method HandlePipeMessage(f: Frame, handlerError: int) returns (error: int)
      requires Valid()
      modifies this, objects.Values
      ensures Valid() && objects == old(objects)
      ensures Abs() == Spec.Receive(old(Abs()), f)
      ensures error == Spec.ReceiveError(old(Abs()), f, handlerError)
    {
      match f {
        case Empty =>
          return INVALID;
        case Connect(_, _, _) =>
          HandleRouteConnect();
          return SUCCESS;
        case ChannelMsg(_, _, _, _) =>
          error := HandleRouteChannelMsg(f, handlerError);
        case ChannelEnd(_, _) =>
          error := HandleRouteChannelEnd(f, handlerError);
      }
    }

    /** Takes the snapshot of the gateways to greet; `Greet` is one turn of the loop over it. */
    method HandleRouteConnect()
      requires Valid()
      modifies this
      ensures Valid() && objects == old(objects)
      ensures Abs() == Spec.Receive(old(Abs()), HELLO)
    {
      if !isConnected {
        isConnected := true;
        greeting := set t | t in mapOfGateways && mapOfGateways[t].alive;
        assert greeting == Spec.Receive(old(Abs()), HELLO).greeting;
      }
    }

    method HandleRouteChannelMsg(f: Frame, handlerError: int) returns (error: int)
      requires Valid() && f.ChannelMsg?
      modifies objects.Values
      ensures Valid()
      ensures Abs() == Spec.Receive(old(Abs()), f)
      ensures error == Spec.ReceiveError(old(Abs()), f, handlerError)
    {
      if f.tag in mapOfGateways {
        var gateway := mapOfGateways[f.tag];
        if gateway.alive {
          gateway.Event(Message(f.sequence, f.payload));
          return handlerError;
        }
      }
      return SUCCESS;
    }

    method HandleRouteChannelEnd(f: Frame, handlerError: int) returns (error: int)
      requires Valid() && f.ChannelEnd?
      modifies this, objects.Values
      ensures Valid() && objects == old(objects)
      ensures Abs() == Spec.Receive(old(Abs()), f)
      ensures error == Spec.ReceiveError(old(Abs()), f, handlerError)
    {
      if f.tag in mapOfGateways {
        var gateway := mapOfGateways[f.tag];
        if gateway.alive {
          mapOfGateways := mapOfGateways - {f.tag};
          gateway.Event(Completed(f.error));
          return handlerError;
        }
      }
      return SUCCESS;
    }

    /** One turn of the greeting loop; the snapshot keeps the gateway alive. */
    method Greet(t: Tag)
      requires Valid() && t in greeting
      modifies this`greeting, objects[t]
      ensures Valid()
      ensures Abs() == Spec.Greet(old(Abs()), t)
    {
      greeting := greeting - {t};
      objects[t].Event(Connected);
    }

    /** One call that a handler makes while it runs; `users` is every pointer to a gateway. */
    method Perform(call: Spec.Call, held: set<Tag>, users: map<Tag, Gateway>) returns (users': map<Tag, Gateway>)
      requires Valid() && users == objects
      modifies this, objects.Values
      ensures Valid() && users' == objects && fresh(objects.Values - old(objects.Values))
      ensures Abs() == Spec.Called(old(Abs()), call, held)
    {
      users' := users;
      match call {
        case CallMake =>
          var g := MakeGateway();
          users' := users[g.tag := g];
        case CallSend(t, service, payload, e) =>
          if t in users && users[t].alive { var _ := Send(users[t], service, payload, e); }
        case CallComplete(t, error) =>
          if t in users && users[t].alive { Complete(users[t], error); }
        case CallSubscribe(t) =>
          if t in users && users[t].alive { Subscribe(users[t]); }
        case CallDispose(t, e) =>
          if t in users && users[t].alive && t !in held { Dispose(users[t], e); }
      }
    }

    /** All the calls of one handler. */
    method PerformAll(calls: seq<Spec.Call>, held: set<Tag>, users: map<Tag, Gateway>)
      returns (users': map<Tag, Gateway>)
      requires Valid() && users == objects
      modifies this, objects.Values
      ensures Valid() && users' == objects && fresh(objects.Values - old(objects.Values))
      ensures Abs() == Spec.AllCalled(old(Abs()), calls, held)
    {
      hide Spec.Called, Valid, Abs;
      users' := users;
      var i := 0;
      assert calls[..0] == [];
      while i < |calls|
        invariant 0 <= i <= |calls|
        invariant Valid() && users' == objects && fresh(objects.Values - old(objects.Values))
        invariant Abs() == Spec.AllCalled(old(Abs()), calls[..i], held)
      {
        users' := Perform(calls[i], held, users');
        assert calls[..i + 1][..i] == calls[..i];
        i := i + 1;
      }
      assert calls[..|calls|] == calls;
    }

    /** One turn, with what the handler does. */
    method GreetTurn(t: Tag, calls: seq<Spec.Call>, held: set<Tag>, users: map<Tag, Gateway>)
      returns (users': map<Tag, Gateway>)
      requires Valid() && users == objects && t in greeting
      modifies this, objects.Values
      ensures Valid() && users' == objects && fresh(objects.Values - old(objects.Values))
      ensures t in old(Abs()).greeting && t in old(Abs()).gateways && greeting == old(greeting) - {t}
      ensures Abs() == Spec.AllCalled(Spec.Greet(old(Abs()), t), calls, held)
    {
      hide Spec.AllCalled;
      Greet(t);
      Spec.CallsKeep(Abs(), calls, held);
      users' := PerformAll(calls, held, users);
    }

    /** The whole loop, in some order; the handler of `t` makes the calls `reactions[t]`. Then
        the snapshot goes, and with it the gateways to which it held the last pointers. */
    method GreetAll(reactions: map<Tag, seq<Spec.Call>>, releases: seq<Spec.Call>, pointers: map<Tag, Gateway>)
      returns (ghost order: seq<Tag>)
      requires Valid() && pointers == objects
      requires forall call <- releases :: call.CallDispose? && call.t in greeting
      modifies this, objects.Values
      ensures Valid() && greeting == {}
      ensures Spec.Once(order) && (set t | t in order) == old(greeting)
      ensures Abs() == Spec.AllCalled(Spec.GreetLoop(old(Abs()), order, reactions), releases, {})
    {
      hide Spec.Greet, Spec.AllCalled, Spec.CallsOf, Spec.GreetLoop, Valid, Abs;
      order := [];
      var held, users := greeting, pointers;
      GreetingIs();
      Spec.NoTurns(Abs(), reactions);
      while greeting != {}
        invariant Valid() && users == objects && fresh(objects.Values - old(objects.Values))
        invariant Spec.Once(order) && greeting !! (set t | t in order)
        invariant (set t | t in order) + greeting == old(greeting)
        invariant Abs() == Spec.GreetLoop(old(Abs()), order, reactions)
        decreases greeting
      {
        var t :| t in greeting;
        ghost var left := greeting;
        users := GreetTurn(t, Spec.CallsOf(reactions, t), held, users);
        Spec.OneGreetTurn(old(Abs()), order, reactions, t);
        Spec.OneMoreTurn(order, left, t);
        order := order + [t];
      }
      GreetingIs();
      Spec.CallsKeep(Abs(), releases, {});
      users := PerformAll(releases, {}, users);
      GreetingIs();
    }

    lemma GreetingIs()
      requires Valid()
      ensures Abs().greeting == greeting
    {
    }

    /** Forgets all gateways; `Mourn` is one turn of the loop over those that were known. */
    method HandlePipeDisconnected()
      requires Valid()
      modifies this
      ensures Valid() && objects == old(objects)
      ensures Abs() == Spec.PipeDisconnected(old(Abs()))
    {
      if isConnected {
        isConnected := false;
        mourning := mapOfGateways.Keys;
        mapOfGateways := map[];
      }
    }

    method Mourn(t: Tag)
      requires Valid() && t in mourning
      modifies this`mourning, objects[t]
      ensures Valid()
      ensures Abs() == Spec.Mourn(old(Abs()), t)
    {
      mourning := mourning - {t};
      ghost var gateway := objects[t];
      if gateway.alive {
        Tell(t, Completed(DISCONNECTED));
      }
    }

    /** Calls the handler of one gateway. */
    ghost method Tell(t: Tag, e: Event)
      requires Valid() && t in objects
      modifies objects[t]
      ensures Valid() && old(Abs()).gateways[t] == old(objects[t].Abs())
      ensures Abs() == old(Abs()).Set(t, old(objects[t].Abs()).Notified(e))
    {
      objects[t].Event(e);
      OnlyThis(objects[t]);
    }

    /** One turn; only a gateway that still exists has a handler to call. */
    method MournTurn(t: Tag, reactions: map<Tag, seq<Spec.Call>>, users: map<Tag, Gateway>)
      returns (users': map<Tag, Gateway>)
      requires Valid() && users == objects && t in mourning
      modifies this, objects.Values
      ensures Valid() && users' == objects && fresh(objects.Values - old(objects.Values))
      ensures t in old(Abs()).mourning && t in old(Abs()).gateways && mourning == old(mourning) - {t}
      ensures Abs() == Spec.AllCalled(Spec.Mourn(old(Abs()), t), Spec.MournCalls(old(Abs()), reactions, t), {})
    {
      hide Spec.AllCalled, Spec.CallsOf;
      var calls := if users[t].alive then Spec.CallsOf(reactions, t) else [];
      Mourn(t);
      Spec.CallsKeep(Abs(), calls, {});
      users' := PerformAll(calls, {}, users);
    }

    /** The whole loop, in some order, with what the handlers do. */
    method MournAll(reactions: map<Tag, seq<Spec.Call>>, pointers: map<Tag, Gateway>) returns (ghost order: seq<Tag>)
      requires Valid() && pointers == objects
      modifies this, objects.Values
      ensures Valid() && mourning == {}
      ensures Spec.Once(order) && (set t | t in order) == old(mourning)
      ensures Abs() == Spec.MournLoop(old(Abs()), order, reactions)
    {
      hide Spec.Mourn, Spec.MournCalls, Spec.AllCalled, Spec.MournLoop, Valid, Abs;
      order := [];
      var users := pointers;
      Spec.NoTurns(Abs(), reactions);
      while mourning != {}
        invariant Valid() && users == objects && fresh(objects.Values - old(objects.Values))
        invariant Spec.Once(order) && mourning !! (set t | t in order)
        invariant (set t | t in order) + mourning == old(mourning)
        invariant Abs() == Spec.MournLoop(old(Abs()), order, reactions)
        decreases mourning
      {
        var t :| t in mourning;
        ghost var left := mourning;
        users := MournTurn(t, reactions, users);
        Spec.OneMournTurn(old(Abs()), order, reactions, t);
        Spec.OneMoreTurn(order, left, t);
        order := order + [t];
      }
    }
  }
}
