/** The daemon-side router as an object with mutable state (`server_router.cpp`).

    Every method is proved to change the abstract state exactly as the function of
    `ServerRouterSpec` with its name. `pipeError` and `handlerError` stand for what the
    pipe and the user's handler answer when they are called. */
module ServerRouter {
  import opened IpcTypes
  import Spec = ServerRouterSpec

  class Gateway {
    const endpoint: Spec.Endpoint
    ghost const ordinal: nat
    const opening: Opening
    var alive: bool
    var nextSequence: nat
    var completionErrorCode: int
    ghost var events: seq<Event>
    ghost var sent: seq<Item>

    constructor (endpoint: Spec.Endpoint, ghost ordinal: nat, opening: Opening)
      ensures this.endpoint == endpoint && this.ordinal == ordinal
      ensures Abs() == FreshView(Some(opening))
    {
      this.endpoint, this.opening := endpoint, opening;
      this.ordinal := ordinal;
      alive, nextSequence, completionErrorCode := true, 0, 0;
      events, sent := [], [];
    }

    ghost function Abs(): View
      reads this
    {
      View(Some(opening), alive, nextSequence, completionErrorCode, events, sent)
    }

    ghost function Name(): Spec.Ref {
      Spec.Ref(endpoint, ordinal)
    }

    /** Calls the gateway's handler. */
    ghost method Event(e: Event)
      modifies this
      ensures Abs() == old(Abs()).Notified(e)
    {
      events := events + [e];
    }
  }

  class Router {
    var services: set<ServiceId>
    var clientIdToMapOfGateways: map<ClientId, map<Tag, Gateway>>
    var mourning: set<Gateway>
    var outbox: map<ClientId, seq<Frame>>
    ghost var objects: map<Spec.Endpoint, seq<Gateway>>
    ghost var repr: set<Gateway>

    constructor ()
      ensures Valid() && fresh(repr)
      ensures Abs() == Spec.ServerState({}, map[], map[], {}, map[])
    {
      services, clientIdToMapOfGateways, mourning, outbox := {}, map[], {}, map[];
      objects, repr := map[], {};
    }

    /** `g` is one of the gateways this router created. */
    ghost predicate Knows(g: Gateway)
      reads this
    {
      && g in repr && g.endpoint in objects
      && g.ordinal < |objects[g.endpoint]| && objects[g.endpoint][g.ordinal] == g
    }

    ghost predicate Valid()
      reads this, repr
    {
      && (forall g <- repr :: Knows(g))
      && (forall e <- objects :: forall i :: 0 <= i < |objects[e]| ==>
            objects[e][i] in repr && objects[e][i].endpoint == e && objects[e][i].ordinal == i)
      && (forall c <- clientIdToMapOfGateways :: forall t <- clientIdToMapOfGateways[c] ::
            && clientIdToMapOfGateways[c][t] in repr
            && clientIdToMapOfGateways[c][t].endpoint == Spec.Endpoint(t, c))
      && mourning <= repr
    }

    ghost function AllViews(): map<Spec.Endpoint, seq<View>>
      requires Valid()
      reads this, repr
    {
      map e <- objects :: Views(objects[e])
    }

    ghost function Abs(): Spec.ServerState
      requires Valid()
      reads this, repr
    {
      Spec.ServerState(services, Tables(clientIdToMapOfGateways), AllViews(), Names(mourning), outbox)
    }

    /** The user holds a pointer to `g`. */
    ghost predicate Owns(g: Gateway)
      reads this, g
    {
      g in repr && g.alive
    }

    /** Changing the fields of one gateway changes its record and nothing else. */
    twostate lemma OnlyThis(g: Gateway)
      requires old(Valid()) && g in old(repr)
      requires unchanged(this)
      requires forall h <- repr :: h != g ==> unchanged(h)
      ensures Valid()
      ensures old(Abs()).Exists(g.Name())
      ensures Abs() == old(Abs()).Set(g.Name(), g.Abs())
    {
      assert old(Knows(g));
      forall e <- objects
        ensures Views(objects[e]) ==
                if e == g.endpoint then old(Views(objects[e]))[g.ordinal := g.Abs()] else old(Views(objects[e]))
      {
        forall i | 0 <= i < |objects[e]| && objects[e][i] != g
          ensures objects[e][i].Abs() == old(objects[e][i].Abs())
        {
          assert objects[e][i] in repr;
        }
        assert Views(objects[e]) ==
               if e == g.endpoint then old(Views(objects[e]))[g.ordinal := g.Abs()] else old(Views(objects[e]));
      }
      assert AllViews() == old(AllViews())[g.endpoint := old(AllViews())[g.endpoint][g.ordinal := g.Abs()]];
    }

    lemma Named(g: Gateway)
      requires Valid() && g in repr
      ensures Abs().Exists(g.Name()) && Abs().At(g.Name()) == g.Abs()
      ensures Abs().Usable(g.Name()) <==> g.alive
    {
      assert Knows(g);
    }

    lemma Looked(e: Spec.Endpoint)
      requires Valid()
      ensures e.clientId in clientIdToMapOfGateways && e.tag in clientIdToMapOfGateways[e.clientId] ==>
                && Abs().Registered(e) == Some(clientIdToMapOfGateways[e.clientId][e.tag].ordinal)
                && clientIdToMapOfGateways[e.clientId][e.tag].Name() == Spec.Ref(e, Abs().Registered(e).value)
      ensures !(e.clientId in clientIdToMapOfGateways && e.tag in clientIdToMapOfGateways[e.clientId]) ==>
                Abs().Registered(e) == None
      ensures Abs().Routed(e.clientId) <==> e.clientId in clientIdToMapOfGateways
    {
    }

    method RegisterChannelFactory(service: ServiceId)
      requires Valid()
      modifies this`services
      ensures Valid() && Abs() == old(Abs()).(services := old(Abs()).services + {service})
    {
      services := services + {service};
    }

    /** `ServerPipe::send`: all or nothing. */
    method PipeSend(c: ClientId, f: Frame, pipeError: int) returns (error: int)
      requires Valid()
      modifies this`outbox
      ensures Valid() && error == pipeError
      ensures Abs() == old(Abs()).Emit(c, f, pipeError)
    {
      if pipeError == SUCCESS {
        outbox := outbox[c := (if c in outbox then outbox[c] else []) + [f]];
      }
      error := pipeError;
    }

    method Unregister(c: ClientId, t: Tag)
      requires Valid() && c in clientIdToMapOfGateways
      modifies this`clientIdToMapOfGateways
      ensures Valid() && Abs() == old(Abs()).Unregister(Spec.Endpoint(t, c))
    {
      var table: map<Tag, Gateway> := clientIdToMapOfGateways[c] - {t};
      RowWithout(clientIdToMapOfGateways[c], t);
      TablesUpdated(clientIdToMapOfGateways, c, table);
      clientIdToMapOfGateways := clientIdToMapOfGateways[c := table];
    }

    method Send(g: Gateway, service: ServiceId, payload: Payload, pipeError: int) returns (error: int)
      requires Valid() && Owns(g)
      modifies this`outbox, g
      ensures Valid() && old(Abs()).Usable(g.Name())
      ensures Abs() == Spec.Send(old(Abs()), g.Name(), service, payload, pipeError)
      ensures error == Spec.SendError(old(Abs()), g.Name(), pipeError)
    {
      hide Valid, Abs;
      Named(g);
      Looked(g.endpoint);
      if g.endpoint.clientId !in clientIdToMapOfGateways {
        return NOT_CONNECTED;
      }
      if g.endpoint.tag !in clientIdToMapOfGateways[g.endpoint.clientId] {
        return SHUTDOWN;
      }
      var message := ChannelMsg(g.endpoint.tag, g.nextSequence, service, payload);
      g.nextSequence := g.nextSequence + 1;
      if pipeError == SUCCESS {
        g.sent := g.sent + [Item(message.sequence, payload)];
      }
      OnlyThis(g);
      assert g.Abs() == old(g.Abs()).AfterSend(payload, pipeError);
      error := PipeSend(g.endpoint.clientId, message, pipeError);
    }

    method Complete(g: Gateway, errorCode: int)
      requires Valid() && Owns(g)
      modifies g
      ensures Valid() && Owns(g) && old(Abs()).Usable(g.Name())
      ensures Abs() == Spec.Complete(old(Abs()), g.Name(), errorCode)
    {
      Named(g);
      g.completionErrorCode := errorCode;
      OnlyThis(g);
    }

    method Subscribe(g: Gateway)
      requires Valid() && Owns(g)
      modifies repr
      ensures Valid() && old(Abs()).Usable(g.Name())
      ensures Abs() == Spec.Subscribe(old(Abs()), g.Name())
    {
      Named(g);
      Looked(g.endpoint);
      var c := g.endpoint.clientId;
      if c in clientIdToMapOfGateways && g.endpoint.tag in clientIdToMapOfGateways[c] {
        var gateway := clientIdToMapOfGateways[c][g.endpoint.tag];
        Named(gateway);
        if gateway.alive {
          gateway.Event(Connected);
          OnlyThis(gateway);
        }
      }
    }

    /** The gateway's destructor and `onGatewayDisposal`. */
    method Dispose(g: Gateway, pipeError: int)
      requires Valid() && Owns(g)
      modifies this`clientIdToMapOfGateways, this`outbox, g
      ensures Valid() && old(Abs()).Usable(g.Name())
      ensures Abs() == Spec.Dispose(old(Abs()), g.Name(), pipeError)
    {
      hide Valid, Abs;
      Named(g);
      Looked(g.endpoint);
      g.alive := false;
      OnlyThis(g);
      var c := g.endpoint.clientId;
      if c in clientIdToMapOfGateways {
        var wasRegistered := g.endpoint.tag in clientIdToMapOfGateways[c];
        if wasRegistered {
          Unregister(c, g.endpoint.tag);
          var _ := PipeSend(c, ChannelEnd(g.endpoint.tag, g.completionErrorCode), pipeError);
        }
      }
    }

    method AddRow(c: ClientId)
      requires Valid() && c !in clientIdToMapOfGateways
      modifies this`clientIdToMapOfGateways
      ensures Valid() && Abs() == old(Abs()).(tables := old(Abs()).tables[c := map[]])
    {
      TablesUpdated(clientIdToMapOfGateways, c, map[]);
      clientIdToMapOfGateways := clientIdToMapOfGateways[c := map[]];
    }

    method HandleRouteConnect(c: ClientId, pipeError: int) returns (error: int)
      requires Valid()
      modifies this
      ensures Valid() && repr == old(repr) && error == pipeError
      ensures Abs() == Spec.ReceiveConnect(old(Abs()), c, pipeError)
    {
      error := PipeSend(c, HELLO, pipeError);
      if error == SUCCESS && c !in clientIdToMapOfGateways { AddRow(c); }
    }

    /** `created` is the gateway handed to the channel factory, if this message opens one. */
    method HandleRouteChannelMsg(c: ClientId, f: Frame, handlerError: int)
      returns (error: int, created: Gateway?)
      requires Valid() && f.ChannelMsg?
      modifies this, repr
      ensures Valid() && old(repr) <= repr && fresh(repr - old(repr))
      ensures Abs() == Spec.ReceiveMsg(old(Abs()), c, f)
      ensures error == Spec.ReceiveError(old(Abs()), c, f, handlerError, SUCCESS)
      ensures created != null <==> Spec.Opens(old(Abs()), c, f)
      ensures created != null ==>
                && fresh(created) && Owns(created) && created.opening == Opening(f.service, f.payload)
                && created.endpoint == Spec.Endpoint(f.tag, c)
    {
      ghost var e := Spec.Endpoint(f.tag, c);
      Looked(e);
      created := null;
      if c in clientIdToMapOfGateways {
        if f.tag in clientIdToMapOfGateways[c] {
          var gateway := clientIdToMapOfGateways[c][f.tag];
          Named(gateway);
          if gateway.alive {
            gateway.Event(Message(f.sequence, f.payload));
            OnlyThis(gateway);
            return handlerError, null;
          }
        }
        if f.sequence == 0 && f.service in services {
          created := Open(c, f);
        }
      }
      error := SUCCESS;
    }

    method Open(c: ClientId, f: Frame) returns (g: Gateway)
      requires Valid() && f.ChannelMsg? && c in clientIdToMapOfGateways
      modifies this
      ensures Valid() && repr == old(repr) + {g} && fresh(g) && Owns(g)
      ensures g.opening == Opening(f.service, f.payload) && g.endpoint == Spec.Endpoint(f.tag, c)
      ensures var e := Spec.Endpoint(f.tag, c);
              var before := old(Abs());
              Abs() == before.(
                objects := before.objects[e := before.Objects(e) + [FreshView(Some(g.opening))]],
                tables := before.tables[c := Spec.Named(before.tables[c], f.tag, |before.Objects(e)|)])
    {
      hide Valid, Abs, Owns;
      var e := Spec.Endpoint(f.tag, c);
      Looked(e);
      g := new Gateway(e, if e in objects then |objects[e]| else 0, Opening(f.service, f.payload));
      Adopt(g);
      Register(g);
      IsOwned(g);
    }

    lemma IsOwned(g: Gateway)
      requires g in repr && g.alive
      ensures Owns(g)
    {
    }

    ghost method Adopt(g: Gateway)
      requires Valid() && g !in repr
      requires g.ordinal == if g.endpoint in objects then |objects[g.endpoint]| else 0
      modifies this`objects, this`repr
      ensures Valid() && repr == old(repr) + {g}
      ensures g.ordinal == |old(Abs()).Objects(g.endpoint)|
      ensures Abs() == old(Abs()).(objects :=
                old(Abs()).objects[g.endpoint := old(Abs()).Objects(g.endpoint) + [g.Abs()]])
    {
      var peers := if g.endpoint in objects then objects[g.endpoint] else [];
      objects := objects[g.endpoint := peers + [g]];
      repr := repr + {g};
      ViewsGrow(g);
      hide AllViews;
    }

    twostate lemma ViewsGrow(g: Gateway)
      requires old(Valid()) && Valid() && old(allocated(g))
      requires var peers := if g.endpoint in old(objects) then old(objects)[g.endpoint] else [];
               objects == old(objects)[g.endpoint := peers + [g]]
      requires unchanged(old(repr)) && unchanged(g)
      ensures AllViews() == old(AllViews())[g.endpoint := old(Abs()).Objects(g.endpoint) + [g.Abs()]]
    {
      var e := g.endpoint;
      forall d | d in old(objects) ensures Views(old(objects)[d]) == old(Views(objects[d])) {
        SameViews(d);
      }
      assert Views(objects[e]) == old(Abs()).Objects(e) + [g.Abs()];
    }

    twostate lemma SameViews(d: Spec.Endpoint)
      requires old(Valid()) && unchanged(old(repr)) && d in old(objects)
      ensures Views(old(objects)[d]) == old(Views(objects[d]))
    {
      assert forall i :: 0 <= i < |old(objects)[d]| ==> old(objects)[d][i] in old(repr);
    }

    method Register(g: Gateway)
      requires Valid() && g in repr && g.endpoint.clientId in clientIdToMapOfGateways
      modifies this`clientIdToMapOfGateways
      ensures Valid()
      ensures var c := g.endpoint.clientId;
              Abs() == old(Abs()).(tables :=
                old(Abs()).tables[c := Spec.Named(old(Abs()).tables[c], g.endpoint.tag, g.ordinal)])
    {
      var c := g.endpoint.clientId;
      var table: map<Tag, Gateway> := Extended(clientIdToMapOfGateways[c], g.endpoint.tag, g);
      TablesUpdated(clientIdToMapOfGateways, c, table);
      RowExtended(clientIdToMapOfGateways[c], g.endpoint.tag, g);
      hide Row, Spec.Named;
      clientIdToMapOfGateways := clientIdToMapOfGateways[c := table];
    }

    method HandleRouteChannelEnd(c: ClientId, f: Frame, handlerError: int) returns (error: int)
      requires Valid() && f.ChannelEnd?
      modifies this, repr
      ensures Valid() && repr == old(repr)
      ensures Abs() == Spec.ReceiveEnd(old(Abs()), c, f)
      ensures error == Spec.ReceiveError(old(Abs()), c, f, handlerError, SUCCESS)
    {
      ghost var e := Spec.Endpoint(f.tag, c);
      Looked(e);
      if c in clientIdToMapOfGateways && f.tag in clientIdToMapOfGateways[c] {
        var gateway := clientIdToMapOfGateways[c][f.tag];
        Named(gateway);
        if gateway.alive {
          Unregister(c, f.tag);
          Tell(gateway, Completed(f.error));
          return handlerError;
        }
      }
      error := SUCCESS;
    }

    /** Calls the handler of one gateway. */
    ghost method Tell(g: Gateway, e: Event)
      requires Valid() && g in repr
      modifies g
      ensures Valid() && old(Abs()).Exists(g.Name())
      ensures g.Abs() == old(g.Abs()).Notified(e)
      ensures old(Abs()).At(g.Name()) == old(g.Abs())
      ensures Abs() == old(Abs()).Set(g.Name(), old(Abs()).At(g.Name()).Notified(e))
    {
      Named(g);
      g.Event(e);
      OnlyThis(g);
    }

    method HandlePipeMessage(c: ClientId, f: Frame, handlerError: int, pipeError: int)
      returns (error: int, created: Gateway?)
      requires Valid()
      modifies this, repr
      ensures Valid() && old(repr) <= repr && fresh(repr - old(repr))
      ensures Abs() == Spec.Receive(old(Abs()), c, f, pipeError)
      ensures error == Spec.ReceiveError(old(Abs()), c, f, handlerError, pipeError)
      ensures created != null <==> Spec.Opens(old(Abs()), c, f)
      ensures created != null ==>
                && fresh(created) && Owns(created) && created.opening == Opening(f.service, f.payload)
                && created.endpoint == Spec.Endpoint(f.tag, c)
    {
      created := null;
      match f {
        case Empty =>
          error := INVALID;
        case Connect(_, _, _) =>
          error := HandleRouteConnect(c, pipeError);
        case ChannelMsg(_, _, _, _) =>
          error, created := HandleRouteChannelMsg(c, f, handlerError);
        case ChannelEnd(_, _) =>
          error := HandleRouteChannelEnd(c, f, handlerError);
      }
    }

    /** Forgets the client's gateways; `Mourn` is one turn of the loop over them. */
    method HandlePipeDisconnected(c: ClientId)
      requires Valid()
      modifies this
      ensures Valid() && repr == old(repr)
      ensures Abs() == Spec.PipeDisconnected(old(Abs()), c)
    {
      if c in clientIdToMapOfGateways {
        hide Valid, Abs;
        NoticeAll(c);
        DropRow(c);
      }
    }

    /** All gateways of this client are due to be told. */
    method NoticeAll(c: ClientId)
      requires Valid() && c in clientIdToMapOfGateways
      modifies this`mourning
      ensures Valid() && old(Abs()).Routed(c) && c in old(Abs()).tables
      ensures Abs() == old(Abs()).(mourning := old(Abs()).mourning +
                set t | t in old(Abs()).tables[c] :: Spec.Ref(Spec.Endpoint(t, c), old(Abs()).tables[c][t]))
    {
      var table := clientIdToMapOfGateways[c];
      mourning := mourning + set t | t in table :: table[t];
      RowNames(table, c);
      NamesJoin(old(mourning), set t | t in table :: table[t]);
    }

    method DropRow(c: ClientId)
      requires Valid() && c in clientIdToMapOfGateways
      modifies this`clientIdToMapOfGateways
      ensures Valid() && Abs() == old(Abs()).(tables := old(Abs()).tables - {c})
    {
      clientIdToMapOfGateways := clientIdToMapOfGateways - {c};
      TablesWithout(old(clientIdToMapOfGateways), c);
    }

    method Mourn(g: Gateway)
      requires Valid() && g in mourning
      modifies this`mourning, g
      ensures Valid() && g.Name() in old(Abs()).mourning && mourning == old(mourning) - {g}
      ensures Abs() == Spec.Mourn(old(Abs()), g.Name())
    {
      Named(g);
      Spare(g);
      if g.alive {
        Tell(g, Completed(DISCONNECTED));
      }
    }

    /** One gateway is no longer due. */
    method Spare(g: Gateway)
      requires Valid() && g in mourning
      modifies this`mourning
      ensures Valid() && mourning == old(mourning) - {g} && g.Name() in old(Abs()).mourning
      ensures Abs() == old(Abs()).(mourning := old(Abs()).mourning - {g.Name()})
    {
      mourning := mourning - {g};
      assert Names(mourning) == old(Names(mourning)) - {g.Name()} by {
        forall h | h in mourning ensures h.Name() != g.Name() { assert Knows(h) && Knows(g); }
      }
    }

    /** Pointers to all gateways, by name. */
    ghost predicate PointersTo(users: map<Spec.Ref, Gateway>)
      reads this
    {
      && (forall n <- users :: users[n] in repr && users[n].Name() == n)
      && (forall g <- repr :: g.Name() in users && users[g.Name()] == g)
    }

    /** One call that a handler makes while it runs. */
    method Perform(call: Spec.Call, users: map<Spec.Ref, Gateway>)
      requires Valid() && PointersTo(users)
      modifies this`clientIdToMapOfGateways, this`outbox, repr
      ensures Valid() && Abs() == Spec.Called(old(Abs()), call)
    {
      hide Valid, Abs;
      NotUsable(call.g, users);
      if call.g in users && users[call.g].alive {
        var g := users[call.g];
        Named(g);
        IsOwned(g);
        match call {
          case CallSend(_, service, payload, e) => var _ := Send(g, service, payload, e);
          case CallComplete(_, error) => Complete(g, error);
          case CallSubscribe(_) => Subscribe(g);
          case CallDispose(_, e) => Dispose(g, e);
        }
      }
    }

    lemma NotUsable(n: Spec.Ref, users: map<Spec.Ref, Gateway>)
      requires Valid() && PointersTo(users)
      ensures Abs().Usable(n) <==> n in users && users[n].alive
    {
      if n in users { Named(users[n]); }
    }

    /** All the calls of one handler. */
    method PerformAll(calls: seq<Spec.Call>, users: map<Spec.Ref, Gateway>)
      requires Valid() && PointersTo(users)
      modifies this`clientIdToMapOfGateways, this`outbox, repr
      ensures Valid() && Abs() == Spec.AllCalled(old(Abs()), calls)
    {
      hide Spec.Called, Valid, Abs;
      var i := 0;
      assert calls[..0] == [];
      while i < |calls|
        invariant 0 <= i <= |calls|
        invariant Valid() && Abs() == Spec.AllCalled(old(Abs()), calls[..i])
      {
        Perform(calls[i], users);
        assert calls[..i + 1][..i] == calls[..i];
        i := i + 1;
      }
      assert calls[..|calls|] == calls;
    }

    /** One turn; only a gateway that still exists has a handler to call. */
    method MournTurn(g: Gateway, n: Spec.Ref, reactions: map<Spec.Ref, seq<Spec.Call>>, users: map<Spec.Ref, Gateway>)
      requires Valid() && PointersTo(users) && g in mourning && n == g.Name()
      modifies this`clientIdToMapOfGateways, this`outbox, this`mourning, repr
      ensures Valid() && mourning == old(mourning) - {g}
      ensures n in old(Abs()).mourning && Abs().mourning == old(Abs()).mourning - {n}
      ensures Abs() == Spec.AllCalled(Spec.Mourn(old(Abs()), n), Spec.MournCalls(old(Abs()), reactions, n))
    {
      hide Valid, Abs, Spec.AllCalled;
      InRepr(g);
      Named(g);
      var calls := if g.alive && n in reactions then reactions[n] else [];
      Mourn(g);
      Spec.CallsKeep(Abs(), calls, n);
      PerformAll(calls, users);
    }

    lemma InRepr(g: Gateway)
      requires Valid() && g in mourning
      ensures g in repr
    {
    }

    /** The whole loop of one disconnection, in some order, with what the handlers do. */
    method MournAll(reactions: map<Spec.Ref, seq<Spec.Call>>, users: map<Spec.Ref, Gateway>)
      returns (ghost order: seq<Spec.Ref>)
      requires Valid() && PointersTo(users)
      modifies this`clientIdToMapOfGateways, this`outbox, this`mourning, repr
      ensures Valid() && mourning == {}
      ensures Spec.Once(order) && (set n | n in order) == old(Abs()).mourning
      ensures Abs() == Spec.MournLoop(old(Abs()), order, reactions)
    {
      hide Valid, Abs, Spec.AllCalled, Spec.Mourn, Spec.MournCalls, Spec.MournLoop;
      order := [];
      Spec.NoTurns(Abs(), reactions);
      while mourning != {}
        invariant Valid() && mourning <= old(mourning)
        invariant Spec.Once(order) && Abs().mourning !! (set n | n in order)
        invariant (set n | n in order) + Abs().mourning == old(Abs()).mourning
        invariant Abs() == Spec.MournLoop(old(Abs()), order, reactions)
        decreases mourning
      {
        var g :| g in mourning;
        InRepr(g);
        var n :| n in users && users[n] == g;
        ghost var left := Abs().mourning;
        MournTurn(g, n, reactions, users);
        Spec.OneMournTurn(old(Abs()), order, reactions, n);
        Spec.OneMoreTurn(order, left, n);
        order := order + [n];
      }
      NoneLeft();
    }

    lemma NoneLeft()
      requires Valid() && mourning == {}
      ensures Abs().mourning == {}
    {
    }
  }

  ghost function Views(gateways: seq<Gateway>): seq<View>
    reads gateways
  {
    seq(|gateways|, i requires 0 <= i < |gateways| reads gateways => gateways[i].Abs())
  }

  ghost function Names(gateways: set<Gateway>): set<Spec.Ref> {
    set g <- gateways :: g.Name()
  }

  ghost function Row(table: map<Tag, Gateway>): map<Tag, nat> {
    map t <- table :: table[t].ordinal
  }

  ghost function Tables(tables: map<ClientId, map<Tag, Gateway>>): map<ClientId, map<Tag, nat>> {
    map c <- tables :: Row(tables[c])
  }

  lemma RowExtended(table: map<Tag, Gateway>, t: Tag, g: Gateway)
    ensures Row(Extended(table, t, g)) == Spec.Named(Row(table), t, g.ordinal)
  {
  }

  lemma TablesUpdated(tables: map<ClientId, map<Tag, Gateway>>, c: ClientId, table: map<Tag, Gateway>)
    ensures Tables(tables[c := table]) == Tables(tables)[c := Row(table)]
  {
  }

  lemma RowWithout(table: map<Tag, Gateway>, t: Tag)
    ensures Row(table - {t}) == Row(table) - {t}
  {
  }

  lemma TablesWithout(tables: map<ClientId, map<Tag, Gateway>>, c: ClientId)
    ensures Tables(tables - {c}) == Tables(tables) - {c}
  {
  }

  lemma NamesJoin(a: set<Gateway>, b: set<Gateway>)
    ensures Names(a + b) == Names(a) + Names(b)
  {
  }

  lemma RowNames(table: map<Tag, Gateway>, c: ClientId)
    requires forall t <- table :: table[t].endpoint == Spec.Endpoint(t, c)
    ensures Names(set t | t in table :: table[t]) ==
            set t | t in Row(table) :: Spec.Ref(Spec.Endpoint(t, c), Row(table)[t])
  {
    var names := set t | t in Row(table) :: Spec.Ref(Spec.Endpoint(t, c), Row(table)[t]);
    forall n | n in names ensures n in Names(set t | t in table :: table[t]) {
      assert table[n.endpoint.tag].Name() == n;
    }
  }

  function Extended(table: map<Tag, Gateway>, t: Tag, g: Gateway): map<Tag, Gateway> {
    table[t := g]
  }
}
