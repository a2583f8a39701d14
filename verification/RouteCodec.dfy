/** The `Route.0.1` union on the wire, and the payload that follows a channel message.

    Route is a tagged union of delimited types (sections 3.7.5.3 and 3.7.5.4 of the Cyphal
    Specification): one tag byte, then a 32-bit delimiter header with the size of the
    variant, then the variant. The empty variant is sealed and has no header. */
module RouteCodec {
  import opened IpcTypes
  import opened Bytes

  const HEADER: nat := 5

  /** Values that the field widths of the DSDL definitions can hold. */
  predicate Encodable(f: Frame) {
    match f
    case Empty => true
    case Connect(_, _, error) => Fits32(error)
    case ChannelMsg(t, sequence, service, payload) =>
      t < Pow256(8) && sequence < Pow256(8) && service < Pow256(8) && |payload| < Pow256(8)
    case ChannelEnd(t, error) => t < Pow256(8) && Fits32(error)
  }

  function Delimited(tag: Byte, body: Payload): Payload {
    [tag] + Put(|body|, 4) + body
  }

  /** The serialized route; of a channel message, only the prefix. */
  function Prefix(f: Frame): Payload {
    match f
    case Empty => [0]
    case Connect(major, minor, error) => Delimited(1, [major, minor] + PutSigned(error))
    case ChannelMsg(t, sequence, service, payload) =>
      Delimited(2, Put(t, 8) + Put(sequence, 8) + Put(service, 8) + Put(|payload|, 8))
    case ChannelEnd(t, error) => Delimited(3, Put(t, 8) + PutSigned(error))
  }

  /** What the router hands to the pipe, as the framing will join it. */
  function Message(f: Frame): Payload {
    if f.ChannelMsg? then Prefix(f) + f.payload else Prefix(f)
  }

  datatype Header =
    | NoRoute
    | EmptyRoute
    | ConnectRoute(major: Byte, minor: Byte, error: int)
    | MsgRoute(tag: nat, sequence: nat, service: nat, payloadSize: nat)
    | EndRoute(tag: nat, error: int)

  /** The generated deserializer. */
  function Deserialize(bytes: Payload): Header {
    var tag := At(bytes, 0);
    if tag == 0 then EmptyRoute
    else if tag > 3 then NoRoute
    else
      var size := Get(bytes, 1, 4);
      if |bytes| < HEADER + size then NoRoute
      else
        var body := bytes[HEADER..HEADER + size];
        if tag == 1 then ConnectRoute(At(body, 0), At(body, 1), GetSigned(body, 2))
        else if tag == 2 then MsgRoute(Get(body, 0, 8), Get(body, 8, 8), Get(body, 16, 8), Get(body, 24, 8))
        else EndRoute(Get(body, 0, 8), GetSigned(body, 8))
  }

  /** A pipe message as the routers take it apart: the payload is the last `payloadSize`
      bytes. The routers do not check that there are so many, `None` here. */
  function Parse(bytes: Payload): Option<Frame> {
    match Deserialize(bytes)
    case NoRoute => None
    case EmptyRoute => Some(Empty)
    case ConnectRoute(major, minor, error) => Some(Connect(major, minor, error))
    case MsgRoute(t, sequence, service, size) =>
      if size <= |bytes| then Some(ChannelMsg(t, sequence, service, bytes[|bytes| - size..])) else None
    case EndRoute(t, error) => Some(ChannelEnd(t, error))
  }

  lemma DelimitedBody(tag: Byte, body: Payload, rest: Payload)
    requires |body| < Pow256(4)
    ensures var bytes := Delimited(tag, body) + rest;
            && |bytes| == HEADER + |body| + |rest|
            && At(bytes, 0) == tag && Get(bytes, 1, 4) == |body|
            && bytes[HEADER..HEADER + |body|] == body
  {
    var bytes := Delimited(tag, body) + rest;
    assert bytes == [tag] + Put(|body|, 4) + (body + rest);
    GetPut([tag], |body|, 4, body + rest);
  }

  lemma MsgBody(t: nat, sequence: nat, service: nat, size: nat)
    requires t < Pow256(8) && sequence < Pow256(8) && service < Pow256(8) && size < Pow256(8)
    ensures var body := Put(t, 8) + Put(sequence, 8) + Put(service, 8) + Put(size, 8);
            Get(body, 0, 8) == t && Get(body, 8, 8) == sequence &&
            Get(body, 16, 8) == service && Get(body, 24, 8) == size
  {
    hide Pow256, Put, Get;
    var a, b, c, d := Put(t, 8), Put(sequence, 8), Put(service, 8), Put(size, 8);
    FourParts(a, b, c, d);
    GetPut([], t, 8, b + c + d);
    GetPut(a, sequence, 8, c + d);
    GetPut(a + b, service, 8, d);
    GetPut(a + b + c, size, 8, []);
  }

  lemma FourParts(a: Payload, b: Payload, c: Payload, d: Payload)
    ensures a + b + c + d == [] + a + (b + c + d)
    ensures a + b + c + d == a + b + (c + d)
    ensures a + b + c + d == (a + b + c) + d + []
  {
  }

  /** The deserializer ignores whatever follows the route. */
  lemma PrefixIsRead(f: Frame, rest: Payload)
    requires Encodable(f)
    ensures Deserialize(Prefix(f) + rest) == match f
              case Empty => EmptyRoute
              case Connect(major, minor, error) => ConnectRoute(major, minor, error)
              case ChannelMsg(t, sequence, service, payload) => MsgRoute(t, sequence, service, |payload|)
              case ChannelEnd(t, error) => EndRoute(t, error)
  {
    Pow256Values();
    match f
    case Empty =>
    case Connect(major, minor, error) =>
      var body: Payload := [major, minor] + PutSigned(error);
      DelimitedBody(1, body, rest);
      GetPutSigned([major, minor], error, []);
      assert body == [major, minor] + PutSigned(error) + [];
    case ChannelMsg(t, sequence, service, payload) =>
      DelimitedBody(2, Put(t, 8) + Put(sequence, 8) + Put(service, 8) + Put(|payload|, 8), rest);
      MsgBody(t, sequence, service, |payload|);
    case ChannelEnd(t, error) =>
      var body: Payload := Put(t, 8) + PutSigned(error);
      DelimitedBody(3, body, rest);
      GetPut([], t, 8, PutSigned(error));
      assert body == [] + Put(t, 8) + PutSigned(error);
      GetPutSigned(Put(t, 8), error, []);
      assert body == Put(t, 8) + PutSigned(error) + [];
  }

  /** The peer router gets exactly the frame that was sent: for a channel message, exactly
      the payload the gateway was given, whatever its bytes. */
  lemma RoundTrip(f: Frame)
    requires Encodable(f)
    ensures Parse(Message(f)) == Some(f)
  {
    var rest: Payload := if f.ChannelMsg? then f.payload else [];
    assert Message(f) == Prefix(f) + rest;
    PrefixIsRead(f, rest);
  }
}
