/** Requests and responses of the 'exec cmd' service, and their wire form
    (`ExecCmdSvcRequest.0.1`, `ExecCmdSvcResponse.0.1`). */
module ExecCodec {
  import opened IpcTypes
  import opened Bytes

  type NodeId = nat

  datatype Request = Request(timeoutUs: nat, nodes: seq<NodeId>, command: nat, parameter: Payload)

  datatype Response = Response(status: Byte, output: Payload)

  const MAX_NODES: nat := 128
  const MAX_PARAMETER: nat := 255
  const MAX_OUTPUT: nat := 46

  /** The array bounds and field widths of the DSDL; the serializer refuses anything else. */
  predicate RequestFits(q: Request) {
    && q.timeoutUs < Pow256(8) && q.command < Pow256(2)
    && |q.nodes| <= MAX_NODES && |q.parameter| <= MAX_PARAMETER
    && forall i :: 0 <= i < |q.nodes| ==> q.nodes[i] < Pow256(2)
  }

  predicate ResponseFits(node: NodeId, a: Response) {
    node < Pow256(2) && |a.output| <= MAX_OUTPUT
  }

  function PutNodes(nodes: seq<NodeId>): (bytes: Payload)
    ensures |bytes| == 2 * |nodes|
  {
    if nodes == [] then [] else Put(nodes[0], 2) + PutNodes(nodes[1..])
  }

  function GetNodes(bytes: Payload, i: nat, n: nat): seq<NodeId>
    decreases n
  {
    if n == 0 then [] else [Get(bytes, i, 2)] + GetNodes(bytes, i + 2, n - 1)
  }

  function CommandBody(q: Request): Payload
    requires |q.parameter| <= MAX_PARAMETER
  {
    Put(q.command, 2) + [|q.parameter|] + q.parameter
  }

  function PutRequest(q: Request): Payload
    requires RequestFits(q)
  {
    Put(q.timeoutUs, 8) + [|q.nodes|] + PutNodes(q.nodes) + Put(|CommandBody(q)|, 4) + CommandBody(q)
  }

  /** `n` bytes from `i` on, zero-extended. */
  function Window(bytes: Payload, i: nat, n: nat): (w: Payload)
    ensures |w| == n && forall k :: 0 <= k < n ==> w[k] == At(bytes, i + k)
    decreases n
  {
    if n == 0 then [] else [At(bytes, i)] + Window(bytes, i + 1, n - 1)
  }

  /** A length-prefixed byte array at `i`, zero-extended; `None` when it exceeds its bound. */
  function GetBytes(bytes: Payload, i: nat, bound: nat): Option<Payload> {
    var n := At(bytes, i);
    if n > bound then None else Some(Window(bytes, i + 1, n))
  }

  function GetRequest(bytes: Payload): Option<Request> {
    var n := At(bytes, 8);
    if n > MAX_NODES then None
    else
      var i := 9 + 2 * n;
      var size := Get(bytes, i, 4);
      if |bytes| < i + 4 + size then None
      else
        var body := bytes[i + 4..i + 4 + size];
        match GetBytes(body, 2, MAX_PARAMETER)
        case None => None
        case Some(parameter) =>
          Some(Request(Get(bytes, 0, 8), GetNodes(bytes, 9, n), Get(body, 0, 2), parameter))
  }

  function PutResponse(node: NodeId, a: Response): Payload
    requires ResponseFits(node, a)
  {
    Put(node, 2) + Put(2 + |a.output|, 4) + ([a.status, |a.output|] + a.output)
  }

  function GetResponse(bytes: Payload): Option<(NodeId, Response)> {
    var size := Get(bytes, 2, 4);
    if |bytes| < 6 + size then None
    else
      var body := bytes[6..6 + size];
      match GetBytes(body, 1, MAX_OUTPUT)
      case None => None
      case Some(output) => Some((Get(bytes, 0, 2), Response(At(body, 0), output)))
  }

  lemma {:induction false} NodesRoundTrip(before: Payload, nodes: seq<NodeId>, after: Payload)
    requires forall i :: 0 <= i < |nodes| ==> nodes[i] < Pow256(2)
    ensures GetNodes(before + PutNodes(nodes) + after, |before|, |nodes|) == nodes
    decreases |nodes|
  {
    hide Pow256, Put, Get;
    if nodes != [] {
      var whole, rest := before + PutNodes(nodes) + after, PutNodes(nodes[1..]);
      assert whole == before + Put(nodes[0], 2) + (rest + after);
      GetPut(before, nodes[0], 2, rest + after);
      assert whole == (before + Put(nodes[0], 2)) + rest + after;
      NodesRoundTrip(before + Put(nodes[0], 2), nodes[1..], after);
    }
  }

  lemma BytesRoundTrip(before: Payload, data: Payload, bound: nat)
    requires |data| <= bound < 256
    ensures GetBytes(before + [|data|] + data, |before|, bound) == Some(data)
  {
    var bytes := before + [|data|] + data;
    assert bytes[|before|] == |data|;
    var got := GetBytes(bytes, |before|, bound);
    assert got.Some? && |got.value| == |data|;
    forall k | 0 <= k < |data| ensures got.value[k] == data[k] {
      assert bytes[|before| + 1 + k] == data[k];
    }
    assert got.value == data;
  }

  lemma CommandRoundTrip(q: Request)
    requires q.command < Pow256(2) && |q.parameter| <= MAX_PARAMETER
    ensures Get(CommandBody(q), 0, 2) == q.command
    ensures GetBytes(CommandBody(q), 2, MAX_PARAMETER) == Some(q.parameter)
  {
    hide Pow256, Put, Get;
    var tail: Payload := [|q.parameter|] + q.parameter;
    assert CommandBody(q) == [] + Put(q.command, 2) + tail;
    GetPut([], q.command, 2, tail);
    BytesRoundTrip(Put(q.command, 2), q.parameter, MAX_PARAMETER);
  }

  lemma RequestRoundTrip(q: Request)
    requires RequestFits(q)
    ensures GetRequest(PutRequest(q)) == Some(q)
  {
    Pow256Values();
    hide Pow256, Put, Get, GetNodes, PutNodes, CommandBody, GetBytes;
    var bytes, body := PutRequest(q), CommandBody(q);
    var head: Payload := Put(q.timeoutUs, 8) + [|q.nodes|];
    var nodes, size := PutNodes(q.nodes), Put(|body|, 4);
    assert bytes == [] + Put(q.timeoutUs, 8) + ([|q.nodes|] + nodes + size + body);
    GetPut([], q.timeoutUs, 8, [|q.nodes|] + nodes + size + body);
    assert bytes == head + nodes + (size + body);
    NodesRoundTrip(head, q.nodes, size + body);
    assert bytes == (head + nodes) + size + body;
    CommandLength(q);
    GetPut(head + nodes, |body|, 4, body);
    assert bytes[8] == |q.nodes|;
    var i := 9 + 2 * |q.nodes|;
    assert |head + nodes| == i;
    assert bytes[i + 4..i + 4 + |body|] == body;
    CommandRoundTrip(q);
  }

  lemma CommandLength(q: Request)
    requires |q.parameter| <= MAX_PARAMETER
    ensures |CommandBody(q)| == 3 + |q.parameter|
  {
  }

  lemma ResponseRoundTrip(node: NodeId, a: Response)
    requires ResponseFits(node, a)
    ensures GetResponse(PutResponse(node, a)) == Some((node, a))
  {
    Pow256Values();
    hide Pow256, Put, Get, GetBytes;
    var bytes := PutResponse(node, a);
    var body: Payload := [a.status, |a.output|] + a.output;
    var size := Put(|body|, 4);
    assert bytes == [] + Put(node, 2) + (size + body);
    GetPut([], node, 2, size + body);
    assert bytes == Put(node, 2) + size + body;
    GetPut(Put(node, 2), |body|, 4, body);
    assert bytes[6..6 + |body|] == body;
    assert body == [a.status] + [|a.output|] + a.output;
    BytesRoundTrip([a.status], a.output, MAX_OUTPUT);
  }
}
