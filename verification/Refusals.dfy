/** Which bytes the deserializers refuse, said of the bytes alone: a route, a request or a
    response is taken exactly if its delimited part is all there and its arrays are within
    their bounds. */
module Refusals {
  import opened IpcTypes
  import opened Bytes
  import opened RouteCodec
  import opened ExecCodec

  lemma {:induction false} GetBound(bytes: Payload, i: nat, n: nat)
    ensures Get(bytes, i, n) < Pow256(n)
    decreases n
  {
    if n > 0 { GetBound(bytes, i + 1, n - 1); }
  }

  lemma ByteSplits(first: Byte, rest: nat)
    ensures (first + 256 * rest) % 256 == first && (first + 256 * rest) / 256 == rest
  {
  }

  /** What is got from somewhere in a message was put there. */
  lemma {:induction false} PutGet(bytes: Payload, i: nat, n: nat)
    requires i + n <= |bytes|
    ensures Put(Get(bytes, i, n), n) == bytes[i..i + n]
    decreases n
  {
    if n > 0 {
      PutGet(bytes, i + 1, n - 1);
      ByteSplits(bytes[i], Get(bytes, i + 1, n - 1));
      PutStep(bytes[i], Get(bytes, i + 1, n - 1), n);
      assert bytes[i..i + n] == [bytes[i]] + bytes[i + 1..i + n];
    }
  }

  lemma PutStep(first: Byte, rest: nat, n: nat)
    requires n > 0 && (first + 256 * rest) % 256 == first && (first + 256 * rest) / 256 == rest
    ensures Put(first + 256 * rest, n) == [first] + Put(rest, n - 1)
  {
  }

  /** `body` with its length before it, from `i` on. */
  predicate DelimitedAt(bytes: Payload, i: nat, body: Payload) {
    |body| < Pow256(4) && i + 4 + |body| <= |bytes| && bytes[i..i + 4 + |body|] == Put(|body|, 4) + body
  }

  /** There is such a body. */
  ghost predicate AllThere(bytes: Payload, i: nat) {
    exists body :: DelimitedAt(bytes, i, body)
  }

  lemma DelimitedIs(bytes: Payload, i: nat, body: Payload)
    requires DelimitedAt(bytes, i, body)
    ensures |body| == Get(bytes, i, 4) && body == bytes[i + 4..i + 4 + |body|]
  {
    hide Put, Get, Pow256;
    var part := bytes[i..i + 4 + |body|];
    assert bytes[i..i + 4] == part[..4] && bytes[i + 4..i + 4 + |body|] == part[4..];
    assert bytes == bytes[..i] + Put(|body|, 4) + bytes[i + 4..];
    GetPut(bytes[..i], |body|, 4, bytes[i + 4..]);
  }

  lemma DelimitedIff(bytes: Payload, i: nat)
    ensures AllThere(bytes, i) <==> i + 4 + Get(bytes, i, 4) <= |bytes|
  {
    hide Put, Get, Pow256;
    var size := Get(bytes, i, 4);
    GetBound(bytes, i, 4);
    if i + 4 + size <= |bytes| {
      PutGet(bytes, i, 4);
      var body := bytes[i + 4..i + 4 + size];
      assert bytes[i..i + 4] + body == bytes[i..i + 4 + size];
      assert DelimitedAt(bytes, i, body);
    }
    if AllThere(bytes, i) {
      var body :| DelimitedAt(bytes, i, body);
      DelimitedIs(bytes, i, body);
    }
  }

  /** Of the bytes of a route: the tag is that of no variant, or the variant is cut short. */
  lemma RouteRefusedIff(bytes: Payload)
    ensures Deserialize(bytes).NoRoute? <==>
            At(bytes, 0) > 3 || (At(bytes, 0) > 0 && !AllThere(bytes, 1))
    ensures Deserialize(bytes).EmptyRoute? <==> At(bytes, 0) == 0
    ensures Deserialize(bytes).ConnectRoute? <==> At(bytes, 0) == 1 && AllThere(bytes, 1)
    ensures Deserialize(bytes).MsgRoute? <==> At(bytes, 0) == 2 && AllThere(bytes, 1)
    ensures Deserialize(bytes).EndRoute? <==> At(bytes, 0) == 3 && AllThere(bytes, 1)
  {
    hide Get;
    DelimitedIff(bytes, 1);
  }

  /** A request is taken exactly if it announces at most 128 nodes, and they and the delimited
      command are all there; and what is taken is within the bounds of the definition. */
  lemma RequestAcceptedIff(bytes: Payload)
    ensures var n := At(bytes, 8);
            GetRequest(bytes).Some? <==> n <= MAX_NODES && AllThere(bytes, 9 + 2 * n)
    ensures GetRequest(bytes).Some? ==> RequestFits(GetRequest(bytes).value)
  {
    var n := At(bytes, 8);
    DelimitedIff(bytes, 9 + 2 * n);
    if GetRequest(bytes).Some? {
      GetBound(bytes, 0, 8);
      GetBound(bytes[9 + 2 * n + 4..9 + 2 * n + 4 + Get(bytes, 9 + 2 * n, 4)], 0, 2);
      NodesBound(bytes, 9, n);
    }
  }

  lemma {:induction false} NodesBound(bytes: Payload, i: nat, n: nat)
    ensures |GetNodes(bytes, i, n)| == n
    ensures forall k :: 0 <= k < n ==> GetNodes(bytes, i, n)[k] < Pow256(2)
    decreases n
  {
    hide Get, Pow256;
    if n > 0 {
      GetBound(bytes, i, 2);
      NodesBound(bytes, i + 2, n - 1);
    }
  }

  /** A response is taken exactly if its delimited part is all there and its output, whose
      length is the second byte of that part, is within its bound. */
  lemma ResponseAcceptedIff(bytes: Payload)
    ensures GetResponse(bytes).Some? <==> exists body :: DelimitedAt(bytes, 2, body) && At(body, 1) <= MAX_OUTPUT
    ensures GetResponse(bytes).Some? ==> ResponseFits(GetResponse(bytes).value.0, GetResponse(bytes).value.1)
  {
    hide Get, Pow256;
    DelimitedIff(bytes, 2);
    GetBound(bytes, 0, 2);
    if AllThere(bytes, 2) {
      forall body | DelimitedAt(bytes, 2, body) ensures body == bytes[6..6 + Get(bytes, 2, 4)] {
        DelimitedIs(bytes, 2, body);
      }
    }
  }
}
