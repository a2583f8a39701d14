/** Little-endian integers in byte sequences, with the zero extension of the Cyphal
    Specification (section 3.7.1): bytes past the end of a message read as zero. */
module Bytes {
  import opened IpcTypes

  function Pow256(n: nat): nat {
    if n == 0 then 1 else 256 * Pow256(n - 1)
  }

  function Put(v: nat, n: nat): (bytes: Payload)
    ensures |bytes| == n
  {
    if n == 0 then [] else [v % 256] + Put(v / 256, n - 1)
  }

  function At(bytes: Payload, i: nat): Byte {
    if i < |bytes| then bytes[i] else 0
  }

  function Get(bytes: Payload, i: nat, n: nat): nat
    decreases n
  {
    if n == 0 then 0 else At(bytes, i) + 256 * Get(bytes, i + 1, n - 1)
  }

  /** Two's complement of a 32-bit value. */
  function PutSigned(v: int): Payload {
    Put(if v < 0 then (if v + 0x1_0000_0000 < 0 then 0 else v + 0x1_0000_0000) else v, 4)
  }

  function GetSigned(bytes: Payload, i: nat): int {
    var u := Get(bytes, i, 4);
    if u < 0x8000_0000 then u else u - 0x1_0000_0000
  }

  predicate Fits32(v: int) {
    -0x8000_0000 <= v < 0x8000_0000
  }

  /** What was put somewhere in a message is got back from there. */
  lemma {:induction false} GetPut(before: Payload, v: nat, n: nat, after: Payload)
    requires v < Pow256(n)
    ensures Get(before + Put(v, n) + after, |before|, n) == v
    decreases n
  {
    var whole := before + Put(v, n) + after;
    if n > 0 {
      var first: Payload := [v % 256];
      assert whole == (before + first) + Put(v / 256, n - 1) + after;
      GetPut(before + first, v / 256, n - 1, after);
      assert |before + first| == |before| + 1;
    }
  }

  lemma Pow256Values()
    ensures Pow256(1) == 0x100 && Pow256(2) == 0x1_0000 && Pow256(4) == 0x1_0000_0000
    ensures Pow256(8) == 0x1_0000_0000_0000_0000
  {
    assert Pow256(2) == 256 * Pow256(1);
    assert Pow256(4) == 256 * Pow256(3) && Pow256(3) == 256 * Pow256(2);
    assert Pow256(8) == 256 * Pow256(7) && Pow256(7) == 256 * Pow256(6);
    assert Pow256(6) == 256 * Pow256(5) && Pow256(5) == 256 * Pow256(4);
  }

  lemma GetPutSigned(before: Payload, v: int, after: Payload)
    requires Fits32(v)
    ensures GetSigned(before + PutSigned(v) + after, |before|) == v
  {
    Pow256Values();
    GetPut(before, if v < 0 then v + 0x1_0000_0000 else v, 4, after);
  }
}
