/** From the configured interfaces to UDP media: the filter and join of
    `udp_transport_bag.hpp`, and the split of `udp_media.hpp`. */
module Interfaces {
  import opened IpcTypes

  const UDP_PREFIX: string := "udp://"
  const MAX_UDP_MEDIA: nat := 3

  // `std::size_t` and its largest value.
  const SIZE_MODULUS: nat := 0x1_0000_0000_0000_0000
  const NPOS: nat := SIZE_MODULUS - 1

  // ---- What the text means.

  /** The comma-separated pieces of a string, empty ones included. */
  function Split(s: string): (pieces: seq<string>)
    ensures pieces != []
    decreases |s|
  {
    if ',' !in s then [s]
    else
      var k := Comma(s);
      [s[..k]] + Split(s[k + 1..])
  }

  /** Where the first comma is. */
  function Comma(s: string): (k: nat)
    requires ',' in s
    ensures k < |s| && s[k] == ',' && ',' !in s[..k]
  {
    if s[0] == ',' then 0
    else
      assert s == [s[0]] + s[1..];
      var k := 1 + Comma(s[1..]);
      assert s[..k] == [s[0]] + s[1..][..k - 1];
      k
  }

  function NonEmpty(pieces: seq<string>): seq<string> {
    if pieces == [] then []
    else (if pieces[0] == [] then [] else [pieces[0]]) + NonEmpty(pieces[1..])
  }

  function AtMost(pieces: seq<string>, n: nat): seq<string> {
    if |pieces| <= n then pieces else pieces[..n]
  }

  predicate IsUdp(iface: string) {
    UDP_PREFIX <= iface
  }

  /** The addresses behind the prefix, each followed by a comma. */
  function Join(ifaces: seq<string>): string {
    if ifaces == [] then []
    else
      var last := ifaces[|ifaces| - 1];
      Join(ifaces[..|ifaces| - 1]) + (if IsUdp(last) then last[|UDP_PREFIX|..] + [','] else [])
  }

  /** The UDP addresses a configuration asks for, in order. */
  function Wanted(ifaces: seq<string>): seq<string> {
    if ifaces == [] then []
    else
      var last := ifaces[|ifaces| - 1];
      Wanted(ifaces[..|ifaces| - 1]) + (if IsUdp(last) then NonEmpty(Split(last[|UDP_PREFIX|..])) else [])
  }

  /** The pieces with commas between them. */
  function WithCommas(pieces: seq<string>): string {
    if pieces == [] then [] else if |pieces| == 1 then pieces[0] else pieces[0] + [','] + WithCommas(pieces[1..])
  }

  /** The pieces are what is between the commas: they hold none, and with commas between them
      they are the string again. */
  lemma {:induction false} SplitsAtCommas(s: string)
    ensures WithCommas(Split(s)) == s && forall piece :: piece in Split(s) ==> ',' !in piece
    decreases |s|
  {
    if ',' !in s {
      assert Split(s) == [s];
    } else {
      var k := Comma(s);
      SplitsAtCommas(s[k + 1..]);
      assert Split(s)[1..] == Split(s[k + 1..]);
      assert s == s[..k] + [','] + s[k + 1..];
    }
  }

  /** The interface lists this address behind the prefix of UDP. */
  predicate Asks(iface: string, address: string) {
    |iface| >= 6 && iface[..6] == "udp://" && address in Split(iface[6..])
  }

  /** An address is asked for exactly if it is a non-empty piece behind the prefix of one of
      the interfaces; those of other kinds are passed over. */
  lemma {:induction false} WantedIff(ifaces: seq<string>, address: string)
    ensures address in Wanted(ifaces) <==> address != [] && exists k :: 0 <= k < |ifaces| && Asks(ifaces[k], address)
    decreases |ifaces|
  {
    hide Split, NonEmpty;
    if ifaces != [] {
      var shorter, last := ifaces[..|ifaces| - 1], ifaces[|ifaces| - 1];
      WantedIff(shorter, address);
      assert IsUdp(last) <==> |last| >= 6 && last[..6] == "udp://";
      if IsUdp(last) { NonEmptyHas(Split(last[6..]), address); }
      hide IsUdp, Asks;
      assert Asks(last, address) ==> Asks(ifaces[|ifaces| - 1], address);
      forall k | 0 <= k < |shorter| ensures shorter[k] == ifaces[k] {}
    }
  }

  lemma {:induction false} NonEmptyHas(pieces: seq<string>, piece: string)
    ensures piece in NonEmpty(pieces) <==> piece != [] && piece in pieces
    decreases |pieces|
  {
    if pieces != [] {
      NonEmptyHas(pieces[1..], piece);
      assert pieces == [pieces[0]] + pieces[1..];
    }
  }

  // ---- Joining and splitting.

  lemma FirstComma(s: string, k: nat)
    requires k < |s| && s[k] == ',' && ',' !in s[..k]
    ensures Split(s) == [s[..k]] + Split(s[k + 1..])
  {
    var c := Comma(s);
    assert forall i :: 0 <= i < k ==> s[i] == s[..k][i];
    assert forall i :: 0 <= i < c ==> s[i] == s[..c][i];
  }

  lemma {:induction false} SplitJoined(a: string, b: string)
    ensures Split(a + [','] + b) == Split(a) + Split(b)
    decreases |a|
  {
    hide Split;
    if ',' in a {
      var k := Comma(a);
      FirstComma(a, k);
      CommaInFirst(a, b, k);
      SplitJoined(a[k + 1..], b);
      assert [a[..k]] + (Split(a[k + 1..]) + Split(b)) == Split(a) + Split(b);
    } else {
      CommaBetween(a, b);
      NoComma(a);
    }
  }

  lemma NoComma(a: string)
    requires ',' !in a
    ensures Split(a) == [a]
  {
  }

  lemma CommaInFirst(a: string, b: string, k: nat)
    requires k < |a| && a[k] == ',' && ',' !in a[..k]
    ensures Split(a + [','] + b) == [a[..k]] + Split(a[k + 1..] + [','] + b)
  {
    hide Split;
    var s := a + [','] + b;
    assert s[..k] == a[..k];
    assert s[k + 1..] == a[k + 1..] + [','] + b;
    FirstComma(s, k);
  }

  lemma CommaBetween(a: string, b: string)
    requires ',' !in a
    ensures Split(a + [','] + b) == [a] + Split(b)
  {
    hide Split;
    var s := a + [','] + b;
    assert s[..|a|] == a;
    assert s[|a| + 1..] == b;
    FirstComma(s, |a|);
  }

  lemma {:induction false} NonEmptyAppend(a: seq<string>, b: seq<string>)
    ensures NonEmpty(a + b) == NonEmpty(a) + NonEmpty(b)
    decreases |a|
  {
    if a == [] {
      assert a + b == b;
    } else {
      assert (a + b)[1..] == a[1..] + b;
      NonEmptyAppend(a[1..], b);
    }
  }

  /** What is joined is split again into exactly the addresses that were asked for. */
  lemma {:induction false} SplitsWhatWasJoined(ifaces: seq<string>)
    ensures NonEmpty(Split(Join(ifaces))) == Wanted(ifaces)
    decreases |ifaces|
  {
    if ifaces == [] {
      NothingSplits();
    } else {
      var n := |ifaces| - 1;
      SplitsWhatWasJoined(ifaces[..n]);
      if IsUdp(ifaces[n]) {
        JoinedTail(Join(ifaces[..n]), ifaces[n][|UDP_PREFIX|..], ifaces[..n]);
      } else {
        assert Join(ifaces) == Join(ifaces[..n]);
      }
    }
  }

  lemma TrailingComma(body: string)
    ensures NonEmpty(Split(body + [','])) == NonEmpty(Split(body))
  {
    assert body + [','] == body + [','] + [];
    SplitJoined(body, []);
    NonEmptyAppend(Split(body), [[]]);
    assert NonEmpty([[]]) == NonEmpty([[]][1..]) == [];
  }

  /** A joined string is empty or ends with a comma, so the next address starts a piece. */
  lemma JoinedTail(joined: string, address: string, ifaces: seq<string>)
    requires joined == Join(ifaces)
    ensures NonEmpty(Split(joined + (address + [',']))) == NonEmpty(Split(joined)) + NonEmpty(Split(address))
  {
    hide Split, NonEmpty;
    EndsWithComma(ifaces);
    TrailingComma(address);
    if joined == [] {
      assert joined + (address + [',']) == address + [','];
      assert NonEmpty(Split([])) == [] by { NothingSplits(); }
    } else {
      var body := joined[..|joined| - 1];
      assert joined == body + [','];
      TrailingComma(body);
      SplitJoined(body, address + [',']);
      NonEmptyAppend(Split(body), Split(address + [',']));
    }
  }

  lemma NothingSplits()
    ensures NonEmpty(Split([])) == []
  {
    assert NonEmpty([[]]) == NonEmpty([[]][1..]) == [];
  }

  lemma {:induction false} EndsWithComma(ifaces: seq<string>)
    ensures Join(ifaces) == [] || Join(ifaces)[|Join(ifaces)| - 1] == ','
    decreases |ifaces|
  {
    if ifaces != [] { EndsWithComma(ifaces[..|ifaces| - 1]); }
  }

  // ---- The loops.

  /** `string_view::find` of a comma. */
  method Find(s: string, from: nat) returns (next: nat)
    requires from <= |s| < NPOS
    ensures next == NPOS || from <= next < |s|
    ensures next == NPOS ==> ',' !in s[from..]
    ensures next != NPOS ==> s[next] == ',' && ',' !in s[from..next]
  {
    next := from;
    while next < |s| && s[next] != ','
      invariant from <= next <= |s|
      invariant ',' !in s[from..next]
    {
      assert s[from..next + 1] == s[from..next] + [s[next]];
      next := next + 1;
    }
    if next == |s| { next := NPOS; }
  }

  function CountIn(pointers: seq<Option<nat>>): nat {
    if pointers == [] then 0
    else CountIn(pointers[..|pointers| - 1]) + (if pointers[|pointers| - 1].Some? then 1 else 0)
  }

  lemma {:induction false} CountPrefix(pointers: seq<Option<nat>>, n: nat)
    requires n <= |pointers| && forall i :: 0 <= i < |pointers| ==> (pointers[i].Some? <==> i < n)
    ensures CountIn(pointers) == n
    decreases |pointers|
  {
    if pointers != [] {
      var shorter := pointers[..|pointers| - 1];
      CountPrefix(shorter, if n == |pointers| then n - 1 else n);
    }
  }

  class UdpMediaCollection {
    const mediaArray: array<string>
    const mediaIfaces: array<Option<nat>>

    constructor ()
      ensures Valid() && fresh(mediaArray) && fresh(mediaIfaces)
      ensures mediaIfaces[..] == [None, None, None]
    {
      mediaArray := new string[3](_ => []);
      mediaIfaces := new Option<nat>[3](_ => None);
    }

    ghost predicate Valid()
      reads this
    {
      mediaArray.Length == MAX_UDP_MEDIA && mediaIfaces.Length == MAX_UDP_MEDIA
    }

    /** The first three non-empty pieces, in order, and no pointer more. */
    method Parse(addresses: string)
      requires Valid() && |addresses| < NPOS
      modifies mediaArray, mediaIfaces
      ensures var pieces := AtMost(NonEmpty(Split(addresses)), MAX_UDP_MEDIA);
              && mediaArray[..|pieces|] == pieces
              && (forall i :: 0 <= i < MAX_UDP_MEDIA ==> mediaIfaces[i] == if i < |pieces| then Some(i) else None)
    {
      var index := SplitInto(addresses);
      label Splitted:
      mediaIfaces[0], mediaIfaces[1], mediaIfaces[2] := None, None, None;
      var i := 0;
      while i < index
        invariant 0 <= i <= index
        invariant mediaArray[..] == old@Splitted(mediaArray[..])
        invariant forall k :: 0 <= k < MAX_UDP_MEDIA ==> mediaIfaces[k] == if k < i then Some(k) else None
        modifies mediaIfaces
      {
        mediaIfaces[i] := Some(i);
        i := i + 1;
      }
    }

    /** The loop over the commas; `next + 1` wraps to 0 behind the last piece, and the
        maximum turns that into the end mark again. */
    method SplitInto(addresses: string) returns (index: nat)
      requires Valid() && |addresses| < NPOS
      modifies mediaArray
      ensures index <= MAX_UDP_MEDIA
      ensures mediaArray[..index] == AtMost(NonEmpty(Split(addresses)), MAX_UDP_MEDIA)
    {
      hide Split, NonEmpty, Rest, After;
      index := 0;
      var curr := 0;
      RestOfAll(addresses);
      while curr != NPOS && index < MAX_UDP_MEDIA
        invariant index <= MAX_UDP_MEDIA && (curr == NPOS || curr <= |addresses|)
        invariant mediaArray[..index] + Rest(addresses, curr) == NonEmpty(Split(addresses))
        decreases if curr == NPOS then 0 else 1 + |addresses| - curr
      {
        var next := Find(addresses, curr);
        var address := addresses[curr..if next == NPOS then |addresses| else next];
        ghost var before := mediaArray[..index];
        PieceAt(addresses, curr, next);
        Accumulates(before, address, Rest(addresses, After(next)), NonEmpty(Split(addresses)));
        if address != [] {
          mediaArray[index] := address;
          assert mediaArray[..index] == before;
          index := index + 1;
        }
        assert mediaArray[..index] == if address == [] then before else before + [address];
        AfterMoves(next);
        curr := After(next);
      }
      RestOfNone(addresses);
    }

    /** How many media there are. */
    function Count(): nat
      reads this, mediaIfaces
    {
      CountIn(mediaIfaces[..])
    }
  }

  /** `max(next + 1, next)` in the arithmetic of `std::size_t`. */
  function After(next: nat): nat {
    var following := (next + 1) % SIZE_MODULUS;
    if following > next then following else next
  }

  lemma AfterMoves(next: nat)
    requires next <= NPOS
    ensures After(next) == if next == NPOS then NPOS else next + 1
  {
  }

  /** What is left to split from `curr` on. */
  function Rest(s: string, curr: nat): seq<string>
    requires curr <= |s| || curr == NPOS
  {
    if curr == NPOS then [] else NonEmpty(Split(s[curr..]))
  }

  lemma RestOfAll(s: string)
    requires |s| < NPOS
    ensures Rest(s, 0) == NonEmpty(Split(s))
  {
    assert s[0..] == s;
  }

  lemma RestOfNone(s: string)
    ensures Rest(s, NPOS) == []
  {
  }

  lemma PieceAt(s: string, curr: nat, next: nat)
    requires curr <= |s| < NPOS && (next == NPOS || curr <= next < |s|)
    requires if next == NPOS then ',' !in s[curr..] else s[next] == ',' && ',' !in s[curr..next]
    ensures After(next) == NPOS || After(next) <= |s|
    ensures var piece := s[curr..if next == NPOS then |s| else next];
            Rest(s, curr) == (if piece == [] then [] else [piece]) + Rest(s, After(next))
  {
    hide Split, NonEmpty;
    AfterMoves(next);
    var end := if next == NPOS then |s| else next;
    assert s[curr..][..end - curr] == s[curr..end];
    assert next != NPOS ==> s[curr..][end - curr + 1..] == s[next + 1..];
    NextPiece(s[curr..], end - curr, next == NPOS);
  }

  lemma Accumulates(before: seq<string>, piece: string, left: seq<string>, all: seq<string>)
    requires before + ((if piece == [] then [] else [piece]) + left) == all
    ensures (if piece == [] then before else before + [piece]) + left == all
  {
  }

  /** The next piece of what is left. */
  lemma NextPiece(left: string, end: nat, last: bool)
    requires end <= |left| && ',' !in left[..end] && (last ==> end == |left|)
    requires (!last ==> end < |left| && left[end] == ',')
    ensures NonEmpty(Split(left)) ==
            (if left[..end] == [] then [] else [left[..end]]) + (if last then [] else NonEmpty(Split(left[end + 1..])))
  {
    if last {
      assert left[..end] == left;
      assert [left][1..] == [];
    } else {
      FirstComma(left, end);
      assert Split(left)[1..] == Split(left[end + 1..]);
    }
  }

  /** `UdpTransportBag::make`: no transport if there are no media or if the library makes none
      for them; `transportError` is what it answers. */
  method MakeMedia(ifaces: seq<string>, transportError: int) returns (media: UdpMediaCollection, usable: bool)
    requires |Join(ifaces)| < NPOS
    ensures media.Valid() && fresh(media)
    ensures var wanted := AtMost(Wanted(ifaces), MAX_UDP_MEDIA);
            && media.mediaArray[..|wanted|] == wanted
            && media.Count() == |wanted|
            && (usable <==> Wanted(ifaces) != [] && transportError == SUCCESS)
  {
    media := new UdpMediaCollection();
    var joined := [];
    var k := 0;
    while k < |ifaces|
      invariant 0 <= k <= |ifaces|
      invariant joined == Join(ifaces[..k])
    {
      assert ifaces[..k + 1][..k] == ifaces[..k];
      if UDP_PREFIX <= ifaces[k] {
        joined := joined + ifaces[k][|UDP_PREFIX|..];
        joined := joined + [','];
      }
      k := k + 1;
    }
    assert ifaces[..|ifaces|] == ifaces;
    SplitsWhatWasJoined(ifaces);
    media.Parse(joined);
    CountPrefix(media.mediaIfaces[..], |AtMost(Wanted(ifaces), MAX_UDP_MEDIA)|);
    if media.Count() == 0 { return media, false; }
    usable := transportError == SUCCESS;
  }
}
