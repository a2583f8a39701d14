/** Messages on a byte stream (`pipe/socket_base.cpp`): each is written as a header and its
    fragments, and read back in two phases that any number of reads may separate. */
module Framing {
  import opened IpcTypes
  import opened Bytes

  const SIGNATURE: nat := 0x5356434F
  const HEADER_SIZE: nat := 8
  const MAX_SIZE: nat := 0x10_0000

  // ---- What is written.

  /** Signature and size in host order; the size is truncated to 32 bits. */
  function Header(size: nat): (bytes: Payload)
    ensures |bytes| == HEADER_SIZE
  {
    Put(SIGNATURE, 4) + Put(size % 0x1_0000_0000, 4)
  }

  function Framed(m: Payload): Payload {
    Header(|m|) + m
  }

  function Encoded(messages: seq<Payload>): Payload {
    if messages == [] then [] else Encoded(messages[..|messages| - 1]) + Framed(messages[|messages| - 1])
  }

  function Joined(fragments: seq<Payload>): Payload {
    if fragments == [] then [] else Joined(fragments[..|fragments| - 1]) + fragments[|fragments| - 1]
  }

  /** How many of these system calls succeed before one fails. */
  function Succeed(errors: seq<int>): (n: nat)
    ensures n <= |errors|
    ensures forall i :: 0 <= i < n ==> errors[i] == SUCCESS
    ensures n < |errors| ==> errors[n] != SUCCESS
  {
    if errors == [] || errors[0] != SUCCESS then 0 else 1 + Succeed(errors[1..])
  }

  /** The bytes that reach the stream: a failing call ends the message there. */
  function Written(fragments: seq<Payload>, errors: seq<int>): Payload
    requires |errors| == |fragments| + 1
  {
    var n := Succeed(errors);
    if n == 0 then [] else Header(|Joined(fragments)|) + Joined(fragments[..n - 1])
  }

  // ---- What is read.

  /** What one `recv` gives: bytes (none at the end of the stream), or an error. */
  datatype Recv = WouldBlock | Failed(error: int) | Got(count: nat)

  datatype Phase = AtHeader | AtPayload

  /** The reading end of a stream; `taken` counts the bytes read, `delivered` is every
      message the action was called with. */
  datatype Reader = Reader(phase: Phase, msgSize: nat, taken: nat, delivered: seq<Payload>, closed: bool)

  const START: Reader := Reader(AtHeader, 0, 0, [], false)

  const EOF: int := -1

  /** `recv` may give any part of what is there, and no more than was asked for. */
  predicate Possible(r: Reader, stream: Payload, wanted: nat, got: Recv) {
    && r.taken <= |stream|
    && (got.Got? ==> got.count <= wanted && r.taken + got.count <= |stream|)
    && (got.Failed? ==> got.error != SUCCESS)
  }

  function ReadHeader(r: Reader, stream: Payload, got: Recv): (Reader, int)
    requires Possible(r, stream, HEADER_SIZE, got)
  {
    match got
    case WouldBlock => (r, SUCCESS)
    case Failed(error) => (r, error)
    case Got(count) =>
      var r' := r.(taken := r.taken + count);
      var size := Get(stream, r.taken + 4, 4);
      if count == 0 then (r', EOF)
      else if count != HEADER_SIZE || Get(stream, r.taken, 4) != SIGNATURE || size == 0 || size > MAX_SIZE
      then (r', INVALID)
      else (r'.(phase := AtPayload, msgSize := size), SUCCESS)
  }

  function ReadPayload(r: Reader, stream: Payload, got: Recv, actionError: int): (Reader, int)
    requires Possible(r, stream, r.msgSize, got)
  {
    match got
    case WouldBlock => (r, SUCCESS)
    case Failed(error) => (r, error)
    case Got(count) =>
      var r' := r.(taken := r.taken + count);
      if count != r.msgSize then (r', INVALID)
      else (r'.(phase := AtHeader, delivered := r.delivered + [stream[r.taken..r.taken + count]]), actionError)
  }

  /** The outcomes of the two `recv` calls that one readable event may make. */
  datatype Turn = Turn(header: Recv, payload: Recv, actionError: int)

  predicate TurnPossible(r: Reader, stream: Payload, turn: Turn) {
    if r.phase.AtHeader? then
      && Possible(r, stream, HEADER_SIZE, turn.header)
      && (var (r', error) := ReadHeader(r, stream, turn.header);
          error == SUCCESS && r'.phase.AtPayload? ==> Possible(r', stream, r'.msgSize, turn.payload))
    else Possible(r, stream, r.msgSize, turn.payload)
  }

  /** `receiveMessage`. */
  function Receive(r: Reader, stream: Payload, turn: Turn): (Reader, int)
    requires TurnPossible(r, stream, turn)
  {
    if r.phase.AtHeader? then
      var (r', error) := ReadHeader(r, stream, turn.header);
      if error != SUCCESS || r'.phase.AtHeader? then (r', error)
      else ReadPayload(r', stream, turn.payload, turn.actionError)
    else ReadPayload(r, stream, turn.payload, turn.actionError)
  }

  /** The readable event: an error closes the connection. */
  function Handle(r: Reader, stream: Payload, turn: Turn): Reader
    requires TurnPossible(r, stream, turn)
  {
    var (r', error) := Receive(r, stream, turn);
    r'.(closed := error != SUCCESS)
  }

  predicate AllPossible(r: Reader, stream: Payload, turns: seq<Turn>)
    decreases |turns|
  {
    turns == [] || r.closed ||
    (TurnPossible(r, stream, turns[0]) && AllPossible(Handle(r, stream, turns[0]), stream, turns[1..]))
  }

  function Drain(r: Reader, stream: Payload, turns: seq<Turn>): Reader
    requires AllPossible(r, stream, turns)
    decreases |turns|
  {
    if turns == [] || r.closed then r else Drain(Handle(r, stream, turns[0]), stream, turns[1..])
  }

  // ---- Reading gives back what was written.

  predicate Sized(m: Payload) {
    0 < |m| <= MAX_SIZE
  }

  predicate AllSized(messages: seq<Payload>) {
    forall i :: 0 <= i < |messages| ==> Sized(messages[i])
  }

  /** Where the reader is: at a message boundary, or behind the header of a message. */
  ghost predicate Placed(r: Reader, messages: seq<Payload>) {
    var d := |r.delivered|;
    && r.delivered <= messages
    && (!r.closed ==>
          match r.phase
          case AtHeader => r.taken == |Encoded(messages[..d])|
          case AtPayload =>
            d < |messages| && r.msgSize == |messages[d]| && r.taken == |Encoded(messages[..d])| + HEADER_SIZE)
  }

  lemma {:induction false} EncodedSplit(messages: seq<Payload>, d: nat)
    requires d < |messages|
    ensures Encoded(messages[..d]) + Framed(messages[d]) <= Encoded(messages)
    ensures Encoded(messages[..d + 1]) == Encoded(messages[..d]) + Framed(messages[d])
    decreases |messages|
  {
    assert messages[..d + 1][..d] == messages[..d];
    if d == |messages| - 1 {
      assert messages[..d + 1] == messages;
    } else {
      var shorter := messages[..|messages| - 1];
      EncodedSplit(shorter, d);
      assert shorter[..d] == messages[..d];
    }
  }

  lemma HeaderReads(before: Payload, size: nat, after: Payload)
    ensures var stream := before + Header(size) + after;
            Get(stream, |before|, 4) == SIGNATURE && Get(stream, |before| + 4, 4) == size % 0x1_0000_0000
  {
    Pow256Values();
    hide Get, Put, Pow256;
    var a, b := Put(SIGNATURE, 4), Put(size % 0x1_0000_0000, 4);
    var stream := before + Header(size) + after;
    assert stream == before + a + (b + after);
    GetPut(before, SIGNATURE, 4, b + after);
    assert stream == (before + a) + b + after;
    GetPut(before + a, size % 0x1_0000_0000, 4, after);
  }

  /** At the boundary before message `d`, the stream holds its header and then its bytes. */
  lemma StreamAt(messages: seq<Payload>, d: nat, stream: Payload)
    requires d < |messages| && AllSized(messages) && Encoded(messages) <= stream
    ensures var at, m := |Encoded(messages[..d])|, messages[d];
            && at + HEADER_SIZE + |m| <= |stream|
            && Get(stream, at, 4) == SIGNATURE && Get(stream, at + 4, 4) == |m|
            && stream[at + HEADER_SIZE..at + HEADER_SIZE + |m|] == m
            && |Encoded(messages[..d + 1])| == at + HEADER_SIZE + |m|
  {
    hide Get, Header;
    EncodedSplit(messages, d);
    var before, m := Encoded(messages[..d]), messages[d];
    assert Sized(m);
    assert before + Framed(m) <= stream;
    var after := stream[|before| + HEADER_SIZE + |m|..];
    assert stream == before + Header(|m|) + (m + after);
    HeaderReads(before, |m|, m + after);
  }

  lemma AtTheEnd(messages: seq<Payload>, d: nat)
    requires d <= |messages| && |Encoded(messages[..d])| < |Encoded(messages)|
    ensures d < |messages|
  {
    assert messages[..|messages|] == messages;
  }

  lemma HeaderKeeps(r: Reader, messages: seq<Payload>, got: Recv)
    requires AllSized(messages) && Placed(r, messages) && !r.closed && r.phase.AtHeader?
    requires Possible(r, Encoded(messages), HEADER_SIZE, got)
    ensures var (r', error) := ReadHeader(r, Encoded(messages), got);
            && r'.delivered == r.delivered && !r'.closed
            && (error == SUCCESS ==> Placed(r', messages))
            && (error != SUCCESS <==> got.Failed? || (got.Got? && got.count != HEADER_SIZE))
            && (got == Got(HEADER_SIZE) ==> r'.phase.AtPayload?)
  {
    hide Get, Encoded;
    if got.Got? && got.count > 0 {
      AtTheEnd(messages, |r.delivered|);
      StreamAt(messages, |r.delivered|, Encoded(messages));
      assert Sized(messages[|r.delivered|]);
    }
  }

  lemma PayloadKeeps(r: Reader, messages: seq<Payload>, got: Recv, actionError: int)
    requires AllSized(messages) && Placed(r, messages) && !r.closed && r.phase.AtPayload?
    requires Possible(r, Encoded(messages), r.msgSize, got)
    ensures var (r', error) := ReadPayload(r, Encoded(messages), got, actionError);
            && r'.delivered <= messages && r.delivered <= r'.delivered && !r'.closed
            && (error == SUCCESS ==> Placed(r', messages))
            && (error != SUCCESS ==> got.Failed? || (got.Got? && got.count != r.msgSize) || actionError != SUCCESS)
  {
    hide Get, Encoded, Sized;
    var d := |r.delivered|;
    StreamAt(messages, d, Encoded(messages));
    OneLonger(r.delivered, messages);
  }

  lemma OneLonger(read: seq<Payload>, messages: seq<Payload>)
    requires read <= messages && |read| < |messages|
    ensures messages[..|read| + 1] == read + [messages[|read|]] && read + [messages[|read|]] <= messages
  {
  }

  lemma HandleKeeps(r: Reader, messages: seq<Payload>, turn: Turn)
    requires AllSized(messages) && Placed(r, messages) && !r.closed
    requires TurnPossible(r, Encoded(messages), turn)
    ensures Placed(Handle(r, Encoded(messages), turn), messages)
    ensures r.delivered <= Handle(r, Encoded(messages), turn).delivered
  {
    hide ReadHeader, ReadPayload, Encoded, Possible;
    var stream := Encoded(messages);
    if r.phase.AtHeader? {
      HeaderKeeps(r, messages, turn.header);
      var (r', error) := ReadHeader(r, stream, turn.header);
      if error == SUCCESS && r'.phase.AtPayload? { PayloadKeeps(r', messages, turn.payload, turn.actionError); }
    } else {
      PayloadKeeps(r, messages, turn.payload, turn.actionError);
    }
  }

  lemma {:induction false} DrainKeeps(r: Reader, messages: seq<Payload>, turns: seq<Turn>)
    requires AllSized(messages) && Placed(r, messages) && AllPossible(r, Encoded(messages), turns)
    ensures Placed(Drain(r, Encoded(messages), turns), messages)
    decreases |turns|
  {
    hide Handle, Encoded, TurnPossible;
    if turns != [] && !r.closed {
      HandleKeeps(r, messages, turns[0]);
      DrainKeeps(Handle(r, Encoded(messages), turns[0]), messages, turns[1..]);
    }
  }

  /** Whatever the reads give, the messages handed on are a prefix of those written. */
  lemma DeliversPrefix(messages: seq<Payload>, turns: seq<Turn>)
    requires AllSized(messages) && AllPossible(START, Encoded(messages), turns)
    ensures Drain(START, Encoded(messages), turns).delivered <= messages
  {
    assert messages[..0] == [];
    DrainKeeps(START, messages, turns);
  }

  /** A read that would block, or gets all it asked for; and an action that succeeds. */
  predicate Unhurt(r: Reader, stream: Payload, turn: Turn)
    requires TurnPossible(r, stream, turn)
  {
    && turn.actionError == SUCCESS
    && if r.phase.AtHeader? then
         && (turn.header.WouldBlock? || turn.header == Got(HEADER_SIZE))
         && (var (r', error) := ReadHeader(r, stream, turn.header);
             error == SUCCESS && r'.phase.AtPayload? ==> turn.payload.WouldBlock? || turn.payload == Got(r'.msgSize))
       else turn.payload.WouldBlock? || turn.payload == Got(r.msgSize)
  }

  predicate AllUnhurt(r: Reader, stream: Payload, turns: seq<Turn>)
    requires AllPossible(r, stream, turns)
    decreases |turns|
  {
    turns == [] || r.closed ||
    (Unhurt(r, stream, turns[0]) && AllUnhurt(Handle(r, stream, turns[0]), stream, turns[1..]))
  }

  lemma UnhurtStaysOpen(r: Reader, messages: seq<Payload>, turn: Turn)
    requires AllSized(messages) && Placed(r, messages) && !r.closed
    requires TurnPossible(r, Encoded(messages), turn) && Unhurt(r, Encoded(messages), turn)
    ensures !Handle(r, Encoded(messages), turn).closed
  {
    hide ReadHeader, ReadPayload, Encoded, Possible;
    var stream := Encoded(messages);
    if r.phase.AtHeader? {
      HeaderKeeps(r, messages, turn.header);
      var (r', error) := ReadHeader(r, stream, turn.header);
      if error == SUCCESS && r'.phase.AtPayload? { PayloadKeeps(r', messages, turn.payload, turn.actionError); }
    } else {
      PayloadKeeps(r, messages, turn.payload, turn.actionError);
    }
  }

  lemma {:induction false} DrainStaysOpen(r: Reader, messages: seq<Payload>, turns: seq<Turn>)
    requires AllSized(messages) && Placed(r, messages) && !r.closed
    requires AllPossible(r, Encoded(messages), turns) && AllUnhurt(r, Encoded(messages), turns)
    ensures !Drain(r, Encoded(messages), turns).closed
    decreases |turns|
  {
    hide Handle, Encoded, TurnPossible, Unhurt;
    if turns != [] {
      HandleKeeps(r, messages, turns[0]);
      UnhurtStaysOpen(r, messages, turns[0]);
      DrainStaysOpen(Handle(r, Encoded(messages), turns[0]), messages, turns[1..]);
    }
  }

  /** Where no read is cut short the connection stays open, also across a read that would
      block between a header and its payload; and once the stream is drained, exactly the
      messages written have been handed on. */
  lemma DeliversAll(messages: seq<Payload>, turns: seq<Turn>)
    requires AllSized(messages) && AllPossible(START, Encoded(messages), turns)
    requires AllUnhurt(START, Encoded(messages), turns)
    ensures var r := Drain(START, Encoded(messages), turns);
            !r.closed && (r.taken == |Encoded(messages)| ==> r.delivered == messages)
  {
    assert messages[..0] == [];
    DrainKeeps(START, messages, turns);
    DrainStaysOpen(START, messages, turns);
    var r := Drain(START, Encoded(messages), turns);
    var d := |r.delivered|;
    if d < |messages| { StreamAt(messages, d, Encoded(messages)); }
  }

  /** A message is taken up exactly if its size, as the header holds it, is 1 to 2^20. */
  lemma AcceptsBySize(m: Payload, after: Payload)
    ensures var (r, error) := ReadHeader(START, Framed(m) + after, Got(HEADER_SIZE));
            && (error == SUCCESS <==> 0 < |m| % 0x1_0000_0000 <= MAX_SIZE)
            && (error == SUCCESS <==> r.phase.AtPayload?)
            && (error != SUCCESS ==> error == INVALID)
  {
    hide Get, Header;
    assert Framed(m) + after == [] + Header(|m|) + (m + after);
    HeaderReads([], |m|, m + after);
  }

  /** What a readable event reports, and what it leaves, by the read that decides it: the error
      of a read that failed, with nothing consumed by it; the end of the stream where a header
      is due; `EINVAL` for any other short read; and behind a whole message what the user of
      the connection answered. */
  lemma ReceiveReports(r: Reader, stream: Payload, turn: Turn)
    requires TurnPossible(r, stream, turn)
    ensures var (r', error) := Receive(r, stream, turn);
            && (r.phase.AtHeader? && turn.header.WouldBlock? ==> r' == r && error == SUCCESS)
            && (r.phase.AtHeader? && turn.header.Failed? ==> r' == r && error == turn.header.error)
            && (r.phase.AtHeader? && turn.header == Got(0) ==> r' == r && error == EOF)
            && (r.phase.AtHeader? && turn.header.Got? && 0 < turn.header.count < HEADER_SIZE ==> error == INVALID)
            && (r.phase.AtPayload? && turn.payload.WouldBlock? ==> r' == r && error == SUCCESS)
            && (r.phase.AtPayload? && turn.payload.Failed? ==> r' == r && error == turn.payload.error)
            && (r.phase.AtPayload? && turn.payload.Got? && turn.payload.count < r.msgSize ==> error == INVALID)
            && (r'.delivered != r.delivered ==>
                  && error == turn.actionError && r'.phase.AtHeader? && r'.taken >= r'.msgSize
                  && r'.delivered == r.delivered + [stream[r'.taken - r'.msgSize..r'.taken]])
  {
    hide Get;
  }

  // ---- The socket.

  class Stream {
    var bytes: Payload
    var taken: nat

    constructor ()
      ensures bytes == [] && taken == 0
    {
      bytes, taken := [], 0;
    }

    /** `::send` of a whole buffer, or an error. */
    method Write(data: Payload, error: int) returns (result: int)
      modifies this`bytes
      ensures result == error
      ensures bytes == if error == SUCCESS then old(bytes) + data else old(bytes)
    {
      if error == SUCCESS { bytes := bytes + data; }
      result := error;
    }
  }

  lemma JoinedAppend(fragments: seq<Payload>, f: Payload)
    ensures Joined(fragments + [f]) == Joined(fragments) + f
  {
    assert (fragments + [f])[..|fragments|] == fragments;
  }

  lemma SucceedFirst(errors: seq<int>, n: nat)
    requires n <= |errors| && forall i :: 0 <= i < n ==> errors[i] == SUCCESS
    requires n < |errors| ==> errors[n] != SUCCESS
    ensures Succeed(errors) == n
  {
  }

  lemma OneMoreJoined(before: Payload, fragments: seq<Payload>, k: nat)
    requires k < |fragments|
    ensures before + Joined(fragments[..k]) + fragments[k] == before + Joined(fragments[..k + 1])
  {
    assert fragments[..k + 1] == fragments[..k] + [fragments[k]];
    JoinedAppend(fragments[..k], fragments[k]);
  }

  lemma NothingJoined(before: Payload, fragments: seq<Payload>)
    ensures before + Joined(fragments[..0]) == before
  {
  }

  /** What the header and the first `k` fragments come to. */
  lemma HeaderAndFragments(before: Payload, fragments: seq<Payload>, errors: seq<int>, k: nat)
    requires |errors| == |fragments| + 1 && k <= |fragments| && Succeed(errors) == k + 1
    ensures before + Header(|Joined(fragments)|) + Joined(fragments[..k]) == before + Written(fragments, errors)
  {
    hide Header, Joined, Succeed;
  }

  method TotalSize(fragments: seq<Payload>) returns (size: nat)
    ensures size == |Joined(fragments)|
  {
    size := 0;
    var k := 0;
    while k < |fragments|
      invariant 0 <= k <= |fragments|
      invariant size == |Joined(fragments[..k])|
    {
      assert fragments[..k + 1] == fragments[..k] + [fragments[k]];
      JoinedAppend(fragments[..k], fragments[k]);
      size := size + |fragments[k]|;
      k := k + 1;
    }
    assert fragments[..|fragments|] == fragments;
  }

  /** The fragments one after the other; `k` of them are written. */
  method WriteFragments(s: Stream, fragments: seq<Payload>, errors: seq<int>) returns (error: int, ghost k: nat)
    requires |errors| == |fragments|
    modifies s`bytes
    ensures k <= |fragments| && s.bytes == old(s.bytes) + Joined(fragments[..k])
    ensures forall i :: 0 <= i < k ==> errors[i] == SUCCESS
    ensures error == (if k < |fragments| then errors[k] else SUCCESS) && (k < |fragments| ==> error != SUCCESS)
  {
    hide Joined;
    var n := 0;
    NothingJoined(s.bytes, fragments);
    while n < |fragments|
      invariant 0 <= n <= |fragments|
      invariant forall i :: 0 <= i < n ==> errors[i] == SUCCESS
      invariant s.bytes == old(s.bytes) + Joined(fragments[..n])
    {
      error := s.Write(fragments[n], errors[n]);
      if error != SUCCESS { return error, n; }
      OneMoreJoined(old(s.bytes), fragments, n);
      n := n + 1;
    }
    return SUCCESS, n;
  }

  /** `SocketBase::send`; `errors` is what each of its system calls gives. */
  method Send(s: Stream, fragments: seq<Payload>, errors: seq<int>) returns (error: int)
    requires |errors| == |fragments| + 1
    modifies s`bytes
    ensures s.bytes == old(s.bytes) + Written(fragments, errors)
    ensures error == if Succeed(errors) == |errors| then SUCCESS else errors[Succeed(errors)]
  {
    var totalSize := TotalSize(fragments);
    error := s.Write(Header(totalSize), errors[0]);
    if error != SUCCESS {
      NothingWritten(s.bytes, fragments, errors);
      return;
    }
    hide Header, Succeed, Joined, Written;
    ghost var k;
    error, k := WriteFragments(s, fragments, errors[1..]);
    AllBefore(errors, k);
    HeaderAndFragments(old(s.bytes), fragments, errors, k);
  }

  lemma NothingWritten(before: Payload, fragments: seq<Payload>, errors: seq<int>)
    requires |errors| == |fragments| + 1 && errors[0] != SUCCESS
    ensures before + Written(fragments, errors) == before && Succeed(errors) == 0
  {
  }

  lemma AllBefore(errors: seq<int>, k: nat)
    requires k < |errors| && errors[0] == SUCCESS
    requires forall i :: 0 <= i < k ==> errors[1..][i] == SUCCESS
    requires k + 1 < |errors| ==> errors[1..][k] != SUCCESS
    ensures Succeed(errors) == k + 1
  {
    forall i | 0 <= i < k + 1 ensures errors[i] == SUCCESS {
      if i > 0 { assert errors[i] == errors[1..][i - 1]; }
    }
    SucceedFirst(errors, k + 1);
  }

  /** A send that succeeds appends one framed message, whatever its fragments were; one that
      fails at its header appends nothing. */
  lemma SentWhole(messages: seq<Payload>, fragments: seq<Payload>, errors: seq<int>)
    requires |errors| == |fragments| + 1
    ensures Succeed(errors) == |errors| ==>
              Encoded(messages) + Written(fragments, errors) == Encoded(messages + [Joined(fragments)])
    ensures Succeed(errors) == 0 ==> Encoded(messages) + Written(fragments, errors) == Encoded(messages)
  {
    var more := messages + [Joined(fragments)];
    assert more[..|messages|] == messages;
    assert fragments[..|fragments|] == fragments;
  }

  class Socket {
    var readPhase: Phase
    var readMsgSize: nat
    ghost var delivered: seq<Payload>

    constructor ()
      ensures readPhase == AtHeader && readMsgSize == 0 && delivered == []
    {
      readPhase, readMsgSize := AtHeader, 0;
      delivered := [];
    }

    ghost function Abs(s: Stream): Reader
      reads this, s
    {
      Reader(readPhase, readMsgSize, s.taken, delivered, false)
    }

    /** `receiveMessage`; `message` is what the action was called with, if it was. */
    method ReceiveMessage(s: Stream, turn: Turn) returns (error: int, message: Option<Payload>)
      requires TurnPossible(Abs(s), s.bytes, turn)
      modifies this, s`taken
      ensures (Abs(s), error) == Receive(old(Abs(s)), s.bytes, turn)
      ensures delivered == old(delivered) + if message.Some? then [message.value] else []
    {
      message := None;
      if readPhase == AtHeader {
        match turn.header {
          case WouldBlock => return SUCCESS, None;
          case Failed(e) => return e, None;
          case Got(count) =>
            var at := s.taken;
            s.taken := s.taken + count;
            if count == 0 { return EOF, None; }
            if count != HEADER_SIZE || Get(s.bytes, at, 4) != SIGNATURE { return INVALID, None; }
            var size := Get(s.bytes, at + 4, 4);
            if size == 0 || size > MAX_SIZE { return INVALID, None; }
            readMsgSize := size;
            readPhase := AtPayload;
        }
      }
      match turn.payload {
        case WouldBlock => error := SUCCESS;
        case Failed(e) => error := e;
        case Got(count) =>
          var at := s.taken;
          s.taken := s.taken + count;
          if count != readMsgSize { return INVALID, None; }
          readPhase := AtHeader;
          message := Some(s.bytes[at..at + count]);
          delivered := delivered + [message.value];
          error := turn.actionError;
      }
    }
  }
}
