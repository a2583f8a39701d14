/** Sends that fail on the way, and what the peer then makes of the stream
    (`pipe/socket_base.cpp`). A send that fails behind its header leaves a torn message; the
    peer fills it with whatever is sent next. */
module TornStream {
  import opened IpcTypes
  import opened Bytes
  import opened Framing

  // ---- What sends leave on the stream.

  /** One call of `send`: the fragments, and what each of its system calls gives. */
  datatype Attempt = Attempt(fragments: seq<Payload>, errors: seq<int>)
  {
    predicate Posed() {
      |errors| == |fragments| + 1
    }

    predicate Taken() {
      Succeed(errors) == |errors|
    }

    /** It failed, but not at its header. */
    predicate Torn() {
      0 < Succeed(errors) < |errors|
    }
  }

  predicate AllPosed(attempts: seq<Attempt>) {
    forall i :: 0 <= i < |attempts| ==> attempts[i].Posed()
  }

  /** What these sends leave on the stream. */
  function SentBytes(attempts: seq<Attempt>): Payload
    requires AllPosed(attempts)
  {
    if attempts == [] then []
    else
      var last := attempts[|attempts| - 1];
      SentBytes(attempts[..|attempts| - 1]) + Written(last.fragments, last.errors)
  }

  /** The message that an attempt adds to those accepted, if any. */
  function TakenOf(a: Attempt): seq<Payload> {
    if a.Taken() then [Joined(a.fragments)] else []
  }

  /** The messages whose sends returned without error. */
  function TakenMessages(attempts: seq<Attempt>): seq<Payload> {
    if attempts == [] then []
    else
      TakenMessages(attempts[..|attempts| - 1]) + TakenOf(attempts[|attempts| - 1])
  }

  lemma EncodedAppend(messages: seq<Payload>, m: Payload)
    ensures Encoded(messages + [m]) == Encoded(messages) + Framed(m)
  {
    assert (messages + [m])[..|messages|] == messages;
  }

  lemma OneAttempt(messages: seq<Payload>, a: Attempt)
    requires a.Posed()
    ensures var after := |Encoded(messages + (if a.Taken() then [Joined(a.fragments)] else []))|;
            && after <= |Encoded(messages)| + |Written(a.fragments, a.errors)|
            && (a.Torn() ==> after < |Encoded(messages)| + |Written(a.fragments, a.errors)|)
  {
    hide Encoded, Header, Succeed, Joined;
    SentWhole(messages, a.fragments, a.errors);
    assert messages + [] == messages;
  }

  lemma {:induction false} TornMakesLonger(attempts: seq<Attempt>)
    requires AllPosed(attempts)
    ensures |SentBytes(attempts)| >= |Encoded(TakenMessages(attempts))|
    ensures (exists i :: 0 <= i < |attempts| && attempts[i].Torn()) ==>
              |SentBytes(attempts)| > |Encoded(TakenMessages(attempts))|
    decreases |attempts|
  {
    hide Encoded, Written, Joined, Succeed;
    if attempts == [] {
      EmptyEncoding();
    } else {
      var shorter, last := attempts[..|attempts| - 1], attempts[|attempts| - 1];
      TornMakesLonger(shorter);
      assert last.Posed();
      OneAttempt(TakenMessages(shorter), last);
      if i :| 0 <= i < |shorter| && attempts[i].Torn() { assert shorter[i].Torn(); }
    }
  }

  lemma EmptyEncoding()
    ensures Encoded([]) == []
  {
  }

  lemma {:induction false} UntornIsWhole(attempts: seq<Attempt>)
    requires AllPosed(attempts) && forall i :: 0 <= i < |attempts| ==> !attempts[i].Torn()
    ensures SentBytes(attempts) == Encoded(TakenMessages(attempts))
    decreases |attempts|
  {
    hide Encoded, Header, Succeed, Framed, Written;
    if attempts == [] {
      EmptyEncoding();
    } else {
      var shorter, last := attempts[..|attempts| - 1], attempts[|attempts| - 1];
      UntornIsWhole(shorter);
      assert last.Posed() && !last.Torn();
      SentWhole(TakenMessages(shorter), last.fragments, last.errors);
      assert TakenMessages(shorter) + [] == TakenMessages(shorter);
    }
  }

  /** After any sends the stream holds exactly the messages that were accepted if and only if
      no send failed after its header was written. */
  lemma StreamIsWhatWasTaken(attempts: seq<Attempt>)
    requires AllPosed(attempts)
    ensures SentBytes(attempts) == Encoded(TakenMessages(attempts)) <==>
            forall i :: 0 <= i < |attempts| ==> !attempts[i].Torn()
  {
    TornMakesLonger(attempts);
    if forall i :: 0 <= i < |attempts| ==> !attempts[i].Torn() { UntornIsWhole(attempts); }
  }

  lemma {:induction false} JoinedPrefix(fragments: seq<Payload>, n: nat)
    requires n <= |fragments|
    ensures Joined(fragments[..n]) <= Joined(fragments)
    decreases |fragments|
  {
    if n == |fragments| {
      assert fragments[..n] == fragments;
    } else {
      var shorter := fragments[..|fragments| - 1];
      JoinedPrefix(shorter, n);
      assert shorter[..n] == fragments[..n];
    }
  }

  /** What the torn message leaves of itself behind its header. */
  function Remains(a: Attempt): Payload
    requires a.Posed() && a.Torn()
  {
    Joined(a.fragments[..Succeed(a.errors) - 1])
  }

  /** After a torn message, a peer that has read all before it takes what follows on the
      stream, the header of the next message first, for the rest of the torn one. */
  lemma TornTakesWhatFollows(before: seq<Payload>, a: Attempt, after: Payload, r: Reader)
    requires a.Posed() && a.Torn() && Sized(Joined(a.fragments))
    requires |Remains(a)| + |after| >= |Joined(a.fragments)|
    requires r.phase.AtHeader? && r.taken == |Encoded(before)| && r.delivered == before && !r.closed
    ensures |Remains(a)| <= |Joined(a.fragments)|
    ensures var stream := Encoded(before) + Written(a.fragments, a.errors) + after;
            var n := |Joined(a.fragments)|;
            var turn := Turn(Got(HEADER_SIZE), Got(n), SUCCESS);
            && TurnPossible(r, stream, turn) && Unhurt(r, stream, turn)
            && (var r' := Handle(r, stream, turn);
                && !r'.closed && r'.taken == r.taken + HEADER_SIZE + n
                && r'.delivered == before + [Remains(a) + after[..n - |Remains(a)|]])
  {
    hide Encoded, Header, Get, Succeed, Joined;
    JoinedPrefix(a.fragments, Succeed(a.errors) - 1);
    var start, n, part := Encoded(before), |Joined(a.fragments)|, Remains(a);
    var stream := start + Written(a.fragments, a.errors) + after;
    assert stream == start + Header(n) + (part + after);
    HeaderReads(start, n, part + after);
    assert stream[|start| + HEADER_SIZE..|start| + HEADER_SIZE + n] == part + after[..n - |part|];
  }

  // ---- What a stream holds, whoever wrote it.

  /** At this place there is a header that is taken up, with all of its message behind it. */
  predicate HasMessage(stream: Payload, at: nat) {
    && at + HEADER_SIZE <= |stream| && Get(stream, at, 4) == SIGNATURE
    && (var size := Get(stream, at + 4, 4); 0 < size <= MAX_SIZE && at + HEADER_SIZE + size <= |stream|)
  }

  function Next(stream: Payload, at: nat): (end: nat)
    requires HasMessage(stream, at)
    ensures at + HEADER_SIZE < end <= |stream|
  {
    at + HEADER_SIZE + Get(stream, at + 4, 4)
  }

  /** The messages from here on, up to the first place where there is none. */
  function Held(stream: Payload, at: nat): seq<Payload>
    decreases |stream| - at
  {
    if !HasMessage(stream, at) then []
    else [stream[at + HEADER_SIZE..Next(stream, at)]] + Held(stream, Next(stream, at))
  }

  /** What the reader has still to hand on is what the stream holds from its place on. */
  ghost predicate OnTrack(r: Reader, stream: Payload) {
    && r.delivered <= Held(stream, 0)
    && (!r.closed ==>
          match r.phase
          case AtHeader => r.delivered + Held(stream, r.taken) == Held(stream, 0)
          case AtPayload =>
            && r.taken >= HEADER_SIZE && Get(stream, r.taken - HEADER_SIZE, 4) == SIGNATURE
            && 0 < r.msgSize <= MAX_SIZE && r.msgSize == Get(stream, r.taken - HEADER_SIZE + 4, 4)
            && r.delivered + Held(stream, r.taken - HEADER_SIZE) == Held(stream, 0))
  }

  lemma PayloadOnTrack(r: Reader, stream: Payload, got: Recv, actionError: int)
    requires OnTrack(r, stream) && !r.closed && r.phase.AtPayload? && Possible(r, stream, r.msgSize, got)
    ensures var (r', error) := ReadPayload(r, stream, got, actionError);
            !r'.closed && r'.delivered <= Held(stream, 0) && (error == SUCCESS ==> OnTrack(r', stream))
  {
    hide Get;
    if got == Got(r.msgSize) {
      var at := r.taken - HEADER_SIZE;
      assert HasMessage(stream, at) && Next(stream, at) == r.taken + r.msgSize;
      assert Held(stream, at) == [stream[r.taken..r.taken + r.msgSize]] + Held(stream, r.taken + r.msgSize);
    }
  }

  lemma HeaderOnTrack(r: Reader, stream: Payload, got: Recv)
    requires OnTrack(r, stream) && !r.closed && r.phase.AtHeader? && Possible(r, stream, HEADER_SIZE, got)
    ensures var (r', error) := ReadHeader(r, stream, got);
            !r'.closed && r'.delivered == r.delivered && (error == SUCCESS ==> OnTrack(r', stream))
  {
    hide Get, Held;
  }

  lemma HandleOnTrack(r: Reader, stream: Payload, turn: Turn)
    requires OnTrack(r, stream) && !r.closed && TurnPossible(r, stream, turn)
    ensures OnTrack(Handle(r, stream, turn), stream)
  {
    hide ReadHeader, ReadPayload, Held, Possible;
    if r.phase.AtHeader? {
      HeaderOnTrack(r, stream, turn.header);
      var (r', error) := ReadHeader(r, stream, turn.header);
      if error == SUCCESS && r'.phase.AtPayload? { PayloadOnTrack(r', stream, turn.payload, turn.actionError); }
    } else {
      PayloadOnTrack(r, stream, turn.payload, turn.actionError);
    }
  }

  lemma {:induction false} DrainOnTrack(r: Reader, stream: Payload, turns: seq<Turn>)
    requires OnTrack(r, stream) && AllPossible(r, stream, turns)
    ensures OnTrack(Drain(r, stream, turns), stream)
    decreases |turns|
  {
    hide Handle, OnTrack, TurnPossible;
    if turns != [] && !r.closed {
      HandleOnTrack(r, stream, turns[0]);
      DrainOnTrack(Handle(r, stream, turns[0]), stream, turns[1..]);
    }
  }

  /** Reads that each get all they ask for. */
  function Patient(stream: Payload, at: nat): seq<Turn>
    decreases |stream| - at
  {
    if !HasMessage(stream, at) then []
    else [Turn(Got(HEADER_SIZE), Got(Get(stream, at + 4, 4)), SUCCESS)] + Patient(stream, Next(stream, at))
  }

  lemma PatientTurn(r: Reader, stream: Payload)
    requires r.phase.AtHeader? && !r.closed && HasMessage(stream, r.taken)
    ensures var turn := Turn(Got(HEADER_SIZE), Got(Get(stream, r.taken + 4, 4)), SUCCESS);
            TurnPossible(r, stream, turn) &&
            var r' := Handle(r, stream, turn);
            && r'.phase.AtHeader? && !r'.closed && r'.taken == Next(stream, r.taken)
            && r'.delivered == r.delivered + [stream[r.taken + HEADER_SIZE..Next(stream, r.taken)]]
  {
    hide Get;
  }

  lemma {:induction false} PatientReadsAll(r: Reader, stream: Payload)
    requires r.phase.AtHeader? && !r.closed
    ensures AllPossible(r, stream, Patient(stream, r.taken))
    ensures Drain(r, stream, Patient(stream, r.taken)).delivered == r.delivered + Held(stream, r.taken)
    decreases |stream| - r.taken
  {
    hide HasMessage, TurnPossible, Handle, Get;
    var turns := Patient(stream, r.taken);
    if HasMessage(stream, r.taken) {
      PatientTurn(r, stream);
      assert turns[1..] == Patient(stream, Next(stream, r.taken));
      PatientReadsAll(Handle(r, stream, turns[0]), stream);
    }
  }

  /** Any schedule of reads hands on a prefix of what the stream holds, and some schedule
      hands on all of it. */
  lemma HandsOnWhatIsHeld(stream: Payload)
    ensures forall turns ::
              AllPossible(START, stream, turns) ==> Drain(START, stream, turns).delivered <= Held(stream, 0)
    ensures exists turns ::
              AllPossible(START, stream, turns) && Drain(START, stream, turns).delivered == Held(stream, 0)
  {
    hide Held, Drain, AllPossible;
    forall turns | AllPossible(START, stream, turns) ensures Drain(START, stream, turns).delivered <= Held(stream, 0) {
      DrainOnTrack(START, stream, turns);
    }
    PatientReadsAll(START, stream);
  }

  /** Of a stream that begins with whole messages it holds those first. */
  lemma {:induction false} EncodedIsHeld(messages: seq<Payload>, k: nat, stream: Payload)
    requires AllSized(messages) && Encoded(messages) <= stream && k <= |messages|
    ensures Held(stream, |Encoded(messages[..k])|) == messages[k..] + Held(stream, |Encoded(messages)|)
    decreases |messages| - k
  {
    hide Get, Encoded;
    if k == |messages| {
      assert messages[..k] == messages;
    } else {
      StreamAt(messages, k, stream);
      assert Sized(messages[k]);
      EncodedIsHeld(messages, k + 1, stream);
    }
  }

  // ---- When the peer stops getting what was accepted.

  /** Attempt `i` is the first that is torn. */
  ghost predicate FirstTorn(attempts: seq<Attempt>, i: nat) {
    i < |attempts| && attempts[i].Torn() && forall j :: 0 <= j < i ==> !attempts[j].Torn()
  }

  /** The messages accepted before attempt `i`, and the bytes sent after it. */
  function Before(attempts: seq<Attempt>, i: nat): seq<Payload>
    requires i <= |attempts|
  {
    TakenMessages(attempts[..i])
  }

  function After(attempts: seq<Attempt>, i: nat): Payload
    requires AllPosed(attempts) && i < |attempts|
  {
    SentBytes(attempts[i + 1..])
  }

  /** How many bytes a torn message lacks. */
  function Lacks(a: Attempt): (n: int)
    requires a.Posed() && a.Torn()
  {
    |Joined(a.fragments)| - |Remains(a)|
  }

  /** The peer gets enough bytes to fill attempt `i`. */
  predicate Filled(attempts: seq<Attempt>, i: nat)
    requires AllPosed(attempts) && i < |attempts| && attempts[i].Torn()
  {
    Lacks(attempts[i]) <= |After(attempts, i)|
  }

  /** What is then taken for its message. */
  function Mixed(attempts: seq<Attempt>, i: nat): Payload
    requires AllPosed(attempts) && i < |attempts| && attempts[i].Torn() && Filled(attempts, i)
    requires Lacks(attempts[i]) >= 0
  {
    Remains(attempts[i]) + After(attempts, i)[..Lacks(attempts[i])]
  }

  lemma OneMore(attempts: seq<Attempt>, a: Attempt)
    requires AllPosed(attempts) && a.Posed()
    ensures SentBytes(attempts + [a]) == SentBytes(attempts) + Written(a.fragments, a.errors)
  {
    hide Written, Attempt.Posed;
    assert (attempts + [a])[..|attempts|] == attempts;
  }

  lemma PosedTogether(first: seq<Attempt>, second: seq<Attempt>)
    requires AllPosed(first) && AllPosed(second)
    ensures AllPosed(first + second)
  {
    hide Attempt.Posed;
  }

  lemma {:induction false} SentSplit(first: seq<Attempt>, second: seq<Attempt>)
    requires AllPosed(first) && AllPosed(second) && AllPosed(first + second)
    ensures SentBytes(first + second) == SentBytes(first) + SentBytes(second)
    decreases |second|
  {
    hide Written, Attempt.Posed;
    if second == [] {
      assert first + second == first;
    } else {
      var shorter, last := second[..|second| - 1], second[|second| - 1];
      PosedTogether(first, shorter);
      SentSplit(first, shorter);
      assert (first + second)[..|first + second| - 1] == first + shorter;
    }
  }

  lemma {:induction false} TakenSplit(first: seq<Attempt>, second: seq<Attempt>)
    ensures TakenMessages(first + second) == TakenMessages(first) + TakenMessages(second)
    decreases |second|
  {
    hide TakenOf;
    if second == [] {
      assert first + second == first;
    } else {
      var shorter := second[..|second| - 1];
      TakenSplit(first, shorter);
      assert (first + second)[..|first + second| - 1] == first + shorter;
    }
  }

  lemma PosedAround(attempts: seq<Attempt>, i: nat)
    requires AllPosed(attempts) && i < |attempts|
    ensures AllPosed(attempts[..i]) && AllPosed(attempts[i + 1..]) && attempts[i].Posed()
    ensures AllPosed(attempts[..i] + [attempts[i]])
    ensures attempts == (attempts[..i] + [attempts[i]]) + attempts[i + 1..]
  {
    hide Attempt.Posed;
  }

  lemma SplitAtTorn(attempts: seq<Attempt>, i: nat)
    requires AllPosed(attempts) && FirstTorn(attempts, i)
    ensures SentBytes(attempts) ==
            Encoded(Before(attempts, i)) + Header(|Joined(attempts[i].fragments)|) +
            (Remains(attempts[i]) + After(attempts, i))
  {
    hide AllPosed, Header, Encoded, Joined, SentBytes, TakenMessages, Written, Remains, Attempt.Posed, Attempt.Torn;
    var a := attempts[i];
    SentAround(attempts, i);
    BeforeIsWhole(attempts, i);
    WrittenOfTorn(a);
    Regroup(Encoded(Before(attempts, i)), Header(|Joined(a.fragments)|), Remains(a), After(attempts, i));
  }

  lemma SentAround(attempts: seq<Attempt>, i: nat)
    requires AllPosed(attempts) && i < |attempts|
    ensures AllPosed(attempts[..i]) && attempts[i].Posed()
    ensures SentBytes(attempts) ==
            (SentBytes(attempts[..i]) + Written(attempts[i].fragments, attempts[i].errors)) + After(attempts, i)
  {
    PosedAround(attempts, i);
    hide AllPosed, SentBytes, Written, Attempt.Posed;
    SentSplit(attempts[..i] + [attempts[i]], attempts[i + 1..]);
    OneMore(attempts[..i], attempts[i]);
  }

  lemma Regroup(a: Payload, b: Payload, c: Payload, d: Payload)
    ensures (a + (b + c)) + d == a + b + (c + d)
  {
  }

  lemma BeforeIsWhole(attempts: seq<Attempt>, i: nat)
    requires AllPosed(attempts) && FirstTorn(attempts, i)
    ensures SentBytes(attempts[..i]) == Encoded(Before(attempts, i))
  {
    hide Encoded, SentBytes, TakenMessages, Attempt.Torn, Attempt.Posed;
    UntornIsWhole(attempts[..i]);
  }

  lemma WrittenOfTorn(a: Attempt)
    requires a.Posed() && a.Torn()
    ensures Written(a.fragments, a.errors) == Header(|Joined(a.fragments)|) + Remains(a)
  {
    hide Header, Joined, Succeed;
  }

  lemma TakenAround(attempts: seq<Attempt>, i: nat)
    requires i < |attempts| && attempts[i].Torn()
    ensures TakenMessages(attempts) == Before(attempts, i) + TakenMessages(attempts[i + 1..])
  {
    hide TakenMessages, Succeed;
    var first, a := attempts[..i], attempts[i];
    assert attempts == (first + [a]) + attempts[i + 1..];
    TakenSplit(first + [a], attempts[i + 1..]);
    TakenSplit(first, [a]);
    OnlyOne(a);
  }

  lemma OnlyOne(a: Attempt)
    ensures TakenMessages([a]) == TakenOf(a)
  {
    hide TakenOf;
    assert [a][..0] == [];
  }

  lemma LacksSome(a: Attempt)
    requires a.Posed() && a.Torn()
    ensures Lacks(a) >= 0
  {
    JoinedPrefix(a.fragments, Succeed(a.errors) - 1);
  }

  /** Behind the messages before it, the stream holds the torn message if it is filled, mixed
      with what came after, and otherwise nothing more. */
  lemma HeldBehindTorn(attempts: seq<Attempt>, i: nat)
    requires AllPosed(attempts) && FirstTorn(attempts, i)
    requires AllSized(Before(attempts, i)) && Sized(Joined(attempts[i].fragments))
    ensures Lacks(attempts[i]) >= 0
    ensures var held := Held(SentBytes(attempts), 0);
            if Filled(attempts, i) then Before(attempts, i) + [Mixed(attempts, i)] <= held
            else held == Before(attempts, i)
  {
    hide Encoded, Header, Get, Joined, SentBytes, TakenMessages;
    var a, before := attempts[i], Before(attempts, i);
    var n, stream, at := |Joined(a.fragments)|, SentBytes(attempts), |Encoded(before)|;
    LacksSome(a);
    SplitAtTorn(attempts, i);
    assert stream == Encoded(before) + Header(n) + (Remains(a) + After(attempts, i));
    HeaderReads(Encoded(before), n, Remains(a) + After(attempts, i));
    assert before[..0] == [];
    EmptyEncoding();
    EncodedIsHeld(before, 0, stream);
    if Filled(attempts, i) {
      assert HasMessage(stream, at);
      assert stream[at + HEADER_SIZE..at + HEADER_SIZE + n] == Mixed(attempts, i);
    }
  }

  /** What a peer can be handed once a send was torn: never anything but the messages before
      it, unless the sends after it write at least the bytes it lacks; and then some schedule
      hands on more, and any that does hands on the mixed message next. */
  lemma TornDelivery(attempts: seq<Attempt>, i: nat)
    requires AllPosed(attempts) && FirstTorn(attempts, i)
    requires AllSized(Before(attempts, i)) && Sized(Joined(attempts[i].fragments))
    ensures Lacks(attempts[i]) >= 0
    ensures forall turns :: AllPossible(START, SentBytes(attempts), turns) ==>
              var handed := Drain(START, SentBytes(attempts), turns).delivered;
              || handed <= Before(attempts, i)
              || (Filled(attempts, i) && Before(attempts, i) + [Mixed(attempts, i)] <= handed)
    ensures (exists turns :: && AllPossible(START, SentBytes(attempts), turns)
                             && !(Drain(START, SentBytes(attempts), turns).delivered <= Before(attempts, i))) <==>
            Filled(attempts, i)
  {
    hide Encoded, SentBytes, TakenMessages, Joined, AllPossible, Drain, Held, Sized;
    var stream := SentBytes(attempts);
    HeldBehindTorn(attempts, i);
    HandsOnWhatIsHeld(stream);
  }

  /** While no torn message is filled, every schedule hands on a prefix of what was accepted. */
  lemma UnfilledIsPrefix(attempts: seq<Attempt>, turns: seq<Turn>)
    requires AllPosed(attempts) && AllPossible(START, SentBytes(attempts), turns)
    requires forall i :: 0 <= i < |attempts| ==> Sized(Joined(attempts[i].fragments))
    requires forall i :: FirstTorn(attempts, i) ==> !Filled(attempts, i)
    ensures Drain(START, SentBytes(attempts), turns).delivered <= TakenMessages(attempts)
  {
    hide Encoded, SentBytes, TakenMessages, Joined, AllPossible, Drain, Held, Sized;
    TakenAreSized(attempts);
    if i :| 0 <= i < |attempts| && attempts[i].Torn() {
      var first := FindTorn(attempts, i);
      TakenAreSized(attempts[..first]);
      TakenAround(attempts, first);
      TornDelivery(attempts, first);
    } else {
      UntornIsWhole(attempts);
      DeliversPrefix(TakenMessages(attempts), turns);
    }
  }

  /** The very first message behind the torn one's predecessors is not the next accepted one
      for some schedule, exactly if the torn one is filled and what fills it does not by chance
      make up that message. */
  lemma NextIsWrongIff(attempts: seq<Attempt>, i: nat)
    requires AllPosed(attempts) && FirstTorn(attempts, i)
    requires AllSized(Before(attempts, i)) && Sized(Joined(attempts[i].fragments))
    ensures Lacks(attempts[i]) >= 0
    ensures (exists turns :: && AllPossible(START, SentBytes(attempts), turns)
                             && NextIsWrong(attempts, i, Drain(START, SentBytes(attempts), turns).delivered)) <==>
            Filled(attempts, i) && !(Before(attempts, i) + [Mixed(attempts, i)] <= TakenMessages(attempts))
  {
    hide Encoded, SentBytes, TakenMessages, Joined, AllPossible, Drain, Held, Sized;
    TornDelivery(attempts, i);
  }

  predicate NextIsWrong(attempts: seq<Attempt>, i: nat, handed: seq<Payload>)
    requires i <= |attempts|
  {
    var n := |Before(attempts, i)|;
    |handed| > n && !(handed[..n + 1] <= TakenMessages(attempts))
  }

  ghost function FindTorn(attempts: seq<Attempt>, i: nat): (first: nat)
    requires i < |attempts| && attempts[i].Torn()
    ensures FirstTorn(attempts, first)
  {
    if FirstTorn(attempts, i) then i else var j :| 0 <= j < i && attempts[j].Torn(); FindTorn(attempts, j)
  }

  lemma {:induction false} TakenAreSized(attempts: seq<Attempt>)
    requires forall i :: 0 <= i < |attempts| ==> Sized(Joined(attempts[i].fragments))
    ensures AllSized(TakenMessages(attempts))
    decreases |attempts|
  {
    if attempts != [] { TakenAreSized(attempts[..|attempts| - 1]); }
  }
}
