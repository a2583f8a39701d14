/** What torn sends do to the routers' frames: a frame is numbered by its channel's tag and
    sequence, so nothing that fills a torn message passes for the next frame. */
module TornFrames {
  import opened IpcTypes
  import opened Bytes
  import opened RouteCodec
  import opened Framing
  import opened TornStream
  import opened Stack

  /** One frame that a router gives to the pipe, and what the system calls give. */
  datatype Sending = Sending(frame: Frame, errors: seq<int>)
  {
    function Made(): Attempt {
      Attempt(Fragments(frame), errors)
    }

    predicate Posed() {
      Sendable(frame) && |errors| == |Fragments(frame)| + 1
    }
  }

  predicate AllSent(sends: seq<Sending>) {
    forall i :: 0 <= i < |sends| ==> sends[i].Posed()
  }

  function Made(sends: seq<Sending>): (attempts: seq<Attempt>)
    requires AllSent(sends)
    ensures |attempts| == |sends| && AllPosed(attempts)
    ensures forall i :: 0 <= i < |sends| ==> attempts[i] == sends[i].Made()
  {
    seq(|sends|, i requires 0 <= i < |sends| => sends[i].Made())
  }

  /** The frames whose sends returned without error. */
  function Accepted(sends: seq<Sending>): seq<Frame> {
    if sends == [] then []
    else
      var last := sends[|sends| - 1];
      Accepted(sends[..|sends| - 1]) + (if last.Made().Taken() then [last.frame] else [])
  }

  /** A channel uses up a sequence number with every send, accepted or not. */
  predicate SameNumber(f: Frame, g: Frame) {
    f.ChannelMsg? && g.ChannelMsg? && f.tag == g.tag && f.sequence == g.sequence
  }

  predicate Apart(frames: seq<Frame>) {
    forall i, j :: 0 <= i < j < |frames| ==> !SameNumber(frames[i], frames[j])
  }

  predicate Numbered(sends: seq<Sending>) {
    Apart(seq(|sends|, i requires 0 <= i < |sends| => sends[i].frame))
  }

  lemma {:induction false} AcceptedMessages(sends: seq<Sending>)
    requires AllSent(sends)
    ensures TakenMessages(Made(sends)) == Messages(Accepted(sends))
    decreases |sends|
  {
    hide RouteCodec.Message, Fragments, Joined, Succeed;
    if sends != [] {
      var shorter, last := sends[..|sends| - 1], sends[|sends| - 1];
      AcceptedMessages(shorter);
      FragmentsJoin(last.frame);
      assert Made(sends)[..|sends| - 1] == Made(shorter);
    }
  }

  /** An accepted message is that of one of the sends. */
  lemma {:induction false} AcceptedFrom(sends: seq<Sending>, k: nat) returns (j: nat)
    requires k < |Accepted(sends)|
    ensures j < |sends| && Accepted(sends)[k] == sends[j].frame
    decreases |sends|
  {
    hide Fragments, Succeed;
    var shorter := sends[..|sends| - 1];
    if k < |Accepted(shorter)| { j := AcceptedFrom(shorter, k); } else { j := |sends| - 1; }
  }

  lemma HeaderBegins(size: nat)
    ensures Framing.Header(size)[0] == SIGNATURE % 256
  {
  }

  /** Whatever is sent after a torn message begins with a header. */
  lemma {:induction false} SentBegins(attempts: seq<Attempt>)
    requires AllPosed(attempts) && SentBytes(attempts) != []
    ensures SentBytes(attempts)[0] == SIGNATURE % 256
    decreases |attempts|
  {
    hide Framing.Header, Joined, Succeed;
    var shorter, last := attempts[..|attempts| - 1], attempts[|attempts| - 1];
    assert last.Posed();
    if SentBytes(shorter) != [] {
      SentBegins(shorter);
    } else {
      HeaderBegins(|Joined(last.fragments)|);
    }
  }

  /** A message of the routers begins with the tag of the union. */
  lemma MessageBegins(f: Frame)
    ensures RouteCodec.Message(f) != [] && RouteCodec.Message(f)[0] <= 3
  {
    hide Put;
  }

  lemma RemainsOfFrame(s: Sending)
    requires s.Posed() && s.Made().Torn()
    ensures Remains(s.Made()) == [] || (s.frame.ChannelMsg? && Remains(s.Made()) == Prefix(s.frame))
  {
    hide Prefix, Sendable;
    var fragments := Fragments(s.frame);
    var n := Succeed(s.errors) - 1;
    if n == 1 {
      assert fragments[..1] == [Prefix(s.frame)] && [Prefix(s.frame)][..0] == [];
      assert Joined([Prefix(s.frame)]) == [] + Prefix(s.frame);
    }
  }

  /** With its payload replaced by as many bytes, a frame is a frame of the same number. */
  lemma OtherPayload(f: Frame, g: Frame, payload: Payload)
    requires Sendable(f) && Sendable(g) && f.ChannelMsg? && |payload| == |f.payload|
    requires RouteCodec.Message(g) == Prefix(f) + payload
    ensures SameNumber(f, g)
  {
    var f' := f.(payload := payload);
    assert Prefix(f') == Prefix(f);
    hide Prefix, Parse, Pow256;
    RoundTrip(f');
    RoundTrip(g);
  }

  lemma MixedIsNoFrame(sends: seq<Sending>, i: nat, g: Frame)
    requires AllSent(sends) && FirstTorn(Made(sends), i) && Sendable(g) && !SameNumber(sends[i].frame, g)
    requires Lacks(Made(sends)[i]) >= 0 && Filled(Made(sends), i)
    ensures Mixed(Made(sends), i) != RouteCodec.Message(g)
  {
    hide Encoded, SentBytes, TakenMessages, Joined, Succeed, Prefix, Fragments, Sendable;
    var f, after := sends[i].frame, After(Made(sends), i);
    var filling := after[..Lacks(Made(sends)[i])];
    FragmentsJoin(f);
    RemainsOfFrame(sends[i]);
    MessageBegins(g);
    if Remains(Made(sends)[i]) == [] {
      SentBegins(Made(sends)[i + 1..]);
      assert filling[0] == after[0];
    } else if RouteCodec.Message(g) == Prefix(f) + filling {
      OtherPayload(f, g, filling);
    }
  }

  /** With this schedule of reads the peer is handed something that was not accepted then. */
  predicate GoesWrong(sends: seq<Sending>, turns: seq<Turn>)
    requires AllSent(sends)
  {
    && AllPossible(START, SentBytes(Made(sends)), turns)
    && !(Drain(START, SentBytes(Made(sends)), turns).delivered <= Messages(Accepted(sends)))
  }

  /** The frames handed on stop being a prefix of those accepted, for some schedule of reads,
      exactly if a send fails behind its header and the sends after it write at least the
      bytes that the first such message lacks. */
  lemma StopsBeingPrefixIff(sends: seq<Sending>)
    requires AllSent(sends) && Numbered(sends)
    ensures (exists turns :: GoesWrong(sends, turns)) <==>
            (exists i :: FirstTorn(Made(sends), i) && Filled(Made(sends), i))
  {
    hide GoesWrong, AllSent, Numbered, Filled, Attempt.Torn;
    if i :| FirstTorn(Made(sends), i) && Filled(Made(sends), i) {
      FilledIsWrong(sends, i);
    } else {
      forall turns ensures !GoesWrong(sends, turns) {
        if GoesWrong(sends, turns) { UnfilledIsRight(sends, turns); }
      }
    }
  }

  lemma UnfilledIsRight(sends: seq<Sending>, turns: seq<Turn>)
    requires AllSent(sends) && forall i :: FirstTorn(Made(sends), i) ==> !Filled(Made(sends), i)
    ensures !GoesWrong(sends, turns)
  {
    hide Encoded, SentBytes, TakenMessages, Joined, AllPossible, Drain, Sized, Filled, FirstTorn, Messages;
    MadeAreSized(sends);
    AcceptedMessages(sends);
    if AllPossible(START, SentBytes(Made(sends)), turns) { UnfilledIsPrefix(Made(sends), turns); }
  }

  lemma MadeAreSized(sends: seq<Sending>)
    requires AllSent(sends)
    ensures forall i :: 0 <= i < |sends| ==> Sized(Joined(Made(sends)[i].fragments))
  {
    hide RouteCodec.Message, Fragments, Joined, Encodable;
    forall i | 0 <= i < |sends| ensures Sized(Joined(Made(sends)[i].fragments)) {
      FragmentsJoin(sends[i].frame);
      assert sends[i].Posed();
    }
  }

  lemma FilledIsWrong(sends: seq<Sending>, i: nat)
    requires AllSent(sends) && Numbered(sends) && FirstTorn(Made(sends), i) && Filled(Made(sends), i)
    ensures exists turns :: GoesWrong(sends, turns)
  {
    hide Encoded, SentBytes, TakenMessages, Joined, AllPossible, Drain, Sized, Lacks, Filled, Mixed, Attempt.Torn;
    hide Messages;
    var attempts := Made(sends);
    MadeAreSized(sends);
    TakenAreSized(attempts[..i]);
    LacksSome(attempts[i]);
    NextIsWrongIff(attempts, i);
    MixedIsNotNext(sends, i);
    AcceptedMessages(sends);
    var turns :| && AllPossible(START, SentBytes(attempts), turns)
                 && NextIsWrong(attempts, i, Drain(START, SentBytes(attempts), turns).delivered);
    assert GoesWrong(sends, turns);
  }

  lemma MixedIsNotNext(sends: seq<Sending>, i: nat)
    requires AllSent(sends) && Numbered(sends) && FirstTorn(Made(sends), i) && Filled(Made(sends), i)
    requires Lacks(Made(sends)[i]) >= 0
    ensures !(Before(Made(sends), i) + [Mixed(Made(sends), i)] <= TakenMessages(Made(sends)))
  {
    hide TakenMessages, Joined, Lacks, Filled, Mixed, Attempt.Torn, Sending.Made, Sending.Posed, RouteCodec.Message;
    var later := sends[i + 1..];
    TakenAround(Made(sends), i);
    assert Made(later) == Made(sends)[i + 1..];
    AcceptedMessages(later);
    if Accepted(later) != [] {
      var j := AcceptedFrom(later, 0);
      assert later[j] == sends[i + 1 + j] && sends[i + 1 + j].Posed();
      PosedIsSendable(later[j]);
      NotSameNumber(sends, i, i + 1 + j);
      MixedIsNoFrame(sends, i, later[j].frame);
      assert TakenMessages(Made(sends))[|Before(Made(sends), i)|] == RouteCodec.Message(later[j].frame);
    }
  }

  lemma NotSameNumber(sends: seq<Sending>, i: nat, j: nat)
    requires Numbered(sends) && i < j < |sends|
    ensures !SameNumber(sends[i].frame, sends[j].frame)
  {
    var frames := seq(|sends|, k requires 0 <= k < |sends| => sends[k].frame);
    assert !SameNumber(frames[i], frames[j]);
  }

  lemma PosedIsSendable(s: Sending)
    requires s.Posed()
    ensures Sendable(s.frame)
  {
  }
}
