/** Frames over bytes: the routers' codec on top of the framing. This is what lets the
    network of `Network` pass whole frames. */
module Stack {
  import opened IpcTypes
  import opened Bytes
  import opened RouteCodec
  import opened Framing
  import opened TornStream

  /** What the routers give to the pipe for one frame (prefix, then payload if any). */
  function Fragments(f: Frame): seq<Payload> {
    if f.ChannelMsg? then [Prefix(f), f.payload] else [Prefix(f)]
  }

  lemma FragmentsJoin(f: Frame)
    ensures Joined(Fragments(f)) == RouteCodec.Message(f)
    ensures |RouteCodec.Message(f)| > 0
  {
    hide Put, Delimited;
    var first: seq<Payload> := [Prefix(f)];
    assert first[..0] == [] && [] + Prefix(f) == Prefix(f);
    assert Joined(first) == Joined(first[..0]) + Prefix(f);
    PrefixIsSomething(f);
    if f.ChannelMsg? {
      assert Fragments(f)[..1] == first;
    }
  }

  lemma PrefixIsSomething(f: Frame)
    ensures |Prefix(f)| > 0
  {
  }

  /** A frame the field widths and the size limit of the framing leave room for. */
  predicate Sendable(f: Frame) {
    Encodable(f) && |RouteCodec.Message(f)| <= MAX_SIZE
  }

  predicate AllSendable(frames: seq<Frame>) {
    forall i :: 0 <= i < |frames| ==> Sendable(frames[i])
  }

  function Messages(frames: seq<Frame>): (messages: seq<Payload>)
    ensures |messages| == |frames|
  {
    seq(|frames|, i requires 0 <= i < |frames| => RouteCodec.Message(frames[i]))
  }

  /** The bytes on the stream once the pipe has accepted these frames. */
  function OnWire(frames: seq<Frame>): Payload {
    Encoded(Messages(frames))
  }

  /** Sending one more frame: accepted whole, or refused at its header, it extends the log
      of accepted frames or leaves it alone. */
  lemma SendsFrame(frames: seq<Frame>, f: Frame, errors: seq<int>)
    requires |errors| == |Fragments(f)| + 1
    ensures Succeed(errors) == |errors| ==> OnWire(frames) + Written(Fragments(f), errors) == OnWire(frames + [f])
    ensures Succeed(errors) == 0 ==> OnWire(frames) + Written(Fragments(f), errors) == OnWire(frames)
    ensures 0 < Succeed(errors) < |errors| ==>
              var rest := Joined(Fragments(f)[..Succeed(errors) - 1]);
              && OnWire(frames) + Written(Fragments(f), errors) ==
                 OnWire(frames) + Framing.Header(|RouteCodec.Message(f)|) + rest
              && (OnWire(frames) + Written(Fragments(f), errors) == OnWire(frames + [f]) <==>
                  |rest| == |RouteCodec.Message(f)|)
  {
    hide Joined, Framing.Header, Encoded, Written, Succeed, RouteCodec.Message, Fragments;
    FragmentsJoin(f);
    SentWhole(Messages(frames), Fragments(f), errors);
    assert (frames + [f])[..|frames|] == frames;
    assert Messages(frames + [f]) == Messages(frames) + [RouteCodec.Message(f)];
    if 0 < Succeed(errors) < |errors| { TornFrame(frames, f, errors); }
  }

  lemma TornFrame(frames: seq<Frame>, f: Frame, errors: seq<int>)
    requires |errors| == |Fragments(f)| + 1 && 0 < Succeed(errors) < |errors|
    requires Messages(frames + [f]) == Messages(frames) + [RouteCodec.Message(f)]
    ensures var rest := Joined(Fragments(f)[..Succeed(errors) - 1]);
            && OnWire(frames) + Written(Fragments(f), errors) ==
               OnWire(frames) + Framing.Header(|RouteCodec.Message(f)|) + rest
            && (OnWire(frames) + Written(Fragments(f), errors) == OnWire(frames + [f]) <==>
                |rest| == |RouteCodec.Message(f)|)
  {
    hide Encoded, Joined, Framing.Header, Succeed, RouteCodec.Message, Fragments, Messages;
    FragmentsJoin(f);
    var n, m := Succeed(errors), RouteCodec.Message(f);
    var rest := Joined(Fragments(f)[..n - 1]);
    JoinedPrefix(Fragments(f), n - 1);
    EncodedAppend(Messages(frames), m);
    assert OnWire(frames) + (Framing.Header(|m|) + rest) == OnWire(frames) + Framing.Header(|m|) + rest;
    if |rest| == |m| { assert rest == m; }
  }

  lemma MessagesAreSized(frames: seq<Frame>)
    requires AllSendable(frames)
    ensures AllSized(Messages(frames))
  {
    hide RouteCodec.Message, Encodable;
    forall i | 0 <= i < |frames| ensures Sized(Messages(frames)[i]) {
      FragmentsJoin(frames[i]);
      assert Sendable(frames[i]);
    }
  }

  /** Whatever the reads give, the peer parses a prefix of the frames that were accepted,
      each exactly as it was sent: a connection that breaks loses only a tail. */
  lemma FramesArriveInOrder(frames: seq<Frame>, turns: seq<Turn>)
    requires AllSendable(frames) && AllPossible(START, OnWire(frames), turns)
    ensures var read := Drain(START, OnWire(frames), turns).delivered;
            |read| <= |frames| && forall i :: 0 <= i < |read| ==> Parse(read[i]) == Some(frames[i])
  {
    hide RouteCodec.Message, Encodable, Parse, Encoded, Drain, AllPossible;
    MessagesAreSized(frames);
    DeliversPrefix(Messages(frames), turns);
    var read := Drain(START, OnWire(frames), turns).delivered;
    forall i | 0 <= i < |read| ensures Parse(read[i]) == Some(frames[i]) {
      assert Sendable(frames[i]);
      RoundTrip(frames[i]);
    }
  }

  /** On a stream that no read cuts short and that is drained, all of them arrive. */
  lemma FramesArriveInFull(frames: seq<Frame>, turns: seq<Turn>)
    requires AllSendable(frames) && AllPossible(START, OnWire(frames), turns) && AllUnhurt(START, OnWire(frames), turns)
    ensures var r := Drain(START, OnWire(frames), turns);
            && !r.closed
            && (r.taken == |OnWire(frames)| ==> |r.delivered| == |frames|)
  {
    hide RouteCodec.Message, Encodable, Encoded, Drain, AllPossible, AllUnhurt;
    MessagesAreSized(frames);
    DeliversAll(Messages(frames), turns);
  }
}
