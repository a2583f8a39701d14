/** Values shared by both routers: error codes, frames on the pipe, gateway events and
    the record that is kept of each gateway. */
module IpcTypes {

  datatype Option<+T> = None | Some(value: T)

  type Byte = x: int | 0 <= x < 256
  type Payload = seq<Byte>
  type Tag = nat
  type ServiceId = nat
  type ClientId = nat

  // `errno` values behind `ipc::ErrorCode`, and the two others the services use.
  const SUCCESS: int := 0
  const INVALID: int := 22
  const DISCONNECTED: int := 104
  const NOT_CONNECTED: int := 107
  const SHUTDOWN: int := 108
  const CANCELED: int := 125

  /** A decoded `Route` message; the payload of a channel message follows its prefix. */
  datatype Frame =
    | Empty
    | Connect(major: Byte, minor: Byte, error: int)
    | ChannelMsg(tag: Tag, sequence: nat, service: ServiceId, payload: Payload)
    | ChannelEnd(tag: Tag, error: int)
  {
    predicate For(t: Tag) {
      (ChannelMsg? || ChannelEnd?) && tag == t
    }
  }

  const HELLO: Frame := Connect(0, 1, 0)

  datatype Event = Connected | Message(sequence: nat, payload: Payload) | Completed(error: int)

  datatype Item = Item(sequence: nat, payload: Payload)

  /** The message a channel factory was called with. */
  datatype Opening = Opening(service: ServiceId, payload: Payload)

  /** One gateway object: its fields, whether it still exists, and its history
      (events it was given, messages of it that the pipe accepted). */
  datatype View = View(
    opening: Option<Opening>,
    alive: bool,
    nextSequence: nat,
    completionError: int,
    events: seq<Event>,
    sent: seq<Item>)
  {
    function Notified(e: Event): View {
      this.(events := events + [e])
    }

    /** A sequence number is used up whether or not the pipe accepts the message. */
    function AfterSend(payload: Payload, pipeError: int): View {
      this.(nextSequence := nextSequence + 1,
            sent := if pipeError == SUCCESS then sent + [Item(nextSequence, payload)] else sent)
    }

    /** Every message this gateway was given, the one that opened it included. */
    function Delivered(): seq<Item> {
      (if opening.Some? then [Item(0, opening.value.payload)] else []) + MessagesIn(events)
    }

    /** The last event so far is the completion of the channel. */
    predicate Finished() {
      events != [] && events[|events| - 1].Completed?
    }

    /** No event follows a completion; so there is at most one. */
    ghost predicate CompletesOnce() {
      forall i :: 0 <= i < |events| - 1 ==> !events[i].Completed?
    }
  }

  function FreshView(opening: Option<Opening>): View {
    View(opening, true, 0, 0, [], [])
  }

  function MessagesIn(events: seq<Event>): seq<Item> {
    if events == [] then []
    else
      var last := events[|events| - 1];
      MessagesIn(events[..|events| - 1]) +
      (if last.Message? then [Item(last.sequence, last.payload)] else [])
  }

  /** The frames of `log` that carry tag `t`, in order. */
  function OnTag(log: seq<Frame>, t: Tag): seq<Frame> {
    if log == [] then []
    else
      var last := log[|log| - 1];
      OnTag(log[..|log| - 1], t) + (if last.For(t) then [last] else [])
  }

  /** The channel messages among `frames`, in order. */
  function Items(frames: seq<Frame>): seq<Item> {
    if frames == [] then []
    else
      var last := frames[|frames| - 1];
      Items(frames[..|frames| - 1]) +
      (if last.ChannelMsg? then [Item(last.sequence, last.payload)] else [])
  }

  lemma MessagesInAppend(events: seq<Event>, e: Event)
    ensures MessagesIn(events + [e]) ==
            MessagesIn(events) + (if e.Message? then [Item(e.sequence, e.payload)] else [])
  {
    assert (events + [e])[..|events|] == events;
  }

  lemma OnTagAppend(log: seq<Frame>, f: Frame, t: Tag)
    ensures OnTag(log + [f], t) == OnTag(log, t) + (if f.For(t) then [f] else [])
  {
    assert (log + [f])[..|log|] == log;
  }

  lemma ItemsAppend(frames: seq<Frame>, f: Frame)
    ensures Items(frames + [f]) ==
            Items(frames) + (if f.ChannelMsg? then [Item(f.sequence, f.payload)] else [])
  {
    assert (frames + [f])[..|frames|] == frames;
  }

  /** Reading a prefix of the pipe reads a prefix of every channel on it. */
  lemma {:induction false} OnTagPrefix(log: seq<Frame>, n: nat, t: Tag)
    requires n <= |log|
    ensures OnTag(log[..n], t) <= OnTag(log, t)
    decreases |log|
  {
    if n == |log| {
      assert log[..n] == log;
    } else {
      var shorter := log[..|log| - 1];
      OnTagPrefix(shorter, n, t);
      assert shorter[..n] == log[..n];
    }
  }

  lemma {:induction false} ItemsPrefix(a: seq<Frame>, b: seq<Frame>)
    requires a <= b
    ensures Items(a) <= Items(b)
    decreases |b|
  {
    if |a| == |b| {
      assert a == b;
    } else {
      ItemsPrefix(a, b[..|b| - 1]);
    }
  }

  /** Every frame kept by `OnTag` carries the tag, and is a frame of the log. */
  lemma {:induction false} OnTagMembers(log: seq<Frame>, t: Tag, f: Frame)
    ensures f in OnTag(log, t) <==> f in log && f.For(t)
  {
    if log != [] {
      OnTagMembers(log[..|log| - 1], t, f);
      assert log == log[..|log| - 1] + [log[|log| - 1]];
    }
  }
}
