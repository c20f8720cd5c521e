/** From chunks of bytes to messages: the adapter that reads a stream of chunks as bytes, the
    length-prefixed framing, and the receive loop of the server. */
module Framing {
  import opened Bytes
  import opened Wrappers
  import opened Fcalls
  import opened Wire
  import opened Codec

  // ------------------------------------------------------------------- frames

  /** A frame: its size in four bytes, which count themselves, then the payload. */
  function Frame(payload: seq<u8>): seq<u8> {
    WNum(|payload| + 4, 4, payload)
  }

  function Frames(msgs: seq<Msg>): seq<u8> {
    if msgs == [] then [] else Frame(Encode(msgs[0])) + Frames(msgs[1..])
  }

  /** One step of the frame decoder on the bytes that have arrived so far. */
  datatype FrameStep = NeedMore | BadFrame | Got(payload: seq<u8>, rest: seq<u8>)

  function NextFrame(b: seq<u8>): (step: FrameStep)
    ensures step.Got? ==> |step.rest| < |b|
  {
    if |b| < 4 then NeedMore
    else
      var size := FromLittleEndian(b[..4]);
      if size < 4 then BadFrame
      else if |b| < size then NeedMore
      else Got(b[4..size], b[size..])
  }

  /** How the receive loop ends. */
  datatype End = Finished | Truncated | MalformedFrame | MalformedMessage(error: DecodeError)

  datatype Received = Received(msgs: seq<Msg>, end: End)

  /** What a receiver makes of all the bytes it is sent: the messages it gets, in order, and how it ends.
      Bytes of a frame behind its message are dropped. */
  function Messages(variant: ReaddirDecoder, b: seq<u8>): Received
    decreases |b|
  {
    match NextFrame(b)
    case NeedMore => Received([], if b == [] then Finished else Truncated)
    case BadFrame => Received([], MalformedFrame)
    case Got(payload, rest) =>
      match Decode(variant, payload)
      case Err(e) => Received([], MalformedMessage(e))
      case Ok((m, _)) => Prepend([m], Messages(variant, rest))
  }

  function Prepend(msgs: seq<Msg>, r: Received): Received {
    Received(msgs + r.msgs, r.end)
  }

  // ------------------------------------------------------------------- the stream reader

  /** What the stream of chunks answers to one poll, while it has not ended. */
  datatype Event = NotReady | Item(bytes: seq<u8>)

  /** The bytes of the items, without the cuts and the waiting. */
  function Payload(events: seq<Event>): seq<u8> {
    if events == [] then []
    else (if events[0].Item? then events[0].bytes else []) + Payload(events[1..])
  }

  /** The bytes of the items before the first empty one. */
  function Deliverable(events: seq<Event>): seq<u8> {
    if events == [] then []
    else if events[0].NotReady? then Deliverable(events[1..])
    else if events[0].bytes == [] then []
    else events[0].bytes + Deliverable(events[1..])
  }

  datatype Poll<+T> = Pending | Ready(value: T)

  class StreamReader {
    var inner: seq<Event>
    var buffer: seq<u8>
    var consumed: nat

    ghost predicate Valid()
      reads this
    {
      consumed <= |buffer|
    }

    /** Everything that has not been handed out. */
    ghost function Unread(): seq<u8>
      reads this
      requires Valid()
    {
      buffer[consumed..] + Payload(inner)
    }

    /** What will be handed out before an end of file is reported. */
    ghost function ToDeliver(): seq<u8>
      reads this
      requires Valid()
    {
      buffer[consumed..] + Deliverable(inner)
    }

    constructor (stream: seq<Event>)
      ensures Valid() && inner == stream && buffer == [] && consumed == 0
    {
      inner := stream;
      buffer := [];
      consumed := 0;
    }

    /** `poll_read` into a buffer with `room` bytes left. Nothing handed out is an end of file to
        the caller when there was room. */
    method PollRead(room: nat) returns (r: Poll<seq<u8>>)
      requires Valid()
      modifies this
      ensures Valid()
      ensures old(Unread()) == (if r.Ready? then r.value else []) + Unread()
      ensures |inner| <= old(|inner|)
      ensures room == 0 ==> r == Ready([]) && unchanged(this)
      ensures r.Pending? ==> |inner| < old(|inner|) && ToDeliver() == old(ToDeliver())
      ensures r.Ready? ==> |r.value| <= room
      ensures r.Ready? && r.value != [] ==> old(ToDeliver()) == r.value + ToDeliver()
      ensures r.Ready? && r.value == [] && room > 0 ==> old(ToDeliver()) == []
      ensures r.Ready? && r.value == [] && room > 0 ==> consumed == |buffer| && (inner == [] || Item([]) in old(inner))
    {
      if room == 0 {
        return Ready([]);
      }
      while true
        invariant Valid()
        invariant Unread() == old(Unread()) && ToDeliver() == old(ToDeliver())
        invariant |inner| <= old(|inner|) && forall e :: e in inner ==> e in old(inner)
        decreases |inner|, |buffer| - consumed
      {
        if consumed < |buffer| {
          var remaining := |buffer| - consumed;
          var readTo := (if room < remaining then room else remaining) + consumed;
          var out := buffer[consumed..readTo];
          assert buffer[consumed..] == out + buffer[readTo..];
          consumed := readTo;
          return Ready(out);
        }
        assert buffer[consumed..] == [];
        if inner == [] {
          return Ready([]);
        }
        var event := inner[0];
        inner := inner[1..];
        match event {
          case Item(bytes) =>
            buffer := bytes;
            consumed := 0;
            assert buffer[consumed..] == bytes;
            if buffer == [] {
              return Ready([]);
            }
          case NotReady =>
            return Pending;
        }
      }
    }
  }

  // ------------------------------------------------------------------- the receive loop

  /** More bytes do not change a frame that is complete, or one that is malformed. */
  lemma NextFrameStable(b: seq<u8>, more: seq<u8>)
    ensures NextFrame(b).BadFrame? ==> NextFrame(b + more).BadFrame?
    ensures NextFrame(b).Got? ==> NextFrame(b + more) == Got(NextFrame(b).payload, NextFrame(b).rest + more)
  {
    if |b| >= 4 {
      var size := FromLittleEndian(b[..4]);
      assert (b + more)[..4] == b[..4];
      if 4 <= size <= |b| {
        assert (b + more)[4..size] == b[4..size];
        assert (b + more)[size..] == b[size..] + more;
      }
    }
  }

  lemma PrependMore(msgs: seq<Msg>, m: Msg, r: Received)
    ensures Prepend(msgs, Prepend([m], r)) == Prepend(msgs + [m], r)
  {
    assert msgs + ([m] + r.msgs) == msgs + [m] + r.msgs;
  }

  /** The receive loop over a stream of chunks: frames are cut from what has arrived, and more is
      read when no frame is complete. However the bytes are chunked, however often the stream has to
      be waited for and however much room each read has, what is dispatched depends on the bytes up
      to the first empty chunk only. */
  method Dispatch(reader: StreamReader) returns (msgs: seq<Msg>, end: End)
    requires reader.Valid()
    modifies reader
    ensures Received(msgs, end) == Messages(AsWritten, old(reader.ToDeliver()))
  {
    hide Decode, NextFrame;
    ghost var all := reader.ToDeliver();
    var buffer: seq<u8> := [];
    msgs := [];
    assert buffer + all == all;
    while true
      invariant reader.Valid()
      invariant Messages(AsWritten, all) == Prepend(msgs, Messages(AsWritten, buffer + reader.ToDeliver()))
      decreases |reader.inner| + |reader.Unread()|, |buffer|
    {
      ghost var later := reader.ToDeliver();
      NextFrameStable(buffer, later);
      match NextFrame(buffer) {
        case BadFrame =>
          return msgs, MalformedFrame;
        case Got(payload, rest) =>
          match Decode(AsWritten, payload) {
            case Err(e) =>
              return msgs, MalformedMessage(e);
            case Ok((m, _)) =>
              PrependMore(msgs, m, Messages(AsWritten, rest + later));
              msgs := msgs + [m];
              buffer := rest;
          }
        case NeedMore =>
          var room: nat :| room > 0;
          var r := reader.PollRead(room);
          match r {
            case Pending =>
            case Ready(bytes) =>
              if bytes == [] {
                assert buffer + later == buffer;
                return msgs, if buffer == [] then Finished else Truncated;
              }
              assert buffer + bytes + reader.ToDeliver() == buffer + later;
              buffer := buffer + bytes;
          }
      }
    }
  }
}
