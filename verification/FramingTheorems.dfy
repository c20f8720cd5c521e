/** Messages, framed and cut into chunks anywhere, are dispatched as they were sent. */
module FramingTheorems {
  import opened Bytes
  import opened Wrappers
  import opened Fcalls
  import opened Wire
  import opened WireLaws
  import opened Codec
  import opened CodecTheorems
  import opened Framing

  /** The message can be sent in a frame and be read back; the server reads as written. */
  predicate Sendable(variant: ReaddirDecoder, m: Msg) {
    Survives(variant, m.body) && |Encode(m)| + 4 < 0x1_0000_0000
  }

  predicate AllSendable(variant: ReaddirDecoder, msgs: seq<Msg>) {
    forall m :: m in msgs ==> Sendable(variant, m)
  }

  lemma FrameIsCut(payload: seq<u8>, rest: seq<u8>)
    requires |payload| + 4 < 0x1_0000_0000
    ensures NextFrame(Frame(payload) + rest) == Got(payload, rest)
  {
    var b := Frame(payload) + rest;
    var size := |payload| + 4;
    Pow256Values();
    LittleEndianInverse(size, 4);
    assert b == LittleEndian(size, 4) + (payload + rest);
    assert b[..4] == LittleEndian(size, 4);
    assert b[4..size] == payload && b[size..] == rest;
  }

  lemma FrameNotEmpty(payload: seq<u8>)
    ensures Frame(payload) != []
  {
  }

  /** A frame of which something is missing is waited for. */
  lemma PartOfFrame(payload: seq<u8>, part: seq<u8>)
    requires |payload| + 4 < 0x1_0000_0000
    requires part < Frame(payload)
    ensures NextFrame(part) == NeedMore
  {
    if |part| >= 4 {
      Pow256Values();
      LittleEndianInverse(|payload| + 4, 4);
      assert part[..4] == Frame(payload)[..4] == LittleEndian(|payload| + 4, 4);
    }
  }

  lemma MessageIsRead(variant: ReaddirDecoder, m: Msg)
    requires Survives(variant, m.body)
    ensures Decode(variant, Encode(m)) == Ok((m, []))
  {
    RoundTrip(variant, m, []);
    assert Encode(m) + [] == Encode(m);
  }

  lemma FirstIsRead(variant: ReaddirDecoder, m: Msg, tail: seq<u8>)
    requires Sendable(variant, m)
    ensures Messages(variant, Frame(Encode(m)) + tail) == Prepend([m], Messages(variant, tail))
  {
    FrameIsCut(Encode(m), tail);
    MessageIsRead(variant, m);
    hide Encode, Decode, Survives, Frame, NextFrame;
  }

  /** Framed messages are read back, and the receiver goes on with what follows them. */
  lemma {:induction false} FramesAreRead(variant: ReaddirDecoder, msgs: seq<Msg>, rest: seq<u8>)
    requires AllSendable(variant, msgs)
    ensures Messages(variant, Frames(msgs) + rest) == Prepend(msgs, Messages(variant, rest))
  {
    hide Encode, Frame, Sendable, Messages;
    if msgs == [] {
      assert Frames(msgs) + rest == rest;
    } else {
      var m := msgs[0];
      assert m in msgs;
      var tail := Frames(msgs[1..]) + rest;
      assert Frames(msgs) + rest == Frame(Encode(m)) + tail;
      FirstIsRead(variant, m, tail);
      FramesAreRead(variant, msgs[1..], rest);
      assert [m] + msgs[1..] == msgs;
    }
  }

  /** The bytes are those of the messages dispatched, and nothing more. */
  predicate OnBoundary(part: seq<u8>, r: Received) {
    part == Frames(r.msgs)
  }

  /** A cut in the first frame: nothing is dispatched. */
  lemma NothingYet(variant: ReaddirDecoder, m: Msg, rest: seq<u8>, part: seq<u8>)
    requires Sendable(variant, m)
    requires part < Frame(Encode(m)) + rest && |part| < |Frame(Encode(m))|
    ensures Messages(variant, part) == Received([], if part == [] then Finished else Truncated)
    ensures OnBoundary(part, Messages(variant, part)) <==> part == []
  {
    hide Encode, Decode, Survives, Frame, NextFrame;
    assert part < Frame(Encode(m));
    PartOfFrame(Encode(m), part);
  }

  lemma BehindFirst(variant: ReaddirDecoder, m: Msg, tail: seq<u8>)
    requires Sendable(variant, m)
    ensures var (got, more) := (Messages(variant, Frame(Encode(m)) + tail), Messages(variant, tail));
      && got == Prepend([m], more)
      && (OnBoundary(Frame(Encode(m)) + tail, got) <==> OnBoundary(tail, more))
  {
    FirstIsRead(variant, m, tail);
    hide Encode, Frame, Sendable, Messages;
    var got := Messages(variant, tail).msgs;
    assert ([m] + got)[1..] == got;
    SameFront(Frame(Encode(m)), tail, Frames(got));
  }

  /** Of framed messages cut short the first few are dispatched, not all; the end is clean exactly when the
      cut is between two frames. */
  lemma {:induction false} CutShort(variant: ReaddirDecoder, msgs: seq<Msg>, part: seq<u8>)
    requires AllSendable(variant, msgs)
    requires part < Frames(msgs)
    ensures var r := Messages(variant, part);
      r.msgs < msgs && r.end == if OnBoundary(part, r) then Finished else Truncated
  {
    hide Encode, Frame, Sendable, Messages, OnBoundary, ValidUtf8;
    var (m, more) := (msgs[0], msgs[1..]);
    assert m in msgs;
    var frame := Frame(Encode(m));
    FrameNotEmpty(Encode(m));
    if |part| < |frame| {
      NothingYet(variant, m, Frames(more), part);
    } else {
      var tail := part[|frame|..];
      assert part == frame + tail;
      BehindFirst(variant, m, tail);
      CutShort(variant, more, tail);
    }
  }

  // ------------------------------------------------------------------- any bytes at all

  function FrameAll(payloads: seq<seq<u8>>): seq<u8> {
    if payloads == [] then [] else Frame(payloads[0]) + FrameAll(payloads[1..])
  }

  /** The size that bytes begin with. */
  function SizeField(b: seq<u8>): nat
    requires |b| >= 4
  {
    FromLittleEndian(b[..4])
  }

  /** Why a receiver stops at `rest`: it is over; or a frame is not complete; or its size does not count
      the four bytes it is in; or its payload does not decode. */
  predicate StopsAt(variant: ReaddirDecoder, rest: seq<u8>, end: End) {
    match end
    case Finished => rest == []
    case Truncated => rest != [] && (|rest| < 4 || (4 <= SizeField(rest) && |rest| < SizeField(rest)))
    case MalformedFrame => |rest| >= 4 && SizeField(rest) < 4
    case MalformedMessage(e) =>
      |rest| >= 4 && 4 <= SizeField(rest) <= |rest| && Decode(variant, rest[4..SizeField(rest)]) == Err(e)
  }

  /** What a receiver makes of any bytes: they are frames whose payloads begin with the messages it gets,
      one each, and a rest at which it stops for the reason it gives. */
  lemma {:induction false} MessagesMean(variant: ReaddirDecoder, b: seq<u8>)
    returns (payloads: seq<seq<u8>>, rest: seq<u8>)
    ensures b == FrameAll(payloads) + rest
    ensures |payloads| == |Messages(variant, b).msgs|
    ensures forall i :: 0 <= i < |payloads| ==>
              Decode(variant, payloads[i]).Ok? && Decode(variant, payloads[i]).value.0 == Messages(variant, b).msgs[i]
    ensures StopsAt(variant, rest, Messages(variant, b).end)
    decreases |b|
  {
    hide Decode, Frame, NextFrame, StopsAt;
    if NextFrame(b).Got? && Decode(variant, NextFrame(b).payload).Ok? {
      var Got(payload, tail) := NextFrame(b);
      FrameInFront(b);
      payloads, rest := MessagesMean(variant, tail);
      assert ([payload] + payloads)[1..] == payloads;
      payloads := [payload] + payloads;
    } else {
      payloads, rest := [], b;
      StopsHere(variant, b);
    }
  }

  lemma StopsHere(variant: ReaddirDecoder, b: seq<u8>)
    requires NextFrame(b).Got? ==> Decode(variant, NextFrame(b).payload).Err?
    ensures Messages(variant, b).msgs == [] && StopsAt(variant, b, Messages(variant, b).end)
  {
    hide Decode;
  }

  lemma FrameInFront(b: seq<u8>)
    requires NextFrame(b).Got?
    ensures b == Frame(NextFrame(b).payload) + NextFrame(b).rest && |NextFrame(b).rest| < |b|
  {
    FromLittleEndianInverse(b[..4]);
    var size := FromLittleEndian(b[..4]);
    assert b == b[..4] + b[4..size] + b[size..];
  }

  /** Nothing behind a message that does not decode is dispatched. */
  lemma StopsAtBadMessage(variant: ReaddirDecoder, msgs: seq<Msg>, payload: seq<u8>, e: DecodeError, rest: seq<u8>)
    requires AllSendable(variant, msgs) && |payload| + 4 < 0x1_0000_0000
    requires Decode(variant, payload) == Err(e)
    ensures Messages(variant, Frames(msgs) + Frame(payload) + rest) == Received(msgs, MalformedMessage(e))
  {
    hide Decode, Frame, NextFrame, Sendable, Frames;
    FrameIsCut(payload, rest);
    FramesAreRead(variant, msgs, Frame(payload) + rest);
    assert Frames(msgs) + Frame(payload) + rest == Frames(msgs) + (Frame(payload) + rest);
    assert msgs + [] == msgs;
  }

  /** Nor behind a size under four. */
  lemma StopsAtBadSize(variant: ReaddirDecoder, msgs: seq<Msg>, size: nat, rest: seq<u8>)
    requires AllSendable(variant, msgs) && size < 4
    ensures Messages(variant, Frames(msgs) + LittleEndian(size, 4) + rest) == Received(msgs, MalformedFrame)
  {
    Pow256Values();
    LittleEndianInverse(size, 4);
    var b := LittleEndian(size, 4) + rest;
    assert b[..4] == LittleEndian(size, 4);
    assert NextFrame(b) == BadFrame;
    hide Sendable, Frames, LittleEndian;
    FramesAreRead(variant, msgs, b);
    assert Frames(msgs) + LittleEndian(size, 4) + rest == Frames(msgs) + b;
    assert msgs + [] == msgs;
  }

  /** Bytes of a frame behind its message are dropped. */
  lemma PaddingIsDropped(variant: ReaddirDecoder, m: Msg, padding: seq<u8>, rest: seq<u8>)
    requires Survives(variant, m.body) && |Encode(m) + padding| + 4 < 0x1_0000_0000
    ensures Messages(variant, Frame(Encode(m) + padding) + rest) == Prepend([m], Messages(variant, rest))
  {
    FrameIsCut(Encode(m) + padding, rest);
    RoundTrip(variant, m, padding);
    hide Encode, Decode, Survives, Frame, NextFrame;
  }

  // ------------------------------------------------------------------- chunks

  /** No empty chunk stands before a chunk with bytes in it. */
  predicate EmptyOnlyAtEnd(events: seq<Event>) {
    forall i :: 0 <= i < |events| && events[i] == Item([]) ==> Payload(events[i..]) == []
  }

  /** A first event that is not an empty chunk has no say in it. */
  lemma EmptyOnlyAtEndOfTail(events: seq<Event>)
    requires events != [] && events[0] != Item([])
    ensures EmptyOnlyAtEnd(events) <==> EmptyOnlyAtEnd(events[1..])
  {
    hide Payload;
    var tail := events[1..];
    assert forall i :: 0 <= i < |tail| ==> tail[i] == events[i + 1] && tail[i..] == events[i + 1..];
    assert forall i :: 0 < i < |events| ==> events[i] == tail[i - 1] && events[i..] == tail[i - 1..];
  }

  lemma {:induction false} DeliverablePrefix(events: seq<Event>)
    ensures Deliverable(events) <= Payload(events)
    ensures Deliverable(events) == Payload(events) <==> EmptyOnlyAtEnd(events)
  {
    if events != [] {
      DeliverablePrefix(events[1..]);
      if events[0] != Item([]) {
        EmptyOnlyAtEndOfTail(events);
        hide EmptyOnlyAtEnd;
      } else {
        assert events[0..] == events;
        if Payload(events) == [] { NothingAfterNothing(events); }
      }
    }
  }

  lemma {:induction false} NothingAfterNothing(events: seq<Event>)
    requires Payload(events) == []
    ensures forall i :: 0 <= i < |events| ==> Payload(events[i..]) == []
  {
    if events != [] {
      NothingAfterNothing(events[1..]);
      forall i | 0 <= i < |events| ensures Payload(events[i..]) == [] {
        assert i > 0 ==> events[i..] == events[1..][i - 1..];
        assert events[0..] == events;
      }
    }
  }

  /** Chunk independence, exactly: for any chunks of framed messages, with any waiting between them,
      the receive loop dispatches those messages in order and ends cleanly if and only if no empty
      chunk stands before a chunk with bytes in it. (`Framing.Dispatch` dispatches
      `Messages(AsWritten, Deliverable(events))` from a new reader of `events`.) */
  lemma ChunkIndependence(msgs: seq<Msg>, events: seq<Event>)
    requires AllSendable(AsWritten, msgs) && Payload(events) == Frames(msgs)
    ensures Messages(AsWritten, Deliverable(events)) == Received(msgs, Finished) <==> EmptyOnlyAtEnd(events)
  {
    DeliverablePrefix(events);
    if Deliverable(events) == Frames(msgs) {
      FramesAreRead(AsWritten, msgs, []);
      assert Frames(msgs) + [] == Frames(msgs);
    } else {
      CutShort(AsWritten, msgs, Deliverable(events));
    }
  }

  /** Two ways of cutting the same bytes into chunks that are not empty dispatch the same. */
  lemma SameBytesSameMessages(variant: ReaddirDecoder, a: seq<Event>, b: seq<Event>)
    requires Payload(a) == Payload(b)
    requires Item([]) !in a && Item([]) !in b
    ensures Messages(variant, Deliverable(a)) == Messages(variant, Deliverable(b))
  {
    DeliverablePrefix(a);
    DeliverablePrefix(b);
  }
}
