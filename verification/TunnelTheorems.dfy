/** The tunnel is the identity on bytes, and so the dispatcher at its end gets the messages that were
    put in at its start. */
module TunnelTheorems {
  import opened Bytes
  import opened Wrappers
  import opened Codec
  import Dispatcher
  import DispatcherSafety
  import opened Fcalls
  import opened Framing
  import opened FramingTheorems
  import opened Tunnel
  import opened Wire
  import opened Streams

  /** The chunks that arrive, without the waiting between them. */
  function Chunks(events: seq<Event>): seq<seq<u8>> {
    if events == [] then []
    else (if events[0].Item? then [events[0].bytes] else []) + Chunks(events[1..])
  }

  /** Chunks that are not empty are all delivered, however long each is waited for: the reader never
      reports an end of file too early. */
  lemma {:induction false} ChunksAreDelivered(events: seq<Event>)
    requires [] !in Chunks(events)
    ensures Deliverable(events) == Flatten(Chunks(events)) == Payload(events)
  {
    if events != [] {
      var tail := Chunks(events[1..]);
      if events[0].Item? {
        assert Chunks(events)[0] == events[0].bytes && Chunks(events)[1..] == tail;
        assert forall c :: c in tail ==> c in Chunks(events);
        assert Flatten(Chunks(events)) == events[0].bytes + Flatten(tail);
      } else {
        assert Chunks(events) == tail;
      }
      ChunksAreDelivered(events[1..]);
    }
  }

  /** From the socket to the dispatcher: when the forwarding task has read `sent + lost` of the frames of
      some messages, and `left` not yet, the dispatcher gets the first of these messages; it gets all of
      them and a clean end if and only if nothing was lost or left. The premises are what
      `Tunnel.Forward` ensures. */
  lemma TunnelDelivers(msgs: seq<Msg>, sent: seq<seq<u8>>, lost: seq<u8>, left: seq<u8>, events: seq<Event>)
    requires AllSendable(AsWritten, msgs)
    requires Frames(msgs) == Flatten(sent) + (lost + left) && Cut(sent)
    requires Chunks(events) == sent
    ensures var got := Messages(AsWritten, Deliverable(events));
      got.msgs <= msgs && (got == Received(msgs, Finished) <==> lost + left == [])
  {
    hide Frames, Flatten, Messages, Deliverable, Chunks, Sendable;
    ChunksAreDelivered(events);
    PartOfFrames(AsWritten, msgs, Flatten(sent), lost + left);
  }

  lemma PartOfFrames(variant: ReaddirDecoder, msgs: seq<Msg>, part: seq<u8>, rest: seq<u8>)
    requires AllSendable(variant, msgs) && Frames(msgs) == part + rest
    ensures Messages(variant, part).msgs <= msgs
    ensures Messages(variant, part) == Received(msgs, Finished) <==> rest == []
  {
    hide Frames, Sendable;
    if rest == [] {
      FramesAreRead(variant, msgs, []);
      assert Frames(msgs) + [] == Frames(msgs) == part;
    } else {
      CutShort(variant, msgs, part);
    }
  }

  /** The client's side of the tunnel: what arrives is dispatched. */
  method DispatchArrivals(events: seq<Event>) returns (msgs: seq<Msg>, end: End)
    requires [] !in Chunks(events)
    ensures Received(msgs, end) == Messages(AsWritten, Flatten(Chunks(events)))
  {
    ChunksAreDelivered(events);
    var reader := new StreamReader(events);
    assert reader.ToDeliver() == Deliverable(events);
    msgs, end := Dispatch(reader);
  }

  // ------------------------------------------------------------------- replies

  lemma {:induction false} FramesMore(msgs: seq<Msg>, m: Msg)
    ensures Frames(msgs + [m]) == Frames(msgs) + Frame(Encode(m))
  {
    hide Frame, Encode;
    if msgs == [] {
      assert [m][1..] == [] && msgs + [m] == [m];
    } else {
      assert (msgs + [m])[1..] == msgs[1..] + [m];
      FramesMore(msgs[1..], m);
    }
  }

  /** A reply in its frame, offered to the writer up to `polls` times. */
  method SendReply(w: SenderWriter, m: Msg, polls: nat) returns (sent: bool)
    requires w.Valid()
    modifies w`accepted, w.channel
    ensures w.Valid()
    ensures w.accepted == old(w.accepted) + if sent then Frame(Encode(m)) else []
  {
    hide Frame, Encode;
    var frame := Frame(Encode(m));
    var i := 0;
    while i < polls
      invariant w.Valid() && w.accepted == old(w.accepted)
    {
      var r := w.PollWrite(frame);
      if r.Ready? {
        return r.value.Ok?;
      }
      i := i + 1;
    }
    return false;
  }

  /** Replies one after another, until one cannot be sent: the frames of the first `n` have been taken. */
  method SendReplies(w: SenderWriter, msgs: seq<Msg>, polls: nat) returns (n: nat)
    requires w.Valid() && w.accepted == []
    modifies w`accepted, w.channel
    ensures w.Valid() && n <= |msgs| && w.accepted == Frames(msgs[..n])
  {
    hide Frame, Encode;
    n := 0;
    while n < |msgs|
      invariant w.Valid() && n <= |msgs| && w.accepted == Frames(msgs[..n])
    {
      var sent := SendReply(w, msgs[n], polls);
      if !sent {
        return;
      }
      FramesMore(msgs[..n], msgs[n]);
      assert msgs[..n] + [msgs[n]] == msgs[..n + 1];
      n := n + 1;
    }
  }

  /** The replies that have been sent by a state; in every state that can be reached the tasks are
      accounted for. */
  ghost function RepliesOf<A(!new)>(s: Dispatcher.State<A>): seq<Msg> {
    if DispatcherSafety.Accounted(s) then Dispatcher.Wire(s.received, s.finished) else []
  }

  /** What the mounting side reads from the frames of the replies that a run of the dispatcher has sent:
      these replies, one for every request that has ended, under its own tag. (It reads listings as they
      are meant.) */
  lemma RepliesAreRead<A(!new)>(fs: Dispatcher.Filesystem<A>, run: seq<Dispatcher.Action>, written: seq<u8>)
    requires DispatcherSafety.Conforming(fs) && Dispatcher.After(fs, run).Some?
    requires AllSendable(Intended, RepliesOf(Dispatcher.After(fs, run).value))
    requires written == Frames(RepliesOf(Dispatcher.After(fs, run).value))
    ensures var s := Dispatcher.After(fs, run).value;
            var got := Messages(Intended, written);
      && DispatcherSafety.Accounted(s)
      && got.end == Finished && |got.msgs| == |s.finished|
      && (forall k :: 0 <= k < |s.finished| ==>
            && got.msgs[k].tag == s.received[s.finished[k].task].tag
            && DispatcherSafety.Replies(got.msgs[k].body, s.finished[k].answer))
      && DispatcherSafety.Tags(s.received)
           == DispatcherSafety.Tags(got.msgs) + DispatcherSafety.FlightTags(s.received, s.tasks.Keys)
  {
    hide Frames, Messages, Sendable, Dispatcher.After, DispatcherSafety.Conforming;
    hide DispatcherSafety.Accounted, DispatcherSafety.Tags, DispatcherSafety.FlightTags, DispatcherSafety.Replies;
    DispatcherSafety.OneReplyPerRequest(fs, run);
    PartOfFrames(Intended, RepliesOf(Dispatcher.After(fs, run).value), written, []);
  }

  // ------------------------------------------------------------------- both directions

  /** Of items that are not empty a prefix of each is all of them if and only if all are taken whole. */
  lemma AllOfThem(items: seq<seq<u8>>, taken: seq<nat>)
    requires |taken| <= |items| && [] !in items && forall i :: 0 <= i < |taken| ==> taken[i] <= |items[i]|
    ensures Prefixes(items, taken) == Flatten(items)
       <==> |taken| == |items| && forall i :: 0 <= i < |taken| ==> taken[i] == |items[i]|
  {
    hide Flatten, Prefixes;
    var (front, back) := (items[..|taken|], items[|taken|..]);
    assert front + back == items;
    FlattenAppend(front, back);
    PrefixesLength(items, taken);
    if back != [] {
      assert back[0] == items[|taken|] && back[0] in items;
      FlattenLength(back);
    } else {
      assert front == items;
    }
  }

  lemma FlattenLength(chunks: seq<seq<u8>>)
    ensures chunks != [] ==> |Flatten(chunks)| >= |chunks[0]|
  {
  }

  /** Both directions at once: a socket on which the frames of `msgs` arrive, and the frames of `answers`,
      which have been written to the other end of the tunnel. The client dispatches the first of `msgs`,
      and all of them if the task ends because the socket was closed. The socket gets exactly what was
      written if and only if all of it has been taken and no write was short; and then the mounting side
      reads exactly `answers`. */
  method BothDirections(ghost msgs: seq<Msg>, ghost answers: seq<Msg>, reader: Source, ghost replies: SenderWriter,
                        input: Inbox, tx: Channel, writer: Sink)
    returns (end: ForwardEnd, taken: seq<nat>)
    requires AllSendable(AsWritten, msgs) && reader.data == Frames(msgs) && tx.items == [] && writer.written == []
    requires AllSendable(Intended, answers) && replies.accepted == Frames(answers)
    requires replies.Valid() && input.items == replies.channel.items && input.Valid() && input.pos == 0
    modifies reader, input, tx, writer
    ensures forall events :: Chunks(events) == tx.items ==> Messages(AsWritten, Deliverable(events)).msgs <= msgs
    ensures forall events :: end == Outward(EndOfFile) && Chunks(events) == tx.items ==>
              Messages(AsWritten, Deliverable(events)) == Received(msgs, Finished)
    ensures |taken| <= |input.items| && forall i :: 0 <= i < |taken| ==> taken[i] <= |input.items[i]|
    ensures writer.written == Frames(answers)
       <==> |taken| == |input.items| && forall i :: 0 <= i < |taken| ==> taken[i] == |input.items[i]|
    ensures writer.written == Frames(answers) ==> Messages(Intended, writer.written) == Received(answers, Finished)
  {
    hide Frames, Messages, Sendable;
    end, taken := Forward(reader, input, tx, writer);
    assert tx.items[0..] == tx.items;
    forall events | Chunks(events) == tx.items
      ensures Messages(AsWritten, Deliverable(events)).msgs <= msgs
      ensures end == Outward(EndOfFile) ==> Messages(AsWritten, Deliverable(events)) == Received(msgs, Finished)
    {
      TunnelDelivers(msgs, tx.items, LostBy(end), reader.data, events);
    }
    AllOfThem(input.items, taken);
    PartOfFrames(Intended, answers, Frames(answers), []);
  }
}
