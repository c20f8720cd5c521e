/** The byte tunnel on the remote machine: chunks are cut from a socket or a pipe and sent, and the
    chunks that arrive are written to a socket.

    What the system gives to a read, takes from a write, and whether the other end of a channel is
    still there, is chosen anew at every call. */
module Tunnel {
  import opened Bytes
  import opened Wrappers

  const BUFFER_SIZE := 128

  /** The bytes that can still be read before the end of file. */
  class Source {
    var data: seq<u8>
    ghost var failed: bool           // a read has failed

    constructor (data: seq<u8>)
      ensures this.data == data && !failed
    {
      this.data := data;
      failed := false;
    }

    /** A read into a buffer of `room` bytes; no bytes mean the end of file. */
    method Read(room: nat) returns (r: Result<seq<u8>, ()>)
      requires room > 0
      modifies this
      ensures r.Ok? ==> old(data) == r.value + data && |r.value| <= room
      ensures r.Ok? ==> (r.value == [] <==> old(data) == [])
      ensures r.Err? ==> data == old(data)
      ensures failed == (old(failed) || r.Err?)
    {
      if * {
        failed := true;
        return Err(());
      }
      var limit := if room < |data| then room else |data|;
      var n: nat :| n <= limit && (n == 0 <==> limit == 0);
      r := Ok(data[..n]);
      data := data[n..];
    }
  }

  /** The items that have been sent. */
  class Channel {
    var items: seq<seq<u8>>

    constructor ()
      ensures items == []
    {
      items := [];
    }

    /** Fails when the receiver is gone. */
    method Send(item: seq<u8>) returns (ok: bool)
      modifies this
      ensures items == if ok then old(items) + [item] else old(items)
    {
      if * { return false; }
      items := items + [item];
      return true;
    }
  }

  /** What has been written. */
  class Sink {
    var written: seq<u8>
    ghost var failed: bool           // a write has failed

    constructor ()
      ensures written == [] && !failed
    {
      written := [];
      failed := false;
    }

    /** Writes some of `data`, from the front: perhaps not all, perhaps nothing. */
    method Write(data: seq<u8>) returns (r: Result<nat, ()>)
      modifies this
      ensures r.Ok? ==> r.value <= |data| && written == old(written) + data[..r.value]
      ensures r.Err? ==> written == old(written)
      ensures failed == (old(failed) || r.Err?)
    {
      if * {
        failed := true;
        return Err(());
      }
      var n: nat :| n <= |data|;
      written := written + data[..n];
      return Ok(n);
    }

    /** Writes until everything is written; a write of nothing is an error. */
    method WriteAll(data: seq<u8>) returns (ok: bool)
      modifies this
      ensures old(written) <= written <= old(written) + data
      ensures ok ==> written == old(written) + data
    {
      var i := 0;
      while i < |data|
        invariant 0 <= i <= |data| && written == old(written) + data[..i]
      {
        var r := Write(data[i..]);
        if r.Err? || r.value == 0 {
          return false;
        }
        assert data[..i] + data[i..][..r.value] == data[..i + r.value];
        i := i + r.value;
      }
      return true;
    }
  }

  // ------------------------------------------------------------------- the loops

  /** Nothing in it is empty, or longer than the buffer. */
  predicate Cut(chunks: seq<seq<u8>>) {
    forall c :: c in chunks ==> 0 < |c| <= BUFFER_SIZE
  }

  /** Why a loop ends that reads chunks and sends them; a chunk that the receiver did not take is
      lost. */
  datatype CopyEnd = EndOfFile | ReadFailed | ReceiverGone(lost: seq<u8>)

  function Lost(end: CopyEnd): seq<u8> {
    if end.ReceiverGone? then end.lost else []
  }

  /** One round: a chunk of what can be read is sent. */
  method SendNext(src: Source, tx: Channel) returns (r: Result<seq<u8>, CopyEnd>)
    modifies src, tx
    ensures r.Ok? ==> 0 < |r.value| <= BUFFER_SIZE
    ensures r.Ok? ==> old(src.data) == r.value + src.data && tx.items == old(tx.items) + [r.value]
    ensures r.Err? ==> old(src.data) == Lost(r.error) + src.data && tx.items == old(tx.items)
    ensures r.Err? && r.error.EndOfFile? ==> src.data == []
    ensures r.Err? && r.error.ReceiverGone? ==> 0 < |r.error.lost| <= BUFFER_SIZE
    ensures src.failed == (old(src.failed) || r == Err(ReadFailed))
  {
    var chunk := src.Read(BUFFER_SIZE);
    if chunk.Err? {
      return Err(ReadFailed);
    }
    if chunk.value == [] {
      return Err(EndOfFile);
    }
    var ok := tx.Send(chunk.value);
    return if ok then Ok(chunk.value) else Err(ReceiverGone(chunk.value));
  }

  /** Of `all` the bytes, those sent since `before` in chunks, and those `left`, are all there are. */
  ghost predicate Outgoing(before: seq<seq<u8>>, all: seq<u8>, now: seq<seq<u8>>, left: seq<u8>) {
    before <= now && Cut(now[|before|..]) && all == Flatten(now[|before|..]) + left
  }

  lemma NothingSent(before: seq<seq<u8>>, all: seq<u8>)
    ensures Outgoing(before, all, before, all)
  {
    assert before[|before|..] == [];
  }

  lemma MoreSent(before: seq<seq<u8>>, all: seq<u8>, now: seq<seq<u8>>, chunk: seq<u8>, left: seq<u8>)
    requires Outgoing(before, all, now, chunk + left) && 0 < |chunk| <= BUFFER_SIZE
    ensures Outgoing(before, all, now + [chunk], left)
  {
    assert (now + [chunk])[|before|..] == now[|before|..] + [chunk];
    OneMore(now[|before|..], chunk, left);
  }

  /** `copy_to`, and the loop that reads the standard input: the chunks sent are what has been read,
      except for one chunk when the receiver is gone. */
  method CopyTo(src: Source, tx: Channel) returns (end: CopyEnd)
    modifies src, tx
    ensures old(tx.items) <= tx.items && Cut(tx.items[|old(tx.items)|..])
    ensures old(src.data) == Flatten(tx.items[|old(tx.items)|..]) + (Lost(end) + src.data)
    ensures end.EndOfFile? ==> src.data == []
    ensures |Lost(end)| <= BUFFER_SIZE && (end.ReceiverGone? ==> Lost(end) != [])
    ensures src.failed == (old(src.failed) || end.ReadFailed?)
  {
    NothingSent(tx.items, src.data);
    while true
      invariant Outgoing(old(tx.items), old(src.data), tx.items, src.data)
      invariant src.failed == old(src.failed)
      decreases |src.data|
    {
      var r := SendNext(src, tx);
      if r.Err? {
        return r.error;
      }
      MoreSent(old(tx.items), old(src.data), tx.items[..|tx.items| - 1], r.value, src.data);
      assert tx.items[..|tx.items| - 1] + [r.value] == tx.items;
    }
  }

  lemma OneMore(chunks: seq<seq<u8>>, chunk: seq<u8>, rest: seq<u8>)
    ensures Flatten(chunks + [chunk]) == Flatten(chunks) + chunk
    ensures Flatten(chunks) + (chunk + rest) == Flatten(chunks + [chunk]) + rest
    ensures Cut(chunks) && 0 < |chunk| <= BUFFER_SIZE ==> Cut(chunks + [chunk])
  {
    FlattenAppend(chunks, [chunk]);
    assert [chunk][1..] == [];
  }

  /** The items that arrive, and how many have been taken. */
  class Inbox {
    const items: seq<seq<u8>>
    var pos: nat

    ghost predicate Valid()
      reads this
    {
      pos <= |items|
    }

    constructor (items: seq<seq<u8>>)
      ensures this.items == items && pos == 0 && Valid()
    {
      this.items := items;
      pos := 0;
    }
  }

  datatype ForwardEnd = Outward(end: CopyEnd) | InputClosed | NothingWritten | WriteFailed

  /** The first `taken[i]` bytes of each item. */
  function Prefixes(items: seq<seq<u8>>, taken: seq<nat>): seq<u8>
    requires |taken| <= |items| && forall i :: 0 <= i < |taken| ==> taken[i] <= |items[i]|
  {
    if taken == [] then []
    else
      Prefixes(items, taken[..|taken| - 1]) + items[|taken| - 1][..taken[|taken| - 1]]
  }

  /** What has been written since `before` is a front of each item taken, and of none nothing. */
  ghost predicate Incoming(items: seq<seq<u8>>, taken: seq<nat>, before: seq<u8>, written: seq<u8>) {
    && |taken| <= |items| && (forall i :: 0 <= i < |taken| ==> 0 < taken[i] <= |items[i]|)
    && written == before + Prefixes(items, taken)
  }

  lemma NothingTaken(items: seq<seq<u8>>, written: seq<u8>)
    ensures Incoming(items, [], written, written)
  {
  }

  lemma PrefixesMore(items: seq<seq<u8>>, taken: seq<nat>, n: nat)
    requires |taken| < |items| && n <= |items[|taken|]| && forall i :: 0 <= i < |taken| ==> taken[i] <= |items[i]|
    ensures Prefixes(items, taken + [n]) == Prefixes(items, taken) + items[|taken|][..n]
  {
    assert (taken + [n])[..|taken|] == taken;
  }

  lemma MoreTaken(items: seq<seq<u8>>, taken: seq<nat>, before: seq<u8>, written: seq<u8>, n: nat)
    requires Incoming(items, taken, before, written) && |taken| < |items| && 0 < n <= |items[|taken|]|
    ensures Incoming(items, taken + [n], before, written + items[|taken|][..n])
  {
    PrefixesMore(items, taken, n);
  }

  /** The next item goes to the socket with one `write`; a failed write takes nothing. */
  method WriteNext(input: Inbox, writer: Sink) returns (r: Result<nat, ForwardEnd>, n: nat)
    requires input.Valid() && input.pos < |input.items|
    modifies input`pos, writer
    ensures input.Valid() && input.pos == old(input.pos) + 1
    ensures n <= |input.items[old(input.pos)]|
    ensures writer.written == old(writer.written) + input.items[old(input.pos)][..n]
    ensures if n > 0 then r == Ok(n) else r == Err(WriteFailed) || r == Err(NothingWritten)
    ensures writer.failed == (old(writer.failed) || r == Err(WriteFailed))
  {
    var item := input.items[input.pos];
    input.pos := input.pos + 1;
    var w := writer.Write(item);
    if w.Err? {
      return Err(WriteFailed), 0;
    }
    return if w.value == 0 then Err(NothingWritten) else Ok(w.value), w.value;
  }

  function LostBy(end: ForwardEnd): seq<u8> {
    if end.Outward? then Lost(end.end) else []
  }

  /** The forwarding task of a session: socket to channel, and items to socket with one `write` each,
      in whatever order they come up. `taken` has the number of bytes that each write took. */
  method Forward(reader: Source, input: Inbox, tx: Channel, writer: Sink)
    returns (end: ForwardEnd, taken: seq<nat>)
    requires input.Valid() && input.pos == 0
    modifies reader, input`pos, tx, writer
    ensures old(tx.items) <= tx.items && Cut(tx.items[|old(tx.items)|..])
    ensures old(reader.data) == Flatten(tx.items[|old(tx.items)|..]) + (LostBy(end) + reader.data)
    ensures input.pos == |taken| <= |input.items| && forall i :: 0 <= i < |taken| ==> taken[i] <= |input.items[i]|
    ensures writer.written == old(writer.written) + Prefixes(input.items, taken)
    ensures forall i :: 0 <= i < |taken| && taken[i] == 0 ==> i == |taken| - 1 && (end.NothingWritten? || end.WriteFailed?)
    ensures end == Outward(EndOfFile) ==> reader.data == []
    ensures end.InputClosed? ==> |taken| == |input.items|
    ensures reader.failed == (old(reader.failed) || end == Outward(ReadFailed))
    ensures writer.failed == (old(writer.failed) || end.WriteFailed?)
  {
    hide Flatten, Prefixes;
    NothingSent(tx.items, reader.data);
    NothingTaken(input.items, writer.written);
    taken := [];
    while true
      invariant Outgoing(old(tx.items), old(reader.data), tx.items, reader.data)
      invariant Incoming(input.items, taken, old(writer.written), writer.written)
      invariant input.pos == |taken| <= |input.items|
      invariant reader.failed == old(reader.failed) && writer.failed == old(writer.failed)
      decreases |reader.data| + |input.items| - input.pos
    {
      hide Outgoing, Incoming;
      if * {
        var r := SendNext(reader, tx);
        if r.Err? {
          end := Outward(r.error);
          break;
        }
        MoreSent(old(tx.items), old(reader.data), tx.items[..|tx.items| - 1], r.value, reader.data);
        assert tx.items[..|tx.items| - 1] + [r.value] == tx.items;
      } else {
        if input.pos == |input.items| {
          end := InputClosed;
          break;
        }
        ghost var written := writer.written;
        var r, n := WriteNext(input, writer);
        if r.Err? {
          end := r.error;
          break;
        }
        MoreTaken(input.items, taken, old(writer.written), written, n);
        taken := taken + [n];
      }
    }
    assert LostBy(end) == [] ==> [] + reader.data == reader.data;
    if end.NothingWritten? || end.WriteFailed? {
      PrefixesMore(input.items, taken, 0);
      taken := taken + [0];
    }
  }

  lemma {:induction false} PrefixesLength(items: seq<seq<u8>>, taken: seq<nat>)
    requires |taken| <= |items| && forall i :: 0 <= i < |taken| ==> taken[i] <= |items[i]|
    ensures |Prefixes(items, taken)| <= |Flatten(items[..|taken|])|
    ensures |Prefixes(items, taken)| == |Flatten(items[..|taken|])| ==>
              forall i :: 0 <= i < |taken| ==> taken[i] == |items[i]|
    ensures (forall i :: 0 <= i < |taken| ==> taken[i] == |items[i]|) ==>
              Prefixes(items, taken) == Flatten(items[..|taken|])
  {
    if taken != [] {
      var n := |taken| - 1;
      PrefixesLength(items, taken[..n]);
      OneMore(items[..n], items[n], []);
      assert items[..n] + [items[n]] == items[..|taken|];
    }
  }

  /** What the socket gets is all that was sent to it, if and only if no write was short. */
  lemma WholeIfNoShortWrite(items: seq<seq<u8>>, taken: seq<nat>)
    requires |taken| <= |items| && forall i :: 0 <= i < |taken| ==> taken[i] <= |items[i]|
    ensures Prefixes(items, taken) == Flatten(items[..|taken|]) <==> forall i :: 0 <= i < |taken| ==> taken[i] == |items[i]|
  {
    PrefixesLength(items, taken);
  }
}
