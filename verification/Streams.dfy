/** The adapters at the ends of the tunnel: a writer that sends what is written to it, a stream with an
    item put in front, and the streams of requests that carry a session's id in their first item. */
module Streams {
  import opened Bytes
  import opened Wrappers
  import opened Framing
  import opened Tunnel

  // ------------------------------------------------------------------- the writer

  datatype WriteError = SenderDown | ChannelClosed

  /** Writes to a channel until it is shut down. */
  class SenderWriter {
    var inner: Option<Channel>
    ghost const channel: Channel
    ghost var accepted: seq<u8>      // the bytes that writes have been said to take

    /** What has been sent is what has been taken, in chunks that are not empty. */
    ghost predicate Valid()
      reads this, channel
    {
      && (inner.Some? ==> inner.value == channel)
      && Flatten(channel.items) == accepted
      && [] !in channel.items
    }

    constructor (channel: Channel)
      requires channel.items == []
      ensures Valid() && this.channel == channel && inner == Some(channel) && accepted == []
    {
      inner := Some(channel);
      this.channel := channel;
      accepted := [];
    }

    /** `poll_write`: all of a buffer that is not empty is taken as one item, or nothing of it. */
    method PollWrite(buf: seq<u8>) returns (r: Poll<Result<nat, WriteError>>)
      requires Valid()
      modifies this`accepted, channel
      ensures Valid()
      ensures r.Ready? && r.value.Ok? ==> r.value.value == |buf| && accepted == old(accepted) + buf
      ensures r.Ready? && r.value.Ok? && buf != [] ==> inner.Some? && channel.items == old(channel.items) + [buf]
      ensures r.Pending? || r.value.Err? || buf == [] ==> channel.items == old(channel.items) && accepted == old(accepted)
      ensures buf == [] ==> r == Ready(Ok(0))
      ensures buf != [] && inner.None? ==> r == Ready(Err(SenderDown))
    {
      if buf == [] {
        return Ready(Ok(0));
      }
      if inner.None? {
        return Ready(Err(SenderDown));
      }
      if * { return Pending; }                       // no room in the channel yet
      if * { return Ready(Err(ChannelClosed)); }     // nobody receives any more
      OneMore(channel.items, buf, []);
      var ok := inner.value.Send(buf);
      if !ok {
        return Ready(Err(ChannelClosed));
      }
      accepted := accepted + buf;
      return Ready(Ok(|buf|));
    }

    method PollFlush() returns (r: Poll<Result<(), WriteError>>)
      ensures r == Ready(if inner.Some? then Ok(()) else Err(SenderDown))
    {
      r := Ready(if inner.Some? then Ok(()) else Err(SenderDown));
    }

    /** The first shutdown closes the channel, another is an error. */
    method PollShutdown() returns (r: Poll<Result<(), WriteError>>)
      requires Valid()
      modifies this`inner
      ensures Valid() && inner.None?
      ensures r == Ready(if old(inner).Some? then Ok(()) else Err(SenderDown))
    {
      r := Ready(if inner.Some? then Ok(()) else Err(SenderDown));
      inner := None;
    }
  }

  // ------------------------------------------------------------------- an item in front

  /** What a stream answers to one poll, while it has not ended. */
  datatype Polled<+T> = NotYet | Next(item: T)

  function Items<T>(stream: seq<Polled<T>>): seq<T> {
    if stream == [] then []
    else (if stream[0].Next? then [stream[0].item] else []) + Items(stream[1..])
  }

  class PrependedStream<T> {
    var stream: seq<Polled<T>>
    var item: Option<T>

    /** What it still gives. */
    ghost function Remaining(): seq<T>
      reads this
    {
      (if item.Some? then [item.value] else []) + Items(stream)
    }

    constructor (stream: seq<Polled<T>>, item: T)
      ensures Remaining() == [item] + Items(stream) && this.stream == stream && this.item == Some(item)
    {
      this.stream := stream;
      this.item := Some(item);
    }

    method PollNext() returns (r: Poll<Option<T>>)
      modifies this
      ensures r.Pending? ==> Remaining() == old(Remaining())
      ensures r == Ready(None) ==> old(Remaining()) == [] && stream == [] == old(stream)
      ensures r.Ready? && r.value.Some? ==> old(Remaining()) == [r.value.value] + Remaining()
      ensures item.None? && |stream| <= old(|stream|)
      ensures r != Ready(None) ==> |stream| < old(|stream|) || old(item).Some?
    {
      if item.Some? {
        r := Ready(item);
        item := None;
        return;
      }
      if stream == [] {
        return Ready(None);
      }
      var next := stream[0];
      stream := stream[1..];
      return if next.Next? then Ready(Some(next.item)) else Pending;
    }
  }

  // ------------------------------------------------------------------- the standard input

  datatype Request = Request(id: Option<seq<u8>>, data: seq<u8>)

  const ID_SIZE := 16

  /** The client's requests: the first carries the id of the session. */
  function Tagged(id: seq<u8>, chunks: seq<seq<u8>>): (requests: seq<Request>)
    ensures |requests| == |chunks|
    ensures forall i :: 0 <= i < |chunks| ==> requests[i] == Request(if i == 0 then Some(id) else None, chunks[i])
  {
    if chunks == [] then []
    else
      [Request(Some(id), chunks[0])]
      + seq(|chunks| - 1, i requires 0 <= i < |chunks| - 1 => Request(None, chunks[i + 1]))
  }

  /** Requests on their way: the first `k` arrive, then there is an error, if any are left. */
  function Arrived(requests: seq<Request>, k: nat): seq<Result<Request, ()>>
    requires k <= |requests|
  {
    seq(k, i requires 0 <= i < k => Ok(requests[i])) + if k < |requests| then [Err(())] else []
  }

  /** The data of the requests before the first error. */
  function UpToError(arrived: seq<Result<Request, ()>>): seq<seq<u8>> {
    if arrived == [] || arrived[0].Err? then [] else [arrived[0].value.data] + UpToError(arrived[1..])
  }

  datatype StdinError = InvalidArgument | ChildGone

  /** The first item has to carry an id of the right size. */
  predicate HasId(arrived: seq<Result<Request, ()>>) {
    arrived != [] && arrived[0].Ok? && arrived[0].value.id.Some? && |arrived[0].value.id.value| == ID_SIZE
  }

  /** Every item is written to the child, in full. */
  method WriteItems(stream: PrependedStream<seq<u8>>, child: Sink) returns (ok: bool)
    modifies stream, child
    ensures old(child.written) <= child.written <= old(child.written) + Flatten(old(stream.Remaining()))
    ensures ok ==> child.written == old(child.written) + Flatten(old(stream.Remaining()))
  {
    hide Flatten, Items;
    ghost var all := stream.Remaining();
    ghost var done: seq<seq<u8>> := [];
    NothingDone(all, child.written);
    while true
      invariant done + stream.Remaining() == all
      invariant child.written == old(child.written) + Flatten(done)
      decreases |stream.stream| + if stream.item.Some? then 1 else 0
    {
      FlattenAppend(done, stream.Remaining());
      var polled := stream.PollNext();
      match polled {
        case Pending =>
        case Ready(None) =>
          assert done == all;
          return true;
        case Ready(Some(item)) =>
          Advance(done, item, stream.Remaining());
          ok := child.WriteAll(item);
          if !ok {
            return false;
          }
          done := done + [item];
      }
    }
  }

  lemma NothingDone(all: seq<seq<u8>>, written: seq<u8>)
    ensures [] + all == all && written + Flatten([]) == written
  {
  }

  /** The server's side: the id is taken from the first item, its data is put in front of the rest,
      and all of it is written to the child. */
  method ServeStdin(arrived: seq<Result<Request, ()>>, child: Sink) returns (r: Result<seq<u8>, StdinError>)
    modifies child
    ensures r == Err(InvalidArgument) <==>
              || arrived == [] || arrived[0].Err?
              || arrived[0].value.id.None? || |arrived[0].value.id.value| != 16
    ensures r == Err(InvalidArgument) ==> child.written == old(child.written)
    ensures r.Ok? ==> r.value == arrived[0].value.id.value
    ensures r.Ok? ==> child.written == old(child.written) + Flatten(UpToError(arrived))
    ensures old(child.written) <= child.written <= old(child.written) + Flatten(UpToError(arrived))
  {
    if !HasId(arrived) {
      return Err(InvalidArgument);
    }
    var first := arrived[0].value;
    var rest := Scan(arrived[1..]);
    var stream := new PrependedStream<seq<u8>>(rest, first.data);
    assert stream.Remaining() == UpToError(arrived);
    hide Flatten, UpToError, Items;
    var ok := WriteItems(stream, child);
    return if ok then Ok(first.id.value) else Err(ChildGone);
  }

  lemma Advance(done: seq<seq<u8>>, item: seq<u8>, later: seq<seq<u8>>)
    ensures done + ([item] + later) == done + [item] + later
    ensures Flatten(done + [item]) == Flatten(done) + item
    ensures Flatten(done + ([item] + later)) == Flatten(done) + item + Flatten(later)
  {
    assert done + ([item] + later) == done + [item] + later;
    OneMore(done, item, Flatten(later));
    FlattenAppend(done + [item], later);
  }

  /** The stream of the data of the requests, up to the first error. */
  function Scan(arrived: seq<Result<Request, ()>>): (stream: seq<Polled<seq<u8>>>)
    ensures Items(stream) == UpToError(arrived)
  {
    if arrived == [] || arrived[0].Err? then [] else [Next(arrived[0].value.data)] + Scan(arrived[1..])
  }

  lemma {:induction false} UpToErrorOfOks(arrived: seq<Result<Request, ()>>, k: nat)
    requires k <= |arrived| && forall i :: 0 <= i < k ==> arrived[i].Ok?
    requires k < |arrived| ==> arrived[k].Err?
    ensures |UpToError(arrived)| == k
    ensures forall i :: 0 <= i < k ==> UpToError(arrived)[i] == arrived[i].value.data
  {
    if k > 0 {
      UpToErrorOfOks(arrived[1..], k - 1);
    }
  }

  /** The standard input arrives as it was sent: tagged with an id, sent, and split again, the chunks
      are the same, and so is the id; when the stream breaks after `k` items they are the first `k`. */
  lemma StdinIdentity(id: seq<u8>, chunks: seq<seq<u8>>, k: nat)
    requires |id| == ID_SIZE && k <= |chunks|
    ensures var arrived := Arrived(Tagged(id, chunks), k);
      && UpToError(arrived) == chunks[..k]
      && (HasId(arrived) <==> k > 0)
      && (k > 0 ==> arrived[0].value.id.value == id)
  {
    UpToErrorOfOks(Arrived(Tagged(id, chunks), k), k);
  }

  /** The client's side. Without a first chunk there is no request at all. */
  method TagStdin(id: seq<u8>, chunks: seq<seq<u8>>) returns (requests: Option<PrependedStream<Request>>)
    ensures requests.None? <==> chunks == []
    ensures requests.Some? ==> fresh(requests.value) && requests.value.Remaining() == Tagged(id, chunks)
  {
    if chunks == [] {
      return None;
    }
    var rest := seq(|chunks| - 1, i requires 0 <= i < |chunks| - 1 => Next(Request(None, chunks[i + 1])));
    ItemsOfNexts(rest);
    var stream := new PrependedStream<Request>(rest, Request(Some(id), chunks[0]));
    assert stream.Remaining() == Tagged(id, chunks);
    return Some(stream);
  }

  lemma {:induction false} ItemsOfNexts<T>(stream: seq<Polled<T>>)
    requires forall i :: 0 <= i < |stream| ==> stream[i].Next?
    ensures |Items(stream)| == |stream| && forall i :: 0 <= i < |stream| ==> Items(stream)[i] == stream[i].item
  {
    if stream != [] {
      ItemsOfNexts(stream[1..]);
    }
  }

  // ------------------------------------------------------------------- the 9p forwarding

  /** The client sends the id in an item of its own. */
  function ForwardRequests(id: seq<u8>, chunks: seq<seq<u8>>): seq<Request> {
    Tagged(id, [[]] + chunks)
  }

  /** The server drops the data of the first item. */
  function ForwardItems(arrived: seq<Result<Request, ()>>): seq<seq<u8>>
    requires HasId(arrived)
  {
    UpToError(arrived[1..])
  }

  /** No byte is lost by that, if and only if there is none in the first item. */
  lemma NothingDropped(arrived: seq<Result<Request, ()>>)
    requires HasId(arrived)
    ensures Flatten(ForwardItems(arrived)) == Flatten(UpToError(arrived)) <==> arrived[0].value.data == []
  {
    var (all, kept) := (UpToError(arrived), ForwardItems(arrived));
    assert all[1..] == kept;
    assert |Flatten(all)| == |arrived[0].value.data| + |Flatten(kept)|;
  }

  /** So the bytes arrive as the client sent them. */
  lemma ForwardIdentity(id: seq<u8>, chunks: seq<seq<u8>>, k: nat)
    requires |id| == ID_SIZE && k <= |chunks|
    ensures var arrived := Arrived(ForwardRequests(id, chunks), k + 1);
      HasId(arrived) && arrived[0].value.id.value == id && ForwardItems(arrived) == chunks[..k]
  {
    var arrived := Arrived(ForwardRequests(id, chunks), k + 1);
    StdinIdentity(id, [[]] + chunks, k + 1);
    assert ForwardItems(arrived) == UpToError(arrived)[1..];
    assert ([[]] + chunks)[..k + 1][1..] == chunks[..k];
  }
}
