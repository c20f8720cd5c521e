# A 9P2000.L server behind a byte tunnel

These Dafny modules model the part of the repository that lets a command on a remote machine use the
files of the local one, as one story: a concurrent 9P2000.L server whose messages travel over a tunnel
of byte chunks, inside sessions that are dialled, started, waited for and mounted on the remote side.

- **Messages.** `Fcalls` has all 57 message bodies, their codes and the fids they name. `Wire` and
  `Codec` write and read them: little-endian numbers, strings behind a 16-bit length cast, vectors, data,
  flag sets that are truncated to their named bits, reserved bytes. `CodecLaws`, `CodecBacks` and
  `CodecTheorems` prove the format from both sides; `Flags` is the conjunction of numbers bit by bit,
  `Unicode` the encoding of text.
  `CodecChains` is the encoder as it runs, value by value along the chains of `<<`, with the counts it adds
  up; `CodecStreams` is the decoder, over a stream that it takes from.
- **Framing.** `Framing` has the chunk-to-byte adapter `StreamReader` as a class, the length-prefixed
  frames, and the server's receive loop as a method; `FramingTheorems` says what chunking cannot change.
- **The dispatcher.** `Dispatcher` is a state machine over the fid table, the tasks in flight with their
  phase, and the replies; a task looks up and runs its handler under the read lock, commits under the
  write lock, and replies, with any other task's steps in between. `DispatcherSafety` has the invariants
  of all runs, `Serial` the comparison with serving one message at a time, `Connection` the table as a
  class whose methods are those steps.
- **The file system.** `Readdir` pages through a directory, `Walk` builds paths and runs them through the
  dispatcher's state machine, `FileIo` seeks and transfers under the lock of the fid's file.
- **The tunnel.** `Tunnel` has the chunk loops and the forwarding task, `Streams` the writer, the
  stream with an item in front and the tagged request streams, `TunnelTheorems` the two directions
  joined to the receive loop.
- **Sessions and mounts.** `Sessions` is the life of a session under concurrent calls, `Mounts` the way
  from a namespace string to the calls of `mount`; `Splits` is the splitting of strings and paths that
  `Mounts` and `Walk` use.

Code that works step by step is modelled by classes and methods with loops; each is proved equal to a
function of its old state, and the theorems are about those functions and about every run of the state
machines. The choices of the system (how much a read or a write moves, whether a port can be bound,
whether the other end of a channel is still there) are made anew at every call or are parameters.

## Where the code departs from its documentation

- The decoder of a directory listing takes the leading number for a number of entries, where the encoder
  and 9P2000.L mean a number of bytes. Both decoders are modelled (`AsWritten`, `Intended`);
  `CodecTheorems.RoundTrip` says exactly when each reads a message back, and
  `CodecLaws.WrittenListingFails` that the one as written always fails on a listing sent by itself.
- A walk that stops in the middle binds the new fid, to a path with the name that is missing, where
  walk(5) wants it unaffected: `Walk.WalkKeepsToTheManual` says exactly when, `Walk.WalkStopsInTheMiddle`
  is an instance.
- The forwarding task writes each item with a single `write`, which may take only some of it:
  `Tunnel.WholeIfNoShortWrite` says exactly when the socket gets everything.
- The size of a reply to Treaddir is summed up in 32 bits, so for a count near 2^32 it can be larger than
  the count: `Readdir.PageSize` says exactly when, `Readdir.PageTooLarge` is an instance.
- The chunk reader reports an empty chunk as an end of file: `FramingTheorems.ChunkIndependence` says
  exactly when that cuts a stream short, `TunnelTheorems.ChunksAreDelivered` that the forwarding task
  never causes it.
- The afid of a Tattach is among the fids that the message names, but the dispatcher never looks it up:
  `Dispatcher.LookupsAreFids`.

## Model

| member | source | states |
|---|---|---|
| `Bytes.LittleEndianInverse` | crates/9p/src/serialize.rs:153-178 | A number that fits its width is read back from the bytes it is written as. |
| `Bytes.LittleEndianDigit` | crates/9p/src/serialize.rs:153-178 | Byte i of a number that is written is its digit of 256 to the power i: the least significant comes first. |
| `Unicode.ValidMeansEncoded` | crates/9p/src/serialize.rs:547-553 | Bytes are accepted as a string if and only if they are the encodings, by arithmetic, of some scalar values one after another. |
| `Unicode.EncodingIsInjective` | crates/9p/src/serialize.rs:547-553 | And of one list of scalar values only. |
| `WireLaws.StringRead` | crates/9p/src/serialize.rs:547-553 | Reading a string takes the bytes its length field says, leaves the rest, and fails exactly when there are too few or they are not valid UTF-8. |
| `WireLaws.NamedBitsAreKept` | crates/9p/src/fcall.rs:146-171 | Reading a flag set is the conjunction with the mask of its named bits. |
| `WireLaws.KeptBits` | crates/9p/src/serialize.rs:10-18 | Bit by bit: a bit survives if and only if it was set and has a name. |
| `Fcalls.MasksAreUnions` | crates/9p/src/fcall.rs:146-272 | Each mask is the union of the named flags of its set. |
| `Fcalls.RepliesAreOdd` | crates/9p/src/fcall.rs:602-645 | The R-messages are exactly those with an odd type number. |
| `WireLaws.QidTypesAreKept` | crates/9p/src/fcall.rs:181-200 | Every bit of a qid's type has a name, so none is dropped. |
| `WireLaws.EntryLaw` | crates/9p/src/serialize.rs:262-269 | A directory entry with a short name is read back whatever follows it. |
| `WireLaws.EntryBack` | crates/9p/src/serialize.rs:621-630 | An entry that was read is written as the bytes it was read from. |
| `CodecLaws.SizesAgree` | crates/9p/src/fcall.rs:444-475 | `DirEntry::size` and `DirEntryData::size` are the numbers of bytes that are encoded, modulo 2^32. |
| `CodecLaws.EntriesRoundTrip` | crates/9p/src/serialize.rs:271-282 | A listing under 2^32 bytes with short names is read back by the byte-counting decoder, and what follows it is left. |
| `CodecLaws.WrittenListingFails` | crates/9p/src/serialize.rs:632-641 | The decoder as written runs out of bytes on every listing that is not empty and has nothing behind it. |
| `CodecTheorems.RoundTrip` | crates/9p/src/serialize.rs:336-897 | For every message and any bytes behind it: it is read back, with those bytes left, if and only if no length cast truncates (and, for the listing decoder as written, the listing has as many bytes as entries). |
| `CodecTheorems.WrittenListingSurvivesIfEmpty` | crates/9p/src/serialize.rs:632-641 | Under the decoder as written a directory listing survives if and only if it is empty. |
| `CodecTheorems.PrefixFree` | crates/9p/src/serialize.rs:336-516 | No encoding is a prefix of another: encodings of two messages followed by the same bytes are the same message. |
| `CodecTheorems.Normalises` | crates/9p/src/serialize.rs:686-897 | For both decoders: what is decoded encodes to the bytes that were read with unnamed flag bits and reserved bytes cleared if and only if the message survives, and all but directory listings read by the decoder as written do; the cleared bytes decode to the same. |
| `CodecTheorems.VariantsAgree` | crates/9p/src/serialize.rs:632-641 | The two decoders read every body but that of an Rreaddir alike. |
| `CodecTheorems.UnknownType` | crates/9p/src/serialize.rs:692-892 | Under both decoders every message of a type number that is not one of the 57 is refused as that, whatever it holds. |
| `CodecTheorems.WalkLayout` | crates/9p/src/serialize.rs:336-516 | A Twalk is its type, tag, fid, new fid, number of names and length-prefixed names, little-endian and in this order. |
| `CodecTheorems.WriteLayout` | crates/9p/src/serialize.rs:336-516 | A Twrite is its type, tag, fid, offset, number of bytes and bytes, in this order. |
| `CodecBacks.BodyReadsBack` | crates/9p/src/serialize.rs:696-894 | Every body that decodes is encodable, has the type number it was read under, and re-encodes to its bytes up to the cleared bits. |
| `CodecChains.TotalAgrees` | crates/9p/src/serialize.rs:147-178 | Counts added up as the code adds them (the size of a number, 2 and 4 more than the length of strings and data, `bytes_written` of structures and folds) are the number of bytes written, for every chain. |
| `CodecChains.EncodeTo` | crates/9p/src/serialize.rs:153-291 | Encoding a value appends its bytes and returns its own count. |
| `CodecChains.Run` | crates/9p/src/serialize.rs:47-99 | A chain of `<<` appends its values in order, field by field, and `bytes_written` is the sum of their counts. |
| `CodecChains.FoldPuts` | crates/9p/src/serialize.rs:324-334 | The fold of `<<` over a list writes the items one after another. |
| `CodecChains.EntriesChained` | crates/9p/src/serialize.rs:271-282 | The chain of a listing writes its size and its entries. |
| `CodecChains.MsgChained` | crates/9p/src/serialize.rs:336-516 | The chain of each message, with the fields in the order of the code, writes its encoding. |
| `CodecChains.BytesWritten` | crates/9p/src/serialize.rs:336-516 | For every message the counts along its chain add up to the length of its encoding. |
| `CodecChains.WriteMsgTo` | crates/9p/src/serialize.rs:905-907 | `write_msg` appends the encoding and returns its length. |
| `CodecStreams.Decoder.DecodeVec` | crates/9p/src/serialize.rs:675-684 | The loop reads the vector that the format function reads, leaves the same bytes, and fails on the same input with the same error. |
| `CodecStreams.Decoder.DecodeEntries` | crates/9p/src/serialize.rs:632-641 | The same for the listing loop as it is written. |
| `Framing.StreamReader.PollRead` | crates/libp9cpu/src/client.rs:94-125 | What is handed out and what is left always make up what was unread, whatever the answer; at most the room is handed out; nothing handed out with room means that the chunks are over or an empty one was met. |
| `Framing.NextFrameStable` | crates/9p/src/srv.rs:339-344 | Bytes that arrive later change neither a complete frame nor a malformed one. |
| `Framing.Dispatch` | crates/9p/src/srv.rs:339-356 | For every chunking, every amount of room and every wait, the loop dispatches the messages in the bytes up to the first empty chunk and ends as they say (`FramingTheorems.MessagesMean`). |
| `FramingTheorems.FramesAreRead` | crates/9p/src/srv.rs:339-356 | Framed messages are dispatched in order, and the loop goes on with what follows them. |
| `FramingTheorems.CutShort` | crates/9p/src/srv.rs:353-356 | Of framed messages that are cut short a proper prefix is dispatched, and the end is clean if and only if the cut is between two frames. |
| `FramingTheorems.MessagesMean` | crates/9p/src/srv.rs:339-356 | Any bytes at all are frames whose payloads begin with the messages dispatched, one each, and a rest at which the loop stops for the reason it gives: nothing, an incomplete frame, a size under four, or a payload that does not decode. |
| `FramingTheorems.StopsAtBadMessage` | crates/9p/src/srv.rs:353-356 | Behind any messages, a payload that does not decode ends the loop with its error, and nothing behind it is dispatched. |
| `FramingTheorems.StopsAtBadSize` | crates/9p/src/srv.rs:339-354 | The same for a size that does not count its own four bytes. |
| `FramingTheorems.PaddingIsDropped` | crates/9p/src/srv.rs:353-356 | Bytes of a frame behind its message are dropped. |
| `FramingTheorems.ChunkIndependence` | crates/libp9cpu/src/client.rs:94-125 | Framed messages, cut into chunks anywhere, are dispatched completely and end cleanly if and only if no empty chunk stands before bytes. |
| `FramingTheorems.SameBytesSameMessages` | crates/libp9cpu/src/client.rs:94-125 | Two ways of cutting the same bytes into chunks that are not empty dispatch the same messages. |
| `Dispatcher.HandlersServeRequests` | crates/9p/src/srv.rs:274-309 | Exactly the messages that are not R-messages have a handler. |
| `Dispatcher.LookupsAreFids` | crates/9p/src/fcall.rs:944-978 | A request is looked up by exactly the fids it names, if and only if it is not a Tattach with an afid. |
| `DispatcherSafety.BoundMeans` | crates/9p/src/srv.rs:312-321 | Bound means inserted and not removed since. |
| `DispatcherSafety.RunsAreSafe` | crates/9p/src/srv.rs:258-393 | In every reachable state a fid is in the table if and only if its last update was an insert, exactly the successful tasks have their updates in the history, and a running handler's fids are in the table. |
| `DispatcherSafety.OneReplyPerRequest` | crates/9p/src/srv.rs:353-390 | In every reachable state the tags received are those replied and those in flight; and the k-th reply has the tag of the k-th task to end, and is the message that its handler answered as it is, or the Rlerror of its error number. |
| `DispatcherSafety.SomeoneGoesOn` | crates/9p/src/srv.rs:274-321 | There is no deadlock over the table: while a task is in flight some task can take its next step. |
| `DispatcherSafety.ReplyMeansBound` | crates/9p/src/srv.rs:312-321 | When a success reply to a request that binds a fid has been sent, the fid is in the table, as long as every Tclunk of it had ended before the request arrived or ended in an error; the number may have been bound and clunked before. |
| `DispatcherSafety.BoundFidsAreFound` | crates/9p/src/srv.rs:274-277 | A request on fids that are so bound, each since a moment of its own, is not answered EBADF by the dispatcher. |
| `DispatcherSafety.ErrorsChangeNoFids` | crates/9p/src/srv.rs:274-324 | A request that is answered by an error has changed no key of the table. |
| `Serial.ServeRefuses` | crates/9p/src/srv.rs:274-309 | Served alone, an R-message is answered EOPNOTSUPP, and a request that names a fid not in the table EBADF (a Tattach's afid aside); the table is as it was. |
| `Serial.ServeMeans` | crates/9p/src/srv.rs:258-324 | Any other request is answered as its handler answers the fids it names; fid by fid, the table is as it was but for what the handler left in them and, on success, the fid clunked and the fid bound. |
| `Serial.ServeIsLocal` | crates/9p/src/srv.rs:258-324 | Serving a request depends on the fids it touches only. |
| `Serial.ServeWrites` | crates/9p/src/srv.rs:312-321 | Serving a request changes the fids it writes only. |
| `Serial.Serialisable` | crates/9p/src/srv.rs:326-393 | If no message arrives while a conflicting one is in flight, then in every interleaving every answer is the one that serving in order of arrival gives, and when nothing is in flight the table is the same too. |
| `Serial.TouchesItsFootprint` | crates/9p/src/fcall.rs:944-988 | What a request depends on or may change is among the fids it names and the one it binds. |
| `Serial.SerialisableOnDisjointFids` | crates/9p/src/srv.rs:326-393 | The same for requests in flight together whose `fids()` and `newfid()` are disjoint. |
| `Serial.EarlyRequestFails` | crates/9p/src/srv.rs:363-388 | Without that there is a run in which a Tclunk gets EBADF that succeeds when the messages are served in order. |
| `Connection.Server.LookupAll` | crates/9p/src/srv.rs:274-309 | The lookups, one after another, fail exactly when a fid is missing or there is no handler. |
| `Connection.Server.DispatchOnce` | crates/9p/src/srv.rs:258-324 | Alone, the whole of a request has the table and the answer that the serial specification gives. |
| `Connection.Server.LookUp` | crates/9p/src/srv.rs:274-309 | The lookup part of a task is the step of the state machine. |
| `Connection.Server.RunHandler` | crates/9p/src/srv.rs:309-310 | The handler part of a task is the step of the state machine. |
| `Connection.Server.CommitTask` | crates/9p/src/srv.rs:312-321 | The commit of a task is the step of the state machine. |
| `Connection.Server.ReplyTask` | crates/9p/src/srv.rs:363-388 | A reply is sent if and only if the answer is an error or an R-message, under the tag of the request: the answered message as it is, or the Rlerror of the error number. |
| `Readdir.Rreaddir` | crates/9p/src/unpfs.rs:196-223 | The loop returns the page that the specification gives for an offset and a count. |
| `Readdir.FillThenFitting` | crates/9p/src/unpfs.rs:212-220 | A page takes entries from the front of those that fit, and at least one if there is one, even where the 32-bit sum wraps. |
| `Readdir.ReaddirExactlyOnce` | crates/9p/src/unpfs.rs:196-223 | A client that passes back the last offset gets ".", ".." and every entry once and in order, each with its own qid, type 0 and offsets 0, 1, 2, ..., up to the first that is larger than the count; all of them if and only if none is; in at most n + 2 requests. |
| `Readdir.DotsAlone` | crates/9p/src/unpfs.rs:199-201 | At offset 0 with a count under 51 the payload is exactly the 51 bytes of the two dots. |
| `Readdir.PageSize` | crates/9p/src/unpfs.rs:212-220 | Otherwise the payload has at most count bytes if and only if the first sum that is over count does not wrap around. |
| `Readdir.PageIsFull` | crates/9p/src/unpfs.rs:212-220 | And then no page stops early: it ends with the directory, or its payload and the next entry are more than count. |
| `Readdir.RoomForOneMore` | crates/9p/src/unpfs.rs:212-220 | No sum wraps when the count leaves room for one more entry under 2^32. |
| `Readdir.PageTooLarge` | crates/9p/src/unpfs.rs:212-220 | A directory and a count for which one does, and the payload is larger than the count. |
| `Walk.Unpfs.Rattach` | crates/9p/src/unpfs.rs:55-71 | The fid gets the root as its path, and the answer is the root's qid or error. |
| `Walk.Unpfs.Rwalk` | crates/9p/src/unpfs.rs:73-108 | The loop answers and sets the new fid's path as the specification says, also when the two fids are one. |
| `Walk.QidsMean` | crates/9p/src/unpfs.rs:86-100 | The j-th qid is that of the path of the first j + 1 names, and the first name without one ends the walk. |
| `Walk.PushComponents` | crates/9p/src/unpfs.rs:86-87 | Pushing a name puts its components behind those of the path, or in their place if it is absolute; separators never make or merge one. |
| `Walk.PushText` | crates/9p/src/unpfs.rs:86-87 | A relative name is put behind the path and at most one separator, which is added exactly where one is missing. |
| `Walk.PushAllAppend` | crates/9p/src/unpfs.rs:86-87 | Pushing names is composing: xs and then ys is xs + ys. |
| `Walk.ServedAttach` | crates/9p/src/unpfs.rs:55-71 | A served Tattach binds its fid to the root, whatever the user, tree and afid, and answers with the root's qid; if that cannot be looked up it answers with the error and binds nothing. |
| `Walk.NotSupported` | crates/9p/src/srv.rs:127-201 | A served Tauth or Txattrwalk is answered EOPNOTSUPP and binds nothing. |
| `Walk.ServedOthers` | crates/9p/src/srv.rs:274-321 | Every other served request is answered from the paths of the fids it names and moves none; a Tclunk that succeeds drops its fid. |
| `Walk.ServedWalk` | crates/9p/src/srv.rs:303-321 | A served Twalk fails, with the error of the first name and no change, if and only if it has names and the first is missing; otherwise it answers with the qids and binds the new fid to the path of the names tried. |
| `Walk.EmptyWalkClones` | crates/9p/src/unpfs.rs:73-108 | A walk of no names binds the new fid to the same path. |
| `Walk.WalkInTwoSteps` | crates/9p/src/unpfs.rs:73-108 | Walking xs and then ys gives the path and the qids of walking xs + ys; and exactly how the two differ when nothing of ys is there. |
| `Walk.WalkKeepsToTheManual` | crates/9p/src/unpfs.rs:86-105 | For every new fid: it is left alone by an incomplete walk if and only if the walk does not stop in the middle or the fid has the path with the missing name already. |
| `Walk.WalkStopsInTheMiddle` | crates/9p/src/unpfs.rs:86-105 | An instance in which the new fid is bound to a path that is not there. |
| `Walk.WalkLosesItsOwnFid` | crates/9p/src/unpfs.rs:86-105 | An instance in which a fid is walked to itself and loses its path. |
| `Walk.CreateThenWalk` | crates/9p/src/unpfs.rs:248-277 | A successful Tlcreate answers with the file's qid and an I/O unit of 0, and leaves the fid where a served Twalk of the name leaves it; a failed one answers with the error and leaves the table alone. |
| `Walk.PathsExtendTheRoot` | crates/9p/src/unpfs.rs:55-108 | In every state reachable by the concurrent server, the text of every fid's path extends that of the attached one, as long as no name received is absolute. (".." is not resolved, by the code or here.) |
| `FileIo.PReadMeans` | crates/9p/src/unpfs.rs:279-292 | A read gives the bytes that are there from the offset on, as many as asked for or as there are. |
| `FileIo.PWriteChanges` | crates/9p/src/unpfs.rs:294-303 | A write changes exactly the bytes it writes and fills the gap before them with zeros. |
| `FileIo.ReadBack` | crates/9p/src/unpfs.rs:279-303 | What was written at an offset is read back from it. |
| `FileIo.Rread` | crates/9p/src/unpfs.rs:279-292 | A Tread gives what `pread` gives at its offset, wherever the file was left; nothing only at the end of the file. |
| `FileIo.Rwrite` | crates/9p/src/unpfs.rs:294-303 | A Twrite of which n bytes are taken is a `pwrite` of the first n bytes at its offset. |
| `FileIo.WriteThenRead` | crates/9p/src/unpfs.rs:279-303 | An uninterrupted read behind a write gives back bytes of its front. |
| `FileIo.SeekThenMoveIsAtomic` | crates/9p/src/unpfs.rs:279-303 | Every interleaving of reads and writes through any number of fids equals the `pread`s and `pwrite`s of its transfers in their order, content and results. |
| `FileIo.LogGrows` | crates/9p/src/unpfs.rs:279-303 | That order keeps to real time: a transfer that has happened comes before those of later requests. |
| `FileIo.Alone` | crates/9p/src/unpfs.rs:279-303 | In any reachable state in which the fid's lock is free a request can go through by itself: it is one `pread` or `pwrite` at its offset, and the lock is free again. |
| `FileIo.SomeoneGoesOn` | crates/9p/src/unpfs.rs:279-303 | The locks are never deadlocked: while a request is not done some task can take its next step. |
| `FileIo.OrderOfOthersDoesNotMatter` | crates/9p/src/unpfs.rs:279-303 | Transfers next to each other in that order that do not write to the same place can change places without a change of the content. |
| `FileIo.TheLockIsNeeded` | crates/9p/src/unpfs.rs:281-283 | Without the file lock there is a run of two writes that no order of the two explains. |
| `Tunnel.Sink.WriteAll` | crates/libp9cpu/src/server.rs:238-239 | The loop writes a prefix, and all of the data unless it fails. |
| `Tunnel.SendNext` | crates/libp9cpu/src/server.rs:122-128 | One round reads 1 to 128 bytes and sends them as one chunk, or ends, for the reason it gives; only a chunk refused by the receiver is lost. |
| `Tunnel.CopyTo` | crates/libp9cpu/src/server.rs:117-131 | The chunks sent, the chunk lost and the bytes not read make up the source, and no chunk is empty or over 128 bytes. |
| `Tunnel.Forward` | crates/libp9cpu/src/server.rs:368-392 | The same for the forwarding task, whatever the interleaving of its two directions; and the socket is written a prefix of each item, in order. |
| `Tunnel.WholeIfNoShortWrite` | crates/libp9cpu/src/server.rs:385-389 | The socket has got all that was sent to it if and only if no write was short. |
| `Streams.SenderWriter.PollWrite` | crates/libp9cpu/src/client.rs:147-179 | What has been sent is always what writes have been said to take, in items that are not empty; a write takes all of its buffer or nothing. |
| `Streams.SenderWriter.PollShutdown` | crates/libp9cpu/src/client.rs:195-210 | The first shutdown closes the writer, another is an error. |
| `Streams.PrependedStream.PollNext` | crates/libp9cpu/src/rpc.rs:27-36 | Items come out once and in order with the extra one first, waiting loses nothing, and the end comes only when nothing remains. |
| `Streams.WriteItems` | crates/libp9cpu/src/server.rs:229-241 | The child gets every item of the stream in full and in order, or a front of them and an error. |
| `Streams.ServeStdin` | crates/libp9cpu/src/rpc/rpc_server.rs:116-135 | Without an id of 16 bytes in the first item nothing is written; otherwise the child gets the data of all items before the first error. |
| `Streams.TagStdin` | crates/libp9cpu/src/rpc/rpc_client.rs:145-166 | The request stream is the chunks with the id in the first item, and there is none without a chunk. |
| `Streams.StdinIdentity` | crates/libp9cpu/src/rpc/rpc_client.rs:145-166 | Tagged, sent, split and put together again the chunks are the same and so is the id; if the stream breaks after k items they are the first k. |
| `Streams.NothingDropped` | crates/libp9cpu/src/rpc/rpc_server.rs:160-175 | Dropping the first item's data loses no byte if and only if it has none. |
| `Streams.ForwardIdentity` | crates/libp9cpu/src/rpc/rpc_client.rs:168-186 | With the client's empty first item the 9p chunks arrive as they were sent. |
| `TunnelTheorems.ChunksAreDelivered` | crates/libp9cpu/src/client.rs:94-125 | Chunks that are not empty are delivered to the last byte: no early end of file. |
| `TunnelTheorems.TunnelDelivers` | crates/libp9cpu/src/server.rs:368-392 | From the socket through the tunnel the dispatcher gets the first of the messages sent, and all of them with a clean end if and only if nothing was lost or left unread. |
| `TunnelTheorems.DispatchArrivals` | crates/libp9cpu/src/client.rs:342-352 | A reader and a receive loop on what arrives dispatch the messages in the bytes sent. |
| `TunnelTheorems.SendReplies` | crates/9p/src/srv.rs:375-387 | The frames of the replies sent are what the writer has taken, in order. |
| `TunnelTheorems.RepliesAreRead` | crates/9p/src/srv.rs:363-388 | From the frames of the replies of a run the other side reads one reply for every request that has ended, under its own tag: what its handler answered, or the Rlerror of its error number. |
| `TunnelTheorems.BothDirections` | crates/libp9cpu/src/server.rs:368-392 | One run of the forwarding task delivers requests one way, and the other way exactly the frames of the replies if and only if all of them are taken and no write is short; they are then read as those replies. |
| `Sessions.RunsKeepInv` | crates/libp9cpu/src/server.rs:133-397 | In every reachable state each dial is pending, starting or over, in one place only and in the tables as it is said to be; one start at a time holds the lock of the running sessions. |
| `Sessions.LifeGoesOn` | crates/libp9cpu/src/server.rs:133-306 | What each step does to each dial: a start that takes the id makes it starting; finding the id running makes it failed; its end makes it running if the child is launched and a 9p command has a forwarding task, failed otherwise; the end of a `wait` stops the dial that is running under the id; nothing else changes any. |
| `Sessions.LifeFollows` | crates/libp9cpu/src/server.rs:133-306 | So a dial moves from pending to starting, from there to running or failed, from running to stopped, and never otherwise. |
| `Sessions.DialsAreAdded` | crates/libp9cpu/src/server.rs:277-288 | A dial of an id that is not pending adds one pending dial of it, and nothing else adds any. |
| `Sessions.ForwardsAreAdded` | crates/libp9cpu/src/server.rs:308-399 | A forwarding task with its port is added for the pending dial of the id, if there is one and a port could be bound, and never otherwise. |
| `Sessions.StartsEnd` | crates/libp9cpu/src/server.rs:133-226 | When a start ends, and with which error: DuplicateId if the id is running, No9pPort for a 9p command without a forwarding task, LaunchFail if the child is not launched, none otherwise. |
| `Sessions.WaitGoesOn` | crates/libp9cpu/src/server.rs:290-302 | A `wait` is let in if and only if the session runs, goes on to its tasks if and only if it still runs when the child has exited, and no other `wait` is touched. |
| `Sessions.WaitEnds` | crates/libp9cpu/src/server.rs:303 | At the end of a `wait` its session is not running any more and every other is as it was. |
| `Sessions.LockedOut` | crates/libp9cpu/src/server.rs:137-226 | While a start launches its child nothing but its end changes the running sessions or the waits. |
| `Sessions.SomeoneGoesOn` | crates/libp9cpu/src/server.rs:133-306 | While a call is in flight some call can take its next step. |
| `Sessions.LifeMeans` | crates/libp9cpu/src/server.rs:133-306 | What these stages are in terms of the tables and the calls in flight. |
| `Sessions.OneStartPerDial` | crates/libp9cpu/src/server.rs:133-139 | Of any number of concurrent starts one gets a dial, and its start ends once. |
| `Sessions.FreshSessions` | crates/libp9cpu/src/rpc/rpc_server.rs:151-158 | With fresh ids the pending, starting and running sessions have different ids, a failed start has used its entry up, and no start ever ends in DuplicateId. |
| `Sessions.TaskMovedOnce` | crates/libp9cpu/src/server.rs:140-145 | A running session holds the forwarding task that was set up last while it was pending, if any was, and nothing else holds that task. |
| `Sessions.PortOfItsTask` | crates/libp9cpu/src/server.rs:140-171 | The child of a running 9p session has been sent its command with the 9p entry pointed at the port of the forwarding task that the session holds; another child its command as it was. |
| `Sessions.MountsItsTask` | crates/libp9cpu/src/launcher.rs:115-127 | So with a client's namespace its first mount is the 9p file system at that port. |
| `Sessions.Server.Dial` | crates/libp9cpu/src/server.rs:277-288 | A dial is the step of the state machine, and fails exactly when the id is pending. |
| `Sessions.Server.NinepForward` | crates/libp9cpu/src/server.rs:308-399 | Setting up the forwarding is the step of the state machine, and fails exactly when the id is not pending or no port can be bound. |
| `Sessions.Server.TakePending` | crates/libp9cpu/src/server.rs:133-136 | The first part of a start is the step of the state machine, and fails exactly when the id is not pending. |
| `Sessions.Server.LockSessions` | crates/libp9cpu/src/server.rs:137-145 | The second part is the step of the state machine, and fails exactly when the id is running. |
| `Sessions.Server.FinishStart` | crates/libp9cpu/src/server.rs:147-226 | The third part is the step of the state machine, rewrites the entry with the loop of `Mounts.RewriteTabs`, and gives No9pPort, LaunchFail or no error as the command, the forwarding task and the launch say. |
| `Sessions.Server.ChildExits` | crates/libp9cpu/src/server.rs:291-297 | When the child has exited the session is looked up again, and may be gone. |
| `Sessions.Server.TasksJoined` | crates/libp9cpu/src/server.rs:298-303 | When the tasks are joined the session is removed: the step of the state machine. |
| `Splits.SplitInverse` | crates/libp9cpu/src/launcher.rs:22 | Joining the parts of a string gives it back, and no part has the separator. |
| `Splits.JoinInverse` | crates/libp9cpu/src/launcher.rs:32 | Splitting joined parts gives them back. |
| `Mounts.ParseFstabOpt` | crates/libp9cpu/src/launcher.rs:19-33 | The flag is set if and only if a part is "bind", and the other options come back in order. |
| `Mounts.OthersInOrder` | crates/libp9cpu/src/launcher.rs:19-33 | What is left of options is what is left of their front and then of their back: they keep their order. |
| `Mounts.UnchangedIf` | crates/libp9cpu/src/launcher.rs:19-33 | A string comes back unchanged and without the flag if and only if it has neither option. |
| `Mounts.ParseIdempotent` | crates/libp9cpu/src/launcher.rs:19-33 | Parsing what was returned changes nothing. |
| `Mounts.NinepOptionsPass` | crates/libp9cpu/src/server.rs:166-167 | The options of the 9p mount are the version, the transport and the port, and go through unchanged for every port. |
| `Mounts.DecimalBack` | crates/libp9cpu/src/server.rs:166-167 | The digits of the port read back as the port, without a leading zero. |
| `Mounts.ParseNamespace` | crates/libp9cpu/src/lib.rs:43-87 | The loop returns the entries that the specification gives. |
| `Mounts.BindOfMeans` | crates/libp9cpu/src/lib.rs:57-67 | A part without "=" is its own target and source, a part with one is target and source, and a part with more asks for nothing. |
| `Mounts.NoMounts` | crates/libp9cpu/src/lib.rs:45-87 | There are no entries if and only if the namespace is empty or no part is well formed. |
| `Mounts.BindsAreFirst` | crates/libp9cpu/src/lib.rs:57-80 | The binds are those of the well-formed parts that are the first for their target, in the order of the parts. |
| `Mounts.AllBound` | crates/libp9cpu/src/lib.rs:57-80 | Every target of a well-formed part is bound. |
| `Mounts.TargetsDiffer` | crates/libp9cpu/src/lib.rs:68-71 | No target is bound twice. |
| `Mounts.NamespaceRoundTrip` | crates/libp9cpu/src/lib.rs:43-87 | Binds with different targets, written out and parsed, come back as they were, each field of their entries and of the 9p entry spelled out. |
| `Mounts.RewriteTabs` | crates/libp9cpu/src/server.rs:158-171 | The loop rewrites, in place, the first 9p entry at the mount point and no other. |
| `Mounts.FirstEntryIsRewritten` | crates/libp9cpu/src/server.rs:158-171 | The first entry of type 9p at the mount point gets the loopback address and the options with the port, keeps its last two fields, and no other entry changes. |
| `Mounts.NinepIsMountedFirst` | crates/libp9cpu/src/launcher.rs:115-127 | For a client's namespace and any entries behind it the first mount is the 9p file system at the forwarded port, and each bind follows it, from below its mount point to a target of its own. |

## Left out

- gRPC, its encoding and the sockets under it: a stream of requests delivers the items sent in order until it ends or fails.
- Processes, terminals, pipes, identifiers of users and the mounting itself: calls of the operating system; `Mounts` ends with the arguments of `mount`.
- The standard output and error streams of a session: `Tunnel.CopyTo` is their loop, but their tasks are not among the handles in `Sessions`.
- The client's own record of its session (a second `start` or a `wait` before `start` is an error): single tests of one field.
- Timeouts, back pressure and fairness: every step may be taken whenever its locks allow it, and need not be; that some step always can is `SomeoneGoesOn` of `DispatcherSafety`, `FileIo` and `Sessions`.
- The largest frame that the framing library accepts: frames are taken to be under it. `FramingTheorems.Sendable` only asks that the length fits in four bytes.
- Metadata, attributes, links, renaming and removal: their handlers copy fields or call the operating system; they are `others` in `Walk.Backend` and change no path.
- Changes of the file system while it is walked or listed, and failures to read a directory or an entry: `Walk` and `Readdir` see one state of it.
- Two calls of `wait` that join the same tasks at the same time: joining is one step of `Sessions`, and what the runtime does on joining a task twice is not modelled.
- Dispatcher.Step: a handler is one step that sees and leaves only the fids it was given; handlers that run at the same time and share a fid or an open file are the subject of `FileIo`, not of `Serial`.
- Serial.Serialisable: a function of the fids alone; what a handler reads from the file system below is fixed in its function.
- DispatcherSafety.OneReplyPerRequest: asks that handlers answer with R-messages, as the file system trait does; without it such an answer is dropped and the request has no reply, as in the code.
- Readdir.PageSize: sums wrap around, as in a build without overflow checks; one with them would stop instead.
- Fcalls.EntriesSize: sums wrap around, as in a build without overflow checks.
- FileIo.Rwrite: errors of the system other than a missing file or an offset beyond the largest signed one are not modelled, and neither are the write buffers of the runtime.
- Streams.ServeStdin: the session is taken to exist; the lookup is that of `Sessions.Server.FindSession`.
- Sessions.Server.FinishStart: but for the mount entries, everything from binding the listener to handing the command over is one choice, whether it works.
- Walk.Backend: the flags of a Tlcreate and the permission bits are not modelled.
