/** The laws of the message codec: reading undoes writing exactly when no cast truncates, writing
    undoes reading up to unknown flag bits, and the sizes agree. */
module CodecLaws {
  import opened Bytes
  import opened Wrappers
  import opened Fcalls
  import opened Wire
  import opened WireLaws
  import opened Codec

  // ------------------------------------------------------------------- sizes

  /** The exact size of some entries, unlike the wrapping sum in `EntriesSize`. */
  function TotalSize(entries: seq<DirEntry>): nat {
    if entries == [] then 0
    else TotalSize(entries[..|entries| - 1]) + 24 + |entries[|entries| - 1].name|
  }

  lemma {:induction false} EachAppend<T>(write: (T, seq<u8>) -> seq<u8>, xs: seq<T>, ys: seq<T>, rest: seq<u8>)
    ensures WEach(write, xs + ys, rest) == WEach(write, xs, WEach(write, ys, rest))
  {
    if xs == [] {
      assert xs + ys == ys;
    } else {
      assert (xs + ys)[1..] == xs[1..] + ys;
      EachAppend(write, xs[1..], ys, rest);
    }
  }

  lemma {:induction false} EntriesLength(entries: seq<DirEntry>, rest: seq<u8>)
    ensures |WEach(WEntry, entries, rest)| == TotalSize(entries) + |rest|
    ensures TotalSize(entries) >= 24 * |entries|
  {
    if entries != [] {
      var (init, last) := (entries[..|entries| - 1], entries[|entries| - 1]);
      assert init + [last] == entries;
      EachAppend(WEntry, init, [last], rest);
      EntriesLength(init, WEach(WEntry, [last], rest));
      EntryLength(last, rest);
    }
  }

  lemma EntrySizeAgrees(e: DirEntry)
    ensures EntrySize(e) == |WEntry(e, [])| % 0x1_0000_0000
  {
    EntryLength(e, []);
    hide WEntry;
    assert |WEntry(e, [])| == QID_SIZE + 8 + 1 + 2 + |e.name|;
  }

  /** `DirEntryData::size` is the number of bytes the entries are written as, modulo 2^32; so is
      `DirEntry::size` for one entry. */
  lemma SizesAgree(entries: seq<DirEntry>)
    ensures EntriesSize(entries) == |WEach(WEntry, entries, [])| % 0x1_0000_0000
    ensures forall e: DirEntry :: EntrySize(e) == |WEntry(e, [])| % 0x1_0000_0000
  {
    hide WEntry, WEach, EntriesSize, EntrySize, TotalSize;
    SumsAgree(entries);
    EntriesLength(entries, []);
    forall e: DirEntry ensures EntrySize(e) == |WEntry(e, [])| % 0x1_0000_0000 { EntrySizeAgrees(e); }
  }

  lemma {:induction false} SumsAgree(entries: seq<DirEntry>)
    ensures EntriesSize(entries) == TotalSize(entries) % 0x1_0000_0000
  {
    if entries != [] {
      var (init, last) := (entries[..|entries| - 1], entries[|entries| - 1]);
      SumsAgree(init);
      WrapAdd(TotalSize(init), 24 + |last.name|);
      assert EntrySize(last) == (24 + |last.name|) % 0x1_0000_0000;
    }
  }

  lemma WrapAdd(a: nat, b: nat)
    ensures (a % 0x1_0000_0000 + b % 0x1_0000_0000) % 0x1_0000_0000 == (a + b) % 0x1_0000_0000
  {
    var m := 0x1_0000_0000;
    var sum := a % m + b % m;
    assert a + b == m * (a / m + b / m) + sum;
    assert (if sum < m then sum else sum - m) == (a + b) % m;
  }

  // ------------------------------------------------------------------- directory listings

  lemma EntriesRoundTrip(entries: seq<DirEntry>, rest: seq<u8>)
    requires forall e :: e in entries ==> Short(e.name)
    requires |WEach(WEntry, entries, [])| < 0x1_0000_0000
    ensures REntries(Intended, WEntries(entries, rest)) == Ok((entries, rest))
  {
    var payload := WEach(WEntry, entries, []);
    PayloadFront(entries, rest);
    SizeIsReadBack(entries, payload + rest);
    TakeFront(payload, rest);
    AllEntriesLaw(entries);
    hide WEach, W32, R32, RAllEntries, Take;
  }

  lemma PayloadFront(entries: seq<DirEntry>, rest: seq<u8>)
    ensures WEach(WEntry, entries, rest) == WEach(WEntry, entries, []) + rest
  {
    forall e, a, c ensures WEntry(e, a) + c == WEntry(e, a + c) { EntryFront(e, a, c); }
    EachFront(WEntry, entries, [], rest);
    assert [] + rest == rest;
  }

  lemma SizeIsReadBack(entries: seq<DirEntry>, rest: seq<u8>)
    requires |WEach(WEntry, entries, [])| < 0x1_0000_0000
    ensures R32(W32(EntriesSize(entries), rest)) == Ok((|WEach(WEntry, entries, [])|, rest))
  {
    hide EntriesSize, WEach;
    SizesAgree(entries);
    Pow256Values();
    NumLaw(EntriesSize(entries), 4, rest);
  }

  lemma EntryNeedsBytes()
    ensures REntry([]) == Err(UnexpectedEof)
  {
    assert RNum([], 1) == Err(UnexpectedEof);
    assert RQid([]) == Err(UnexpectedEof);
  }

  lemma FailureSpreads<T>(read: seq<u8> -> Read<T>, count: nat, b: seq<u8>)
    requires count > 0 && read(b).Ok? && REach(read, count - 1, read(b).value.1).Err?
    ensures REach(read, count, b) == Err(REach(read, count - 1, read(b).value.1).error)
  {
  }

  /** A reader that wants more values than were written, with nothing after them, runs out. */
  lemma {:induction false} EachRunsOut<T(!new)>(
    write: (T, seq<u8>) -> seq<u8>, read: seq<u8> -> Read<T>, xs: seq<T>, count: nat)
    requires forall x, rest :: x in xs ==> read(write(x, rest)) == Ok((x, rest))
    requires read([]) == Err(UnexpectedEof) && |xs| < count
    ensures REach(read, count, WEach(write, xs, [])) == Err(UnexpectedEof)
  {
    if xs != [] {
      assert xs[0] in xs;
      EachRunsOut(write, read, xs[1..], count - 1);
      FailureSpreads(read, count, WEach(write, xs, []));
    }
  }

  lemma EntriesRunOut(entries: seq<DirEntry>, count: nat)
    requires (forall e :: e in entries ==> Short(e.name)) && |entries| < count
    ensures REach(REntry, count, WEach(WEntry, entries, [])) == Err(UnexpectedEof)
  {
    EntryNeedsBytes();
    forall e, rest | e in entries ensures REntry(WEntry(e, rest)) == Ok((e, rest)) { EntryLaw(e, rest); }
    EachRunsOut(WEntry, REntry, entries, count);
  }

  /** The decoder as written takes the byte count for an entry count: on a directory listing that
      is not empty and has nothing after it, it always fails for want of bytes. */
  lemma WrittenListingFails(tag: u16, entries: seq<DirEntry>)
    requires entries != [] && Encodable(Rreaddir(entries))
    ensures Decode(AsWritten, Encode(Msg(tag, Rreaddir(entries)))) == Err(UnexpectedEof)
  {
    hide WEach, W32, R32, REach, EntriesSize, Decode, WriteMsg;
    var payload := WEach(WEntry, entries, []);
    EntriesLength(entries, []);
    EntriesRunOut(entries, |payload|);
    SizeIsReadBack(entries, payload);
    ListingBody(entries, []);
    HeaderLaw(AsWritten, Msg(tag, Rreaddir(entries)), []);
  }

  lemma ListingBody(entries: seq<DirEntry>, rest: seq<u8>)
    ensures WriteBody(Rreaddir(entries), rest) == WEntries(entries, rest)
    ensures REntries(AsWritten, WEntries(entries, rest)).Err? ==>
              ReadBody(AsWritten, 41, WEntries(entries, rest)) == Err(REntries(AsWritten, WEntries(entries, rest)).error)
  {
    hide WEntries, REntries;
  }

  // ------------------------------------------------------------------- reading undoes writing

  lemma RoundTripOpen(body: Fcall, rest: seq<u8>)
    requires 7 <= Code(body) <= 15 && Encodable(body)
    ensures ReadOpen(Code(body), WriteOpen(body, rest)) == Ok((body, rest))
  {
    hide W8, W16, W32, W64, WStr, WData, WQid, WStatfs, WStat, WSetAttr, WFlock, WGetlock,
      R8, R16, R32, R64, RStr, RData, RQid, RStatfs, RStat, RSetAttr, RFlock, RGetlock, RFlags,
      WReserved, RReserved, WEntries, REntries, WVec, RVec, Short, ValidUtf8;
    NumberLaws();
    StringLaws();
    QidLaws();
    if body.Rstatfs? { StatfsLaw(body.statfs, rest); }
  }

  lemma RoundTripNode(body: Fcall, rest: seq<u8>)
    requires 16 <= Code(body) <= 23 && Encodable(body)
    ensures ReadNode(Code(body), WriteNode(body, rest)) == Ok((body, rest))
  {
    hide W8, W16, W32, W64, WStr, WData, WQid, WStatfs, WStat, WSetAttr, WFlock, WGetlock,
      R8, R16, R32, R64, RStr, RData, RQid, RStatfs, RStat, RSetAttr, RFlock, RGetlock, RFlags,
      WReserved, RReserved, WEntries, REntries, WVec, RVec, Short, ValidUtf8;
    NumberLaws();
    StringLaws();
    QidLaws();
  }

  lemma ReservedLaw(rest: seq<u8>)
    ensures RReserved(WReserved(rest)) == Ok(((), rest))
  {
    TimeLaw(Time(0, 0), W64(0, W64(0, rest)));
    hide W64, R64, WTime, RTime;
    NumberLaws();
  }

  lemma RgetattrLaw(valid: GetattrMask, qid: Qid, stat: Stat, rest: seq<u8>)
    ensures ReadAttr(25, WriteAttr(Rgetattr(valid, qid, stat), rest)) == Ok((Rgetattr(valid, qid, stat), rest))
  {
    var reserved := WReserved(rest);
    Pow256Values();
    NumLaw(valid, 8, WQid(qid, WStat(stat, reserved)));
    QidLaw(qid, WStat(stat, reserved));
    StatLaw(stat, reserved);
    ReservedLaw(rest);
    hide WNum, WQid, WStat, WReserved, RNum, RQid, RStat, RReserved;
  }

  lemma RoundTripAttr(body: Fcall, rest: seq<u8>)
    requires 24 <= Code(body) <= 33 && Encodable(body)
    ensures ReadAttr(Code(body), WriteAttr(body, rest)) == Ok((body, rest))
  {
    var code := Code(body);
    hide W8, W16, W32, W64, WStr, WData, WQid, WStatfs, WStat, WSetAttr, WFlock, WGetlock,
      R8, R16, R32, R64, RStr, RData, RQid, RStatfs, RStat, RSetAttr, RFlock, RGetlock, RFlags,
      WReserved, RReserved, WEntries, REntries, WVec, RVec, Short, ValidUtf8;
    NumberLaws();
    if code >= 30 { StringLaws(); }
    if code == 24 || code == 26 { FlagLaws(); }
    if body.Rgetattr? { RgetattrLaw(body.valid, body.qid, body.stat, rest); }
    if body.Tsetattr? { SetAttrLaw(body.setAttr, rest); }
  }

  lemma RoundTripDir(body: Fcall, rest: seq<u8>)
    requires 40 <= Code(body) <= 55 && Encodable(body)
    ensures ReadDir(Intended, Code(body), WriteDir(body, rest)) == Ok((body, rest))
  {
    hide W8, W16, W32, W64, WStr, WData, WQid, WStatfs, WStat, WSetAttr, WFlock, WGetlock,
      R8, R16, R32, R64, RStr, RData, RQid, RStatfs, RStat, RSetAttr, RFlock, RGetlock, RFlags,
      WReserved, RReserved, WEntries, REntries, WVec, RVec, Short, ValidUtf8;
    NumberLaws();
    if body.Rreaddir? { EntriesRoundTrip(body.entries, rest); }
    if body.Tlock? { FlockLaw(body.flock, rest); }
    if body.Rlock? { FlagLaws(); }
    if body.Tgetlock? || body.Rgetlock? { GetlockLaw(body.getlock, rest); }
  }

  lemma RoundTripLink(body: Fcall, rest: seq<u8>)
    requires 70 <= Code(body) <= 77 && Encodable(body)
    ensures ReadLink(Code(body), WriteLink(body, rest)) == Ok((body, rest))
  {
    hide W8, W16, W32, W64, WStr, WData, WQid, WStatfs, WStat, WSetAttr, WFlock, WGetlock,
      R8, R16, R32, R64, RStr, RData, RQid, RStatfs, RStat, RSetAttr, RFlock, RGetlock, RFlags,
      WReserved, RReserved, WEntries, REntries, WVec, RVec, Short, ValidUtf8;
    NumberLaws();
    StringLaws();
    QidLaws();
  }

  lemma RoundTripSession(body: Fcall, rest: seq<u8>)
    requires 100 <= Code(body) <= 103 && Encodable(body)
    ensures ReadSession(Code(body), WriteSession(body, rest)) == Ok((body, rest))
  {
    hide W8, W16, W32, W64, WStr, WData, WQid, WStatfs, WStat, WSetAttr, WFlock, WGetlock,
      R8, R16, R32, R64, RStr, RData, RQid, RStatfs, RStat, RSetAttr, RFlock, RGetlock, RFlags,
      WReserved, RReserved, WEntries, REntries, WVec, RVec, Short, ValidUtf8;
    NumberLaws();
    StringLaws();
    QidLaws();
  }

  lemma RoundTripWalk(body: Fcall, rest: seq<u8>)
    requires 104 <= Code(body) <= 111 && Encodable(body)
    ensures ReadWalk(Code(body), WriteWalk(body, rest)) == Ok((body, rest))
  {
    hide W8, W16, W32, W64, WStr, WData, WQid, WStatfs, WStat, WSetAttr, WFlock, WGetlock,
      R8, R16, R32, R64, RStr, RData, RQid, RStatfs, RStat, RSetAttr, RFlock, RGetlock, RFlags,
      WReserved, RReserved, WEntries, REntries, WVec, RVec, Short, ValidUtf8;
    NumberLaws();
    StringLaws();
    QidLaws();
    if body.Twalk? { NamesRoundTrip(body.wnames, rest); }
    if body.Rwalk? { VecLaw(WQid, RQid, body.wqids, rest); }
  }

  lemma RoundTripIo(body: Fcall, rest: seq<u8>)
    requires 116 <= Code(body) <= 123 && Encodable(body)
    ensures ReadIo(Code(body), WriteIo(body, rest)) == Ok((body, rest))
  {
    hide W8, W16, W32, W64, WStr, WData, WQid, WStatfs, WStat, WSetAttr, WFlock, WGetlock,
      R8, R16, R32, R64, RStr, RData, RQid, RStatfs, RStat, RSetAttr, RFlock, RGetlock, RFlags,
      WReserved, RReserved, WEntries, REntries, WVec, RVec, Short, ValidUtf8;
    NumberLaws();
    if body.Rread? || body.Twrite? { DataLaw(body.data, rest); }
  }

  lemma NamesRoundTrip(names: seq<Utf8>, rest: seq<u8>)
    requires |names| < 0x1_0000 && forall s :: s in names ==> Short(s)
    ensures RVec(RStr, WVec(WName, names, rest)) == Ok((names, rest))
  {
    forall s, rest | s in names ensures RStr(WName(s, rest)) == Ok((s, rest)) { StrLaw(s, rest); }
    VecLaw(WName, RStr, names, rest);
  }

  lemma BodyRoundTrip(body: Fcall, rest: seq<u8>)
    requires Encodable(body)
    ensures ReadBody(Intended, Code(body), WriteBody(body, rest)) == Ok((body, rest))
  {
    hide Encodable, WriteOpen, WriteNode, WriteAttr, WriteDir, WriteLink, WriteSession, WriteWalk, WriteIo,
         ReadOpen, ReadNode, ReadAttr, ReadDir, ReadLink, ReadSession, ReadWalk, ReadIo;
    var code := Code(body);
    if code <= 15 { RoundTripOpen(body, rest); }
    else if code <= 23 { RoundTripNode(body, rest); }
    else if code <= 33 { RoundTripAttr(body, rest); }
    else if code <= 55 { RoundTripDir(body, rest); }
    else if code <= 77 { RoundTripLink(body, rest); }
    else if code <= 103 { RoundTripSession(body, rest); }
    else if code <= 111 { RoundTripWalk(body, rest); }
    else { RoundTripIo(body, rest); }
  }

  /** Type and tag are read back, whatever the body. */
  lemma HeaderLaw(variant: ReaddirDecoder, m: Msg, rest: seq<u8>)
    ensures Decode(variant, WriteMsg(m, rest))
         == match ReadBody(variant, Code(m.body), WriteBody(m.body, rest))
            case Ok((body, end)) => Ok((Msg(m.tag, body), end))
            case Err(e) => Err(e)
  {
    var body := WriteBody(m.body, rest);
    Pow256Values();
    NumLaw(Code(m.body), 1, W16(m.tag, body));
    NumLaw(m.tag, 2, body);
    hide WNum, RNum, Code, WriteBody, ReadBody;
  }

}
