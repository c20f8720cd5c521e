/** Writing a message undoes reading it, up to the bits that no flag set knows, and what follows a
    message does not change it. */
module CodecBacks {
  import opened Bytes
  import opened Wrappers
  import opened Fcalls
  import opened Flags
  import opened Wire
  import opened WireLaws
  import opened Codec
  import opened CodecLaws

  // ------------------------------------------------------------------- unknown bits

  /** `b` with a number of `width` bytes at `offset` reduced to the bits of `mask`. */
  function Clear(b: seq<u8>, offset: nat, width: nat, mask: nat): seq<u8> {
    if |b| < offset + width then b
    else
      var flags := FromLittleEndian(b[offset..offset + width]);
      b[..offset] + LittleEndian(And(flags, mask), width) + b[offset + width..]
  }

  /** The body of a message of type `code` with its unknown flag bits and reserved bytes cleared. */
  function ScrubBody(code: u8, b: seq<u8>): seq<u8> {
    match code
    case 24 => Clear(b, 4, 8, GETATTR_MASK)
    case 25 => Clear(Clear(b, 0, 8, GETATTR_MASK), 8 + QID_SIZE + 100, 32, 0)
    case 26 => Clear(b, 4, 4, SETATTR_MASK)
    case 52 => Clear(Clear(b, 4, 1, LOCK_MASK), 5, 4, LOCK_MASK)
    case 53 => Clear(b, 0, 1, LOCK_MASK)
    case 54 => Clear(b, 4, 1, LOCK_MASK)
    case 55 => Clear(b, 0, 1, LOCK_MASK)
    case _ => b
  }

  /** A message with its unknown flag bits and reserved bytes cleared. */
  function Scrub(b: seq<u8>): seq<u8> {
    if |b| < 3 then b else b[..3] + ScrubBody(b[0], b[3..])
  }

  lemma ClearAfter(front: seq<u8>, b: seq<u8>, offset: nat, width: nat, mask: nat)
    ensures Clear(front + b, |front| + offset, width, mask) == front + Clear(b, offset, width, mask)
  {
    hide And, LittleEndian, FromLittleEndian;
    if |b| >= offset + width {
      var (at, end) := (|front| + offset, |front| + offset + width);
      var known := LittleEndian(And(FromLittleEndian(b[offset..offset + width]), mask), width);
      assert (front + b)[at..end] == b[offset..offset + width];
      assert (front + b)[..at] == front + b[..offset];
      assert (front + b)[end..] == b[offset + width..];
      assert front + b[..offset] + known + b[offset + width..] == front + (b[..offset] + known + b[offset + width..]);
    }
  }

  lemma FlagsBack(b: seq<u8>, width: nat, bound: nat, mask: nat)
    requires Keeps(bound, mask) && RFlags(b, width, bound).Ok?
    ensures WNum(RFlags(b, width, bound).value.0, width, RFlags(b, width, bound).value.1) == Clear(b, 0, width, mask)
  {
    assert b[0..width] == b[..width];
    assert Truncate(FromLittleEndian(b[..width]), bound) == And(FromLittleEndian(b[..width]), mask);
    hide And, Truncate, LittleEndian, FromLittleEndian;
  }

  /** A flag set behind a number. */
  lemma ClearBehindNum(n: nat, k: nat, b: seq<u8>, offset: nat, width: nat, mask: nat)
    ensures Clear(WNum(n, k, b), k + offset, width, mask) == WNum(n, k, Clear(b, offset, width, mask))
  {
    hide Clear;
    ClearAfter(LittleEndian(n, k), b, offset, width, mask);
  }

  lemma FrontOpen(body: Fcall, a: seq<u8>, c: seq<u8>)
    ensures WriteOpen(body, a) + c == WriteOpen(body, a + c)
  {
    hide W8, W16, W32, W64, WStr, WData, WQid, WStatfs, WStat, WSetAttr, WFlock, WGetlock, WEntries, WVec;
    PrimitiveFronts();
    StructureFronts();
  }

  lemma FrontNode(body: Fcall, a: seq<u8>, c: seq<u8>)
    ensures WriteNode(body, a) + c == WriteNode(body, a + c)
  {
    hide W8, W16, W32, W64, WStr, WData, WQid, WStatfs, WStat, WSetAttr, WFlock, WGetlock, WEntries, WVec;
    PrimitiveFronts();
    StructureFronts();
  }

  lemma FrontAttr(body: Fcall, a: seq<u8>, c: seq<u8>)
    ensures WriteAttr(body, a) + c == WriteAttr(body, a + c)
  {
    hide W8, W16, W32, W64, WStr, WData, WQid, WStatfs, WStat, WSetAttr, WFlock, WGetlock, WEntries, WVec;
    PrimitiveFronts();
    StructureFronts();
  }

  lemma FrontDir(body: Fcall, a: seq<u8>, c: seq<u8>)
    ensures WriteDir(body, a) + c == WriteDir(body, a + c)
  {
    hide W8, W16, W32, W64, WStr, WData, WQid, WStatfs, WStat, WSetAttr, WFlock, WGetlock, WEntries, WVec;
    PrimitiveFronts();
    StructureFronts();
    if body.Rreaddir? { EntriesFront(body.entries, a, c); }
  }

  lemma FrontLink(body: Fcall, a: seq<u8>, c: seq<u8>)
    ensures WriteLink(body, a) + c == WriteLink(body, a + c)
  {
    hide W8, W16, W32, W64, WStr, WData, WQid, WStatfs, WStat, WSetAttr, WFlock, WGetlock, WEntries, WVec;
    PrimitiveFronts();
    StructureFronts();
  }

  lemma FrontSession(body: Fcall, a: seq<u8>, c: seq<u8>)
    ensures WriteSession(body, a) + c == WriteSession(body, a + c)
  {
    hide W8, W16, W32, W64, WStr, WData, WQid, WStatfs, WStat, WSetAttr, WFlock, WGetlock, WEntries, WVec;
    PrimitiveFronts();
    StructureFronts();
  }

  lemma FrontWalk(body: Fcall, a: seq<u8>, c: seq<u8>)
    ensures WriteWalk(body, a) + c == WriteWalk(body, a + c)
  {
    hide W8, W16, W32, W64, WStr, WData, WQid, WStatfs, WStat, WSetAttr, WFlock, WGetlock, WEntries, WVec;
    PrimitiveFronts();
    StructureFronts();
    if body.Twalk? { NamesFront(body.wnames, a, c); }
    if body.Rwalk? { QidsFront(body.wqids, a, c); }
  }

  lemma FrontIo(body: Fcall, a: seq<u8>, c: seq<u8>)
    ensures WriteIo(body, a) + c == WriteIo(body, a + c)
  {
    hide W8, W16, W32, W64, WStr, WData, WQid, WStatfs, WStat, WSetAttr, WFlock, WGetlock, WEntries, WVec;
    PrimitiveFronts();
    StructureFronts();
  }

  lemma EntriesFront(entries: seq<DirEntry>, a: seq<u8>, c: seq<u8>)
    ensures WEntries(entries, a) + c == WEntries(entries, a + c)
  {
    forall e, a, c ensures WEntry(e, a) + c == WEntry(e, a + c) { EntryFront(e, a, c); }
    EachFront(WEntry, entries, a, c);
    NumFront(EntriesSize(entries), 4, WEach(WEntry, entries, a), c);
  }

  lemma NamesFront(names: seq<Utf8>, a: seq<u8>, c: seq<u8>)
    ensures WVec(WName, names, a) + c == WVec(WName, names, a + c)
  {
    forall s, a, c ensures WName(s, a) + c == WName(s, a + c) { PrimitiveFronts(); }
    EachFront(WName, names, a, c);
    NumFront(|names|, 2, WEach(WName, names, a), c);
  }

  lemma QidsFront(qids: seq<Qid>, a: seq<u8>, c: seq<u8>)
    ensures WVec(WQid, qids, a) + c == WVec(WQid, qids, a + c)
  {
    forall q, a, c ensures WQid(q, a) + c == WQid(q, a + c) { QidFront(q, a, c); }
    EachFront(WQid, qids, a, c);
    NumFront(|qids|, 2, WEach(WQid, qids, a), c);
  }

  lemma NumFront(n: nat, width: nat, a: seq<u8>, c: seq<u8>)
    ensures WNum(n, width, a) + c == WNum(n, width, a + c)
  {
    assert LittleEndian(n, width) + a + c == LittleEndian(n, width) + (a + c);
  }

  /** A message followed by anything is its encoding followed by that. */
  lemma MsgFront(m: Msg, rest: seq<u8>)
    ensures Encode(m) + rest == WriteMsg(m, rest)
  {
    var (body, code) := (m.body, Code(m.body));
    if code <= 15 { FrontOpen(body, [], rest); }
    else if code <= 23 { FrontNode(body, [], rest); }
    else if code <= 33 { FrontAttr(body, [], rest); }
    else if code <= 55 { FrontDir(body, [], rest); }
    else if code <= 77 { FrontLink(body, [], rest); }
    else if code <= 103 { FrontSession(body, [], rest); }
    else if code <= 111 { FrontWalk(body, [], rest); }
    else { FrontIo(body, [], rest); }
    assert [] + rest == rest;
    assert WriteBody(body, []) + rest == WriteBody(body, rest);
    NumFront(m.tag, 2, WriteBody(body, []), rest);
    NumFront(code, 1, W16(m.tag, WriteBody(body, [])), rest);
    hide Code, WriteBody, WNum, WriteOpen, WriteNode, WriteAttr, WriteDir, WriteLink, WriteSession, WriteWalk, WriteIo;
  }

  // ------------------------------------------------------------------- families

  lemma BackOpen(code: u8, b: seq<u8>)
    requires ReadOpen(code, b).Ok?
    ensures WriteOpen(ReadOpen(code, b).value.0, ReadOpen(code, b).value.1) == b
  {
    hide W8, W16, W32, W64, WStr, WData, WQid, WStatfs, WStat, WSetAttr, WFlock, WGetlock,
      R8, R16, R32, R64, RStr, RData, RQid, RStatfs, RStat, RSetAttr, RFlock, RGetlock, RFlags,
      WEntries, REntries, WVec, RVec, Short, Code, Encodable, ValidUtf8;
    NumberBacks();
    StringBacks();
    QidBacks();
    if code == 9 { StatfsBack(b); }
  }

  lemma KindOpen(code: u8, b: seq<u8>)
    requires ReadOpen(code, b).Ok?
    ensures Code(ReadOpen(code, b).value.0) == code
  {
    hide R8, R16, R32, R64, RStr, RData, RQid, RStatfs, RStat, RSetAttr, RFlock, RGetlock, RFlags,
      REntries, RVec, WEach, WEntry, Short, ValidUtf8;
  }

  lemma FitsOpen(code: u8, b: seq<u8>)
    requires ReadOpen(code, b).Ok?
    ensures Encodable(ReadOpen(code, b).value.0)
  {
    hide R8, R16, R32, R64, RStr, RData, RQid, RStatfs, RStat, RSetAttr, RFlock, RGetlock, RFlags,
      REntries, RVec, WEach, WEntry, Short, ValidUtf8;
  }

  lemma BackNode(code: u8, b: seq<u8>)
    requires ReadNode(code, b).Ok?
    ensures WriteNode(ReadNode(code, b).value.0, ReadNode(code, b).value.1) == b
  {
    hide W8, W16, W32, W64, WStr, WData, WQid, WStatfs, WStat, WSetAttr, WFlock, WGetlock,
      R8, R16, R32, R64, RStr, RData, RQid, RStatfs, RStat, RSetAttr, RFlock, RGetlock, RFlags,
      WEntries, REntries, WVec, RVec, Short, Code, Encodable, ValidUtf8;
    NumberBacks();
    StringBacks();
    QidBacks();
  }

  lemma KindNode(code: u8, b: seq<u8>)
    requires ReadNode(code, b).Ok?
    ensures Code(ReadNode(code, b).value.0) == code
  {
    hide R8, R16, R32, R64, RStr, RData, RQid, RStatfs, RStat, RSetAttr, RFlock, RGetlock, RFlags,
      REntries, RVec, WEach, WEntry, Short, ValidUtf8;
  }

  lemma FitsNode(code: u8, b: seq<u8>)
    requires ReadNode(code, b).Ok?
    ensures Encodable(ReadNode(code, b).value.0)
  {
    hide R8, R16, R32, R64, RStr, RData, RQid, RStatfs, RStat, RSetAttr, RFlock, RGetlock, RFlags,
      REntries, RVec, WEach, WEntry, Short, ValidUtf8;
  }

  lemma BackAttr(code: u8, b: seq<u8>)
    requires ReadAttr(code, b).Ok? && code != 24 && code != 25 && code != 26
    ensures WriteAttr(ReadAttr(code, b).value.0, ReadAttr(code, b).value.1) == b
  {
    hide W8, W16, W32, W64, WStr, WData, WQid, WStatfs, WStat, WSetAttr, WFlock, WGetlock,
      R8, R16, R32, R64, RStr, RData, RQid, RStatfs, RStat, RSetAttr, RFlock, RGetlock, RFlags,
      WEntries, REntries, WVec, RVec, Short, Code, Encodable, ValidUtf8;
    NumberBacks();
    StringBacks();
  }

  lemma KindAttr(code: u8, b: seq<u8>)
    requires ReadAttr(code, b).Ok? && code != 24 && code != 25 && code != 26
    ensures Code(ReadAttr(code, b).value.0) == code
  {
    hide R8, R16, R32, R64, RStr, RData, RQid, RStatfs, RStat, RSetAttr, RFlock, RGetlock, RFlags,
      REntries, RVec, WEach, WEntry, Short, ValidUtf8;
  }

  lemma FitsAttr(code: u8, b: seq<u8>)
    requires ReadAttr(code, b).Ok? && code != 24 && code != 25 && code != 26
    ensures Encodable(ReadAttr(code, b).value.0)
  {
    hide R8, R16, R32, R64, RStr, RData, RQid, RStatfs, RStat, RSetAttr, RFlock, RGetlock, RFlags,
      REntries, RVec, WEach, WEntry, Short, ValidUtf8;
  }

  lemma BackDir(code: u8, b: seq<u8>)
    requires ReadDir(Intended, code, b).Ok? && code < 52
    ensures WriteDir(ReadDir(Intended, code, b).value.0, ReadDir(Intended, code, b).value.1) == b
  {
    hide W8, W16, W32, W64, WStr, WData, WQid, WStatfs, WStat, WSetAttr, WFlock, WGetlock,
      R8, R16, R32, R64, RStr, RData, RQid, RStatfs, RStat, RSetAttr, RFlock, RGetlock, RFlags,
      WEntries, REntries, WVec, RVec, Short, Code, Encodable, ValidUtf8;
    NumberBacks();
    if code == 41 { ListingBack(b); }
  }

  lemma KindDir(code: u8, b: seq<u8>)
    requires ReadDir(Intended, code, b).Ok? && code < 52
    ensures Code(ReadDir(Intended, code, b).value.0) == code
  {
    hide R8, R16, R32, R64, RStr, RData, RQid, RStatfs, RStat, RSetAttr, RFlock, RGetlock, RFlags,
      REntries, RVec, WEach, WEntry, Short, ValidUtf8;
  }

  lemma FitsDir(code: u8, b: seq<u8>)
    requires ReadDir(Intended, code, b).Ok? && code < 52
    ensures Encodable(ReadDir(Intended, code, b).value.0)
  {
    hide R8, R16, R32, R64, RStr, RData, RQid, RStatfs, RStat, RSetAttr, RFlock, RGetlock, RFlags,
      REntries, RVec, WEach, WEntry, Short, ValidUtf8;
    if code == 41 { ListingBack(b); }
  }

  lemma BackLink(code: u8, b: seq<u8>)
    requires ReadLink(code, b).Ok?
    ensures WriteLink(ReadLink(code, b).value.0, ReadLink(code, b).value.1) == b
  {
    hide W8, W16, W32, W64, WStr, WData, WQid, WStatfs, WStat, WSetAttr, WFlock, WGetlock,
      R8, R16, R32, R64, RStr, RData, RQid, RStatfs, RStat, RSetAttr, RFlock, RGetlock, RFlags,
      WEntries, REntries, WVec, RVec, Short, Code, Encodable, ValidUtf8;
    NumberBacks();
    StringBacks();
    QidBacks();
  }

  lemma KindLink(code: u8, b: seq<u8>)
    requires ReadLink(code, b).Ok?
    ensures Code(ReadLink(code, b).value.0) == code
  {
    hide R8, R16, R32, R64, RStr, RData, RQid, RStatfs, RStat, RSetAttr, RFlock, RGetlock, RFlags,
      REntries, RVec, WEach, WEntry, Short, ValidUtf8;
  }

  lemma FitsLink(code: u8, b: seq<u8>)
    requires ReadLink(code, b).Ok?
    ensures Encodable(ReadLink(code, b).value.0)
  {
    hide R8, R16, R32, R64, RStr, RData, RQid, RStatfs, RStat, RSetAttr, RFlock, RGetlock, RFlags,
      REntries, RVec, WEach, WEntry, Short, ValidUtf8;
  }

  lemma BackSession(code: u8, b: seq<u8>)
    requires ReadSession(code, b).Ok?
    ensures WriteSession(ReadSession(code, b).value.0, ReadSession(code, b).value.1) == b
  {
    hide W8, W16, W32, W64, WStr, WData, WQid, WStatfs, WStat, WSetAttr, WFlock, WGetlock,
      R8, R16, R32, R64, RStr, RData, RQid, RStatfs, RStat, RSetAttr, RFlock, RGetlock, RFlags,
      WEntries, REntries, WVec, RVec, Short, Code, Encodable, ValidUtf8;
    NumberBacks();
    StringBacks();
    QidBacks();
  }

  lemma KindSession(code: u8, b: seq<u8>)
    requires ReadSession(code, b).Ok?
    ensures Code(ReadSession(code, b).value.0) == code
  {
    hide R8, R16, R32, R64, RStr, RData, RQid, RStatfs, RStat, RSetAttr, RFlock, RGetlock, RFlags,
      REntries, RVec, WEach, WEntry, Short, ValidUtf8;
  }

  lemma FitsSession(code: u8, b: seq<u8>)
    requires ReadSession(code, b).Ok?
    ensures Encodable(ReadSession(code, b).value.0)
  {
    hide R8, R16, R32, R64, RStr, RData, RQid, RStatfs, RStat, RSetAttr, RFlock, RGetlock, RFlags,
      REntries, RVec, WEach, WEntry, Short, ValidUtf8;
  }

  lemma BackWalk(code: u8, b: seq<u8>)
    requires ReadWalk(code, b).Ok?
    ensures WriteWalk(ReadWalk(code, b).value.0, ReadWalk(code, b).value.1) == b
  {
    hide W8, W16, W32, W64, WStr, WData, WQid, WStatfs, WStat, WSetAttr, WFlock, WGetlock,
      R8, R16, R32, R64, RStr, RData, RQid, RStatfs, RStat, RSetAttr, RFlock, RGetlock, RFlags,
      WEntries, REntries, WVec, RVec, Short, Code, Encodable, ValidUtf8;
    NumberBacks();
    StringBacks();
    QidBacks();
    if code == 110 { NamesBack(R32(R32(b).value.1).value.1); }
    if code == 111 { QidsBack(b); }
  }

  lemma KindWalk(code: u8, b: seq<u8>)
    requires ReadWalk(code, b).Ok?
    ensures Code(ReadWalk(code, b).value.0) == code
  {
    hide R8, R16, R32, R64, RStr, RData, RQid, RStatfs, RStat, RSetAttr, RFlock, RGetlock, RFlags,
      REntries, RVec, WEach, WEntry, Short, ValidUtf8;
  }

  lemma FitsWalk(code: u8, b: seq<u8>)
    requires ReadWalk(code, b).Ok?
    ensures Encodable(ReadWalk(code, b).value.0)
  {
    hide R8, R16, R32, R64, RStr, RData, RQid, RStatfs, RStat, RSetAttr, RFlock, RGetlock, RFlags,
      REntries, RVec, WEach, WEntry, Short, ValidUtf8;
    if code == 110 { NamesBack(R32(R32(b).value.1).value.1); }
  }

  lemma BackIo(code: u8, b: seq<u8>)
    requires ReadIo(code, b).Ok?
    ensures WriteIo(ReadIo(code, b).value.0, ReadIo(code, b).value.1) == b
  {
    hide W8, W16, W32, W64, WStr, WData, WQid, WStatfs, WStat, WSetAttr, WFlock, WGetlock,
      R8, R16, R32, R64, RStr, RData, RQid, RStatfs, RStat, RSetAttr, RFlock, RGetlock, RFlags,
      WEntries, REntries, WVec, RVec, Short, Code, Encodable, ValidUtf8;
    NumberBacks();
    if code == 117 { DataBack(b); }
    if code == 118 { DataBack(R64(R32(b).value.1).value.1); }
  }

  lemma KindIo(code: u8, b: seq<u8>)
    requires ReadIo(code, b).Ok? && code < 120
    ensures Code(ReadIo(code, b).value.0) == code
  {
    hide R8, R16, R32, R64, RStr, RData, RQid, RStatfs, RStat, RSetAttr, RFlock, RGetlock, RFlags,
      REntries, RVec, WEach, WEntry, Short, ValidUtf8;
  }

  lemma KindClunk(code: u8, b: seq<u8>)
    requires ReadIo(code, b).Ok? && code >= 120
    ensures Code(ReadIo(code, b).value.0) == code
  {
    hide R8, R16, R32, R64, RStr, RData, RQid, RStatfs, RStat, RSetAttr, RFlock, RGetlock, RFlags,
      REntries, RVec, WEach, WEntry, Short, ValidUtf8;
  }

  lemma FitsIo(code: u8, b: seq<u8>)
    requires ReadIo(code, b).Ok?
    ensures Encodable(ReadIo(code, b).value.0)
  {
    hide R8, R16, R32, R64, RStr, RData, RQid, RStatfs, RStat, RSetAttr, RFlock, RGetlock, RFlags,
      REntries, RVec, WEach, WEntry, Short, ValidUtf8;
  }

  lemma ListingBack(b: seq<u8>)
    requires REntries(Intended, b).Ok?
    ensures WEntries(REntries(Intended, b).value.0, REntries(Intended, b).value.1) == b
    ensures forall e :: e in REntries(Intended, b).value.0 ==> Short(e.name)
    ensures |WEach(WEntry, REntries(Intended, b).value.0, [])| < 0x1_0000_0000
  {
    hide REntry, WEntry, Short, EntriesSize;
    var (size, tail) := R32(b).value;
    var (payload, rest) := Take(tail, size).value;
    var entries := RAllEntries(payload).value;
    AllEntriesBack(payload);
    PayloadFront(entries, rest);
    assert WEach(WEntry, entries, rest) == tail;
    assert EntriesSize(entries) == size by { SizesAgree(entries); }
    NumBack(b, 4);
    hide WEach, WNum, RAllEntries;
  }

  lemma NamesBack(b: seq<u8>)
    requires RVec(RStr, b).Ok?
    ensures WVec(WName, RVec(RStr, b).value.0, RVec(RStr, b).value.1) == b
    ensures forall s :: s in RVec(RStr, b).value.0 ==> Short(s)
  {
    forall b | RStr(b).Ok? ensures WName(RStr(b).value.0, RStr(b).value.1) == b { StrBack(b); }
    VecBack(WName, RStr, b);
    EachHolds(RStr, s => Short(s), R16(b).value.0, R16(b).value.1);
  }

  lemma QidsBack(b: seq<u8>)
    requires RVec(RQid, b).Ok?
    ensures WVec(WQid, RVec(RQid, b).value.0, RVec(RQid, b).value.1) == b
  {
    forall b | RQid(b).Ok? ensures WQid(RQid(b).value.0, RQid(b).value.1) == b { QidBack(b); }
    VecBack(WQid, RQid, b);
  }

  // ------------------------------------------------------------------- messages with flag sets

  /** A fid and then a flag set. */
  lemma FlagsBehindFid(b: seq<u8>, width: nat, bound: nat, mask: nat)
    requires Keeps(bound, mask) && R32(b).Ok? && RFlags(R32(b).value.1, width, bound).Ok?
    ensures W32(R32(b).value.0, WNum(RFlags(R32(b).value.1, width, bound).value.0, width,
                                     RFlags(R32(b).value.1, width, bound).value.1))
         == Clear(b, 4, width, mask)
  {
    var (fid, tail) := R32(b).value;
    FlagsBack(tail, width, bound, mask);
    NumBack(b, 4);
    ClearBehindNum(fid, 4, tail, 0, width, mask);
    hide Clear, WNum, RFlags;
  }

  lemma FlockBack(b: seq<u8>)
    requires RFlock(b).Ok?
    ensures WFlock(RFlock(b).value.0, RFlock(b).value.1)
         == Clear(Clear(b, 0, 1, LOCK_MASK), 1, 4, LOCK_MASK)
  {
    NamedBitsAreKept();
    var (typ, b1) := RFlags(b, 1, LOCK_TYPE_BOUND).value;
    var (flags, b2) := RFlags(b1, 4, LOCK_FLAG_BOUND).value;
    FlagsBack(b, 1, LOCK_TYPE_BOUND, LOCK_MASK);
    FlagsBack(b1, 4, LOCK_FLAG_BOUND, LOCK_MASK);
    ClearBehindNum(typ, 1, b1, 0, 4, LOCK_MASK);
    assert WFlock(RFlock(b).value.0, RFlock(b).value.1) == W8(typ, W32(flags, b2)) by {
      hide RNum, WNum, R8, R16, R32, R64, RStr, RData, W8, W16, W32, W64, WStr, WData, RFlags;
      NumberBacks();
      StringBacks();
    }
    hide Clear, WNum, RFlags, WFlock, RFlock;
  }

  lemma GetlockBack(b: seq<u8>)
    requires RGetlock(b).Ok?
    ensures WGetlock(RGetlock(b).value.0, RGetlock(b).value.1) == Clear(b, 0, 1, LOCK_MASK)
  {
    NamedBitsAreKept();
    var (typ, b1) := RFlags(b, 1, LOCK_TYPE_BOUND).value;
    FlagsBack(b, 1, LOCK_TYPE_BOUND, LOCK_MASK);
    assert WGetlock(RGetlock(b).value.0, RGetlock(b).value.1) == W8(typ, b1) by {
      hide RNum, WNum, R8, R16, R32, R64, RStr, RData, W8, W16, W32, W64, WStr, WData, RFlags;
      NumberBacks();
      StringBacks();
    }
    hide Clear, WNum, RFlags, WGetlock, RGetlock;
  }

  /** The type code, size and content of what was read, for any message type. */
  ghost predicate ReadsBack(code: u8, b: seq<u8>) {
    var r := ReadBody(Intended, code, b);
    r.Ok? ==> Code(r.value.0) == code && Encodable(r.value.0) && WriteBody(r.value.0, r.value.1) == ScrubBody(code, b)
  }

  lemma BackGetattr(b: seq<u8>)
    ensures ReadsBack(24, b)
  {
    NamedBitsAreKept();
    hide R32, RFlags, WNum, Clear, Keeps, Truncate;
    if ReadAttr(24, b).Ok? {
      FlagsBehindFid(b, 8, GETATTR_BOUND, GETATTR_MASK);
    }
  }

  lemma BackSetattr(b: seq<u8>)
    ensures ReadsBack(26, b)
  {
    NamedBitsAreKept();
    hide R32, RFlags, RSetAttr, WSetAttr, WNum, Clear;
    if ReadAttr(26, b).Ok? {
      FlagsBehindFid(b, 4, SETATTR_BOUND, SETATTR_MASK);
      SetAttrBack(RFlags(R32(b).value.1, 4, SETATTR_BOUND).value.1);
    }
  }

  /** The reserved bytes are read, dropped and written back as zeros. */
  lemma ReservedBack(b: seq<u8>)
    requires RReserved(b).Ok?
    ensures WReserved(RReserved(b).value.1) == Clear(b, 0, 32, 0)
  {
    var rest := RReserved(b).value.1;
    assert rest == b[32..];
    Zeros(8);
    Zeros(32);
    assert WReserved(rest) == LittleEndian(0, 32) + rest;
    assert b[..0] + LittleEndian(0, 32) + b[32..] == LittleEndian(0, 32) + rest;
    hide LittleEndian, WReserved, RReserved;
  }

  lemma {:induction false} Zeros(width: nat)
    ensures LittleEndian(0, width) == seq(width, _ => 0)
  {
    if width != 0 {
      Zeros(width - 1);
    }
  }

  /** Qid and attributes in front of something. */
  lemma QidStatFront(q: Qid, s: Stat, rest: seq<u8>)
    ensures WQid(q, WStat(s, rest)) == WQid(q, WStat(s, [])) + rest
    ensures |WQid(q, WStat(s, []))| == QID_SIZE + 100
  {
    StatFront(s, [], rest);
    assert [] + rest == rest;
    QidFront(q, WStat(s, []), rest);
    assert |WStat(s, [])| == 100;
    hide WStat;
  }

  lemma BackRgetattr(b: seq<u8>)
    ensures ReadsBack(25, b)
  {
    NamedBitsAreKept();
    hide RQid, RStat, RReserved, RFlags, WQid, WStat, WReserved, WNum, Clear;
    if ReadAttr(25, b).Ok? {
      var (valid, b1) := RFlags(b, 8, GETATTR_BOUND).value;
      var (qid, b2) := RQid(b1).value;
      var (stat, b3) := RStat(b2).value;
      var rest := RReserved(b3).value.1;
      var front := WQid(qid, WStat(stat, []));
      QidBack(b1);
      StatBack(b2);
      QidStatFront(qid, stat, b3);
      FlagsBack(b, 8, GETATTR_BOUND, GETATTR_MASK);
      ClearBehindNum(valid, 8, b1, QID_SIZE + 100, 32, 0);
      ClearAfter(front, b3, 0, 32, 0);
      ReservedBack(b3);
      QidStatFront(qid, stat, WReserved(rest));
    }
  }

  lemma BackTlock(b: seq<u8>)
    ensures ReadsBack(52, b)
  {
    hide RNum, RFlock, WFlock, WNum, Clear;
    if ReadDir(Intended, 52, b).Ok? {
      var (fid, b1) := R32(b).value;
      NumBack(b, 4);
      FlockBack(b1);
      ClearBehindNum(fid, 4, b1, 0, 1, LOCK_MASK);
      ClearBehindNum(fid, 4, Clear(b1, 0, 1, LOCK_MASK), 1, 4, LOCK_MASK);
    }
  }

  lemma BackTgetlock(b: seq<u8>)
    ensures ReadsBack(54, b)
  {
    hide RNum, RGetlock, WGetlock, WNum, Clear;
    if ReadDir(Intended, 54, b).Ok? {
      var (fid, b1) := R32(b).value;
      NumBack(b, 4);
      GetlockBack(b1);
      ClearBehindNum(fid, 4, b1, 0, 1, LOCK_MASK);
    }
  }

  lemma BackLockReplies(b: seq<u8>)
    ensures ReadsBack(53, b) && ReadsBack(55, b)
  {
    NamedBitsAreKept();
    hide RFlags, RGetlock, WGetlock, WNum, Clear, Keeps, Truncate;
    if RFlags(b, 1, LOCK_STATUS_BOUND).Ok? { FlagsBack(b, 1, LOCK_STATUS_BOUND, LOCK_MASK); }
    if RGetlock(b).Ok? { GetlockBack(b); }
  }

  lemma BodyReadsBack(code: u8, b: seq<u8>)
    ensures ReadsBack(code, b)
  {
    hide Encodable, Code, WriteOpen, WriteNode, WriteAttr, WriteDir, WriteLink, WriteSession, WriteWalk, WriteIo,
      ReadOpen, ReadNode, ReadAttr, ReadDir, ReadLink, ReadSession, ReadWalk, ReadIo;
    if ReadBody(Intended, code, b).Ok? {
      if code <= 15 { BackOpen(code, b); KindOpen(code, b); FitsOpen(code, b); }
      else if code <= 23 { BackNode(code, b); KindNode(code, b); FitsNode(code, b); }
      else if code == 24 { BackGetattr(b); }
      else if code == 25 { BackRgetattr(b); }
      else if code == 26 { BackSetattr(b); }
      else if code <= 33 { BackAttr(code, b); KindAttr(code, b); FitsAttr(code, b); }
      else if code == 52 { BackTlock(b); }
      else if code == 54 { BackTgetlock(b); }
      else if code == 53 || code == 55 { BackLockReplies(b); }
      else if code <= 55 { BackDir(code, b); KindDir(code, b); FitsDir(code, b); }
      else if code <= 77 { BackLink(code, b); KindLink(code, b); FitsLink(code, b); }
      else if code <= 103 { BackSession(code, b); KindSession(code, b); FitsSession(code, b); }
      else if code <= 111 { BackWalk(code, b); KindWalk(code, b); FitsWalk(code, b); }
      else {
        BackIo(code, b);
        FitsIo(code, b);
        if code < 120 { KindIo(code, b); } else { KindClunk(code, b); }
      }
    }
  }

}
