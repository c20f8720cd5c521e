/** Encoding as the program does it: every value is written to a stream and gives back its own count of
    bytes, and an encoder adds the counts up along a chain of `<<`. */
module CodecChains {
  import opened Bytes
  import opened Wrappers
  import opened Fcalls
  import opened Wire
  import opened WireLaws
  import opened Codec
  import opened CodecLaws

  /** A value that can be encoded. A structure, a vector or a listing is a chain of its own. */
  datatype Value = Num(n: nat, width: nat) | Text(s: seq<u8>) | Blob(d: seq<u8>) | Struct(chain: Chain)

  /** `Encoder::new(w) << v1 << v2 ...` */
  datatype Chain = New | Shl(chain: Chain, value: Value) {
    function U8(n: nat): Chain { Shl(this, Num(n, 1)) }
    function U16(n: nat): Chain { Shl(this, Num(n, 2)) }
    function U32(n: nat): Chain { Shl(this, Num(n, 4)) }
    function U64(n: nat): Chain { Shl(this, Num(n, 8)) }
    function Str(s: seq<u8>): Chain { Shl(this, Text(s)) }
    function Data(d: seq<u8>): Chain { Shl(this, Blob(d)) }
    function Sub(chain: Chain): Chain { Shl(this, Struct(chain)) }
  }

  // ------------------------------------------------------------------- counts and bytes

  /** What encoding a value returns: the size of a number, two more than the length of a string, four
      more than the length of data, the bytes written by the chain of a structure. */
  function Count(v: Value): nat {
    match v
    case Num(_, width) => width
    case Text(s) => 2 + |s|
    case Blob(d) => 4 + |d|
    case Struct(chain) => Total(chain)
  }

  /** `bytes_written` at the end of a chain. */
  function Total(chain: Chain): nat {
    match chain
    case New => 0
    case Shl(before, v) => Total(before) + Count(v)
  }

  function Put(v: Value, rest: seq<u8>): seq<u8> {
    match v
    case Num(n, width) => WNum(n, width, rest)
    case Text(s) => WStr(s, rest)
    case Blob(d) => WData(d, rest)
    case Struct(chain) => PutAll(chain, rest)
  }

  function PutAll(chain: Chain, rest: seq<u8>): seq<u8> {
    match chain
    case New => rest
    case Shl(before, v) => PutAll(before, Put(v, rest))
  }

  lemma {:induction false} CountAgrees(v: Value, rest: seq<u8>)
    ensures |Put(v, rest)| == Count(v) + |rest|
  {
    match v
    case Struct(chain) => TotalAgrees(chain, rest);
    case _ =>
  }

  /** The counts add up to the number of bytes written. */
  lemma {:induction false} TotalAgrees(chain: Chain, rest: seq<u8>)
    ensures |PutAll(chain, rest)| == Total(chain) + |rest|
  {
    match chain
    case New =>
    case Shl(before, v) =>
      TotalAgrees(before, Put(v, rest));
      CountAgrees(v, rest);
  }

  lemma {:induction false} PutFront(v: Value, a: seq<u8>, c: seq<u8>)
    ensures Put(v, a) + c == Put(v, a + c)
  {
    match v
    case Struct(chain) => PutAllFront(chain, a, c);
    case Text(s) => assert s + a + c == s + (a + c);
    case Blob(d) => assert d + a + c == d + (a + c);
    case _ =>
  }

  lemma {:induction false} PutAllFront(chain: Chain, a: seq<u8>, c: seq<u8>)
    ensures PutAll(chain, a) + c == PutAll(chain, a + c)
  {
    match chain
    case New =>
    case Shl(before, v) =>
      PutFront(v, a, c);
      PutAllFront(before, Put(v, a), c);
  }

  // ------------------------------------------------------------------- the encoder

  /** The stream that is written to. */
  class Writer {
    var out: seq<u8>

    constructor (out: seq<u8>)
      ensures this.out == out
    {
      this.out := out;
    }
  }

  class Encoder {
    const writer: Writer
    var bytes: nat

    constructor (writer: Writer)
      ensures this.writer == writer && bytes == 0
    {
      this.writer := writer;
      bytes := 0;
    }

    /** The value's own count is added. */
    method Encode(v: Value) returns (n: nat)
      modifies this, writer
      ensures writer.out == old(writer.out) + Put(v, []) && n == Count(v) && bytes == old(bytes) + n
      decreases v, 1
    {
      n := EncodeTo(v, writer);
      bytes := bytes + n;
    }
  }

  method WriteNum(n: nat, width: nat, w: Writer) returns (bytes: nat)
    modifies w
    ensures w.out == old(w.out) + WNum(n, width, []) && bytes == width
  {
    w.out := w.out + LittleEndian(n, width);
    return width;
  }

  /** One value to a stream; the count that is returned. */
  method EncodeTo(v: Value, w: Writer) returns (bytes: nat)
    modifies w
    ensures w.out == old(w.out) + Put(v, []) && bytes == Count(v)
    decreases v, 0
  {
    match v {
      case Num(n, width) =>
        bytes := WriteNum(n, width, w);
      case Text(s) =>
        bytes := WriteNum(|s|, 2, w);
        w.out := w.out + s;
        bytes := bytes + |s|;
      case Blob(d) =>
        bytes := WriteNum(|d|, 4, w);
        bytes := bytes + |d|;
        w.out := w.out + d;
      case Struct(chain) =>
        var enc := Run(chain, w);
        bytes := enc.bytes;
    }
  }

  lemma NothingRun()
    ensures PutAll(New, []) == []
  {
  }

  lemma RunMore(before: Chain, v: Value)
    ensures PutAll(Shl(before, v), []) == PutAll(before, []) + Put(v, [])
  {
    PutAllFront(before, [], Put(v, []));
    assert [] + Put(v, []) == Put(v, []);
    hide Put;
  }

  /** A chain, from its new encoder on. */
  method Run(chain: Chain, w: Writer) returns (enc: Encoder)
    modifies w
    ensures fresh(enc) && enc.writer == w
    ensures w.out == old(w.out) + PutAll(chain, []) && enc.bytes == Total(chain)
    decreases chain, 0
  {
    hide Put, PutAll, Count;
    NothingRun();
    match chain {
      case New =>
        enc := new Encoder(w);
      case Shl(before, v) =>
        enc := Run(before, w);
        var _ := enc.Encode(v);
        RunMore(before, v);
    }
  }

  // ------------------------------------------------------------------- structures and lists

  function QidChain(q: Qid): Chain { New.U8(q.typ).U32(q.version).U64(q.path) }

  function StatfsChain(s: Statfs): Chain {
    New.U32(s.typ).U32(s.bsize).U64(s.blocks).U64(s.bfree).U64(s.bavail)
       .U64(s.files).U64(s.ffree).U64(s.fsid).U32(s.namelen)
  }

  function TimeChain(t: Time): Chain { New.U64(t.sec).U64(t.nsec) }

  function StatChain(s: Stat): Chain {
    New.U32(s.mode).U32(s.uid).U32(s.gid).U64(s.nlink).U64(s.rdev).U64(s.size).U64(s.blksize).U64(s.blocks)
       .Sub(TimeChain(s.atime)).Sub(TimeChain(s.mtime)).Sub(TimeChain(s.ctime))
  }

  function SetAttrChain(s: SetAttr): Chain {
    New.U32(s.mode).U32(s.uid).U32(s.gid).U64(s.size).Sub(TimeChain(s.atime)).Sub(TimeChain(s.mtime))
  }

  function FlockChain(f: Flock): Chain {
    New.U8(f.typ).U32(f.flags).U64(f.start).U64(f.length).U32(f.procId).Str(f.clientId)
  }

  function GetlockChain(f: Getlock): Chain {
    New.U8(f.typ).U64(f.start).U64(f.length).U32(f.procId).Str(f.clientId)
  }

  function EntryChain(e: DirEntry): Chain { New.Sub(QidChain(e.qid)).U64(e.offset).U8(e.typ).Str(e.name) }

  /** The fold of `<<` over a list. */
  function Fold<T>(chain: Chain, xs: seq<T>, value: T -> Value): Chain {
    if xs == [] then chain else Shl(Fold(chain, xs[..|xs| - 1], value), value(xs[|xs| - 1]))
  }

  function NameValue(s: Utf8): Value { Text(s) }
  function QidValue(q: Qid): Value { Struct(QidChain(q)) }
  function EntryValue(e: DirEntry): Value { Struct(EntryChain(e)) }

  function NamesChain(names: seq<Utf8>): Chain { Fold(New.U16(|names|), names, NameValue) }
  function QidsChain(qids: seq<Qid>): Chain { Fold(New.U16(|qids|), qids, QidValue) }
  function EntriesChain(entries: seq<DirEntry>): Chain { Fold(New.U32(EntriesSize(entries)), entries, EntryValue) }

  lemma ChainLaws()
    ensures forall rest {:trigger PutAll(New, rest)} :: PutAll(New, rest) == rest
    ensures forall chain, v, rest {:trigger PutAll(Shl(chain, v), rest)} ::
              PutAll(Shl(chain, v), rest) == PutAll(chain, Put(v, rest))
    ensures forall n, width, rest {:trigger Put(Num(n, width), rest)} ::
              Put(Num(n, width), rest) == WNum(n, width, rest)
    ensures forall s, rest {:trigger Put(Text(s), rest)} :: Put(Text(s), rest) == WStr(s, rest)
    ensures forall d, rest {:trigger Put(Blob(d), rest)} :: Put(Blob(d), rest) == WData(d, rest)
    ensures forall chain, rest {:trigger Put(Struct(chain), rest)} :: Put(Struct(chain), rest) == PutAll(chain, rest)
  {
  }

  lemma StructureChains(rest: seq<u8>)
    ensures forall q {:trigger PutAll(QidChain(q), rest)} :: PutAll(QidChain(q), rest) == WQid(q, rest)
    ensures forall t {:trigger PutAll(TimeChain(t), rest)} :: PutAll(TimeChain(t), rest) == WTime(t, rest)
    ensures forall s {:trigger PutAll(StatfsChain(s), rest)} :: PutAll(StatfsChain(s), rest) == WStatfs(s, rest)
    ensures forall f {:trigger PutAll(FlockChain(f), rest)} :: PutAll(FlockChain(f), rest) == WFlock(f, rest)
    ensures forall f {:trigger PutAll(GetlockChain(f), rest)} :: PutAll(GetlockChain(f), rest) == WGetlock(f, rest)
  {
    ChainLaws();
    hide Put, PutAll, WNum, WStr, ValidUtf8;
  }

  lemma StatChained(s: Stat, rest: seq<u8>)
    ensures PutAll(StatChain(s), rest) == WStat(s, rest)
  {
    ChainLaws();
    forall t, rest ensures PutAll(TimeChain(t), rest) == WTime(t, rest) { StructureChains(rest); }
    hide Put, PutAll, WNum, WTime, TimeChain;
  }

  lemma SetAttrChained(s: SetAttr, rest: seq<u8>)
    ensures PutAll(SetAttrChain(s), rest) == WSetAttr(s, rest)
  {
    ChainLaws();
    forall t, rest ensures PutAll(TimeChain(t), rest) == WTime(t, rest) { StructureChains(rest); }
    hide Put, PutAll, WNum, WTime, TimeChain;
  }

  lemma EntryChained(e: DirEntry, rest: seq<u8>)
    ensures PutAll(EntryChain(e), rest) == WEntry(e, rest)
  {
    ChainLaws();
    StructureChains(W64(e.offset, W8(e.typ, WStr(e.name, rest))));
    hide Put, PutAll, WNum, WStr, WQid, QidChain, ValidUtf8;
  }

  lemma {:induction false} FoldPuts<T(!new)>(
    chain: Chain, xs: seq<T>, value: T -> Value, write: (T, seq<u8>) -> seq<u8>, rest: seq<u8>)
    requires forall x, rest :: Put(value(x), rest) == write(x, rest)
    ensures PutAll(Fold(chain, xs, value), rest) == PutAll(chain, WEach(write, xs, rest))
  {
    if xs != [] {
      var (init, last) := (xs[..|xs| - 1], xs[|xs| - 1]);
      FoldPuts(chain, init, value, write, write(last, rest));
      assert init + [last] == xs;
      EachAppend(write, init, [last], rest);
    }
  }

  lemma NamesChained(names: seq<Utf8>, rest: seq<u8>)
    ensures PutAll(NamesChain(names), rest) == WVec(WName, names, rest)
  {
    FoldPuts(New.U16(|names|), names, NameValue, WName, rest);
  }

  lemma QidsChained(qids: seq<Qid>, rest: seq<u8>)
    ensures PutAll(QidsChain(qids), rest) == WVec(WQid, qids, rest)
  {
    forall q, rest ensures Put(QidValue(q), rest) == WQid(q, rest) { StructureChains(rest); }
    FoldPuts(New.U16(|qids|), qids, QidValue, WQid, rest);
  }

  lemma EntriesChained(entries: seq<DirEntry>, rest: seq<u8>)
    ensures PutAll(EntriesChain(entries), rest) == WEntries(entries, rest)
  {
    forall e, rest ensures Put(EntryValue(e), rest) == WEntry(e, rest) { EntryChained(e, rest); }
    FoldPuts(New.U32(EntriesSize(entries)), entries, EntryValue, WEntry, rest);
  }

  // ------------------------------------------------------------------- messages

  function ChainOpen(c: Chain, body: Fcall): Chain {
    match body
    case Rlerror(ecode) => c.U32(ecode)
    case Tstatfs(fid) => c.U32(fid)
    case Rstatfs(statfs) => c.Sub(StatfsChain(statfs))
    case Tlopen(fid, flags) => c.U32(fid).U32(flags)
    case Rlopen(qid, iounit) => c.Sub(QidChain(qid)).U32(iounit)
    case Tlcreate(fid, name, flags, mode, gid) => c.U32(fid).Str(name).U32(flags).U32(mode).U32(gid)
    case Rlcreate(qid, iounit) => c.Sub(QidChain(qid)).U32(iounit)
    case _ => c
  }

  function ChainNode(c: Chain, body: Fcall): Chain {
    match body
    case Tsymlink(fid, name, symtgt, gid) => c.U32(fid).Str(name).Str(symtgt).U32(gid)
    case Rsymlink(qid) => c.Sub(QidChain(qid))
    case Tmknod(dfid, name, mode, major, minor, gid) => c.U32(dfid).Str(name).U32(mode).U32(major).U32(minor).U32(gid)
    case Rmknod(qid) => c.Sub(QidChain(qid))
    case Trename(fid, dfid, name) => c.U32(fid).U32(dfid).Str(name)
    case Treadlink(fid) => c.U32(fid)
    case Rreadlink(target) => c.Str(target)
    case _ => c
  }

  function ChainAttr(c: Chain, body: Fcall): Chain {
    match body
    case Tgetattr(fid, reqMask) => c.U32(fid).U64(reqMask)
    case Rgetattr(valid, qid, stat) => c.U64(valid).Sub(QidChain(qid)).Sub(StatChain(stat)).U64(0).U64(0).U64(0).U64(0)
    case Tsetattr(fid, setValid, setAttr) => c.U32(fid).U32(setValid).Sub(SetAttrChain(setAttr))
    case Txattrwalk(fid, newfid, name) => c.U32(fid).U32(newfid).Str(name)
    case Rxattrwalk(size) => c.U64(size)
    case Txattrcreate(fid, name, attrSize, flags) => c.U32(fid).Str(name).U64(attrSize).U32(flags)
    case _ => c
  }

  function ChainDir(c: Chain, body: Fcall): Chain {
    match body
    case Treaddir(fid, offset, count) => c.U32(fid).U64(offset).U32(count)
    case Rreaddir(entries) => c.Sub(EntriesChain(entries))
    case Tfsync(fid) => c.U32(fid)
    case Tlock(fid, flock) => c.U32(fid).Sub(FlockChain(flock))
    case Rlock(status) => c.U8(status)
    case Tgetlock(fid, getlock) => c.U32(fid).Sub(GetlockChain(getlock))
    case Rgetlock(getlock) => c.Sub(GetlockChain(getlock))
    case _ => c
  }

  function ChainLink(c: Chain, body: Fcall): Chain {
    match body
    case Tlink(dfid, fid, name) => c.U32(dfid).U32(fid).Str(name)
    case Tmkdir(dfid, name, mode, gid) => c.U32(dfid).Str(name).U32(mode).U32(gid)
    case Rmkdir(qid) => c.Sub(QidChain(qid))
    case Trenameat(olddirfid, oldname, newdirfid, newname) => c.U32(olddirfid).Str(oldname).U32(newdirfid).Str(newname)
    case Tunlinkat(dirfd, name, flags) => c.U32(dirfd).Str(name).U32(flags)
    case _ => c
  }

  function ChainSession(c: Chain, body: Fcall): Chain {
    match body
    case Tversion(msize, version) => c.U32(msize).Str(version)
    case Rversion(msize, version) => c.U32(msize).Str(version)
    case Tauth(afid, uname, aname, nUname) => c.U32(afid).Str(uname).Str(aname).U32(nUname)
    case Rauth(aqid) => c.Sub(QidChain(aqid))
    case _ => c
  }

  function ChainWalk(c: Chain, body: Fcall): Chain {
    match body
    case Tattach(fid, afid, uname, aname, nUname) => c.U32(fid).U32(afid).Str(uname).Str(aname).U32(nUname)
    case Rattach(qid) => c.Sub(QidChain(qid))
    case Tflush(oldtag) => c.U16(oldtag)
    case Twalk(fid, newfid, wnames) => c.U32(fid).U32(newfid).Sub(NamesChain(wnames))
    case Rwalk(wqids) => c.Sub(QidsChain(wqids))
    case _ => c
  }

  function ChainIo(c: Chain, body: Fcall): Chain {
    match body
    case Tread(fid, offset, count) => c.U32(fid).U64(offset).U32(count)
    case Rread(data) => c.Data(data)
    case Twrite(fid, offset, data) => c.U32(fid).U64(offset).Data(data)
    case Rwrite(count) => c.U32(count)
    case Tclunk(fid) => c.U32(fid)
    case Tremove(fid) => c.U32(fid)
    case _ => c
  }

  /** The chain of a message; the type and the tag come first. */
  function MsgChain(m: Msg): Chain {
    var code := Code(m.body);
    var c := New.U8(code).U16(m.tag);
    if code <= 15 then ChainOpen(c, m.body)
    else if code <= 23 then ChainNode(c, m.body)
    else if code <= 33 then ChainAttr(c, m.body)
    else if code <= 55 then ChainDir(c, m.body)
    else if code <= 77 then ChainLink(c, m.body)
    else if code <= 103 then ChainSession(c, m.body)
    else if code <= 111 then ChainWalk(c, m.body)
    else ChainIo(c, m.body)
  }

  lemma OpenChained(c: Chain, body: Fcall, rest: seq<u8>)
    ensures PutAll(ChainOpen(c, body), rest) == PutAll(c, WriteOpen(body, rest))
  {
    hide Put, PutAll, WNum, WStr, WData, WQid, WStatfs, WStat, WSetAttr, WFlock, WGetlock, WEntries, WVec,
      QidChain, StatfsChain, StatChain, SetAttrChain, FlockChain, GetlockChain, NamesChain, QidsChain, EntriesChain,
      ValidUtf8;
    ChainLaws();
    StructureChains(rest);
    if body.Rlopen? || body.Rlcreate? { StructureChains(W32(body.iounit, rest)); }
  }

  lemma NodeChained(c: Chain, body: Fcall, rest: seq<u8>)
    ensures PutAll(ChainNode(c, body), rest) == PutAll(c, WriteNode(body, rest))
  {
    hide Put, PutAll, WNum, WStr, WData, WQid, WStatfs, WStat, WSetAttr, WFlock, WGetlock, WEntries, WVec,
      QidChain, StatfsChain, StatChain, SetAttrChain, FlockChain, GetlockChain, NamesChain, QidsChain, EntriesChain,
      ValidUtf8;
    ChainLaws();
    StructureChains(rest);
  }

  lemma AttrChained(c: Chain, body: Fcall, rest: seq<u8>)
    ensures PutAll(ChainAttr(c, body), rest) == PutAll(c, WriteAttr(body, rest))
  {
    hide Put, PutAll, WNum, WStr, WData, WQid, WStatfs, WStat, WSetAttr, WFlock, WGetlock, WEntries, WVec,
      QidChain, StatfsChain, StatChain, SetAttrChain, FlockChain, GetlockChain, NamesChain, QidsChain, EntriesChain,
      ValidUtf8;
    ChainLaws();
    if body.Rgetattr? {
      StructureChains(WStat(body.stat, WReserved(rest)));
      StatChained(body.stat, WReserved(rest));
    }
    if body.Tsetattr? { SetAttrChained(body.setAttr, rest); }
  }

  lemma DirChained(c: Chain, body: Fcall, rest: seq<u8>)
    ensures PutAll(ChainDir(c, body), rest) == PutAll(c, WriteDir(body, rest))
  {
    hide Put, PutAll, WNum, WStr, WData, WQid, WStatfs, WStat, WSetAttr, WFlock, WGetlock, WEntries, WVec,
      QidChain, StatfsChain, StatChain, SetAttrChain, FlockChain, GetlockChain, NamesChain, QidsChain, EntriesChain,
      ValidUtf8;
    ChainLaws();
    if body.Rreaddir? { EntriesChained(body.entries, rest); }
    StructureChains(rest);
  }

  lemma LinkChained(c: Chain, body: Fcall, rest: seq<u8>)
    ensures PutAll(ChainLink(c, body), rest) == PutAll(c, WriteLink(body, rest))
  {
    hide Put, PutAll, WNum, WStr, WData, WQid, WStatfs, WStat, WSetAttr, WFlock, WGetlock, WEntries, WVec,
      QidChain, StatfsChain, StatChain, SetAttrChain, FlockChain, GetlockChain, NamesChain, QidsChain, EntriesChain,
      ValidUtf8;
    ChainLaws();
    StructureChains(rest);
  }

  lemma SessionChained(c: Chain, body: Fcall, rest: seq<u8>)
    ensures PutAll(ChainSession(c, body), rest) == PutAll(c, WriteSession(body, rest))
  {
    hide Put, PutAll, WNum, WStr, WData, WQid, WStatfs, WStat, WSetAttr, WFlock, WGetlock, WEntries, WVec,
      QidChain, StatfsChain, StatChain, SetAttrChain, FlockChain, GetlockChain, NamesChain, QidsChain, EntriesChain,
      ValidUtf8;
    ChainLaws();
    StructureChains(rest);
  }

  lemma WalkChained(c: Chain, body: Fcall, rest: seq<u8>)
    ensures PutAll(ChainWalk(c, body), rest) == PutAll(c, WriteWalk(body, rest))
  {
    hide Put, PutAll, WNum, WStr, WData, WQid, WStatfs, WStat, WSetAttr, WFlock, WGetlock, WEntries, WVec,
      QidChain, StatfsChain, StatChain, SetAttrChain, FlockChain, GetlockChain, NamesChain, QidsChain, EntriesChain,
      ValidUtf8;
    ChainLaws();
    if body.Twalk? { NamesChained(body.wnames, rest); }
    if body.Rwalk? { QidsChained(body.wqids, rest); }
    StructureChains(rest);
  }

  lemma IoChained(c: Chain, body: Fcall, rest: seq<u8>)
    ensures PutAll(ChainIo(c, body), rest) == PutAll(c, WriteIo(body, rest))
  {
    hide Put, PutAll, WNum, WStr, WData, WQid, WStatfs, WStat, WSetAttr, WFlock, WGetlock, WEntries, WVec,
      QidChain, StatfsChain, StatChain, SetAttrChain, FlockChain, GetlockChain, NamesChain, QidsChain, EntriesChain,
      ValidUtf8;
    ChainLaws();
  }

  /** The chain writes the message's encoding. */
  lemma MsgChained(m: Msg)
    ensures PutAll(MsgChain(m), []) == Encode(m)
  {
    hide ChainOpen, ChainNode, ChainAttr, ChainDir, ChainLink, ChainSession, ChainWalk, ChainIo,
      WriteOpen, WriteNode, WriteAttr, WriteDir, WriteLink, WriteSession, WriteWalk, WriteIo, Code, WNum;
    var (body, code) := (m.body, Code(m.body));
    var c := New.U8(code).U16(m.tag);
    if code <= 15 { OpenChained(c, body, []); }
    else if code <= 23 { NodeChained(c, body, []); }
    else if code <= 33 { AttrChained(c, body, []); }
    else if code <= 55 { DirChained(c, body, []); }
    else if code <= 77 { LinkChained(c, body, []); }
    else if code <= 103 { SessionChained(c, body, []); }
    else if code <= 111 { WalkChained(c, body, []); }
    else { IoChained(c, body, []); }
    ChainLaws();
    hide Put, PutAll;
  }

  /** For every message, the counts added up along its chain are the length of its encoding. */
  lemma BytesWritten(m: Msg)
    ensures Total(MsgChain(m)) == |Encode(m)|
  {
    MsgChained(m);
    TotalAgrees(MsgChain(m), []);
    hide MsgChain, Encode;
  }

  /** `write_msg`: the encoding is appended, and the number returned is how much that is. */
  method WriteMsgTo(w: Writer, m: Msg) returns (bytes: nat)
    modifies w
    ensures w.out == old(w.out) + Encode(m) && bytes == |Encode(m)|
  {
    hide MsgChain, Encode;
    MsgChained(m);
    BytesWritten(m);
    var enc := Run(MsgChain(m), w);
    return enc.bytes;
  }
}
