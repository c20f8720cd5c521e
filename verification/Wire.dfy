/** The wire form of the primitive values and of the structures that messages are made of.

    `W…(x, rest)` is what `x` is written as, followed by `rest`; `R…(b)` reads a value from the front
    of `b` and hands back what follows it. */
module Wire {
  import opened Bytes
  import opened Wrappers
  import opened Fcalls

  datatype DecodeError = UnexpectedEof | InvalidUtf8 | InvalidType

  /** A reader takes what it needs from the front of the bytes and hands back the rest. */
  type Read<+T> = Result<(T, seq<u8>), DecodeError>

  // ------------------------------------------------------------------- primitives

  function WNum(n: nat, width: nat, rest: seq<u8>): (b: seq<u8>)
    ensures |b| == width + |rest|
  {
    LittleEndian(n, width) + rest
  }

  function W8(n: nat, rest: seq<u8>): seq<u8> { WNum(n, 1, rest) }
  function W16(n: nat, rest: seq<u8>): seq<u8> { WNum(n, 2, rest) }
  function W32(n: nat, rest: seq<u8>): seq<u8> { WNum(n, 4, rest) }
  function W64(n: nat, rest: seq<u8>): seq<u8> { WNum(n, 8, rest) }

  /** A string, after its length cast to `u16`. */
  function WStr(s: seq<u8>, rest: seq<u8>): seq<u8> { W16(|s|, s + rest) }

  /** Data, after its length cast to `u32`. */
  function WData(d: seq<u8>, rest: seq<u8>): seq<u8> { W32(|d|, d + rest) }

  function Take(b: seq<u8>, size: nat): (r: Read<seq<u8>>)
    ensures r.Ok? <==> size <= |b|
    ensures r.Ok? ==> r.value == (b[..size], b[size..])
  {
    if |b| < size then Err(UnexpectedEof) else Ok((b[..size], b[size..]))
  }

  function RNum(b: seq<u8>, width: nat): (r: Read<nat>)
    ensures r.Ok? ==> r.value.0 < Pow256(width)
    ensures r.Ok? ==> |r.value.1| + width == |b|
  {
    var (raw, rest) :- Take(b, width);
    Ok((FromLittleEndian(raw), rest))
  }

  function R8(b: seq<u8>): Read<u8> { Pow256Values(); RNum(b, 1) }
  function R16(b: seq<u8>): Read<u16> { Pow256Values(); RNum(b, 2) }
  function R32(b: seq<u8>): Read<u32> { Pow256Values(); RNum(b, 4) }
  function R64(b: seq<u8>): Read<u64> { Pow256Values(); RNum(b, 8) }

  function RStr(b: seq<u8>): (r: Read<Utf8>)
    ensures r.Ok? ==> |r.value.1| + 2 + |r.value.0| == |b|
    ensures r.Ok? ==> Short(r.value.0)
  {
    var (size, rest) :- R16(b);
    var (bytes, rest) :- Take(rest, size);
    if ValidUtf8(bytes) then Ok((bytes, rest)) else Err(InvalidUtf8)
  }

  function RData(b: seq<u8>): (r: Read<seq<u8>>)
    ensures r.Ok? ==> |r.value.0| < 0x1_0000_0000
  {
    var (size, rest) :- R32(b);
    Take(rest, size)
  }

  predicate Short(s: seq<u8>) { |s| < 0x1_0000 }

  /** `from_bits_truncate`: the known bits of `n`, when the known bits are those below `bound`. */
  function Truncate(n: nat, bound: nat): (known: nat)
    requires bound > 0
    ensures known < bound
    ensures n < bound ==> known == n
  {
    if n < bound then n else n % bound
  }

  /** A flag set of `width` bytes. */
  function RFlags(b: seq<u8>, width: nat, bound: nat): (r: Read<nat>)
    requires bound > 0
    ensures r.Ok? ==> r.value.0 < bound
  {
    var (n, rest) :- RNum(b, width);
    Ok((Truncate(n, bound), rest))
  }

  // ------------------------------------------------------------------- structures

  function WQid(q: Qid, rest: seq<u8>): seq<u8> {
    W8(q.typ, W32(q.version, W64(q.path, rest)))
  }

  function RQid(b: seq<u8>): (r: Read<Qid>)
    ensures r.Ok? ==> |r.value.1| + QID_SIZE == |b|
  {
    var (typ, b) :- R8(b);
    var (version, b) :- R32(b);
    var (path, b) :- R64(b);
    Ok((Qid(typ, version, path), b))
  }

  function WTime(t: Time, rest: seq<u8>): seq<u8> {
    W64(t.sec, W64(t.nsec, rest))
  }

  function RTime(b: seq<u8>): Read<Time> {
    var (sec, b) :- R64(b);
    var (nsec, b) :- R64(b);
    Ok((Time(sec, nsec), b))
  }

  function WStatfs(s: Statfs, rest: seq<u8>): seq<u8> {
    W32(s.typ, W32(s.bsize, W64(s.blocks, W64(s.bfree, W64(s.bavail,
    W64(s.files, W64(s.ffree, W64(s.fsid, W32(s.namelen, rest)))))))))
  }

  function RStatfs(b: seq<u8>): Read<Statfs> {
    var (typ, b) :- R32(b);
    var (bsize, b) :- R32(b);
    var (blocks, b) :- R64(b);
    var (bfree, b) :- R64(b);
    var (bavail, b) :- R64(b);
    var (files, b) :- R64(b);
    var (ffree, b) :- R64(b);
    var (fsid, b) :- R64(b);
    var (namelen, b) :- R32(b);
    Ok((Statfs(typ, bsize, blocks, bfree, bavail, files, ffree, fsid, namelen), b))
  }

  function WStat(s: Stat, rest: seq<u8>): seq<u8> {
    W32(s.mode, W32(s.uid, W32(s.gid, W64(s.nlink, W64(s.rdev, W64(s.size, W64(s.blksize, W64(s.blocks,
    WTime(s.atime, WTime(s.mtime, WTime(s.ctime, rest)))))))))))
  }

  function RStat(b: seq<u8>): Read<Stat> {
    var (mode, b) :- R32(b);
    var (uid, b) :- R32(b);
    var (gid, b) :- R32(b);
    var (nlink, b) :- R64(b);
    var (rdev, b) :- R64(b);
    var (size, b) :- R64(b);
    var (blksize, b) :- R64(b);
    var (blocks, b) :- R64(b);
    var (atime, b) :- RTime(b);
    var (mtime, b) :- RTime(b);
    var (ctime, b) :- RTime(b);
    Ok((Stat(mode, uid, gid, nlink, rdev, size, blksize, blocks, atime, mtime, ctime), b))
  }

  function WSetAttr(s: SetAttr, rest: seq<u8>): seq<u8> {
    W32(s.mode, W32(s.uid, W32(s.gid, W64(s.size, WTime(s.atime, WTime(s.mtime, rest))))))
  }

  function RSetAttr(b: seq<u8>): Read<SetAttr> {
    var (mode, b) :- R32(b);
    var (uid, b) :- R32(b);
    var (gid, b) :- R32(b);
    var (size, b) :- R64(b);
    var (atime, b) :- RTime(b);
    var (mtime, b) :- RTime(b);
    Ok((SetAttr(mode, uid, gid, size, atime, mtime), b))
  }

  function WFlock(f: Flock, rest: seq<u8>): seq<u8> {
    W8(f.typ, W32(f.flags, W64(f.start, W64(f.length, W32(f.procId, WStr(f.clientId, rest))))))
  }

  function RFlock(b: seq<u8>): (r: Read<Flock>)
    ensures r.Ok? ==> Short(r.value.0.clientId)
  {
    var (typ, b) :- RFlags(b, 1, LOCK_TYPE_BOUND);
    var (flags, b) :- RFlags(b, 4, LOCK_FLAG_BOUND);
    var (start, b) :- R64(b);
    var (length, b) :- R64(b);
    var (procId, b) :- R32(b);
    var (clientId, b) :- RStr(b);
    Ok((Flock(typ, flags, start, length, procId, clientId), b))
  }

  function WGetlock(f: Getlock, rest: seq<u8>): seq<u8> {
    W8(f.typ, W64(f.start, W64(f.length, W32(f.procId, WStr(f.clientId, rest)))))
  }

  function RGetlock(b: seq<u8>): (r: Read<Getlock>)
    ensures r.Ok? ==> Short(r.value.0.clientId)
  {
    var (typ, b) :- RFlags(b, 1, LOCK_TYPE_BOUND);
    var (start, b) :- R64(b);
    var (length, b) :- R64(b);
    var (procId, b) :- R32(b);
    var (clientId, b) :- RStr(b);
    Ok((Getlock(typ, start, length, procId, clientId), b))
  }

  function WEntry(e: DirEntry, rest: seq<u8>): seq<u8> {
    WQid(e.qid, W64(e.offset, W8(e.typ, WStr(e.name, rest))))
  }

  function REntry(b: seq<u8>): (r: Read<DirEntry>)
    ensures r.Ok? ==> |r.value.1| + 24 <= |b|
    ensures r.Ok? ==> Short(r.value.0.name)
  {
    var (qid, b) :- RQid(b);
    var (offset, b) :- R64(b);
    var (typ, b) :- R8(b);
    var (name, b) :- RStr(b);
    Ok((DirEntry(qid, offset, typ, name), b))
  }

  // ------------------------------------------------------------------------ lists

  function WEach<T>(write: (T, seq<u8>) -> seq<u8>, xs: seq<T>, rest: seq<u8>): seq<u8> {
    if xs == [] then rest else write(xs[0], WEach(write, xs[1..], rest))
  }

  function REach<T>(read: seq<u8> -> Read<T>, count: nat, b: seq<u8>): (r: Read<seq<T>>)
    ensures r.Ok? ==> |r.value.0| == count
  {
    if count == 0 then Ok(([], b))
    else
      var (x, b) :- read(b);
      var (xs, b) :- REach(read, count - 1, b);
      Ok(([x] + xs, b))
  }

  /** A vector, after its length cast to `u16`. */
  function WVec<T>(write: (T, seq<u8>) -> seq<u8>, xs: seq<T>, rest: seq<u8>): seq<u8> {
    W16(|xs|, WEach(write, xs, rest))
  }

  function RVec<T>(read: seq<u8> -> Read<T>, b: seq<u8>): (r: Read<seq<T>>)
    ensures r.Ok? ==> |r.value.0| < 0x1_0000
  {
    var (count, b) :- R16(b);
    REach(read, count, b)
  }

  /** Directory entries, after the size of all of them together. */
  function WEntries(entries: seq<DirEntry>, rest: seq<u8>): seq<u8> {
    W32(EntriesSize(entries), WEach(WEntry, entries, rest))
  }

  /** How the body of an `Rreaddir` is read. The code as written takes the leading number for a
      count of entries; 9P2000.L means it, and the encoder writes it, as a count of bytes. */
  datatype ReaddirDecoder = AsWritten | Intended

  /** Entries until the bytes are used up. */
  function RAllEntries(b: seq<u8>): Result<seq<DirEntry>, DecodeError>
    decreases |b|
  {
    if b == [] then Ok([])
    else
      var (e, b) :- REntry(b);
      var es :- RAllEntries(b);
      Ok([e] + es)
  }

  function REntries(variant: ReaddirDecoder, b: seq<u8>): Read<seq<DirEntry>> {
    var (size, b) :- R32(b);
    match variant
    case AsWritten => REach(REntry, size, b)
    case Intended =>
      var (payload, b) :- Take(b, size);
      var entries :- RAllEntries(payload);
      Ok((entries, b))
  }
}
