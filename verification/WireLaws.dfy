/** Reading undoes writing, writing undoes reading up to unknown flag bits, and what follows a
    written value does not change it. */
module WireLaws {
  import opened Bytes
  import opened Wrappers
  import opened Fcalls
  import opened Flags
  import opened Wire

  // ----------------------------------------------------------- reading undoes writing

  lemma NumLaw(n: nat, width: nat, rest: seq<u8>)
    requires n < Pow256(width)
    ensures RNum(WNum(n, width, rest), width) == Ok((n, rest))
  {
    var raw := LittleEndian(n, width);
    assert (raw + rest)[..width] == raw && (raw + rest)[width..] == rest;
    LittleEndianInverse(n, width);
  }

  lemma TakeFront(b: seq<u8>, rest: seq<u8>)
    ensures Take(b + rest, |b|) == Ok((b, rest))
  {
    assert (b + rest)[..|b|] == b && (b + rest)[|b|..] == rest;
  }

  lemma StrLaw(s: Utf8, rest: seq<u8>)
    requires Short(s)
    ensures RStr(WStr(s, rest)) == Ok((s, rest))
  {
    Pow256Values();
    NumLaw(|s|, 2, s + rest);
    TakeFront(s, rest);
  }

  lemma DataLaw(d: seq<u8>, rest: seq<u8>)
    requires |d| < 0x1_0000_0000
    ensures RData(WData(d, rest)) == Ok((d, rest))
  {
    Pow256Values();
    NumLaw(|d|, 4, d + rest);
    TakeFront(d, rest);
  }

  lemma NumberLaws()
    ensures forall n: u8, rest :: R8(W8(n, rest)) == Ok((n, rest))
    ensures forall n: u16, rest :: R16(W16(n, rest)) == Ok((n, rest))
    ensures forall n: u32, rest :: R32(W32(n, rest)) == Ok((n, rest))
    ensures forall n: u64, rest :: R64(W64(n, rest)) == Ok((n, rest))
  {
    Pow256Values();
    forall n: u8, rest ensures R8(W8(n, rest)) == Ok((n, rest)) { NumLaw(n, 1, rest); }
    forall n: u16, rest ensures R16(W16(n, rest)) == Ok((n, rest)) { NumLaw(n, 2, rest); }
    forall n: u32, rest ensures R32(W32(n, rest)) == Ok((n, rest)) { NumLaw(n, 4, rest); }
    forall n: u64, rest ensures R64(W64(n, rest)) == Ok((n, rest)) { NumLaw(n, 8, rest); }
  }

  lemma StringLaws()
    ensures forall s: Utf8, rest :: Short(s) ==> RStr(WStr(s, rest)) == Ok((s, rest))
  {
    forall s: Utf8, rest | Short(s) ensures RStr(WStr(s, rest)) == Ok((s, rest)) { StrLaw(s, rest); }
  }

  /** Truncating by `bound` keeps the bits of `mask`, and no others. */
  ghost predicate Keeps(bound: nat, mask: nat) {
    bound > 0 && forall n :: Truncate(n, bound) == And(n, mask)
  }

  lemma LowBits(k: nat)
    ensures Keeps(Pow2(k), Pow2(k) - 1)
  {
    forall n ensures Truncate(n, Pow2(k)) == And(n, Pow2(k) - 1) {
      AndLow(n, k);
    }
  }

  lemma Pow2Values()
    ensures Pow2(2) == 4 && Pow2(9) == 0x200 && Pow2(14) == 0x4000 && Pow2(8) == 0x100
  {
    assert Pow2(4) == 4 * Pow2(2) && Pow2(6) == 4 * Pow2(4) && Pow2(8) == 4 * Pow2(6);
    assert Pow2(10) == 4 * Pow2(8) && Pow2(12) == 4 * Pow2(10);
  }

  /** Reading a flag set keeps exactly the bits that have a name. */
  lemma NamedBitsAreKept()
    ensures Keeps(LOCK_TYPE_BOUND, LOCK_MASK) && Keeps(LOCK_FLAG_BOUND, LOCK_MASK) && Keeps(LOCK_STATUS_BOUND, LOCK_MASK)
    ensures Keeps(GETATTR_BOUND, GETATTR_MASK) && Keeps(SETATTR_BOUND, SETATTR_MASK)
  {
    Pow2Values();
    hide Keeps, Pow2;
    LowBits(2);
    LowBits(9);
    LowBits(14);
  }

  /** The bits of a qid's type all have names, so it is read as it is. */
  lemma QidTypesAreKept(n: u8)
    ensures And(n, QID_TYPE_MASK) == n
  {
    Pow2Values();
    hide And, Pow2;
    AndLow(n, 8);
  }

  /** Bit by bit. */
  lemma KeptBits(bound: nat, mask: nat, n: nat, i: nat)
    requires Keeps(bound, mask)
    ensures HasBit(Truncate(n, bound), i) <==> HasBit(n, i) && HasBit(mask, i)
  {
    AndBits(n, mask, i);
  }

  /** A flag set whose value has known bits only is read as it was written. */
  lemma FlagLaws()
    ensures forall n: u8, bound, rest :: n < bound ==> RFlags(W8(n, rest), 1, bound) == Ok((n, rest))
    ensures forall n: u32, bound, rest :: n < bound ==> RFlags(W32(n, rest), 4, bound) == Ok((n, rest))
    ensures forall n: u64, bound, rest :: n < bound ==> RFlags(W64(n, rest), 8, bound) == Ok((n, rest))
  {
    Pow256Values();
    forall n: u8, bound, rest | n < bound ensures RFlags(W8(n, rest), 1, bound) == Ok((n, rest)) { NumLaw(n, 1, rest); }
    forall n: u32, bound, rest | n < bound ensures RFlags(W32(n, rest), 4, bound) == Ok((n, rest)) { NumLaw(n, 4, rest); }
    forall n: u64, bound, rest | n < bound ensures RFlags(W64(n, rest), 8, bound) == Ok((n, rest)) { NumLaw(n, 8, rest); }
  }

  lemma QidLaw(q: Qid, rest: seq<u8>)
    ensures RQid(WQid(q, rest)) == Ok((q, rest))
  {
    hide W8, W32, W64, R8, R32, R64;
    NumberLaws();
  }

  lemma StatfsLaw(s: Statfs, rest: seq<u8>)
    ensures RStatfs(WStatfs(s, rest)) == Ok((s, rest))
  {
    hide W32, W64, R32, R64;
    NumberLaws();
  }

  lemma TimeLaw(t: Time, rest: seq<u8>)
    ensures RTime(WTime(t, rest)) == Ok((t, rest))
  {
    hide W64, R64;
    NumberLaws();
  }

  lemma StatLaw(s: Stat, rest: seq<u8>)
    ensures RStat(WStat(s, rest)) == Ok((s, rest))
  {
    hide W32, W64, WTime, R32, R64, RTime;
    forall t, rest ensures RTime(WTime(t, rest)) == Ok((t, rest)) { TimeLaw(t, rest); }
    NumberLaws();
  }

  lemma SetAttrLaw(s: SetAttr, rest: seq<u8>)
    ensures RSetAttr(WSetAttr(s, rest)) == Ok((s, rest))
  {
    hide W32, W64, WTime, R32, R64, RTime;
    forall t, rest ensures RTime(WTime(t, rest)) == Ok((t, rest)) { TimeLaw(t, rest); }
    NumberLaws();
  }

  lemma FlockLaw(f: Flock, rest: seq<u8>)
    requires Short(f.clientId)
    ensures RFlock(WFlock(f, rest)) == Ok((f, rest))
  {
    hide W8, W32, W64, WStr, R8, R32, R64, RStr, RFlags, Short;
    NumberLaws();
    StringLaws();
    FlagLaws();
  }

  lemma GetlockLaw(f: Getlock, rest: seq<u8>)
    requires Short(f.clientId)
    ensures RGetlock(WGetlock(f, rest)) == Ok((f, rest))
  {
    hide W8, W32, W64, WStr, R8, R32, R64, RStr, RFlags, Short;
    NumberLaws();
    StringLaws();
    FlagLaws();
  }

  lemma EntryLaw(e: DirEntry, rest: seq<u8>)
    requires Short(e.name)
    ensures REntry(WEntry(e, rest)) == Ok((e, rest))
  {
    var named := WStr(e.name, rest);
    var typed := W8(e.typ, named);
    Pow256Values();
    QidLaw(e.qid, W64(e.offset, typed));
    NumLaw(e.offset, 8, typed);
    NumLaw(e.typ, 1, named);
    StrLaw(e.name, rest);
    hide WNum, WStr, WQid, RNum, RStr, RQid;
  }

  lemma QidLaws()
    ensures forall q, rest :: RQid(WQid(q, rest)) == Ok((q, rest))
  {
    forall q, rest ensures RQid(WQid(q, rest)) == Ok((q, rest)) { QidLaw(q, rest); }
  }

  lemma {:induction false} EachLaw<T(!new)>(
    write: (T, seq<u8>) -> seq<u8>, read: seq<u8> -> Read<T>, xs: seq<T>, rest: seq<u8>)
    requires forall x, rest :: x in xs ==> read(write(x, rest)) == Ok((x, rest))
    ensures REach(read, |xs|, WEach(write, xs, rest)) == Ok((xs, rest))
  {
    if xs != [] {
      assert xs[0] in xs;
      EachLaw(write, read, xs[1..], rest);
      assert [xs[0]] + xs[1..] == xs;
    }
  }

  lemma VecLaw<T(!new)>(write: (T, seq<u8>) -> seq<u8>, read: seq<u8> -> Read<T>, xs: seq<T>, rest: seq<u8>)
    requires |xs| < 0x1_0000
    requires forall x, rest :: x in xs ==> read(write(x, rest)) == Ok((x, rest))
    ensures RVec(read, WVec(write, xs, rest)) == Ok((xs, rest))
  {
    EachLaw(write, read, xs, rest);
    Pow256Values();
    NumLaw(|xs|, 2, WEach(write, xs, rest));
  }

  lemma EntryLength(e: DirEntry, rest: seq<u8>)
    ensures |WEntry(e, rest)| == 24 + |e.name| + |rest|
  {
  }

  lemma {:induction false} AllEntriesLaw(entries: seq<DirEntry>)
    requires forall e :: e in entries ==> Short(e.name)
    ensures RAllEntries(WEach(WEntry, entries, [])) == Ok(entries)
  {
    if entries != [] {
      EntryLaw(entries[0], WEach(WEntry, entries[1..], []));
      EntryLength(entries[0], WEach(WEntry, entries[1..], []));
      hide WEntry, REntry, Short, ValidUtf8;
      AllEntriesLaw(entries[1..]);
      assert [entries[0]] + entries[1..] == entries;
    }
  }

  // ----------------------------------------------------------- writing undoes reading

  lemma NumBack(b: seq<u8>, width: nat)
    requires RNum(b, width).Ok?
    ensures WNum(RNum(b, width).value.0, width, RNum(b, width).value.1) == b
  {
    FromLittleEndianInverse(b[..width]);
  }

  lemma NumberBacks()
    ensures forall b :: R8(b).Ok? ==> W8(R8(b).value.0, R8(b).value.1) == b
    ensures forall b :: R16(b).Ok? ==> W16(R16(b).value.0, R16(b).value.1) == b
    ensures forall b :: R32(b).Ok? ==> W32(R32(b).value.0, R32(b).value.1) == b
    ensures forall b :: R64(b).Ok? ==> W64(R64(b).value.0, R64(b).value.1) == b
  {
    forall b | R8(b).Ok? ensures W8(R8(b).value.0, R8(b).value.1) == b { NumBack(b, 1); }
    forall b | R16(b).Ok? ensures W16(R16(b).value.0, R16(b).value.1) == b { NumBack(b, 2); }
    forall b | R32(b).Ok? ensures W32(R32(b).value.0, R32(b).value.1) == b { NumBack(b, 4); }
    forall b | R64(b).Ok? ensures W64(R64(b).value.0, R64(b).value.1) == b { NumBack(b, 8); }
  }

  lemma StrBack(b: seq<u8>)
    requires RStr(b).Ok?
    ensures WStr(RStr(b).value.0, RStr(b).value.1) == b
  {
    NumBack(b, 2);
  }

  /** What a string that is read is, what is left, and when reading one fails. */
  lemma StringRead(b: seq<u8>)
    ensures |b| < 2 ==> RStr(b) == Err(UnexpectedEof)
    ensures |b| >= 2 ==>
      var n := FromLittleEndian(b[..2]);
      RStr(b) == if |b| < 2 + n then Err(UnexpectedEof)
                 else if ValidUtf8(b[2..2 + n]) then Ok((b[2..2 + n], b[2 + n..]))
                 else Err(InvalidUtf8)
  {
    if |b| >= 2 {
      var n := FromLittleEndian(b[..2]);
      assert |b| >= 2 + n ==> b[2..][..n] == b[2..2 + n] && b[2..][n..] == b[2 + n..];
    }
  }

  lemma DataBack(b: seq<u8>)
    requires RData(b).Ok?
    ensures WData(RData(b).value.0, RData(b).value.1) == b
  {
    NumBack(b, 4);
  }

  lemma StringBacks()
    ensures forall b :: RStr(b).Ok? ==> WStr(RStr(b).value.0, RStr(b).value.1) == b
  {
    forall b | RStr(b).Ok? ensures WStr(RStr(b).value.0, RStr(b).value.1) == b { StrBack(b); }
  }

  lemma QidBacks()
    ensures forall b :: RQid(b).Ok? ==> WQid(RQid(b).value.0, RQid(b).value.1) == b
  {
    forall b | RQid(b).Ok? ensures WQid(RQid(b).value.0, RQid(b).value.1) == b { QidBack(b); }
  }

  lemma QidBack(b: seq<u8>)
    requires RQid(b).Ok?
    ensures WQid(RQid(b).value.0, RQid(b).value.1) == b
  {
    hide W8, W32, W64, R8, R32, R64;
    NumberBacks();
  }

  lemma StatfsBack(b: seq<u8>)
    requires RStatfs(b).Ok?
    ensures WStatfs(RStatfs(b).value.0, RStatfs(b).value.1) == b
  {
    hide W32, W64, R32, R64;
    NumberBacks();
  }

  lemma TimeBack(b: seq<u8>)
    requires RTime(b).Ok?
    ensures WTime(RTime(b).value.0, RTime(b).value.1) == b
  {
    hide W64, R64;
    NumberBacks();
  }

  lemma StatBack(b: seq<u8>)
    requires RStat(b).Ok?
    ensures WStat(RStat(b).value.0, RStat(b).value.1) == b
  {
    hide W32, W64, WTime, R32, R64, RTime;
    forall b | RTime(b).Ok? ensures WTime(RTime(b).value.0, RTime(b).value.1) == b { TimeBack(b); }
    NumberBacks();
  }

  lemma SetAttrBack(b: seq<u8>)
    requires RSetAttr(b).Ok?
    ensures WSetAttr(RSetAttr(b).value.0, RSetAttr(b).value.1) == b
  {
    hide W32, W64, WTime, R32, R64, RTime;
    forall b | RTime(b).Ok? ensures WTime(RTime(b).value.0, RTime(b).value.1) == b { TimeBack(b); }
    NumberBacks();
  }

  lemma EntryBack(b: seq<u8>)
    requires REntry(b).Ok?
    ensures WEntry(REntry(b).value.0, REntry(b).value.1) == b
  {
    hide W8, W64, WStr, WQid, R8, R64, RStr, RQid;
    forall b | RQid(b).Ok? ensures WQid(RQid(b).value.0, RQid(b).value.1) == b { QidBack(b); }
    NumberBacks();
    StringBacks();
  }

  lemma {:induction false} EachBack<T(!new)>(
    write: (T, seq<u8>) -> seq<u8>, read: seq<u8> -> Read<T>, count: nat, b: seq<u8>)
    requires forall b :: read(b).Ok? ==> write(read(b).value.0, read(b).value.1) == b
    requires REach(read, count, b).Ok?
    ensures WEach(write, REach(read, count, b).value.0, REach(read, count, b).value.1) == b
  {
    if count != 0 {
      var (x, tail) := read(b).value;
      EachBack(write, read, count - 1, tail);
      var (xs, rest) := REach(read, count - 1, tail).value;
      assert ([x] + xs)[1..] == xs;
    }
  }

  /** What holds of every value a reader yields holds of all of a list of them. */
  lemma {:induction false} EachHolds<T(!new)>(read: seq<u8> -> Read<T>, holds: T -> bool, count: nat, b: seq<u8>)
    requires forall b :: read(b).Ok? ==> holds(read(b).value.0)
    requires REach(read, count, b).Ok?
    ensures forall x :: x in REach(read, count, b).value.0 ==> holds(x)
  {
    if count != 0 {
      EachHolds(read, holds, count - 1, read(b).value.1);
    }
  }

  lemma VecBack<T(!new)>(write: (T, seq<u8>) -> seq<u8>, read: seq<u8> -> Read<T>, b: seq<u8>)
    requires forall b :: read(b).Ok? ==> write(read(b).value.0, read(b).value.1) == b
    requires RVec(read, b).Ok?
    ensures WVec(write, RVec(read, b).value.0, RVec(read, b).value.1) == b
  {
    NumberBacks();
    EachBack(write, read, |RVec(read, b).value.0|, R16(b).value.1);
  }

  lemma {:induction false} AllEntriesBack(b: seq<u8>)
    requires RAllEntries(b).Ok?
    ensures WEach(WEntry, RAllEntries(b).value, []) == b
    ensures forall e :: e in RAllEntries(b).value ==> Short(e.name)
    decreases |b|
  {
    if b != [] {
      EntryBack(b);
      var (e, rest) := REntry(b).value;
      AllEntriesBack(rest);
      assert ([e] + RAllEntries(rest).value)[1..] == RAllEntries(rest).value;
    }
  }

  // ----------------------------------------------------------- what follows does not matter

  lemma PrimitiveFronts()
    ensures forall n: nat, a, c :: W8(n, a) + c == W8(n, a + c)
    ensures forall n: nat, a, c :: W16(n, a) + c == W16(n, a + c)
    ensures forall n: nat, a, c :: W32(n, a) + c == W32(n, a + c)
    ensures forall n: nat, a, c :: W64(n, a) + c == W64(n, a + c)
    ensures forall s, a, c :: WStr(s, a) + c == WStr(s, a + c)
    ensures forall d, a, c :: WData(d, a) + c == WData(d, a + c)
  {
    forall a: seq<u8>, b: seq<u8>, c: seq<u8> ensures a + b + c == a + (b + c) {
    }
  }

  lemma QidFront(q: Qid, a: seq<u8>, c: seq<u8>)
    ensures WQid(q, a) + c == WQid(q, a + c)
  {
    hide W8, W32, W64;
    PrimitiveFronts();
  }

  lemma StatfsFront(s: Statfs, a: seq<u8>, c: seq<u8>)
    ensures WStatfs(s, a) + c == WStatfs(s, a + c)
  {
    hide W32, W64;
    PrimitiveFronts();
  }

  lemma TimeFront(t: Time, a: seq<u8>, c: seq<u8>)
    ensures WTime(t, a) + c == WTime(t, a + c)
  {
    hide W64;
    PrimitiveFronts();
  }

  lemma StatFront(s: Stat, a: seq<u8>, c: seq<u8>)
    ensures WStat(s, a) + c == WStat(s, a + c)
  {
    hide W32, W64, WTime;
    forall t, a, c ensures WTime(t, a) + c == WTime(t, a + c) { TimeFront(t, a, c); }
    PrimitiveFronts();
  }

  lemma SetAttrFront(s: SetAttr, a: seq<u8>, c: seq<u8>)
    ensures WSetAttr(s, a) + c == WSetAttr(s, a + c)
  {
    hide W32, W64, WTime;
    forall t, a, c ensures WTime(t, a) + c == WTime(t, a + c) { TimeFront(t, a, c); }
    PrimitiveFronts();
  }

  lemma FlockFront(f: Flock, a: seq<u8>, c: seq<u8>)
    ensures WFlock(f, a) + c == WFlock(f, a + c)
  {
    hide W8, W32, W64, WStr;
    PrimitiveFronts();
  }

  lemma GetlockFront(f: Getlock, a: seq<u8>, c: seq<u8>)
    ensures WGetlock(f, a) + c == WGetlock(f, a + c)
  {
    hide W8, W32, W64, WStr;
    PrimitiveFronts();
  }

  lemma EntryFront(e: DirEntry, a: seq<u8>, c: seq<u8>)
    ensures WEntry(e, a) + c == WEntry(e, a + c)
  {
    hide W8, W64, WStr, WQid;
    forall q, a, c ensures WQid(q, a) + c == WQid(q, a + c) { QidFront(q, a, c); }
    PrimitiveFronts();
  }

  lemma StructureFronts()
    ensures forall q, a, c :: WQid(q, a) + c == WQid(q, a + c)
    ensures forall s, a, c :: WStatfs(s, a) + c == WStatfs(s, a + c)
    ensures forall s, a, c :: WStat(s, a) + c == WStat(s, a + c)
    ensures forall s, a, c :: WSetAttr(s, a) + c == WSetAttr(s, a + c)
    ensures forall f, a, c :: WFlock(f, a) + c == WFlock(f, a + c)
    ensures forall f, a, c :: WGetlock(f, a) + c == WGetlock(f, a + c)
    ensures forall e, a, c :: WEntry(e, a) + c == WEntry(e, a + c)
  {
    forall q, a, c ensures WQid(q, a) + c == WQid(q, a + c) { QidFront(q, a, c); }
    forall s, a, c ensures WStatfs(s, a) + c == WStatfs(s, a + c) { StatfsFront(s, a, c); }
    forall s, a, c ensures WStat(s, a) + c == WStat(s, a + c) { StatFront(s, a, c); }
    forall s, a, c ensures WSetAttr(s, a) + c == WSetAttr(s, a + c) { SetAttrFront(s, a, c); }
    forall f, a, c ensures WFlock(f, a) + c == WFlock(f, a + c) { FlockFront(f, a, c); }
    forall f, a, c ensures WGetlock(f, a) + c == WGetlock(f, a + c) { GetlockFront(f, a, c); }
    forall e, a, c ensures WEntry(e, a) + c == WEntry(e, a + c) { EntryFront(e, a, c); }
  }

  lemma {:induction false} EachFront<T(!new)>(write: (T, seq<u8>) -> seq<u8>, xs: seq<T>, a: seq<u8>, c: seq<u8>)
    requires forall x, a, c :: write(x, a) + c == write(x, a + c)
    ensures WEach(write, xs, a) + c == WEach(write, xs, a + c)
  {
    if xs != [] {
      EachFront(write, xs[1..], a, c);
    }
  }
}
