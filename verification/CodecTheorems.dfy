/** What the message codec promises. */
module CodecTheorems {
  import opened Bytes
  import opened Wrappers
  import opened Fcalls
  import opened Wire
  import opened WireLaws
  import opened Codec
  import opened CodecLaws
  import opened CodecBacks

  /** When a message survives being written and read. The decoder as written takes the size of a
      directory listing for its number of entries, so for it the two have to be equal. */
  predicate Survives(variant: ReaddirDecoder, body: Fcall) {
    if variant.AsWritten? && body.Rreaddir?
    then EntriesSize(body.entries) == |body.entries| && forall e :: e in body.entries ==> Short(e.name)
    else Encodable(body)
  }

  /** The two decoders differ on directory listings only. */
  lemma VariantsAgree(code: u8, b: seq<u8>)
    ensures code != 41 ==>
              ReadBody(AsWritten, code, b) == ReadBody(Intended, code, b)
  {
  }

  /** The intended decoder on a body. */
  lemma IntendedBody(body: Fcall, rest: seq<u8>)
    ensures ReadBody(Intended, Code(body), WriteBody(body, rest)) == Ok((body, rest)) <==> Encodable(body)
  {
    hide Encodable, Code, WriteBody, ReadBody, ScrubBody;
    if Encodable(body) { BodyRoundTrip(body, rest); }
    BodyReadsBack(Code(body), WriteBody(body, rest));
  }

  /** The decoder as written on a directory listing. */
  lemma WrittenListing(entries: seq<DirEntry>, rest: seq<u8>)
    ensures REntries(AsWritten, WEntries(entries, rest)) == Ok((entries, rest))
       <==> EntriesSize(entries) == |entries| && forall e :: e in entries ==> Short(e.name)
  {
    var (size, payload) := (EntriesSize(entries), WEach(WEntry, entries, rest));
    Pow256Values();
    NumLaw(size, 4, payload);
    hide EntriesSize, WNum, RNum, Short;
    if REach(REntry, size, payload) == Ok((entries, rest)) {
      EntriesAreShort(size, payload);
    }
    if size == |entries| && forall e :: e in entries ==> Short(e.name) {
      forall e, rest | e in entries ensures REntry(WEntry(e, rest)) == Ok((e, rest)) { EntryLaw(e, rest); }
      EachLaw(WEntry, REntry, entries, rest);
    }
  }

  lemma EntriesAreShort(count: nat, b: seq<u8>)
    requires REach(REntry, count, b).Ok?
    ensures forall e :: e in REach(REntry, count, b).value.0 ==> Short(e.name)
  {
    EachHolds(REntry, (e: DirEntry) => Short(e.name), count, b);
  }

  lemma WrittenBody(entries: seq<DirEntry>, rest: seq<u8>)
    ensures ReadBody(AsWritten, 41, WriteBody(Rreaddir(entries), rest)) == Ok((Rreaddir(entries), rest))
       <==> REntries(AsWritten, WEntries(entries, rest)) == Ok((entries, rest))
  {
    hide REntries, WEntries;
    var b := WEntries(entries, rest);
    var r := REntries(AsWritten, b);
    assert WriteBody(Rreaddir(entries), rest) == b;
    if r.Ok? {
      assert ReadBody(AsWritten, 41, b).value == (Rreaddir(r.value.0), r.value.1);
      assert r.value == (r.value.0, r.value.1);
    }
  }

  /** Round trip, exactly: a message followed by anything is read back, with what follows it left
      over, if and only if none of its casts truncates (and for the decoder as written, if and only
      if a directory listing is as many bytes as entries). */
  lemma RoundTrip(variant: ReaddirDecoder, m: Msg, rest: seq<u8>)
    ensures Decode(variant, Encode(m) + rest) == Ok((m, rest)) <==> Survives(variant, m.body)
  {
    hide Encodable, WriteBody, ReadBody, WriteMsg, Decode, Encode, WEntries, REntries;
    MsgFront(m, rest);
    HeaderLaw(variant, m, rest);
    IntendedBody(m.body, rest);
    if variant.AsWritten? {
      if m.body.Rreaddir? {
        WrittenBody(m.body.entries, rest);
        WrittenListing(m.body.entries, rest);
      } else {
        VariantsAgree(Code(m.body), WriteBody(m.body, rest));
      }
    }
  }

  /** An `Rreaddir` of a directory listing under 2^32 bytes survives the decoder as written exactly
      when it is empty. */
  lemma WrittenListingSurvivesIfEmpty(entries: seq<DirEntry>)
    requires Encodable(Rreaddir(entries))
    ensures Survives(AsWritten, Rreaddir(entries)) <==> entries == []
  {
    hide EntriesSize, WEach;
    SizesAgree(entries);
    EntriesLength(entries, []);
  }

  /** No encoding is a prefix of another: two messages cut the same bytes at the same place. */
  lemma PrefixFree(m1: Msg, m2: Msg, rest1: seq<u8>, rest2: seq<u8>)
    requires Encodable(m1.body) && Encodable(m2.body)
    requires Encode(m1) + rest1 == Encode(m2) + rest2
    ensures m1 == m2 && rest1 == rest2
  {
    RoundTrip(Intended, m1, rest1);
    RoundTrip(Intended, m2, rest2);
  }

  lemma IntendedNormalises(b: seq<u8>)
    requires Decode(Intended, b).Ok?
    ensures var (m, rest) := Decode(Intended, b).value;
            Encodable(m.body) && Encode(m) + rest == Scrub(b) && Code(m.body) == b[0]
  {
    var (m, rest) := Decode(Intended, b).value;
    var (code, b1) := R8(b).value;
    var (tag, b2) := R16(b1).value;
    BodyReadsBack(code, b2);
    MsgFront(m, rest);
    HeaderBack(b);
    hide Encodable, Code, WriteBody, ReadBody, ScrubBody, R8, R16;
  }

  /** A listing that the decoder as written has read is written as it was if and only if it has as many
      bytes as entries. */
  lemma WrittenListingBack(b: seq<u8>)
    requires REntries(AsWritten, b).Ok?
    ensures var (entries, rest) := REntries(AsWritten, b).value;
      && (forall e :: e in entries ==> Short(e.name))
      && (WEntries(entries, rest) == b <==> EntriesSize(entries) == |entries|)
  {
    hide REntry, WEntry, EntriesSize, Short;
    var (size, tail) := R32(b).value;
    var (entries, rest) := REach(REntry, size, tail).value;
    NumBack(b, 4);
    forall b | REntry(b).Ok? ensures WEntry(REntry(b).value.0, REntry(b).value.1) == b { EntryBack(b); }
    EachBack(WEntry, REntry, size, tail);
    EntriesAreShort(size, tail);
    Pow256Values();
    NumLaw(EntriesSize(entries), 4, tail);
    hide RNum, WNum, REach, WEach;
  }

  /** A listing that was read in a message, and the bytes it was read from. */
  lemma ListingInMessage(b: seq<u8>)
    requires Decode(AsWritten, b).Ok? && b[0] == 41
    ensures var (m, rest) := Decode(AsWritten, b).value;
      && m.body.Rreaddir? && REntries(AsWritten, b[3..]) == Ok((m.body.entries, rest))
      && Encode(m) + rest == b[..3] + WEntries(m.body.entries, rest)
  {
    var (m, rest) := Decode(AsWritten, b).value;
    HeaderBack(b);
    MsgFront(m, rest);
    hide REntries, WEntries, EntriesSize, ValidUtf8, R8, R16, W8, W16, Encode;
    assert ReadBody(AsWritten, 41, b[3..]) == Ok((m.body, rest));
    assert m.body.Rreaddir?;
    assert WriteBody(m.body, rest) == WEntries(m.body.entries, rest);
  }

  lemma ListingIsNotScrubbed(b: seq<u8>)
    requires |b| >= 3 && b[0] == 41
    ensures Scrub(b) == b && b[..3] + b[3..] == b
  {
    assert b[..3] + b[3..] == b;
  }

  lemma WrittenNormalises(b: seq<u8>)
    requires Decode(AsWritten, b).Ok? && b[0] == 41
    ensures var (m, rest) := Decode(AsWritten, b).value;
      && m.body.Rreaddir? && Scrub(b) == b
      && (Encode(m) + rest == b <==> Survives(AsWritten, m.body))
  {
    HeaderBack(b);
    ListingInMessage(b);
    ListingIsNotScrubbed(b);
    hide Decode, Encode, REntries, WEntries, EntriesSize, Short, ValidUtf8, Scrub, R8, R16, W8, W16, Encodable;
    var (m, rest) := Decode(AsWritten, b).value;
    WrittenListingBack(b[3..]);
    SameFront(b[..3], WEntries(m.body.entries, rest), b[3..]);
  }

  lemma SameFront(front: seq<u8>, x: seq<u8>, y: seq<u8>)
    ensures front + x == front + y <==> x == y
  {
    if front + x == front + y {
      assert x == (front + x)[|front|..] && y == (front + y)[|front|..];
    }
  }

  /** Reading normalises: what was read, written again, gives the bytes that were read with the unknown
      flag bits and the reserved bytes cleared, if and only if it survives, and all that the intended
      decoder reads and all that is not a directory listing does; and those bytes are read as the same
      message and leave the same bytes. */
  lemma Normalises(variant: ReaddirDecoder, b: seq<u8>)
    requires Decode(variant, b).Ok?
    ensures var (m, rest) := Decode(variant, b).value;
      && (Encode(m) + rest == Scrub(b) <==> Survives(variant, m.body))
      && (variant.Intended? || b[0] != 41 ==> Survives(variant, m.body))
      && Decode(variant, Scrub(b)) == Ok((m, rest))
  {
    hide Encodable, Encode, Scrub, ReadBody;
    var (m, rest) := Decode(variant, b).value;
    if variant.AsWritten? && b[0] == 41 {
      WrittenNormalises(b);
    } else {
      HeaderBack(b);
      VariantsAgree(b[0], b[3..]);
      assert Decode(Intended, b) == Decode(variant, b);
      IntendedNormalises(b);
      assert m.body.Rreaddir? ==> b[0] == 41;
      RoundTrip(variant, m, rest);
    }
  }

  lemma HeaderBack(b: seq<u8>)
    requires R8(b).Ok? && R16(R8(b).value.1).Ok?
    ensures |b| >= 3 && R8(b).value.0 == b[0]
    ensures forall x :: W8(b[0], W16(R16(R8(b).value.1).value.0, x)) == b[..3] + x
    ensures R16(R8(b).value.1).value.1 == b[3..]
  {
    FromLittleEndianInverse(b[..1]);
    FromLittleEndianInverse(b[1..][..2]);
    assert b[1..][..2] == b[1..3] && b[1..][2..] == b[3..];
    var tag := R16(R8(b).value.1).value.0;
    forall x ensures W8(b[0], W16(tag, x)) == b[..3] + x {
      assert W8(b[0], W16(tag, x)) == b[..1] + (b[1..3] + x);
    }
  }

  /** The types of message there are. */
  const TYPES: set<int> := {
    7, 8, 9, 12, 13, 14, 15, 16, 17, 18, 19, 20, 21, 22, 23, 24, 25, 26, 27, 30, 31, 32, 33, 40, 41, 50, 51, 52, 53, 54, 55,
    70, 71, 72, 73, 74, 75, 76, 77, 100, 101, 102, 103, 104, 105, 108, 109, 110, 111, 116, 117, 118, 119, 120, 121, 122, 123}

  lemma UnknownBody(variant: ReaddirDecoder, code: u8, b: seq<u8>)
    requires code !in TYPES
    ensures ReadBody(variant, code, b) == Err(InvalidType)
  {
    hide RStr, RData, RQid, REntries;
  }

  /** A message of any other type is refused as such, whatever it holds. */
  lemma UnknownType(variant: ReaddirDecoder, b: seq<u8>)
    requires |b| >= 3 && b[0] !in TYPES
    ensures Decode(variant, b) == Err(InvalidType)
  {
    UnknownBody(variant, b[0], b[3..]);
    HeaderBack(b);
    hide ReadBody;
  }

  // The layout of a request that names a file, and of one that moves data, field by field, as intro(5)
  // gives it.

  lemma HeaderLayout(m: Msg)
    ensures Encode(m) == [Code(m.body)] + LittleEndian(m.tag, 2) + WriteBody(m.body, [])
  {
    hide WriteBody, Code;
    var code := Code(m.body);
    assert LittleEndian(code, 1) == [code];
    hide LittleEndian;
  }

  /** The names one after another, each behind its length. */
  function LaidOut(names: seq<Utf8>): seq<u8> {
    if names == [] then [] else LittleEndian(|names[0]|, 2) + names[0] + LaidOut(names[1..])
  }

  lemma {:induction false} NamesLayout(names: seq<Utf8>)
    ensures WEach(WName, names, []) == LaidOut(names)
  {
    hide ValidUtf8, LittleEndian;
    if names != [] {
      NamesLayout(names[1..]);
    }
  }

  lemma WalkLayout(tag: u16, fid: u32, newfid: u32, names: seq<Utf8>)
    ensures Encode(Msg(tag, Twalk(fid, newfid, names)))
         == [110] + LittleEndian(tag, 2) + (LittleEndian(fid, 4) + LittleEndian(newfid, 4)
              + LittleEndian(|names|, 2) + LaidOut(names))
  {
    hide ValidUtf8, Encode, LittleEndian, LaidOut;
    var body := Twalk(fid, newfid, names);
    HeaderLayout(Msg(tag, body));
    WalkBody(fid, newfid, names);
    NamesLayout(names);
    hide Code, WriteBody;
  }

  lemma WalkBody(fid: u32, newfid: u32, names: seq<Utf8>)
    ensures var body := Twalk(fid, newfid, names);
            Code(body) == 110 && WriteBody(body, []) == W32(fid, W32(newfid, WVec(WName, names, [])))
  {
  }

  lemma WriteLayout(tag: u16, fid: u32, offset: u64, data: seq<u8>)
    ensures Encode(Msg(tag, Twrite(fid, offset, data)))
         == [118] + LittleEndian(tag, 2) + (LittleEndian(fid, 4) + LittleEndian(offset, 8)
              + LittleEndian(|data|, 4) + data)
  {
    hide Encode, LittleEndian;
    HeaderLayout(Msg(tag, Twrite(fid, offset, data)));
    WriteFields(fid, offset, data);
    InARow(LittleEndian(fid, 4), LittleEndian(offset, 8), LittleEndian(|data|, 4), data);
    hide Code, WriteBody;
  }

  lemma InARow(a: seq<u8>, b: seq<u8>, c: seq<u8>, d: seq<u8>)
    ensures a + (b + (c + (d + []))) == a + b + c + d
  {
    assert d + [] == d;
  }

  lemma WriteFields(fid: u32, offset: u64, data: seq<u8>)
    ensures var body := Twrite(fid, offset, data);
            Code(body) == 118
            && WriteBody(body, [])
                 == LittleEndian(fid, 4) + (LittleEndian(offset, 8) + (LittleEndian(|data|, 4) + (data + [])))
  {
    hide LittleEndian;
  }
}
