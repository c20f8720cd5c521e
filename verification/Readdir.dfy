/** Directory listings: one Treaddir, and a client that pages through a directory with them. */
module Readdir {
  import opened Bytes
  import opened Fcalls
  import opened Wire
  import opened CodecLaws

  datatype Item = Item(qid: Qid, name: Utf8)

  /** What the file system says about a directory while it is being listed. The qids of "." and ".."
      are looked up by those names. */
  datatype Directory = Directory(dot: Qid, dotdot: Qid, items: seq<Item>)

  /** Offsets are `u64`. */
  predicate Proper(dir: Directory) {
    |dir.items| + 2 < 0x1_0000_0000_0000_0000
  }

  const DOT: seq<u8> := [0x2E]
  const DOTDOT: seq<u8> := [0x2E, 0x2E]

  function Dots(dir: Directory): (entries: seq<DirEntry>)
    ensures |entries| == 2
  {
    [DirEntry(dir.dot, 0, 0, DOT), DirEntry(dir.dotdot, 1, 0, DOTDOT)]
  }

  function EntryOf(dir: Directory, i: nat): DirEntry
    requires Proper(dir) && i < |dir.items|
  {
    DirEntry(dir.items[i].qid, 2 + i, 0, dir.items[i].name)
  }

  function Add32(x: u32, y: u32): u32 {
    (x + y) % 0x1_0000_0000
  }

  /** The entries from the `i`-th on that are pushed behind `used` bytes of others. */
  function Fill(dir: Directory, i: nat, used: u32, count: u32): seq<DirEntry>
    requires Proper(dir)
    decreases |dir.items| - i
  {
    if i >= |dir.items| then []
    else
      var e := EntryOf(dir, i);
      if Add32(used, EntrySize(e)) > count then []
      else [e] + Fill(dir, i + 1, Add32(used, EntrySize(e)), count)
  }

  /** The entries of the reply to one Treaddir. */
  function Page(dir: Directory, off: u64, count: u32): seq<DirEntry>
    requires Proper(dir)
  {
    if off == 0 then Dots(dir) + Fill(dir, 0, 51, count)
    else Fill(dir, off - 1, 0, count)
  }

  lemma SizePush(entries: seq<DirEntry>, e: DirEntry)
    ensures EntriesSize(entries + [e]) == Add32(EntriesSize(entries), EntrySize(e))
  {
    assert (entries + [e])[..|entries|] == entries;
  }

  /** One Treaddir. */
  method Rreaddir(dir: Directory, off: u64, count: u32) returns (dirents: seq<DirEntry>)
    requires Proper(dir)
    ensures dirents == Page(dir, off, count)
  {
    hide EntriesSize, EntrySize;
    dirents := [];
    var offset: nat;
    if off == 0 {
      dirents := dirents + [DirEntry(dir.dot, 0, 0, DOT)];
      dirents := dirents + [DirEntry(dir.dotdot, 1, 0, DOTDOT)];
      offset := off;
      assert dirents == Dots(dir);
      DotsSize(dir);
    } else {
      offset := off - 1;
      NoSize();
    }
    var i := offset;
    while i < |dir.items|
      invariant offset <= i
      invariant dirents + Fill(dir, i, EntriesSize(dirents), count) == Page(dir, off, count)
    {
      var dirent := EntryOf(dir, i);
      if Add32(EntriesSize(dirents), EntrySize(dirent)) > count {
        break;
      }
      SizePush(dirents, dirent);
      assert dirents + Fill(dir, i, EntriesSize(dirents), count)
          == dirents + [dirent] + Fill(dir, i + 1, EntriesSize(dirents + [dirent]), count);
      dirents := dirents + [dirent];
      i := i + 1;
    }
  }

  lemma NoSize()
    ensures EntriesSize([]) == 0
  {
  }

  lemma DotsSize(dir: Directory)
    ensures EntriesSize(Dots(dir)) == 51
  {
    var dots := Dots(dir);
    assert [] + [dots[0]] == [dots[0]];
    assert [dots[0]] + [dots[1]] == dots;
    SizePush([], dots[0]);
    SizePush([dots[0]], dots[1]);
  }

  // ------------------------------------------------------------------- paging

  /** The exact size of an entry on the wire. */
  function ItemSize(item: Item): nat {
    24 + |item.name|
  }

  /** The names can be sent. */
  predicate ShortNames(dir: Directory) {
    forall i :: 0 <= i < |dir.items| ==> Short(dir.items[i].name)
  }

  lemma {:induction false} FillIsARun(dir: Directory, i: nat, used: u32, count: u32)
    requires Proper(dir)
    ensures var run := Fill(dir, i, used, count);
            (run == [] || i + |run| <= |dir.items|)
            && forall k :: 0 <= k < |run| ==> run[k] == EntryOf(dir, i + k)
    decreases |dir.items| - i
  {
    if Fill(dir, i, used, count) != [] {
      FillIsARun(dir, i + 1, Add32(used, EntrySize(EntryOf(dir, i))), count);
    }
  }

  /** The index of the first entry that the reply to a Treaddir can hold. */
  function FirstOf(off: u64): nat {
    if off == 0 then 0 else off - 1
  }

  /** The offset of the last entry of a page, with which the client asks for the next one. */
  function NextOffset(dir: Directory, off: u64, count: u32): (next: u64)
    requires Proper(dir) && Page(dir, off, count) != []
    ensures off < next <= |dir.items| + 1
    ensures next == FirstOf(off) + |Page(dir, off, count)| - (if off == 0 then 1 else -1)
  {
    FillIsARun(dir, FirstOf(off), if off == 0 then 51 else 0, count);
    var page := Page(dir, off, count);
    page[|page| - 1].offset
  }

  /** All that a client gets who starts at offset `off` and passes back the last offset it got until
      it gets an empty reply. */
  function Listing(dir: Directory, off: u64, count: u32): seq<DirEntry>
    requires Proper(dir)
    decreases |dir.items| + 2 - off
  {
    var page := Page(dir, off, count);
    if page == [] then [] else page + Listing(dir, NextOffset(dir, off, count), count)
  }

  /** The number of requests it makes. */
  function Calls(dir: Directory, off: u64, count: u32): nat
    requires Proper(dir)
    decreases |dir.items| + 2 - off
  {
    if Page(dir, off, count) == [] then 1 else 1 + Calls(dir, NextOffset(dir, off, count), count)
  }

  lemma {:induction false} FewCalls(dir: Directory, off: u64, count: u32)
    requires Proper(dir)
    ensures Calls(dir, off, count) <= if off <= |dir.items| + 1 then |dir.items| + 2 - off else 1
    decreases |dir.items| + 2 - off
  {
    hide Page, NextOffset;
    if Page(dir, off, count) != [] {
      FewCalls(dir, NextOffset(dir, off, count), count);
    }
  }

  /** The entries from the `i`-th on, up to the first that does not fit in a reply by itself. */
  function Fitting(dir: Directory, i: nat, count: u32): seq<DirEntry>
    requires Proper(dir)
    decreases |dir.items| - i
  {
    if i >= |dir.items| || ItemSize(dir.items[i]) > count then []
    else [EntryOf(dir, i)] + Fitting(dir, i + 1, count)
  }

  lemma {:induction false} FittingIsARun(dir: Directory, i: nat, count: u32)
    requires Proper(dir)
    ensures var run := Fitting(dir, i, count);
      && (run == [] || i + |run| <= |dir.items|)
      && (forall k :: 0 <= k < |run| ==> run[k] == EntryOf(dir, i + k) && ItemSize(dir.items[i + k]) <= count)
      && (i + |run| < |dir.items| ==> ItemSize(dir.items[i + |run|]) > count)
    decreases |dir.items| - i
  {
    if Fitting(dir, i, count) != [] {
      FittingIsARun(dir, i + 1, count);
      var (run, tail) := (Fitting(dir, i, count), Fitting(dir, i + 1, count));
      assert run == [EntryOf(dir, i)] + tail && ItemSize(dir.items[i]) <= count;
      hide Fitting, ItemSize, EntryOf;
      forall k | 0 <= k < |run| ensures run[k] == EntryOf(dir, i + k) && ItemSize(dir.items[i + k]) <= count {
        if k > 0 {
          assert run[k] == tail[k - 1] && i + 1 + (k - 1) == i + k;
        }
      }
    }
  }

  /** Sizes are small enough for a pushed entry to fit even when the sum wraps around. */
  lemma PushedFits(dir: Directory, i: nat, used: u32, count: u32)
    requires Proper(dir) && ShortNames(dir) && i < |dir.items| && (used <= count || used == 51)
    ensures var size := EntrySize(EntryOf(dir, i));
      && size == ItemSize(dir.items[i])
      && (Add32(used, size) <= count ==> size <= count)
      && (used == 0 ==> Add32(used, size) == size)
  {
    assert Short(dir.items[i].name);
  }

  lemma Unfold(dir: Directory, i: nat, used: u32, count: u32)
    requires Proper(dir) && ShortNames(dir) && (used <= count || used == 51)
    ensures i >= |dir.items| ==> Fill(dir, i, used, count) == [] == Fitting(dir, i, count)
    ensures i < |dir.items| ==>
      var e := EntryOf(dir, i);
      var sum := Add32(used, EntrySize(e));
      && (sum > count ==> Fill(dir, i, used, count) == [])
      && (sum > count && used == 0 ==> Fitting(dir, i, count) == [])
      && (sum <= count ==> Fill(dir, i, used, count) == [e] + Fill(dir, i + 1, sum, count))
      && (sum <= count ==> Fitting(dir, i, count) == [e] + Fitting(dir, i + 1, count))
  {
    if i < |dir.items| { PushedFits(dir, i, used, count); }
  }

  /** A page takes away entries from the front of those that fit, and at least one. */
  lemma {:induction false} FillThenFitting(dir: Directory, i: nat, used: u32, count: u32)
    requires Proper(dir) && ShortNames(dir) && (used <= count || used == 51)
    ensures var run := Fill(dir, i, used, count);
            Fitting(dir, i, count) == run + Fitting(dir, i + |run|, count)
    ensures used == 0 && Fill(dir, i, used, count) == [] ==> Fitting(dir, i, count) == []
    decreases |dir.items| - i
  {
    Unfold(dir, i, used, count);
    hide Fill, Fitting, ShortNames, EntrySize, Add32, ValidUtf8;
    if i < |dir.items| && Add32(used, EntrySize(EntryOf(dir, i))) <= count {
      FillThenFitting(dir, i + 1, Add32(used, EntrySize(EntryOf(dir, i))), count);
    }
  }

  lemma {:induction false} ListingIsFitting(dir: Directory, off: u64, count: u32)
    requires Proper(dir) && ShortNames(dir)
    ensures Listing(dir, off, count) == (if off == 0 then Dots(dir) else []) + Fitting(dir, FirstOf(off), count)
    decreases |dir.items| + 2 - off
  {
    hide Fitting, Fill, NextOffset, ShortNames, ValidUtf8, Utf8Head;
    FillThenFitting(dir, FirstOf(off), if off == 0 then 51 else 0, count);
    if Page(dir, off, count) != [] {
      var next := NextOffset(dir, off, count);
      ListingIsFitting(dir, next, count);
      assert Listing(dir, off, count) == Page(dir, off, count) + Listing(dir, next, count);
    }
  }

  /** The listing is the dots and a run of entries. */
  lemma ListingIsARun(dir: Directory, count: u32)
    requires Proper(dir) && ShortNames(dir)
    ensures var got := Listing(dir, 0, count);
      && 2 <= |got| <= |dir.items| + 2 && got[..2] == Dots(dir)
      && (forall k :: 2 <= k < |got| ==> got[k] == EntryOf(dir, k - 2) && ItemSize(dir.items[k - 2]) <= count)
      && (|got| < |dir.items| + 2 ==> ItemSize(dir.items[|got| - 2]) > count)
  {
    hide Fitting, Fill, Listing, Dots, Proper, ShortNames, ValidUtf8, ItemSize, EntryOf;
    ListingIsFitting(dir, 0, count);
    FittingIsARun(dir, 0, count);
    var (got, run) := (Listing(dir, 0, count), Fitting(dir, 0, count));
    forall k | 2 <= k < |got| ensures got[k] == EntryOf(dir, k - 2) && ItemSize(dir.items[k - 2]) <= count {
      assert run[k - 2] == EntryOf(dir, 0 + (k - 2));
    }
  }

  /** Exactly once: a client that starts at offset 0 gets ".", "..", then the entries in order, with
      offsets 0, 1, 2, ..., up to the first one that is larger than `count`; it gets all of them if and
      only if none is; and it makes at most as many requests as there are entries, and two. */
  lemma ReaddirExactlyOnce(dir: Directory, count: u32)
    requires Proper(dir) && ShortNames(dir)
    ensures var got := Listing(dir, 0, count);
      && 2 <= |got| <= |dir.items| + 2 && got[0].name == [0x2E] && got[1].name == [0x2E, 0x2E]
      && got[0].qid == dir.dot && got[1].qid == dir.dotdot
      && (forall k :: 0 <= k < |got| ==> got[k].offset == k && got[k].typ == 0)
      && (forall k :: 2 <= k < |got| ==>
            got[k].qid == dir.items[k - 2].qid && got[k].name == dir.items[k - 2].name)
      && (|got| < |dir.items| + 2 ==> ItemSize(dir.items[|got| - 2]) > count)
      && (|got| == |dir.items| + 2 <==> forall i :: 0 <= i < |dir.items| ==> ItemSize(dir.items[i]) <= count)
    ensures Calls(dir, 0, count) <= |dir.items| + 2
  {
    hide Fitting, Fill, Listing, Calls, ShortNames, ValidUtf8, ItemSize;
    ListingIsARun(dir, count);
    FewCalls(dir, 0, count);
    var got := Listing(dir, 0, count);
    assert got[0] == got[..2][0] && got[1] == got[..2][1];
    forall k | 0 <= k < |got| ensures got[k].offset == k && got[k].typ == 0 {
      assert k >= 2 ==> got[k] == EntryOf(dir, k - 2);
    }
    if |got| == |dir.items| + 2 {
      forall i | 0 <= i < |dir.items| ensures ItemSize(dir.items[i]) <= count {
        assert got[i + 2] == EntryOf(dir, i + 2 - 2);
      }
    }
  }

  // ------------------------------------------------------------------- sizes

  /** The first sum that is over `count`, if there is one, is under 2^32. */
  predicate NoWrap(dir: Directory, i: nat, used: nat, count: u32)
    decreases |dir.items| - i
  {
    i >= |dir.items|
    || (var sum := used + ItemSize(dir.items[i]);
        if sum <= count then NoWrap(dir, i + 1, sum, count) else sum < 0x1_0000_0000)
  }

  lemma TotalPush(entries: seq<DirEntry>, e: DirEntry)
    ensures TotalSize([e] + entries) == 24 + |e.name| + TotalSize(entries)
  {
    var both := [e] + entries;
    if entries != [] {
      assert both[..|both| - 1] == [e] + entries[..|entries| - 1];
      TotalPush(entries[..|entries| - 1], e);
    }
  }

  lemma WrappedSum(used: u32, size: nat, count: u32)
    requires size < 0x2_0000 && (used <= count || used == 51)
    ensures used + size < 0x1_0000_0000 ==> Add32(used, size) == used + size
    ensures used + size >= 0x1_0000_0000 ==> Add32(used, size) <= count
  {
  }

  lemma SizeOfItem(dir: Directory, i: nat)
    requires Proper(dir) && ShortNames(dir) && i < |dir.items|
    ensures var (e, size) := (EntryOf(dir, i), ItemSize(dir.items[i]));
            EntrySize(e) == size == 24 + |e.name| && size < 0x2_0000
  {
    assert Short(dir.items[i].name);
    hide ValidUtf8;
  }

  lemma OneStep(dir: Directory, i: nat, used: u32, count: u32)
    requires Proper(dir) && ShortNames(dir) && i < |dir.items| && (used <= count || used == 51)
    ensures var (e, size) := (EntryOf(dir, i), ItemSize(dir.items[i]));
      && size < 0x2_0000 && 24 + |e.name| == size
      && (used + size <= count ==> Fill(dir, i, used, count) == [e] + Fill(dir, i + 1, used + size, count))
      && (count < used + size < 0x1_0000_0000 ==> Fill(dir, i, used, count) == [])
      && (count < used + size && used + size >= 0x1_0000_0000 ==> Fill(dir, i, used, count) != [])
      && (Fill(dir, i, used, count) != [] ==> Fill(dir, i, used, count)[0] == e)
  {
    SizeOfItem(dir, i);
    WrappedSum(used, ItemSize(dir.items[i]), count);
    hide Add32, EntrySize, EntryOf, ItemSize, ShortNames, ValidUtf8;
  }

  lemma TotalOfFirst(entries: seq<DirEntry>)
    ensures entries != [] ==> TotalSize(entries) >= 24 + |entries[0].name|
  {
    if entries != [] {
      assert [entries[0]] + entries[1..] == entries;
      TotalPush(entries[1..], entries[0]);
    }
  }

  lemma {:induction false} FillSize(dir: Directory, i: nat, used: u32, count: u32)
    requires Proper(dir) && ShortNames(dir) && (used <= count || used == 51)
    ensures Fill(dir, i, used, count) == [] || used + TotalSize(Fill(dir, i, used, count)) <= count
       <==> NoWrap(dir, i, used, count)
    decreases |dir.items| - i
  {
    hide TotalSize, ValidUtf8, ShortNames, ItemSize, EntrySize, EntryOf, Add32;
    if i < |dir.items| {
      OneStep(dir, i, used, count);
      var (e, sum) := (EntryOf(dir, i), used + ItemSize(dir.items[i]));
      TotalOfFirst(Fill(dir, i, used, count));
      hide Fill, Proper;
      if sum <= count {
        FillSize(dir, i + 1, sum, count);
        TotalPush(Fill(dir, i + 1, sum, count), e);
        Nothing();
      }
    }
  }

  lemma Nothing()
    ensures TotalSize([]) == 0
  {
  }

  /** At offset 0 with a `count` under 51 the payload is exactly the 51 bytes of the two dots. */
  lemma DotsAlone(dir: Directory, count: u32)
    requires Proper(dir) && ShortNames(dir) && count < 51
    ensures Page(dir, 0, count) == Dots(dir) && |WEach(WEntry, Page(dir, 0, count), [])| == 51
  {
    if dir.items != [] { OneStep(dir, 0, 51, count); }
    EntriesLength(Dots(dir), []);
    TotalPush([], Dots(dir)[1]);
    TotalPush([Dots(dir)[1]], Dots(dir)[0]);
    assert [Dots(dir)[0]] + [Dots(dir)[1]] == Dots(dir) && [Dots(dir)[1]] + [] == [Dots(dir)[1]];
    hide WEntry;
  }

  /** Otherwise the payload has at most `count` bytes if and only if the sum does not wrap around before
      it gets over `count`. */
  lemma PageSize(dir: Directory, off: u64, count: u32)
    requires Proper(dir) && ShortNames(dir) && (off == 0 ==> count >= 51)
    ensures |WEach(WEntry, Page(dir, off, count), [])| <= count
       <==> NoWrap(dir, FirstOf(off), if off == 0 then 51 else 0, count)
  {
    hide WEntry, NoWrap, ValidUtf8, ShortNames, TotalSize, Fill, ItemSize;
    var page := Page(dir, off, count);
    EntriesLength(page, []);
    Nothing();
    FillSize(dir, FirstOf(off), if off == 0 then 51 else 0, count);
    if off == 0 {
      var (dots, run) := (Dots(dir), Fill(dir, 0, 51, count));
      TotalPush(run, dots[1]);
      TotalPush([dots[1]] + run, dots[0]);
      assert page == [dots[0]] + ([dots[1]] + run);
    }
  }

  lemma {:induction false} FillIsFull(dir: Directory, i: nat, used: u32, count: u32)
    requires Proper(dir) && ShortNames(dir) && (used <= count || used == 51)
    requires NoWrap(dir, i, used, count)
    ensures var (run, next) := (Fill(dir, i, used, count), i + |Fill(dir, i, used, count)|);
            next < |dir.items| ==> used + TotalSize(run) + ItemSize(dir.items[next]) > count
    decreases |dir.items| - i
  {
    hide TotalSize, ValidUtf8, ShortNames, ItemSize, EntrySize, EntryOf, Add32;
    Nothing();
    if i < |dir.items| {
      OneStep(dir, i, used, count);
      var (e, sum) := (EntryOf(dir, i), used + ItemSize(dir.items[i]));
      hide Fill, Proper;
      if sum <= count {
        FillIsFull(dir, i + 1, sum, count);
        TotalPush(Fill(dir, i + 1, sum, count), e);
      }
    }
  }

  /** And then no page stops early: it ends with the directory, or where the next entry is too much. */
  lemma PageIsFull(dir: Directory, off: u64, count: u32)
    requires Proper(dir) && ShortNames(dir) && (off == 0 ==> count >= 51)
    requires NoWrap(dir, FirstOf(off), if off == 0 then 51 else 0, count)
    ensures var page := Page(dir, off, count);
            var next := FirstOf(off) + |page| - if off == 0 then 2 else 0;
            next < |dir.items| ==> |WEach(WEntry, page, [])| + ItemSize(dir.items[next]) > count
  {
    hide WEntry, NoWrap, ValidUtf8, ShortNames, TotalSize, Fill, ItemSize;
    var page := Page(dir, off, count);
    EntriesLength(page, []);
    FillIsFull(dir, FirstOf(off), if off == 0 then 51 else 0, count);
    if off == 0 {
      var (dots, run) := (Dots(dir), Fill(dir, 0, 51, count));
      TotalPush(run, dots[1]);
      TotalPush([dots[1]] + run, dots[0]);
      assert page == [dots[0]] + ([dots[1]] + run);
    }
  }

  /** It never does for a `count` that leaves room for one more entry under 2^32. */
  lemma {:induction false} RoomForOneMore(dir: Directory, i: nat, used: nat, count: u32)
    requires (used <= count || used == 51) && forall k :: 0 <= k < |dir.items| ==>
               count + 51 + ItemSize(dir.items[k]) < 0x1_0000_0000
    ensures NoWrap(dir, i, used, count)
    decreases |dir.items| - i
  {
    if i < |dir.items| && used + ItemSize(dir.items[i]) <= count {
      RoomForOneMore(dir, i + 1, used + ItemSize(dir.items[i]), count);
    }
  }

  // A directory whose listing wraps around: 65,514 names of 65,535 letters, and the largest count.

  function Letters(n: nat): seq<u8> {
    seq(n, _ => 0x61)
  }

  lemma {:induction false} LettersAreUtf8(n: nat)
    ensures ValidUtf8(Letters(n))
  {
    if n != 0 {
      LettersAreUtf8(n - 1);
      assert Letters(n)[1..] == Letters(n - 1);
    }
  }

  lemma {:induction false} LongNamesWrap(dir: Directory, i: nat)
    requires |dir.items| == 65514 && i <= 65513
    requires forall k :: 0 <= k < |dir.items| ==> ItemSize(dir.items[k]) == 65559
    ensures !NoWrap(dir, i, 65559 * i, 0xFFFF_FFFF)
    decreases 65513 - i
  {
    if i < 65513 {
      LongNamesWrap(dir, i + 1);
    }
  }

  /** So it can happen: this reply has more than 2^32 - 1 bytes. */
  lemma PageTooLarge(q: Qid)
    ensures ValidUtf8(Letters(65535))
    ensures var dir := Directory(q, q, seq(65514, _ => Item(q, Letters(65535))));
      Proper(dir) && ShortNames(dir) && |WEach(WEntry, Page(dir, 1, 0xFFFF_FFFF), [])| > 0xFFFF_FFFF
  {
    LettersAreUtf8(65535);
    var dir := Directory(q, q, seq(65514, _ => Item(q, Letters(65535))));
    LongNamesWrap(dir, 0);
    hide WEntry, Letters, ValidUtf8, NoWrap, Page;
    PageSize(dir, 1, 0xFFFF_FFFF);
  }
}
