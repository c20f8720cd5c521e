/** The 9P2000.L messages: bodies, type codes, the fids they name and their wire sizes. */
module Fcalls {
  import opened Bytes
  import opened Wrappers

  const NOFID: u32 := 0xFFFF_FFFF

  // Flag sets hold known bits only. Every set of known bits is contiguous from bit zero, so
  // clearing the unknown bits of a number is taking its remainder by the bound below.
  const LOCK_TYPE_BOUND := 4
  const LOCK_FLAG_BOUND := 4
  const LOCK_STATUS_BOUND := 4
  const GETATTR_BOUND := 0x4000
  const SETATTR_BOUND := 0x200

  // The union of the named bits of each set.
  const LOCK_TYPE_BITS: bv8 := 0 | 1 | 2                       // RDLOCK, WRLOCK, UNLOCK
  const LOCK_FLAG_BITS: bv32 := 1 | 2                          // BLOCK, RECLAIM
  const LOCK_STATUS_BITS: bv8 := 0 | 1 | 2 | 3                 // SUCCESS, BLOCKED, ERROR, GRACE
  const GETATTR_BITS: bv64 :=
    0x1 | 0x2 | 0x4 | 0x8 | 0x10                               // MODE, NLINK, UID, GID, RDEV
    | 0x20 | 0x40 | 0x80 | 0x100 | 0x200 | 0x400               // ATIME, MTIME, CTIME, INO, SIZE, BLOCKS
    | 0x800 | 0x1000 | 0x2000 | 0x7FF | 0x3FFF                 // BTIME, GEN, DATA_VERSION, BASIC, ALL
  const SETATTR_BITS: bv32 :=
    0x1 | 0x2 | 0x4 | 0x8 | 0x10                               // MODE, UID, GID, SIZE, ATIME
    | 0x20 | 0x40 | 0x80 | 0x100                               // MTIME, CTIME, ATIME_SET, MTIME_SET
  const QID_TYPE_BITS: bv8 :=
    0x80 | 0x40 | 0x20 | 0x10                                  // DIR, APPEND, EXCL, MOUNT
    | 0x08 | 0x04 | 0x02 | 0x01 | 0x00                         // AUTH, TMP, SYMLINK, LINK, FILE

  const LOCK_MASK: nat := 3
  const GETATTR_MASK: nat := 0x3FFF
  const SETATTR_MASK: nat := 0x1FF
  const QID_TYPE_MASK: nat := 0xFF

  lemma MasksAreUnions()
    ensures LOCK_TYPE_BITS as nat == LOCK_FLAG_BITS as nat == LOCK_STATUS_BITS as nat == LOCK_MASK
    ensures GETATTR_BITS as nat == GETATTR_MASK && SETATTR_BITS as nat == SETATTR_MASK
    ensures QID_TYPE_BITS as nat == QID_TYPE_MASK
  {
  }

  type LockType = x: int | 0 <= x < LOCK_TYPE_BOUND
  type LockFlag = x: int | 0 <= x < LOCK_FLAG_BOUND
  type LockStatus = x: int | 0 <= x < LOCK_STATUS_BOUND
  type GetattrMask = x: int | 0 <= x < GETATTR_BOUND
  type SetattrMask = x: int | 0 <= x < SETATTR_BOUND

  datatype Qid = Qid(typ: u8, version: u32, path: u64)
  datatype Time = Time(sec: u64, nsec: u64)

  datatype Statfs = Statfs(
    typ: u32, bsize: u32, blocks: u64, bfree: u64, bavail: u64,
    files: u64, ffree: u64, fsid: u64, namelen: u32)

  datatype Stat = Stat(
    mode: u32, uid: u32, gid: u32, nlink: u64, rdev: u64, size: u64,
    blksize: u64, blocks: u64, atime: Time, mtime: Time, ctime: Time)

  datatype SetAttr = SetAttr(mode: u32, uid: u32, gid: u32, size: u64, atime: Time, mtime: Time)

  datatype Flock = Flock(
    typ: LockType, flags: LockFlag, start: u64, length: u64, procId: u32, clientId: Utf8)

  datatype Getlock = Getlock(typ: LockType, start: u64, length: u64, procId: u32, clientId: Utf8)

  datatype DirEntry = DirEntry(qid: Qid, offset: u64, typ: u8, name: Utf8)

  datatype Fcall =
    | Rlerror(ecode: u32)
    | Tstatfs(fid: u32)
    | Rstatfs(statfs: Statfs)
    | Tlopen(fid: u32, flags: u32)
    | Rlopen(qid: Qid, iounit: u32)
    | Tlcreate(fid: u32, name: Utf8, flags: u32, mode: u32, gid: u32)
    | Rlcreate(qid: Qid, iounit: u32)
    | Tsymlink(fid: u32, name: Utf8, symtgt: Utf8, gid: u32)
    | Rsymlink(qid: Qid)
    | Tmknod(dfid: u32, name: Utf8, mode: u32, major: u32, minor: u32, gid: u32)
    | Rmknod(qid: Qid)
    | Trename(fid: u32, dfid: u32, name: Utf8)
    | Rrename
    | Treadlink(fid: u32)
    | Rreadlink(target: Utf8)
    | Tgetattr(fid: u32, reqMask: GetattrMask)
    | Rgetattr(valid: GetattrMask, qid: Qid, stat: Stat)
    | Tsetattr(fid: u32, setValid: SetattrMask, setAttr: SetAttr)
    | Rsetattr
    | Txattrwalk(fid: u32, newfid: u32, name: Utf8)
    | Rxattrwalk(size: u64)
    | Txattrcreate(fid: u32, name: Utf8, attrSize: u64, flags: u32)
    | Rxattrcreate
    | Treaddir(fid: u32, offset: u64, count: u32)
    | Rreaddir(entries: seq<DirEntry>)
    | Tfsync(fid: u32)
    | Rfsync
    | Tlock(fid: u32, flock: Flock)
    | Rlock(status: LockStatus)
    | Tgetlock(fid: u32, getlock: Getlock)
    | Rgetlock(getlock: Getlock)
    | Tlink(dfid: u32, fid: u32, name: Utf8)
    | Rlink
    | Tmkdir(dfid: u32, name: Utf8, mode: u32, gid: u32)
    | Rmkdir(qid: Qid)
    | Trenameat(olddirfid: u32, oldname: Utf8, newdirfid: u32, newname: Utf8)
    | Rrenameat
    | Tunlinkat(dirfd: u32, name: Utf8, flags: u32)
    | Runlinkat
    | Tauth(afid: u32, uname: Utf8, aname: Utf8, nUname: u32)
    | Rauth(aqid: Qid)
    | Tattach(fid: u32, afid: u32, uname: Utf8, aname: Utf8, nUname: u32)
    | Rattach(qid: Qid)
    | Tversion(msize: u32, version: Utf8)
    | Rversion(msize: u32, version: Utf8)
    | Tflush(oldtag: u16)
    | Rflush
    | Twalk(fid: u32, newfid: u32, wnames: seq<Utf8>)
    | Rwalk(wqids: seq<Qid>)
    | Tread(fid: u32, offset: u64, count: u32)
    | Rread(data: seq<u8>)
    | Twrite(fid: u32, offset: u64, data: seq<u8>)
    | Rwrite(count: u32)
    | Tclunk(fid: u32)
    | Rclunk
    | Tremove(fid: u32)
    | Rremove

  datatype Msg = Msg(tag: u16, body: Fcall)

  /** The message type number. */
  function Code(body: Fcall): u8 {
    match body
    case Rlerror(_) => 7
    case Tstatfs(_) => 8
    case Rstatfs(_) => 9
    case Tlopen(_, _) => 12
    case Rlopen(_, _) => 13
    case Tlcreate(_, _, _, _, _) => 14
    case Rlcreate(_, _) => 15
    case Tsymlink(_, _, _, _) => 16
    case Rsymlink(_) => 17
    case Tmknod(_, _, _, _, _, _) => 18
    case Rmknod(_) => 19
    case Trename(_, _, _) => 20
    case Rrename => 21
    case Treadlink(_) => 22
    case Rreadlink(_) => 23
    case Tgetattr(_, _) => 24
    case Rgetattr(_, _, _) => 25
    case Tsetattr(_, _, _) => 26
    case Rsetattr => 27
    case Txattrwalk(_, _, _) => 30
    case Rxattrwalk(_) => 31
    case Txattrcreate(_, _, _, _) => 32
    case Rxattrcreate => 33
    case Treaddir(_, _, _) => 40
    case Rreaddir(_) => 41
    case Tfsync(_) => 50
    case Rfsync => 51
    case Tlock(_, _) => 52
    case Rlock(_) => 53
    case Tgetlock(_, _) => 54
    case Rgetlock(_) => 55
    case Tlink(_, _, _) => 70
    case Rlink => 71
    case Tmkdir(_, _, _, _) => 72
    case Rmkdir(_) => 73
    case Trenameat(_, _, _, _) => 74
    case Rrenameat => 75
    case Tunlinkat(_, _, _) => 76
    case Runlinkat => 77
    case Tversion(_, _) => 100
    case Rversion(_, _) => 101
    case Tauth(_, _, _, _) => 102
    case Rauth(_) => 103
    case Tattach(_, _, _, _, _) => 104
    case Rattach(_) => 105
    case Tflush(_) => 108
    case Rflush => 109
    case Twalk(_, _, _) => 110
    case Rwalk(_) => 111
    case Tread(_, _, _) => 116
    case Rread(_) => 117
    case Twrite(_, _, _) => 118
    case Rwrite(_) => 119
    case Tclunk(_) => 120
    case Rclunk => 121
    case Tremove(_) => 122
    case Rremove => 123
  }

  /** Whether the message is a reply. */
  predicate IsR(body: Fcall) {
    body.Rlerror? || body.Rstatfs? || body.Rlopen? || body.Rlcreate? || body.Rsymlink?
    || body.Rmknod? || body.Rrename? || body.Rreadlink? || body.Rgetattr? || body.Rsetattr?
    || body.Rxattrwalk? || body.Rxattrcreate? || body.Rreaddir? || body.Rfsync? || body.Rlock?
    || body.Rgetlock? || body.Rlink? || body.Rmkdir? || body.Rrenameat? || body.Runlinkat?
    || body.Rversion? || body.Rauth? || body.Rattach? || body.Rflush? || body.Rwalk?
    || body.Rread? || body.Rwrite? || body.Rclunk? || body.Rremove?
  }

  /** Replies have the odd codes. */
  lemma RepliesAreOdd(body: Fcall)
    ensures IsR(body) <==> Code(body) % 2 == 1
  {
    if IsR(body) { RepliesOnly(body); } else { RequestsOnly(body); }
    hide IsR, Code;
  }

  lemma RepliesOnly(body: Fcall)
    requires IsR(body)
    ensures Code(body) % 2 == 1
  {
  }

  lemma RequestsOnly(body: Fcall)
    requires !IsR(body)
    ensures Code(body) % 2 == 0
  {
  }

  /** The fids that a message names. */
  function Fids(body: Fcall): seq<u32> {
    match body
    case Tstatfs(fid) => [fid]
    case Tlopen(fid, _) => [fid]
    case Tlcreate(fid, _, _, _, _) => [fid]
    case Tsymlink(fid, _, _, _) => [fid]
    case Tmknod(dfid, _, _, _, _, _) => [dfid]
    case Trename(fid, dfid, _) => [fid, dfid]
    case Treadlink(fid) => [fid]
    case Tgetattr(fid, _) => [fid]
    case Tsetattr(fid, _, _) => [fid]
    case Txattrwalk(fid, _, _) => [fid]
    case Txattrcreate(fid, _, _, _) => [fid]
    case Treaddir(fid, _, _) => [fid]
    case Tfsync(fid) => [fid]
    case Tlock(fid, _) => [fid]
    case Tgetlock(fid, _) => [fid]
    case Tlink(dfid, fid, _) => [dfid, fid]
    case Tmkdir(dfid, _, _, _) => [dfid]
    case Trenameat(olddirfid, _, newdirfid, _) => [olddirfid, newdirfid]
    case Tunlinkat(dirfd, _, _) => [dirfd]
    case Tattach(_, afid, _, _, _) => if afid != NOFID then [afid] else []
    case Twalk(fid, _, _) => [fid]
    case Tread(fid, _, _) => [fid]
    case Twrite(fid, _, _) => [fid]
    case Tclunk(fid) => [fid]
    case Tremove(fid) => [fid]
    case _ => []
  }

  /** The fid that a message asks the server to bind. */
  function NewFid(body: Fcall): Option<u32> {
    match body
    case Txattrwalk(_, newfid, _) => Some(newfid)
    case Tauth(afid, _, _, _) => Some(afid)
    case Tattach(fid, _, _, _, _) => Some(fid)
    case Twalk(_, newfid, _) => Some(newfid)
    case _ => None
  }

  const QID_SIZE := 13

  /** The encoded size of a directory entry, cast to `u32` at the end. */
  function EntrySize(e: DirEntry): u32 {
    (QID_SIZE + 8 + 1 + 2 + |e.name|) % 0x1_0000_0000
  }

  /** The encoded size of a list of entries: a fold of wrapping `u32` additions. */
  function EntriesSize(entries: seq<DirEntry>): u32 {
    if entries == [] then 0
    else (EntriesSize(entries[..|entries| - 1]) + EntrySize(entries[|entries| - 1])) % 0x1_0000_0000
  }
}
