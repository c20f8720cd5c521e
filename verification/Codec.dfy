/** Messages: what they are written as, how they are read, and that the two are inverse. */
module Codec {
  import opened Bytes
  import opened Wrappers
  import opened Fcalls
  import opened Wire
  import opened WireLaws

  /** The 32 reserved bytes at the end of an Rgetattr: birth time, generation and data version. */
  function WReserved(rest: seq<u8>): seq<u8> {
    W64(0, W64(0, W64(0, W64(0, rest))))
  }

  function RReserved(b: seq<u8>): Read<()> {
    var (_, b) :- RTime(b);
    var (_, b) :- R64(b);
    var (_, b) :- R64(b);
    Ok(((), b))
  }

  function WName(s: Utf8, rest: seq<u8>): seq<u8> { WStr(s, rest) }

  // Types 7 to 15: errors, statfs, open and create.

  function WriteOpen(body: Fcall, rest: seq<u8>): seq<u8> {
    match body
    case Rlerror(ecode) => W32(ecode, rest)
    case Tstatfs(fid) => W32(fid, rest)
    case Rstatfs(statfs) => WStatfs(statfs, rest)
    case Tlopen(fid, flags) => W32(fid, W32(flags, rest))
    case Rlopen(qid, iounit) => WQid(qid, W32(iounit, rest))
    case Tlcreate(fid, name, flags, mode, gid) => W32(fid, WStr(name, W32(flags, W32(mode, W32(gid, rest)))))
    case Rlcreate(qid, iounit) => WQid(qid, W32(iounit, rest))
    case _ => rest
  }

  function ReadOpen(code: u8, b: seq<u8>): Read<Fcall> {
    match code
    case 7 =>
      var (ecode, b) :- R32(b);
      Ok((Rlerror(ecode), b))
    case 8 =>
      var (fid, b) :- R32(b);
      Ok((Tstatfs(fid), b))
    case 9 =>
      var (statfs, b) :- RStatfs(b);
      Ok((Rstatfs(statfs), b))
    case 12 =>
      var (fid, b) :- R32(b);
      var (flags, b) :- R32(b);
      Ok((Tlopen(fid, flags), b))
    case 13 =>
      var (qid, b) :- RQid(b);
      var (iounit, b) :- R32(b);
      Ok((Rlopen(qid, iounit), b))
    case 14 =>
      var (fid, b) :- R32(b);
      var (name, b) :- RStr(b);
      var (flags, b) :- R32(b);
      var (mode, b) :- R32(b);
      var (gid, b) :- R32(b);
      Ok((Tlcreate(fid, name, flags, mode, gid), b))
    case 15 =>
      var (qid, b) :- RQid(b);
      var (iounit, b) :- R32(b);
      Ok((Rlcreate(qid, iounit), b))
    case _ => Err(InvalidType)
  }

  // Types 16 to 23: symlink, mknod, rename and readlink.

  function WriteNode(body: Fcall, rest: seq<u8>): seq<u8> {
    match body
    case Tsymlink(fid, name, symtgt, gid) => W32(fid, WStr(name, WStr(symtgt, W32(gid, rest))))
    case Rsymlink(qid) => WQid(qid, rest)
    case Tmknod(dfid, name, mode, major, minor, gid) =>
      W32(dfid, WStr(name, W32(mode, W32(major, W32(minor, W32(gid, rest))))))
    case Rmknod(qid) => WQid(qid, rest)
    case Trename(fid, dfid, name) => W32(fid, W32(dfid, WStr(name, rest)))
    case Rrename => rest
    case Treadlink(fid) => W32(fid, rest)
    case Rreadlink(target) => WStr(target, rest)
    case _ => rest
  }

  function ReadNode(code: u8, b: seq<u8>): Read<Fcall> {
    match code
    case 16 =>
      var (fid, b) :- R32(b);
      var (name, b) :- RStr(b);
      var (symtgt, b) :- RStr(b);
      var (gid, b) :- R32(b);
      Ok((Tsymlink(fid, name, symtgt, gid), b))
    case 17 =>
      var (qid, b) :- RQid(b);
      Ok((Rsymlink(qid), b))
    case 18 =>
      var (dfid, b) :- R32(b);
      var (name, b) :- RStr(b);
      var (mode, b) :- R32(b);
      var (major, b) :- R32(b);
      var (minor, b) :- R32(b);
      var (gid, b) :- R32(b);
      Ok((Tmknod(dfid, name, mode, major, minor, gid), b))
    case 19 =>
      var (qid, b) :- RQid(b);
      Ok((Rmknod(qid), b))
    case 20 =>
      var (fid, b) :- R32(b);
      var (dfid, b) :- R32(b);
      var (name, b) :- RStr(b);
      Ok((Trename(fid, dfid, name), b))
    case 21 => Ok((Rrename, b))
    case 22 =>
      var (fid, b) :- R32(b);
      Ok((Treadlink(fid), b))
    case 23 =>
      var (target, b) :- RStr(b);
      Ok((Rreadlink(target), b))
    case _ => Err(InvalidType)
  }

  // Types 24 to 33: attributes and extended attributes.

  function WriteAttr(body: Fcall, rest: seq<u8>): seq<u8> {
    match body
    case Tgetattr(fid, reqMask) => W32(fid, W64(reqMask, rest))
    case Rgetattr(valid, qid, stat) => W64(valid, WQid(qid, WStat(stat, WReserved(rest))))
    case Tsetattr(fid, setValid, setAttr) => W32(fid, W32(setValid, WSetAttr(setAttr, rest)))
    case Rsetattr => rest
    case Txattrwalk(fid, newfid, name) => W32(fid, W32(newfid, WStr(name, rest)))
    case Rxattrwalk(size) => W64(size, rest)
    case Txattrcreate(fid, name, attrSize, flags) => W32(fid, WStr(name, W64(attrSize, W32(flags, rest))))
    case Rxattrcreate => rest
    case _ => rest
  }

  function ReadAttr(code: u8, b: seq<u8>): Read<Fcall> {
    match code
    case 24 =>
      var (fid, b) :- R32(b);
      var (reqMask, b) :- RFlags(b, 8, GETATTR_BOUND);
      Ok((Tgetattr(fid, reqMask), b))
    case 25 =>
      var (valid, b) :- RFlags(b, 8, GETATTR_BOUND);
      var (qid, b) :- RQid(b);
      var (stat, b) :- RStat(b);
      var (_, b) :- RReserved(b);
      Ok((Rgetattr(valid, qid, stat), b))
    case 26 =>
      var (fid, b) :- R32(b);
      var (setValid, b) :- RFlags(b, 4, SETATTR_BOUND);
      var (setAttr, b) :- RSetAttr(b);
      Ok((Tsetattr(fid, setValid, setAttr), b))
    case 27 => Ok((Rsetattr, b))
    case 30 =>
      var (fid, b) :- R32(b);
      var (newfid, b) :- R32(b);
      var (name, b) :- RStr(b);
      Ok((Txattrwalk(fid, newfid, name), b))
    case 31 =>
      var (size, b) :- R64(b);
      Ok((Rxattrwalk(size), b))
    case 32 =>
      var (fid, b) :- R32(b);
      var (name, b) :- RStr(b);
      var (attrSize, b) :- R64(b);
      var (flags, b) :- R32(b);
      Ok((Txattrcreate(fid, name, attrSize, flags), b))
    case 33 => Ok((Rxattrcreate, b))
    case _ => Err(InvalidType)
  }

  // Types 40 to 55: readdir, fsync and locks.

  function WriteDir(body: Fcall, rest: seq<u8>): seq<u8> {
    match body
    case Treaddir(fid, offset, count) => W32(fid, W64(offset, W32(count, rest)))
    case Rreaddir(entries) => WEntries(entries, rest)
    case Tfsync(fid) => W32(fid, rest)
    case Rfsync => rest
    case Tlock(fid, flock) => W32(fid, WFlock(flock, rest))
    case Rlock(status) => W8(status, rest)
    case Tgetlock(fid, getlock) => W32(fid, WGetlock(getlock, rest))
    case Rgetlock(getlock) => WGetlock(getlock, rest)
    case _ => rest
  }

  function ReadDir(variant: ReaddirDecoder, code: u8, b: seq<u8>): Read<Fcall> {
    match code
    case 40 =>
      var (fid, b) :- R32(b);
      var (offset, b) :- R64(b);
      var (count, b) :- R32(b);
      Ok((Treaddir(fid, offset, count), b))
    case 41 =>
      var (entries, b) :- REntries(variant, b);
      Ok((Rreaddir(entries), b))
    case 50 =>
      var (fid, b) :- R32(b);
      Ok((Tfsync(fid), b))
    case 51 => Ok((Rfsync, b))
    case 52 =>
      var (fid, b) :- R32(b);
      var (flock, b) :- RFlock(b);
      Ok((Tlock(fid, flock), b))
    case 53 =>
      var (status, b) :- RFlags(b, 1, LOCK_STATUS_BOUND);
      Ok((Rlock(status), b))
    case 54 =>
      var (fid, b) :- R32(b);
      var (getlock, b) :- RGetlock(b);
      Ok((Tgetlock(fid, getlock), b))
    case 55 =>
      var (getlock, b) :- RGetlock(b);
      Ok((Rgetlock(getlock), b))
    case _ => Err(InvalidType)
  }

  // Types 70 to 77: link, mkdir, renameat and unlinkat.

  function WriteLink(body: Fcall, rest: seq<u8>): seq<u8> {
    match body
    case Tlink(dfid, fid, name) => W32(dfid, W32(fid, WStr(name, rest)))
    case Rlink => rest
    case Tmkdir(dfid, name, mode, gid) => W32(dfid, WStr(name, W32(mode, W32(gid, rest))))
    case Rmkdir(qid) => WQid(qid, rest)
    case Trenameat(olddirfid, oldname, newdirfid, newname) =>
      W32(olddirfid, WStr(oldname, W32(newdirfid, WStr(newname, rest))))
    case Rrenameat => rest
    case Tunlinkat(dirfd, name, flags) => W32(dirfd, WStr(name, W32(flags, rest)))
    case Runlinkat => rest
    case _ => rest
  }

  function ReadLink(code: u8, b: seq<u8>): Read<Fcall> {
    match code
    case 70 =>
      var (dfid, b) :- R32(b);
      var (fid, b) :- R32(b);
      var (name, b) :- RStr(b);
      Ok((Tlink(dfid, fid, name), b))
    case 71 => Ok((Rlink, b))
    case 72 =>
      var (dfid, b) :- R32(b);
      var (name, b) :- RStr(b);
      var (mode, b) :- R32(b);
      var (gid, b) :- R32(b);
      Ok((Tmkdir(dfid, name, mode, gid), b))
    case 73 =>
      var (qid, b) :- RQid(b);
      Ok((Rmkdir(qid), b))
    case 74 =>
      var (olddirfid, b) :- R32(b);
      var (oldname, b) :- RStr(b);
      var (newdirfid, b) :- R32(b);
      var (newname, b) :- RStr(b);
      Ok((Trenameat(olddirfid, oldname, newdirfid, newname), b))
    case 75 => Ok((Rrenameat, b))
    case 76 =>
      var (dirfd, b) :- R32(b);
      var (name, b) :- RStr(b);
      var (flags, b) :- R32(b);
      Ok((Tunlinkat(dirfd, name, flags), b))
    case 77 => Ok((Runlinkat, b))
    case _ => Err(InvalidType)
  }

  // Types 100 to 103: version and auth.

  function WriteSession(body: Fcall, rest: seq<u8>): seq<u8> {
    match body
    case Tversion(msize, version) => W32(msize, WStr(version, rest))
    case Rversion(msize, version) => W32(msize, WStr(version, rest))
    case Tauth(afid, uname, aname, nUname) => W32(afid, WStr(uname, WStr(aname, W32(nUname, rest))))
    case Rauth(aqid) => WQid(aqid, rest)
    case _ => rest
  }

  function ReadSession(code: u8, b: seq<u8>): Read<Fcall> {
    match code
    case 100 =>
      var (msize, b) :- R32(b);
      var (version, b) :- RStr(b);
      Ok((Tversion(msize, version), b))
    case 101 =>
      var (msize, b) :- R32(b);
      var (version, b) :- RStr(b);
      Ok((Rversion(msize, version), b))
    case 102 =>
      var (afid, b) :- R32(b);
      var (uname, b) :- RStr(b);
      var (aname, b) :- RStr(b);
      var (nUname, b) :- R32(b);
      Ok((Tauth(afid, uname, aname, nUname), b))
    case 103 =>
      var (aqid, b) :- RQid(b);
      Ok((Rauth(aqid), b))
    case _ => Err(InvalidType)
  }

  // Types 104 to 111: attach, flush and walk.

  function WriteWalk(body: Fcall, rest: seq<u8>): seq<u8> {
    match body
    case Tattach(fid, afid, uname, aname, nUname) => W32(fid, W32(afid, WStr(uname, WStr(aname, W32(nUname, rest)))))
    case Rattach(qid) => WQid(qid, rest)
    case Tflush(oldtag) => W16(oldtag, rest)
    case Rflush => rest
    case Twalk(fid, newfid, wnames) => W32(fid, W32(newfid, WVec(WName, wnames, rest)))
    case Rwalk(wqids) => WVec(WQid, wqids, rest)
    case _ => rest
  }

  function ReadWalk(code: u8, b: seq<u8>): Read<Fcall> {
    match code
    case 104 =>
      var (fid, b) :- R32(b);
      var (afid, b) :- R32(b);
      var (uname, b) :- RStr(b);
      var (aname, b) :- RStr(b);
      var (nUname, b) :- R32(b);
      Ok((Tattach(fid, afid, uname, aname, nUname), b))
    case 105 =>
      var (qid, b) :- RQid(b);
      Ok((Rattach(qid), b))
    case 108 =>
      var (oldtag, b) :- R16(b);
      Ok((Tflush(oldtag), b))
    case 109 => Ok((Rflush, b))
    case 110 =>
      var (fid, b) :- R32(b);
      var (newfid, b) :- R32(b);
      var (wnames, b) :- RVec(RStr, b);
      Ok((Twalk(fid, newfid, wnames), b))
    case 111 =>
      var (wqids, b) :- RVec(RQid, b);
      Ok((Rwalk(wqids), b))
    case _ => Err(InvalidType)
  }

  // Types 116 to 123: read, write, clunk and remove.

  function WriteIo(body: Fcall, rest: seq<u8>): seq<u8> {
    match body
    case Tread(fid, offset, count) => W32(fid, W64(offset, W32(count, rest)))
    case Rread(data) => WData(data, rest)
    case Twrite(fid, offset, data) => W32(fid, W64(offset, WData(data, rest)))
    case Rwrite(count) => W32(count, rest)
    case Tclunk(fid) => W32(fid, rest)
    case Rclunk => rest
    case Tremove(fid) => W32(fid, rest)
    case Rremove => rest
    case _ => rest
  }

  function ReadIo(code: u8, b: seq<u8>): Read<Fcall> {
    match code
    case 116 =>
      var (fid, b) :- R32(b);
      var (offset, b) :- R64(b);
      var (count, b) :- R32(b);
      Ok((Tread(fid, offset, count), b))
    case 117 =>
      var (data, b) :- RData(b);
      Ok((Rread(data), b))
    case 118 =>
      var (fid, b) :- R32(b);
      var (offset, b) :- R64(b);
      var (data, b) :- RData(b);
      Ok((Twrite(fid, offset, data), b))
    case 119 =>
      var (count, b) :- R32(b);
      Ok((Rwrite(count), b))
    case 120 =>
      var (fid, b) :- R32(b);
      Ok((Tclunk(fid), b))
    case 121 => Ok((Rclunk, b))
    case 122 =>
      var (fid, b) :- R32(b);
      Ok((Tremove(fid), b))
    case 123 => Ok((Rremove, b))
    case _ => Err(InvalidType)
  }

  /** A body followed by `rest`. */
  function WriteBody(body: Fcall, rest: seq<u8>): seq<u8> {
    var code := Code(body);
    if code <= 15 then WriteOpen(body, rest)
    else if code <= 23 then WriteNode(body, rest)
    else if code <= 33 then WriteAttr(body, rest)
    else if code <= 55 then WriteDir(body, rest)
    else if code <= 77 then WriteLink(body, rest)
    else if code <= 103 then WriteSession(body, rest)
    else if code <= 111 then WriteWalk(body, rest)
    else WriteIo(body, rest)
  }

  function ReadBody(variant: ReaddirDecoder, code: u8, b: seq<u8>): Read<Fcall> {
    if code <= 15 then ReadOpen(code, b)
    else if code <= 23 then ReadNode(code, b)
    else if code <= 33 then ReadAttr(code, b)
    else if code <= 55 then ReadDir(variant, code, b)
    else if code <= 77 then ReadLink(code, b)
    else if code <= 103 then ReadSession(code, b)
    else if code <= 111 then ReadWalk(code, b)
    else ReadIo(code, b)
  }

  function WriteMsg(m: Msg, rest: seq<u8>): seq<u8> {
    W8(Code(m.body), W16(m.tag, WriteBody(m.body, rest)))
  }

  /** What `write_msg` writes. */
  function Encode(m: Msg): seq<u8> { WriteMsg(m, []) }

  /** What `read_msg` reads, and the bytes it leaves. The tag is read before the type is looked at. */
  function Decode(variant: ReaddirDecoder, b: seq<u8>): Read<Msg> {
    var (code, b) :- R8(b);
    var (tag, b) :- R16(b);
    var (body, b) :- ReadBody(variant, code, b);
    Ok((Msg(tag, body), b))
  }

  /** No cast truncates: strings and lists are under 2^16 long, data and directory payloads under
      2^32 bytes. */
  predicate Encodable(body: Fcall) {
    match body
    case Tlcreate(fid, name, flags, mode, gid) => Short(name)
    case Tsymlink(fid, name, symtgt, gid) => Short(name) && Short(symtgt)
    case Tmknod(dfid, name, mode, major, minor, gid) => Short(name)
    case Trename(fid, dfid, name) => Short(name)
    case Rreadlink(target) => Short(target)
    case Txattrwalk(fid, newfid, name) => Short(name)
    case Txattrcreate(fid, name, attrSize, flags) => Short(name)
    case Rreaddir(entries) =>
      (forall e :: e in entries ==> Short(e.name)) && |WEach(WEntry, entries, [])| < 0x1_0000_0000
    case Tlock(fid, flock) => Short(flock.clientId)
    case Tgetlock(fid, getlock) => Short(getlock.clientId)
    case Rgetlock(getlock) => Short(getlock.clientId)
    case Tlink(dfid, fid, name) => Short(name)
    case Tmkdir(dfid, name, mode, gid) => Short(name)
    case Trenameat(olddirfid, oldname, newdirfid, newname) => Short(oldname) && Short(newname)
    case Tunlinkat(dirfd, name, flags) => Short(name)
    case Tversion(msize, version) => Short(version)
    case Rversion(msize, version) => Short(version)
    case Tauth(afid, uname, aname, nUname) => Short(uname) && Short(aname)
    case Tattach(fid, afid, uname, aname, nUname) => Short(uname) && Short(aname)
    case Twalk(fid, newfid, wnames) => |wnames| < 0x1_0000 && forall s :: s in wnames ==> Short(s)
    case Rwalk(wqids) => |wqids| < 0x1_0000
    case Rread(data) => |data| < 0x1_0000_0000
    case Twrite(fid, offset, data) => |data| < 0x1_0000_0000
    case _ => true
  }
}
