/** Paths and fids of the file system: attach, walk and create. */
module Walk {
  import opened Bytes
  import opened Wrappers
  import opened Fcalls
  import opened Dispatcher
  import opened DispatcherSafety
  import opened Serial
  import opened Splits

  type Path = seq<u8>

  const SLASH: u8 := 0x2F

  /** `PathBuf::push`: an absolute name replaces the path. */
  function Push(path: Path, name: seq<u8>): Path {
    if name != [] && name[0] == SLASH then name
    else if path != [] && path[|path| - 1] != SLASH then path + [SLASH] + name
    else path + name
  }

  function NonEmpty(parts: seq<seq<u8>>): seq<seq<u8>> {
    if parts == [] then []
    else (if parts[0] == [] then [] else [parts[0]]) + NonEmpty(parts[1..])
  }

  lemma {:induction false} NonEmptyAppend(a: seq<seq<u8>>, b: seq<seq<u8>>)
    ensures NonEmpty(a + b) == NonEmpty(a) + NonEmpty(b)
  {
    if a == [] {
      assert a + b == b;
    } else {
      assert (a + b)[1..] == a[1..] + b;
      NonEmptyAppend(a[1..], b);
    }
  }

  /** The names in a path. */
  function Components(path: Path): seq<seq<u8>> {
    NonEmpty(Split(path, SLASH))
  }

  lemma ComponentsAppend(a: Path, b: Path)
    ensures Components(a + [SLASH] + b) == Components(a) + Components(b)
  {
    SplitAppend(a, b, SLASH);
    NonEmptyAppend(Split(a, SLASH), Split(b, SLASH));
  }

  /** Pushing a name adds its components, after those of the path unless it is absolute. */
  lemma PushComponents(path: Path, name: seq<u8>)
    ensures Components(Push(path, name))
         == (if name != [] && name[0] == SLASH then [] else Components(path)) + Components(name)
  {
    NoComponents();
    hide Components;
    if path == [] {
      assert path + name == name;
    } else if path[|path| - 1] == SLASH {
      var front := path[..|path| - 1];
      assert path == front + [SLASH] + [] && path + name == front + [SLASH] + name;
      ComponentsAppend(front, []);
      ComponentsAppend(front, name);
    } else {
      ComponentsAppend(path, name);
    }
  }

  /** A relative name is put behind the path and one separator, which is not added where the path is empty
      or has one at its end. */
  lemma PushText(path: Path, name: seq<u8>)
    requires name == [] || name[0] != SLASH
    ensures var pushed := Push(path, name);
      && path <= pushed && |path| + |name| <= |pushed| <= |path| + 1 + |name|
      && pushed[|pushed| - |name|..] == name
      && (|pushed| == |path| + |name| <==> path == [] || path[|path| - 1] == SLASH)
      && (|pushed| > |path| + |name| ==> pushed[|path|] == SLASH)
  {
  }

  lemma NoComponents()
    ensures Components([]) == []
  {
    assert Split([], SLASH) == [[]];
    assert NonEmpty([[]]) == NonEmpty([]);
  }

  function PushAll(path: Path, names: seq<Utf8>): Path
    decreases |names|
  {
    if names == [] then path else PushAll(Push(path, names[0]), names[1..])
  }

  /** What the file system below says about a path: its qid, or an errno. */
  type Stat = Path -> Result<Qid, u32>

  /** How many names are there, one below the other. */
  function Reached(stat: Stat, path: Path, names: seq<Utf8>): (k: nat)
    ensures k <= |names|
    decreases |names|
  {
    if names == [] || stat(Push(path, names[0])).Err? then 0
    else 1 + Reached(stat, Push(path, names[0]), names[1..])
  }

  /** The qids of the first `k` names. */
  function Qids(stat: Stat, path: Path, names: seq<Utf8>): (qids: seq<Qid>)
    ensures |qids| == Reached(stat, path, names)
    decreases |names|
  {
    if names == [] || stat(Push(path, names[0])).Err? then []
    else [stat(Push(path, names[0])).value] + Qids(stat, Push(path, names[0]), names[1..])
  }

  /** The names pushed by a walk: those that are there, and the first that is not. */
  function Tried(stat: Stat, path: Path, names: seq<Utf8>): seq<Utf8> {
    var k := Reached(stat, path, names);
    if k < |names| then names[..k + 1] else names
  }

  lemma {:induction false} PushAllAppend(path: Path, xs: seq<Utf8>, ys: seq<Utf8>)
    ensures PushAll(path, xs + ys) == PushAll(PushAll(path, xs), ys)
    decreases |xs|
  {
    if xs == [] {
      assert xs + ys == ys;
    } else {
      assert (xs + ys)[1..] == xs[1..] + ys;
      PushAllAppend(Push(path, xs[0]), xs[1..], ys);
    }
  }

  lemma {:induction false} QidsAppend(stat: Stat, path: Path, xs: seq<Utf8>, ys: seq<Utf8>)
    ensures Qids(stat, path, xs + ys) == Qids(stat, path, xs)
              + if Reached(stat, path, xs) == |xs| then Qids(stat, PushAll(path, xs), ys) else []
    decreases |xs|
  {
    if xs == [] {
      assert xs + ys == ys;
    } else {
      assert (xs + ys)[1..] == xs[1..] + ys;
      QidsAppend(stat, Push(path, xs[0]), xs[1..], ys);
    }
  }

  /** What the qids are, and where the walk stops. */
  lemma {:induction false} QidsMean(stat: Stat, path: Path, names: seq<Utf8>)
    ensures var k := Reached(stat, path, names);
      && (forall j :: 0 <= j < k ==> stat(PushAll(path, names[..j + 1])) == Ok(Qids(stat, path, names)[j]))
      && (k < |names| ==> stat(PushAll(path, names[..k + 1])).Err?)
    decreases |names|
  {
    if names != [] {
      var (next, tail) := (Push(path, names[0]), names[1..]);
      forall j | 0 <= j < |names| ensures PushAll(path, names[..j + 1]) == PushAll(next, tail[..j]) {
        assert names[..j + 1][1..] == tail[..j];
      }
      assert PushAll(next, tail[..0]) == next;
      QidsMean(stat, next, tail);
    }
  }

  // ------------------------------------------------------------------- the handlers

  class UnpfsFid {
    var realpath: Path

    constructor ()
      ensures realpath == []
    {
      realpath := [];
    }
  }

  class Unpfs {
    const realroot: Path
    const stat: Stat

    constructor (realroot: Path, stat: Stat)
      ensures this.realroot == realroot && this.stat == stat
    {
      this.realroot := realroot;
      this.stat := stat;
    }

    method Rattach(fid: UnpfsFid) returns (r: Result<Fcall, u32>)
      modifies fid
      ensures fid.realpath == realroot
      ensures r == Attached(stat, realroot)
    {
      fid.realpath := realroot;
      match stat(realroot) {
        case Ok(qid) => return Ok(Fcall.Rattach(qid));
        case Err(e) => return Err(e);
      }
    }

    /** The walk. The two fids may be one. */
    method Rwalk(fid: UnpfsFid, newfid: UnpfsFid, wnames: seq<Utf8>) returns (r: Result<Fcall, u32>)
      modifies newfid
      ensures r == Walked(stat, old(fid.realpath), wnames)
      ensures newfid.realpath == if r.Ok? then PushAll(old(fid.realpath), Tried(stat, old(fid.realpath), wnames))
                                 else old(newfid.realpath)
    {
      var path := fid.realpath;
      ghost var from := path;
      var wqids: seq<Qid> := [];
      var i := 0;
      while i < |wnames|
        invariant i <= |wnames| && Reached(stat, from, wnames[..i]) == i
        invariant path == PushAll(from, wnames[..i])
        invariant wqids == Qids(stat, from, wnames[..i])
        invariant unchanged(newfid)
      {
        OneMore(stat, from, wnames, i);
        path := Push(path, wnames[i]);
        match stat(path) {
          case Ok(qid) =>
            wqids := wqids + [qid];
          case Err(e) =>
            if i == 0 { return Err(e); }
            break;
        }
        i := i + 1;
      }
      assert i == |wnames| ==> wnames[..i] == wnames;
      newfid.realpath := path;
      return Ok(Fcall.Rwalk(wqids));
    }
  }

  /** One round of the loop. */
  lemma OneMore(stat: Stat, path: Path, names: seq<Utf8>, i: nat)
    requires i < |names| && Reached(stat, path, names[..i]) == i
    ensures var next := Push(PushAll(path, names[..i]), names[i]);
      && PushAll(path, names[..i + 1]) == next
      && (stat(next).Ok? ==> Qids(stat, path, names[..i + 1]) == Qids(stat, path, names[..i]) + [stat(next).value])
      && (stat(next).Err? ==> Qids(stat, path, names) == Qids(stat, path, names[..i]))
  {
    assert names[..i + 1] == names[..i] + [names[i]] && names == names[..i] + names[i..];
    PushAllAppend(path, names[..i], [names[i]]);
    QidsAppend(stat, path, names[..i], [names[i]]);
    QidsAppend(stat, path, names[..i], names[i..]);
  }

  function Attached(stat: Stat, root: Path): Result<Fcall, u32> {
    match stat(root)
    case Ok(qid) => Ok(Rattach(qid))
    case Err(e) => Err(e)
  }

  function Walked(stat: Stat, path: Path, names: seq<Utf8>): Result<Fcall, u32> {
    if names != [] && stat(Push(path, names[0])).Err? then Err(stat(Push(path, names[0])).error)
    else Ok(Rwalk(Qids(stat, path, names)))
  }

  // ------------------------------------------------------------------- on the server

  /** The attached directory and what lies below it. `create` opens a new file and looks its qid up;
      `others` are the answers of the handlers that leave every path alone. */
  datatype Backend = Backend(
    root: Path, stat: Stat, create: Stat, others: (Fcall, map<u32, Path>) -> Result<Fcall, u32>)

  function Handle(b: Backend, body: Fcall, given: map<u32, Path>): Outcome<Path> {
    if body.Tattach? then Outcome(Attached(b.stat, b.root), map[], b.root)
    else if body.Twalk? && body.fid in given then
      var path := given[body.fid];
      Outcome(Walked(b.stat, path, body.wnames), map[], PushAll(path, Tried(b.stat, path, body.wnames)))
    else if body.Tlcreate? && body.fid in given then
      var path := Push(given[body.fid], body.name);
      match b.create(path)
      case Ok(qid) => Outcome(Ok(Rlcreate(qid, 0)), map[body.fid := path], [])
      case Err(e) => Outcome(Err(e), map[], [])
    else if body.Tauth? || body.Txattrwalk? then Outcome(Err(EOPNOTSUPP), map[], [])
    else Outcome(b.others(body, given), map[], [])
  }

  function Moves(body: Fcall): set<u32> {
    if body.Tlcreate? then {body.fid} else {}
  }

  /** The file system as the dispatcher runs it: every fid holds its path. */
  function Serving(b: Backend): Filesystem<Path> {
    Filesystem((body, given) => Handle(b, body, given), Moves)
  }

  lemma WalkedMeans(stat: Stat, path: Path, names: seq<Utf8>)
    ensures if names != [] && Reached(stat, path, names) == 0 then
              stat(Push(path, names[0])).Err? && Walked(stat, path, names) == Err(stat(Push(path, names[0])).error)
            else Walked(stat, path, names) == Ok(Rwalk(Qids(stat, path, names)))
  {
  }

  /** What one Tattach does, whoever the user and whatever the tree asked for: the new fid is at the root,
      if that can be looked up. The fid may have been in use. */
  lemma ServedAttach(
      b: Backend, table: map<u32, Path>, fid: u32, afid: u32, uname: Utf8, aname: Utf8, n_uname: u32)
    ensures Serve(Serving(b), table, Tattach(fid, afid, uname, aname, n_uname))
         == match b.stat(b.root)
            case Ok(qid) => Served(table[fid := b.root], Ok(Rattach(qid)))
            case Err(e) => Served(table, Err(e))
  {
    hide ValidUtf8;
    var body := Tattach(fid, afid, uname, aname, n_uname);
    assert LookupSet(body) == {};
    assert Given(table, body) == map[];
    assert AfterHandler(Serving(b), table, body) == table;
  }

  /** Tauth and Txattrwalk are not supported, and bind nothing. */
  lemma NotSupported(b: Backend, table: map<u32, Path>, body: Fcall)
    requires body.Tauth? || (body.Txattrwalk? && body.fid in table)
    ensures Serve(Serving(b), table, body) == Served(table, Err(95))
  {
    hide ValidUtf8;
    assert LookupSet(body) == if body.Tauth? then {} else {body.fid};
    assert AfterHandler(Serving(b), table, body) == table;
  }

  /** Every other request is answered from the paths of the fids it names, and moves none of them; a
      Tclunk that succeeds drops its fid. */
  lemma ServedOthers(b: Backend, table: map<u32, Path>, body: Fcall)
    requires !IsR(body) && forall f :: f in Fids(body) ==> f in table
    requires !body.Tattach? && !body.Twalk? && !body.Tlcreate? && !body.Tauth? && !body.Txattrwalk?
    ensures var answer := b.others(body, GivenFids(table, body));
      Serve(Serving(b), table, body) == Served(if answer.Ok? && body.Tclunk? then table - {body.fid} else table, answer)
  {
    HandlersServeRequests(body);
    LookupsAreFids(body);
    assert NewFid(body) == None;
    hide ValidUtf8, IsR, NewFid, Lookups, Fids;
    assert Given(table, body) == GivenFids(table, body);
    assert AfterHandler(Serving(b), table, body) == table;
  }

  /** What one Twalk does. */
  lemma ServedWalk(b: Backend, table: map<u32, Path>, fid: u32, newfid: u32, names: seq<Utf8>)
    requires fid in table
    ensures var served := Serve(Serving(b), table, Twalk(fid, newfid, names));
      if names != [] && Reached(b.stat, table[fid], names) == 0 then
        b.stat(Push(table[fid], names[0])).Err?
        && served == Served(table, Err(b.stat(Push(table[fid], names[0])).error))
      else
        && served.answer == Ok(Rwalk(Qids(b.stat, table[fid], names)))
        && served.table == table[newfid := PushAll(table[fid], Tried(b.stat, table[fid], names))]
  {
    var body := Twalk(fid, newfid, names);
    WalkedMeans(b.stat, table[fid], names);
    hide Walked, Reached, Qids, Tried, PushAll, Push, ValidUtf8;
    assert LookupSet(body) == {fid};
    assert Given(table, body) == map[fid := table[fid]];
    assert AfterHandler(Serving(b), table, body) == table;
  }

  /** The empty walk copies the fid. */
  lemma EmptyWalkClones(b: Backend, table: map<u32, Path>, fid: u32, newfid: u32)
    requires fid in table
    ensures Serve(Serving(b), table, Twalk(fid, newfid, [])) == Served(table[newfid := table[fid]], Ok(Rwalk([])))
  {
    ServedWalk(b, table, fid, newfid, []);
  }

  lemma TriedAppend(stat: Stat, path: Path, xs: seq<Utf8>, ys: seq<Utf8>)
    requires Reached(stat, path, xs) == |xs|
    ensures Qids(stat, path, xs + ys) == Qids(stat, path, xs) + Qids(stat, PushAll(path, xs), ys)
    ensures Reached(stat, path, xs + ys) == |xs| + Reached(stat, PushAll(path, xs), ys)
    ensures Tried(stat, path, xs) == xs
    ensures Tried(stat, path, xs + ys) == xs + Tried(stat, PushAll(path, xs), ys)
  {
    hide Push, PushAll, Reached, Qids, ValidUtf8;
    QidsAppend(stat, path, xs, ys);
  }

  lemma NothingThere(stat: Stat, path: Path, ys: seq<Utf8>)
    requires ys != [] && Reached(stat, path, ys) == 0
    ensures PushAll(path, Tried(stat, path, ys)) == Push(path, ys[0]) && Qids(stat, path, ys) == []
  {
    hide Push, ValidUtf8;
    assert ys[..1][1..] == [];
  }

  /** Walking `xs + ys` is walking `xs`, if all of it is there, and then `ys` from where that led: to
      the same path, with the qids of the two walks in a row. But when nothing of `ys` is there the
      second of the two walks fails, while the one walk binds its fid. */
  lemma WalkInTwoSteps(b: Backend, table: map<u32, Path>, fid: u32, mid: u32, newfid: u32, xs: seq<Utf8>, ys: seq<Utf8>)
    requires fid in table && Reached(b.stat, table[fid], xs) == |xs|
    ensures var path := PushAll(table[fid], xs);
            var once := Serve(Serving(b), table, Twalk(fid, newfid, xs + ys));
            var first := Serve(Serving(b), table, Twalk(fid, mid, xs));
            var second := Serve(Serving(b), first.table, Twalk(mid, newfid, ys));
      && first == Served(table[mid := path], Ok(Rwalk(Qids(b.stat, table[fid], xs))))
      && (second.answer.Err? <==> ys != [] && Reached(b.stat, path, ys) == 0)
      && (second.answer.Ok? ==>
            var to := PushAll(path, Tried(b.stat, path, ys));
            && second == Served(table[mid := path][newfid := to], Ok(Rwalk(Qids(b.stat, path, ys))))
            && once == Served(table[newfid := to],
                              Ok(Rwalk(Qids(b.stat, table[fid], xs) + Qids(b.stat, path, ys)))))
      && (second.answer.Err? && xs != [] ==> once == Served(table[newfid := Push(path, ys[0])], first.answer))
  {
    hide Walked, Serve, Serving, ValidUtf8, PushAll, Tried, Reached, Qids;
    var path := PushAll(table[fid], xs);
    TriedAppend(b.stat, table[fid], xs, ys);
    PushAllAppend(table[fid], xs, Tried(b.stat, path, ys));
    if ys != [] && Reached(b.stat, path, ys) == 0 {
      NothingThere(b.stat, path, ys);
      assert Qids(b.stat, table[fid], xs) + [] == Qids(b.stat, table[fid], xs);
    }
    ServedWalk(b, table, fid, mid, xs);
    ServedWalk(b, table[mid := path], mid, newfid, ys);
    ServedWalk(b, table, fid, newfid, xs + ys);
  }

  /** walk(5) wants the new fid unaffected by a walk that does not get to the end, whether it is the old
      fid, another one in use, or unused. The code keeps to that if and only if the walk does not stop in
      the middle, or the new fid is already bound to the path with the missing name. */
  lemma WalkKeepsToTheManual(b: Backend, table: map<u32, Path>, fid: u32, newfid: u32, names: seq<Utf8>)
    requires fid in table
    ensures var (served, k) := (Serve(Serving(b), table, Twalk(fid, newfid, names)), Reached(b.stat, table[fid], names));
      (served.table == table || Complete(served.answer, |names|))
      <==> !(0 < k < |names|) || (newfid in table && table[newfid] == PushAll(table[fid], names[..k + 1]))
  {
    hide Serve, Serving, PushAll, Push, Qids, Reached, ValidUtf8;
    ServedWalk(b, table, fid, newfid, names);
    SameUpdate(table, newfid, PushAll(table[fid], Tried(b.stat, table[fid], names)));
  }

  /** A walk that got to the end of `n` names. */
  predicate Complete(answer: Result<Fcall, u32>, n: nat) {
    answer.Ok? && answer.value.Rwalk? && |answer.value.wqids| == n
  }

  lemma SameUpdate(table: map<u32, Path>, fid: u32, path: Path)
    ensures table[fid := path] == table <==> fid in table && table[fid] == path
  {
    if fid in table && table[fid] == path {
      assert table[fid := path] == table;
    }
    assert table[fid := path][fid] == path;
  }

  lemma StopsAtTheSecond(stat: Stat, path: Path, names: seq<Utf8>)
    requires |names| == 2 && stat(Push(path, names[0])).Ok? && stat(Push(Push(path, names[0]), names[1])).Err?
    ensures Reached(stat, path, names) == 1 && Qids(stat, path, names) == [stat(Push(path, names[0])).value]
    ensures PushAll(path, Tried(stat, path, names)) == Push(Push(path, names[0]), names[1])
  {
    hide Push, ValidUtf8;
    var tail := names[1..];
    assert tail[0] == names[1] && tail[1..] == [];
    assert Reached(stat, Push(path, names[0]), tail) == 0;
    assert names[..2] == names;
    assert PushAll(Push(path, names[0]), tail) == PushAll(Push(Push(path, names[0]), names[1]), []);
  }

  /** Such a walk: of "a" and "b" below "/", only "a" is there. */
  lemma WalkStopsInTheMiddle(b: Backend, qid: Qid, newfid: u32)
    requires b.stat([SLASH, 0x61]) == Ok(qid) && b.stat([SLASH, 0x61, SLASH, 0x62]).Err?
    ensures Serve(Serving(b), map[1 := [SLASH]], Twalk(1, newfid, [[0x61], [0x62]]))
         == Served(map[1 := [SLASH]][newfid := [SLASH, 0x61, SLASH, 0x62]], Ok(Rwalk([qid])))
  {
    assert ValidUtf8([0x61]) && ValidUtf8([0x62]);
    assert Push([SLASH], [0x61]) == [SLASH, 0x61];
    assert Push([SLASH, 0x61], [0x62]) == [SLASH, 0x61, SLASH, 0x62];
    hide Serve, Serving, ValidUtf8, Push, Reached, Qids, Tried, PushAll;
    StopsAtTheSecond(b.stat, [SLASH], [[0x61], [0x62]]);
    ServedWalk(b, map[1 := [SLASH]], 1, newfid, [[0x61], [0x62]]);
  }

  /** Even the client's own fid is moved to the path that is not there. */
  lemma WalkLosesItsOwnFid(b: Backend, qid: Qid)
    requires b.stat([SLASH, 0x61]) == Ok(qid) && b.stat([SLASH, 0x61, SLASH, 0x62]).Err?
    ensures Serve(Serving(b), map[1 := [SLASH]], Twalk(1, 1, [[0x61], [0x62]])).table
         == map[1 := [SLASH, 0x61, SLASH, 0x62]]
  {
    hide Serve, Serving;
    WalkStopsInTheMiddle(b, qid, 1);
  }

  /** A fid that a file was created with is bound to that file: to where walking to it from the old place
      would lead, if it is there. */
  lemma CreateThenWalk(b: Backend, table: map<u32, Path>, body: Fcall)
    requires body.Tlcreate? && body.fid in table
    ensures var created := Serve(Serving(b), table, body);
            var walked := Serve(Serving(b), table, Twalk(body.fid, body.fid, [body.name]));
            var path := Push(table[body.fid], body.name);
      && created == (match b.create(path)
                     case Ok(qid) => Served(table[body.fid := path], Ok(Rlcreate(qid, 0)))
                     case Err(e) => Served(table, Err(e)))
      && (created.answer.Ok? && b.stat(path).Ok? ==> walked.table == created.table)
  {
    Created(b, table, body);
    var names: seq<Utf8> := [body.name];
    hide Serve, Serving, ValidUtf8, Push;
    ServedWalk(b, table, body.fid, body.fid, names);
    assert names[1..] == [];
    assert PushAll(table[body.fid], names) == PushAll(Push(table[body.fid], body.name), []);
  }

  lemma Created(b: Backend, table: map<u32, Path>, body: Fcall)
    requires body.Tlcreate? && body.fid in table
    ensures var (created, path) := (Serve(Serving(b), table, body), Push(table[body.fid], body.name));
      created == match b.create(path)
                 case Ok(qid) => Served(table[body.fid := path], Ok(Rlcreate(qid, 0)))
                 case Err(e) => Served(table, Err(e))
  {
    hide ValidUtf8, Push;
    assert LookupSet(body) == {body.fid};
    assert Given(table, body) == map[body.fid := table[body.fid]];
  }

  // ------------------------------------------------------------------- over whole runs

  /** The names that a message has the server push onto a path. */
  function NamesOf(body: Fcall): seq<Utf8> {
    if body.Twalk? then body.wnames else if body.Tlcreate? then [body.name] else []
  }

  predicate Relative(name: seq<u8>) {
    name == [] || name[0] != SLASH
  }

  predicate RelativeNames(body: Fcall) {
    forall n :: n in NamesOf(body) ==> Relative(n)
  }

  lemma {:induction false} PushExtends(path: Path, names: seq<Utf8>)
    requires forall n :: n in names ==> Relative(n)
    ensures path <= PushAll(path, names)
    decreases |names|
  {
    if names != [] {
      assert Relative(names[0]) && forall n :: n in names[1..] ==> n in names;
      PushExtends(Push(path, names[0]), names[1..]);
    }
  }

  /** Every bound fid, and every fid about to be bound, holds a path that extends the root. */
  ghost predicate Below(root: Path, s: State<Path>) {
    && (forall f :: f in s.table ==> root <= s.table[f])
    && (forall i | i in s.tasks && s.tasks[i].phase.Handled? && s.tasks[i].phase.answer.Ok? ::
          NewFid(s.tasks[i].msg.body).Some? ==> root <= s.tasks[i].phase.created)
    && (forall i :: i in s.tasks && s.tasks[i].phase.Running? ==> Starts(s.table, s.tasks[i].msg.body))
  }

  lemma HandlerBelow(b: Backend, table: map<u32, Path>, body: Fcall)
    requires Starts(table, body) && RelativeNames(body)
    requires forall f :: f in table ==> b.root <= table[f]
    ensures var out := Handle(b, body, Given(table, body));
      && (out.answer.Ok? && NewFid(body).Some? ==> b.root <= out.created)
      && (forall f :: f in out.after ==> b.root <= out.after[f])
  {
    var given := Given(table, body);
    if body.Twalk? {
      assert body.fid in LookupSet(body);
      var tried := Tried(b.stat, given[body.fid], body.wnames);
      assert forall n :: n in tried ==> n in body.wnames;
      PushExtends(given[body.fid], tried);
    } else if body.Tlcreate? {
      assert body.fid in LookupSet(body);
      assert Relative(body.name) by { assert body.name in NamesOf(body); }
    }
  }

  lemma StepBelow(b: Backend, s: State<Path>, a: Action)
    requires Below(b.root, s) && Enabled(s, a)
    requires a.Handle? ==> RelativeNames(s.tasks[a.task].msg.body)
    requires TableSound(Step(Serving(b), s, a))
    ensures Below(b.root, Step(Serving(b), s, a))
  {
    hide Lookups, LookupSet, NewFid, Updates, Handle;
    match a
    case Handle(i) =>
      HandlerBelow(b, s.table, s.tasks[i].msg.body);
    case _ =>
  }

  /** In every state the server can reach, whatever the interleaving, every fid's path extends the
      attached directory's, as long as no message carried an absolute name. */
  lemma {:induction false} PathsExtendTheRoot(b: Backend, run: seq<Action>)
    requires After(Serving(b), run).Some?
    requires forall a :: a in run && a.Receive? ==> RelativeNames(a.msg.body)
    ensures var s := After(Serving(b), run).value;
      Below(b.root, s) && forall m :: m in s.received ==> RelativeNames(m.body)
  {
    if run != [] {
      var (init, last) := (run[..|run| - 1], run[|run| - 1]);
      PathsExtendTheRoot(b, init);
      RunsAreSafe(Serving(b), init);
      RunsAreSafe(Serving(b), run);
      var s := After(Serving(b), init).value;
      hide RelativeNames, Serving, Below;
      assert last in run;
      if last.Handle? {
        assert s.tasks[last.task].msg == s.received[last.task];
      }
      StepBelow(b, s, last);
    }
  }
}
