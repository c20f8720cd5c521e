/** Reading and writing through a fid: a seek and a transfer under the lock of the fid's file.

    Files change only through fids here, and a transfer moves as much as the system chooses to. */
module FileIo {
  import opened Bytes
  import opened Wrappers

  const EINVAL: u32 := 22
  const SEEK_LIMIT := 0x8000_0000_0000_0000

  // ------------------------------------------------------------------- positional input and output

  function Zeros(n: nat): (z: seq<u8>)
    ensures |z| == n && forall i :: 0 <= i < n ==> z[i] == 0
  {
    seq(n, _ => 0)
  }

  /** `n` bytes from `offset` on, or what there is of them. */
  function PRead(content: seq<u8>, offset: nat, n: nat): seq<u8> {
    if offset >= |content| then []
    else if offset + n >= |content| then content[offset..]
    else content[offset..offset + n]
  }

  /** The content after `data` has been written at `offset`: a gap is filled with zeros. */
  function PWrite(content: seq<u8>, offset: nat, data: seq<u8>): seq<u8> {
    if data == [] then content
    else
      var base := if offset > |content| then content + Zeros(offset - |content|) else content;
      base[..offset] + data + if offset + |data| < |base| then base[offset + |data|..] else []
  }

  /** A write changes exactly the bytes from `offset` on that it writes, and fills the gap before. */
  lemma PWriteChanges(content: seq<u8>, offset: nat, data: seq<u8>)
    requires data != []
    ensures var after := PWrite(content, offset, data);
      && |after| == (if offset + |data| > |content| then offset + |data| else |content|)
      && (forall i :: offset <= i < offset + |data| ==> after[i] == data[i - offset])
      && (forall i :: |content| <= i < offset ==> after[i] == 0)
      && (forall i :: 0 <= i < |content| && !(offset <= i < offset + |data|) ==> after[i] == content[i])
  {
  }

  /** A read gives the bytes that are there. */
  lemma PReadMeans(content: seq<u8>, offset: nat, n: nat)
    ensures var got := PRead(content, offset, n);
      && |got| == (if offset >= |content| then 0 else if n <= |content| - offset then n else |content| - offset)
      && forall i :: 0 <= i < |got| ==> got[i] == content[offset + i]
  {
  }

  /** What was written is read back. */
  lemma ReadBack(content: seq<u8>, offset: nat, data: seq<u8>)
    ensures PRead(PWrite(content, offset, data), offset, |data|) == data
  {
    if data != [] {
      PWriteChanges(content, offset, data);
    }
  }

  /** Writes that do not overlap commute. */
  lemma DisjointWritesCommute(content: seq<u8>, o1: nat, d1: seq<u8>, o2: nat, d2: seq<u8>)
    requires o1 + |d1| <= o2
    ensures PWrite(PWrite(content, o1, d1), o2, d2) == PWrite(PWrite(content, o2, d2), o1, d1)
  {
    if d1 != [] && d2 != [] {
      var (one, two) := (PWrite(content, o1, d1), PWrite(content, o2, d2));
      PWriteChanges(content, o1, d1);
      PWriteChanges(content, o2, d2);
      PWriteChanges(one, o2, d2);
      PWriteChanges(two, o1, d1);
      hide PWrite;
    }
  }

  // ------------------------------------------------------------------- an open file

  /** A file and a position in it. */
  class OpenFile {
    var content: seq<u8>
    var pos: nat

    constructor (content: seq<u8>)
      ensures this.content == content && pos == 0
    {
      this.content := content;
      pos := 0;
    }

    method Seek(offset: u64) returns (error: Option<u32>)
      modifies this`pos
      ensures error.Some? <==> offset >= SEEK_LIMIT
      ensures pos == if error.Some? then old(pos) else offset
    {
      if offset >= SEEK_LIMIT { return Some(EINVAL); }
      pos := offset;
      return None;
    }

    /** Reads some of the `room` bytes from the position on; none only at the end of the file. */
    method Read(room: nat) returns (data: seq<u8>)
      modifies this`pos
      ensures data == PRead(content, old(pos), |data|)
      ensures |data| <= room && (data == [] <==> room == 0 || old(pos) >= |content|)
      ensures pos == old(pos) + |data|
    {
      var available := if pos < |content| then |content| - pos else 0;
      var limit := if room < available then room else available;
      var n: nat :| n <= limit && (n == 0 <==> limit == 0);
      data := PRead(content, pos, n);
      pos := pos + n;
    }

    /** Writes some of the data at the position. */
    method Write(data: seq<u8>) returns (n: nat)
      modifies this
      ensures n <= |data| && (n == 0 <==> data == [])
      ensures content == PWrite(old(content), old(pos), data[..n])
      ensures pos == old(pos) + n
    {
      n :| n <= |data| && (n == 0 <==> data == []);
      content := PWrite(content, pos, data[..n]);
      pos := pos + n;
    }
  }

  /** A Tread on a fid: what `pread` would give at the offset, wherever the file was left. */
  method Rread(file: Option<OpenFile>, offset: u64, count: u32) returns (r: Result<seq<u8>, u32>)
    modifies if file.Some? then {file.value} else {}
    ensures r.Ok? <==> file.Some? && offset < SEEK_LIMIT
    ensures r.Err? ==> r.error == EINVAL
    ensures r.Ok? ==> r.value == PRead(old(file.value.content), offset, |r.value|)
    ensures r.Ok? ==> |r.value| <= count && (r.value == [] <==> count == 0 || offset >= |old(file.value.content)|)
    ensures file.Some? ==> file.value.content == old(file.value.content)
  {
    match file {
      case None => return Err(EINVAL);
      case Some(f) =>
        var error := f.Seek(offset);
        if error.Some? { return Err(EINVAL); }
        var data := f.Read(count);
        return Ok(data);
    }
  }

  /** A Twrite on a fid: what `pwrite` would do at the offset, wherever the file was left. */
  method Rwrite(file: Option<OpenFile>, offset: u64, data: seq<u8>) returns (r: Result<u32, u32>)
    requires |data| < 0x1_0000_0000
    modifies if file.Some? then {file.value} else {}
    ensures r.Ok? <==> file.Some? && offset < SEEK_LIMIT
    ensures r.Err? ==> r.error == EINVAL
    ensures r.Ok? ==> r.value <= |data| && (r.value == 0 <==> data == [])
    ensures r.Ok? ==> file.value.content == PWrite(old(file.value.content), offset, data[..r.value])
    ensures r.Err? && file.Some? ==> file.value.content == old(file.value.content)
  {
    match file {
      case None => return Err(EINVAL);
      case Some(f) =>
        var error := f.Seek(offset);
        if error.Some? { return Err(EINVAL); }
        var n := f.Write(data);
        return Ok(n);
    }
  }

  /** A Twrite and then a Tread of as much from the same place, with nothing in between, gives the
      first bytes written, at least one of them. */
  method WriteThenRead(file: OpenFile, offset: u64, data: seq<u8>) returns (back: seq<u8>)
    requires 0 < |data| < 0x1_0000_0000 && offset < SEEK_LIMIT
    modifies file
    ensures back != [] && back <= data
  {
    var written := Rwrite(Some(file), offset, data);
    var n := written.value;
    assert file.content == PWrite(old(file.content), offset, data[..n]);
    PWriteChanges(old(file.content), offset, data[..n]);
    var r := Rread(Some(file), offset, n);
    back := r.value;
  }

  // ------------------------------------------------------------------- many at once

  datatype Request = Read(fid: u32, offset: nat, count: nat) | Write(fid: u32, offset: nat, data: seq<u8>)

  /** A request waits for the lock of its fid's file, seeks, transfers, and lets the lock go. */
  datatype Stage = Waiting | Locked | Sought | Transferred(got: seq<u8>) | Released(got: seq<u8>)

  datatype Task = Task(request: Request, stage: Stage)

  /** A transfer: which task's, and of how many bytes. */
  datatype Transfer = Transfer(task: nat, amount: nat)

  /** One file, opened by any number of fids, each with a position of its own. */
  datatype State = State(
    content: seq<u8>,
    positions: map<u32, nat>,
    locks: map<u32, nat>,        // the task that holds the lock of a fid's file
    tasks: seq<Task>,
    log: seq<Transfer>)

  function Initial(content: seq<u8>): State {
    State(content, map[], map[], [], [])
  }

  datatype Action =
    | Arrive(request: Request)
    | Lock(task: nat)
    | Seek(task: nat)
    | Move(task: nat, amount: nat)
    | Unlock(task: nat)

  /** Whether tasks take the lock; the code does. */
  datatype Locking = WithLock | WithoutLock

  predicate Enabled(locking: Locking, s: State, a: Action) {
    a.Arrive?
    || (a.task < |s.tasks|
        && var Task(request, stage) := s.tasks[a.task];
        match a
        case Arrive(_) => true
        case Lock(_) => stage.Waiting? && (locking.WithLock? ==> request.fid !in s.locks)
        case Seek(_) => stage.Locked?
        case Move(_, n) => stage.Sought? && request.fid in s.positions
                           && n <= if request.Read? then request.count else |request.data|
        case Unlock(_) => stage.Transferred?)
  }

  /** The content after a transfer of `n` bytes at `at`. */
  function Moved(content: seq<u8>, request: Request, at: nat, n: nat): seq<u8> {
    if request.Write? && n <= |request.data| then PWrite(content, at, request.data[..n]) else content
  }

  /** What the task gets from it. */
  function Got(content: seq<u8>, request: Request, at: nat, n: nat): seq<u8> {
    if request.Read? then PRead(content, at, n) else []
  }

  function Staged(s: State, i: nat, stage: Stage): State
    requires i < |s.tasks|
  {
    s.(tasks := s.tasks[i := s.tasks[i].(stage := stage)])
  }

  function Step(locking: Locking, s: State, a: Action): State
    requires Enabled(locking, s, a)
  {
    match a
    case Arrive(request) => s.(tasks := s.tasks + [Task(request, Waiting)])
    case Lock(i) => Staged(s, i, Locked).(locks := s.locks[s.tasks[i].request.fid := i])
    case Seek(i) =>
      var request := s.tasks[i].request;
      Staged(s, i, Sought).(positions := s.positions[request.fid := request.offset])
    case Move(i, n) =>
      var request := s.tasks[i].request;
      var at := s.positions[request.fid];
      Staged(s, i, Transferred(Got(s.content, request, at, n))).(
        content := Moved(s.content, request, at, n),
        positions := s.positions[request.fid := at + n],
        log := s.log + [Transfer(i, n)])
    case Unlock(i) => Staged(s, i, Released(s.tasks[i].stage.got)).(locks := s.locks - {s.tasks[i].request.fid})
  }

  /** The state after a run, if every step of it could be taken. */
  function After(locking: Locking, content: seq<u8>, run: seq<Action>): Option<State> {
    if run == [] then Some(Initial(content))
    else
      var (before, last) := (After(locking, content, run[..|run| - 1]), run[|run| - 1]);
      if before.Some? && Enabled(locking, before.value, last) then Some(Step(locking, before.value, last)) else None
  }

  /** The content after the transfers have been made one after another, each in one piece at the
      offset that was asked for. */
  function Replay(content: seq<u8>, tasks: seq<Task>, log: seq<Transfer>): seq<u8>
    requires forall t :: t in log ==> t.task < |tasks|
  {
    if log == [] then content
    else
      var t := log[|log| - 1];
      var request := tasks[t.task].request;
      Moved(Replay(content, tasks, log[..|log| - 1]), request, request.offset, t.amount)
  }

  predicate HasMoved(stage: Stage) {
    stage.Transferred? || stage.Released?
  }

  predicate Holds(stage: Stage) {
    stage.Locked? || stage.Sought? || stage.Transferred?
  }

  /** A task holds the lock from when it has taken it to when it lets it go, and is at its offset once it
      has sought. */
  ghost predicate Exclusive(s: State) {
    && (forall f :: f in s.locks ==>
          s.locks[f] < |s.tasks| && s.tasks[s.locks[f]].request.fid == f && Holds(s.tasks[s.locks[f]].stage))
    && (forall i :: 0 <= i < |s.tasks| ==>
          var Task(request, stage) := s.tasks[i];
          && (Holds(stage) ==> request.fid in s.locks && s.locks[request.fid] == i)
          && (stage.Sought? ==> request.fid in s.positions && s.positions[request.fid] == request.offset))
  }

  /** The log has each task's transfer once, as soon as it has been made. */
  ghost predicate Logged(s: State) {
    && (forall t :: t in s.log ==> t.task < |s.tasks| && HasMoved(s.tasks[t.task].stage))
    && (forall j, k :: 0 <= j < k < |s.log| ==> s.log[j].task != s.log[k].task)
    && (forall i :: 0 <= i < |s.tasks| && HasMoved(s.tasks[i].stage) ==>
          exists k :: 0 <= k < |s.log| && s.log[k].task == i)
  }

  /** The `k`-th transfer gave what it gives when it is made in one piece after those before it. */
  ghost predicate Answered(content: seq<u8>, s: State, k: nat)
    requires Logged(s) && k < |s.log|
  {
    var (request, stage) := (s.tasks[s.log[k].task].request, s.tasks[s.log[k].task].stage);
    stage.got == Got(Replay(content, s.tasks, s.log[..k]), request, request.offset, s.log[k].amount)
  }

  /** Content and results are those of the log's transfers, made in its order, each in one piece. */
  ghost predicate Atomic(content: seq<u8>, s: State)
    requires Logged(s)
  {
    s.content == Replay(content, s.tasks, s.log) && forall k :: 0 <= k < |s.log| ==> Answered(content, s, k)
  }

  lemma {:induction false} ReplaySame(content: seq<u8>, s: seq<Task>, t: seq<Task>, log: seq<Transfer>)
    requires forall x :: x in log ==> x.task < |s| <= |t| && s[x.task].request == t[x.task].request
    ensures Replay(content, s, log) == Replay(content, t, log)
  {
    if log != [] {
      ReplaySame(content, s, t, log[..|log| - 1]);
    }
  }

  lemma StepExclusive(s: State, a: Action)
    requires Exclusive(s) && Enabled(WithLock, s, a)
    ensures Exclusive(Step(WithLock, s, a))
  {
    hide Moved, Got, PRead, PWrite;
  }

  /** What a task has got, and what it asked for, stays. */
  lemma StepKeepsMoved(s: State, a: Action)
    requires Exclusive(s) && Logged(s) && Enabled(WithLock, s, a)
    ensures var t := Step(WithLock, s, a);
      && s.log <= t.log && |s.tasks| <= |t.tasks|
      && (!a.Move? ==> t.log == s.log && t.content == s.content)
      && (forall i :: 0 <= i < |s.tasks| ==> t.tasks[i].request == s.tasks[i].request)
      && (forall x :: x in s.log ==> HasMoved(t.tasks[x.task].stage)
                                     && t.tasks[x.task].stage.got == s.tasks[x.task].stage.got)
      && (forall i | 0 <= i < |t.tasks| && HasMoved(t.tasks[i].stage) ::
            i < |s.tasks| && if a.Move? && i == a.task then !HasMoved(s.tasks[i].stage) else HasMoved(s.tasks[i].stage))
  {
  }

  lemma MoveAtomic(content: seq<u8>, s: State, i: nat, n: nat)
    requires Exclusive(s) && Logged(s) && Atomic(content, s) && Enabled(WithLock, s, Move(i, n))
    ensures var (t, request) := (Step(WithLock, s, Move(i, n)), s.tasks[i].request);
      && t.log == s.log + [Transfer(i, n)]
      && t.content == Moved(Replay(content, s.tasks, s.log), request, request.offset, n)
      && t.tasks[i].stage == Transferred(Got(Replay(content, s.tasks, s.log), request, request.offset, n))
  {
  }

  lemma StepLogged(s: State, a: Action)
    requires Exclusive(s) && Logged(s) && Enabled(WithLock, s, a)
    ensures Logged(Step(WithLock, s, a))
  {
    var t := Step(WithLock, s, a);
    StepKeepsMoved(s, a);
    if a.Move? {
      assert t.log == s.log + [Transfer(a.task, a.amount)] && HasMoved(t.tasks[a.task].stage);
      assert t.log[|s.log|].task == a.task;
    }
    hide Exclusive, Step, Enabled, HasMoved;
    forall i | 0 <= i < |t.tasks| && HasMoved(t.tasks[i].stage)
      ensures exists k :: 0 <= k < |t.log| && t.log[k].task == i
    {
      if !(a.Move? && a.task == i) {
        var k :| 0 <= k < |s.log| && s.log[k].task == i;
        assert t.log[k] == s.log[k];
      }
    }
  }

  lemma ReplayPush(content: seq<u8>, tasks: seq<Task>, log: seq<Transfer>, x: Transfer)
    requires x.task < |tasks| && forall y :: y in log ==> y.task < |tasks|
    ensures Replay(content, tasks, log + [x])
         == Moved(Replay(content, tasks, log), tasks[x.task].request, tasks[x.task].request.offset, x.amount)
  {
    assert (log + [x])[..|log|] == log;
  }

  lemma AnsweredStays(content: seq<u8>, s: State, t: State, k: nat)
    requires Logged(s) && Logged(t) && s.log <= t.log && |s.tasks| <= |t.tasks|
    requires k < |s.log| && Answered(content, s, k)
    requires forall i :: 0 <= i < |s.tasks| ==> t.tasks[i].request == s.tasks[i].request
    requires t.tasks[s.log[k].task].stage.got == s.tasks[s.log[k].task].stage.got
    ensures Answered(content, t, k)
  {
    assert t.log[..k] == s.log[..k] && t.log[k] == s.log[k];
    ReplaySame(content, s.tasks, t.tasks, s.log[..k]);
  }

  lemma StepAtomic(content: seq<u8>, s: State, a: Action)
    requires Exclusive(s) && Logged(s) && Atomic(content, s) && Enabled(WithLock, s, a)
    requires Logged(Step(WithLock, s, a))
    ensures Atomic(content, Step(WithLock, s, a))
  {
    var t := Step(WithLock, s, a);
    StepKeepsMoved(s, a);
    forall k | 0 <= k < |s.log| ensures Answered(content, t, k) {
      assert s.log[k] in s.log;
      AnsweredStays(content, s, t, k);
    }
    ReplaySame(content, s.tasks, t.tasks, s.log);
    if a.Move? {
      MoveAtomic(content, s, a.task, a.amount);
      ReplayPush(content, t.tasks, s.log, Transfer(a.task, a.amount));
      assert t.log[..|s.log|] == s.log;
      hide Exclusive, Moved, Step, Enabled, Replay;
      assert Answered(content, t, |s.log|);
    }
  }

  /** Every interleaving of reads and writes, through any number of fids, is some order of reads and
      writes that each happen in one piece at the offset asked for: `pread` and `pwrite`. */
  lemma {:induction false} SeekThenMoveIsAtomic(content: seq<u8>, run: seq<Action>)
    requires After(WithLock, content, run).Some?
    ensures var s := After(WithLock, content, run).value;
      Exclusive(s) && Logged(s) && Atomic(content, s)
  {
    if run != [] {
      var (init, last) := (run[..|run| - 1], run[|run| - 1]);
      SeekThenMoveIsAtomic(content, init);
      var s := After(WithLock, content, init).value;
      StepExclusive(s, last);
      StepLogged(s, last);
      StepAtomic(content, s, last);
    }
  }

  /** The lock cannot be deadlocked: while a request is not done, some task can go on. */
  lemma SomeoneGoesOn(content: seq<u8>, run: seq<Action>, i: nat)
    requires After(WithLock, content, run).Some?
    requires var s := After(WithLock, content, run).value; i < |s.tasks| && !s.tasks[i].stage.Released?
    ensures var s := After(WithLock, content, run).value;
      exists a: Action :: Enabled(WithLock, s, a) && !a.Arrive?
  {
    SeekThenMoveIsAtomic(content, run);
    var s := After(WithLock, content, run).value;
    hide After, Atomic, Logged;
    var fid := s.tasks[i].request.fid;
    var j := if fid in s.locks then s.locks[fid] else i;
    var stage := s.tasks[j].stage;
    var a := if stage.Waiting? then Lock(j) else if stage.Locked? then Seek(j) else if stage.Sought? then Move(j, 0)
             else Unlock(j);
    assert Enabled(WithLock, s, a);
  }

  /** The state in which a request that has just arrived has the lock and has sought. */
  function Begun(s: State, request: Request): State {
    s.(tasks := s.tasks + [Task(request, Sought)], locks := s.locks[request.fid := |s.tasks|],
       positions := s.positions[request.fid := request.offset])
  }

  lemma Begins(content: seq<u8>, run: seq<Action>, s: State, request: Request)
    requires After(WithLock, content, run) == Some(s) && request.fid !in s.locks
    ensures After(WithLock, content, run + [Arrive(request)] + [Lock(|s.tasks|)] + [Seek(|s.tasks|)])
         == Some(Begun(s, request))
  {
    hide After;
    var i := |s.tasks|;
    var s1 := s.(tasks := s.tasks + [Task(request, Waiting)]);
    var s2 := s.(tasks := s.tasks + [Task(request, Locked)], locks := s.locks[request.fid := i]);
    OneMore(WithLock, content, run, s, Arrive(request));
    assert Step(WithLock, s1, Lock(i)) == s2;
    OneMore(WithLock, content, run + [Arrive(request)], s1, Lock(i));
    assert Step(WithLock, s2, Seek(i)) == Begun(s, request);
    OneMore(WithLock, content, run + [Arrive(request)] + [Lock(i)], s2, Seek(i));
  }

  /** A request by itself: it can go through, a write is a `pwrite` and a read a `pread` of as much as is
      moved, and the lock is free again. */
  lemma Alone(content: seq<u8>, run: seq<Action>, request: Request, n: nat)
    requires After(WithLock, content, run).Some? && request.fid !in After(WithLock, content, run).value.locks
    requires n <= if request.Read? then request.count else |request.data|
    ensures var s := After(WithLock, content, run).value;
      var i := |s.tasks|;
      var t := After(WithLock, content, run + [Arrive(request)] + [Lock(i)] + [Seek(i)] + [Move(i, n)] + [Unlock(i)]);
      && t.Some? && t.value.locks == s.locks && |t.value.tasks| == i + 1 && t.value.tasks[..i] == s.tasks
      && (request.Read? ==>
            t.value.content == s.content
            && t.value.tasks[i] == Task(request, Released(PRead(s.content, request.offset, n))))
      && (request.Write? ==>
            t.value.content == PWrite(s.content, request.offset, request.data[..n])
            && t.value.tasks[i] == Task(request, Released([])))
  {
    hide After, PRead, PWrite;
    var s := After(WithLock, content, run).value;
    Begins(content, run, s, request);
    var (i, begun) := (|s.tasks|, Begun(s, request));
    var begin := run + [Arrive(request)] + [Lock(i)] + [Seek(i)];
    OneMore(WithLock, content, begin, begun, Move(i, n));
    OneMore(WithLock, content, begin + [Move(i, n)], Step(WithLock, begun, Move(i, n)), Unlock(i));
  }

  lemma {:induction false} ReplaySplit(content: seq<u8>, tasks: seq<Task>, a: seq<Transfer>, c: seq<Transfer>)
    requires forall t :: t in a || t in c ==> t.task < |tasks|
    ensures forall t :: t in a + c ==> t.task < |tasks|
    ensures Replay(content, tasks, a + c) == Replay(Replay(content, tasks, a), tasks, c)
  {
    if c == [] {
      assert a + c == a;
    } else {
      var (init, last) := (c[..|c| - 1], c[|c| - 1]);
      assert a + c == a + init + [last];
      ReplaySplit(content, tasks, a, init);
      ReplayPush(content, tasks, a + init, last);
      ReplayPush(Replay(content, tasks, a), tasks, init, last);
      assert init + [last] == c;
    }
  }

  /** The two transfers do not write to the same place. */
  predicate Apart(x: Request, n: nat, y: Request, m: nat) {
    x.Read? || y.Read? || x.offset + n <= y.offset || y.offset + m <= x.offset
  }

  lemma ApartCommute(content: seq<u8>, x: Request, n: nat, y: Request, m: nat)
    requires Apart(x, n, y, m)
    ensures Moved(Moved(content, x, x.offset, n), y, y.offset, m) == Moved(Moved(content, y, y.offset, m), x, x.offset, n)
  {
    if x.Write? && y.Write? && n <= |x.data| && m <= |y.data| {
      hide PWrite;
      if x.offset + n <= y.offset {
        DisjointWritesCommute(content, x.offset, x.data[..n], y.offset, y.data[..m]);
      } else {
        DisjointWritesCommute(content, y.offset, y.data[..m], x.offset, x.data[..n]);
      }
    }
  }

  /** Only the order of transfers that write to the same place matters to the content: others next to
      each other can change places. */
  lemma OrderOfOthersDoesNotMatter(
    content: seq<u8>, tasks: seq<Task>, a: seq<Transfer>, x: Transfer, y: Transfer, c: seq<Transfer>)
    requires x.task < |tasks| && y.task < |tasks| && forall t :: t in a || t in c ==> t.task < |tasks|
    requires Apart(tasks[x.task].request, x.amount, tasks[y.task].request, y.amount)
    ensures Replay(content, tasks, a + [x] + [y] + c) == Replay(content, tasks, a + [y] + [x] + c)
  {
    hide Apart, Moved, Replay;
    ReplaySplit(content, tasks, a + [x] + [y], c);
    ReplaySplit(content, tasks, a + [y] + [x], c);
    ReplayPush(content, tasks, a + [x], y);
    ReplayPush(content, tasks, a, x);
    ReplayPush(content, tasks, a + [y], x);
    ReplayPush(content, tasks, a, y);
    ApartCommute(Replay(content, tasks, a), tasks[x.task].request, x.amount, tasks[y.task].request, y.amount);
  }

  /** The order is the one in which the transfers happen: what has been moved by the time a request
      arrives comes before it. */
  lemma {:induction false} LogGrows(content: seq<u8>, run: seq<Action>, k: nat)
    requires k <= |run| && After(WithLock, content, run).Some?
    ensures After(WithLock, content, run[..k]).Some?
    ensures After(WithLock, content, run[..k]).value.log <= After(WithLock, content, run).value.log
  {
    if k < |run| {
      var (init, last) := (run[..|run| - 1], run[|run| - 1]);
      assert init[..k] == run[..k];
      SeekThenMoveIsAtomic(content, init);
      StepKeepsMoved(After(WithLock, content, init).value, last);
      LogGrows(content, init, k);
    } else {
      assert run[..k] == run;
    }
  }

  lemma OneMore(locking: Locking, content: seq<u8>, run: seq<Action>, s: State, a: Action)
    requires After(locking, content, run) == Some(s) && Enabled(locking, s, a)
    ensures After(locking, content, run + [a]) == Some(Step(locking, s, a))
  {
    assert (run + [a])[..|run|] == run;
  }

  /** Two tasks that have both sought, the second last. */
  function BothSought(w0: Request, w1: Request): State
    requires w0.fid == w1.fid
  {
    State([], map[w1.fid := w1.offset], map[w1.fid := 1], [Task(w0, Sought), Task(w1, Sought)], [])
  }

  lemma WithoutLockBothSeek(w0: Request, w1: Request)
    requires w0.fid == w1.fid
    ensures After(WithoutLock, [], [Arrive(w0), Arrive(w1), Lock(0), Lock(1), Seek(0), Seek(1)])
         == Some(BothSought(w0, w1))
  {
    var s1 := State([], map[], map[], [Task(w0, Waiting)], []);
    var s2 := State([], map[], map[], [Task(w0, Waiting), Task(w1, Waiting)], []);
    var s3 := State([], map[], map[w0.fid := 0], [Task(w0, Locked), Task(w1, Waiting)], []);
    var s4 := State([], map[], map[w0.fid := 1], [Task(w0, Locked), Task(w1, Locked)], []);
    var s5 := State([], map[w0.fid := w0.offset], map[w0.fid := 1], [Task(w0, Sought), Task(w1, Locked)], []);
    assert After(WithoutLock, [], []) == Some(Initial([]));
    hide After;
    Next([], Initial([]), Arrive(w0), [Arrive(w0)], s1);
    Next([Arrive(w0)], s1, Arrive(w1), [Arrive(w0), Arrive(w1)], s2);
    Next([Arrive(w0), Arrive(w1)], s2, Lock(0), [Arrive(w0), Arrive(w1), Lock(0)], s3);
    Next([Arrive(w0), Arrive(w1), Lock(0)], s3, Lock(1), [Arrive(w0), Arrive(w1), Lock(0), Lock(1)], s4);
    Next([Arrive(w0), Arrive(w1), Lock(0), Lock(1)], s4, Seek(0), [Arrive(w0), Arrive(w1), Lock(0), Lock(1), Seek(0)], s5);
    Next([Arrive(w0), Arrive(w1), Lock(0), Lock(1), Seek(0)], s5, Seek(1),
         [Arrive(w0), Arrive(w1), Lock(0), Lock(1), Seek(0), Seek(1)], BothSought(w0, w1));
  }

  lemma Next(run: seq<Action>, s: State, a: Action, more: seq<Action>, t: State)
    requires After(WithoutLock, [], run) == Some(s) && Enabled(WithoutLock, s, a) && more == run + [a]
    requires var u := Step(WithoutLock, s, a);
      u.content == t.content && u.positions == t.positions && u.locks == t.locks && u.tasks == t.tasks && u.log == t.log
    ensures After(WithoutLock, [], more) == Some(t)
  {
    OneMore(WithoutLock, [], run, s, a);
  }

  /** Without the lock it is not so: of two writes of one byte, at 0 and at 1, that both seek first,
      the one goes to the other's place and the other behind it, where in one piece, in any order, they
      give the two bytes. */
  lemma TheLockIsNeeded()
    ensures var (w0, w1) := (Write(1, 0, [7]), Write(1, 1, [8]));
            var run := [Arrive(w0), Arrive(w1), Lock(0), Lock(1), Seek(0), Seek(1)] + [Move(0, 1)] + [Move(1, 1)];
      && After(WithoutLock, [], run).Some?
      && After(WithoutLock, [], run).value.content == [0, 7, 8]
      && Moved(Moved([], w0, 0, 1), w1, 1, 1) == [7, 8] == Moved(Moved([], w1, 1, 1), w0, 0, 1)
  {
    var (w0, w1) := (Write(1, 0, [7]), Write(1, 1, [8]));
    hide After, Moved;
    WithoutLockBothSeek(w0, w1);
    var run := [Arrive(w0), Arrive(w1), Lock(0), Lock(1), Seek(0), Seek(1)];
    var s := BothSought(w0, w1);
    OneMore(WithoutLock, [], run, s, Move(0, 1));
    OneMore(WithoutLock, [], run + [Move(0, 1)], Step(WithoutLock, s, Move(0, 1)), Move(1, 1));
    TheBytes();
  }

  lemma TheBytes()
    ensures var (w0, w1) := (Write(1, 0, [7]), Write(1, 1, [8]));
      && Moved(Moved([], w0, 1, 1), w1, 2, 1) == [0, 7, 8]
      && Moved(Moved([], w0, 0, 1), w1, 1, 1) == [7, 8] == Moved(Moved([], w1, 1, 1), w0, 0, 1)
  {
    assert PWrite([], 1, [7]) == [0, 7] && PWrite([0, 7], 2, [8]) == [0, 7, 8];
    assert PWrite([], 0, [7]) == [7] && PWrite([7], 1, [8]) == [7, 8];
    assert PWrite([], 1, [8]) == [0, 8] && PWrite([0, 8], 0, [7]) == [7, 8];
  }
}
