/** Requests that do not conflict with those in flight can be thought of as served one at a time, in
    the order in which they arrive. */
module Serial {
  import opened Bytes
  import opened Wrappers
  import opened Fcalls
  import opened Dispatcher
  import opened DispatcherSafety

  // ------------------------------------------------------------------- one at a time

  datatype Served<A> = Served(table: map<u32, A>, answer: Result<Fcall, u32>)

  /** One request served alone: all of `dispatch_once` with nothing else in flight. */
  function Serve<A(!new)>(fs: Filesystem<A>, table: map<u32, A>, body: Fcall): Served<A> {
    if !Starts(table, body) then Served(table, Err(StartError(body)))
    else
      var out := fs.handle(body, Given(table, body));
      var handled := AfterHandler(fs, table, body);
      if out.answer.Err? then Served(handled, out.answer)
      else Served(Committed(handled, body, out.created), out.answer)
  }

  /** The request asks for `fid` to be bound. */
  predicate Binds(body: Fcall, fid: u32) {
    || (body.Tauth? && fid == body.afid)
    || (body.Tattach? && fid == body.fid)
    || ((body.Twalk? || body.Txattrwalk?) && fid == body.newfid)
  }

  /** A reply has no handler, and a request on a fid that is not there gets EBADF; only the afid of a
      Tattach may be missing. Neither changes the table. */
  lemma ServeRefuses<A(!new)>(fs: Filesystem<A>, table: map<u32, A>, body: Fcall)
    ensures IsR(body) ==> Serve(fs, table, body) == Served(table, Err(95))
    ensures !IsR(body) && !body.Tattach? && (exists f :: f in Fids(body) && f !in table) ==>
              Serve(fs, table, body) == Served(table, Err(9))
  {
    HandlersServeRequests(body);
    if !IsR(body) { LookupsAreFids(body); }
    hide Lookups, Fids, IsR, NewFid, AfterHandler, Given, Committed;
  }

  /** What the handler is given: the fids the request names, but not the afid of a Tattach. */
  function GivenFids<A>(table: map<u32, A>, body: Fcall): map<u32, A>
    requires !body.Tattach? ==> forall f :: f in Fids(body) ==> f in table
  {
    if body.Tattach? then map[] else map f | f in Fids(body) :: table[f]
  }

  /** Any other request is answered as its handler answers it. On success the fid of a Tclunk is gone and
      the fid to be bound holds what the handler made of it; a fid that was given and may be changed holds
      what the handler left in it, on success or not; every other fid is as it was. */
  lemma ServeMeans<A(!new)>(fs: Filesystem<A>, table: map<u32, A>, body: Fcall, fid: u32)
    requires !IsR(body) && (!body.Tattach? ==> forall f :: f in Fids(body) ==> f in table)
    ensures var (out, served) := (fs.handle(body, GivenFids(table, body)), Serve(fs, table, body));
      && served.answer == out.answer
      && (fid in served.table <==>
            || (out.answer.Ok? && Binds(body, fid))
            || (fid in table && !(out.answer.Ok? && body == Tclunk(fid))))
      && (fid in served.table ==>
            served.table[fid] ==
              if out.answer.Ok? && Binds(body, fid) then out.created
              else if fid in GivenFids(table, body) && fid in fs.mutates(body) && fid in out.after then out.after[fid]
              else table[fid])
  {
    HandlersServeRequests(body);
    LookupsAreFids(body);
    BindsMeans(body, fid);
    hide IsR, NewFid, Binds;
    assert body.Tattach? ==> Lookups(body) == Some([]);
    hide Fids, Lookups;
    assert Given(table, body) == GivenFids(table, body);
  }

  lemma BindsMeans(body: Fcall, fid: u32)
    ensures Binds(body, fid) <==> NewFid(body) == Some(fid)
  {
  }

  /** The table after the messages have been served one after another. */
  function ServeAll<A(!new)>(fs: Filesystem<A>, msgs: seq<Msg>): map<u32, A> {
    if msgs == [] then map[]
    else Serve(fs, ServeAll(fs, msgs[..|msgs| - 1]), msgs[|msgs| - 1].body).table
  }

  /** What message `i` finds, and what it is answered, when the messages are served in order. */
  function Found<A(!new)>(fs: Filesystem<A>, msgs: seq<Msg>, i: nat): map<u32, A>
    requires i < |msgs|
  {
    ServeAll(fs, msgs[..i])
  }

  function Answer<A(!new)>(fs: Filesystem<A>, msgs: seq<Msg>, i: nat): Result<Fcall, u32>
    requires i < |msgs|
  {
    Serve(fs, Found(fs, msgs, i), msgs[i].body).answer
  }

  // ------------------------------------------------------------------- footprints

  /** The fids a request may change: those its handler may change, the fid it binds, the fid it
      clunks. */
  function Writes<A(!new)>(fs: Filesystem<A>, body: Fcall): set<u32> {
    (LookupSet(body) * fs.mutates(body))
    + (match NewFid(body) case Some(f) => {f} case None => {})
    + (if body.Tclunk? then {body.fid} else {})
  }

  /** The fids a request depends on or may change. */
  function Touches<A(!new)>(fs: Filesystem<A>, body: Fcall): set<u32> {
    LookupSet(body) + Writes(fs, body)
  }

  predicate Conflict<A(!new)>(fs: Filesystem<A>, a: Fcall, b: Fcall) {
    !(Writes(fs, a) !! Touches(fs, b)) || !(Writes(fs, b) !! Touches(fs, a))
  }

  /** A run in which no message arrives while a conflicting one is in flight. */
  predicate Disciplined<A(!new)>(fs: Filesystem<A>, run: seq<Action>) {
    run == []
    || (var (before, last) := (After(fs, run[..|run| - 1]), run[|run| - 1]);
        && Disciplined(fs, run[..|run| - 1])
        && (before.Some? && last.Receive? ==>
              forall i :: i in before.value.tasks ==> !Conflict(fs, before.value.tasks[i].msg.body, last.msg.body)))
  }

  // ------------------------------------------------------------------- what a task sees

  /** The two tables hold the same under `fid`. */
  ghost predicate SameAt<A>(s: map<u32, A>, t: map<u32, A>, fid: u32) {
    (fid in s <==> fid in t) && (fid in s ==> s[fid] == t[fid])
  }

  ghost predicate SameOn<A>(s: map<u32, A>, t: map<u32, A>, fids: set<u32>) {
    forall f :: f in fids ==> SameAt(s, t, f)
  }

  /** The table a task that found `found` should see in its phase, on the fids it touches. */
  function View<A(!new)>(fs: Filesystem<A>, found: map<u32, A>, body: Fcall, phase: Phase<A>): map<u32, A> {
    match phase
    case Waiting => found
    case Running => found
    case Failed(_) => found
    case Handled(_, _) => AfterHandler(fs, found, body)
    case Done(_) => Serve(fs, found, body).table
  }

  /** The phase agrees with serving the request on what it found. */
  ghost predicate OnTrack<A(!new)>(fs: Filesystem<A>, found: map<u32, A>, body: Fcall, phase: Phase<A>) {
    match phase
    case Waiting => true
    case Running => Starts(found, body)
    case Failed(e) => !Starts(found, body) && e == StartError(body)
    case Handled(answer, created) =>
      Starts(found, body)
      && answer == fs.handle(body, Given(found, body)).answer
      && created == fs.handle(body, Given(found, body)).created
    case Done(answer) => Starts(found, body) && answer.Ok? && answer == Serve(fs, found, body).answer
  }

  lemma GivenSame<A>(s: map<u32, A>, t: map<u32, A>, body: Fcall)
    requires SameOn(s, t, LookupSet(body))
    ensures Given(s, body) == Given(t, body)
    ensures Starts(s, body) <==> Starts(t, body)
  {
    forall f | f in LookupSet(body) ensures SameAt(s, t, f) {}
  }

  /** Serving a request changes nothing but what it writes, and depends on nothing but what it
      touches. */
  lemma HandlerIsLocal<A(!new)>(fs: Filesystem<A>, s: map<u32, A>, t: map<u32, A>, body: Fcall, f: u32)
    requires Given(s, body) == Given(t, body) && SameAt(s, t, f)
    ensures SameAt(AfterHandler(fs, s, body), AfterHandler(fs, t, body), f)
  {
    hide Given, LookupSet;
  }

  lemma CommitIsLocal<A>(s: map<u32, A>, t: map<u32, A>, body: Fcall, created: A, f: u32)
    requires SameAt(s, t, f)
    ensures SameAt(Committed(s, body, created), Committed(t, body, created), f)
  {
  }

  lemma ServeIsLocal<A(!new)>(fs: Filesystem<A>, s: map<u32, A>, t: map<u32, A>, body: Fcall)
    requires SameOn(s, t, Touches(fs, body))
    ensures Serve(fs, s, body).answer == Serve(fs, t, body).answer
    ensures SameOn(Serve(fs, s, body).table, Serve(fs, t, body).table, Touches(fs, body))
    ensures SameOn(AfterHandler(fs, s, body), AfterHandler(fs, t, body), Touches(fs, body))
  {
    GivenSame(s, t, body);
    hide Given, LookupSet, Writes, AfterHandler, Committed, SameAt, Starts;
    var created := fs.handle(body, Given(s, body)).created;
    forall f | f in Touches(fs, body)
      ensures SameAt(AfterHandler(fs, s, body), AfterHandler(fs, t, body), f)
      ensures SameAt(Serve(fs, s, body).table, Serve(fs, t, body).table, f)
    {
      HandlerIsLocal(fs, s, t, body, f);
      CommitIsLocal(AfterHandler(fs, s, body), AfterHandler(fs, t, body), body, created, f);
    }
  }

  lemma ServeWrites<A(!new)>(fs: Filesystem<A>, s: map<u32, A>, body: Fcall, f: u32)
    requires f !in Writes(fs, body)
    ensures SameAt(s, Serve(fs, s, body).table, f) && SameAt(s, AfterHandler(fs, s, body), f)
  {
  }

  // ------------------------------------------------------------------- the simulation

  /** Task `i` sees what it would see if it were served after the messages before it. */
  ghost predicate TaskTracks<A(!new)>(fs: Filesystem<A>, s: State<A>, i: nat)
    requires i in s.tasks
  {
    && i < |s.received| && s.tasks[i].msg == s.received[i]
    && var found := Found(fs, s.received, i);
    && var Task(msg, phase) := s.tasks[i];
    && OnTrack(fs, found, msg.body, phase)
    && SameOn(s.table, View(fs, found, msg.body, phase), Touches(fs, msg.body))
    && SameOn(ServeAll(fs, s.received), Serve(fs, found, msg.body).table, Writes(fs, msg.body))
  }

  ghost predicate NoConflicts<A(!new)>(fs: Filesystem<A>, s: State<A>) {
    forall i, j :: i in s.tasks && j in s.tasks && i != j ==> !Conflict(fs, s.tasks[i].msg.body, s.tasks[j].msg.body)
  }

  /** No task in flight may change `fid`. */
  ghost predicate Quiet<A(!new)>(fs: Filesystem<A>, s: State<A>, fid: u32) {
    forall i :: i in s.tasks ==> fid !in Writes(fs, s.tasks[i].msg.body)
  }

  /** The concurrent state follows serving the messages in order of arrival. */
  ghost predicate Tracks<A(!new)>(fs: Filesystem<A>, s: State<A>) {
    && NoConflicts(fs, s)
    && (forall i :: i in s.tasks ==> TaskTracks(fs, s, i))
    && (forall f: u32 :: Quiet(fs, s, f) ==> SameAt(s.table, ServeAll(fs, s.received), f))
    && (forall f :: f in s.finished ==> f.task < |s.received| && f.answer == Answer(fs, s.received, f.task))
  }

  /** A step of task `i` that changes nothing but what it writes leaves the other tasks on track. */
  lemma OthersTrack<A(!new)>(fs: Filesystem<A>, s: State<A>, t: State<A>, i: nat)
    requires Tracks(fs, s) && i in s.tasks && t.tasks.Keys == s.tasks.Keys && t.received == s.received
    requires forall j :: j in s.tasks && j != i ==> t.tasks[j] == s.tasks[j]
    requires t.tasks[i].msg == s.tasks[i].msg
    requires forall f: u32 :: f !in Writes(fs, s.tasks[i].msg.body) ==> SameAt(s.table, t.table, f)
    ensures NoConflicts(fs, t)
    ensures forall j :: j in t.tasks && j != i ==> TaskTracks(fs, t, j)
    ensures forall f: u32 :: Quiet(fs, t, f) ==> SameAt(t.table, ServeAll(fs, t.received), f)
  {
    hide ServeAll, View, OnTrack, Serve;
    forall j | j in t.tasks && j != i ensures TaskTracks(fs, t, j) {
      assert TaskTracks(fs, s, j);
      assert !Conflict(fs, s.tasks[i].msg.body, s.tasks[j].msg.body);
    }
    forall f: u32 | Quiet(fs, t, f) ensures SameAt(t.table, ServeAll(fs, t.received), f) {
      assert Quiet(fs, s, f);
    }
  }

  lemma OwnLookup<A(!new)>(fs: Filesystem<A>, s: State<A>, i: nat)
    requires Enabled(s, Lookup(i)) && TaskTracks(fs, s, i)
    ensures TaskTracks(fs, Step(fs, s, Lookup(i)), i)
  {
    hide LookupSet, Writes, ServeAll, Serve, Given, Found;
    GivenSame(s.table, Found(fs, s.received, i), s.tasks[i].msg.body);
  }

  lemma OwnHandle<A(!new)>(fs: Filesystem<A>, s: State<A>, i: nat)
    requires Enabled(s, Handle(i)) && TaskTracks(fs, s, i)
    ensures TaskTracks(fs, Step(fs, s, Handle(i)), i)
  {
    hide LookupSet, Writes, ServeAll, Serve, Given, Found, AfterHandler, Starts;
    var (body, found) := (s.tasks[i].msg.body, Found(fs, s.received, i));
    GivenSame(s.table, found, body);
    ServeIsLocal(fs, s.table, found, body);
  }

  /** Committing on tables that agree somewhere gives tables that agree there. */
  lemma CommittedSame<A(!new)>(s: map<u32, A>, t: map<u32, A>, body: Fcall, created: A, fids: set<u32>)
    requires SameOn(s, t, fids)
    ensures SameOn(Committed(s, body, created), Committed(t, body, created), fids)
  {
    hide SameAt, Committed;
    forall f | f in fids ensures SameAt(Committed(s, body, created), Committed(t, body, created), f) {
      CommitIsLocal(s, t, body, created, f);
    }
  }

  lemma OwnCommit<A(!new)>(fs: Filesystem<A>, s: State<A>, i: nat)
    requires Enabled(s, Commit(i)) && TaskTracks(fs, s, i)
    ensures TaskTracks(fs, Step(fs, s, Commit(i)), i)
  {
    hide LookupSet, Lookups, NewFid, Updates, Writes, ServeAll, Given, Found, AfterHandler, Starts, Committed;
    var (body, found) := (s.tasks[i].msg.body, Found(fs, s.received, i));
    CommittedSame(s.table, AfterHandler(fs, found, body), body, s.tasks[i].phase.created, Touches(fs, body));
  }

  lemma LookupTracks<A(!new)>(fs: Filesystem<A>, s: State<A>, i: nat)
    requires Tracks(fs, s) && Enabled(s, Lookup(i))
    ensures Tracks(fs, Step(fs, s, Lookup(i)))
  {
    hide TaskTracks, NoConflicts, Quiet, Writes, Starts, ServeAll, Answer;
    OwnLookup(fs, s, i);
    OthersTrack(fs, s, Step(fs, s, Lookup(i)), i);
  }

  lemma HandleTracks<A(!new)>(fs: Filesystem<A>, s: State<A>, i: nat)
    requires Tracks(fs, s) && Enabled(s, Handle(i))
    ensures Tracks(fs, Step(fs, s, Handle(i)))
  {
    hide TaskTracks, NoConflicts, Quiet, Writes, Given, AfterHandler, ServeAll, Serve, Answer;
    var (t, body) := (Step(fs, s, Handle(i)), s.tasks[i].msg.body);
    forall f: u32 | f !in Writes(fs, body) ensures SameAt(s.table, t.table, f) { ServeWrites(fs, s.table, body, f); }
    OwnHandle(fs, s, i);
    OthersTrack(fs, s, t, i);
  }

  lemma CommitWrites<A(!new)>(fs: Filesystem<A>, table: map<u32, A>, body: Fcall, created: A, f: u32)
    requires f !in Writes(fs, body)
    ensures SameAt(table, Committed(table, body, created), f)
  {
    hide LookupSet, NewFid;
  }

  lemma CommitTracks<A(!new)>(fs: Filesystem<A>, s: State<A>, i: nat)
    requires Tracks(fs, s) && Enabled(s, Commit(i))
    ensures Tracks(fs, Step(fs, s, Commit(i)))
  {
    hide TaskTracks, NoConflicts, Quiet, Writes, Updates, Committed, ServeAll, Answer;
    var (t, body) := (Step(fs, s, Commit(i)), s.tasks[i].msg.body);
    forall f: u32 | f !in Writes(fs, body) ensures SameAt(s.table, t.table, f) {
      CommitWrites(fs, s.table, body, s.tasks[i].phase.created, f);
    }
    OwnCommit(fs, s, i);
    OthersTrack(fs, s, t, i);
  }

  /** A task about to reply has done all that serving its request does, and has its answer. */
  lemma OwnReply<A(!new)>(fs: Filesystem<A>, s: State<A>, i: nat)
    requires Enabled(s, Action.Reply(i)) && TaskTracks(fs, s, i)
    ensures SameOn(s.table, ServeAll(fs, s.received), Writes(fs, s.tasks[i].msg.body))
    ensures AnswerOf(s.tasks[i].phase) == Answer(fs, s.received, i)
  {
    hide LookupSet, Lookups, Writes, ServeAll, Given, AfterHandler, Committed, Found;
    var (body, found) := (s.tasks[i].msg.body, Found(fs, s.received, i));
    assert SameOn(s.table, Serve(fs, found, body).table, Touches(fs, body));
    forall f | f in Writes(fs, body) ensures SameAt(s.table, ServeAll(fs, s.received), f) {
      assert SameAt(s.table, Serve(fs, found, body).table, f);
      assert SameAt(ServeAll(fs, s.received), Serve(fs, found, body).table, f);
    }
  }

  lemma ReplyTracks<A(!new)>(fs: Filesystem<A>, s: State<A>, i: nat)
    requires Tracks(fs, s) && Enabled(s, Action.Reply(i))
    ensures Tracks(fs, Step(fs, s, Action.Reply(i)))
  {
    hide Writes, ServeAll, Serve, View, OnTrack, Answer, AnswerOf, Found;
    var t := Step(fs, s, Action.Reply(i));
    assert TaskTracks(fs, s, i);
    OwnReply(fs, s, i);
    forall j | j in t.tasks ensures TaskTracks(fs, t, j) { assert TaskTracks(fs, s, j); }
    forall f: u32 | Quiet(fs, t, f) ensures SameAt(t.table, ServeAll(fs, t.received), f) {
      if f !in Writes(fs, s.tasks[i].msg.body) {
        forall j | j in s.tasks ensures f !in Writes(fs, s.tasks[j].msg.body) {
          assert j != i ==> j in t.tasks && t.tasks[j] == s.tasks[j];
        }
        assert Quiet(fs, s, f);
      }
    }
  }

  lemma ServeAllMore<A(!new)>(fs: Filesystem<A>, received: seq<Msg>, msg: Msg)
    ensures ServeAll(fs, received + [msg]) == Serve(fs, ServeAll(fs, received), msg.body).table
    ensures forall i :: 0 <= i < |received| ==> Found(fs, received + [msg], i) == Found(fs, received, i)
    ensures Found(fs, received + [msg], |received|) == ServeAll(fs, received)
    ensures forall i :: 0 <= i < |received| ==> Answer(fs, received + [msg], i) == Answer(fs, received, i)
  {
    hide Serve;
    assert (received + [msg])[..|received|] == received;
    forall i | 0 <= i < |received| ensures Found(fs, received + [msg], i) == Found(fs, received, i) {
      assert (received + [msg])[..i] == received[..i];
    }
  }

  lemma OthersReceive<A(!new)>(fs: Filesystem<A>, s: State<A>, msg: Msg, j: nat)
    requires j in s.tasks && TaskTracks(fs, s, j) && |s.received| !in s.tasks
    requires !Conflict(fs, s.tasks[j].msg.body, msg.body)
    ensures TaskTracks(fs, Step(fs, s, Receive(msg)), j)
  {
    hide LookupSet, Writes, ServeAll, Serve, View, OnTrack, Found;
    var t := Step(fs, s, Receive(msg));
    var all := ServeAll(fs, s.received);
    ServeAllMore(fs, s.received, msg);
    forall f | f in Writes(fs, s.tasks[j].msg.body)
      ensures SameAt(ServeAll(fs, t.received), Serve(fs, Found(fs, s.received, j), s.tasks[j].msg.body).table, f)
    {
      assert f !in Writes(fs, msg.body);
      ServeWrites(fs, all, msg.body, f);
      assert SameAt(all, Serve(fs, Found(fs, s.received, j), s.tasks[j].msg.body).table, f);
    }
  }

  lemma OwnReceive<A(!new)>(fs: Filesystem<A>, s: State<A>, msg: Msg)
    requires Tracks(fs, s) && |s.received| !in s.tasks
    requires forall i :: i in s.tasks ==> !Conflict(fs, s.tasks[i].msg.body, msg.body)
    ensures TaskTracks(fs, Step(fs, s, Receive(msg)), |s.received|)
  {
    hide LookupSet, Writes, ServeAll, Serve, NoConflicts, Found;
    var all := ServeAll(fs, s.received);
    ServeAllMore(fs, s.received, msg);
    forall f | f in Touches(fs, msg.body) ensures SameAt(s.table, all, f) { assert Quiet(fs, s, f); }
  }

  lemma ReceiveTracks<A(!new)>(fs: Filesystem<A>, s: State<A>, msg: Msg)
    requires Tracks(fs, s) && |s.received| !in s.tasks
    requires forall i :: i in s.tasks ==> !Conflict(fs, s.tasks[i].msg.body, msg.body)
    ensures Tracks(fs, Step(fs, s, Receive(msg)))
  {
    hide LookupSet, Touches, Writes, ServeAll, Serve, TaskTracks, Found, Answer;
    var t := Step(fs, s, Receive(msg));
    var n := |s.received|;
    var all := ServeAll(fs, s.received);
    ServeAllMore(fs, s.received, msg);
    OwnReceive(fs, s, msg);
    forall j | j in s.tasks ensures TaskTracks(fs, t, j) { OthersReceive(fs, s, msg, j); }
    forall f: u32 | Quiet(fs, t, f) ensures SameAt(t.table, ServeAll(fs, t.received), f) {
      forall i | i in s.tasks ensures f !in Writes(fs, s.tasks[i].msg.body) { assert t.tasks[i] == s.tasks[i]; }
      assert Quiet(fs, s, f);
      assert f !in Writes(fs, t.tasks[n].msg.body);
      ServeWrites(fs, all, msg.body, f);
    }
    forall i, j | i in t.tasks && j in t.tasks && i != j
      ensures !Conflict(fs, t.tasks[i].msg.body, t.tasks[j].msg.body) {}
  }

  /** Every reachable state of a disciplined run follows the serial order. */
  lemma {:induction false} RunsTrack<A(!new)>(fs: Filesystem<A>, run: seq<Action>)
    requires Disciplined(fs, run) && After(fs, run).Some?
    ensures Tracks(fs, After(fs, run).value)
  {
    hide Tracks, Conflict, Enabled, Step;
    if run == [] {
      InitialTracks(fs);
    } else {
      var (before, last) := (After(fs, run[..|run| - 1]).value, run[|run| - 1]);
      RunsTrack(fs, run[..|run| - 1]);
      match last
      case Receive(msg) =>
        RunsAreSafe(fs, run[..|run| - 1]);
        ReceiveTracks(fs, before, msg);
      case Lookup(i) => LookupTracks(fs, before, i);
      case Handle(i) => HandleTracks(fs, before, i);
      case Commit(i) => CommitTracks(fs, before, i);
      case Reply(i) => ReplyTracks(fs, before, i);
    }
  }

  lemma InitialTracks<A(!new)>(fs: Filesystem<A>)
    ensures Tracks(fs, Initial())
  {
  }

  /** Serialisability: in any run in which no message arrives while a conflicting one is in flight,
      however lookups, handlers, commits and replies interleave, every answer given is the one the
      request would get if the messages were served one at a time in their order of arrival; and
      whenever nothing is in flight, the fid table is the one that leaves behind. */
  lemma Serialisable<A(!new)>(fs: Filesystem<A>, run: seq<Action>)
    requires Disciplined(fs, run) && After(fs, run).Some?
    ensures var s := After(fs, run).value;
      && (forall f :: f in s.finished ==> f.task < |s.received| && f.answer == Answer(fs, s.received, f.task))
      && (s.tasks == map[] ==> s.table == ServeAll(fs, s.received))
  {
    RunsTrack(fs, run);
    var s := After(fs, run).value;
    if s.tasks == map[] {
      forall f: u32 ensures SameAt(s.table, ServeAll(fs, s.received), f) { assert Quiet(fs, s, f); }
      hide ServeAll;
      forall f | f in s.table ensures f in ServeAll(fs, s.received) && s.table[f] == ServeAll(fs, s.received)[f] {
        assert SameAt(s.table, ServeAll(fs, s.received), f);
      }
      forall f | f in ServeAll(fs, s.received) ensures f in s.table {
        assert SameAt(s.table, ServeAll(fs, s.received), f);
      }
    }
  }

  // ------------------------------------------------------------------- disjoint fids

  /** The fids that a request names, and the one it binds. */
  function Footprint(body: Fcall): set<u32> {
    (set f | f in Fids(body)) + (match NewFid(body) case Some(f) => {f} case None => {})
  }

  lemma TouchesItsFootprint<A(!new)>(fs: Filesystem<A>, body: Fcall)
    ensures Touches(fs, body) <= Footprint(body)
  {
    if Lookups(body).Some? { LookupsAreFids(body); }
  }

  /** A run in which requests in flight together have disjoint footprints. */
  predicate DisjointFids<A(!new)>(fs: Filesystem<A>, run: seq<Action>) {
    run == []
    || (var (before, last) := (After(fs, run[..|run| - 1]), run[|run| - 1]);
        && DisjointFids(fs, run[..|run| - 1])
        && (before.Some? && last.Receive? ==>
              forall i :: i in before.value.tasks ==>
                Footprint(before.value.tasks[i].msg.body) !! Footprint(last.msg.body)))
  }

  lemma {:induction false} DisjointIsDisciplined<A(!new)>(fs: Filesystem<A>, run: seq<Action>)
    requires DisjointFids(fs, run)
    ensures Disciplined(fs, run)
  {
    hide Footprint, Touches, Writes, Step, Enabled;
    if run != [] {
      var (before, last) := (After(fs, run[..|run| - 1]), run[|run| - 1]);
      DisjointIsDisciplined(fs, run[..|run| - 1]);
      if before.Some? && last.Receive? {
        forall i | i in before.value.tasks ensures !Conflict(fs, before.value.tasks[i].msg.body, last.msg.body) {
          DisjointNoConflict(fs, before.value.tasks[i].msg.body, last.msg.body);
        }
      }
    }
  }

  lemma DisjointNoConflict<A(!new)>(fs: Filesystem<A>, a: Fcall, b: Fcall)
    requires Footprint(a) !! Footprint(b)
    ensures !Conflict(fs, a, b)
  {
    TouchesItsFootprint(fs, a);
    TouchesItsFootprint(fs, b);
    hide Footprint, Writes, LookupSet;
  }

  /** In particular requests on disjoint fids are answered, and leave the table, as if they were served
      one at a time. */
  lemma SerialisableOnDisjointFids<A(!new)>(fs: Filesystem<A>, run: seq<Action>)
    requires DisjointFids(fs, run) && After(fs, run).Some?
    ensures var s := After(fs, run).value;
      && (forall f :: f in s.finished ==> f.task < |s.received| && f.answer == Answer(fs, s.received, f.task))
      && (s.tasks == map[] ==> s.table == ServeAll(fs, s.received))
  {
    DisjointIsDisciplined(fs, run);
    Serialisable(fs, run);
  }

  // ------------------------------------------------------------------- without the discipline

  lemma RunOn<A(!new)>(fs: Filesystem<A>, run: seq<Action>, s: State<A>, a: Action)
    requires After(fs, run) == Some(s) && Enabled(s, a)
    ensures After(fs, run + [a]) == Some(Step(fs, s, a))
  {
    assert (run + [a])[..|run|] == run;
  }

  lemma EarlyRun<A(!new)>(fs: Filesystem<A>, attach: Msg, clunk: Msg)
    requires attach.body.Tattach? && clunk.body == Tclunk(attach.body.fid)
    ensures var run := [Receive(attach)] + [Receive(clunk)] + [Lookup(1)] + [Action.Reply(1)];
      && After(fs, run).Some?
      && After(fs, run).value.finished == [Finish(1, Err(EBADF))]
      && After(fs, run).value.received == [attach, clunk]
  {
    hide After;
    var r1 := [Receive(attach)];
    var r2 := r1 + [Receive(clunk)];
    var s1 := Step(fs, Initial(), Receive(attach));
    var s2 := Step(fs, s1, Receive(clunk));
    var s3 := Step(fs, s2, Lookup(1));
    NothingYet(fs);
    assert [] + r1 == r1;
    assert LookupSet(clunk.body) == {attach.body.fid} && s2.table == map[];
    RunOn(fs, [], Initial(), Receive(attach));
    RunOn(fs, r1, s1, Receive(clunk));
    RunOn(fs, r2, s2, Lookup(1));
    RunOn(fs, r2 + [Lookup(1)], s3, Action.Reply(1));
  }

  /** Without that it is not so: a Tclunk sent before the Tattach it depends on has been replied to can
      fail, where served in order it succeeds. */
  lemma EarlyRequestFails<A(!new)>(fs: Filesystem<A>, attach: Msg, clunk: Msg)
    requires attach.body.Tattach? && clunk.body == Tclunk(attach.body.fid)
    requires forall given :: fs.handle(attach.body, given).answer.Ok? && fs.handle(clunk.body, given).answer.Ok?
    ensures var run := [Receive(attach)] + [Receive(clunk)] + [Lookup(1)] + [Action.Reply(1)];
      && After(fs, run).Some? && After(fs, run).value.received == [attach, clunk]
      && After(fs, run).value.finished == [Finish(1, Err(EBADF))]
      && Answer(fs, [attach, clunk], 1).Ok?
      && !Disciplined(fs, run)
  {
    hide After, Disciplined, Answer;
    EarlyRun(fs, attach, clunk);
    ClunkAfterAttach(fs, attach, clunk);
    var run := [Receive(attach)] + [Receive(clunk)] + [Lookup(1)] + [Action.Reply(1)];
    var f := Finish(1, Err(EBADF));
    assert f in After(fs, run).value.finished;
    if Disciplined(fs, run) {
      Serialisable(fs, run);
    }
  }

  lemma NothingYet<A(!new)>(fs: Filesystem<A>)
    ensures After(fs, []) == Some(Initial())
  {
  }

  lemma ClunkAfterAttach<A(!new)>(fs: Filesystem<A>, attach: Msg, clunk: Msg)
    requires attach.body.Tattach? && clunk.body == Tclunk(attach.body.fid)
    requires forall given :: fs.handle(attach.body, given).answer.Ok? && fs.handle(clunk.body, given).answer.Ok?
    ensures Answer(fs, [attach, clunk], 1).Ok?
  {
    var fid := attach.body.fid;
    assert LookupSet(attach.body) == {} && LookupSet(clunk.body) == {fid};
    assert [attach, clunk][..1] == [attach] && [attach][..0] == [];
    assert ServeAll(fs, []) == map[];
    var table := ServeAll(fs, [attach]);
    assert table == Serve(fs, map[], attach.body).table;
    assert fid in table;
  }
}
