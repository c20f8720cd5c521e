/** What holds in every reachable state of the dispatcher, whatever the interleaving. */
module DispatcherSafety {
  import opened Bytes
  import opened Wrappers
  import opened Fcalls
  import opened Dispatcher

  // ------------------------------------------------------------------- the fid table's history

  /** The last change made to `fid` bound it. */
  predicate Bound(log: seq<Update>, fid: u32) {
    if log == [] then false
    else
      var last := log[|log| - 1];
      if last.fid == fid then last.Insert? else Bound(log[..|log| - 1], fid)
  }

  lemma {:induction false} BoundAppend(log: seq<Update>, more: seq<Update>, fid: u32)
    ensures (forall u :: u in more ==> u.fid != fid) ==> Bound(log + more, fid) == Bound(log, fid)
    ensures more != [] && more[|more| - 1].fid == fid ==> Bound(log + more, fid) == more[|more| - 1].Insert?
  {
    if more == [] {
      assert log + more == log;
    } else {
      assert (log + more)[..|log + more| - 1] == log + more[..|more| - 1];
      BoundAppend(log, more[..|more| - 1], fid);
    }
  }

  /** Bound means: inserted, and not removed after that. */
  lemma {:induction false} BoundMeans(log: seq<Update>, fid: u32)
    ensures Bound(log, fid) <==>
              exists k :: 0 <= k < |log| && log[k].Insert? && log[k].fid == fid
                       && forall j :: k < j < |log| ==> log[j].Insert? || log[j].fid != fid
  {
    if log != [] {
      var (init, last) := (log[..|log| - 1], log[|log| - 1]);
      BoundMeans(init, fid);
      if last.fid == fid && last.Insert? {
        assert log[|log| - 1].Insert?;
      } else if last.fid != fid && Bound(init, fid) {
        var k :| 0 <= k < |init| && init[k].Insert? && init[k].fid == fid
              && forall j :: k < j < |init| ==> init[j].Insert? || init[j].fid != fid;
        assert log[k] == init[k];
        assert forall j :: k < j < |init| ==> log[j] == init[j];
      }
    }
  }

  // ------------------------------------------------------------------- the invariant

  /** Every task is in flight or has finished, and has finished at most once. */
  ghost predicate Accounted<A(!new)>(s: State<A>) {
    && (forall i :: i in s.tasks ==> i < |s.received| && s.tasks[i].msg == s.received[i])
    && (forall k :: 0 <= k < |s.finished| ==>
          s.finished[k].task < |s.received| && s.finished[k].task !in s.tasks)
    && (forall j, k :: 0 <= j < k < |s.finished| ==> s.finished[j].task != s.finished[k].task)
    && (forall i :: 0 <= i < |s.received| ==> i in s.tasks || exists k :: 0 <= k < |s.finished| && s.finished[k].task == i)
  }

  /** The table holds the fids its history says, and a running handler's fids are among them. */
  ghost predicate TableSound<A(!new)>(s: State<A>) {
    && (forall f :: f in s.table <==> Bound(s.log, f))
    && (forall i :: i in s.tasks && s.tasks[i].phase.Running? ==> Starts(s.table, s.tasks[i].msg.body))
  }

  ghost predicate DoneLogged<A(!new)>(s: State<A>) {
    && (forall i, u :: i in s.tasks && s.tasks[i].phase.Done? && u in Updates(i, s.tasks[i].msg.body) ==> u in s.log)
    && (forall i :: i in s.tasks && s.tasks[i].phase.Done? ==> s.tasks[i].phase.answer.Ok?)
  }

  ghost predicate FinishedLogged<A(!new)>(s: State<A>) {
    && (forall f, u | f in s.finished && f.answer.Ok? && f.task < |s.received| ::
          u in Updates(f.task, s.received[f.task].body) ==> u in s.log)
    && (forall f, u :: f in s.finished && u in s.log && u.task == f.task ==> f.answer.Ok?)
  }

  ghost predicate LogOwned<A(!new)>(s: State<A>) {
    forall u :: u in s.log ==>
      && u.task < |s.received| && u in Updates(u.task, s.received[u.task].body)
      && (u.task in s.tasks ==> s.tasks[u.task].phase.Done?)
  }

  /** Exactly the tasks that succeeded and have committed have their changes in the log. */
  ghost predicate LogSound<A(!new)>(s: State<A>) {
    DoneLogged(s) && FinishedLogged(s) && LogOwned(s)
  }

  ghost predicate Safe<A(!new)>(s: State<A>) {
    Accounted(s) && TableSound(s) && LogSound(s)
  }

  /** A lookup, a handler or a commit neither starts nor ends a task. */
  lemma QuietStep<A(!new)>(fs: Filesystem<A>, s: State<A>, a: Action)
    requires Enabled(s, a) && !a.Receive? && !a.Reply?
    ensures var t := Step(fs, s, a);
      && t.tasks.Keys == s.tasks.Keys && t.finished == s.finished && t.received == s.received
      && forall i :: i in s.tasks ==> t.tasks[i].msg == s.tasks[i].msg
  {
    hide Lookups, LookupSet, Updates, NewFid, Starts;
  }

  lemma StepAccounted<A(!new)>(fs: Filesystem<A>, s: State<A>, a: Action)
    requires Accounted(s) && Enabled(s, a)
    ensures Accounted(Step(fs, s, a))
  {
    match a
    case Receive(msg) =>
    case Reply(i) => ReplyAccounted(fs, s, i);
    case _ =>
      QuietStep(fs, s, a);
      hide Step;
  }

  lemma ReplyAccounted<A(!new)>(fs: Filesystem<A>, s: State<A>, i: nat)
    requires Accounted(s) && Enabled(s, Action.Reply(i))
    ensures Accounted(Step(fs, s, Action.Reply(i)))
  {
    var t := Step(fs, s, Action.Reply(i));
    assert t.finished[|s.finished|].task == i;
    forall j | 0 <= j < |t.received| ensures j in t.tasks || exists k :: 0 <= k < |t.finished| && t.finished[k].task == j {
      if j !in t.tasks && j != i {
        var k :| 0 <= k < |s.finished| && s.finished[k].task == j;
        assert t.finished[k].task == j;
      }
    }
  }

  lemma CommitTableSound<A(!new)>(fs: Filesystem<A>, s: State<A>, i: nat)
    requires Safe(s) && Enabled(s, Commit(i))
    ensures TableSound(Step(fs, s, Commit(i)))
  {
    hide Lookups, LookupSet, Accounted, LogSound;
    var t := Step(fs, s, Commit(i));
    var updates := Updates(i, s.tasks[i].msg.body);
    forall f ensures f in t.table <==> Bound(t.log, f) {
      BoundAppend(s.log, updates, f);
    }
    if updates == [] {
      assert t.table == s.table;
    }
  }

  lemma StepTableSound<A(!new)>(fs: Filesystem<A>, s: State<A>, a: Action)
    requires Safe(s) && Enabled(s, a)
    ensures TableSound(Step(fs, s, a))
  {
    match a
    case Commit(i) => CommitTableSound(fs, s, i);
    case _ => hide Lookups, NewFid, Updates, Bound, LogSound;
  }

  lemma StepLogSound<A(!new)>(fs: Filesystem<A>, s: State<A>, a: Action)
    requires Accounted(s) && LogSound(s) && Enabled(s, a)
    ensures LogSound(Step(fs, s, a))
  {
    hide Accounted;
    match a
    case Commit(i) => CommitLogSound(fs, s, i);
    case Reply(i) => ReplyLogSound(fs, s, i);
    case Receive(msg) => ReceiveLogSound(fs, s, msg);
    case _ =>
      var t := Step(fs, s, a);
      assert t.finished == s.finished && t.received == s.received && t.log == s.log;
  }

  lemma ReceiveLogSound<A(!new)>(fs: Filesystem<A>, s: State<A>, msg: Msg)
    requires Accounted(s) && LogSound(s)
    ensures LogSound(Step(fs, s, Receive(msg)))
  {
  }

  lemma ReplyLogSound<A(!new)>(fs: Filesystem<A>, s: State<A>, i: nat)
    requires Accounted(s) && LogSound(s) && Enabled(s, Action.Reply(i))
    ensures LogSound(Step(fs, s, Action.Reply(i)))
  {
  }

  lemma CommitLogSound<A(!new)>(fs: Filesystem<A>, s: State<A>, i: nat)
    requires Accounted(s) && LogSound(s) && Enabled(s, Commit(i))
    ensures LogSound(Step(fs, s, Commit(i)))
  {
    hide Lookups, LookupSet, NewFid, Committed;
    var t := Step(fs, s, Commit(i));
    assert forall u :: u in Updates(i, s.tasks[i].msg.body) ==> u.task == i;
    assert DoneLogged(t) by { hide FinishedLogged, LogOwned, Updates; }
    assert FinishedLogged(t) by { hide DoneLogged, LogOwned, Updates; }
    assert LogOwned(t) by { hide DoneLogged, FinishedLogged, Updates; }
    hide DoneLogged, FinishedLogged, LogOwned;
  }

  /** The invariant holds in every reachable state. */
  lemma {:induction false} RunsAreSafe<A(!new)>(fs: Filesystem<A>, run: seq<Action>)
    ensures After(fs, run).Some? ==> Safe(After(fs, run).value)
  {
    if run != [] {
      var (before, last) := (After(fs, run[..|run| - 1]), run[|run| - 1]);
      RunsAreSafe(fs, run[..|run| - 1]);
      if before.Some? && Enabled(before.value, last) {
        StepAccounted(fs, before.value, last);
        StepTableSound(fs, before.value, last);
        StepLogSound(fs, before.value, last);
      }
    }
  }

  // ------------------------------------------------------------------- replies

  function Tags(msgs: seq<Msg>): multiset<u16> {
    if msgs == [] then multiset{} else Tags(msgs[..|msgs| - 1]) + multiset{msgs[|msgs| - 1].tag}
  }

  function FinishedTags(received: seq<Msg>, finished: seq<Finish>): multiset<u16>
    requires forall f :: f in finished ==> f.task < |received|
  {
    if finished == [] then multiset{}
    else
      FinishedTags(received, finished[..|finished| - 1]) + multiset{received[finished[|finished| - 1].task].tag}
  }

  /** The elements among the first `n` whose indices are in `at`. */
  function Select<T>(xs: seq<T>, at: set<nat>, n: nat): multiset<T>
    requires n <= |xs|
  {
    if n == 0 then multiset{}
    else Select(xs, at, n - 1) + (if n - 1 in at then multiset{xs[n - 1]} else multiset{})
  }

  lemma Regroup<T>(a: multiset<T>, b: multiset<T>, c: multiset<T>)
    ensures a + b + c == a + c + b == a + (b + c)
  {
  }

  lemma Shift<T>(whole: multiset<T>, part: multiset<T>, x: multiset<T>, more: multiset<T>,
                 whole2: multiset<T>, part2: multiset<T>)
    requires whole == part + x && whole2 == whole + more && part2 == part + more
    ensures whole2 == part2 + x
  {
    Regroup(part, x, more);
  }

  lemma Extend<T>(whole: multiset<T>, rest: multiset<T>, part: multiset<T>, x: multiset<T>,
                  whole2: multiset<T>, part2: multiset<T>)
    requires whole == rest + part && whole2 == whole + x && part2 == part + x
    ensures whole2 == rest + part2
  {
    Regroup(rest, part, x);
  }

  lemma Handover<T>(whole: multiset<T>, from: multiset<T>, to: multiset<T>, x: multiset<T>,
                    from2: multiset<T>, to2: multiset<T>)
    requires whole == to + from && from == from2 + x && to2 == to + x
    ensures whole == to2 + from2
  {
    Regroup(to, from2, x);
  }

  lemma {:induction false} SelectBefore<T>(xs: seq<T>, at: set<nat>, i: nat, n: nat)
    requires n <= |xs| && n <= i
    ensures Select(xs, at - {i}, n) == Select(xs, at, n)
  {
    if n != 0 {
      SelectBefore(xs, at, i, n - 1);
    }
  }

  lemma {:induction false} SelectLess<T>(xs: seq<T>, at: set<nat>, i: nat, n: nat)
    requires i < n <= |xs| && i in at
    ensures Select(xs, at, n) == Select(xs, at - {i}, n) + multiset{xs[i]}
  {
    if i == n - 1 {
      SelectBefore(xs, at, i, i);
    } else {
      SelectLess(xs, at, i, n - 1);
      var last := if n - 1 in at then multiset{xs[n - 1]} else multiset{};
      Shift(Select(xs, at, n - 1), Select(xs, at - {i}, n - 1), multiset{xs[i]}, last,
            Select(xs, at, n), Select(xs, at - {i}, n));
    }
  }

  lemma {:induction false} SelectMore<T>(xs: seq<T>, x: T, at: set<nat>, n: nat)
    requires n <= |xs|
    ensures Select(xs + [x], at + {|xs|}, n) == Select(xs, at, n)
  {
    if n != 0 {
      SelectMore(xs, x, at, n - 1);
    }
  }

  function TagList(msgs: seq<Msg>): (tags: seq<u16>)
    ensures |tags| == |msgs|
  {
    seq(|msgs|, i requires 0 <= i < |msgs| => msgs[i].tag)
  }

  /** The tags of the messages whose tasks are in flight. */
  function FlightTags(received: seq<Msg>, inFlight: set<nat>): multiset<u16> {
    Select(TagList(received), inFlight, |received|)
  }

  lemma {:induction false} FinishedTagsMore(received: seq<Msg>, msg: Msg, finished: seq<Finish>)
    requires forall f :: f in finished ==> f.task < |received|
    ensures FinishedTags(received + [msg], finished) == FinishedTags(received, finished)
  {
    if finished != [] {
      FinishedTagsMore(received, msg, finished[..|finished| - 1]);
    }
  }

  ghost predicate TagsBalance<A(!new)>(s: State<A>)
    requires Accounted(s)
  {
    Tags(s.received) == FinishedTags(s.received, s.finished) + FlightTags(s.received, s.tasks.Keys)
  }

  lemma StepTagsBalance<A(!new)>(fs: Filesystem<A>, s: State<A>, a: Action)
    requires Accounted(s) && TagsBalance(s) && Enabled(s, a)
    ensures Accounted(Step(fs, s, a)) && TagsBalance(Step(fs, s, a))
  {
    StepAccounted(fs, s, a);
    hide Accounted, Tags, FinishedTags, FlightTags;
    match a
    case Receive(msg) => ReceiveTagsBalance(fs, s, msg);
    case Reply(i) => ReplyTagsBalance(fs, s, i);
    case _ =>
      QuietStep(fs, s, a);
      hide Step;
  }

  /** A new message and its task in flight have the same tag. */
  lemma NewFlight(received: seq<Msg>, msg: Msg, inFlight: set<nat>)
    ensures FlightTags(received + [msg], inFlight + {|received|}) == FlightTags(received, inFlight) + multiset{msg.tag}
  {
    var (tags, more) := (TagList(received), TagList(received + [msg]));
    assert more == tags + [msg.tag];
    SelectMore(tags, msg.tag, inFlight, |received|);
  }

  /** A task that has ended is no longer in flight. */
  lemma LessFlight(received: seq<Msg>, inFlight: set<nat>, i: nat)
    requires i < |received| && i in inFlight
    ensures FlightTags(received, inFlight) == FlightTags(received, inFlight - {i}) + multiset{received[i].tag}
  {
    SelectLess(TagList(received), inFlight, i, |received|);
  }

  lemma FinishedTagsPush(received: seq<Msg>, finished: seq<Finish>, f: Finish)
    requires f.task < |received| && forall g :: g in finished ==> g.task < |received|
    ensures FinishedTags(received, finished + [f]) == FinishedTags(received, finished) + multiset{received[f.task].tag}
  {
    assert (finished + [f])[..|finished|] == finished;
  }

  lemma ReceiveTagsBalance<A(!new)>(fs: Filesystem<A>, s: State<A>, msg: Msg)
    requires Accounted(s) && TagsBalance(s)
    requires Accounted(Step(fs, s, Receive(msg)))
    ensures TagsBalance(Step(fs, s, Receive(msg)))
  {
    var t := Step(fs, s, Receive(msg));
    assert t.tasks.Keys == s.tasks.Keys + {|s.received|} && t.finished == s.finished && t.received == s.received + [msg];
    FinishedTagsMore(s.received, msg, s.finished);
    hide Tags, FinishedTags, FlightTags, Accounted, Step;
    TagsMore(s.received, msg);
    NewFlight(s.received, msg, s.tasks.Keys);
    Extend(Tags(s.received), FinishedTags(s.received, s.finished), FlightTags(s.received, s.tasks.Keys),
           multiset{msg.tag}, Tags(t.received), FlightTags(t.received, t.tasks.Keys));
  }

  lemma ReplyTagsBalance<A(!new)>(fs: Filesystem<A>, s: State<A>, i: nat)
    requires Accounted(s) && TagsBalance(s) && Enabled(s, Action.Reply(i))
    requires Accounted(Step(fs, s, Action.Reply(i)))
    ensures TagsBalance(Step(fs, s, Action.Reply(i)))
  {
    var t := Step(fs, s, Action.Reply(i));
    assert t.tasks.Keys == s.tasks.Keys - {i} && t.received == s.received && i < |s.received|;
    var f := Finish(i, AnswerOf(s.tasks[i].phase));
    assert t.finished == s.finished + [f];
    hide Step, Tags, FinishedTags, FlightTags;
    LessFlight(s.received, s.tasks.Keys, i);
    FinishedTagsPush(s.received, s.finished, f);
    var tag := multiset{s.received[i].tag};
    hide Accounted;
    Handover(Tags(s.received), FlightTags(s.received, s.tasks.Keys), FinishedTags(s.received, s.finished), tag,
             FlightTags(s.received, t.tasks.Keys), FinishedTags(t.received, t.finished));
  }

  /** A file system whose handlers answer requests as the `Filesystem` trait asks: with an error, or
      with an R-message that is not itself an Rlerror. */
  ghost predicate Conforming<A(!new)>(fs: Filesystem<A>) {
    forall body, given ::
      var answer := fs.handle(body, given).answer; answer.Ok? ==> IsR(answer.value) && !answer.value.Rlerror?
  }

  ghost predicate AnswersConform<A(!new)>(s: State<A>) {
    && (forall i :: i in s.tasks && s.tasks[i].phase.Handled? && s.tasks[i].phase.answer.Ok? ==>
          IsR(s.tasks[i].phase.answer.value) && !s.tasks[i].phase.answer.value.Rlerror?)
    && (forall i :: i in s.tasks && s.tasks[i].phase.Done? && s.tasks[i].phase.answer.Ok? ==>
          IsR(s.tasks[i].phase.answer.value) && !s.tasks[i].phase.answer.value.Rlerror?)
    && (forall f :: f in s.finished && f.answer.Ok? ==> IsR(f.answer.value) && !f.answer.value.Rlerror?)
  }

  lemma StepAnswersConform<A(!new)>(fs: Filesystem<A>, s: State<A>, a: Action)
    requires Conforming(fs) && AnswersConform(s) && Enabled(s, a)
    ensures AnswersConform(Step(fs, s, a))
  {
  }

  lemma {:induction false} RunsBalance<A(!new)>(fs: Filesystem<A>, run: seq<Action>)
    ensures After(fs, run).Some? ==> Safe(After(fs, run).value) && TagsBalance(After(fs, run).value)
    ensures After(fs, run).Some? && Conforming(fs) ==> AnswersConform(After(fs, run).value)
  {
    RunsAreSafe(fs, run);
    if run != [] {
      var (before, last) := (After(fs, run[..|run| - 1]), run[|run| - 1]);
      RunsBalance(fs, run[..|run| - 1]);
      if before.Some? && Enabled(before.value, last) {
        StepTagsBalance(fs, before.value, last);
        if Conforming(fs) { StepAnswersConform(fs, before.value, last); }
      }
    }
  }

  /** Of conforming answers every one is sent, in the order in which the tasks end. */
  lemma {:induction false} WireIsAll(received: seq<Msg>, finished: seq<Finish>)
    requires forall f :: f in finished ==> f.task < |received|
    requires forall f :: f in finished && f.answer.Ok? ==> IsR(f.answer.value)
    ensures |Wire(received, finished)| == |finished|
    ensures forall k :: 0 <= k < |finished| ==>
              Wire(received, finished)[k] == Msg(received[finished[k].task].tag, Response(finished[k].answer))
  {
    hide ValidUtf8, IsR, Response;
    if finished != [] {
      var last := finished[|finished| - 1];
      assert last in finished;
      IsSent(last.answer);
      WireIsAll(received, finished[..|finished| - 1]);
    }
  }

  lemma IsSent(answer: Result<Fcall, u32>)
    requires answer.Ok? ==> IsR(answer.value)
    ensures IsR(Response(answer))
  {
  }

  lemma {:induction false} WireTags(received: seq<Msg>, finished: seq<Finish>)
    requires forall f :: f in finished ==> f.task < |received|
    requires forall f :: f in finished && f.answer.Ok? ==> IsR(f.answer.value)
    ensures Tags(Wire(received, finished)) == FinishedTags(received, finished)
  {
    hide ValidUtf8;
    if finished != [] {
      var (init, last) := (finished[..|finished| - 1], finished[|finished| - 1]);
      WireTags(received, init);
      assert last in finished;
      TagsMore(Wire(received, init), Msg(received[last.task].tag, Response(last.answer)));
      hide Tags, IsR, Response;
    }
  }

  lemma TagsMore(msgs: seq<Msg>, msg: Msg)
    ensures Tags(msgs + [msg]) == Tags(msgs) + multiset{msg.tag}
  {
    assert (msgs + [msg])[..|msgs|] == msgs;
  }

  /** The reply that an answer is sent as: the message it holds as it is, or the error's number. */
  predicate Replies(reply: Fcall, answer: Result<Fcall, u32>) {
    match answer
    case Ok(body) => reply == body
    case Err(e) => reply == Rlerror(e)
  }

  /** One reply per request: in every reachable state the tags received are the tags replied to and
      the tags of the tasks in flight, task by task; the k-th reply goes to the k-th task to end,
      under its own tag, and is its answer, which is an R-message; no task is replied to twice. In
      particular, when nothing is in flight every message received, R-messages sent by mistake included,
      has its one reply. */
  lemma OneReplyPerRequest<A(!new)>(fs: Filesystem<A>, run: seq<Action>)
    requires Conforming(fs) && After(fs, run).Some?
    ensures var s := After(fs, run).value;
      && Accounted(s)
      && var wire := Wire(s.received, s.finished);
      && Tags(s.received) == Tags(wire) + FlightTags(s.received, s.tasks.Keys)
      && |wire| == |s.finished|
      && (forall k :: 0 <= k < |wire| ==>
            && IsR(wire[k].body) && wire[k].tag == s.received[s.finished[k].task].tag
            && Replies(wire[k].body, s.finished[k].answer))
  {
    RunsBalance(fs, run);
    var s := After(fs, run).value;
    WireIsAll(s.received, s.finished);
    WireTags(s.received, s.finished);
  }

  /** There is no deadlock: while a task is in flight, some task can go on. A commit that waits for the
      handlers that are running waits for tasks that can. */
  lemma SomeoneGoesOn<A(!new)>(s: State<A>, i: nat)
    requires i in s.tasks
    ensures exists a: Action :: Enabled(s, a) && !a.Receive?
  {
    hide Updates;
    var j := if NobodyRuns(s) then i else var r :| r in s.tasks && s.tasks[r].phase.Running?; r;
    var phase := s.tasks[j].phase;
    var a := if phase.Waiting? then Lookup(j) else if phase.Running? then Action.Handle(j)
             else if phase.Handled? && phase.answer.Ok? then Commit(j)
             else Action.Reply(j);
    assert Enabled(s, a);
  }

  // ------------------------------------------------------------------- visibility

  /** The task ended in success and asked for `fid` to be bound. */
  ghost predicate BoundBy<A(!new)>(s: State<A>, f: Finish, fid: u32) {
    f in s.finished && f.answer.Ok? && f.task < |s.received| && NewFid(s.received[f.task].body) == Some(fid)
  }

  ghost predicate HasFinished<A(!new)>(s: State<A>, i: nat) {
    exists f :: f in s.finished && f.task == i
  }

  /** Every Tclunk of `fid` received so far ended in an error, or had ended by the state `early`. */
  ghost predicate NotClunkedSince<A(!new)>(early: State<A>, s: State<A>, fid: u32) {
    forall i :: 0 <= i < |s.received| && s.received[i].body == Tclunk(fid) ==>
      HasFinished(early, i) || exists f :: f in s.finished && f.task == i && f.answer.Err?
  }

  /** A request received after the state `early` has been answered, with success, and has bound `fid`,
      which has not been clunked since. */
  ghost predicate BoundSince<A(!new)>(early: State<A>, s: State<A>, f: Finish, fid: u32) {
    BoundBy(s, f, fid) && |early.received| <= f.task && NotClunkedSince(early, s, fid)
  }

  /** Behind `log`, the updates are those of tasks that had not finished by `early`. */
  ghost predicate LaterUpdates<A(!new)>(early: State<A>, s: State<A>) {
    && early.log <= s.log && early.received <= s.received && early.finished <= s.finished
    && forall j :: |early.log| <= j < |s.log| ==> !HasFinished(early, s.log[j].task)
  }

  lemma StepLaterUpdates<A(!new)>(fs: Filesystem<A>, early: State<A>, s: State<A>, a: Action)
    requires Accounted(s) && LaterUpdates(early, s) && Enabled(s, a)
    ensures LaterUpdates(early, Step(fs, s, a))
  {
    hide Lookups, LookupSet, NewFid;
    if a.Commit? {
      var t := Step(fs, s, a);
      assert forall u :: u in Updates(a.task, s.tasks[a.task].msg.body) ==> u.task == a.task;
      assert !HasFinished(early, a.task) by {
        assert forall f :: f in early.finished ==> f in s.finished;
      }
      assert t.log == s.log + Updates(a.task, s.tasks[a.task].msg.body);
      hide Updates;
    }
  }

  lemma {:induction false} UpdatesComeLater<A(!new)>(fs: Filesystem<A>, run: seq<Action>, k: nat)
    requires k <= |run| && After(fs, run).Some?
    ensures After(fs, run[..k]).Some? && LaterUpdates(After(fs, run[..k]).value, After(fs, run).value)
  {
    if k == |run| {
      assert run[..k] == run;
    } else {
      var (init, last) := (run[..|run| - 1], run[|run| - 1]);
      assert init[..k] == run[..k];
      UpdatesComeLater(fs, init, k);
      RunsAreSafe(fs, init);
      StepLaterUpdates(fs, After(fs, run[..k]).value, After(fs, init).value, last);
    }
  }

  /** A success reply to a request that binds a fid is sent only after the fid is bound, and from then on
      the fid is in the table until a Tclunk of it ends in success that had not ended when the request
      arrived: here it arrived after the first `k` steps. The number may have been bound and clunked any
      number of times before. */
  lemma ReplyMeansBound<A(!new)>(fs: Filesystem<A>, run: seq<Action>, k: nat, f: Finish, fid: u32)
    requires k <= |run| && After(fs, run).Some? && After(fs, run[..k]).Some?
    requires BoundSince(After(fs, run[..k]).value, After(fs, run).value, f, fid)
    ensures fid in After(fs, run).value.table
  {
    RunsAreSafe(fs, run);
    RunsAreSafe(fs, run[..k]);
    UpdatesComeLater(fs, run, k);
    hide After;
    BoundSinceIsBound(After(fs, run[..k]).value, After(fs, run).value, f, fid);
  }

  lemma BoundSinceIsBound<A(!new)>(early: State<A>, s: State<A>, f: Finish, fid: u32)
    requires Safe(early) && Safe(s) && LaterUpdates(early, s) && BoundSince(early, s, f, fid)
    ensures fid in s.table
  {
    var insert := Insert(f.task, fid);
    assert insert in Updates(f.task, s.received[f.task].body);
    assert insert in s.log;
    assert forall j :: 0 <= j < |early.log| ==> s.log[j] == early.log[j] && early.log[j] in early.log;
    var k :| 0 <= k < |s.log| && s.log[k] == insert;
    forall j | k < j < |s.log| ensures s.log[j].Insert? || s.log[j].fid != fid {
      NoLaterRemove(early, s, fid, j);
    }
    BoundMeans(s.log, fid);
  }

  lemma NoLaterRemove<A(!new)>(early: State<A>, s: State<A>, fid: u32, j: nat)
    requires Safe(s) && LaterUpdates(early, s) && NotClunkedSince(early, s, fid)
    requires |early.log| <= j < |s.log|
    ensures s.log[j].Insert? || s.log[j].fid != fid
  {
    hide Lookups, LookupSet, Bound, NewFid;
    assert s.log[j] in s.log;
  }

  /** So a request on fids that successful replies have bound, and nobody has clunked since, gets as far
      as its handler: it is not answered EBADF. */
  lemma BoundFidsAreFound<A(!new)>(fs: Filesystem<A>, run: seq<Action>, i: nat)
    requires After(fs, run).Some? && Enabled(After(fs, run).value, Lookup(i))
    requires var s := After(fs, run).value;
             forall fid :: fid in LookupSet(s.tasks[i].msg.body) ==> exists k: nat, f ::
               k <= |run| && After(fs, run[..k]).Some? && BoundSince(After(fs, run[..k]).value, s, f, fid)
    ensures var s := After(fs, run).value;
            Step(fs, s, Lookup(i)).tasks[i].phase != Failed(EBADF)
  {
    var s := After(fs, run).value;
    forall fid | fid in LookupSet(s.tasks[i].msg.body) ensures fid in s.table {
      var k: nat, f :|
        k <= |run| && After(fs, run[..k]).Some? && BoundSince(After(fs, run[..k]).value, s, f, fid);
      ReplyMeansBound(fs, run, k, f, fid);
    }
  }

  /** A request that ends in an error has not changed which fids are bound. */
  lemma ErrorsChangeNoFids<A(!new)>(fs: Filesystem<A>, run: seq<Action>, f: Finish)
    requires After(fs, run).Some? && f in After(fs, run).value.finished && f.answer.Err?
    ensures forall u :: u in After(fs, run).value.log ==> u.task != f.task
  {
    RunsAreSafe(fs, run);
  }
}
