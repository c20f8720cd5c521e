/** The concurrent dispatcher: one task per received message, all sharing the fid table.

    A task looks its fids up and runs the handler under the read lock of the table, commits under
    the write lock, and replies. The lock is modelled by its effect: a commit that changes the table
    waits until no handler is running. Handlers are functions of the fids they are given. */
module Dispatcher {
  import opened Bytes
  import opened Wrappers
  import opened Fcalls

  // Linux errno numbers.
  const EBADF: u32 := 9
  const EOPNOTSUPP: u32 := 95

  /** What a handler answers, what it leaves in the fids it was given, and what it makes of the new
      fid it was given. */
  datatype Outcome<A> = Outcome(answer: Result<Fcall, u32>, after: map<u32, A>, created: A)

  /** A file system: its handlers, and which of the fids they are given they may change. */
  datatype Filesystem<!A(!new)> = Filesystem(
    handle: (Fcall, map<u32, A>) -> Outcome<A>,
    mutates: Fcall -> set<u32>)

  // ------------------------------------------------------------------- one request

  /** The fids that a request is looked up by, in order; none at all if it has no handler. */
  function Lookups(body: Fcall): Option<seq<u32>> {
    match body
    case Tstatfs(fid) => Some([fid])
    case Tlopen(fid, _) => Some([fid])
    case Tlcreate(fid, _, _, _, _) => Some([fid])
    case Tsymlink(fid, _, _, _) => Some([fid])
    case Tmknod(dfid, _, _, _, _, _) => Some([dfid])
    case Trename(fid, dfid, _) => Some([fid, dfid])
    case Treadlink(fid) => Some([fid])
    case Tgetattr(fid, _) => Some([fid])
    case Tsetattr(fid, _, _) => Some([fid])
    case Txattrwalk(fid, _, _) => Some([fid])
    case Txattrcreate(fid, _, _, _) => Some([fid])
    case Treaddir(fid, _, _) => Some([fid])
    case Tfsync(fid) => Some([fid])
    case Tlock(fid, _) => Some([fid])
    case Tgetlock(fid, _) => Some([fid])
    case Tlink(dfid, fid, _) => Some([dfid, fid])
    case Tmkdir(dfid, _, _, _) => Some([dfid])
    case Trenameat(olddirfid, _, newdirfid, _) => Some([olddirfid, newdirfid])
    case Tunlinkat(dirfd, _, _) => Some([dirfd])
    case Tauth(_, _, _, _) => Some([])
    case Tattach(_, _, _, _, _) => Some([])
    case Tversion(_, _) => Some([])
    case Tflush(_) => Some([])
    case Twalk(fid, _, _) => Some([fid])
    case Tread(fid, _, _) => Some([fid])
    case Twrite(fid, _, _) => Some([fid])
    case Tclunk(fid) => Some([fid])
    case Tremove(fid) => Some([fid])
    case _ => None
  }

  /** Every T-message has a handler, and no R-message does. */
  lemma HandlersServeRequests(body: Fcall)
    ensures Lookups(body).Some? <==> !IsR(body)
  {
  }

  /** A request looks up exactly the fids it names, but for the afid of a Tattach, which is never
      looked up. */
  lemma LookupsAreFids(body: Fcall)
    requires Lookups(body).Some?
    ensures Lookups(body) == Some(Fids(body)) <==> !(body.Tattach? && body.afid != NOFID)
  {
  }

  function LookupSet(body: Fcall): set<u32> {
    match Lookups(body)
    case Some(fids) => set f | f in fids
    case None => {}
  }

  /** A request gets as far as its handler: it has one, and the fids to look up are there. */
  predicate Starts<A>(table: map<u32, A>, body: Fcall) {
    Lookups(body).Some? && LookupSet(body) <= table.Keys
  }

  /** The error of a request that does not get as far as its handler. */
  function StartError(body: Fcall): u32 {
    if Lookups(body).Some? then EBADF else EOPNOTSUPP
  }

  function Given<A>(table: map<u32, A>, body: Fcall): map<u32, A> {
    map f | f in LookupSet(body) && f in table :: table[f]
  }

  /** The table after a handler has run: the fids it may change hold what it left in them. */
  function AfterHandler<A(!new)>(fs: Filesystem<A>, table: map<u32, A>, body: Fcall): map<u32, A> {
    var after := fs.handle(body, Given(table, body)).after;
    map f | f in table ::
      if f in LookupSet(body) && f in fs.mutates(body) && f in after then after[f] else table[f]
  }

  /** What a successful request does to the keys of the table. */
  datatype Update = Insert(task: nat, fid: u32) | Remove(task: nat, fid: u32)

  function Updates(task: nat, body: Fcall): seq<Update> {
    (if body.Tclunk? then [Remove(task, body.fid)] else [])
    + (match NewFid(body) case Some(f) => [Insert(task, f)] case None => [])
  }

  /** The commit of a successful request: drop the fid of a Tclunk, bind the new fid. */
  function Committed<A>(table: map<u32, A>, body: Fcall, created: A): map<u32, A> {
    var dropped := if body.Tclunk? then table - {body.fid} else table;
    match NewFid(body)
    case Some(f) => dropped[f := created]
    case None => dropped
  }

  /** The message sent back for an answer. */
  function Response(answer: Result<Fcall, u32>): Fcall {
    match answer
    case Ok(body) => body
    case Err(e) => Rlerror(e)
  }

  // ------------------------------------------------------------------- the state machine

  datatype Phase<A> =
    | Waiting                                             // spawned, nothing looked up yet
    | Running                                             // in the handler, holding the read lock
    | Handled(answer: Result<Fcall, u32>, created: A)     // read lock released
    | Done(answer: Result<Fcall, u32>)                    // committed, about to reply
    | Failed(error: u32)                                  // never got to the handler

  datatype Task<A> = Task(msg: Msg, phase: Phase<A>)

  /** A task that has ended, and the answer it ended with. */
  datatype Finish = Finish(task: nat, answer: Result<Fcall, u32>)

  datatype State<A> = State(
    table: map<u32, A>,
    tasks: map<nat, Task<A>>,
    received: seq<Msg>,          // task i was spawned for received[i]
    log: seq<Update>,            // the changes made to the keys of the table
    finished: seq<Finish>)

  function Initial<A>(): State<A> {
    State(map[], map[], [], [], [])
  }

  datatype Action = Receive(msg: Msg) | Lookup(task: nat) | Handle(task: nat) | Commit(task: nat) | Reply(task: nat)

  predicate NobodyRuns<A(!new)>(s: State<A>) {
    forall i :: i in s.tasks ==> !s.tasks[i].phase.Running?
  }

  predicate Enabled<A(!new)>(s: State<A>, a: Action) {
    match a
    case Receive(_) => true
    case Lookup(i) => i in s.tasks && s.tasks[i].phase.Waiting?
    case Handle(i) => i in s.tasks && s.tasks[i].phase.Running?
    case Commit(i) =>
      i in s.tasks && s.tasks[i].phase.Handled? && s.tasks[i].phase.answer.Ok?
      && (Updates(i, s.tasks[i].msg.body) != [] ==> NobodyRuns(s))
    case Reply(i) =>
      i in s.tasks
      && (s.tasks[i].phase.Done? || s.tasks[i].phase.Failed?
          || (s.tasks[i].phase.Handled? && s.tasks[i].phase.answer.Err?))
  }

  function Moved<A>(s: State<A>, i: nat, phase: Phase<A>): State<A>
    requires i in s.tasks
  {
    s.(tasks := s.tasks[i := s.tasks[i].(phase := phase)])
  }

  /** The answer of a task that is about to reply. */
  function AnswerOf<A>(phase: Phase<A>): Result<Fcall, u32>
    requires phase.Done? || phase.Failed? || phase.Handled?
  {
    if phase.Failed? then Err(phase.error) else phase.answer
  }

  function Step<A(!new)>(fs: Filesystem<A>, s: State<A>, a: Action): State<A>
    requires Enabled(s, a)
  {
    match a
    case Receive(msg) =>
      s.(tasks := s.tasks[|s.received| := Task(msg, Waiting)], received := s.received + [msg])
    case Lookup(i) =>
      var body := s.tasks[i].msg.body;
      Moved(s, i, if Starts(s.table, body) then Running else Failed(StartError(body)))
    case Handle(i) =>
      var body := s.tasks[i].msg.body;
      var out := fs.handle(body, Given(s.table, body));
      Moved(s, i, Handled(out.answer, out.created)).(table := AfterHandler(fs, s.table, body))
    case Commit(i) =>
      var Task(msg, phase) := s.tasks[i];
      Moved(s, i, Done(phase.answer)).(
        table := Committed(s.table, msg.body, phase.created), log := s.log + Updates(i, msg.body))
    case Reply(i) =>
      s.(tasks := s.tasks - {i}, finished := s.finished + [Finish(i, AnswerOf(s.tasks[i].phase))])
  }

  /** The state after a run, if every step of it could be taken. */
  function After<A(!new)>(fs: Filesystem<A>, run: seq<Action>): Option<State<A>> {
    if run == [] then Some(Initial())
    else
      var (before, last) := (After(fs, run[..|run| - 1]), run[|run| - 1]);
      if before.Some? && Enabled(before.value, last) then Some(Step(fs, before.value, last)) else None
  }

  /** The messages written to the connection: a reply is sent if it is an R-message. */
  function Wire(received: seq<Msg>, finished: seq<Finish>): seq<Msg>
    requires forall f :: f in finished ==> f.task < |received|
  {
    if finished == [] then []
    else
      var last := finished[|finished| - 1];
      var before := Wire(received, finished[..|finished| - 1]);
      if IsR(Response(last.answer)) then before + [Msg(received[last.task].tag, Response(last.answer))] else before
  }
}
