/** The server side of a connection as the program runs it: a fid table that tasks change in place.

    `DispatchOnce` is one request from start to end; the other methods are its parts as a task takes
    them, with other tasks in between. */
module Connection {
  import opened Bytes
  import opened Wrappers
  import opened Fcalls
  import opened Dispatcher
  import opened DispatcherSafety
  import opened Serial

  class Server<A(!new)> {
    const fs: Filesystem<A>
    var fids: map<u32, A>
    var tasks: map<nat, Task<A>>
    var received: seq<Msg>
    var finished: seq<Finish>
    ghost var log: seq<Update>

    ghost function Snapshot(): State<A>
      reads this
    {
      State(fids, tasks, received, log, finished)
    }

    constructor (fs: Filesystem<A>)
      ensures this.fs == fs && Snapshot() == Initial()
    {
      this.fs := fs;
      fids, tasks, received, finished, log := map[], map[], [], [], [];
    }

    /** The fids of a request are looked up one after another; the first that is missing ends it. */
    method LookupAll(body: Fcall) returns (error: Option<u32>)
      ensures error == if Starts(fids, body) then None else Some(StartError(body))
    {
      match Lookups(body) {
        case None =>
          return Some(EOPNOTSUPP);
        case Some(wanted) =>
          var i := 0;
          while i < |wanted|
            invariant 0 <= i <= |wanted|
            invariant forall j :: 0 <= j < i ==> wanted[j] in fids
          {
            if wanted[i] !in fids {
              assert wanted[i] in LookupSet(body);
              return Some(EBADF);
            }
            i := i + 1;
          }
          return None;
      }
    }

    /** `dispatch_once` with nothing else in flight. */
    method DispatchOnce(body: Fcall) returns (answer: Result<Fcall, u32>)
      modifies this`fids
      ensures fids == Serve(fs, old(fids), body).table
      ensures answer == Serve(fs, old(fids), body).answer
    {
      var error := LookupAll(body);
      if error.Some? {
        return Err(error.value);
      }
      var out := fs.handle(body, Given(fids, body));
      fids := AfterHandler(fs, fids, body);
      if out.answer.Err? {
        return out.answer;
      }
      if body.Tclunk? {
        fids := fids - {body.fid};
      }
      match NewFid(body) {
        case Some(f) => fids := fids[f := out.created];
        case None =>
      }
      return out.answer;
    }

    method Spawn(msg: Msg)
      modifies this
      ensures Snapshot() == Step(fs, old(Snapshot()), Receive(msg))
    {
      tasks := tasks[|received| := Task(msg, Waiting)];
      received := received + [msg];
    }

    /** Under the read lock: the lookups. */
    method LookUp(i: nat)
      requires Enabled(Snapshot(), Lookup(i))
      modifies this
      ensures Snapshot() == Step(fs, old(Snapshot()), Lookup(i))
    {
      var error := LookupAll(tasks[i].msg.body);
      var phase := if error.Some? then Failed(error.value) else Running;
      tasks := tasks[i := tasks[i].(phase := phase)];
    }

    /** Still under the read lock: the handler. */
    method RunHandler(i: nat)
      requires Enabled(Snapshot(), Handle(i))
      modifies this
      ensures Snapshot() == Step(fs, old(Snapshot()), Handle(i))
    {
      var body := tasks[i].msg.body;
      var out := fs.handle(body, Given(fids, body));
      fids := AfterHandler(fs, fids, body);
      tasks := tasks[i := tasks[i].(phase := Handled(out.answer, out.created))];
    }

    /** Under the write lock, if there is anything to change. */
    method CommitTask(i: nat)
      requires Enabled(Snapshot(), Commit(i))
      modifies this
      ensures Snapshot() == Step(fs, old(Snapshot()), Commit(i))
    {
      var Task(msg, phase) := tasks[i];
      if msg.body.Tclunk? {
        fids := fids - {msg.body.fid};
        log := log + [Remove(i, msg.body.fid)];
      }
      match NewFid(msg.body) {
        case Some(f) =>
          fids := fids[f := phase.created];
          log := log + [Insert(i, f)];
        case None =>
      }
      tasks := tasks[i := Task(msg, Done(phase.answer))];
    }

    /** The reply, if it is an R-message, and the end of the task. */
    method ReplyTask(i: nat) returns (sent: Option<Msg>)
      requires Enabled(Snapshot(), Action.Reply(i))
      modifies this
      ensures Snapshot() == Step(fs, old(Snapshot()), Action.Reply(i))
      ensures var answer := AnswerOf(old(tasks)[i].phase);
        && (sent.Some? <==> answer.Err? || IsR(answer.value))
        && (sent.Some? ==> sent.value.tag == old(tasks)[i].msg.tag && Replies(sent.value.body, answer))
    {
      var Task(msg, phase) := tasks[i];
      var answer := AnswerOf(phase);
      sent := if IsR(Response(answer)) then Some(Msg(msg.tag, Response(answer))) else None;
      finished := finished + [Finish(i, answer)];
      tasks := tasks - {i};
    }
  }
}
