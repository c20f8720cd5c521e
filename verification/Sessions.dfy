/** The life of a session on the remote machine: dialled, started, running, done.

    Calls run concurrently. `dial` and `ninep_forward` hold the lock of the pending sessions from
    start to end; `start` takes its session out of them, then holds the lock of the running sessions
    until it is done; `wait` looks its session up twice and removes it in the end. */
module Sessions {
  import opened Mounts
  import opened Wrappers

  datatype Error = SessionNotExist | DuplicateId | No9pPort | BindFail | LaunchFail

  /** A forwarding task and the port it listens on. */
  datatype Ninep = Ninep(task: nat, port: nat)

  /** A dialled session: the number of the dial, and the forwarding task set up for it last. */
  datatype PendingSession = PendingSession(dial: nat, ninep: Option<Ninep>)

  /** What a command asks of the mounts. */
  datatype Cmd = Cmd(ninep: bool, tmpMnt: string, fstab: seq<FsTab>)

  /** A `start` in flight: before it has the lock of the running sessions, and while it holds it. */
  datatype StartCall<Id> = StartCall(sid: Id, dial: nat, ninep: Option<Ninep>, launching: bool)

  datatype Session = Session(dial: nat, handles: seq<nat>)

  /** A `wait` in flight: for the child, then for the session's tasks. */
  datatype Waiting<Id> = ForChild(sid: Id) | ForTasks(sid: Id)

  /** Where a dial has got to. This is bookkeeping: no step depends on it. */
  datatype Place = InPending | InStart(call: nat) | Over(index: nat)

  datatype Dialled<Id> = Dialled(sid: Id, place: Place)

  /** The command of a `start`, and what is sent to the child. */
  datatype Launch = Launch(asked: Cmd, sent: Cmd)

  /** How the `start` of a dial ended. */
  datatype Ended = Ended(dial: nat, error: Option<Error>, launch: Option<Launch>)

  /** What a forwarding task was set up for, and its port. */
  datatype Forwarding = Forwarding(dial: nat, port: nat)

  datatype State<Id> = State(
    dials: seq<Dialled<Id>>,
    forwards: seq<Forwarding>,
    pending: map<Id, PendingSession>,
    sessions: map<Id, Session>,
    starts: map<nat, StartCall<Id>>,
    waits: map<nat, Waiting<Id>>,
    calls: nat,                  // calls numbered so far
    ended: seq<Ended>)

  function Initial<Id>(): State<Id> {
    State([], [], map[], map[], map[], map[], 0, [])
  }

  datatype Action<Id> =
    | Dial(sid: Id)
    | NinepForward(sid: Id, port: Option<nat>)              // the port, if one could be bound
    | TakePending(sid: Id)                                  // `start` begins
    | LockSessions(call: nat)
    | FinishStart(call: nat, cmd: Cmd, launched: bool)
    | FindSession(sid: Id)                                  // `wait` begins
    | ChildExits(call: nat)
    | TasksJoined(call: nat)

  /** Nobody holds the lock of the running sessions. */
  predicate Unlocked<Id(!new)>(s: State<Id>) {
    forall c :: c in s.starts ==> !s.starts[c].launching
  }

  predicate Enabled<Id(!new)>(s: State<Id>, a: Action<Id>) {
    match a
    case Dial(_) => true
    case NinepForward(_, _) => true
    case TakePending(_) => true
    case LockSessions(c) => c in s.starts && Unlocked(s)
    case FinishStart(c, _, _) => c in s.starts && s.starts[c].launching
    case FindSession(_) => Unlocked(s)
    case ChildExits(c) => c in s.waits && s.waits[c].ForChild? && Unlocked(s)
    case TasksJoined(c) => c in s.waits && s.waits[c].ForTasks? && Unlocked(s)
  }

  function Moved<Id>(dials: seq<Dialled<Id>>, dial: nat, place: Place): seq<Dialled<Id>> {
    if dial < |dials| then dials[dial := dials[dial].(place := place)] else dials
  }

  function DialStep<Id>(s: State<Id>, sid: Id): State<Id> {
    if sid in s.pending then s
    else s.(pending := s.pending[sid := PendingSession(|s.dials|, None)], dials := s.dials + [Dialled(sid, InPending)])
  }

  function ForwardStep<Id>(s: State<Id>, sid: Id, port: Option<nat>): State<Id> {
    if sid !in s.pending || port.None? then s
    else
      s.(pending := s.pending[sid := s.pending[sid].(ninep := Some(Ninep(|s.forwards|, port.value)))],
         forwards := s.forwards + [Forwarding(s.pending[sid].dial, port.value)])
  }

  function TakeStep<Id>(s: State<Id>, sid: Id): State<Id> {
    if sid !in s.pending then s
    else
      s.(pending := s.pending - {sid},
         dials := Moved(s.dials, s.pending[sid].dial, InStart(s.calls)),
         starts := s.starts[s.calls := StartCall(sid, s.pending[sid].dial, s.pending[sid].ninep, false)],
         calls := s.calls + 1)
  }

  function EndStart<Id>(s: State<Id>, c: nat, error: Option<Error>, launch: Option<Launch>): State<Id>
    requires c in s.starts
  {
    s.(starts := s.starts - {c}, ended := s.ended + [Ended(s.starts[c].dial, error, launch)],
       dials := Moved(s.dials, s.starts[c].dial, Over(|s.ended|)))
  }

  function LockStep<Id>(s: State<Id>, c: nat): State<Id>
    requires c in s.starts
  {
    if s.starts[c].sid in s.sessions then EndStart(s, c, Some(DuplicateId), None)
    else s.(starts := s.starts[c := s.starts[c].(launching := true)])
  }

  /** A 9p command's entry is pointed at the port of the forwarding task. */
  function Prepared(cmd: Cmd, ninep: Option<Ninep>): Cmd {
    if cmd.ninep && ninep.Some? then cmd.(fstab := Rewritten(cmd.fstab, cmd.tmpMnt, ninep.value.port)) else cmd
  }

  function StartResult(ninep: Option<Ninep>, wanted: bool, launched: bool): (error: Option<Error>) {
    if wanted && ninep.None? then Some(No9pPort) else if !launched then Some(LaunchFail) else None
  }

  function HandlesOf(ninep: Option<Ninep>): seq<nat> {
    match ninep
    case Some(forwarding) => [forwarding.task]
    case None => []
  }

  function FinishStep<Id>(s: State<Id>, c: nat, cmd: Cmd, launched: bool): State<Id>
    requires c in s.starts
  {
    var StartCall(sid, dial, ninep, _) := s.starts[c];
    var error := StartResult(ninep, cmd.ninep, launched);
    var t := EndStart(s, c, error, if error.None? then Some(Launch(cmd, Prepared(cmd, ninep))) else None);
    if error.None? then t.(sessions := s.sessions[sid := Session(dial, HandlesOf(ninep))]) else t
  }

  function Step<Id(!new)>(s: State<Id>, a: Action<Id>): State<Id>
    requires Enabled(s, a)
  {
    match a
    case Dial(sid) => DialStep(s, sid)
    case NinepForward(sid, port) => ForwardStep(s, sid, port)
    case TakePending(sid) => TakeStep(s, sid)
    case LockSessions(c) => LockStep(s, c)
    case FinishStart(c, cmd, launched) => FinishStep(s, c, cmd, launched)
    case FindSession(sid) =>
      if sid !in s.sessions then s else s.(waits := s.waits[s.calls := ForChild(sid)], calls := s.calls + 1)
    case ChildExits(c) =>
      var sid := s.waits[c].sid;
      if sid !in s.sessions then s.(waits := s.waits - {c}) else s.(waits := s.waits[c := ForTasks(sid)])
    case TasksJoined(c) => s.(waits := s.waits - {c}, sessions := s.sessions - {s.waits[c].sid})
  }

  /** The state after a run, if every step of it could be taken. */
  function After<Id(!new)>(run: seq<Action<Id>>): Option<State<Id>> {
    if run == [] then Some(Initial())
    else
      var (before, last) := (After(run[..|run| - 1]), run[|run| - 1]);
      if before.Some? && Enabled(before.value, last) then Some(Step(before.value, last)) else None
  }

  // ------------------------------------------------------------------- the invariant

  /** The forwarding task set up last for a dial. */
  function LastFor(forwards: seq<Forwarding>, dial: nat): Option<Ninep> {
    if forwards == [] then None
    else if forwards[|forwards| - 1].dial == dial then Some(Ninep(|forwards| - 1, forwards[|forwards| - 1].port))
    else LastFor(forwards[..|forwards| - 1], dial)
  }

  ghost predicate PendingPlaced<Id(!new)>(s: State<Id>) {
    forall i :: i in s.pending ==> s.pending[i].dial < |s.dials| && s.dials[s.pending[i].dial] == Dialled(i, InPending)
  }

  ghost predicate StartsPlaced<Id(!new)>(s: State<Id>) {
    forall c :: c in s.starts ==>
      c < s.calls && s.starts[c].dial < |s.dials| && s.dials[s.starts[c].dial] == Dialled(s.starts[c].sid, InStart(c))
  }

  ghost predicate EndedPlaced<Id(!new)>(s: State<Id>) {
    forall k :: 0 <= k < |s.ended| ==> s.ended[k].dial < |s.dials| && s.dials[s.ended[k].dial].place == Over(k)
  }

  ghost predicate SessionsPlaced<Id(!new)>(s: State<Id>) {
    forall i :: i in s.sessions ==>
      s.sessions[i].dial < |s.dials| && s.dials[s.sessions[i].dial].sid == i
      && Succeeded(s.dials, s.ended, s.sessions[i].dial)
  }

  /** Everything that is kept belongs to a dial of its id that is in that place. */
  ghost predicate Placed<Id(!new)>(s: State<Id>) {
    PendingPlaced(s) && StartsPlaced(s) && EndedPlaced(s) && SessionsPlaced(s)
  }

  /** And every dial is in the place it is said to be in. */
  ghost predicate Accounted<Id(!new)>(s: State<Id>) {
    forall d :: 0 <= d < |s.dials| ==>
      match s.dials[d].place
      case InPending => s.dials[d].sid in s.pending && s.pending[s.dials[d].sid].dial == d
      case InStart(c) => c in s.starts && s.starts[c].dial == d
      case Over(k) => k < |s.ended| && s.ended[k].dial == d
  }

  /** The start of the dial has ended without an error. */
  predicate Succeeded<Id>(dials: seq<Dialled<Id>>, ended: seq<Ended>, dial: nat) {
    dial < |dials| && dials[dial].place.Over? && dials[dial].place.index < |ended|
    && ended[dials[dial].place.index].error.None?
  }

  /** Whatever is kept for a dial has the forwarding task that was set up for it last. */
  ghost predicate Tasked<Id(!new)>(s: State<Id>) {
    && (forall i :: i in s.pending ==> s.pending[i].ninep == LastFor(s.forwards, s.pending[i].dial))
    && (forall c :: c in s.starts ==> s.starts[c].ninep == LastFor(s.forwards, s.starts[c].dial))
    && (forall i :: i in s.sessions ==> s.sessions[i].handles == HandlesOf(LastFor(s.forwards, s.sessions[i].dial)))
    && (forall k :: 0 <= k < |s.forwards| ==> s.forwards[k].dial < |s.dials|)
    && (forall k :: 0 <= k < |s.ended| && s.ended[k].launch.Some? ==>
          s.ended[k].launch.value.sent == Prepared(s.ended[k].launch.value.asked, LastFor(s.forwards, s.ended[k].dial)))
  }

  /** One start at a time holds the lock, and its id is not running meanwhile. */
  ghost predicate OneHolder<Id(!new)>(s: State<Id>) {
    && (forall c, d :: c in s.starts && d in s.starts && s.starts[c].launching && s.starts[d].launching ==> c == d)
    && (forall c :: c in s.starts && s.starts[c].launching ==> s.starts[c].sid !in s.sessions)
  }

  /** No `wait` in flight has a number still to be given out. */
  ghost predicate WaitsNumbered<Id(!new)>(s: State<Id>) {
    forall w :: w in s.waits ==> w < s.calls
  }

  ghost predicate Inv<Id(!new)>(s: State<Id>) {
    Placed(s) && Accounted(s) && Tasked(s) && OneHolder(s) && WaitsNumbered(s)
  }

  ghost predicate Books<Id(!new)>(s: State<Id>) {
    Placed(s) && Accounted(s)
  }

  lemma DialBooks<Id(!new)>(s: State<Id>, sid: Id)
    requires Books(s)
    ensures Books(DialStep(s, sid))
  {
    if sid !in s.pending {
      var t := DialStep(s, sid);
      assert forall d :: 0 <= d < |s.dials| ==> t.dials[d] == s.dials[d];
      assert forall i :: i in s.sessions ==> Succeeded(t.dials, t.ended, s.sessions[i].dial);
      hide Succeeded;
      assert Placed(t);
      hide Placed;
    }
  }

  lemma ForwardBooks<Id(!new)>(s: State<Id>, sid: Id, port: Option<nat>)
    requires Books(s)
    ensures Books(ForwardStep(s, sid, port))
  {
  }

  /** Another place for one dial leaves the other dials as they are. */
  lemma MovedMeans<Id(!new)>(dials: seq<Dialled<Id>>, ended: seq<Ended>, dial: nat, place: Place)
    requires dial < |dials| && !dials[dial].place.Over?
    ensures var more := Moved(dials, dial, place);
      && |more| == |dials| && more[dial] == Dialled(dials[dial].sid, place)
      && (forall d :: 0 <= d < |dials| && d != dial ==> more[d] == dials[d])
      && (forall d :: Succeeded(dials, ended, d) ==> d != dial && Succeeded(more, ended, d))
  {
  }

  lemma TakePlaced<Id(!new)>(s: State<Id>, sid: Id)
    requires Placed(s)
    ensures Placed(TakeStep(s, sid))
  {
    if sid in s.pending {
      var (t, dial) := (TakeStep(s, sid), s.pending[sid].dial);
      assert s.dials[dial] == Dialled(sid, InPending);
      MovedMeans(s.dials, s.ended, dial, InStart(s.calls));
      hide Moved, Succeeded;
      assert PendingPlaced(t) by { hide StartsPlaced, EndedPlaced, SessionsPlaced; }
      assert StartsPlaced(t) by { hide PendingPlaced, EndedPlaced, SessionsPlaced; }
      assert EndedPlaced(t) by { hide PendingPlaced, StartsPlaced, SessionsPlaced; }
      assert SessionsPlaced(t) by { hide PendingPlaced, StartsPlaced, EndedPlaced; }
      hide PendingPlaced, StartsPlaced, EndedPlaced, SessionsPlaced;
    }
  }

  lemma TakeBooks<Id(!new)>(s: State<Id>, sid: Id)
    requires Books(s)
    ensures Books(TakeStep(s, sid))
  {
    TakePlaced(s, sid);
    assert Accounted(TakeStep(s, sid));
  }

  lemma EndBooks<Id(!new)>(s: State<Id>, c: nat, error: Option<Error>, launch: Option<Launch>)
    requires Books(s) && c in s.starts
    ensures Books(EndStart(s, c, error, launch))
    ensures error.None? ==>
              Succeeded(EndStart(s, c, error, launch).dials, EndStart(s, c, error, launch).ended, s.starts[c].dial)
    ensures s.starts[c].dial < |EndStart(s, c, error, launch).dials|
    ensures EndStart(s, c, error, launch).dials[s.starts[c].dial].sid == s.starts[c].sid
  {
  }

  lemma FinishBooks<Id(!new)>(s: State<Id>, c: nat, cmd: Cmd, launched: bool)
    requires Books(s) && c in s.starts
    ensures Books(FinishStep(s, c, cmd, launched))
  {
    hide StartResult, Prepared, HandlesOf, Moved, Succeeded;
    var error := StartResult(s.starts[c].ninep, cmd.ninep, launched);
    EndBooks(s, c, error, if error.None? then Some(Launch(cmd, Prepared(cmd, s.starts[c].ninep))) else None);
  }

  lemma LockBooks<Id(!new)>(s: State<Id>, c: nat)
    requires Books(s) && c in s.starts
    ensures Books(LockStep(s, c))
  {
    hide EndStart, Succeeded;
    if s.starts[c].sid in s.sessions {
      EndBooks(s, c, Some(DuplicateId), None);
      hide Placed, Accounted;
    } else {
      SameBooks(s, LockStep(s, c));
      hide Placed, Accounted;
    }
  }

  /** What a start is doing has no part in the books. */
  lemma SameBooks<Id(!new)>(s: State<Id>, t: State<Id>)
    requires Books(s)
    requires t.dials == s.dials && t.pending == s.pending && t.sessions == s.sessions && t.ended == s.ended
    requires t.calls == s.calls && t.starts.Keys == s.starts.Keys
    requires forall c :: c in s.starts ==> t.starts[c].sid == s.starts[c].sid && t.starts[c].dial == s.starts[c].dial
    ensures Books(t)
  {
    hide Succeeded;
  }

  /** The steps of a `wait`. */
  predicate InWait<Id(!new)>(a: Action<Id>) {
    a.FindSession? || a.ChildExits? || a.TasksJoined?
  }

  lemma WaitBooks<Id(!new)>(s: State<Id>, a: Action<Id>)
    requires Books(s) && Enabled(s, a) && InWait(a)
    ensures Books(Step(s, a))
  {
    hide Books, Unlocked;
    FewerSessions(s, Step(s, a));
  }

  /** Nor have the calls to come, and a session can go. */
  lemma FewerSessions<Id(!new)>(s: State<Id>, t: State<Id>)
    requires Books(s)
    requires t.dials == s.dials && t.pending == s.pending && t.starts == s.starts && t.ended == s.ended
    requires t.calls >= s.calls && forall i :: i in t.sessions ==> i in s.sessions && t.sessions[i] == s.sessions[i]
    ensures Books(t)
  {
    hide Succeeded;
  }

  lemma StepBooks<Id(!new)>(s: State<Id>, a: Action<Id>)
    requires Books(s) && Enabled(s, a)
    ensures Books(Step(s, a))
  {
    hide Books, DialStep, ForwardStep, TakeStep, LockStep, FinishStep, Unlocked;
    match a
    case Dial(sid) => DialBooks(s, sid);
    case NinepForward(sid, port) => ForwardBooks(s, sid, port);
    case TakePending(sid) => TakeBooks(s, sid);
    case LockSessions(c) => LockBooks(s, c);
    case FinishStart(c, cmd, launched) => FinishBooks(s, c, cmd, launched);
    case _ => WaitBooks(s, a);
  }

  lemma StepOneHolder<Id(!new)>(s: State<Id>, a: Action<Id>)
    requires OneHolder(s) && Enabled(s, a)
    ensures OneHolder(Step(s, a))
  {
    hide StartResult, HandlesOf, Moved;
  }

  lemma StepWaitsNumbered<Id(!new)>(s: State<Id>, a: Action<Id>)
    requires WaitsNumbered(s) && Enabled(s, a)
    ensures WaitsNumbered(Step(s, a))
  {
    hide StartResult, HandlesOf, Moved, Unlocked, Prepared;
  }

  lemma LastForMore(forwards: seq<Forwarding>, dial: nat, more: Forwarding)
    ensures LastFor(forwards + [more], dial)
         == if more.dial == dial then Some(Ninep(|forwards|, more.port)) else LastFor(forwards, dial)
  {
    assert (forwards + [more])[..|forwards|] == forwards;
  }

  lemma {:induction false} NothingLast(forwards: seq<Forwarding>, dial: nat)
    requires forall k :: 0 <= k < |forwards| ==> forwards[k].dial != dial
    ensures LastFor(forwards, dial) == None
  {
    if forwards != [] {
      NothingLast(forwards[..|forwards| - 1], dial);
    }
  }

  lemma ForwardTasked<Id(!new)>(s: State<Id>, sid: Id, port: nat)
    requires Placed(s) && Tasked(s) && sid in s.pending
    ensures Tasked(ForwardStep(s, sid, Some(port)))
  {
    var more := Forwarding(s.pending[sid].dial, port);
    forall other
      ensures LastFor(s.forwards + [more], other)
           == if other == more.dial then Some(Ninep(|s.forwards|, port)) else LastFor(s.forwards, other)
    {
      LastForMore(s.forwards, other, more);
    }
    hide LastFor, HandlesOf, Prepared;
  }

  lemma DialTasked<Id(!new)>(s: State<Id>, sid: Id)
    requires Tasked(s)
    ensures Tasked(DialStep(s, sid))
  {
    NothingLast(s.forwards, |s.dials|);
    hide LastFor, HandlesOf, Prepared;
  }

  lemma StartTasked<Id(!new)>(s: State<Id>, a: Action<Id>)
    requires Tasked(s) && Enabled(s, a) && (a.TakePending? || a.LockSessions? || a.FinishStart?)
    ensures Tasked(Step(s, a))
  {
    hide LastFor, HandlesOf, StartResult, Prepared, Unlocked;
  }

  lemma WaitTasked<Id(!new)>(s: State<Id>, a: Action<Id>)
    requires Tasked(s) && Enabled(s, a) && InWait(a)
    ensures Tasked(Step(s, a))
  {
    hide LastFor, HandlesOf, Prepared, Unlocked;
  }

  lemma StepTasked<Id(!new)>(s: State<Id>, a: Action<Id>)
    requires Placed(s) && Tasked(s) && Enabled(s, a)
    ensures Tasked(Step(s, a))
  {
    hide Placed, Tasked;
    match a
    case NinepForward(sid, port) => if sid in s.pending && port.Some? { ForwardTasked(s, sid, port.value); }
    case Dial(sid) => DialTasked(s, sid);
    case TakePending(_) => StartTasked(s, a);
    case LockSessions(_) => StartTasked(s, a);
    case FinishStart(_, _, _) => StartTasked(s, a);
    case _ => WaitTasked(s, a);
  }

  /** Every step keeps the invariant. */
  lemma StepInv<Id(!new)>(s: State<Id>, a: Action<Id>)
    requires Inv(s) && Enabled(s, a)
    ensures Inv(Step(s, a))
  {
    StepBooks(s, a);
    StepTasked(s, a);
    StepOneHolder(s, a);
    StepWaitsNumbered(s, a);
    hide Step, Placed, Accounted, Tasked, OneHolder, WaitsNumbered;
  }

  lemma {:induction false} RunsKeepInv<Id(!new)>(run: seq<Action<Id>>)
    requires After(run).Some?
    ensures Inv(After(run).value)
  {
    if run != [] {
      RunsKeepInv(run[..|run| - 1]);
      StepInv(After(run[..|run| - 1]).value, run[|run| - 1]);
    }
  }

  // ------------------------------------------------------------------- what it means

  datatype Life = Pending | Starting | Running | Stopped | Failed

  /** How far a dial has got. */
  function LifeOf<Id>(s: State<Id>, d: nat): Life
    requires d < |s.dials|
  {
    match s.dials[d].place
    case InPending => Pending
    case InStart(_) => Starting
    case Over(k) =>
      if k < |s.ended| && s.ended[k].error.Some? then Failed
      else if s.dials[d].sid in s.sessions && s.sessions[s.dials[d].sid].dial == d then Running
      else Stopped
  }

  /** In the terms of the tables and of the calls in flight. */
  lemma LifeMeans<Id(!new)>(s: State<Id>, d: nat)
    requires Inv(s) && d < |s.dials|
    ensures LifeOf(s, d).Pending? <==> s.dials[d].sid in s.pending && s.pending[s.dials[d].sid].dial == d
    ensures LifeOf(s, d).Starting? <==> exists c :: c in s.starts && s.starts[c].dial == d
    ensures LifeOf(s, d).Running? <==> s.dials[d].sid in s.sessions && s.sessions[s.dials[d].sid].dial == d
    ensures LifeOf(s, d).Failed? <==> exists e :: e in s.ended && e.dial == d && e.error.Some?
  {
    hide Tasked, OneHolder;
  }

  /** A start that got as far as launching has what it needs. */
  predicate StartSucceeds<Id>(s: State<Id>, d: nat, ninep: bool, launched: bool) {
    launched && (ninep ==> exists k :: 0 <= k < |s.forwards| && s.forwards[k].dial == d)
  }

  /** What a step makes of a dial's life. A start that takes the id makes it starting. The start fails
      if it finds the id running, or at its end; it succeeds when the child is launched and, if the command
      is a 9p one, a forwarding task has been set up for the dial. The session stops when a `wait` for it is
      over. Nothing else has a say. */
  function NextLife<Id(!new)>(s: State<Id>, a: Action<Id>, d: nat): Life
    requires d < |s.dials| && Enabled(s, a)
  {
    var (sid, life) := (s.dials[d].sid, LifeOf(s, d));
    match a
    case TakePending(taken) => if taken == sid && life.Pending? then Starting else life
    case LockSessions(c) => if s.starts[c].dial == d && sid in s.sessions then Failed else life
    case FinishStart(c, cmd, launched) =>
      if s.starts[c].dial != d then life
      else if StartSucceeds(s, d, cmd.ninep, launched) then Running
      else Failed
    case TasksJoined(c) => if s.waits[c].sid == sid && life.Running? then Stopped else life
    case _ => life
  }

  /** So every dial goes on, whatever the step. */
  lemma LifeGoesOn<Id(!new)>(s: State<Id>, a: Action<Id>, d: nat)
    requires Inv(s) && Enabled(s, a) && d < |s.dials|
    ensures d < |Step(s, a).dials| && Step(s, a).dials[d].sid == s.dials[d].sid
    ensures LifeOf(Step(s, a), d) == NextLife(s, a, d)
  {
    hide Inv, Unlocked, LifeOf, StartSucceeds;
    hide DialStep, ForwardStep, TakeStep, LockStep, FinishStep;
    match a
    case FinishStart(c, cmd, launched) => FinishedLife(s, c, cmd, launched, d);
    case LockSessions(c) => LockedLife(s, c, d);
    case TakePending(sid) => TakenLife(s, sid, d);
    case Dial(sid) => DialledLife(s, sid, d);
    case NinepForward(sid, port) => ForwardedLife(s, sid, port, d);
    case TasksJoined(c) => JoinedLife(s, c, d);
    case _ => WaitingLife(s, a, d);
  }

  predicate Follows(before: Life, after: Life) {
    || after == before
    || (before.Pending? && after.Starting?)
    || (before.Starting? && (after.Running? || after.Failed?))
    || (before.Running? && after.Stopped?)
  }

  /** And only ever moves from pending to starting, from there to running or to failed, and from running
      to stopped. */
  lemma LifeFollows<Id(!new)>(s: State<Id>, a: Action<Id>, d: nat)
    requires Inv(s) && Enabled(s, a) && d < |s.dials|
    ensures Follows(LifeOf(s, d), NextLife(s, a, d))
  {
    hide Tasked, Accounted;
  }

  lemma DialledLife<Id(!new)>(s: State<Id>, sid: Id, d: nat)
    requires d < |s.dials|
    ensures var t := DialStep(s, sid);
      d < |t.dials| && t.dials[d].sid == s.dials[d].sid && LifeOf(t, d) == LifeOf(s, d)
  {
  }

  lemma ForwardedLife<Id(!new)>(s: State<Id>, sid: Id, port: Option<nat>, d: nat)
    requires d < |s.dials|
    ensures var t := ForwardStep(s, sid, port);
      d < |t.dials| && t.dials[d].sid == s.dials[d].sid && LifeOf(t, d) == LifeOf(s, d)
  {
  }

  lemma TakenLife<Id(!new)>(s: State<Id>, sid: Id, d: nat)
    requires Inv(s) && d < |s.dials|
    ensures var t := TakeStep(s, sid);
      && d < |t.dials| && t.dials[d].sid == s.dials[d].sid
      && LifeOf(t, d) == if sid == s.dials[d].sid && LifeOf(s, d).Pending? then Starting else LifeOf(s, d)
  {
    hide Tasked, OneHolder;
  }

  lemma LockedLife<Id(!new)>(s: State<Id>, c: nat, d: nat)
    requires Inv(s) && c in s.starts && d < |s.dials|
    ensures var t := LockStep(s, c);
      && d < |t.dials| && t.dials[d].sid == s.dials[d].sid
      && LifeOf(t, d) == if s.starts[c].dial == d && s.dials[d].sid in s.sessions then Failed else LifeOf(s, d)
  {
    hide Tasked, OneHolder;
  }

  lemma LaunchingStart<Id(!new)>(s: State<Id>, c: nat, d: nat)
    requires Inv(s) && c in s.starts && s.starts[c].launching && d < |s.dials|
    ensures s.starts[c].dial < |s.dials| && s.dials[s.starts[c].dial] == Dialled(s.starts[c].sid, InStart(c))
    ensures s.starts[c].sid !in s.sessions
    ensures s.dials[d].place.Over? ==> s.dials[d].place.index < |s.ended|
    ensures s.starts[c].ninep.Some? <==> exists k :: 0 <= k < |s.forwards| && s.forwards[k].dial == s.starts[c].dial
  {
    LastForMeans(s.forwards, s.starts[c].dial);
    hide LastFor;
  }

  lemma FinishedLife<Id(!new)>(s: State<Id>, c: nat, cmd: Cmd, launched: bool, d: nat)
    requires Inv(s) && c in s.starts && s.starts[c].launching && d < |s.dials|
    ensures var t := FinishStep(s, c, cmd, launched);
      && d < |t.dials| && t.dials[d].sid == s.dials[d].sid
      && LifeOf(t, d) == if s.starts[c].dial != d then LifeOf(s, d)
                         else if StartSucceeds(s, d, cmd.ninep, launched) then Running
                         else Failed
  {
    hide Inv, HandlesOf, Prepared;
    LaunchingStart(s, c, d);
  }

  lemma WaitingLife<Id(!new)>(s: State<Id>, a: Action<Id>, d: nat)
    requires Enabled(s, a) && (a.FindSession? || a.ChildExits?) && d < |s.dials|
    ensures Step(s, a).dials == s.dials && LifeOf(Step(s, a), d) == LifeOf(s, d)
  {
    hide Unlocked;
  }

  lemma JoinedLife<Id(!new)>(s: State<Id>, c: nat, d: nat)
    requires Inv(s) && Enabled(s, TasksJoined(c)) && d < |s.dials|
    ensures var t := Step(s, TasksJoined(c));
      && d < |t.dials| && t.dials[d].sid == s.dials[d].sid
      && LifeOf(t, d) == if s.waits[c].sid == s.dials[d].sid && LifeOf(s, d).Running? then Stopped else LifeOf(s, d)
  {
    hide Tasked, OneHolder, Accounted, Unlocked;
  }

  /** A dial of an id that is not pending adds a pending dial of that id, and no other step adds any. */
  lemma DialsAreAdded<Id(!new)>(s: State<Id>, a: Action<Id>)
    requires Inv(s) && Enabled(s, a)
    ensures var t := Step(s, a);
      if a.Dial? && a.sid !in s.pending then
        |t.dials| == |s.dials| + 1 && t.dials[|s.dials|].sid == a.sid && LifeOf(t, |s.dials|).Pending?
      else |t.dials| == |s.dials|
  {
    hide Inv, Unlocked, StartResult, Prepared, HandlesOf;
  }

  /** A forwarding task is set up for the pending dial of its id, if there is one and a port could be had;
      by no other step. */
  lemma ForwardsAreAdded<Id(!new)>(s: State<Id>, a: Action<Id>)
    requires Inv(s) && Enabled(s, a)
    ensures var (t, n) := (Step(s, a), |s.forwards|);
      if a.NinepForward? && a.sid in s.pending && a.port.Some? then
        && |t.forwards| == n + 1 && t.forwards[..n] == s.forwards && t.forwards[n].port == a.port.value
        && t.forwards[n].dial < |s.dials| && s.dials[t.forwards[n].dial].sid == a.sid
        && LifeOf(s, t.forwards[n].dial).Pending?
      else t.forwards == s.forwards
  {
    hide Tasked, OneHolder, Accounted, Unlocked, StartResult, Prepared, HandlesOf;
  }

  /** How a start ends: when it finds the id running with DuplicateId; and when it was launching, for a 9p
      command without a forwarding task with No9pPort, for a child that is not launched with LaunchFail, and
      otherwise well, with the command it was given. No other step ends one. */
  lemma StartsEnd<Id(!new)>(s: State<Id>, a: Action<Id>)
    requires Inv(s) && Enabled(s, a)
    ensures var (t, n) := (Step(s, a), |s.ended|);
      if (a.LockSessions? && s.starts[a.call].sid in s.sessions) || a.FinishStart? then
        && |t.ended| == n + 1 && t.ended[..n] == s.ended && t.ended[n].dial == s.starts[a.call].dial
        && t.starts == s.starts - {a.call}
        && (a.LockSessions? ==> t.ended[n].error == Some(DuplicateId))
        && (a.FinishStart? ==>
              var dial := s.starts[a.call].dial;
              if a.cmd.ninep && forall k :: 0 <= k < |s.forwards| ==> s.forwards[k].dial != dial then
                t.ended[n].error == Some(No9pPort)
              else if !a.launched then t.ended[n].error == Some(LaunchFail)
              else t.ended[n].error == None && t.ended[n].launch.Some? && t.ended[n].launch.value.asked == a.cmd)
      else t.ended == s.ended
  {
    hide Unlocked, Prepared, HandlesOf, Placed, Accounted, OneHolder;
    if a.FinishStart? {
      LastForMeans(s.forwards, s.starts[a.call].dial);
    }
    hide LastFor;
  }

  /** A `wait` for a running session waits for its child, and then for its tasks if another `wait` has not
      removed the session meanwhile. */
  lemma WaitGoesOn<Id(!new)>(s: State<Id>, a: Action<Id>, w: nat)
    requires Inv(s) && Enabled(s, a) && InWait(a)
    ensures var t := Step(s, a);
      && (a.FindSession? && w == s.calls ==>
            (w in t.waits <==> a.sid in s.sessions)
            && (a.sid in s.sessions ==> t.waits[w] == ForChild(a.sid)))
      && (a.ChildExits? && w == a.call ==>
            (w in t.waits <==> s.waits[w].sid in s.sessions)
            && (w in t.waits ==> t.waits[w] == ForTasks(s.waits[w].sid)))
      && (a.TasksJoined? && w == a.call ==> w !in t.waits)
      && (w != (if a.FindSession? then s.calls else a.call) ==>
            (w in t.waits <==> w in s.waits) && (w in t.waits ==> t.waits[w] == s.waits[w]))
  {
    assert WaitsNumbered(s);
    hide Inv, Unlocked;
  }

  /** At its end the session is gone, it and no other. */
  lemma WaitEnds<Id(!new)>(s: State<Id>, a: Action<Id>)
    requires Enabled(s, a) && InWait(a)
    ensures var t := Step(s, a);
      forall i ::
        && (i in t.sessions <==> i in s.sessions && !(a.TasksJoined? && i == s.waits[a.call].sid))
        && (i in t.sessions ==> t.sessions[i] == s.sessions[i])
    ensures var t := Step(s, a);
      t.pending == s.pending && t.starts == s.starts && t.dials == s.dials
  {
    hide Unlocked;
  }

  /** While a start is launching its child, nothing but its end touches the running sessions or the
      waits. */
  lemma LockedOut<Id(!new)>(s: State<Id>, c: nat, a: Action<Id>)
    requires Inv(s) && c in s.starts && s.starts[c].launching && Enabled(s, a)
    ensures (a.FinishStart? && a.call == c) || (Step(s, a).sessions == s.sessions && Step(s, a).waits == s.waits)
  {
    hide Placed, Accounted, Tasked, StartResult, Prepared, HandlesOf, Moved;
  }

  /** The lock cannot be deadlocked: while a call is in flight, some call can go on. */
  lemma SomeoneGoesOn<Id(!new)>(s: State<Id>, c: nat)
    requires c in s.starts || c in s.waits
    ensures exists a: Action<Id> ::
              Enabled(s, a) && (a.LockSessions? || a.FinishStart? || a.ChildExits? || a.TasksJoined?)
  {
    var a: Action<Id>;
    if !Unlocked(s) {
      var d :| d in s.starts && s.starts[d].launching;
      a := FinishStart(d, Cmd(false, "", []), true);
    } else if c in s.starts {
      a := LockSessions(c);
    } else {
      a := if s.waits[c].ForChild? then ChildExits(c) else TasksJoined(c);
    }
    assert Enabled(s, a);
  }

  /** At most one start: of any number of starts of an id, one gets each dial of it, and a dial's start
      ends once, well or badly. */
  lemma OneStartPerDial<Id(!new)>(run: seq<Action<Id>>)
    requires After(run).Some?
    ensures var s := After(run).value;
      && (forall j, k :: 0 <= j < |s.ended| && 0 <= k < |s.ended| && s.ended[j].dial == s.ended[k].dial ==> j == k)
      && (forall c, d :: c in s.starts && d in s.starts && s.starts[c].dial == s.starts[d].dial ==> c == d)
      && (forall c, k :: c in s.starts && 0 <= k < |s.ended| ==> s.starts[c].dial != s.ended[k].dial)
  {
    RunsKeepInv(run);
  }

  /** No id has been dialled twice. */
  predicate Fresh<Id>(s: State<Id>) {
    forall d, e :: 0 <= d < |s.dials| && 0 <= e < |s.dials| && s.dials[d].sid == s.dials[e].sid ==> d == e
  }

  lemma StepNoDuplicate<Id(!new)>(s: State<Id>, a: Action<Id>)
    requires Inv(s) && Enabled(s, a) && Fresh(s)
    requires forall e :: e in s.ended ==> e.error != Some(DuplicateId)
    ensures forall e :: e in Step(s, a).ended ==> e.error != Some(DuplicateId)
  {
    hide Tasked, Accounted, OneHolder, Unlocked, HandlesOf;
  }

  lemma StepFresh<Id(!new)>(s: State<Id>, a: Action<Id>)
    requires Inv(s) && Enabled(s, a) && Fresh(Step(s, a))
    ensures Fresh(s)
  {
    var t := Step(s, a);
    forall d | 0 <= d < |s.dials| ensures d < |t.dials| && t.dials[d].sid == s.dials[d].sid { LifeGoesOn(s, a, d); }
    hide Step, Inv, Enabled;
  }

  /** With fresh ids the pending, the starting and the running sessions have different ids, a session
      that failed or stopped has left no trace, and no start finds its id running. */
  lemma {:induction false} FreshSessions<Id(!new)>(run: seq<Action<Id>>)
    requires After(run).Some? && Fresh(After(run).value)
    ensures var s := After(run).value;
      && s.pending.Keys !! s.sessions.Keys
      && (forall c :: c in s.starts ==> s.starts[c].sid !in s.pending && s.starts[c].sid !in s.sessions)
      && (forall c, d :: c in s.starts && d in s.starts && s.starts[c].sid == s.starts[d].sid ==> c == d)
      && (forall d | 0 <= d < |s.dials| && (LifeOf(s, d).Failed? || LifeOf(s, d).Stopped?) ::
            s.dials[d].sid !in s.pending && s.dials[d].sid !in s.sessions)
      && (forall e :: e in s.ended ==> e.error != Some(DuplicateId))
  {
    RunsKeepInv(run);
    if run != [] {
      var (init, last) := (run[..|run| - 1], run[|run| - 1]);
      RunsKeepInv(init);
      StepFresh(After(init).value, last);
      FreshSessions(init);
      StepNoDuplicate(After(init).value, last);
    }
    FreshTables(After(run).value);
    hide Inv, Step, Fresh, Enabled, LifeOf;
  }

  lemma FreshTables<Id(!new)>(s: State<Id>)
    requires Inv(s) && Fresh(s)
    ensures s.pending.Keys !! s.sessions.Keys
    ensures forall c :: c in s.starts ==> s.starts[c].sid !in s.pending && s.starts[c].sid !in s.sessions
    ensures forall c, d :: c in s.starts && d in s.starts && s.starts[c].sid == s.starts[d].sid ==> c == d
    ensures forall d | 0 <= d < |s.dials| && (LifeOf(s, d).Failed? || LifeOf(s, d).Stopped?) ::
            s.dials[d].sid !in s.pending && s.dials[d].sid !in s.sessions
  {
    hide Tasked, OneHolder, Accounted;
  }

  lemma {:induction false} LastForMeans(forwards: seq<Forwarding>, dial: nat)
    ensures match LastFor(forwards, dial)
            case Some(Ninep(k, port)) =>
              k < |forwards| && forwards[k] == Forwarding(dial, port)
              && forall j :: k < j < |forwards| ==> forwards[j].dial != dial
            case None => forall j :: 0 <= j < |forwards| ==> forwards[j].dial != dial
  {
    if forwards != [] {
      LastForMeans(forwards[..|forwards| - 1], dial);
    }
  }

  /** A forwarding task that is kept belongs to the dial it is kept for. */
  lemma TaskBelongs<Id(!new)>(s: State<Id>, k: nat)
    requires Inv(s)
    ensures forall j :: j in s.pending && s.pending[j].ninep.Some? && s.pending[j].ninep.value.task == k ==>
              k < |s.forwards| && s.forwards[k] == Forwarding(s.pending[j].dial, s.pending[j].ninep.value.port)
    ensures forall c :: c in s.starts && s.starts[c].ninep.Some? && s.starts[c].ninep.value.task == k ==>
              k < |s.forwards| && s.forwards[k] == Forwarding(s.starts[c].dial, s.starts[c].ninep.value.port)
    ensures forall j :: j in s.sessions && k in s.sessions[j].handles ==>
              k < |s.forwards| && s.forwards[k].dial == s.sessions[j].dial
  {
    forall d, port ensures LastFor(s.forwards, d) == Some(Ninep(k, port)) ==>
                             k < |s.forwards| && s.forwards[k] == Forwarding(d, port)
    {
      LastForMeans(s.forwards, d);
    }
    hide LastFor, OneHolder, Accounted, Placed;
  }

  /** The forwarding task of a running session is the last that was set up for it while it was
      pending, if any was, and it is nowhere else. */
  lemma TaskMovedOnce<Id(!new)>(run: seq<Action<Id>>, i: Id)
    requires After(run).Some? && i in After(run).value.sessions
    ensures var s := After(run).value;
      var (dial, handles) := (s.sessions[i].dial, s.sessions[i].handles);
      if forall k :: 0 <= k < |s.forwards| ==> s.forwards[k].dial != dial then handles == []
      else
        |handles| == 1 && handles[0] < |s.forwards| && s.forwards[handles[0]].dial == dial
        && forall j :: handles[0] < j < |s.forwards| ==> s.forwards[j].dial != dial
    ensures var s := After(run).value;
      forall k :: k in s.sessions[i].handles ==>
        && (forall j :: j in s.pending && s.pending[j].ninep.Some? ==> s.pending[j].ninep.value.task != k)
        && (forall c :: c in s.starts && s.starts[c].ninep.Some? ==> s.starts[c].ninep.value.task != k)
        && (forall j :: j in s.sessions && k in s.sessions[j].handles ==> j == i)
  {
    RunsKeepInv(run);
    hide After, LastFor, HandlesOf, Inv;
    var s := After(run).value;
    HandlesMean(s, i);
    forall k | k in s.sessions[i].handles
      ensures (forall j :: j in s.pending && s.pending[j].ninep.Some? ==> s.pending[j].ninep.value.task != k)
      ensures (forall c :: c in s.starts && s.starts[c].ninep.Some? ==> s.starts[c].ninep.value.task != k)
      ensures (forall j :: j in s.sessions && k in s.sessions[j].handles ==> j == i)
    {
      NowhereElse(s, i, k);
    }
  }

  lemma HandlesMean<Id(!new)>(s: State<Id>, i: Id)
    requires Inv(s) && i in s.sessions
    ensures var (dial, handles) := (s.sessions[i].dial, s.sessions[i].handles);
      if forall k :: 0 <= k < |s.forwards| ==> s.forwards[k].dial != dial then handles == []
      else
        |handles| == 1 && handles[0] < |s.forwards| && s.forwards[handles[0]].dial == dial
        && forall j :: handles[0] < j < |s.forwards| ==> s.forwards[j].dial != dial
  {
    LastForMeans(s.forwards, s.sessions[i].dial);
    assert s.sessions[i].handles == HandlesOf(LastFor(s.forwards, s.sessions[i].dial));
    hide Tasked, Placed, OneHolder, Accounted, LastFor;
  }

  lemma NowhereElse<Id(!new)>(s: State<Id>, i: Id, k: nat)
    requires Inv(s) && i in s.sessions && k in s.sessions[i].handles
    ensures forall j :: j in s.pending && s.pending[j].ninep.Some? ==> s.pending[j].ninep.value.task != k
    ensures forall c :: c in s.starts && s.starts[c].ninep.Some? ==> s.starts[c].ninep.value.task != k
    ensures forall j :: j in s.sessions && k in s.sessions[j].handles ==> j == i
  {
    TaskBelongs(s, k);
    hide LastFor, OneHolder, Accounted, Tasked;
  }

  /** A running session was started once, by the start that ended `k`-th. */
  lemma StartOf<Id(!new)>(run: seq<Action<Id>>, i: Id) returns (k: nat)
    requires After(run).Some? && i in After(run).value.sessions
    ensures var s := After(run).value;
      && k < |s.ended| && s.ended[k].dial == s.sessions[i].dial && s.ended[k].launch.Some?
      && forall j :: 0 <= j < |s.ended| && s.ended[j].dial == s.sessions[i].dial ==> j == k
  {
    RunsKeepInv(run);
    RunsLaunch(run);
    var s := After(run).value;
    k := s.dials[s.sessions[i].dial].place.index;
    hide Tasked, OneHolder, After;
  }

  /** What the child of a running session has been sent: the command it was started with, and for a 9p
      command the entry of the mount points at the port of the forwarding task that the session holds. */
  lemma PortOfItsTask<Id(!new)>(run: seq<Action<Id>>, i: Id)
    requires After(run).Some? && i in After(run).value.sessions
    ensures var s := After(run).value;
      forall k :: 0 <= k < |s.ended| && s.ended[k].dial == s.sessions[i].dial ==>
        && s.ended[k].launch.Some?
        && var Launch(asked, sent) := s.ended[k].launch.value;
           if !asked.ninep then sent == asked
           else
             && |s.sessions[i].handles| == 1 && s.sessions[i].handles[0] < |s.forwards|
             && sent == asked.(fstab := Rewritten(asked.fstab, asked.tmpMnt, s.forwards[s.sessions[i].handles[0]].port))
  {
    RunsKeepInv(run);
    RunsLaunch(run);
    var s := After(run).value;
    var k := StartOf(run, i);
    hide After, Rewritten, Accounted, Placed, OneHolder;
    LastForMeans(s.forwards, s.sessions[i].dial);
    hide LastFor;
  }

  /** So the first mount of a 9p session that was started with a client's namespace is the 9p file system
      at that port. */
  lemma MountsItsTask<Id(!new)>(run: seq<Action<Id>>, i: Id, k: nat, namespace: string, more: seq<FsTab>)
    requires After(run).Some? && i in After(run).value.sessions
    requires k < |After(run).value.ended| && After(run).value.ended[k].launch.Some?
    requires After(run).value.ended[k].dial == After(run).value.sessions[i].dial
    requires var asked := After(run).value.ended[k].launch.value.asked;
      && asked.ninep && Namespace(namespace, asked.tmpMnt) != []
      && asked.fstab == Namespace(namespace, asked.tmpMnt) + more
    ensures var s := After(run).value;
      var (sent, handles) := (s.ended[k].launch.value.sent, s.sessions[i].handles);
      && |handles| == 1 && handles[0] < |s.forwards| && sent.fstab != []
      && MountOf(sent.fstab[0])
           == Mount(Some("127.0.0.1"), sent.tmpMnt + "/mnt9p", Some("9p"), false,
                    Some("version=9p2000.L,trans=tcp,port=" + Decimal(s.forwards[handles[0]].port)))
  {
    PortOfItsTask(run, i);
    var s := After(run).value;
    var asked := s.ended[k].launch.value.asked;
    hide After, Rewritten, MountOf, NinepOptions, Decimal, Namespace;
    NinepIsMountedFirst(namespace, asked.tmpMnt, more, s.forwards[s.sessions[i].handles[0]].port);
  }

  /** A start that succeeded has launched, and a 9p command then had its forwarding task. */
  ghost predicate Launched<Id(!new)>(s: State<Id>) {
    forall k :: 0 <= k < |s.ended| && s.ended[k].error.None? ==>
      s.ended[k].launch.Some? && (s.ended[k].launch.value.asked.ninep ==> LastFor(s.forwards, s.ended[k].dial).Some?)
  }

  lemma {:induction false} RunsLaunch<Id(!new)>(run: seq<Action<Id>>)
    requires After(run).Some?
    ensures Launched(After(run).value)
  {
    if run != [] {
      var (init, last) := (run[..|run| - 1], run[|run| - 1]);
      RunsKeepInv(init);
      RunsLaunch(init);
      StepLaunches(After(init).value, last);
    }
  }

  lemma ForwardLaunches<Id(!new)>(s: State<Id>, sid: Id, port: nat)
    requires Launched(s) && sid in s.pending
    ensures Launched(ForwardStep(s, sid, Some(port)))
  {
    forall k | 0 <= k < |s.ended| {
      LastForMore(s.forwards, s.ended[k].dial, Forwarding(s.pending[sid].dial, port));
    }
    hide LastFor;
  }

  lemma FinishLaunches<Id(!new)>(s: State<Id>, c: nat, cmd: Cmd, launched: bool)
    requires Tasked(s) && Launched(s) && c in s.starts
    ensures Launched(FinishStep(s, c, cmd, launched))
  {
    assert s.starts[c].ninep == LastFor(s.forwards, s.starts[c].dial);
    hide LastFor, Prepared, HandlesOf, Tasked, Moved;
  }

  lemma StepLaunches<Id(!new)>(s: State<Id>, a: Action<Id>)
    requires Inv(s) && Launched(s) && Enabled(s, a)
    ensures Launched(Step(s, a))
  {
    assert Tasked(s);
    hide Inv, Tasked, Launched, FinishStep, ForwardStep, LockStep, Unlocked;
    match a
    case NinepForward(sid, port) => ForwardingLaunches(s, sid, port);
    case LockSessions(c) => LockLaunches(s, c);
    case FinishStart(c, cmd, launched) => FinishLaunches(s, c, cmd, launched);
    case _ => SameLaunches(s, Step(s, a));
  }

  lemma SameLaunches<Id(!new)>(s: State<Id>, t: State<Id>)
    requires Launched(s) && t.ended == s.ended && t.forwards == s.forwards
    ensures Launched(t)
  {
    hide LastFor;
  }

  lemma LockLaunches<Id(!new)>(s: State<Id>, c: nat)
    requires Launched(s) && c in s.starts
    ensures Launched(LockStep(s, c))
  {
    hide LastFor, Moved;
  }

  lemma ForwardingLaunches<Id(!new)>(s: State<Id>, sid: Id, port: Option<nat>)
    requires Launched(s)
    ensures Launched(ForwardStep(s, sid, port))
  {
    if sid in s.pending && port.Some? { ForwardLaunches(s, sid, port.value); }
    hide Launched;
  }

  // ------------------------------------------------------------------- the server

  /** The server as it changes its tables in place; each method is what a call does under one hold of
      a lock. */
  class Server<Id(==, !new)> {
    var pending: map<Id, PendingSession>
    var sessions: map<Id, Session>
    var starts: map<nat, StartCall<Id>>
    var waits: map<nat, Waiting<Id>>
    var calls: nat
    var dialled: nat
    var forwarded: nat
    ghost var dials: seq<Dialled<Id>>
    ghost var forwards: seq<Forwarding>
    ghost var ended: seq<Ended>

    ghost predicate Valid()
      reads this
    {
      dialled == |dials| && forwarded == |forwards|
    }

    ghost function Snapshot(): State<Id>
      reads this
    {
      State(dials, forwards, pending, sessions, starts, waits, calls, ended)
    }

    constructor ()
      ensures Valid() && Snapshot() == Initial()
    {
      pending, sessions, starts, waits, calls, dialled, forwarded := map[], map[], map[], map[], 0, 0, 0;
      dials, forwards, ended := [], [], [];
    }

    method Dial(sid: Id) returns (error: Option<Error>)
      requires Valid()
      modifies this
      ensures Valid() && Snapshot() == Step(old(Snapshot()), Action.Dial(sid))
      ensures error == if sid in old(pending) then Some(DuplicateId) else None
    {
      if sid in pending { return Some(DuplicateId); }
      pending := pending[sid := PendingSession(dialled, None)];
      dialled := dialled + 1;
      dials := dials + [Dialled(sid, InPending)];
      return None;
    }

    method NinepForward(sid: Id, port: Option<nat>) returns (error: Option<Error>)
      requires Valid()
      modifies this
      ensures Valid() && Snapshot() == Step(old(Snapshot()), Action.NinepForward(sid, port))
      ensures error == if sid !in old(pending) then Some(SessionNotExist) else if port.None? then Some(BindFail) else None
    {
      if sid !in pending { return Some(SessionNotExist); }
      if port.None? { return Some(BindFail); }
      var session := pending[sid];
      pending := pending[sid := session.(ninep := Some(Ninep(forwarded, port.value)))];
      forwarded := forwarded + 1;
      forwards := forwards + [Forwarding(session.dial, port.value)];
      return None;
    }

    /** The first part of `start`. */
    method TakePending(sid: Id) returns (call: Result<nat, Error>)
      requires Valid()
      modifies this
      ensures Valid() && Snapshot() == Step(old(Snapshot()), Action.TakePending(sid))
      ensures call == if sid in old(pending) then Ok(old(calls)) else Err(SessionNotExist)
    {
      if sid !in pending { return Err(SessionNotExist); }
      var session := pending[sid];
      pending := pending - {sid};
      starts := starts[calls := StartCall(sid, session.dial, session.ninep, false)];
      dials := Moved(dials, session.dial, InStart(calls));
      calls := calls + 1;
      return Ok(calls - 1);
    }

    /** The second, when it gets the lock of the running sessions. */
    method LockSessions(call: nat) returns (error: Option<Error>)
      requires Valid() && Enabled(Snapshot(), Action.LockSessions(call))
      modifies this
      ensures Valid() && Snapshot() == Step(old(Snapshot()), Action.LockSessions(call))
      ensures error == if old(starts)[call].sid in sessions then Some(DuplicateId) else None
    {
      var start := starts[call];
      if start.sid in sessions {
        starts := starts - {call};
        dials := Moved(dials, start.dial, Over(|ended|));
        ended := ended + [Ended(start.dial, Some(DuplicateId), None)];
        return Some(DuplicateId);
      }
      starts := starts[call := start.(launching := true)];
      return None;
    }

    /** The third, up to letting the lock go; `sent` is what the child gets. */
    method FinishStart(call: nat, cmd: Cmd, launched: bool) returns (error: Option<Error>, sent: Cmd)
      requires Valid() && Enabled(Snapshot(), Action.FinishStart(call, cmd, launched))
      modifies this
      ensures Valid() && Snapshot() == Step(old(Snapshot()), Action.FinishStart(call, cmd, launched))
      ensures error == if cmd.ninep && old(starts)[call].ninep.None? then Some(No9pPort)
                       else if !launched then Some(LaunchFail)
                       else None
      ensures sent == Prepared(cmd, old(starts)[call].ninep)
    {
      var start := starts[call];
      sent := cmd;
      if cmd.ninep && start.ninep.None? {
        error := Some(No9pPort);
      } else {
        if cmd.ninep {
          var tabs := new FsTab[|cmd.fstab|](i requires 0 <= i < |cmd.fstab| => cmd.fstab[i]);
          assert tabs[..] == cmd.fstab;
          RewriteTabs(tabs, cmd.tmpMnt, start.ninep.value.port);
          sent := cmd.(fstab := tabs[..]);
        }
        if !launched {
          error := Some(LaunchFail);
        } else {
          sessions := sessions[start.sid := Session(start.dial, HandlesOf(start.ninep))];
          error := None;
        }
      }
      starts := starts - {call};
      dials := Moved(dials, start.dial, Over(|ended|));
      ended := ended + [Ended(start.dial, error, if error.None? then Some(Launch(cmd, sent)) else None)];
    }

    /** The first part of `wait`. */
    method FindSession(sid: Id) returns (call: Result<nat, Error>)
      requires Valid() && Enabled(Snapshot(), Action.FindSession(sid))
      modifies this
      ensures Valid() && Snapshot() == Step(old(Snapshot()), Action.FindSession(sid))
      ensures call == if sid in sessions then Ok(old(calls)) else Err(SessionNotExist)
    {
      if sid !in sessions { return Err(SessionNotExist); }
      waits := waits[calls := ForChild(sid)];
      calls := calls + 1;
      return Ok(calls - 1);
    }

    /** The second, when the child has exited: another `wait` may have removed the session. */
    method ChildExits(call: nat) returns (error: Option<Error>)
      requires Valid() && Enabled(Snapshot(), Action.ChildExits(call))
      modifies this
      ensures Valid() && Snapshot() == Step(old(Snapshot()), Action.ChildExits(call))
      ensures error == if old(waits)[call].sid in sessions then None else Some(SessionNotExist)
    {
      var sid := waits[call].sid;
      if sid !in sessions {
        waits := waits - {call};
        return Some(SessionNotExist);
      }
      waits := waits[call := ForTasks(sid)];
      return None;
    }

    /** The third, when the session's tasks have been joined. */
    method TasksJoined(call: nat)
      requires Valid() && Enabled(Snapshot(), Action.TasksJoined(call))
      modifies this
      ensures Valid() && Snapshot() == Step(old(Snapshot()), Action.TasksJoined(call))
    {
      var sid := waits[call].sid;
      waits := waits - {call};
      sessions := sessions - {sid};
    }
  }
}
