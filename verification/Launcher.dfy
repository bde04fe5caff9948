/**
 Starting and stopping the elevated helper from two threads: the worker that launches it
 and the caller's thread that polls and closes (src/steamlan/adapter/launcher.py). One
 step is one locked section, one read or one write of a shared field, or one outside
 effect, so a schedule is any interleaving of the two.
 */
module Launcher {
  import opened Basics

  // A listener, a process handle or a connection; each one Windows gives is new.
  type Handle = nat

  datatype State = Idle | Starting | Ready | Failed | Stopped

  function Is(field: Option<Handle>, h: Handle): nat { if field == Some(h) then 1 else 0 }

  /** Where the worker thread is in `_start`; the handle it holds is its own until stored. */
  datatype Worker =
    | Unborn
    | Preparing
    | Launching
    | Launched(process: Handle)
    | Waiting
    | Accepted(connection: Handle)
    | Guarding  // about to look at _closing after an error
    | Failing  // about to look at _closing and state in _fail
    | Marking  // about to write FAILED
    | Ended
  {
    function Holds(h: Handle): nat {
      match this
      case Launched(p) => Is(Some(p), h)
      case Accepted(c) => Is(Some(c), h)
      case _ => 0
    }
  }

  datatype Taken = Taken(listener: Option<Handle>, connection: Option<Handle>, process: Option<Handle>)
  {
    function Times(h: Handle): nat { Is(listener, h) + Is(connection, h) + Is(process, h) }
  }

  /** Where the caller's thread is: between calls, in `_fail` from `poll`, or in `close`
      with what it took out of the shared fields. */
  datatype Caller =
    | Free
    | FailingPoll
    | MarkingPoll
    | Looking(taken: Taken)  // about to read state
    | Halting(taken: Taken)  // about to write STOPPED
    | Ending(taken: Taken)  // closing what it took
  {
    predicate InClose() { Looking? || Halting? || Ending? }

    function Holds(h: Handle): nat { if InClose() then taken.Times(h) else 0 }
  }

  datatype World = World(
    state: State,
    closing: bool,
    shared: Taken,  // _listener, _connection, _process
    worker: Worker,
    caller: Caller,
    returned: bool,  // close() has returned
    given: set<Handle>,
    closed: multiset<Handle>)

  const NOTHING := Taken(None, None, None)

  const START := World(Idle, false, NOTHING, Unborn, Free, false, {}, multiset{})

  datatype CallerStep =
    | Start(listener: Handle)
    | PollReady
    | PollFails
    | CheckFails
    | DecideFailed
    | MarkFailed
    | CloseAgain

  datatype CloseStep =
    | TakeAll
    | LookAtState
    | MarkStopped
    | CloseConnection
    | CloseListener
    | CloseProcess
    | Return

  datatype WorkerStep =
    | Prepare
    | PrepareFails(known: bool)  // whether with a WintunLoadError
    | Launch(process: Handle)
    | LaunchDeclined
    | LaunchFails
    | StoreProcess
    | Accept(connection: Handle)
    | AcceptFails
    | StoreConnection
    | Guard
    | Decide
    | Mark

  datatype Step = Call(call: CallerStep) | Close(close: CloseStep) | Work(work: WorkerStep)

  predicate CallEnabled(w: World, s: CallerStep) {
    match s
    case Start(h) => w.caller.Free? && w.state.Idle? && h !in w.given
    case PollReady => w.caller.Free? && (w.state.Starting? || w.state.Ready?) && w.shared.connection.Some?
    case PollFails => w.caller.Free? && (w.state.Starting? || w.state.Ready?) && w.shared.connection.Some?
    case CheckFails => w.caller.Free? && (w.state.Starting? || w.state.Ready?) && w.shared.process.Some?
    case DecideFailed => w.caller.FailingPoll?
    case MarkFailed => w.caller.MarkingPoll?
    case CloseAgain => w.caller.Free? && w.closing
  }

  predicate CloseEnabled(w: World, s: CloseStep) {
    match s
    case TakeAll => w.caller.Free? && !w.closing
    case LookAtState => w.caller.Looking?
    case MarkStopped => w.caller.Halting?
    case CloseConnection => w.caller.Ending? && w.caller.taken.connection.Some?
    case CloseListener => w.caller.Ending? && w.caller.taken.connection.None? && w.caller.taken.listener.Some?
    case CloseProcess =>
      && w.caller.Ending? && w.caller.taken.connection.None? && w.caller.taken.listener.None?
      && w.caller.taken.process.Some?
    case Return => w.caller.Ending? && w.caller.taken == NOTHING
  }

  predicate WorkEnabled(w: World, s: WorkerStep) {
    match s
    case Prepare => w.worker.Preparing?
    case PrepareFails(_) => w.worker.Preparing?
    case Launch(h) => w.worker.Launching? && h !in w.given
    case LaunchDeclined => w.worker.Launching?
    case LaunchFails => w.worker.Launching?
    case StoreProcess => w.worker.Launched?
    case Accept(h) => w.worker.Waiting? && h !in w.given
    case AcceptFails => w.worker.Waiting?
    case StoreConnection => w.worker.Accepted?
    case Guard => w.worker.Guarding?
    case Decide => w.worker.Failing?
    case Mark => w.worker.Marking?
  }

  predicate Enabled(w: World, s: Step) {
    match s
    case Call(c) => CallEnabled(w, c)
    case Close(c) => CloseEnabled(w, c)
    case Work(c) => WorkEnabled(w, c)
  }

  function CloseOne(w: World, h: Handle): World { w.(closed := w.closed + multiset{h}) }

  function Open(w: World, h: Handle): World { w.(given := w.given + {h}) }

  function Called(w: World, s: CallerStep): World
    requires CallEnabled(w, s)
  {
    match s
    case Start(h) =>
      Open(w, h).(state := Starting, shared := w.shared.(listener := Some(h)), worker := Preparing)
    case PollReady => w.(state := Ready)
    case PollFails => w.(caller := FailingPoll)
    case CheckFails => w.(caller := FailingPoll)
    case DecideFailed => w.(caller := if w.closing || w.state.Failed? then Free else MarkingPoll)
    case MarkFailed => w.(state := Failed, caller := Free)
    case CloseAgain => w
  }

  function Closing(w: World, s: CloseStep): World
    requires CloseEnabled(w, s)
  {
    match s
    case TakeAll => w.(closing := true, shared := NOTHING, caller := Looking(w.shared))
    case LookAtState =>
      w.(caller := if w.state.Starting? || w.state.Ready? then Halting(w.caller.taken) else Ending(w.caller.taken))
    case MarkStopped => w.(state := Stopped, caller := Ending(w.caller.taken))
    case CloseConnection =>
      CloseOne(w, w.caller.taken.connection.value).(caller := Ending(w.caller.taken.(connection := None)))
    case CloseListener =>
      CloseOne(w, w.caller.taken.listener.value).(caller := Ending(w.caller.taken.(listener := None)))
    case CloseProcess =>
      CloseOne(w, w.caller.taken.process.value).(caller := Ending(w.caller.taken.(process := None)))
    case Return => w.(caller := Free, returned := true)
  }

  function Worked(w: World, s: WorkerStep): World
    requires WorkEnabled(w, s)
  {
    match s
    case Prepare => w.(worker := Launching)
    case PrepareFails(known) => w.(worker := if known then Failing else Guarding)
    case Launch(h) => Open(w, h).(worker := Launched(h))
    case LaunchDeclined => w.(worker := Failing)
    case LaunchFails => w.(worker := Guarding)
    case StoreProcess =>
      if w.closing then CloseOne(w, w.worker.process).(worker := Ended)
      else w.(shared := w.shared.(process := Some(w.worker.process)), worker := Waiting)
    case Accept(h) => Open(w, h).(worker := Accepted(h))
    case AcceptFails => w.(worker := Guarding)
    case StoreConnection =>
      if w.closing then CloseOne(w, w.worker.connection).(worker := Ended)
      else w.(shared := w.shared.(connection := Some(w.worker.connection)), worker := Ended)
    case Guard => w.(worker := if w.closing then Ended else Failing)
    case Decide => w.(worker := if w.closing || w.state.Failed? then Ended else Marking)
    case Mark => w.(state := Failed, worker := Ended)
  }

  function Next(w: World, s: Step): World
    requires Enabled(w, s)
  {
    match s
    case Call(c) => Called(w, c)
    case Close(c) => Closing(w, c)
    case Work(c) => Worked(w, c)
  }

  // What holds after every step

  /** In how many places a handle is. */
  function Held(w: World, h: Handle): nat { w.shared.Times(h) + w.worker.Holds(h) + w.caller.Holds(h) }

  predicate Accounted(w: World, h: Handle) { Held(w, h) + w.closed[h] == if h in w.given then 1 else 0 }

  /** Every handle Windows gave is in exactly one place, or was closed exactly once. */
  ghost predicate Conserved(w: World) { forall h :: Accounted(w, h) }

  /** Where the worker can be while a field is set. */
  predicate Placed(w: World) {
    && (w.shared.connection.Some? ==> w.worker.Ended?)
    && (w.shared.process.Some? ==>
          !w.worker.Unborn? && !w.worker.Preparing? && !w.worker.Launching? && !w.worker.Launched?)
    && (w.state.Idle? ==> w.worker.Unborn? && w.shared == NOTHING)
    && (w.caller.FailingPoll? || w.caller.MarkingPoll? || w.caller.Halting? ==> !w.state.Idle?)
    && (w.worker.Unborn? ==> !w.state.Starting? && !w.state.Ready? && w.shared == NOTHING)
    && (w.closing ==> w.shared.connection.None? && w.shared.process.None?)
  }

  /** How far close() is, and what READY still means. */
  predicate Staged(w: World) {
    && (w.returned ==> w.closing)
    && (w.caller.InClose() ==> w.closing && !w.returned)
    && (w.closing && !w.returned ==> w.caller.InClose())
    && (w.state.Ready? ==> w.worker.Ended? && (w.shared.connection.Some? || w.caller.Looking? || w.caller.Halting?))
  }

  ghost predicate Inv(w: World) { Conserved(w) && Placed(w) && Staged(w) }

  lemma CallAccounts(w: World, s: CallerStep, h: Handle)
    requires Accounted(w, h) && Placed(w) && CallEnabled(w, s)
    ensures Accounted(Called(w, s), h)
  {
  }

  lemma CallStages(w: World, s: CallerStep)
    requires Placed(w) && Staged(w) && CallEnabled(w, s)
    ensures Placed(Called(w, s)) && Staged(Called(w, s))
  {
  }

  lemma CloseAccounts(w: World, s: CloseStep, h: Handle)
    requires Accounted(w, h) && CloseEnabled(w, s)
    ensures Accounted(Closing(w, s), h)
  {
  }

  lemma CloseStages(w: World, s: CloseStep)
    requires Placed(w) && Staged(w) && CloseEnabled(w, s)
    ensures Placed(Closing(w, s)) && Staged(Closing(w, s))
  {
  }

  lemma WorkAccounts(w: World, s: WorkerStep, h: Handle)
    requires Accounted(w, h) && Placed(w) && WorkEnabled(w, s)
    ensures Accounted(Worked(w, s), h)
  {
  }

  lemma WorkStages(w: World, s: WorkerStep)
    requires Placed(w) && Staged(w) && WorkEnabled(w, s)
    ensures Placed(Worked(w, s)) && Staged(Worked(w, s))
  {
  }

  lemma StepKeeps(w: World, s: Step)
    requires Inv(w) && Enabled(w, s)
    ensures Inv(Next(w, s))
  {
    hide Accounted, Placed, Staged, Called, Closing, Worked;
    match s
    case Call(c) =>
      forall h ensures Accounted(Called(w, c), h) { CallAccounts(w, c, h); }
      CallStages(w, c);
    case Close(c) =>
      forall h ensures Accounted(Closing(w, c), h) { CloseAccounts(w, c, h); }
      CloseStages(w, c);
    case Work(c) =>
      forall h ensures Accounted(Worked(w, c), h) { WorkAccounts(w, c, h); }
      WorkStages(w, c);
  }

  predicate EnabledAll(w: World, steps: seq<Step>)
    decreases |steps|
  {
    steps == [] || (Enabled(w, steps[0]) && EnabledAll(Next(w, steps[0]), steps[1..]))
  }

  function After(w: World, steps: seq<Step>): World
    requires EnabledAll(w, steps)
    decreases |steps|
  {
    if steps == [] then w else After(Next(w, steps[0]), steps[1..])
  }

  lemma {:induction false} RunKeeps(w: World, steps: seq<Step>)
    requires Inv(w) && EnabledAll(w, steps)
    ensures Inv(After(w, steps))
    ensures w.returned ==> After(w, steps).returned
    decreases |steps|
  {
    if steps != [] {
      StepKeeps(w, steps[0]);
      RunKeeps(Next(w, steps[0]), steps[1..]);
    }
  }

  /** For every interleaving of the two threads: nothing is ever closed twice; once close
      has returned and the worker is not running, everything was closed exactly once, save
      for the listener of a start that only came after the close; and from the return on
      the state is never READY again. */
  lemma EveryInterleaving(steps: seq<Step>)
    requires EnabledAll(START, steps)
    ensures var w := After(START, steps);
      && (forall h :: w.closed[h] <= 1)
      && (w.returned ==> !w.state.Ready?)
      && (w.returned && w.caller.Free? && (w.worker.Ended? || w.worker.Unborn?) ==>
            forall h :: h in w.given && w.shared.listener != Some(h) ==> w.closed[h] == 1)
      && (w.caller.Free? && w.state.Ready? ==> w.shared.connection.Some?)
  {
    RunKeeps(START, steps);
    var w := After(START, steps);
    forall h ensures w.closed[h] <= 1 {
      assert Accounted(w, h);
    }
    if w.returned && w.caller.Free? && (w.worker.Ended? || w.worker.Unborn?) {
      forall h | h in w.given && w.shared.listener != Some(h) ensures w.closed[h] == 1 {
        assert Accounted(w, h);
      }
    }
  }

  /** Whether close was called before the helper was ever started. */
  predicate ClosedUnstarted(steps: seq<Step>)
    decreases |steps|
  {
    steps != [] && (steps[0] == Close(TakeAll)
        || (!(steps[0].Call? && steps[0].call.Start?) && ClosedUnstarted(steps[1..])))
  }

  lemma {:induction false} ListenerKept(w: World, steps: seq<Step>)
    requires Inv(w) && EnabledAll(w, steps)
    requires w.closing ==> w.shared.listener.None?
    requires !w.state.Idle? || (!w.closing && !ClosedUnstarted(steps))
    ensures var t := After(w, steps); t.closing ==> t.shared.listener.None?
    decreases |steps|
  {
    if steps != [] {
      StepKeeps(w, steps[0]);
      ListenerKept(Next(w, steps[0]), steps[1..]);
    }
  }

  lemma {:induction false} LateListenerStays(w: World, steps: seq<Step>)
    requires Inv(w) && EnabledAll(w, steps)
    requires w.closing ==> (w.shared.listener.Some? <==> !w.state.Idle?)
    requires !w.closing ==> w.state.Idle? && ClosedUnstarted(steps)
    ensures var t := After(w, steps); t.closing && (t.shared.listener.Some? <==> !t.state.Idle?)
    decreases |steps|
  {
    if steps != [] {
      StepKeeps(w, steps[0]);
      LateListenerStays(Next(w, steps[0]), steps[1..]);
    }
  }

  /** Both threads are done with the helper. */
  predicate Finished(w: World) { w.returned && w.caller.Free? && (w.worker.Ended? || w.worker.Unborn?) }

  /** Once finished, nothing at all is left open exactly if the helper wasn't started for
      the first time after it had been closed. */
  lemma AllClosed(steps: seq<Step>)
    requires EnabledAll(START, steps) && Finished(After(START, steps))
    ensures var w := After(START, steps);
      (forall h :: h in w.given ==> w.closed[h] == 1) <==> !ClosedUnstarted(steps) || w.state.Idle?
  {
    RunKeeps(START, steps);
    EveryInterleaving(steps);
    var w := After(START, steps);
    if ClosedUnstarted(steps) {
      LateListenerStays(START, steps);
      if w.shared.listener.Some? {
        assert Accounted(w, w.shared.listener.value);
      }
    } else {
      ListenerKept(START, steps);
    }
  }

  predicate Leaked(w: World, listener: Handle) {
    w.returned && w.caller.Free? && w.worker.Ended? && w.closed == multiset{} && w.given == {listener}
  }

  lemma Prepend(w: World, s: Step, rest: seq<Step>)
    requires Enabled(w, s) && EnabledAll(Next(w, s), rest)
    ensures EnabledAll(w, [s] + rest) && After(w, [s] + rest) == After(Next(w, s), rest)
  {
    assert ([s] + rest)[1..] == rest;
  }

  lemma AfterOne(w: World, s: Step)
    requires Enabled(w, s)
    ensures EnabledAll(w, [s]) && After(w, [s]) == Next(w, s)
  {
    assert [s][1..] == [];
    assert After(Next(w, s), []) == Next(w, s);
  }

  lemma LateWorkerEnds(late: World, listener: Handle, rest: seq<Step>)
    requires late == World(Starting, true, Taken(Some(listener), None, None), Preparing, Free, true, {listener},
        multiset{})
    requires rest == [Work(Prepare)] + ([Work(LaunchFails)] + [Work(Guard)])
    ensures EnabledAll(late, rest) && Leaked(After(late, rest), listener)
  {
    hide After, EnabledAll;
    var w2 := Next(late, Work(Prepare));
    AfterOne(Next(w2, Work(LaunchFails)), Work(Guard));
    Prepend(w2, Work(LaunchFails), [Work(Guard)]);
    Prepend(late, Work(Prepare), [Work(LaunchFails)] + [Work(Guard)]);
  }

  /** Closed first and started after, it keeps the new listener for good. */
  lemma LateStartLeaks(listener: Handle)
    ensures exists steps :: EnabledAll(START, steps) && ClosedUnstarted(steps) && Leaked(After(START, steps), listener)
  {
    var late := World(Starting, true, Taken(Some(listener), None, None), Preparing, Free, true, {listener}, multiset{});
    var rest := [Work(Prepare)] + ([Work(LaunchFails)] + [Work(Guard)]);
    LateWorkerEnds(late, listener, rest);
    var begun := World(Idle, true, NOTHING, Unborn, Free, true, {}, multiset{});
    assert Next(begun, Call(Start(listener))) == late;
    Prepend(begun, Call(Start(listener)), rest);
    var ending := World(Idle, true, NOTHING, Unborn, Ending(NOTHING), false, {}, multiset{});
    Prepend(ending, Close(Return), [Call(Start(listener))] + rest);
    var looking := World(Idle, true, NOTHING, Unborn, Looking(NOTHING), false, {}, multiset{});
    Prepend(looking, Close(LookAtState), [Close(Return)] + ([Call(Start(listener))] + rest));
    var steps := [Close(TakeAll)] + ([Close(LookAtState)] + ([Close(Return)] + ([Call(Start(listener))] + rest)));
    Prepend(START, Close(TakeAll), [Close(LookAtState)] + ([Close(Return)] + ([Call(Start(listener))] + rest)));
    assert steps[0] == Close(TakeAll);
  }

  // What the state says of the schedule

  /** The steps that write this state. */
  predicate Sets(s: Step, state: State) {
    match state
    case Idle => false
    case Starting => s.Call? && s.call.Start?
    case Ready => s == Call(PollReady)
    case Failed => s == Call(MarkFailed) || s == Work(Mark)
    case Stopped => s == Close(MarkStopped)
  }

  predicate SetsNoOther(steps: seq<Step>, state: State) {
    forall s, other :: s in steps && other != state ==> !Sets(s, other)
  }

  /** One of the steps writes this state, and no later one another. */
  ghost predicate SetLast(steps: seq<Step>, state: State) {
    exists i :: 0 <= i < |steps| && Sets(steps[i], state) && SetsNoOther(steps[i + 1..], state)
  }

  lemma StepSets(w: World, s: Step, state: State)
    requires Enabled(w, s)
    ensures Next(w, s).state == state <==> Sets(s, state) || (w.state == state && SetsNoOther([s], state))
  {
    assert forall other :: Sets(s, other) ==> Next(w, s).state == other;
    assert Sets(s, Starting) || Sets(s, Ready) || Sets(s, Failed) || Sets(s, Stopped) || Next(w, s).state == w.state;
    assert [s][0] == s && s in [s];
    if !SetsNoOther([s], state) {
      var x, other :| x in [s] && other != state && Sets(x, other);
      assert x == s;
    }
  }

  lemma SetLastFirst(steps: seq<Step>, state: State)
    requires steps != []
    ensures SetLast(steps, state) <==>
      SetLast(steps[1..], state) || (Sets(steps[0], state) && SetsNoOther(steps[1..], state))
  {
    var rest := steps[1..];
    if i :| 0 <= i < |steps| && Sets(steps[i], state) && SetsNoOther(steps[i + 1..], state) {
      if i > 0 {
        assert rest[i - 1] == steps[i] && rest[i - 1 + 1..] == steps[i + 1..];
      }
    }
    if i :| 0 <= i < |rest| && Sets(rest[i], state) && SetsNoOther(rest[i + 1..], state) {
      assert steps[i + 1] == rest[i] && steps[i + 1 + 1..] == rest[i + 1..];
    }
  }

  lemma NothingSet(state: State)
    ensures !SetLast([], state)
  {
  }

  /** Over every schedule, from any world: the state is what the last step wrote that wrote
      one, or what it was. */
  lemma {:induction false} StateExactly(w: World, steps: seq<Step>, state: State)
    requires EnabledAll(w, steps)
    ensures After(w, steps).state == state <==> SetLast(steps, state) || (w.state == state && SetsNoOther(steps, state))
    decreases |steps|
  {
    hide SetLast, Sets, Enabled, Next;
    if steps != [] {
      StepSets(w, steps[0], state);
      StateExactly(Next(w, steps[0]), steps[1..], state);
      SetLastFirst(steps, state);
      assert steps == [steps[0]] + steps[1..];
    } else {
      NothingSet(state);
    }
  }

  /** The helper is started at most once, and before anything else is heard of it. */
  lemma {:induction false} StartsOnce(w: World, steps: seq<Step>, i: nat)
    requires EnabledAll(w, steps) && i < |steps| && (steps[i] == Call(PollReady) || !w.state.Idle?)
    ensures forall j :: i < j < |steps| ==> !Sets(steps[j], Starting)
    decreases |steps|
  {
    if i > 0 {
      StartsOnce(Next(w, steps[0]), steps[1..], i - 1);
      assert forall j :: i < j < |steps| ==> steps[j] == steps[1..][j - 1];
    } else if 1 < |steps| {
      StartsOnce(Next(w, steps[0]), steps[1..], 0);
      assert steps[1] == steps[1..][0];
      assert forall j :: 1 < j < |steps| ==> steps[j] == steps[1..][j - 1];
    }
  }

  lemma PolledLast(steps: seq<Step>, i: nat)
    requires EnabledAll(START, steps) && i < |steps| && steps[i] == Call(PollReady)
    requires forall j :: i < j < |steps| ==>
      steps[j] != Call(MarkFailed) && steps[j] != Work(Mark) && steps[j] != Close(MarkStopped)
    ensures SetLast(steps, Ready)
  {
    StartsOnce(START, steps, i);
    forall s, other | s in steps[i + 1..] && other != Ready ensures !Sets(s, other) {
      var j :| i < j < |steps| && steps[j] == s;
    }
    assert SetsNoOther(steps[i + 1..], Ready);
  }

  /** The helper is READY exactly when it has said so in a poll and neither thread has marked
      it failed nor close has stopped it since. */
  lemma ReadyExactly(steps: seq<Step>)
    requires EnabledAll(START, steps)
    ensures After(START, steps).state.Ready? <==>
      exists i :: 0 <= i < |steps| && steps[i] == Call(PollReady) && forall j :: i < j < |steps| ==>
        steps[j] != Call(MarkFailed) && steps[j] != Work(Mark) && steps[j] != Close(MarkStopped)
  {
    StateExactly(START, steps, Ready);
    if SetLast(steps, Ready) {
      var i :| 0 <= i < |steps| && Sets(steps[i], Ready) && SetsNoOther(steps[i + 1..], Ready);
      forall j | i < j < |steps|
        ensures steps[j] != Call(MarkFailed) && steps[j] != Work(Mark) && steps[j] != Close(MarkStopped)
      {
        assert steps[j] in steps[i + 1..];
        assert !Sets(steps[j], Failed) && !Sets(steps[j], Stopped);
      }
    }
    if i :| 0 <= i < |steps| && steps[i] == Call(PollReady) && forall j :: i < j < |steps| ==>
        steps[j] != Call(MarkFailed) && steps[j] != Work(Mark) && steps[j] != Close(MarkStopped) {
      PolledLast(steps, i);
    }
  }

  /** The schedule of a start that works. */
  function GoodStart(listener: Handle, process: Handle, connection: Handle): seq<Step> {
    [Call(Start(listener))] + ([Work(Prepare)] + ([Work(Launch(process))] + ([Work(StoreProcess)] +
      ([Work(Accept(connection))] + ([Work(StoreConnection)] + [Call(PollReady)])))))
  }

  /** READY is reached, with the connection there to use. */
  lemma ReadyIsReachable(listener: Handle, process: Handle, connection: Handle)
    requires listener != process && listener != connection && process != connection
    ensures var steps := GoodStart(listener, process, connection);
      && EnabledAll(START, steps) && After(START, steps).state.Ready?
      && After(START, steps).shared == Taken(Some(listener), Some(connection), Some(process))
  {
    hide After, EnabledAll;
    var w1 := Next(START, Call(Start(listener)));
    var w2 := Next(w1, Work(Prepare));
    var w3 := Next(w2, Work(Launch(process)));
    var w4 := Next(w3, Work(StoreProcess));
    var w5 := Next(w4, Work(Accept(connection)));
    var w6 := Next(w5, Work(StoreConnection));
    AfterOne(w6, Call(PollReady));
    Prepend(w5, Work(StoreConnection), [Call(PollReady)]);
    Prepend(w4, Work(Accept(connection)), [Work(StoreConnection)] + [Call(PollReady)]);
    Prepend(w3, Work(StoreProcess), [Work(Accept(connection))] + ([Work(StoreConnection)] + [Call(PollReady)]));
    Prepend(w2, Work(Launch(process)),
            [Work(StoreProcess)] + ([Work(Accept(connection))] + ([Work(StoreConnection)] + [Call(PollReady)])));
    Prepend(w1, Work(Prepare), [Work(Launch(process))] + ([Work(StoreProcess)] +
      ([Work(Accept(connection))] + ([Work(StoreConnection)] + [Call(PollReady)]))));
    Prepend(START, Call(Start(listener)), [Work(Prepare)] + ([Work(Launch(process))] + ([Work(StoreProcess)] +
      ([Work(Accept(connection))] + ([Work(StoreConnection)] + [Call(PollReady)])))));
  }

  // Neither thread gets stuck

  /** How many steps a worker can still make. */
  function Left(worker: Worker): nat {
    match worker
    case Unborn => 0
    case Preparing => 8
    case Launching => 7
    case Launched(_) => 6
    case Waiting => 5
    case Accepted(_) => 4
    case Guarding => 3
    case Failing => 2
    case Marking => 1
    case Ended => 0
  }

  function Size(taken: Taken): nat {
    (if taken.listener.Some? then 1 else 0) + (if taken.connection.Some? then 1 else 0) + (if taken.process.Some?
        then 1 else 0)
  }

  /** How many steps a call of close or a failing poll can still make. */
  function LeftOf(caller: Caller): nat {
    match caller
    case Free => 0
    case FailingPoll => 2
    case MarkingPoll => 1
    case Looking(taken) => 3 + Size(taken)
    case Halting(taken) => 2 + Size(taken)
    case Ending(taken) => 1 + Size(taken)
  }

  /** Every step of the worker takes it nearer to its end, and none of close's touches it. */
  lemma WorkerNears(w: World, s: Step)
    requires Enabled(w, s) && !s.Call?
    ensures if s.Work? then Left(Next(w, s).worker) < Left(w.worker) else Next(w, s).worker == w.worker
  {
  }

  /** A worker that isn't done can go on, whatever the other thread does. */
  lemma WorkerGoesOn(w: World, h: Handle)
    requires h !in w.given
    ensures !w.worker.Unborn? && !w.worker.Ended? ==> exists s :: WorkEnabled(w, s)
  {
    if w.worker.Preparing? { assert WorkEnabled(w, Prepare); }
    if w.worker.Launching? { assert WorkEnabled(w, Launch(h)); }
    if w.worker.Launched? { assert WorkEnabled(w, StoreProcess); }
    if w.worker.Waiting? { assert WorkEnabled(w, Accept(h)); }
    if w.worker.Accepted? { assert WorkEnabled(w, StoreConnection); }
    if w.worker.Guarding? { assert WorkEnabled(w, Guard); }
    if w.worker.Failing? { assert WorkEnabled(w, Decide); }
    if w.worker.Marking? { assert WorkEnabled(w, Mark); }
  }

  /** The same of close. */
  lemma CloseNears(w: World, s: Step)
    requires Enabled(w, s) && !s.Call? && s != Close(TakeAll)
    ensures if s.Close? then LeftOf(Next(w, s).caller) < LeftOf(w.caller) else Next(w, s).caller == w.caller
  {
  }

  /** And it returns. */
  lemma CloseGoesOn(w: World)
    ensures w.caller.InClose() ==> exists s :: CloseEnabled(w, s)
    ensures w.caller.InClose() && LeftOf(w.caller) == 1 ==> CloseEnabled(w, Return) && Closing(w, Return).returned
  {
    if w.caller.Looking? { assert CloseEnabled(w, LookAtState); }
    if w.caller.Halting? { assert CloseEnabled(w, MarkStopped); }
    if w.caller.Ending? {
      assert CloseEnabled(w, CloseConnection) || CloseEnabled(w, CloseListener) || CloseEnabled(w, CloseProcess)
             || CloseEnabled(w, Return);
    }
  }

  /** An error in preparing, launching or waiting for the helper. */
  predicate GoesWrong(s: WorkerStep) { s.PrepareFails? || s.LaunchDeclined? || s.LaunchFails? || s.AcceptFails? }

  /** The rest of the worker after such an error. */
  function Marks(w: World): seq<Step> {
    if w.worker.Guarding? then [Work(Guard)] + ([Work(Decide)] + [Work(Mark)]) else [Work(Decide)] + [Work(Mark)]
  }

  lemma FailureIsMarked(w: World)
    requires (w.worker.Guarding? || w.worker.Failing?) && !w.closing && !w.state.Failed?
    ensures EnabledAll(w, Marks(w)) && After(w, Marks(w)) == w.(state := Failed, worker := Ended)
  {
    hide After, EnabledAll;
    var w1 := if w.worker.Guarding? then Next(w, Work(Guard)) else w;
    AfterOne(Next(w1, Work(Decide)), Work(Mark));
    Prepend(w1, Work(Decide), [Work(Mark)]);
    if w.worker.Guarding? {
      Prepend(w, Work(Guard), [Work(Decide)] + [Work(Mark)]);
    }
  }

  /** A start that goes wrong while nobody closes is marked FAILED by the worker's own steps,
      and nothing else changes. */
  lemma WrongStartFails(w: World, s: WorkerStep)
    requires WorkEnabled(w, s) && GoesWrong(s) && !w.closing && !w.state.Failed?
    ensures var steps := [Work(s)] + Marks(Next(w, Work(s)));
      EnabledAll(w, steps) && After(w, steps) == w.(state := Failed, worker := Ended)
  {
    hide After, EnabledAll, Marks;
    var t := Next(w, Work(s));
    FailureIsMarked(t);
    Prepend(w, Work(s), Marks(t));
  }

  /** The rest of the worker after an error that comes once the helper is closed or failed. */
  function Gives(w: World): seq<Step> {
    if w.worker.Failing? then [Work(Decide)] else if w.closing then [Work(Guard)] else [Work(Guard)] + [Work(Decide)]
  }

  /** An error that comes once close has begun, or once the helper has failed, changes
      nothing: the worker just ends. */
  lemma LateErrorIsIgnored(w: World, s: WorkerStep)
    requires WorkEnabled(w, s) && GoesWrong(s) && (w.closing || w.state.Failed?)
    ensures var steps := [Work(s)] + Gives(Next(w, Work(s)));
      EnabledAll(w, steps) && After(w, steps) == w.(worker := Ended)
  {
    hide After, EnabledAll;
    var t := Next(w, Work(s));
    if t.worker.Failing? {
      AfterOne(t, Work(Decide));
    } else if t.closing {
      AfterOne(t, Work(Guard));
    } else {
      AfterOne(Next(t, Work(Guard)), Work(Decide));
      Prepend(t, Work(Guard), [Work(Decide)]);
    }
    Prepend(w, Work(s), Gives(t));
  }

  predicate WorkerOnly(steps: seq<Step>) { forall i :: 0 <= i < |steps| ==> steps[i].Work? }

  lemma {:induction false} WorkerLeavesCaller(w: World, steps: seq<Step>)
    requires EnabledAll(w, steps) && WorkerOnly(steps)
    ensures After(w, steps).caller == w.caller && After(w, steps).closing == w.closing
    decreases |steps|
  {
    if steps != [] {
      WorkerLeavesCaller(Next(w, steps[0]), steps[1..]);
    }
  }

  /** A poll that goes wrong looks again, whatever the worker did in between, and marks the
      helper FAILED unless it is being closed or has failed already. */
  lemma WrongPollFails(w: World, s: CallerStep, between: seq<Step>)
    requires CallEnabled(w, s) && (s.PollFails? || s.CheckFails?)
    requires EnabledAll(Next(w, Call(s)), between) && WorkerOnly(between)
    ensures var t := After(Next(w, Call(s)), between);
      && Enabled(t, Call(DecideFailed))
      && var u := Next(t, Call(DecideFailed));
         if w.closing || t.state.Failed? then u == t.(caller := Free)
         else Enabled(u, Call(MarkFailed)) && Next(u, Call(MarkFailed)) == t.(state := Failed, caller := Free)
  {
    WorkerLeavesCaller(Next(w, Call(s)), between);
  }

  // After the end

  /** A helper that failed or was stopped is never READY or STARTING again. */
  lemma {:induction false} OverIsOver(w: World, steps: seq<Step>)
    requires EnabledAll(w, steps) && (w.state.Failed? || w.state.Stopped?)
    ensures After(w, steps).state.Failed? || After(w, steps).state.Stopped?
    decreases |steps|
  {
    if steps != [] {
      OverIsOver(Next(w, steps[0]), steps[1..]);
    }
  }

  /** Whether a helper that is being closed still has to be stopped. */
  predicate Settling(w: World) { w.closing && w.state.Starting? ==> w.caller.Looking? || w.caller.Halting? }

  lemma {:induction false} StartingEnds(w: World, steps: seq<Step>)
    requires Inv(w) && EnabledAll(w, steps) && Settling(w)
    requires !w.state.Idle? || (!w.closing && !ClosedUnstarted(steps))
    ensures Settling(After(w, steps))
    decreases |steps|
  {
    hide Conserved;
    if steps != [] {
      StepKeeps(w, steps[0]);
      StartingEnds(Next(w, steps[0]), steps[1..]);
    }
  }

  lemma {:induction false} ClosedStarted(w: World, steps: seq<Step>)
    requires EnabledAll(w, steps) && (!w.state.Idle? || (!w.closing && !ClosedUnstarted(steps)))
    ensures var t := After(w, steps); t.closing ==> !t.state.Idle?
    decreases |steps|
  {
    if steps != [] {
      ClosedStarted(Next(w, steps[0]), steps[1..]);
    }
  }

  /** Once close has returned, a helper that was started before it has failed or is stopped. */
  lemma ClosedIsOver(steps: seq<Step>)
    requires EnabledAll(START, steps) && !ClosedUnstarted(steps) && After(START, steps).returned
    ensures var state := After(START, steps).state; state.Failed? || state.Stopped?
  {
    RunKeeps(START, steps);
    StartingEnds(START, steps);
    ClosedStarted(START, steps);
  }

  /** The place of a closing step: the connection comes first and the process last. */
  function Rank(s: Step): nat {
    match s
    case Close(CloseConnection) => 1
    case Close(CloseListener) => 2
    case Close(CloseProcess) => 3
    case _ => 0
  }

  /** Nothing of lower rank than this is still to be closed. */
  predicate Past(w: World, rank: nat) {
    && w.closing && !w.caller.Looking? && !w.caller.Halting?
    && (w.caller.InClose() && rank >= 2 ==> w.caller.taken.connection.None?)
    && (w.caller.InClose() && rank >= 3 ==> w.caller.taken.listener.None?)
    && (w.caller.InClose() && rank >= 4 ==> w.caller.taken.process.None?)
  }

  lemma {:induction false} NoneBefore(w: World, steps: seq<Step>, rank: nat)
    requires EnabledAll(w, steps) && Past(w, rank)
    ensures forall j :: 0 <= j < |steps| && Rank(steps[j]) > 0 ==> Rank(steps[j]) >= rank
    decreases |steps|
  {
    if steps != [] {
      assert Rank(steps[0]) > 0 ==> Rank(steps[0]) >= rank;
      NoneBefore(Next(w, steps[0]), steps[1..], rank);
      assert forall j :: 0 < j < |steps| ==> steps[j] == steps[1..][j - 1];
    }
  }

  lemma StagesOn(w: World, s: Step)
    requires Placed(w) && Staged(w) && Enabled(w, s)
    ensures Placed(Next(w, s)) && Staged(Next(w, s))
  {
    match s
    case Call(c) => CallStages(w, c);
    case Close(c) => CloseStages(w, c);
    case Work(c) => WorkStages(w, c);
  }

  /** In every schedule close closes each at most once and in this order: the connection, so
      that the helper ends, the listener, and the process it waits for. */
  lemma {:induction false} ClosesInOrder(w: World, steps: seq<Step>, i: nat, j: nat)
    requires Staged(w) && Placed(w) && EnabledAll(w, steps) && i < j < |steps| && Rank(steps[i]) > 0
      && Rank(steps[j]) > 0
    ensures Rank(steps[i]) < Rank(steps[j])
    decreases |steps|
  {
    var t := Next(w, steps[0]);
    if i > 0 {
      StagesOn(w, steps[0]);
      ClosesInOrder(t, steps[1..], i - 1, j - 1);
    } else {
      NoneBefore(t, steps[1..], Rank(steps[0]) + 1);
      assert steps[1..][j - 1] == steps[j];
    }
  }
}
