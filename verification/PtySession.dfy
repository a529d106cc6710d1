/** PtySession of app/services/agent_channel.py: start, pump, wait, close and expire share the
    guard of the guest, the descriptor of the terminal and the closed flag.

    One event loop runs the tasks, so a step reaches from one await to the next. Every step is an
    action of an arbitrary scheduler; an action that is not possible changes nothing. A cancelled
    task sees the cancellation at its next await. */
module PtySession {
  datatype Frame = StartFrame | OutputFrame | ErrorFrame | ExitFrame

  /** How an await ends: normally, with an exception, with a TimeoutError, or with a cancellation. A
      send that is cancelled may have got through. */
  datatype Resume = Normal | Raises | RaisesTimeout | CancelledBefore | CancelledAfter

  /** How a pump ends; a TimeoutError of its own looks to the wait task like the wait's. */
  datatype PumpEnd = Clean | Timeout | Broke

  function EndOf(how: Resume): PumpEnd { if how == Normal then Clean else if how == RaisesTimeout then Timeout else Broke }

  /** A call of _shutdown: in _terminate_process, in the gather over the tasks it found running, or
      through its last finally clause. */
  datatype Shutdown = Terminating(pump: bool, wait: bool) | Gathering(pump: bool, wait: bool) | Finished

  datatype Pump =
    | NoPump | PumpFresh | Reading | SendingOutput | SendingTail | SendingIdle | Expiring(shutdown: Shutdown) | PumpDone(end: PumpEnd)

  /** `entered` is false for a task cancelled before its first step. */
  datatype Wait = NoWait | WaitFresh | OnProcess | OnPump | OnCancelledPump | SendingExit | WaitDone(entered: bool)

  datatype Start = Init | Spawning | Announcing | Failing(shutdown: Shutdown) | Ended

  /** The fields of the session. */
  datatype Core = Core(closed: bool, fd: bool, held: bool, acquired: bool, releases: nat, processRuns: bool)

  datatype State = State(
    core: Core, start: Start, pump: Pump, pumpCancel: bool, wait: Wait, waitCancel: bool,
    closers: seq<Shutdown>, frames: seq<Frame>)

  const INITIAL := State(Core(false, false, false, false, 0, false), Init, NoPump, false, NoWait, false, [], [])

  // ----- Parts of the steps -----

  /** _close_master_fd and _release_guest_guard, as in both finally clauses. */
  function LetGo(c: Core): Core {
    if c.held then c.(fd := false, held := false, releases := c.releases + 1) else c.(fd := false)
  }

  predicate PumpRuns(s: State) { s.pump != NoPump && !s.pump.PumpDone? }
  predicate WaitRuns(s: State) { s.wait != NoWait && !s.wait.WaitDone? }

  function CancelTasks(s: State, pump: bool, wait: bool): State {
    s.(pumpCancel := s.pumpCancel || (pump && PumpRuns(s)), waitCancel := s.waitCancel || (wait && WaitRuns(s)))
  }

  /** Closed, without a descriptor, and the pump told. */
  function ShutOff(s: State, pump: bool): State {
    CancelTasks(s.(core := s.core.(closed := true, fd := false)), pump, false)
  }

  /** _shutdown up to its first await; `pump` is false when the pump task runs it. */
  function Begin(s: State, notPump: bool): (State, Shutdown) {
    var pump, wait := notPump && PumpRuns(s), WaitRuns(s);
    var s1 := ShutOff(s, pump);
    if s.core.processRuns then (s1, Terminating(pump, wait)) else Collect(CancelTasks(s1, pump, wait), pump, wait)
  }

  /** The gather, or straight on when there is nothing to gather. */
  function Collect(s: State, pump: bool, wait: bool): (State, Shutdown) {
    if pump || wait then (s, Gathering(pump, wait)) else (s.(core := LetGo(s.core)), Finished)
  }

  /** _shutdown from one await to the next. */
  function Continue(s: State, d: Shutdown, how: Resume): (State, Shutdown) {
    match d
    case Terminating(pump, wait) => Collect(CancelTasks(s, pump, wait), pump, wait)
    case Gathering(pump, wait) =>
      if how == Normal then
        if (pump && PumpRuns(s)) || (wait && WaitRuns(s)) then (s, d) else (s.(core := LetGo(s.core)), Finished)
      else
        var s1 := CancelTasks(s, pump, wait);
        (s1.(core := LetGo(s1.core)), Finished)
    case Finished => (s, d)
  }

  // ----- The tasks -----

  datatype Action =
    | Acquire(acquired: bool, circuitOpen: bool)
    | Spawned(ok: bool)
    | Announced(how: Resume)
    | FailureContinues(how: Resume)
    | ProcessExits
    | PumpStep(input: PumpInput)
    | WaitStep(how: Resume, timedOut: bool)
    | CloseCalled
    | CloseContinues(i: nat, how: Resume)

  /** What the pump meets: how its await ends, and then the clock or the descriptor. */
  datatype PumpInput = PumpInput(how: Resume, read: Read, idle: bool)
  datatype Read = Nothing | Chunk | EndOfFile(tail: bool)

  /** The head of the pump's loop. */
  function LoopHead(s: State, idle: bool): State {
    if s.core.closed then s.(pump := PumpDone(Clean))
    else if idle then s.(pump := SendingIdle)
    else if !s.core.fd then s.(pump := PumpDone(Clean))
    else s.(pump := Reading)
  }

  /** expire, when it finds the session open; the pump calls it. */
  function Expire(s: State): State {
    if s.core.closed then s.(pump := PumpDone(Clean))
    else
      var (s1, d) := Begin(s, false);
      s1.(pump := if d == Finished then PumpDone(Clean) else Expiring(d))
  }

  predicate Interrupted(how: Resume) { how == CancelledBefore || how == CancelledAfter }

  function Sent(s: State, how: Resume, frame: Frame): State {
    if how == Normal || how == CancelledAfter then s.(frames := s.frames + [frame]) else s
  }

  /** A cancellation that is due arrives now, and there is none that is not due. */
  predicate MayResume(cancel: bool, how: Resume) { cancel == Interrupted(how) }

  /** The pump from one await to the next, outside its own call of expire. */
  function Pumped(s: State, input: PumpInput): State {
    match s.pump
    case PumpFresh => if Interrupted(input.how) then s.(pump := PumpDone(Broke)) else LoopHead(s, input.idle)
    case Reading =>
      if input.how == RaisesTimeout then LoopHead(s, input.idle)
      else if input.how != Normal then s.(pump := PumpDone(Broke))
      else (match input.read
            case Nothing => LoopHead(s, input.idle)
            case Chunk => s.(pump := SendingOutput)
            case EndOfFile(tail) => s.(pump := if tail then SendingTail else PumpDone(Clean)))
    case SendingOutput =>
      var s1 := Sent(s, input.how, OutputFrame);
      if input.how == Normal then LoopHead(s1, input.idle) else s1.(pump := PumpDone(EndOf(input.how)))
    case SendingTail => Sent(s, input.how, OutputFrame).(pump := PumpDone(EndOf(input.how)))
    case _ => s
  }

  function StepPump(s: State, input: PumpInput): State {
    if !PumpRuns(s) || !MayResume(s.pumpCancel, input.how) then s
    else
      var s0 := s.(pumpCancel := false);
      match s.pump
      case SendingIdle =>
        var s1 := Sent(s0, input.how, ErrorFrame);
        if input.how == Normal then Expire(s1) else s1.(pump := PumpDone(EndOf(input.how)))
      case Expiring(d) =>
        var (s1, d1) := Continue(s0, d, input.how);
        s1.(pump := if d1 == Finished then PumpDone(EndOf(input.how)) else Expiring(d1))
      case _ => Pumped(s0, input)
  }

  /** The finally clause of _wait. */
  function WaitEnds(s: State): State { s.(wait := WaitDone(true), core := LetGo(s.core)) }

  /** _wait once the pump has ended. */
  function AfterPump(s: State): State {
    if s.core.closed then WaitEnds(s) else s.(core := s.core.(closed := true), wait := SendingExit)
  }

  /** _wait from one await to the next; process.wait() and the two ways of waiting for the pump only
      end early by a cancellation. */
  function StepWait(s: State, how: Resume, timedOut: bool): State {
    if !WaitRuns(s) || !MayResume(s.waitCancel, how) then s
    else
      var s0 := s.(waitCancel := false);
      match s.wait
      case WaitFresh => if Interrupted(how) then s0.(wait := WaitDone(false)) else s0.(wait := OnProcess)
      case OnProcess =>
        if Interrupted(how) then WaitEnds(s0) else if s.core.processRuns then s else s0.(wait := OnPump)
      case OnPump =>
        if Interrupted(how) then WaitEnds(s0)
        else if s.pump.PumpDone? then
          (match s.pump.end
           case Clean => AfterPump(s0)
           case Timeout => s0.(wait := OnCancelledPump)
           case Broke => WaitEnds(s0))
        else if timedOut then s0.(pumpCancel := true, wait := OnCancelledPump)
        else s
      case OnCancelledPump =>
        if Interrupted(how) then WaitEnds(s0) else if s.pump.PumpDone? then AfterPump(s0) else s
      case SendingExit => WaitEnds(Sent(s0, how, ExitFrame))
      case _ => s
  }

  function Fail(s: State): State {
    var (s1, d) := Begin(s, true);
    s1.(start := if d == Finished then Ended else Failing(d))
  }

  function Next(s: State, a: Action): State {
    match a
    case Acquire(acquired, circuitOpen) =>
      if s.start != Init then s
      else if !acquired then s.(start := Ended)
      else if circuitOpen then s.(start := Ended, core := s.core.(acquired := true, releases := s.core.releases + 1))
      else s.(start := Spawning, core := s.core.(acquired := true, held := true, fd := true))
    case Spawned(ok) =>
      if s.start != Spawning then s
      else if !ok then Fail(s)
      else s.(start := Announcing, pump := PumpFresh, wait := WaitFresh, core := s.core.(processRuns := true))
    case Announced(how) =>
      if s.start != Announcing then s
      else
        var s1 := Sent(s, how, StartFrame);
        if how == Normal then s1.(start := Ended) else Fail(s1)
    case FailureContinues(how) =>
      if !s.start.Failing? then s
      else
        var (s1, d) := Continue(s, s.start.shutdown, how);
        s1.(start := if d == Finished then Ended else Failing(d))
    case ProcessExits => s.(core := s.core.(processRuns := false))
    case PumpStep(input) => StepPump(s, input)
    case WaitStep(how, timedOut) => StepWait(s, how, timedOut)
    case CloseCalled =>
      if s.start != Ended then s
      else
        var (s1, d) := Begin(s, true);
        s1.(closers := s1.closers + [d])
    case CloseContinues(i, how) =>
      if i >= |s.closers| then s
      else
        var (s1, d) := Continue(s, s.closers[i], how);
        s1.(closers := s1.closers[i := d])
  }

  function Run(s: State, actions: seq<Action>): State
    decreases |actions|
  {
    if actions == [] then s else Run(Next(s, actions[0]), actions[1..])
  }

  // ----- What every step keeps -----

  predicate Ongoing(d: Shutdown) { d != Finished }

  /** Some call of _shutdown has still to run its finally clause. */
  ghost predicate InProgress(s: State) {
    s.start.Failing? || s.pump.Expiring? || SomeOngoing(s.closers)
  }

  ghost predicate SomeOngoing(closers: seq<Shutdown>) { exists i :: 0 <= i < |closers| && Ongoing(closers[i]) }
  ghost predicate SomeFinished(closers: seq<Shutdown>) { exists i :: 0 <= i < |closers| && closers[i] == Finished }

  /** The guard is given back at most once, and only what was acquired. */
  predicate GuardOk(c: Core) {
    (if c.held then 1 else 0) + c.releases == if c.acquired then 1 else 0
  }

  /** Who has let go of the guard, or still will. */
  ghost predicate Released(s: State) {
    && (s.wait == WaitDone(true) ==> !s.core.held)
    && (SomeFinished(s.closers) ==> !s.core.held)
    && (s.waitCancel || s.wait == WaitDone(false) || (s.core.closed && s.wait != SendingExit) ==> !s.core.held || InProgress(s))
    && (s.start == Ended && s.wait == NoWait ==> !s.core.held)
  }

  /** The order of the frames, as far as it has gone. */
  ghost predicate ExitIsLast(frames: seq<Frame>) {
    forall i, j | 0 <= i < j < |frames| :: frames[i] == ExitFrame ==> frames[j] != OutputFrame && frames[j] != ExitFrame
  }

  ghost predicate FramesOk(s: State) {
    && ExitIsLast(s.frames)
    && (ExitFrame in s.frames ==> s.wait == WaitDone(true) && s.pump.PumpDone?)
    && (s.wait == SendingExit ==> s.pump.PumpDone? && s.core.closed)
  }

  /** The pump is at its end or will be cancelled at its next await, unless it is the one shutting
      the session down. */
  predicate PumpTold(s: State) { PumpRuns(s) && !s.pump.Expiring? ==> s.pumpCancel }

  /** The pump only reads an open descriptor: where it has been closed, the pump is being told. */
  ghost predicate ReadsOk(s: State) {
    && (s.waitCancel || s.wait.WaitDone? ==> PumpTold(s))
    && (s.pump == Reading && !s.core.fd ==> s.pumpCancel)
    && (s.pumpCancel ==> PumpRuns(s)) && (s.waitCancel ==> WaitRuns(s))
    && (s.pump == NoPump <==> s.wait == NoWait)
    && (s.start in {Init, Spawning} ==> s.pump == NoPump && s.closers == [] && !s.core.closed)
    && (s.start == Init ==> !s.core.acquired)
    && (s.pump.Expiring? ==> Ongoing(s.pump.shutdown) && !s.pump.shutdown.pump)
    && (s.start.Failing? ==> Ongoing(s.start.shutdown))
    && (s.start == Announcing ==> s.pump != NoPump)
    && (s.closers != [] || s.start.Failing? ==> PumpTold(s))
  }

  ghost predicate Inv(s: State) { GuardOk(s.core) && Released(s) && FramesOk(s) && ReadsOk(s) }

  lemma PumpedKeeps(s: State, input: PumpInput)
    requires Inv(s) && PumpRuns(s) && MayResume(s.pumpCancel, input.how) && !s.pump.Expiring? && s.pump != SendingIdle
    ensures Inv(StepPump(s, input))
  {
  }

  lemma IdleKeeps(s: State, input: PumpInput)
    requires Inv(s) && MayResume(s.pumpCancel, input.how) && s.pump == SendingIdle
    ensures Inv(StepPump(s, input))
  {
  }

  lemma ExpiringKeeps(s: State, input: PumpInput)
    requires Inv(s) && MayResume(s.pumpCancel, input.how) && s.pump.Expiring?
    ensures Inv(StepPump(s, input))
  {
  }

  lemma PumpKeeps(s: State, input: PumpInput)
    requires Inv(s)
    ensures Inv(StepPump(s, input))
  {
    if PumpRuns(s) && MayResume(s.pumpCancel, input.how) {
      if s.pump.Expiring? {
        ExpiringKeeps(s, input);
      } else if s.pump == SendingIdle {
        IdleKeeps(s, input);
      } else {
        PumpedKeeps(s, input);
      }
    }
  }

  lemma EarlyWaitKeeps(s: State, how: Resume, timedOut: bool)
    requires Inv(s) && s.wait in {WaitFresh, OnProcess}
    ensures Inv(StepWait(s, how, timedOut))
  {
  }

  lemma LateWaitKeeps(s: State, how: Resume, timedOut: bool)
    requires Inv(s) && s.wait in {OnPump, OnCancelledPump}
    ensures Inv(StepWait(s, how, timedOut))
  {
  }

  lemma ExitKeeps(s: State, how: Resume, timedOut: bool)
    requires Inv(s) && s.wait == SendingExit
    ensures Inv(StepWait(s, how, timedOut))
  {
  }

  lemma StartKeeps(s: State, a: Action)
    requires Inv(s) && (a.Acquire? || a.Spawned?)
    ensures Inv(Next(s, a))
  {
  }

  /** What _shutdown does between two awaits once it has begun. */
  ghost predicate Moves(s: State, s1: State, d1: Shutdown) {
    && s1 == s.(core := s1.core, pumpCancel := s1.pumpCancel, waitCancel := s1.waitCancel)
    && s1.core == (if d1 == Finished then LetGo(s.core) else s.core)
    && s1.pumpCancel == (s.pumpCancel || (s1.pumpCancel && PumpRuns(s)))
    && s1.waitCancel == (s.waitCancel || (s1.waitCancel && WaitRuns(s)))
  }

  lemma ContinueMoves(s: State, d: Shutdown, how: Resume)
    requires Ongoing(d)
    ensures Moves(s, Continue(s, d, how).0, Continue(s, d, how).1)
  {
  }

  lemma MovesKeep(s: State, s1: State, d1: Shutdown)
    requires Inv(s) && PumpTold(s) && Moves(s, s1, d1)
    ensures GuardOk(s1.core) && FramesOk(s1) && ReadsOk(s1) && PumpTold(s1)
  {
  }

  lemma FailureKeeps(s: State, how: Resume)
    requires Inv(s)
    ensures Inv(Next(s, FailureContinues(how)))
  {
    if s.start.Failing? {
      var r := Continue(s, s.start.shutdown, how);
      ContinueMoves(s, s.start.shutdown, how);
      MovesKeep(s, r.0, r.1);
    }
  }

  lemma CloserKeeps(s: State, i: nat, how: Resume)
    requires Inv(s)
    ensures Inv(Next(s, CloseContinues(i, how)))
  {
    if i < |s.closers| && Ongoing(s.closers[i]) {
      var r := Continue(s, s.closers[i], how);
      ContinueMoves(s, s.closers[i], how);
      MovesKeep(s, r.0, r.1);
      var next := s.closers[i := r.1];
      assert next[i] == r.1;
      if SomeFinished(next) && r.1 != Finished {
        var j :| 0 <= j < |next| && next[j] == Finished;
        assert s.closers[j] == Finished;
      }
    }
  }

  lemma BeginKeeps(s: State, s1: State, d: Shutdown)
    requires Inv(s) && (s1, d) == Begin(s, true) && s.start in {Spawning, Announcing, Ended}
    ensures GuardOk(s1.core) && FramesOk(s1) && PumpTold(s1)
    ensures s1 == s.(core := s1.core, pumpCancel := s1.pumpCancel, waitCancel := s1.waitCancel)
    ensures s.start != Spawning ==> ReadsOk(s1)
    ensures s1.core.held ==> s.core.held && Ongoing(d)
  {
  }

  lemma CloseKeeps(s: State)
    requires Inv(s)
    ensures Inv(Next(s, CloseCalled))
  {
    if s.start == Ended {
      var (s1, d) := Begin(s, true);
      BeginKeeps(s, s1, d);
      var next := s.closers + [d];
      assert next[|s.closers|] == d;
      if SomeFinished(next) && d != Finished {
        var j :| 0 <= j < |next| && next[j] == Finished;
        assert s.closers[j] == Finished;
      }
    }
  }

  lemma AnnouncedKeeps(s: State, how: Resume)
    requires Inv(s)
    ensures Inv(Next(s, Announced(how)))
  {
    if s.start == Announcing {
      var s0 := Sent(s, how, StartFrame);
      assert Inv(s0);
      if how != Normal {
        var (s1, d) := Begin(s0, true);
        BeginKeeps(s0, s1, d);
      }
    }
  }

  lemma StepKeeps(s: State, a: Action)
    requires Inv(s)
    ensures Inv(Next(s, a))
  {
    match a
    case Announced(how) => AnnouncedKeeps(s, how);
    case FailureContinues(how) => FailureKeeps(s, how);
    case ProcessExits =>
    case PumpStep(input) => PumpKeeps(s, input);
    case WaitStep(how, timedOut) =>
      if s.wait == WaitFresh || s.wait == OnProcess {
        EarlyWaitKeeps(s, how, timedOut);
      } else if s.wait == OnPump || s.wait == OnCancelledPump {
        LateWaitKeeps(s, how, timedOut);
      } else if s.wait == SendingExit {
        ExitKeeps(s, how, timedOut);
      }
    case CloseCalled => CloseKeeps(s);
    case CloseContinues(i, how) => CloserKeeps(s, i, how);
    case _ => StartKeeps(s, a);
  }

  lemma {:induction false} RunKeeps(s: State, actions: seq<Action>)
    requires Inv(s)
    ensures Inv(Run(s, actions))
    decreases |actions|
  {
    if actions != [] {
      StepKeeps(s, actions[0]);
      RunKeeps(Next(s, actions[0]), actions[1..]);
    }
  }

  // ----- The descriptor and the process -----

  /** Some call of _shutdown has begun. */
  predicate ShutdownBegun(s: State) { s.closers != [] || s.start.Failing? || s.pump.Expiring? }

  /** An open descriptor belongs to a session that nobody has shut down. */
  predicate Opened(s: State) {
    && (s.core.fd ==> !s.waitCancel && !s.wait.WaitDone? && !ShutdownBegun(s) && (s.core.closed ==> s.wait == SendingExit))
    && (s.start == Init || (s.start == Ended && s.wait == NoWait) ==> !s.core.fd)
  }

  /** The wait task goes past the process only when that has ended. */
  predicate PastProcess(s: State) {
    s.wait.OnPump? || s.wait.OnCancelledPump? || s.wait.SendingExit? || ExitFrame in s.frames ==>
      !s.core.processRuns && !s.start.Init? && !s.start.Spawning?
  }

  /** A step of a shutdown: no descriptor is left, and wait task, process and exit stay as they were. */
  predicate Shuts(s: State, s1: State) {
    && !s1.core.fd && s1.core.processRuns == s.core.processRuns && s1.wait == s.wait
    && (ExitFrame in s1.frames ==> ExitFrame in s.frames) && (s1.start.Init? || s1.start.Spawning? ==> s1.start == s.start)
  }

  lemma ShutsKeeps(s: State, s1: State)
    requires PastProcess(s) && Shuts(s, s1)
    ensures Opened(s1) && PastProcess(s1)
  {
  }

  lemma BeginShuts(s: State, notPump: bool)
    ensures Shuts(s, Begin(s, notPump).0)
  {
  }

  lemma ContinueShuts(s: State, d: Shutdown, how: Resume)
    requires !s.core.fd
    ensures Shuts(s, Continue(s, d, how).0)
  {
  }

  lemma PumpKeepsOpened(s: State, input: PumpInput)
    requires Opened(s) && PastProcess(s)
    ensures Opened(StepPump(s, input)) && PastProcess(StepPump(s, input))
  {
    if PumpRuns(s) && MayResume(s.pumpCancel, input.how) {
      var s0 := s.(pumpCancel := false);
      if s.pump.Expiring? {
        ContinueShuts(s0, s.pump.shutdown, input.how);
        ShutsKeeps(s, StepPump(s, input));
      } else if s.pump.SendingIdle? {
        IdleKeepsOpened(s, input);
      } else {
        PumpedMoves(s0, input);
        assert StepPump(s, input) == Pumped(s0, input);
        MovesKeepOpened(s, Pumped(s0, input));
      }
    }
  }

  lemma IdleKeepsOpened(s: State, input: PumpInput)
    requires Opened(s) && PastProcess(s) && s.pump.SendingIdle? && MayResume(s.pumpCancel, input.how)
    ensures Opened(StepPump(s, input)) && PastProcess(StepPump(s, input))
  {
    var s1 := Sent(s.(pumpCancel := false), input.how, ErrorFrame);
    BeginShuts(s1, false);
    if input.how == Normal && !s.core.closed {
      ShutsKeeps(s, StepPump(s, input));
    } else {
      MovesKeepOpened(s, StepPump(s, input));
    }
  }

  /** A step that only moves the pump and sends something else than the exit. */
  predicate PumpMoves(s: State, s1: State) {
    && s1 == s.(pump := s1.pump, pumpCancel := s1.pumpCancel, frames := s1.frames)
    && !s1.pump.Expiring? && (ExitFrame in s1.frames ==> ExitFrame in s.frames)
  }

  lemma MovesKeepOpened(s: State, s1: State)
    requires Opened(s) && PastProcess(s) && PumpMoves(s, s1)
    ensures Opened(s1) && PastProcess(s1)
  {
  }

  lemma PumpedMoves(s: State, input: PumpInput)
    requires PumpRuns(s) && !s.pump.Expiring?
    ensures PumpMoves(s, Pumped(s, input))
  {
  }

  lemma WaitKeepsOpened(s: State, how: Resume, timedOut: bool)
    requires Opened(s) && PastProcess(s) && (s.waitCancel ==> WaitRuns(s)) && (WaitRuns(s) ==> !s.start.Init? && !s.start.Spawning?)
    ensures Opened(StepWait(s, how, timedOut)) && PastProcess(StepWait(s, how, timedOut))
  {
    WaitOpens(s, how, timedOut);
    WaitPasses(s, how, timedOut);
  }

  lemma WaitOpens(s: State, how: Resume, timedOut: bool)
    requires Opened(s) && (s.waitCancel ==> WaitRuns(s)) && (WaitRuns(s) ==> !s.start.Init? && !s.start.Spawning?)
    ensures Opened(StepWait(s, how, timedOut))
  {
  }

  lemma WaitPasses(s: State, how: Resume, timedOut: bool)
    requires PastProcess(s) && (WaitRuns(s) ==> !s.start.Init? && !s.start.Spawning?)
    ensures PastProcess(StepWait(s, how, timedOut))
  {
  }

  lemma AnnouncedKeepsOpened(s: State, how: Resume)
    requires Inv(s) && Opened(s) && PastProcess(s)
    ensures Opened(Next(s, Announced(how))) && PastProcess(Next(s, Announced(how)))
  {
    if s.start == Announcing && how != Normal {
      BeginShuts(Sent(s, how, StartFrame), true);
      ShutsKeeps(s, Next(s, Announced(how)));
    }
  }

  lemma ShutdownKeepsOpened(s: State, a: Action)
    requires Opened(s) && PastProcess(s) && (a.FailureContinues? || a.CloseCalled? || a.CloseContinues?)
    ensures Opened(Next(s, a)) && PastProcess(Next(s, a))
  {
    if Next(s, a) != s {
      match a
      case FailureContinues(how) => ContinueShuts(s, s.start.shutdown, how);
      case CloseCalled => BeginShuts(s, true);
      case CloseContinues(i, how) => ContinueShuts(s, s.closers[i], how);
      ShutsKeeps(s, Next(s, a));
    }
  }

  lemma StepKeepsOpened(s: State, a: Action)
    requires Inv(s) && Opened(s) && PastProcess(s)
    ensures Opened(Next(s, a)) && PastProcess(Next(s, a))
  {
    match a
    case PumpStep(input) => PumpKeepsOpened(s, input);
    case WaitStep(how, timedOut) => WaitKeepsOpened(s, how, timedOut);
    case Spawned(ok) => BeginShuts(s, true);
    case Announced(how) => AnnouncedKeepsOpened(s, how);
    case Acquire(_, _) =>
    case ProcessExits =>
    case _ => ShutdownKeepsOpened(s, a);
  }

  lemma {:induction false} RunKeepsOpened(s: State, actions: seq<Action>)
    requires Inv(s) && Opened(s) && PastProcess(s)
    ensures Opened(Run(s, actions)) && PastProcess(Run(s, actions))
    decreases |actions|
  {
    if actions != [] {
      StepKeeps(s, actions[0]);
      StepKeepsOpened(s, actions[0]);
      RunKeepsOpened(Next(s, actions[0]), actions[1..]);
    }
  }

  // ----- Main results, for every interleaving -----

  /** The guard is never given back twice. It has been given back once a call of close has returned,
      and once the wait task has ended after having begun; if the wait task ended without having
      begun, a call of _shutdown that will give it back is under way. */
  lemma GuardIsReleasedOnce(actions: seq<Action>)
    ensures var s := Run(INITIAL, actions);
            && s.core.releases <= 1 && (s.core.releases == 1 ==> s.core.acquired && !s.core.held)
            && (s.core.acquired && (s.wait == WaitDone(true) || SomeFinished(s.closers)) ==> s.core.releases == 1)
            && (s.core.acquired && s.wait.WaitDone? && s.core.releases == 0 ==> s.wait == WaitDone(false) && InProgress(s))
  {
    RunKeeps(INITIAL, actions);
  }

  /** When nothing is left to run, nothing is held. */
  lemma NothingIsHeldAtTheEnd(actions: seq<Action>)
    ensures var s := Run(INITIAL, actions);
            s.start == Ended && !PumpRuns(s) && !WaitRuns(s) && !SomeOngoing(s.closers) ==>
              !s.core.held && !s.core.fd && s.core.releases == if s.core.acquired then 1 else 0
  {
    RunKeeps(INITIAL, actions);
    RunKeepsOpened(INITIAL, actions);
  }

  /** pty.exit is sent only after the process has ended, and a descriptor is open only while nobody
      has shut the session down. */
  lemma ExitFollowsTheProcess(actions: seq<Action>)
    ensures var s := Run(INITIAL, actions);
            && (ExitFrame in s.frames ==> !s.core.processRuns)
            && (s.core.fd ==> !ShutdownBegun(s) && !s.wait.WaitDone?)
  {
    RunKeepsOpened(INITIAL, actions);
  }

  /** pty.exit is sent at most once, and no pty.output after it. */
  lemma NothingFollowsTheExit(actions: seq<Action>)
    ensures ExitIsLast(Run(INITIAL, actions).frames)
  {
    RunKeeps(INITIAL, actions);
  }

  /** Whenever the pump goes on to read, the descriptor it waited for is still open. */
  lemma ThePumpReadsAnOpenDescriptor(actions: seq<Action>, input: PumpInput)
    ensures var s := Run(INITIAL, actions);
            s.pump == Reading && MayResume(s.pumpCancel, input.how) && input.how == Normal ==> s.core.fd
  {
    RunKeeps(INITIAL, actions);
  }

  // ----- What is bound to happen -----

  /** The wait task is past the process, and its next step finds the pump ended in an open session. */
  predicate ExitIsDue(s: State) {
    && !s.core.closed && !s.waitCancel && s.pump.PumpDone?
    && (s.wait == OnCancelledPump || (s.wait == OnPump && s.pump.end == Clean))
  }

  predicate NoWaitStep(actions: seq<Action>) { forall a | a in actions :: !a.WaitStep? }

  lemma {:induction false} SendingExitStays(s: State, actions: seq<Action>)
    requires Inv(s) && s.wait == SendingExit && NoWaitStep(actions)
    ensures Run(s, actions).wait == SendingExit
    decreases |actions|
  {
    if actions != [] {
      StepKeeps(s, actions[0]);
      OthersLeaveWait(s, actions[0]);
      SendingExitStays(Next(s, actions[0]), actions[1..]);
    }
  }

  /** What no step of another task does: move the wait task, open the session again, or send the exit. */
  ghost predicate WaitLeftAlone(s: State, s': State) {
    s'.wait == s.wait && (s.core.closed ==> s'.core.closed) && (ExitFrame in s'.frames ==> ExitFrame in s.frames)
  }

  lemma ShutdownLeavesWait(s: State, notPump: bool, d: Shutdown, how: Resume)
    ensures WaitLeftAlone(s, Begin(s, notPump).0) && WaitLeftAlone(s, Continue(s, d, how).0)
  {
  }

  lemma PumpLeavesWait(s: State, input: PumpInput)
    ensures WaitLeftAlone(s, StepPump(s, input))
  {
    if PumpRuns(s) && MayResume(s.pumpCancel, input.how) {
      var s0 := s.(pumpCancel := false);
      match s.pump
      case SendingIdle => ShutdownLeavesWait(Sent(s0, input.how, ErrorFrame), false, Finished, Normal);
      case Expiring(d) => ShutdownLeavesWait(s0, false, d, input.how);
      case _ =>
    }
  }

  lemma OthersLeaveWait(s: State, a: Action)
    requires !a.WaitStep? && s.start !in {Init, Spawning}
    ensures WaitLeftAlone(s, Next(s, a))
  {
    match a
    case Announced(how) => ShutdownLeavesWait(Sent(s, how, StartFrame), true, Finished, Normal);
    case FailureContinues(how) => if s.start.Failing? { ShutdownLeavesWait(s, true, s.start.shutdown, how); }
    case PumpStep(input) => PumpLeavesWait(s, input);
    case CloseCalled => ShutdownLeavesWait(s, true, Finished, Normal);
    case CloseContinues(i, how) => if i < |s.closers| { ShutdownLeavesWait(s, true, s.closers[i], how); }
    case _ =>
  }

  /** In any run, an exit that is due is sent: the next step of the wait task closes the session, and
      the one after it, whatever the other tasks do in between, sends pty.exit for the first time,
      unless the task is cancelled first. The frame is then the last of its kind and the guard is
      given back. */
  lemma DueExitIsSent(actions: seq<Action>, between: seq<Action>, timedOut: bool, timedOut': bool)
    requires ExitIsDue(Run(INITIAL, actions)) && NoWaitStep(between)
    ensures var s1 := Next(Run(INITIAL, actions), WaitStep(Normal, timedOut));
            var s2 := Run(s1, between);
            && s1.core.closed && ExitFrame !in s2.frames
            && (!s2.waitCancel ==> var s3 := Next(s2, WaitStep(Normal, timedOut'));
                  s3.frames == s2.frames + [ExitFrame] && s3.wait == WaitDone(true) && !s3.core.held)
  {
    RunKeeps(INITIAL, actions);
    var s := Run(INITIAL, actions);
    var s1 := Next(s, WaitStep(Normal, timedOut));
    StepKeeps(s, WaitStep(Normal, timedOut));
    SendingExitStays(s1, between);
    RunKeeps(s1, between);
  }

  /** A pump that ends with a TimeoutError, or is too slow, is one step further away. */
  lemma SlowPumpIsCancelled(s: State, timedOut: bool)
    requires s.wait == OnPump && !s.waitCancel && s.pump != NoPump
    requires if s.pump.PumpDone? then s.pump.end == Timeout else timedOut
    ensures var s' := Next(s, WaitStep(Normal, timedOut));
            s' == s.(wait := OnCancelledPump, pumpCancel := s.pumpCancel || PumpRuns(s))
  {
  }

  /** What the wait task makes of the end of the pump: a clean end leads to the exit, a timeout of the
      pump's own is taken for the wait's, and any other exception or a cancellation ends the wait
      task without an exit. */
  lemma EndOfPumpDecides(s: State, how: Resume, read: Read, idle: bool, timedOut: bool)
    requires s.pump == SendingTail && s.wait == OnPump && !s.waitCancel && !s.core.closed
    requires s.pumpCancel <==> how == CancelledBefore || how == CancelledAfter
    ensures var s' := Next(Next(s, PumpStep(PumpInput(how, read, idle))), WaitStep(Normal, timedOut));
            match how
            case Normal => s'.wait == SendingExit && s'.frames == s.frames + [OutputFrame]
            case RaisesTimeout => s'.wait == OnCancelledPump && s'.frames == s.frames
            case CancelledAfter => s'.wait == WaitDone(true) && s'.frames == s.frames + [OutputFrame]
            case _ => s'.wait == WaitDone(true) && s'.frames == s.frames
  {
  }

  /** A wait task that is cancelled while it sends the exit ends; the exit may have got through. */
  lemma CancelledExit(s: State, how: Resume, timedOut: bool)
    requires s.wait == SendingExit && s.waitCancel && (how == CancelledBefore || how == CancelledAfter)
    ensures var s' := Next(s, WaitStep(how, timedOut));
            && s'.wait == WaitDone(true) && !s'.core.held && !s'.core.fd
            && s'.frames == if how == CancelledAfter then s.frames + [ExitFrame] else s.frames
  {
  }

  /** A call of _shutdown whose gathering is interrupted cancels what still runs, and lets go. */
  lemma InterruptedGatherLetsGo(s: State, i: nat, how: Resume)
    requires i < |s.closers| && s.closers[i] == Gathering(true, true) && how != Normal
    ensures var s' := Next(s, CloseContinues(i, how));
            && s'.closers[i] == Finished && !s'.core.held && !s'.core.fd
            && (PumpRuns(s) ==> s'.pumpCancel) && (WaitRuns(s) ==> s'.waitCancel)
  {
  }

  /** The pump of a session that somebody has closed ends at the head of its loop, idle or not. */
  lemma PumpOfClosedSessionEnds(s: State, read: Read, idle: bool)
    requires s.pump == Reading && !s.pumpCancel && s.core.closed
    ensures Next(s, PumpStep(PumpInput(RaisesTimeout, read, idle))) == s.(pump := PumpDone(Clean))
  {
  }

  /** A session that somebody else has closed sends no pty.exit any more. */
  lemma {:induction false} ClosedSessionSendsNoExit(s: State, actions: seq<Action>)
    requires Inv(s) && s.core.closed && s.wait != SendingExit && ExitFrame !in s.frames
    ensures ExitFrame !in Run(s, actions).frames
    decreases |actions|
  {
    if actions != [] {
      StepKeeps(s, actions[0]);
      if actions[0].WaitStep? {
        ClosedWaitEnds(s, actions[0].how, actions[0].timedOut);
      } else {
        OthersLeaveWait(s, actions[0]);
      }
      ClosedSessionSendsNoExit(Next(s, actions[0]), actions[1..]);
    }
  }

  lemma ClosedWaitEnds(s: State, how: Resume, timedOut: bool)
    requires s.core.closed && s.wait != SendingExit && ExitFrame !in s.frames
    ensures var s' := StepWait(s, how, timedOut); s'.core.closed && s'.wait != SendingExit && s'.frames == s.frames
  {
  }

  /** A close that is not itself interrupted ends everything, from any state in which the pump is not
      closing the session already: the tasks it cancels end at their next await, nothing more is sent,
      and the descriptor and the guard are let go of. */
  lemma CloseEndsEverything(actions: seq<Action>, a: seq<Action>, read: Read, idle: bool)
    requires var s := Run(INITIAL, actions);
             && s.start == Ended && !s.pump.Expiring?
             && a == [CloseCalled, CloseContinues(|s.closers|, Normal), PumpStep(PumpInput(CancelledBefore, read, idle)),
                      WaitStep(CancelledBefore, false), CloseContinues(|s.closers|, Normal)]
    ensures var s, s' := Run(INITIAL, actions), Run(Run(INITIAL, actions), a);
            && !PumpRuns(s') && !WaitRuns(s') && |s'.closers| == |s.closers| + 1 && s'.closers[|s.closers|] == Finished
            && !s'.core.held && !s'.core.fd && s'.frames == s.frames
  {
    RunKeeps(INITIAL, actions);
    CloseEndsAll(Run(INITIAL, actions), a, read, idle);
  }

  lemma CloseEndsAll(s: State, a: seq<Action>, read: Read, idle: bool)
    requires Inv(s) && s.start == Ended && !s.pump.Expiring?
    requires a == [CloseCalled, CloseContinues(|s.closers|, Normal), PumpStep(PumpInput(CancelledBefore, read, idle)),
                   WaitStep(CancelledBefore, false), CloseContinues(|s.closers|, Normal)]
    ensures var s' := Run(s, a);
            && !PumpRuns(s') && !WaitRuns(s') && |s'.closers| == |s.closers| + 1 && s'.closers[|s.closers|] == Finished
            && !s'.core.held && !s'.core.fd && s'.frames == s.frames
  {
    var s1 := Next(s, a[0]);
    var s2 := Next(s1, a[1]);
    var s3 := Next(s2, a[2]);
    var s4 := Next(s3, a[3]);
    RunFive(s, a, s1, s2, s3, s4);
    CloseTellsAll(s);
    assert Inv(s2) by {
      StepKeeps(s, a[0]);
      StepKeeps(s1, a[1]);
    }
    PumpObeys(s2, read, idle);
    WaitObeys(s3);
    CloseReturns(s2, s4, |s.closers|);
  }

  lemma CloseReturns(told: State, s: State, i: nat)
    requires Inv(told) && AllTold(told, i) && !PumpRuns(s) && !WaitRuns(s) && s.closers == told.closers
    requires s.core == told.core || s.core == LetGo(told.core)
    ensures var s' := Next(s, CloseContinues(i, Normal));
            && s'.closers[i] == Finished && !s'.core.held && !s'.core.fd
            && s' == s.(core := s'.core, closers := s'.closers) && |s'.closers| == |s.closers|
  {
  }

  /** The tasks that run are told to stop, and the call at i waits for them. */
  predicate AllTold(s: State, i: nat) {
    && i == |s.closers| - 1 && s.core.closed && !s.core.fd
    && (PumpRuns(s) ==> s.pumpCancel) && (WaitRuns(s) ==> s.waitCancel)
    && if PumpRuns(s) || WaitRuns(s) then s.closers[i].Gathering? else s.closers[i] == Finished
  }

  lemma CloseTellsAll(s: State)
    requires Inv(s) && s.start == Ended && !s.pump.Expiring?
    ensures var i := |s.closers|; var s' := Next(Next(s, CloseCalled), CloseContinues(i, Normal));
            AllTold(s', i) && s'.pump == s.pump && s'.wait == s.wait && s'.frames == s.frames
  {
  }

  lemma PumpObeys(s: State, read: Read, idle: bool)
    requires PumpRuns(s) ==> s.pumpCancel && !s.pump.Expiring?
    ensures var s' := Next(s, PumpStep(PumpInput(CancelledBefore, read, idle)));
            !PumpRuns(s') && s' == s.(pump := s'.pump, pumpCancel := s'.pumpCancel)
  {
  }

  lemma WaitObeys(s: State)
    requires WaitRuns(s) ==> s.waitCancel
    ensures var s' := Next(s, WaitStep(CancelledBefore, false));
            !WaitRuns(s') && s' == s.(wait := s'.wait, waitCancel := s'.waitCancel, core := s'.core)
            && (s'.core == s.core || s'.core == LetGo(s.core))
  {
  }

  /** An open session whose pump finds it idle reports that and is closed. */
  lemma IdleSessionIsClosed(s: State, read: Read, read': Read, idle: bool)
    requires s.pump == Reading && !s.pumpCancel && !s.core.closed
    ensures var s' := Next(Next(s, PumpStep(PumpInput(RaisesTimeout, read, true))), PumpStep(PumpInput(Normal, read', idle)));
            && s'.frames == s.frames + [ErrorFrame] && s'.core.closed && !s'.core.fd
            && s'.pump == (if s.core.processRuns then Expiring(Terminating(false, WaitRuns(s)))
                           else if WaitRuns(s) then Expiring(Gathering(false, true)) else PumpDone(Clean))
  {
  }

  /** A session that has started well, at the first read of its pump. */
  function Open(frames: seq<Frame>): State {
    State(Core(false, true, true, true, 0, true), Ended, Reading, false, WaitFresh, false, [], frames)
  }

  const OPENING := [Acquire(true, false), Spawned(true), Announced(Normal), PumpStep(PumpInput(Normal, Nothing, false))]

  /** The process writes n times. */
  function Writes(n: nat): seq<Action> {
    if n == 0 then []
    else Writes(n - 1) + [PumpStep(PumpInput(Normal, Chunk, false)), PumpStep(PumpInput(Normal, Nothing, false))]
  }

  /** The process exits, the pump reads to the end, and the wait task goes through. */
  function Exits(tail: bool): seq<Action> {
    [ProcessExits, PumpStep(PumpInput(Normal, EndOfFile(tail), false)), PumpStep(PumpInput(Normal, Nothing, false)),
     WaitStep(Normal, false), WaitStep(Normal, false), WaitStep(Normal, false), WaitStep(Normal, false)]
  }

  function Outputs(n: nat): seq<Frame> { seq(n, i => OutputFrame) }

  /** An undisturbed session from beginning to end: pty.start, a frame of output for each chunk that
      the process writes and for what is left in the decoder, pty.exit, and nothing is held. */
  lemma UndisturbedSession(n: nat, tail: bool)
    ensures var s := Run(INITIAL, OPENING + Writes(n) + Exits(tail));
            && s.frames == [StartFrame] + Outputs(n + if tail then 1 else 0) + [ExitFrame]
            && s.wait == WaitDone(true) && s.pump == PumpDone(Clean) && !s.core.held && !s.core.fd && s.core.releases == 1
  {
    var written := [StartFrame] + Outputs(n);
    SessionOpens();
    SessionWrites([StartFrame], n);
    SessionExits(written, tail);
    RunJoin(INITIAL, OPENING, Writes(n));
    RunJoin(INITIAL, OPENING + Writes(n), Exits(tail));
    assert written + [OutputFrame] == [StartFrame] + Outputs(n + 1);
  }

  lemma SessionOpens()
    ensures Run(INITIAL, OPENING) == Open([StartFrame])
  {
    RunFour(INITIAL, OPENING[0], OPENING[1], OPENING[2], OPENING[3]);
  }

  lemma {:induction false} SessionWrites(frames: seq<Frame>, n: nat)
    ensures Run(Open(frames), Writes(n)) == Open(frames + Outputs(n))
  {
    if n == 0 {
      assert frames + Outputs(0) == frames;
    } else {
      var two := [PumpStep(PumpInput(Normal, Chunk, false)), PumpStep(PumpInput(Normal, Nothing, false))];
      var s := Open(frames + Outputs(n - 1));
      SessionWrites(frames, n - 1);
      RunJoin(Open(frames), Writes(n - 1), two);
      RunTwo(s, two, Next(s, two[0]), Next(Next(s, two[0]), two[1]));
      assert two[2..] == [] && frames + Outputs(n - 1) + [OutputFrame] == frames + Outputs(n);
    }
  }

  lemma SessionExits(frames: seq<Frame>, tail: bool)
    ensures var s := Run(Open(frames), Exits(tail));
            && s.frames == (if tail then frames + [OutputFrame] else frames) + [ExitFrame]
            && s.wait == WaitDone(true) && s.pump == PumpDone(Clean) && !s.core.held && !s.core.fd && s.core.releases == 1
  {
    var a := Exits(tail);
    var s := Open(frames);
    var s3 := Next(Next(Next(s, a[0]), a[1]), a[2]);
    RunFour(s, a[0], a[1], a[2], a[3]);
    RunThree(Next(s3, a[3]), a[4], a[5], a[6]);
    RunJoin(s, [a[0], a[1], a[2], a[3]], [a[4], a[5], a[6]]);
    assert a == [a[0], a[1], a[2], a[3]] + [a[4], a[5], a[6]];
    assert s3 == s.(core := s3.core, pump := PumpDone(Clean), frames := if tail then frames + [OutputFrame] else frames);
  }

  lemma RunThree(s: State, a: Action, b: Action, c: Action)
    ensures Run(s, [a, b, c]) == Next(Next(Next(s, a), b), c)
  {
    var s1 := Next(s, a);
    RunTwo(s, [a, b, c], s1, Next(s1, b));
    RunAppend(Next(s1, b), [], c);
    assert [a, b, c][2..] == [] + [c];
  }

  lemma RunFour(s: State, a: Action, b: Action, c: Action, d: Action)
    ensures Run(s, [a, b, c, d]) == Next(Next(Next(Next(s, a), b), c), d)
  {
    RunThree(s, a, b, c);
    RunAppend(s, [a, b, c], d);
    assert [a, b, c, d] == [a, b, c] + [d];
  }

  lemma {:induction false} RunJoin(s: State, a: seq<Action>, b: seq<Action>)
    ensures Run(s, a + b) == Run(Run(s, a), b)
    decreases |a|
  {
    if a == [] {
      assert a + b == b;
    } else {
      assert (a + b)[1..] == a[1..] + b;
      RunJoin(Next(s, a[0]), a[1..], b);
    }
  }

  /** A wait task that is cancelled before its first step ends without giving the guard back; the
      call of _shutdown that cancelled it does that later. */
  lemma UnenteredWaitLeavesTheGuard(a: seq<Action>)
    requires |a| == 5 && a[0] == Acquire(true, false) && a[1] == Spawned(true) && a[2] == Announced(Raises)
    requires a[3] == FailureContinues(Normal) && a[4] == WaitStep(CancelledBefore, false)
    ensures var s := Run(INITIAL, a); s.wait == WaitDone(false) && s.core.held && s.start.Failing?
  {
    CutShort(INITIAL, a);
  }

  lemma CutShort(s: State, a: seq<Action>)
    requires |a| == 5 && a[0] == Acquire(true, false) && a[1] == Spawned(true) && a[2] == Announced(Raises)
    requires a[3] == FailureContinues(Normal) && a[4] == WaitStep(CancelledBefore, false)
    requires s.start == Init && !s.pumpCancel && !s.waitCancel
    ensures var s' := Run(s, a); s'.wait == WaitDone(false) && s'.core.held && s'.start.Failing?
  {
    var s1 := Next(s, a[0]);
    var s2 := Next(s1, a[1]);
    var s3 := Next(s2, a[2]);
    var s4 := Next(s3, a[3]);
    assert Run(s, a) == Next(s4, a[4]) by { RunFive(s, a, s1, s2, s3, s4); }
    OpenedState(s, a[0], a[1]);
    FailedState(s2, a[2], a[3]);
    CancelledState(s4, a[4]);
  }

  lemma CancelledState(s: State, a: Action)
    requires s.start.Failing? && s.wait == WaitFresh && s.waitCancel && s.core.held && a == WaitStep(CancelledBefore, false)
    ensures var s' := Next(s, a); s'.wait == WaitDone(false) && s'.core.held && s'.start.Failing?
  {
  }

  lemma OpenedState(s: State, a: Action, b: Action)
    requires s.start == Init && !s.pumpCancel && !s.waitCancel
    requires a == Acquire(true, false) && b == Spawned(true)
    ensures var s' := Next(Next(s, a), b);
            s'.start == Announcing && s'.pump == PumpFresh && s'.wait == WaitFresh && s'.core.held && s'.core.processRuns
  {
  }

  lemma FailedState(s: State, a: Action, b: Action)
    requires s.start == Announcing && s.pump == PumpFresh && s.wait == WaitFresh && s.core.held && s.core.processRuns
    requires a == Announced(Raises) && b == FailureContinues(Normal)
    ensures var s' := Next(Next(s, a), b);
            s'.start == Failing(Gathering(true, true)) && s'.wait == WaitFresh && s'.waitCancel && s'.core.held
  {
    var s1 := Next(s, a);
    assert s1.start == Failing(Terminating(true, true)) && s1.core.held && s1.wait == WaitFresh && s1.pump == PumpFresh;
  }

  lemma RunFive(s: State, a: seq<Action>, s1: State, s2: State, s3: State, s4: State)
    requires |a| == 5 && Next(s, a[0]) == s1 && Next(s1, a[1]) == s2 && Next(s2, a[2]) == s3 && Next(s3, a[3]) == s4
    ensures Run(s, a) == Next(s4, a[4])
  {
    RunTwo(s, a, s1, s2);
    RunTwo(s2, a[2..], s3, s4);
    assert a[2..][2..] == a[4..] == [a[4]];
    assert Run(s4, [a[4]]) == Run(Next(s4, a[4]), [a[4]][1..]);
  }

  lemma RunTwo(s: State, a: seq<Action>, s1: State, s2: State)
    requires |a| >= 2 && Next(s, a[0]) == s1 && Next(s1, a[1]) == s2
    ensures Run(s, a) == Run(s2, a[2..])
  {
    assert Run(s, a) == Run(s1, a[1..]);
    assert a[1..][0] == a[1] && a[1..][1..] == a[2..];
  }

  // ----- The session object -----

  /** The fields of the session and where its tasks are; each method is what happens between two
      awaits. */
  class Session {
    var core: Core
    var start: Start
    var pump: Pump
    var pumpCancel: bool
    var wait: Wait
    var waitCancel: bool
    var closers: seq<Shutdown>
    var frames: seq<Frame>

    function Now(): State
      reads this
    {
      State(core, start, pump, pumpCancel, wait, waitCancel, closers, frames)
    }

    constructor ()
      ensures Now() == INITIAL
    {
      core, start, pump, pumpCancel := Core(false, false, false, false, 0, false), Init, NoPump, false;
      wait, waitCancel, closers, frames := NoWait, false, [], [];
    }

    method CloseMasterFd()
      modifies `core
      ensures core == old(core).(fd := false)
    {
      core := core.(fd := false);
    }

    method ReleaseGuestGuard()
      modifies `core
      ensures core == if old(core).held then old(core).(held := false, releases := old(core).releases + 1) else old(core)
    {
      if !core.held { return; }
      core := core.(releases := core.releases + 1);
      core := core.(held := false);
    }

    /** The finally clauses of _shutdown and _wait. */
    method LetGoOfAll()
      modifies `core
      ensures core == LetGo(old(core))
    {
      CloseMasterFd();
      ReleaseGuestGuard();
    }

    method CancelBackground(pumpToo: bool, waitToo: bool)
      modifies `pumpCancel, `waitCancel
      ensures Now() == CancelTasks(old(Now()), pumpToo, waitToo)
    {
      if pumpToo && pump != NoPump && !pump.PumpDone? { pumpCancel := true; }
      if waitToo && wait != NoWait && !wait.WaitDone? { waitCancel := true; }
    }

    /** _shutdown up to its first await, or to its end. */
    method BeginShutdown(notPump: bool) returns (d: Shutdown)
      modifies `core, `pumpCancel, `waitCancel
      ensures (Now(), d) == Begin(old(Now()), notPump)
    {
      var pumpRuns := notPump && pump != NoPump && !pump.PumpDone?;
      var waitRuns := wait != NoWait && !wait.WaitDone?;
      CloseAndTellPump(pumpRuns);
      if core.processRuns { return Terminating(pumpRuns, waitRuns); }
      CancelBackground(pumpRuns, waitRuns);
      d := GatherTasks(pumpRuns, waitRuns);
    }

    method CloseAndTellPump(pumpRuns: bool)
      modifies `core, `pumpCancel, `waitCancel
      ensures Now() == ShutOff(old(Now()), pumpRuns)
    {
      core := core.(closed := true);
      CloseMasterFd();
      CancelBackground(pumpRuns, false);
    }

    method GatherTasks(pumpToo: bool, waitToo: bool) returns (d: Shutdown)
      modifies `core
      ensures (Now(), d) == Collect(old(Now()), pumpToo, waitToo)
    {
      if pumpToo || waitToo { return Gathering(pumpToo, waitToo); }
      LetGoOfAll();
      d := Finished;
    }

    /** _shutdown from one await to the next. */
    method ContinueShutdown(at: Shutdown, how: Resume) returns (d: Shutdown)
      modifies `core, `pumpCancel, `waitCancel
      ensures (Now(), d) == Continue(old(Now()), at, how)
    {
      match at
      case Terminating(pumpToo, waitToo) =>
        CancelBackground(pumpToo, waitToo);
        d := GatherTasks(pumpToo, waitToo);
      case Gathering(pumpToo, waitToo) =>
        if how != Normal {
          CancelBackground(pumpToo, waitToo);
        } else if (pumpToo && pump != NoPump && !pump.PumpDone?) || (waitToo && wait != NoWait && !wait.WaitDone?) {
          return at;
        }
        LetGoOfAll();
        d := Finished;
      case Finished =>
        d := at;
    }

    method Send(how: Resume, frame: Frame)
      modifies `frames
      ensures Now() == Sent(old(Now()), how, frame)
    {
      if how == Normal || how == CancelledAfter { frames := frames + [frame]; }
    }

    /** The head of the loop of _pump_output. */
    method HeadOfLoop(idle: bool)
      modifies `pump
      ensures Now() == LoopHead(old(Now()), idle)
    {
      if core.closed {
        pump := PumpDone(Clean);
      } else if idle {
        pump := SendingIdle;
      } else if !core.fd {
        pump := PumpDone(Clean);
      } else {
        pump := Reading;
      }
    }

    /** expire, called by the pump. */
    method ExpireSession()
      modifies `core, `pumpCancel, `waitCancel, `pump
      ensures Now() == Expire(old(Now()))
    {
      if core.closed {
        pump := PumpDone(Clean);
        return;
      }
      var d := BeginShutdown(false);
      pump := if d == Finished then PumpDone(Clean) else Expiring(d);
    }

    /** close */
    method Close()
      modifies `core, `pumpCancel, `waitCancel, `closers
      ensures Now() == Next(old(Now()), CloseCalled)
    {
      if start != Ended { return; }
      var d := BeginShutdown(true);
      closers := closers + [d];
    }

    /** _pump_output from one await to the next. */
    method PumpOn(input: PumpInput)
      requires pump != NoPump && !pump.PumpDone? && pumpCancel == Interrupted(input.how)
      modifies `core, `pump, `pumpCancel, `waitCancel, `frames
      ensures Now() == StepPump(old(Now()), input)
    {
      pumpCancel := false;
      match pump
      case PumpFresh =>
        if Interrupted(input.how) { pump := PumpDone(Broke); } else { HeadOfLoop(input.idle); }
      case Reading =>
        PumpReads(input);
      case SendingOutput =>
        Send(input.how, OutputFrame);
        if input.how == Normal { HeadOfLoop(input.idle); } else { pump := PumpDone(EndOf(input.how)); }
      case SendingTail =>
        Send(input.how, OutputFrame);
        pump := PumpDone(EndOf(input.how));
      case SendingIdle =>
        Send(input.how, ErrorFrame);
        if input.how == Normal { ExpireSession(); } else { pump := PumpDone(EndOf(input.how)); }
      case Expiring(at) =>
        var d := ContinueShutdown(at, input.how);
        pump := if d == Finished then PumpDone(EndOf(input.how)) else Expiring(d);
    }

    /** The read of _pump_output and what follows it. */
    method PumpReads(input: PumpInput)
      requires pump == Reading
      modifies `pump
      ensures Now() == Pumped(old(Now()), input)
    {
      if input.how == RaisesTimeout {
        HeadOfLoop(input.idle);
        return;
      }
      if input.how != Normal {
        pump := PumpDone(Broke);
        return;
      }
      match input.read
      case Nothing => HeadOfLoop(input.idle);
      case Chunk => pump := SendingOutput;
      case EndOfFile(tail) => pump := if tail then SendingTail else PumpDone(Clean);
    }

    /** start up to creating the process. */
    method AcquireGuard(acquired: bool, circuitOpen: bool)
      requires start == Init
      modifies `core, `start
      ensures Now() == Next(old(Now()), Acquire(acquired, circuitOpen))
    {
      if !acquired {
        start := Ended;
        return;
      }
      core := core.(acquired := true);
      if circuitOpen {
        core := core.(releases := core.releases + 1);
        start := Ended;
        return;
      }
      core := core.(held := true);
      core := core.(fd := true);
      start := Spawning;
    }

    /** start once the process exists, or could not be created. */
    method AfterSpawn(ok: bool)
      requires start == Spawning
      modifies this
      ensures Now() == Next(old(Now()), Spawned(ok))
    {
      if !ok {
        FailStart();
        return;
      }
      core := core.(processRuns := true);
      pump, wait, start := PumpFresh, WaitFresh, Announcing;
    }

    /** The handler of start. */
    method FailStart()
      modifies `core, `pumpCancel, `waitCancel, `start
      ensures Now() == Fail(old(Now()))
    {
      var d := BeginShutdown(true);
      start := if d == Finished then Ended else Failing(d);
    }

    /** The end of start. */
    method Announce(how: Resume)
      requires start == Announcing
      modifies `core, `pumpCancel, `waitCancel, `start, `frames
      ensures Now() == Next(old(Now()), Announced(how))
    {
      Send(how, StartFrame);
      if how == Normal { start := Ended; } else { FailStart(); }
    }

    /** _wait once the pump has ended. */
    method WaitAfterPump()
      modifies `core, `wait
      ensures Now() == AfterPump(old(Now()))
    {
      if core.closed {
        wait := WaitDone(true);
        LetGoOfAll();
        return;
      }
      core := core.(closed := true);
      wait := SendingExit;
    }

    /** _wait from one await to the next. */
    method WaitOn(how: Resume, timedOut: bool)
      requires wait != NoWait && !wait.WaitDone? && waitCancel == Interrupted(how)
      modifies `core, `wait, `waitCancel, `pumpCancel, `frames
      ensures Now() == StepWait(old(Now()), how, timedOut)
    {
      if wait == OnProcess && !waitCancel && core.processRuns { return; }
      if wait == OnPump && !waitCancel && !pump.PumpDone? && !timedOut { return; }
      if wait == OnCancelledPump && !waitCancel && !pump.PumpDone? { return; }
      waitCancel := false;
      if wait == WaitFresh {
        wait := if Interrupted(how) then WaitDone(false) else OnProcess;
      } else if wait == SendingExit {
        Send(how, ExitFrame);
        wait := WaitDone(true);
        LetGoOfAll();
      } else if Interrupted(how) || (wait == OnPump && pump.PumpDone? && pump.end == Broke) {
        wait := WaitDone(true);
        LetGoOfAll();
      } else if wait == OnProcess {
        wait := OnPump;
      } else if pump.PumpDone? && (wait == OnCancelledPump || pump.end == Clean) {
        WaitAfterPump();
      } else {
        pumpCancel := pumpCancel || !pump.PumpDone?;
        wait := OnCancelledPump;
      }
    }

    /** One action of the scheduler. */
    method Take(a: Action)
      modifies this
      ensures Now() == Next(old(Now()), a)
    {
      match a
      case Acquire(acquired, circuitOpen) => if start == Init { AcquireGuard(acquired, circuitOpen); }
      case Spawned(ok) => if start == Spawning { AfterSpawn(ok); }
      case Announced(how) => if start == Announcing { Announce(how); }
      case FailureContinues(how) =>
        if start.Failing? {
          var d := ContinueShutdown(start.shutdown, how);
          start := if d == Finished then Ended else Failing(d);
        }
      case ProcessExits => core := core.(processRuns := false);
      case PumpStep(input) => if PumpRuns(Now()) && MayResume(pumpCancel, input.how) { PumpOn(input); }
      case WaitStep(how, timedOut) => if WaitRuns(Now()) && MayResume(waitCancel, how) { WaitOn(how, timedOut); }
      case CloseCalled => Close();
      case CloseContinues(i, how) =>
        if i < |closers| {
          var d := ContinueShutdown(closers[i], how);
          closers := closers[i := d];
        }
    }

    /** The session under any scheduler: the results for runs are results about the object. */
    method Drive(actions: seq<Action>)
      requires Inv(Now())
      modifies this
      ensures Now() == Run(old(Now()), actions) && Inv(Now())
    {
      for k := 0 to |actions|
        invariant Now() == Run(old(Now()), actions[..k]) && Inv(Now())
      {
        StepKeeps(Now(), actions[k]);
        RunAppend(old(Now()), actions[..k], actions[k]);
        assert actions[..k + 1] == actions[..k] + [actions[k]];
        Take(actions[k]);
      }
      assert actions[..|actions|] == actions;
    }
  }

  /** A session from its construction on: whatever its tasks do and in whatever order, the guard is
      given back at most once, nothing is held when all tasks have ended, and the exit comes last. */
  method Live(actions: seq<Action>) returns (session: Session)
    ensures session.Now() == Run(INITIAL, actions)
    ensures session.core.releases <= 1 && ExitIsLast(session.frames)
    ensures session.start == Ended && !PumpRuns(session.Now()) && !WaitRuns(session.Now()) && !SomeOngoing(session.closers) ==>
              !session.core.held && !session.core.fd && session.core.releases == if session.core.acquired then 1 else 0
  {
    session := new Session();
    session.Drive(actions);
    GuardIsReleasedOnce(actions);
    NothingIsHeldAtTheEnd(actions);
    NothingFollowsTheExit(actions);
  }

  lemma {:induction false} RunAppend(s: State, actions: seq<Action>, a: Action)
    ensures Run(s, actions + [a]) == Next(Run(s, actions), a)
    decreases |actions|
  {
    if actions == [] {
      assert [a][1..] == [];
      assert Run(s, [a]) == Run(Next(s, a), []);
      assert actions + [a] == [a];
    } else {
      assert (actions + [a])[1..] == actions[1..] + [a];
      RunAppend(Next(s, actions[0]), actions[1..], a);
    }
  }
}
