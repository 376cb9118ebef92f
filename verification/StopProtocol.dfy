/** Stopping a command inside a container. The wrapper shell, its watcher, the command and the
    driver's stop requests meet only in two files: the stop file, which the driver truncates and
    then writes, and the pid file, which the wrapper truncates and then writes. Every member here
    speaks of all interleavings of their single steps. */
module StopProtocol {
  datatype Mode = Term | Kill

  datatype StopFile = Absent | Empty | Holds(mode: Mode)

  datatype PidFile = NoPid | EmptyPid | Pid(pid: nat)

  /** The exit statuses the wrapper chooses itself, and the one it passes on. */
  datatype Status = NoTools127 | Killed137 | Stopped143 | OfCommand

  /** What the wrapper does next. */
  datatype Wrapper =
    | CheckTools | ClearPid | CheckStop | ReadStop | RemoveStop(code: Status)
    | SpawnWatcher | SpawnChild | TruncatePid | WritePid
    | WaitChild | KillWatcher | WaitWatcher | CleanStop | CleanPid
    | Done(status: Status)

  /** What the watcher does next, with the pid it read. */
  datatype Watcher =
    | Off | AwaitStop | AwaitPid | ReadPid | ReadMode(target: nat)
    | SendTerm(target: nat) | CheckAlive(target: nat) | Reread(target: nat) | Nap(target: nat)
    | FinalCheck(target: nat) | SendKill(target: nat) | Gone

  /** The command: forked and not yet leading its group, leading it, dead, dead and waited for. */
  datatype Child = NotStarted | Forked(id: nat) | Leading(id: nat) | Zombie(id: nat) | Reaped(id: nat)

  /** A stop request under way; a file removed meanwhile leaves the writer an unlinked file. */
  datatype Driver = Idle | Writing(mode: Mode, linked: bool)

  datatype Signal = Signal(mode: Mode, target: nat)

  datatype State = State(
    stop: StopFile, pidFile: PidFile, wrapper: Wrapper, watcher: Watcher, child: Child,
    driver: Driver, todo: seq<Mode>, sent: seq<Signal>)

  /** Whose turn it is, with what the turn finds: the pid the fork returns, whether the image has
      the tools, whether the request fails before it reaches the file, whether the command exits
      (it otherwise becomes its group's leader, or runs on). A tear is a write that fails after
      its file was truncated. */
  datatype Turn = WrapperTurn(pid: nat, tools: bool) | WatcherTurn | DriverTurn(fails: bool) | ChildTurn(exits: bool) | TearTurn

  // ------------------------------------------------------- the steps

  function Unlinked(d: Driver): Driver {
    if d.Writing? then d.(linked := false) else d
  }

  function Dead(c: Child): Child {
    if c.Forked? || c.Leading? then Zombie(c.id) else c
  }

  function WrapperStep(s: State, pid: nat, tools: bool): State {
    match s.wrapper
    case CheckTools => s.(wrapper := if tools then ClearPid else Done(NoTools127))
    case ClearPid => s.(pidFile := NoPid, wrapper := CheckStop)
    case CheckStop => s.(wrapper := if s.stop.Absent? then SpawnWatcher else ReadStop)
    case ReadStop => s.(wrapper := RemoveStop(if s.stop == Holds(Kill) then Killed137 else Stopped143))
    case RemoveStop(code) => s.(stop := Absent, driver := Unlinked(s.driver), wrapper := Done(code))
    case SpawnWatcher => s.(watcher := AwaitStop, wrapper := SpawnChild)
    case SpawnChild => s.(child := Forked(pid), wrapper := TruncatePid)
    case TruncatePid => s.(pidFile := EmptyPid, wrapper := WritePid)
    case WritePid => s.(pidFile := if s.child.NotStarted? then EmptyPid else Pid(s.child.id), wrapper := WaitChild)
    case WaitChild => if s.child.Zombie? then s.(child := Reaped(s.child.id), wrapper := KillWatcher) else s
    case KillWatcher => s.(wrapper := WaitWatcher)
    case WaitWatcher => if s.watcher.Gone? then s.(wrapper := CleanStop) else s
    case CleanStop => s.(stop := Absent, driver := Unlinked(s.driver), wrapper := CleanPid)
    case CleanPid => s.(pidFile := NoPid, wrapper := Done(OfCommand))
    case Done(_) => s
  }

  /** `kill`: fails on a pid already waited for; SIGKILL ends the command, SIGTERM need not. */
  function Deliver(s: State, mode: Mode, target: nat): State {
    if s.child == Reaped(target) then s
    else
      s.(sent := s.sent + [Signal(mode, target)],
         child := if mode == Kill && !s.child.NotStarted? && s.child.id == target then Dead(s.child) else s.child)
  }

  predicate Exists(s: State, target: nat) {
    s.child != Reaped(target)
  }

  /** The wrapper's own `kill` ends the watcher at its next turn. */
  function WatcherStep(s: State): State {
    if s.wrapper.WaitWatcher? then s.(watcher := Gone) else
    match s.watcher
    case Off => s
    case AwaitStop => if s.stop.Holds? then s.(watcher := AwaitPid) else s
    case AwaitPid => if s.pidFile.Pid? then s.(watcher := ReadPid) else s
    case ReadPid => s.(watcher := ReadMode(if s.pidFile.Pid? then s.pidFile.pid else 0))
    case ReadMode(t) => s.(watcher := if s.stop == Holds(Kill) then SendKill(t) else SendTerm(t))
    case SendTerm(t) => Deliver(s, Term, t).(watcher := CheckAlive(t))
    case CheckAlive(t) => s.(watcher := if Exists(s, t) then Reread(t) else FinalCheck(t))
    case Reread(t) => s.(watcher := if s.stop == Holds(Kill) then FinalCheck(t) else Nap(t))
    case Nap(t) => s.(watcher := CheckAlive(t))
    case FinalCheck(t) => s.(watcher := if Exists(s, t) then SendKill(t) else Gone)
    case SendKill(t) => Deliver(s, Kill, t).(watcher := Gone)
    case Gone => s
  }

  function DriverStep(s: State, fails: bool): State {
    match s.driver
    case Idle =>
      if s.todo == [] then s
      else if fails then s.(todo := s.todo[1..])
      else s.(stop := Empty, driver := Writing(s.todo[0], true), todo := s.todo[1..])
    case Writing(mode, linked) =>
      s.(stop := if linked then Holds(mode) else s.stop, driver := Idle)
  }

  function TearStep(s: State): State {
    if s.driver.Writing? then s.(driver := Idle) else s
  }

  function ChildStep(s: State, exits: bool): State {
    if exits then s.(child := Dead(s.child))
    else if s.child.Forked? then s.(child := Leading(s.child.id))
    else s
  }

  function Next(s: State, turn: Turn): State {
    match turn
    case WrapperTurn(pid, tools) => WrapperStep(s, pid, tools)
    case WatcherTurn => WatcherStep(s)
    case DriverTurn(fails) => DriverStep(s, fails)
    case ChildTurn(exits) => ChildStep(s, exits)
    case TearTurn => TearStep(s)
  }

  function Run(s: State, turns: seq<Turn>): State
    decreases |turns|
  {
    if turns == [] then s else Run(Next(s, turns[0]), turns[1..])
  }

  /** Before the exec: a stale pid file may lie about, and the driver may have any list of
      requests to make. */
  predicate Initial(s: State) {
    && s.stop.Absent? && s.wrapper.CheckTools? && s.watcher.Off? && s.child.NotStarted?
    && s.driver.Idle? && s.sent == []
  }

  // ------------------------------------------------------- what every step keeps

  /** The wrapper has not passed the point where the command could start. */
  predicate Before(w: Wrapper) {
    w.CheckTools? || w.ClearPid? || w.CheckStop? || w.ReadStop? || w.RemoveStop? || w.SpawnWatcher?
  }

  /** The command has been waited for and the wrapper has not exited. */
  predicate After(w: Wrapper) {
    w.KillWatcher? || w.WaitWatcher? || w.CleanStop? || w.CleanPid?
  }

  predicate NeverStarted(s: State) {
    s.watcher.Off? && s.child.NotStarted? && s.sent == []
  }

  predicate WrapperOk(s: State) {
    match s.wrapper
    case CheckTools => NeverStarted(s)
    case ClearPid => NeverStarted(s)
    case CheckStop => NeverStarted(s) && s.pidFile.NoPid?
    case ReadStop => NeverStarted(s) && !s.stop.Absent?
    case RemoveStop(code) => NeverStarted(s) && !s.stop.Absent? && (code == Killed137 || code == Stopped143)
    case SpawnWatcher => NeverStarted(s) && s.pidFile.NoPid?
    case SpawnChild => (s.watcher.AwaitStop? || s.watcher.AwaitPid?) && s.child.NotStarted? && s.pidFile.NoPid? && s.sent == []
    case TruncatePid => (s.watcher.AwaitStop? || s.watcher.AwaitPid?) && Unwaited(s.child) && s.pidFile.NoPid? && s.sent == []
    case WritePid => (s.watcher.AwaitStop? || s.watcher.AwaitPid?) && Unwaited(s.child) && s.pidFile.EmptyPid? && s.sent == []
    case WaitChild => !s.watcher.Off? && Unwaited(s.child) && s.pidFile == Pid(s.child.id)
    case KillWatcher => !s.watcher.Off? && s.child.Reaped? && s.pidFile == Pid(s.child.id)
    case WaitWatcher => !s.watcher.Off? && s.child.Reaped? && s.pidFile == Pid(s.child.id)
    case CleanStop => s.watcher.Gone? && s.child.Reaped?
    case CleanPid => s.watcher.Gone? && s.child.Reaped?
    case Done(OfCommand) => s.watcher.Gone? && s.child.Reaped? && s.pidFile.NoPid?
    case Done(_) => NeverStarted(s)
  }

  predicate Unwaited(c: Child) {
    c.Forked? || c.Leading? || c.Zombie?
  }

  predicate Ended(c: Child) {
    c.Zombie? || c.Reaped?
  }

  /** What the watcher has sent, by where it is: TERM at most once, KILL at most once, and nothing
      after KILL, all to the command's own pid. */
  predicate WatcherOk(s: State) {
    match s.watcher
    case Off => s.sent == []
    case AwaitStop => s.sent == []
    case AwaitPid => s.sent == []
    case ReadPid => s.sent == [] && !s.child.NotStarted?
    case ReadMode(t) => s.sent == [] && Targets(s.child, t)
    case SendTerm(t) => s.sent == [] && Targets(s.child, t)
    case CheckAlive(t) => Termed(s, t)
    case Reread(t) => Termed(s, t)
    case Nap(t) => Termed(s, t)
    case FinalCheck(t) => Termed(s, t)
    case SendKill(t) => Targets(s.child, t) && (s.sent == [] || s.sent == [Signal(Term, t)])
    case Gone => Ended(s.child) && Ladder(s.sent, s.child.id)
  }

  predicate Targets(c: Child, t: nat) {
    !c.NotStarted? && c.id == t
  }

  predicate Termed(s: State, t: nat) {
    Targets(s.child, t) && (s.sent == [Signal(Term, t)] || (s.sent == [] && s.child.Reaped?))
  }

  /** Nothing, TERM, KILL, or TERM and then KILL, to one process. */
  predicate Ladder(sent: seq<Signal>, pid: nat) {
    sent == [] || sent == [Signal(Term, pid)] || sent == [Signal(Kill, pid)] || sent == [Signal(Term, pid), Signal(Kill, pid)]
  }

  /** Past its own start, the watcher has a pid only when the wrapper has written it. */
  predicate Invariant(s: State) {
    && WrapperOk(s)
    && WatcherOk(s)
    && (s.driver.Writing? && s.driver.linked ==> s.stop.Empty?)
  }

  lemma WrapperKeeps(s: State, pid: nat, tools: bool)
    requires Invariant(s)
    ensures Invariant(WrapperStep(s, pid, tools))
  {
    if Before(s.wrapper) {
      WrapperKeepsBefore(s, pid, tools);
    } else if After(s.wrapper) {
      WrapperKeepsAfter(s, pid, tools);
    } else {
      WrapperKeepsDuring(s, pid, tools);
    }
  }

  lemma WrapperKeepsDuring(s: State, pid: nat, tools: bool)
    requires Invariant(s) && !Before(s.wrapper) && !After(s.wrapper)
    ensures Invariant(WrapperStep(s, pid, tools))
  {
  }

  lemma WrapperKeepsBefore(s: State, pid: nat, tools: bool)
    requires Invariant(s) && Before(s.wrapper)
    ensures Invariant(WrapperStep(s, pid, tools))
  {
  }

  lemma WrapperKeepsAfter(s: State, pid: nat, tools: bool)
    requires Invariant(s) && After(s.wrapper)
    ensures Invariant(WrapperStep(s, pid, tools))
  {
  }

  lemma WatcherKeeps(s: State)
    requires Invariant(s)
    ensures Invariant(WatcherStep(s))
  {
    if s.watcher.SendTerm? || s.watcher.SendKill? {
      SignalKeeps(s);
    } else {
      PollKeeps(s);
    }
  }

  lemma SignalKeeps(s: State)
    requires Invariant(s) && (s.watcher.SendTerm? || s.watcher.SendKill?)
    ensures Invariant(WatcherStep(s))
  {
  }

  lemma PollKeeps(s: State)
    requires Invariant(s) && !s.watcher.SendTerm? && !s.watcher.SendKill?
    ensures Invariant(WatcherStep(s))
  {
  }

  lemma DriverKeeps(s: State, fails: bool)
    requires Invariant(s)
    ensures Invariant(DriverStep(s, fails))
  {
  }

  lemma ChildKeeps(s: State, exits: bool)
    requires Invariant(s)
    ensures Invariant(ChildStep(s, exits))
  {
  }

  lemma TearKeeps(s: State)
    requires Invariant(s)
    ensures Invariant(TearStep(s))
  {
  }

  lemma NextKeeps(s: State, turn: Turn)
    requires Invariant(s)
    ensures Invariant(Next(s, turn))
  {
    match turn
    case WrapperTurn(pid, tools) => WrapperKeeps(s, pid, tools);
    case WatcherTurn => WatcherKeeps(s);
    case DriverTurn(fails) => DriverKeeps(s, fails);
    case ChildTurn(exits) => ChildKeeps(s, exits);
    case TearTurn => TearKeeps(s);
  }

  lemma {:induction false} RunKeeps(s: State, turns: seq<Turn>)
    requires Invariant(s)
    ensures Invariant(Run(s, turns))
    decreases |turns|
  {
    if turns != [] {
      NextKeeps(s, turns[0]);
      RunKeeps(Next(s, turns[0]), turns[1..]);
    }
  }

  /** Over every run: the signals sent are a ladder, TERM and KILL at most once each, to the
      command and to nothing else, whatever pid a stale file held; and once the wrapper has exited
      there is no watcher, and no command that was not waited for. */
  lemma SignalsAreALadder(s: State, turns: seq<Turn>)
    requires Initial(s)
    ensures var t := Run(s, turns); t.sent != [] ==> !t.child.NotStarted? && Ladder(t.sent, t.child.id)
    ensures var t := Run(s, turns); t.wrapper.Done? ==> (t.watcher.Off? && t.child.NotStarted?) || (t.watcher.Gone? && t.child.Reaped?)
  {
    RunKeeps(s, turns);
  }

  predicate AllKill(todo: seq<Mode>) {
    forall i :: 0 <= i < |todo| ==> todo[i] == Kill
  }

  /** A driver that escalates, TERM and then KILL, and has not begun to repeat itself. */
  predicate Escalating(s: State) {
    && |s.todo| <= 2
    && (s.todo == [Term, Kill] || AllKill(s.todo))
  }

  lemma EscalatingKeeps(s: State, turn: Turn)
    requires Escalating(s)
    ensures Escalating(Next(s, turn))
  {
    if turn.DriverTurn? && s.driver.Idle? && s.todo != [] {
      var rest := s.todo[1..];
      assert forall i :: 0 <= i < |rest| ==> rest[i] == s.todo[i + 1];
    }
  }

  lemma {:induction false} EscalatingRun(s: State, turns: seq<Turn>)
    requires Invariant(s) && Escalating(s) && KillIsLast(s)
    ensures Invariant(Run(s, turns)) && Escalating(Run(s, turns)) && KillIsLast(Run(s, turns))
    decreases |turns|
  {
    if turns != [] {
      NextKeeps(s, turns[0]);
      EscalatingKeeps(s, turns[0]);
      KillIsLastKeeps(s, turns[0]);
      EscalatingRun(Next(s, turns[0]), turns[1..]);
    }
  }

  predicate KillIsLast(s: State) {
    (s.stop == Holds(Kill) || (s.driver.Writing? && s.driver.mode == Kill)) ==> AllKill(s.todo)
  }

  lemma KillIsLastKeeps(s: State, turn: Turn)
    requires Invariant(s) && Escalating(s) && KillIsLast(s)
    ensures KillIsLast(Next(s, turn))
  {
    EscalatingKeeps(s, turn);
  }

  // ------------------------------------------------------- only what was asked for

  /** The stop file held `mode` at some point of the run. */
  predicate EverHeld(s: State, turns: seq<Turn>, mode: Mode)
    decreases |turns|
  {
    s.stop == Holds(mode) || (turns != [] && EverHeld(Next(s, turns[0]), turns[1..], mode))
  }

  predicate EverPresent(s: State, turns: seq<Turn>)
    decreases |turns|
  {
    !s.stop.Absent? || (turns != [] && EverPresent(Next(s, turns[0]), turns[1..]))
  }

  /** The wrapper or the watcher has decided on a kill. */
  predicate KillSide(s: State) {
    || (exists i :: 0 <= i < |s.sent| && s.sent[i].mode == Kill)
    || s.wrapper == RemoveStop(Killed137)
    || s.wrapper == Done(Killed137)
    || s.watcher.SendKill?
    || (s.watcher.FinalCheck? && Exists(s, s.watcher.target))
  }

  lemma KillSideStep(s: State, turn: Turn)
    requires Invariant(s) && KillSide(Next(s, turn))
    ensures KillSide(s) || s.stop == Holds(Kill)
  {
  }

  lemma {:induction false} KillSideRun(s: State, turns: seq<Turn>)
    requires Invariant(s) && !KillSide(s) && KillSide(Run(s, turns))
    ensures EverHeld(s, turns, Kill)
    decreases |turns|
  {
    if turns != [] && s.stop != Holds(Kill) {
      var n := Next(s, turns[0]);
      NextKeeps(s, turns[0]);
      if KillSide(n) {
        KillSideStep(s, turns[0]);
      }
      KillSideRun(n, turns[1..]);
    }
  }

  /** SIGKILL is sent, and the status 137 chosen, only after the stop file held `kill`. */
  lemma KillOnlyOnKill(s: State, turns: seq<Turn>)
    requires Initial(s)
    ensures var t := Run(s, turns);
      (exists i :: 0 <= i < |t.sent| && t.sent[i].mode == Kill) || t.wrapper == Done(Killed137) ==> EverHeld(s, turns, Kill)
  {
    if KillSide(Run(s, turns)) {
      KillSideRun(s, turns);
    }
  }

  /** Something was stopped: a signal sent or about to be, or the command not started for a stop. */
  predicate StopSide(s: State) {
    || s.sent != []
    || s.wrapper.ReadStop? || s.wrapper.RemoveStop? || s.wrapper == Done(Killed137) || s.wrapper == Done(Stopped143)
    || !(s.watcher.Off? || s.watcher.AwaitStop? || s.watcher.Gone?)
  }

  lemma StopSideStep(s: State, turn: Turn)
    requires Invariant(s) && StopSide(Next(s, turn))
    ensures StopSide(s) || !s.stop.Absent?
  {
  }

  /** A run in which no stop file ever appeared sends no signal and refuses no start. */
  lemma {:induction false} StopOnlyOnStop(s: State, turns: seq<Turn>)
    requires Invariant(s) && !StopSide(s) && !EverPresent(s, turns)
    ensures !StopSide(Run(s, turns))
    decreases |turns|
  {
    if turns != [] {
      var n := Next(s, turns[0]);
      NextKeeps(s, turns[0]);
      if StopSide(n) {
        StopSideStep(s, turns[0]);
      }
      StopOnlyOnStop(n, turns[1..]);
    }
  }
}
