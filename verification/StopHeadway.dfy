/** That a stop takes effect: over fair rounds of every party's steps, with torn writes and failed
    requests among them, and exactly when it does not. */
module StopHeadway {
  import opened StopProtocol

  datatype Who = TheWrapper | TheWatcher | TheDriver | TheChild | Nobody

  function By(turn: Turn): Who {
    match turn
    case WrapperTurn(_, _) => TheWrapper
    case WatcherTurn => TheWatcher
    case DriverTurn(_) => TheDriver
    case ChildTurn(_) => TheChild
    case TearTurn => Nobody
  }

  predicate Takes(turns: seq<Turn>, who: Who)
    decreases |turns|
  {
    turns != [] && (By(turns[0]) == who || Takes(turns[1..], who))
  }

  /** Some turns in which the wrapper, the watcher and the driver each have at least one. The
      command need never run, and writes may be torn. */
  predicate Round(turns: seq<Turn>) {
    Takes(turns, TheWrapper) && Takes(turns, TheWatcher) && Takes(turns, TheDriver)
  }

  predicate Whole(turns: seq<Turn>) {
    !Takes(turns, Nobody)
  }

  function WrapperWork(w: Wrapper): nat {
    match w
    case CheckTools => 14
    case ClearPid => 13
    case CheckStop => 12
    case ReadStop => 11
    case RemoveStop(_) => 10
    case SpawnWatcher => 11
    case SpawnChild => 10
    case TruncatePid => 9
    case WritePid => 8
    case WaitChild => 7
    case KillWatcher => 6
    case WaitWatcher => 5
    case CleanStop => 4
    case CleanPid => 3
    case Done(_) => 0
  }

  /** The loop after a TERM makes headway only while the file holds `kill`. */
  function WatcherWork(w: Watcher, stop: StopFile): nat {
    match w
    case Off => 16
    case AwaitStop => 15
    case AwaitPid => 14
    case ReadPid => 13
    case ReadMode(_) => 12
    case SendTerm(_) => 11
    case Nap(_) => 10
    case CheckAlive(_) => if stop == Holds(Kill) then 9 else 10
    case Reread(_) => if stop == Holds(Kill) then 8 else 10
    case FinalCheck(_) => 7
    case SendKill(_) => 6
    case Gone => 0
  }

  function ChildWork(c: Child): nat {
    match c
    case NotStarted => 4
    case Forked(_) => 3
    case Leading(_) => 2
    case Zombie(_) => 1
    case Reaped(_) => 0
  }

  function DriverWork(s: State): nat {
    20 * |s.todo| + (if s.driver.Writing? then 10 else 0)
  }

  /** What is left to do; at most 44 and 20 for each request still to come. */
  function Work(s: State): (n: nat)
    ensures n <= 44 + 20 * |s.todo|
  {
    WrapperWork(s.wrapper) + WatcherWork(s.watcher, s.stop) + ChildWork(s.child) + DriverWork(s)
  }

  /** Whose turn brings the run nearer to its end. */
  function Helpful(s: State): Who {
    if s.stop.Empty? && (s.driver.Writing? || s.todo != []) && !s.wrapper.CleanPid? then TheDriver
    else match s.wrapper
      case WaitChild => if s.child.Zombie? then TheWrapper else TheWatcher
      case WaitWatcher => if s.watcher.Gone? then TheWrapper else TheWatcher
      case _ => TheWrapper
  }

  /** The stop took effect: the command was never started, has ended, or was signalled. */
  predicate Honoured(s: State) {
    (s.wrapper.Done? && s.child.NotStarted?) || Ended(s.child) || s.sent != []
  }

  /** A torn write left the file empty, nobody is going to write it again, and the watcher waits for
      it to hold something while the command runs. */
  predicate Stuck(s: State) {
    && s.stop.Empty? && s.driver.Idle? && s.todo == []
    && s.wrapper.WaitChild? && s.watcher.AwaitStop? && s.sent == [] && !Ended(s.child)
  }

  /** A kill is in the file or on its way into it, and no later request will overwrite it. */
  predicate KillPending(s: State) {
    && AllKill(s.todo)
    && (s.stop == Holds(Kill) || (s.stop.Empty? && s.driver == Writing(Kill, true)))
  }

  /** Where a stop leads: `Term`, that it takes effect or is lost for good; `Kill`, that the whole
      exec ends. */
  predicate Reached(s: State, goal: Mode) {
    if goal == Term then Honoured(s) || Stuck(s) else s.wrapper.Done?
  }

  /** The stop file holds a request, or one is being written into it. */
  predicate Written(s: State) {
    s.stop.Holds? || (s.stop.Empty? && s.driver.Writing? && s.driver.linked)
  }

  predicate Pending(s: State, goal: Mode) {
    if goal == Term then !s.stop.Absent? else KillPending(s) || (s.wrapper.CleanPid? && AllKill(s.todo))
  }

  /** What one turn does to a pending stop. */
  predicate Headway(s: State, t: State, goal: Mode, helped: bool) {
    Reached(t, goal) ||
    (Pending(t, goal) && Work(t) <= Work(s) && (helped ==> Work(t) < Work(s)) && (Work(t) == Work(s) ==> Helpful(t) == Helpful(s)))
  }

  lemma WrapperHeadway(s: State, pid: nat, tools: bool, goal: Mode)
    requires Invariant(s) && Pending(s, goal) && !Reached(s, goal)
    ensures Headway(s, WrapperStep(s, pid, tools), goal, Helpful(s) == TheWrapper)
  {
    if Before(s.wrapper) {
      WrapperHeadwayBefore(s, pid, tools, goal);
    } else if After(s.wrapper) {
      WrapperHeadwayAfter(s, pid, tools, goal);
    } else {
      WrapperHeadwayDuring(s, pid, tools, goal);
    }
  }

  lemma WrapperHeadwayBefore(s: State, pid: nat, tools: bool, goal: Mode)
    requires Invariant(s) && Pending(s, goal) && !Reached(s, goal) && Before(s.wrapper)
    ensures Headway(s, WrapperStep(s, pid, tools), goal, Helpful(s) == TheWrapper)
  {
  }

  lemma WrapperHeadwayDuring(s: State, pid: nat, tools: bool, goal: Mode)
    requires Invariant(s) && Pending(s, goal) && !Reached(s, goal) && !Before(s.wrapper) && !After(s.wrapper)
    ensures Headway(s, WrapperStep(s, pid, tools), goal, Helpful(s) == TheWrapper)
  {
  }

  lemma WrapperHeadwayAfter(s: State, pid: nat, tools: bool, goal: Mode)
    requires Invariant(s) && Pending(s, goal) && !Reached(s, goal) && After(s.wrapper)
    ensures Headway(s, WrapperStep(s, pid, tools), goal, Helpful(s) == TheWrapper)
  {
  }

  lemma WatcherHeadway(s: State, goal: Mode)
    requires Invariant(s) && Pending(s, goal) && !Reached(s, goal)
    ensures Headway(s, WatcherStep(s), goal, Helpful(s) == TheWatcher)
  {
    if Polling(s.watcher) {
      PollingHeadway(s, goal);
    } else {
      ActingHeadway(s, goal);
    }
  }

  /** Not started, or waiting for a file. */
  predicate Polling(w: Watcher) {
    w.Off? || w.AwaitStop? || w.AwaitPid? || w.ReadPid? || w.ReadMode?
  }

  lemma PollingHeadway(s: State, goal: Mode)
    requires Invariant(s) && Pending(s, goal) && !Reached(s, goal) && Polling(s.watcher)
    ensures Headway(s, WatcherStep(s), goal, Helpful(s) == TheWatcher)
  {
  }

  lemma ActingHeadway(s: State, goal: Mode)
    requires Invariant(s) && Pending(s, goal) && !Reached(s, goal) && !Polling(s.watcher)
    ensures Headway(s, WatcherStep(s), goal, Helpful(s) == TheWatcher)
  {
    if Signalling(s.watcher) {
      SignalHeadway(s, goal);
    } else {
      LoopHeadway(s, goal);
    }
  }

  predicate Signalling(w: Watcher) {
    w.SendTerm? || w.SendKill?
  }

  lemma SignalHeadway(s: State, goal: Mode)
    requires Invariant(s) && Pending(s, goal) && !Reached(s, goal) && Signalling(s.watcher)
    ensures Headway(s, WatcherStep(s), goal, Helpful(s) == TheWatcher)
  {
  }

  lemma LoopHeadway(s: State, goal: Mode)
    requires Invariant(s) && Pending(s, goal) && !Reached(s, goal) && !Polling(s.watcher) && !Signalling(s.watcher)
    ensures Headway(s, WatcherStep(s), goal, Helpful(s) == TheWatcher)
  {
  }

  lemma DriverHeadway(s: State, fails: bool, goal: Mode)
    requires Invariant(s) && Pending(s, goal) && !Reached(s, goal)
    ensures Headway(s, DriverStep(s, fails), goal, Helpful(s) == TheDriver)
  {
  }

  lemma ChildHeadway(s: State, exits: bool, goal: Mode)
    requires Invariant(s) && Pending(s, goal) && !Reached(s, goal)
    ensures Headway(s, ChildStep(s, exits), goal, false)
  {
  }

  lemma NextHeadway(s: State, turn: Turn, goal: Mode)
    requires Invariant(s) && Pending(s, goal) && !Reached(s, goal) && (goal == Kill ==> !turn.TearTurn?)
    ensures Headway(s, Next(s, turn), goal, Helpful(s) == By(turn))
  {
    match turn
    case WrapperTurn(pid, tools) => WrapperHeadway(s, pid, tools, goal);
    case WatcherTurn => WatcherHeadway(s, goal);
    case DriverTurn(fails) => DriverHeadway(s, fails, goal);
    case ChildTurn(exits) =>
      ChildHeadway(s, exits, goal);
      assert Helpful(s) != TheChild;
    case TearTurn =>
      TearHeadway(s);
      assert Helpful(s) != Nobody;
  }

  lemma TearHeadway(s: State)
    requires Invariant(s) && Pending(s, Term) && !Reached(s, Term)
    ensures Headway(s, TearStep(s), Term, false)
  {
  }

  lemma ReachedStays(s: State, turn: Turn, goal: Mode)
    requires Invariant(s) && Reached(s, goal)
    ensures Reached(Next(s, turn), goal)
  {
  }

  lemma {:induction false} ReachedStaysRun(s: State, turns: seq<Turn>, goal: Mode)
    requires Invariant(s) && Reached(s, goal)
    ensures Reached(Run(s, turns), goal)
    decreases |turns|
  {
    if turns != [] {
      NextKeeps(s, turns[0]);
      ReachedStays(s, turns[0], goal);
      ReachedStaysRun(Next(s, turns[0]), turns[1..], goal);
    }
  }

  lemma {:induction false} RunHeadway(s: State, turns: seq<Turn>, goal: Mode)
    requires Invariant(s) && Pending(s, goal) && !Reached(s, goal) && (goal == Kill ==> Whole(turns))
    ensures Headway(s, Run(s, turns), goal, Takes(turns, Helpful(s)))
    decreases |turns|
  {
    if turns != [] {
      var n := Next(s, turns[0]);
      NextKeeps(s, turns[0]);
      NextHeadway(s, turns[0], goal);
      if Reached(n, goal) {
        ReachedStaysRun(n, turns[1..], goal);
      } else {
        RunHeadway(n, turns[1..], goal);
      }
    }
  }

  function RunRounds(s: State, rounds: seq<seq<Turn>>): State
    decreases |rounds|
  {
    if rounds == [] then s else RunRounds(Run(s, rounds[0]), rounds[1..])
  }

  lemma {:induction false} RoundsStay(s: State, rounds: seq<seq<Turn>>, goal: Mode)
    requires Invariant(s) && Reached(s, goal)
    ensures Reached(RunRounds(s, rounds), goal)
    decreases |rounds|
  {
    if rounds != [] {
      RunKeeps(s, rounds[0]);
      ReachedStaysRun(s, rounds[0], goal);
      RoundsStay(Run(s, rounds[0]), rounds[1..], goal);
    }
  }

  lemma {:induction false} RoundsReach(s: State, rounds: seq<seq<Turn>>, goal: Mode)
    requires Invariant(s) && (Pending(s, goal) || Reached(s, goal))
    requires forall i :: 0 <= i < |rounds| ==> Round(rounds[i]) && (goal == Kill ==> Whole(rounds[i]))
    requires |rounds| > Work(s)
    ensures Reached(RunRounds(s, rounds), goal)
    decreases |rounds|
  {
    if Reached(s, goal) {
      RoundsStay(s, rounds, goal);
    } else {
      var n := Run(s, rounds[0]);
      RunKeeps(s, rounds[0]);
      RunHeadway(s, rounds[0], goal);
      if Reached(n, goal) {
        RoundsStay(n, rounds[1..], goal);
      } else {
        RoundsReach(n, rounds[1..], goal);
      }
    }
  }

  /** Once a stop file has appeared, before the wrapper exits, a bounded number of rounds in any
      order of steps, torn writes and failed requests included, decides it: the command was never
      started, has ended, or has been signalled, unless the last write was torn while the watcher
      still waited, and in no other case. */
  lemma StopIsHonoured(s: State, turns: seq<Turn>, rounds: seq<seq<Turn>>)
    requires Initial(s) && !Run(s, turns).stop.Absent? && !Run(s, turns).wrapper.Done?
    requires forall i :: 0 <= i < |rounds| ==> Round(rounds[i])
    requires |rounds| > 44 + 20 * |Run(s, turns).todo|
    ensures var t := RunRounds(Run(s, turns), rounds); Honoured(t) <==> !Stuck(t)
  {
    RunKeeps(s, turns);
    RoundsReach(Run(s, turns), rounds, Term);
  }

  lemma WrittenStays(s: State, turn: Turn)
    requires Invariant(s) && (Written(s) || Honoured(s)) && !turn.TearTurn?
    ensures Written(Next(s, turn)) || Honoured(Next(s, turn))
  {
  }

  lemma {:induction false} WrittenStaysRun(s: State, turns: seq<Turn>)
    requires Invariant(s) && (Written(s) || Honoured(s)) && Whole(turns)
    ensures Written(Run(s, turns)) || Honoured(Run(s, turns))
    decreases |turns|
  {
    if turns != [] {
      NextKeeps(s, turns[0]);
      WrittenStays(s, turns[0]);
      WrittenStaysRun(Next(s, turns[0]), turns[1..]);
    }
  }

  lemma {:induction false} WrittenStaysRounds(s: State, rounds: seq<seq<Turn>>)
    requires Invariant(s) && (Written(s) || Honoured(s))
    requires forall i :: 0 <= i < |rounds| ==> Whole(rounds[i])
    ensures Written(RunRounds(s, rounds)) || Honoured(RunRounds(s, rounds))
    decreases |rounds|
  {
    if rounds != [] {
      RunKeeps(s, rounds[0]);
      WrittenStaysRun(s, rounds[0]);
      WrittenStaysRounds(Run(s, rounds[0]), rounds[1..]);
    }
  }

  /** A stop in its file, or on its way into it, always takes effect if no later write is torn. */
  lemma WholeStopIsHonoured(s: State, turns: seq<Turn>, rounds: seq<seq<Turn>>)
    requires Initial(s) && Written(Run(s, turns)) && !Run(s, turns).wrapper.Done?
    requires forall i :: 0 <= i < |rounds| ==> Round(rounds[i]) && Whole(rounds[i])
    requires |rounds| > 44 + 20 * |Run(s, turns).todo|
    ensures Honoured(RunRounds(Run(s, turns), rounds))
  {
    StopIsHonoured(s, turns, rounds);
    RunKeeps(s, turns);
    WrittenStaysRounds(Run(s, turns), rounds);
  }

  /** The file is empty or gone, nobody is going to write it again, and the watcher waits for it to
      hold something. */
  predicate Torn(s: State) {
    && (s.stop.Empty? || s.stop.Absent?) && s.driver.Idle? && s.todo == [] && s.sent == []
    && (s.watcher.AwaitStop? || s.watcher.Gone?) && !Before(s.wrapper)
  }

  lemma TornStep(s: State, turn: Turn)
    requires Torn(s)
    ensures Torn(Next(s, turn))
  {
  }

  /** A torn write, even of a second request over a first that was whole, is never acted on: no run
      signals the command. */
  lemma {:induction false} TornStopIsLost(s: State, turns: seq<Turn>)
    requires Torn(s)
    ensures Torn(Run(s, turns)) && Run(s, turns).sent == []
    decreases |turns|
  {
    if turns != [] {
      TornStep(s, turns[0]);
      TornStopIsLost(Next(s, turns[0]), turns[1..]);
    }
  }

  lemma RunCons(s: State, turn: Turn, rest: seq<Turn>, turns: seq<Turn>)
    requires turns == [turn] + rest
    ensures Run(s, turns) == Run(Next(s, turn), rest)
  {
    assert turns[1..] == rest;
  }

  /** The wrapper's first `n` turns, and then the rest. */
  function Opening(n: nat, pid: nat, rest: seq<Turn>): seq<Turn> {
    if n == 0 then rest else [WrapperTurn(pid, true)] + Opening(n - 1, pid, rest)
  }

  function Steps(s: State, n: nat, pid: nat): State
    decreases n
  {
    if n == 0 then s else Steps(WrapperStep(s, pid, true), n - 1, pid)
  }

  lemma {:induction false} OpeningRuns(s: State, n: nat, pid: nat, rest: seq<Turn>)
    ensures Run(s, Opening(n, pid, rest)) == Run(Steps(s, n, pid), rest)
    decreases n
  {
    if n > 0 {
      RunCons(s, WrapperTurn(pid, true), Opening(n - 1, pid, rest), Opening(n, pid, rest));
      OpeningRuns(WrapperStep(s, pid, true), n - 1, pid, rest);
    }
  }

  /** Seven turns of the wrapper alone start the command. */
  lemma StartsUp(s: State, pid: nat)
    requires Initial(s)
    ensures Steps(s, 7, pid) == s.(wrapper := WaitChild, watcher := AwaitStop, child := Forked(pid), pidFile := Pid(pid))
  {
    var a := s.(wrapper := ClearPid);
    var b := a.(wrapper := CheckStop, pidFile := NoPid);
    var c := b.(wrapper := SpawnWatcher);
    var d := c.(wrapper := SpawnChild, watcher := AwaitStop);
    var e := d.(wrapper := TruncatePid, child := Forked(pid));
    var f := e.(wrapper := WritePid, pidFile := EmptyPid);
    var g := f.(wrapper := WaitChild, pidFile := Pid(pid));
    assert Steps(s, 7, pid) == Steps(a, 6, pid) == Steps(b, 5, pid) == Steps(c, 4, pid);
    assert Steps(c, 4, pid) == Steps(d, 3, pid) == Steps(e, 2, pid) == Steps(f, 1, pid) == Steps(g, 0, pid);
  }

  /** The lost stop is real: the command starts, a term is written whole, and a kill truncates it and
      then fails before the watcher looked. Nothing is pending any more, and nothing was done. */
  lemma SecondRequestTearsFirst(s: State, pid: nat)
    requires Initial(s) && s.todo == [Term, Kill]
    ensures Written(Run(s, Opening(7, pid, [DriverTurn(false), DriverTurn(false)])))
    ensures Stuck(Run(s, Opening(7, pid, [DriverTurn(false), DriverTurn(false), DriverTurn(false), TearTurn])))
  {
    var d, t := DriverTurn(false), TearTurn;
    OpeningRuns(s, 7, pid, [d, d]);
    OpeningRuns(s, 7, pid, [d, d, d, t]);
    StartsUp(s, pid);
    var up := Steps(s, 7, pid);
    var a := Next(up, d);
    var b := Next(a, d);
    assert b == up.(stop := Holds(Term), todo := [Kill]);
    RunCons(up, d, [d], [d, d]);
    RunCons(a, d, [], [d]);
    RunCons(up, d, [d, d, t], [d, d, d, t]);
    RunCons(a, d, [d, t], [d, d, t]);
    RunCons(b, d, [t], [d, t]);
    RunCons(Next(b, d), t, [], [t]);
    assert Next(b, d) == b.(stop := Empty, driver := Writing(Kill, true), todo := []);
  }

  /** A kill, whether first or after a TERM that the command ignored, ends the exec within a
      bounded number of rounds: the command was never started or is dead and waited for, the
      watcher is gone and the pid file removed. */
  lemma KillLands(s: State, turns: seq<Turn>, rounds: seq<seq<Turn>>)
    requires Initial(s) && KillPending(Run(s, turns))
    requires forall i :: 0 <= i < |rounds| ==> Round(rounds[i]) && Whole(rounds[i])
    requires |rounds| > 44 + 20 * |Run(s, turns).todo|
    ensures var t := RunRounds(Run(s, turns), rounds);
      t.wrapper.Done? && (t.watcher.Off? || t.watcher.Gone?) && (t.child.NotStarted? || (t.child.Reaped? && t.pidFile.NoPid?))
  {
    RunKeeps(s, turns);
    RoundsReach(Run(s, turns), rounds, Kill);
    RoundsKeep(Run(s, turns), rounds);
  }

  /** Under the escalation that a handle's `terminate` performs, a kill in the stop file always
      ends the exec, within 85 rounds. */
  lemma EscalationEnds(s: State, turns: seq<Turn>, rounds: seq<seq<Turn>>)
    requires Initial(s) && s.todo == [Term, Kill] && Run(s, turns).stop == Holds(Kill)
    requires forall i :: 0 <= i < |rounds| ==> Round(rounds[i]) && Whole(rounds[i])
    requires |rounds| > 84
    ensures RunRounds(Run(s, turns), rounds).wrapper.Done?
  {
    EscalatingRun(s, turns);
    KillLands(s, turns, rounds);
  }

  lemma {:induction false} RoundsKeep(s: State, rounds: seq<seq<Turn>>)
    requires Invariant(s)
    ensures Invariant(RunRounds(s, rounds))
    decreases |rounds|
  {
    if rounds != [] {
      RunKeeps(s, rounds[0]);
      RoundsKeep(Run(s, rounds[0]), rounds[1..]);
    }
  }
}
