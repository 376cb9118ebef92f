/** What a stop is answered with: which requests can send a TERM, what a kill that is there before
    the command starts comes to, how an exec without its tools ends, and what is left behind. */
module StopAnswers {
  import opened Bytes
  import opened StopProtocol
  import opened StopHeadway

  // ------------------------------------------------------- TERM

  predicate Terms(sent: seq<Signal>) {
    exists i :: 0 <= i < |sent| && sent[i].mode == Term
  }

  /** One request at most has been or will be made, a kill, and the watcher has not read anything
      else. */
  predicate OnlyKill(s: State) {
    && (s.todo == [] || (s.todo == [Kill] && s.stop.Absent? && s.driver.Idle?))
    && s.stop != Holds(Term) && (s.driver.Writing? ==> s.driver.mode == Kill)
    && (s.stop.Holds? ==> s.driver.Idle?)
    && !Terms(s.sent)
    && match s.watcher
       case AwaitPid => s.stop == Holds(Kill)
       case ReadPid => s.stop == Holds(Kill)
       case ReadMode(_) => s.stop == Holds(Kill)
       case _ => s.watcher.Off? || s.watcher.AwaitStop? || s.watcher.SendKill? || s.watcher.Gone?
  }

  lemma OnlyKillStep(s: State, turn: Turn)
    requires Invariant(s) && OnlyKill(s)
    ensures OnlyKill(Next(s, turn))
  {
    if turn.WatcherTurn? {
      OnlyKillWatched(s);
    } else if turn.DriverTurn? {
      assert s.todo == [Kill] ==> s.todo[1..] == [];
    }
  }

  lemma OnlyKillWatched(s: State)
    requires Invariant(s) && OnlyKill(s)
    ensures OnlyKill(WatcherStep(s))
  {
    assert s.stop.Holds? ==> s.stop.mode == Kill;
  }

  lemma {:induction false} OnlyKillRun(s: State, turns: seq<Turn>)
    requires Invariant(s) && OnlyKill(s)
    ensures Invariant(Run(s, turns)) && OnlyKill(Run(s, turns))
    decreases |turns|
  {
    if turns != [] {
      NextKeeps(s, turns[0]);
      OnlyKillStep(s, turns[0]);
      OnlyKillRun(Next(s, turns[0]), turns[1..]);
    }
  }

  /** Two turns of the driver make its first request, and three of the watcher bring it to where it
      reads what was asked for. */
  lemma AboutToRead(s: State, pid: nat, rest: seq<Turn>)
    requires Initial(s) && s.todo != []
    ensures var w := WatcherTurn;
      Run(s, Opening(7, pid, [DriverTurn(false), DriverTurn(false), w, w, w] + rest)) == Run(Reading(s, pid), rest)
  {
    var d, w := DriverTurn(false), WatcherTurn;
    var all := [d, d, w, w, w] + rest;
    OpeningRuns(s, 7, pid, all);
    StartsUp(s, pid);
    var a := Steps(s, 7, pid);
    var b := a.(stop := Empty, driver := Writing(s.todo[0], true), todo := s.todo[1..]);
    RunCons(a, d, [d, w, w, w] + rest, all);
    RunCons(b, d, [w, w, w] + rest, [d, w, w, w] + rest);
    WatcherReads(b.(stop := Holds(s.todo[0]), driver := Idle), pid, rest);
  }

  lemma WatcherReads(s: State, pid: nat, rest: seq<Turn>)
    requires s.wrapper.WaitChild? && s.watcher.AwaitStop? && s.stop.Holds? && s.pidFile == Pid(pid)
    ensures Run(s, [WatcherTurn, WatcherTurn, WatcherTurn] + rest) == Run(s.(watcher := ReadMode(pid)), rest)
  {
    var w := WatcherTurn;
    RunCons(s, w, [w, w] + rest, [w, w, w] + rest);
    RunCons(s.(watcher := AwaitPid), w, [w] + rest, [w, w] + rest);
    RunCons(s.(watcher := ReadPid), w, rest, [w] + rest);
  }

  /** The command runs, the first request is in the file, and the watcher is about to read it. */
  function Reading(s: State, pid: nat): State
    requires s.todo != []
  {
    s.(wrapper := WaitChild, watcher := ReadMode(pid), child := Forked(pid), pidFile := Pid(pid), stop := Holds(s.todo[0]),
       driver := Idle, todo := s.todo[1..])
  }

  lemma TermSent(s: State, target: nat)
    requires s.wrapper.WaitChild? && s.watcher == ReadMode(target) && s.stop != Holds(Kill) && s.child == Forked(target)
    ensures Terms(Run(s, [WatcherTurn, WatcherTurn]).sent)
  {
    var w := WatcherTurn;
    RunCons(s, w, [w], [w, w]);
    RunCons(Next(s, w), w, [], [w]);
    var sent := Run(s, [w, w]).sent;
    assert sent == s.sent + [Signal(Term, target)] && sent[|s.sent|].mode == Term;
  }

  /** A term as the first request is answered with TERM; a kill is too, when a second request
      truncates the file after the watcher saw it written and before it read it. */
  lemma TermFollows(s: State, pid: nat) returns (turns: seq<Turn>)
    requires Initial(s) && (|s.todo| > 1 || s.todo == [Term])
    ensures Terms(Run(s, turns).sent)
  {
    var d, w := DriverTurn(false), WatcherTurn;
    var a := Reading(s, pid);
    if s.todo[0] == Term {
      turns := Opening(7, pid, [d, d, w, w, w] + [w, w]);
      AboutToRead(s, pid, [w, w]);
      TermSent(a, pid);
    } else {
      turns := Opening(7, pid, [d, d, w, w, w] + [d, w, w]);
      AboutToRead(s, pid, [d, w, w]);
      RunCons(a, d, [w, w], [d, w, w]);
      TermSent(Next(a, d), pid);
    }
  }

  /** No run ever sends TERM if and only if the driver's only request, if it makes one, is a kill. */
  lemma TermExact(s: State)
    requires Initial(s)
    ensures (forall turns: seq<Turn> :: !Terms(Run(s, turns).sent)) <==> s.todo == [] || s.todo == [Kill]
  {
    if s.todo == [] || s.todo == [Kill] {
      forall turns: seq<Turn> ensures !Terms(Run(s, turns).sent) {
        OnlyKillRun(s, turns);
      }
    } else {
      assert |s.todo| == 1 ==> s.todo == [s.todo[0]] && (s.todo[0] == Term || s.todo[0] == Kill);
      var turns := TermFollows(s, 0);
      assert exists run: seq<Turn> :: Terms(Run(s, run).sent);
    }
  }

  /** A kill alone is answered by SIGKILL alone. */
  lemma KillAlone(s: State, turns: seq<Turn>)
    requires Initial(s) && s.todo == [Kill]
    ensures var t := Run(s, turns); t.sent == [] || (!t.child.NotStarted? && t.sent == [Signal(Kill, t.child.id)])
  {
    OnlyKillRun(s, turns);
    SignalsAreALadder(s, turns);
    var t := Run(s, turns);
    if t.sent != [] {
      assert t.sent[0].mode != Term;
    }
  }

  // ------------------------------------------------------- before the command starts

  /** A kill is in the file, nothing else will be, and the wrapper is about to look or has refused
      to start the command. */
  predicate Refusing(s: State) {
    && s.driver.Idle? && s.todo == [] && NeverStarted(s)
    && ((s.stop == Holds(Kill) && (s.wrapper.CheckStop? || s.wrapper.ReadStop? || s.wrapper == RemoveStop(Killed137)))
        || s.wrapper == Done(Killed137))
  }

  lemma {:induction false} RefusingRun(s: State, turns: seq<Turn>)
    requires Refusing(s)
    ensures Refusing(Run(s, turns))
    decreases |turns|
  {
    if turns != [] {
      RefusingRun(Next(s, turns[0]), turns[1..]);
    }
  }

  lemma {:induction false} RefusingRounds(s: State, rounds: seq<seq<Turn>>)
    requires Refusing(s)
    ensures Refusing(RunRounds(s, rounds))
    decreases |rounds|
  {
    if rounds != [] {
      RefusingRun(s, rounds[0]);
      RefusingRounds(Run(s, rounds[0]), rounds[1..]);
    }
  }

  /** A kill that is whole in the file when the wrapper looks, and is the driver's last request, ends
      the exec with status 137 within a bounded number of rounds, the command never started. */
  lemma KillRefusesStart(s: State, turns: seq<Turn>, rounds: seq<seq<Turn>>)
    requires Initial(s)
    requires var t := Run(s, turns); t.wrapper.CheckStop? && t.stop == Holds(Kill) && t.todo == [] && t.driver.Idle?
    requires forall i :: 0 <= i < |rounds| ==> Round(rounds[i]) && Whole(rounds[i])
    requires |rounds| > 44
    ensures var t := RunRounds(Run(s, turns), rounds); t.wrapper == Done(Killed137) && t.child.NotStarted? && t.sent == []
  {
    RunKeeps(s, turns);
    RefusingRounds(Run(s, turns), rounds);
    KillLands(s, turns, rounds);
  }

  /** What the wrapper's first turn finds of the tools it needs, if it has had one. */
  function Found(turns: seq<Turn>): Option<bool>
    decreases |turns|
  {
    if turns == [] then None
    else if turns[0].WrapperTurn? then Some(turns[0].tools)
    else Found(turns[1..])
  }

  /** Without its tools, and in no other case, an exec ends with status 127; nothing was started. */
  lemma {:induction false} ToolsExact(s: State, turns: seq<Turn>)
    requires Invariant(s) && s.wrapper.CheckTools?
    ensures var t := Run(s, turns);
      t.wrapper == Done(NoTools127) <==> Found(turns) == Some(false)
    decreases |turns|
  {
    if turns != [] {
      var n := Next(s, turns[0]);
      NextKeeps(s, turns[0]);
      if turns[0].WrapperTurn? {
        PastTools(n, turns[1..]);
      } else {
        ToolsExact(n, turns[1..]);
      }
    }
  }

  lemma {:induction false} PastTools(s: State, turns: seq<Turn>)
    requires Invariant(s) && !s.wrapper.CheckTools?
    ensures var t := Run(s, turns); !t.wrapper.CheckTools? && (t.wrapper == Done(NoTools127) <==> s.wrapper == Done(NoTools127))
    decreases |turns|
  {
    if turns != [] {
      NextKeeps(s, turns[0]);
      PastToolsStep(s, turns[0]);
      PastTools(Next(s, turns[0]), turns[1..]);
    }
  }

  lemma PastToolsStep(s: State, turn: Turn)
    requires Invariant(s) && !s.wrapper.CheckTools?
    ensures var t := Next(s, turn); !t.wrapper.CheckTools? && (t.wrapper == Done(NoTools127) <==> s.wrapper == Done(NoTools127))
  {
  }

  // ------------------------------------------------------- what is left

  /** The wrapper has removed the stop file for the last time. */
  predicate Removed(w: Wrapper) {
    w.CleanPid? || w == Done(OfCommand) || w == Done(Killed137) || w == Done(Stopped143)
  }

  /** No request is still to come, and one under way when the stop file was removed does not bring
      it back. */
  predicate Tidy(s: State) {
    s.todo == [] && (Removed(s.wrapper) ==> s.stop.Absent? && !(s.driver.Writing? && s.driver.linked))
  }

  lemma TidyStep(s: State, turn: Turn)
    requires Invariant(s) && Tidy(s)
    ensures Tidy(Next(s, turn))
  {
  }

  /** An exec leaves no control file behind when every request began before the wrapper removed the
      stop file, whether or not it had been written by then. */
  lemma {:induction false} NothingLeft(s: State, turns: seq<Turn>)
    requires Invariant(s) && Tidy(s)
    ensures Invariant(Run(s, turns)) && Tidy(Run(s, turns))
    ensures var t := Run(s, turns);
      t.wrapper.Done? && t.wrapper != Done(NoTools127) ==> t.stop.Absent? && (t.wrapper == Done(OfCommand) ==> t.pidFile.NoPid?)
    decreases |turns|
  {
    if turns != [] {
      NextKeeps(s, turns[0]);
      TidyStep(s, turns[0]);
      NothingLeft(Next(s, turns[0]), turns[1..]);
    }
  }
}
