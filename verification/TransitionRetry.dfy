/** Lifecycle calls driven through transitions that other parties have under way, on one time
    budget. The server's answers, the states it shows and the time everything takes are free. */
module TransitionRetry {

  datatype State =
    | Creating | Starting | Running | Stopping | Stopped | Pausing | Paused | Resuming | Archiving | Archived
    | Restoring | Resizing | Forking | Snapshotting | Deleting | Deleted | Error | Unknown

  predicate Stable(state: State) {
    state in {Running, Stopped, Paused, Archived, Deleted, Error}
  }

  datatype Operation = StartSandbox | StopSandbox | DeleteSandbox

  /** The states in which there is nothing left to ask for. */
  predicate Settled(op: Operation, state: State) {
    match op
    case StartSandbox => state == Running
    case StopSandbox => state in {Stopped, Archived, Deleted}
    case DeleteSandbox => state in {Deleting, Deleted}
  }

  datatype Answer = Accepted | InProgress | NotFound | Rejected | NoAnswer

  datatype Sight = Seen(state: State) | Missing | Unreadable

  /** A call with its answer, a state observed, a look that failed, or a pause. */
  datatype Event = Called(answer: Answer) | Observed(state: State) | Unread | Slept

  /** How an operation ended; `Continue` is not an end but a repeat. */
  datatype Outcome = Success | TimedOut | Failed | Continue

  const Budget: nat := 120000
  const Pause: nat := 1000

  /** Stopping or deleting a sandbox that is not there has succeeded. */
  predicate Achieved(op: Operation, answer: Answer) {
    answer == Accepted || (answer == NotFound && op != StartSandbox)
  }

  // ------------------------------------------------------- what a log of events may look like

  /** Every call but the last was turned away because of a transition. */
  ghost predicate CallsTurnedAway(log: seq<Event>) {
    forall i :: 0 <= i < |log| - 1 && log[i].Called? ==> log[i].answer == InProgress
  }

  /** Every call but the first follows a pause, and that pause the sight of a stable state that
      did not settle the matter. */
  ghost predicate CallsEarned(op: Operation, log: seq<Event>) {
    forall i :: 0 < i < |log| && log[i].Called? ==>
      i >= 2 && log[i - 1].Slept? && log[i - 2].Observed? && Stable(log[i - 2].state) && !Settled(op, log[i - 2].state)
  }

  function Sleeps(log: seq<Event>): (n: nat)
    ensures n <= |log|
  {
    if log == [] then 0 else Sleeps(log[..|log| - 1]) + (if log[|log| - 1].Slept? then 1 else 0)
  }

  function Calls(log: seq<Event>): (n: nat)
    ensures n <= |log|
  {
    if log == [] then 0 else Calls(log[..|log| - 1]) + (if log[|log| - 1].Called? then 1 else 0)
  }

  function Observations(log: seq<Event>): (n: nat)
    ensures n <= |log|
  {
    if log == [] then 0 else Observations(log[..|log| - 1]) + (if log[|log| - 1].Observed? then 1 else 0)
  }

  lemma CountOne(log: seq<Event>, e: Event)
    ensures Sleeps(log + [e]) == Sleeps(log) + if e.Slept? then 1 else 0
    ensures Calls(log + [e]) == Calls(log) + if e.Called? then 1 else 0
    ensures Observations(log + [e]) == Observations(log) + if e.Observed? then 1 else 0
  {
    assert (log + [e])[..|log + [e]| - 1] == log;
  }

  ghost predicate Fair(op: Operation, log: seq<Event>) {
    CallsTurnedAway(log) && CallsEarned(op, log)
  }

  lemma FairNext(op: Operation, log: seq<Event>, e: Event)
    requires Fair(op, log) && (log != [] && log[|log| - 1].Called? ==> log[|log| - 1].answer == InProgress)
    requires e.Called? && log != [] ==>
      |log| >= 2 && log[|log| - 1].Slept? && log[|log| - 2].Observed? && Stable(log[|log| - 2].state) && !Settled(op, log[|log| - 2].state)
    ensures Fair(op, log + [e])
  {
  }

  // ------------------------------------------------------- the loops

  class Server {
    const answers: nat -> Answer
    const sights: nat -> Sight
    /** How long the n-th thing takes beyond what it must. */
    const delays: nat -> nat
    var now: nat
    var log: seq<Event>

    constructor (answers: nat -> Answer, sights: nat -> Sight, delays: nat -> nat, now: nat)
      ensures log == [] && this.now == now
    {
      this.answers, this.sights, this.delays, this.now, this.log := answers, sights, delays, now, [];
    }

    method Call() returns (answer: Answer)
      modifies this
      ensures log == old(log) + [Called(answer)] && now >= old(now) && answer == answers(old(|log|))
    {
      answer := answers(|log|);
      now := now + delays(|log|);
      log := log + [Called(answer)];
    }

    /** A sandbox that has disappeared counts as deleted. */
    method Get() returns (sight: Sight)
      modifies this
      ensures now >= old(now) && sight == sights(old(|log|))
      ensures sight.Seen? ==> log == old(log) + [Observed(sight.state)]
      ensures sight.Missing? ==> log == old(log) + [Observed(Deleted)]
      ensures sight.Unreadable? ==> log == old(log) + [Unread]
    {
      sight := sights(|log|);
      now := now + delays(|log|);
      log := log + [match sight case Seen(state) => Observed(state) case Missing => Observed(Deleted) case Unreadable => Unread];
    }

    method Sleep()
      modifies this
      ensures log == old(log) + [Slept] && now >= old(now) + Pause
    {
      now := now + Pause + delays(|log|);
      log := log + [Slept];
    }
  }

  /** What the pauses of a log took, and that all of them began within the budget. */
  ghost predicate Paced(log: seq<Event>, started: nat, now: nat) {
    && started + Pause * Sleeps(log) <= now
    && Pause * Sleeps(log) <= Budget
  }

  lemma PacedSleep(log: seq<Event>, started: nat, now: nat, later: nat)
    requires Paced(log, started, now) && now < started + Budget && later >= now + Pause
    ensures Paced(log + [Slept], started, later)
  {
    CountOne(log, Slept);
  }

  lemma PacedOther(log: seq<Event>, started: nat, now: nat, later: nat, e: Event)
    requires Paced(log, started, now) && !e.Slept? && later >= now
    ensures Paced(log + [e], started, later)
  {
    CountOne(log, e);
  }

  /** Calls and observations outnumber the pauses by at most one. */
  ghost predicate Sparse(log: seq<Event>, calls: nat, seen: nat) {
    Calls(log) <= Sleeps(log) + calls && Observations(log) <= Sleeps(log) + seen
  }

  lemma SparseNext(log: seq<Event>, e: Event, calls: nat, seen: nat)
    requires Sparse(log, calls, seen)
    ensures e.Slept? && calls > 0 ==> Sparse(log + [e], calls - 1, seen)
    ensures e.Slept? && seen > 0 ==> Sparse(log + [e], calls, seen - 1)
    ensures e.Slept? && seen > 0 && calls > 0 ==> Sparse(log + [e], calls - 1, seen - 1)
    ensures e.Called? ==> Sparse(log + [e], calls + 1, seen)
    ensures e.Observed? ==> Sparse(log + [e], calls, seen + 1)
    ensures e.Unread? ==> Sparse(log + [e], calls, seen)
  {
    CountOne(log, e);
  }

  /** The log ends with a state that is stable and does not settle the operation. */
  ghost predicate EndsStable(op: Operation, log: seq<Event>) {
    log != [] && log[|log| - 1].Observed? && Stable(log[|log| - 1].state) && !Settled(op, log[|log| - 1].state)
  }

  /** Observes until the operation is settled or the state is stable. */
  method WaitForState(server: Server, op: Operation, started: nat) returns (r: Outcome, state: State)
    requires Fair(op, server.log) && Paced(server.log, started, server.now) && Sparse(server.log, 1, 0)
    requires server.log != [] && server.log[|server.log| - 1] == Called(InProgress)
    modifies server
    ensures Fair(op, server.log) && Paced(server.log, started, server.now) && Sparse(server.log, 1, 1)
    ensures r == Success ==> server.log != [] && server.log[|server.log| - 1] == Observed(state) && (Settled(op, state) || Stable(state))
    ensures r == TimedOut ==> server.now >= started + Budget && server.log != [] && server.log[|server.log| - 1] == Observed(state) && !Settled(op, state)
    ensures r == Failed ==> server.log != [] && server.log[|server.log| - 1] == Unread
    ensures server.now >= old(server.now) && r != Continue
  {
    state := Unknown;
    while true
      invariant server.now >= old(server.now)
      invariant Fair(op, server.log) && Paced(server.log, started, server.now) && Sparse(server.log, 1, 0)
      invariant server.log != [] && (server.log[|server.log| - 1].Called? ==> server.log[|server.log| - 1].answer == InProgress)
      decreases if server.now < started + Budget then started + Budget - server.now else 0
    {
      r, state := Look(server, op, started);
      if r != Continue {
        return;
      }
      if server.now >= started + Budget {
        r := TimedOut;
        return;
      }
      ghost var log, now := server.log, server.now;
      server.Sleep();
      FairNext(op, log, Slept);
      PacedSleep(log, started, now, server.now);
      SparseNext(log, Slept, 1, 1);
    }
  }

  /** One look; `Continue` when the state neither settles the operation nor is stable. */
  method Look(server: Server, op: Operation, started: nat) returns (r: Outcome, state: State)
    requires Fair(op, server.log) && Paced(server.log, started, server.now) && Sparse(server.log, 1, 0)
    requires server.log != [] && (server.log[|server.log| - 1].Called? ==> server.log[|server.log| - 1].answer == InProgress)
    modifies server
    ensures Fair(op, server.log) && Paced(server.log, started, server.now) && Sparse(server.log, 1, 1)
    ensures server.log != [] && server.log[|server.log| - 1] == if r == Failed then Unread else Observed(state)
    ensures match r
      case Success => Settled(op, state) || Stable(state)
      case Continue => !Settled(op, state) && !Stable(state)
      case _ => r == Failed
    ensures server.now >= old(server.now)
  {
    ghost var log, now := server.log, server.now;
    var sight := server.Get();
    var e := match sight case Seen(s) => Observed(s) case Missing => Observed(Deleted) case Unreadable => Unread;
    FairNext(op, log, e);
    PacedOther(log, started, now, server.now, e);
    SparseNext(log, e, 1, 0);
    if sight.Unreadable? {
      return Failed, Unknown;
    }
    state := e.state;
    r := if Settled(op, state) || Stable(state) then Success else Continue;
  }

  /** The budget check between two calls, with a pause. */
  method RetryPause(server: Server, op: Operation, started: nat) returns (r: Outcome)
    requires Fair(op, server.log) && Paced(server.log, started, server.now) && Sparse(server.log, 1, 1) && EndsStable(op, server.log)
    modifies server
    ensures Fair(op, server.log) && Paced(server.log, started, server.now)
    ensures r == Success ==> server.now >= old(server.now) + Pause && old(server.now) < started + Budget && Sparse(server.log, 0, 0)
    ensures r == Success ==> server.log == old(server.log) + [Slept]
    ensures r != Success ==> r == TimedOut && server.now >= started + Budget && server.log == old(server.log)
  {
    if server.now >= started + Budget {
      return TimedOut;
    }
    ghost var log, now := server.log, server.now;
    server.Sleep();
    FairNext(op, log, Slept);
    PacedSleep(log, started, now, server.now);
    SparseNext(log, Slept, 1, 1);
    r := Success;
  }

  /** Whether the log justifies a success: an accepted call, or a state that settles it. */
  ghost predicate Justified(op: Operation, log: seq<Event>) {
    log != [] && match log[|log| - 1]
      case Called(answer) => Achieved(op, answer)
      case Observed(state) => Settled(op, state)
      case _ => false
  }

  /** Whether the log justifies a failure: a call denied, or a look that failed. */
  ghost predicate Denied(op: Operation, log: seq<Event>) {
    log != [] && match log[|log| - 1]
      case Called(answer) => answer == Rejected || (answer == NotFound && op == StartSandbox)
      case Unread => true
      case _ => false
  }

  ghost predicate MayCall(op: Operation, log: seq<Event>) {
    log == [] || (|log| >= 2 && log[|log| - 1].Slept? && EndsStable(op, log[..|log| - 1]))
  }

  lemma FairCall(op: Operation, log: seq<Event>, answer: Answer)
    requires Fair(op, log) && MayCall(op, log)
    ensures Fair(op, log + [Called(answer)])
  {
    assert log != [] ==> log[..|log| - 1][|log| - 2] == log[|log| - 2];
    FairNext(op, log, Called(answer));
  }

  /** The log is in order and a call may be made, first or again. */
  ghost predicate Ready(op: Operation, log: seq<Event>, started: nat, now: nat) {
    Fair(op, log) && Paced(log, started, now) && Sparse(log, 0, 0) && MayCall(op, log)
  }

  /** Why a run ended. */
  ghost predicate Explained(op: Operation, log: seq<Event>, started: nat, now: nat, r: Outcome) {
    && Fair(op, log)
    && Calls(log) <= Budget / Pause + 1 && Observations(log) <= Budget / Pause + 1
    && (r == Success <==> Justified(op, log))
    && (r == Failed <==> Denied(op, log))
    && (r == TimedOut ==> now >= started + Budget || (log != [] && log[|log| - 1] == Called(NoAnswer)))
  }

  lemma Bounded(log: seq<Event>, started: nat, now: nat)
    requires Paced(log, started, now) && Sparse(log, 1, 1)
    ensures Calls(log) <= Budget / Pause + 1 && Observations(log) <= Budget / Pause + 1
  {
  }

  lemma AnswerExplains(op: Operation, log: seq<Event>, answer: Answer, started: nat, now: nat)
    requires Fair(op, log + [Called(answer)]) && answer != InProgress
    requires Calls(log + [Called(answer)]) <= Budget / Pause + 1 && Observations(log + [Called(answer)]) <= Budget / Pause + 1
    ensures Explained(op, log + [Called(answer)], started, now,
              if answer == NoAnswer then TimedOut else if Achieved(op, answer) then Success else Failed)
  {
  }

  /** One call, and what has to happen before the next; `Continue` asks for it. */
  method Attempt(server: Server, op: Operation, started: nat) returns (r: Outcome)
    requires Ready(op, server.log, started, server.now)
    modifies server
    ensures r == Continue ==> Ready(op, server.log, started, server.now) && old(server.now) < started + Budget && server.now >= old(server.now) + Pause
    ensures r != Continue ==> Explained(op, server.log, started, server.now, r)
  {
    ghost var log, now := server.log, server.now;
    var answer := server.Call();
    FairCall(op, log, answer);
    PacedOther(log, started, now, server.now, Called(answer));
    SparseNext(log, Called(answer), 0, 0);
    if answer != InProgress {
      Bounded(server.log, started, server.now);
      AnswerExplains(op, log, answer, started, server.now);
      return if answer == NoAnswer then TimedOut else if Achieved(op, answer) then Success else Failed;
    }
    r := AfterRejection(server, op, started);
  }

  method AfterRejection(server: Server, op: Operation, started: nat) returns (r: Outcome)
    requires Fair(op, server.log) && Paced(server.log, started, server.now) && Sparse(server.log, 1, 0)
    requires server.log != [] && server.log[|server.log| - 1] == Called(InProgress)
    modifies server
    ensures r == Continue ==> Ready(op, server.log, started, server.now) && old(server.now) < started + Budget && server.now >= old(server.now) + Pause
    ensures r != Continue ==> Explained(op, server.log, started, server.now, r)
  {
    var state;
    r, state := WaitForState(server, op, started);
    Bounded(server.log, started, server.now);
    if r != Success || Settled(op, state) {
      return;
    }
    ghost var before := server.log;
    r := RetryPause(server, op, started);
    if r == Success {
      r := Continue;
      assert server.log[..|server.log| - 1] == before;
    }
  }

  /** Repeats the call through other parties' transitions, within the budget: success has its
      reason in the log, every repeat was earned, and calls and observations are bounded. */
  method RetryThroughTransition(server: Server, op: Operation) returns (r: Outcome)
    requires server.log == []
    modifies server
    ensures r != Continue && Explained(op, server.log, old(server.now), server.now, r)
  {
    var started := server.now;
    r := Continue;
    while r == Continue
      invariant r == Continue ==> Ready(op, server.log, started, server.now)
      invariant r != Continue ==> Explained(op, server.log, started, server.now, r)
      decreases r == Continue, if server.now < started + Budget then started + Budget - server.now else 0
    {
      r := Attempt(server, op, started);
    }
  }

  /** What a success that ends with a look has seen: the goal of the operation, and with the goal seen
      there is no other end. */
  lemma GoalSeen(op: Operation, log: seq<Event>, started: nat, now: nat, r: Outcome)
    requires Explained(op, log, started, now, r) && log != [] && log[|log| - 1].Observed?
    ensures var state := log[|log| - 1].state;
      r == Success <==> match op
        case StartSandbox => state == Running
        case StopSandbox => state == Stopped || state == Archived || state == Deleted
        case DeleteSandbox => state == Deleting || state == Deleted
  {
  }

  /** Starting looks first: `current` is what the sandbox is read as, and a running one needs no
      call. */
  method Start(server: Server, current: Sight) returns (r: Outcome)
    requires server.log == []
    modifies server
    ensures r == Success <==> current == Seen(Running) || Justified(StartSandbox, server.log)
    ensures r == Failed <==> !current.Seen? || Denied(StartSandbox, server.log)
    ensures current == Seen(Running) || !current.Seen? ==> server.log == []
    ensures Fair(StartSandbox, server.log) && Calls(server.log) <= Budget / Pause + 1
  {
    if current == Seen(Running) {
      return Success;
    }
    if !current.Seen? {
      return Failed;
    }
    r := RetryThroughTransition(server, StartSandbox);
  }
}
