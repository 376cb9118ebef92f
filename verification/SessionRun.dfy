/** One session-backed command, from its first request to its result. The run owns a session, a
    log-stream task, an input pump and a stdin file; every call may fail, and the caller may drop
    the run at any await. Whatever is awaited is logged with its answer, and everything said about a
    run is said of that log. */
module SessionRun {
  import opened Bytes
  import opened Capture
  import opened LogMerge
  import opened SessionLogs
  import opened SessionEvents

  /** Where a run was dropped. `Joining` is the drain after it has aborted the stream. */
  datatype Step = Starting | Waiting | Stopping | Draining | Joining | Closing | Reporting

  datatype Outcome =
    | Report(termination: Termination, clean: bool, logs: bool, sinkFailed: bool, truncated: bool)
    | Failure
    | Incomplete(terminated: bool)
    | Dropped(step: Step)

  class Run {
    const answers: nat -> Answer
    /** Everything awaited so far, with its answer, and the releases that dropping the run asks for. */
    var log: seq<Event>
    var tally: Tally
    // The handles the run holds.
    var session: bool
    var stdinFile: bool
    var stream: bool
    var input: bool
    // The tasks alive.
    var streamTask: bool
    var inputTask: bool

    /** The log holds the server's answers, and the tally is the log's. */
    predicate Logged() reads this {
      Audit(log, answers) == Some(tally)
    }

    /** What has been awaited so far. */
    function Requests(): (rs: seq<Request>)
      reads this
      ensures |rs| == |log|
    {
      RequestsOf(log)
    }

    /** The run was dropped in the last wait of its log. */
    predicate JustCut() reads this {
      log != [] && answers(|log| - 1) == Cut
    }

    /** Every resource is either held or released, exactly once, and the run goes on. */
    predicate Balanced() reads this {
      && Logged() && tally.cuts == 0
      && tally.created <= 1 && tally.uploads <= 1
      && tally.deletes + (if session then 1 else 0) == tally.created
      && tally.removals + (if stdinFile then 1 else 0) == tally.uploads
      && stream == streamTask && input == inputTask
    }

    /** Nothing is held and everything was released exactly once. */
    predicate Released() reads this {
      && !session && !stdinFile && !streamTask && !inputTask
      && tally.deletes == tally.created && tally.removals == tally.uploads
    }

    /** Dropped while waiting at `step`, before the handles are dropped: a request under way may
        have been made already, and a task whose handle was in use is no longer held. */
    predicate Interrupted(step: Step) reads this {
      && Logged()
      && tally.created <= 1 && tally.uploads <= 1
      && tally.created <= tally.deletes + (if session then 1 else 0) <= 2 * tally.created
      && tally.uploads <= tally.removals + (if stdinFile then 1 else 0) <= 2 * tally.uploads
      && (streamTask ==> stream || step == Draining)
      && (step == Draining ==> streamTask && !stream)
      && (inputTask ==> input && step == Waiting)
      && (step == Waiting || JustCut())
    }

    constructor (answers: nat -> Answer)
      ensures Balanced() && log == [] && !session && !stdinFile && !stream && !input
      ensures this.answers == answers
    {
      this.answers := answers;
      log, tally := [], Nothing;
      session, stdinFile, stream, input, streamTask, inputTask := false, false, false, false, false, false;
    }

    /** Whether the stream closed or a log was fetched is as before. */
    twostate predicate SameOutput() reads this {
      tally.closed == old(tally.closed) && tally.fetched == old(tally.fetched)
    }

    method Await(request: Request) returns (a: Answer)
      requires Logged()
      modifies this`log, this`tally
      ensures Logged() && a == answers(old(|log|)) && Requests() == old(Requests()) + [request]
      ensures tally == Noted(old(tally), Event(request, a))
    {
      a := answers(|log|);
      RequestsSnoc(log, Event(request, a));
      AuditSnoc(log, answers, Event(request, a));
      tally := Noted(tally, Event(request, a));
      log := log + [Event(request, a)];
    }

    /** A request nobody waits for. */
    method Spawn(request: Request)
      requires Logged()
      modifies this`log, this`tally
      ensures Logged() && tally == Noted(old(tally), Event(request, Cut)) && |log| == old(|log|) + 1
    {
      AuditSnoc(log, answers, Event(request, Cut));
      tally := Noted(tally, Event(request, Cut));
      log := log + [Event(request, Cut)];
    }

    // ----------------------------------------------------- the owned parts

    /** One delete request at most: a closed session answers without asking. Only a good answer to
        the request confirms it. */
    method CloseSession() returns (a: Answer)
      requires Balanced()
      modifies this`log, this`tally, this`session
      ensures SameOutput()
      ensures !old(session) ==> a == Good && !session && log == old(log) && tally == old(tally)
      ensures old(session) ==> a == answers(old(|log|)) && tally == Noted(old(tally), Event(DeleteSession, a)) && (session <==> a == Cut)
      ensures old(session) ==> Requests() == old(Requests()) + [DeleteSession]
      ensures a == Cut ==> Interrupted(Closing) || stream || input
      ensures a == Cut ==> Logged() && JustCut()
      ensures a != Cut ==> Balanced()
    {
      if !session {
        return Good;
      }
      a := Await(DeleteSession);
      if a != Cut {
        session := false;
      }
    }

    method CloseStdin() returns (cut: bool)
      requires Balanced()
      modifies this`log, this`tally, this`stdinFile
      ensures tally == old(tally).(removals := tally.removals, cuts := tally.cuts)
      ensures cut ==> Logged() && JustCut() && old(stdinFile) && stdinFile && tally == Noted(old(tally), Event(RemoveFile, Cut))
      ensures !cut ==> Balanced() && !stdinFile && Requests() == Also(old(Requests()), RemoveFile, old(stdinFile))
    {
      if !stdinFile {
        return false;
      }
      var a := Await(RemoveFile);
      cut := a == Cut;
      if !cut {
        stdinFile := false;
      }
    }

    /** Aborts the task before waiting for it, so a drop meanwhile leaves it aborted. */
    method StopInput() returns (cut: bool)
      requires Balanced()
      modifies this`log, this`tally, this`input, this`inputTask
      ensures tally == old(tally).(cuts := tally.cuts) && !input && !inputTask
      ensures !cut ==> Balanced() && Requests() == Also(old(Requests()), InputJoin, old(input))
      ensures cut ==> Interrupted(Stopping)
      ensures !old(input) ==> !cut && log == old(log)
    {
      cut := false;
      if input {
        input, inputTask := false, false;
        var a := Await(InputJoin);
        cut := a == Cut;
      }
    }

    method StopStream() returns (cut: bool)
      requires Balanced()
      modifies this`log, this`tally, this`stream, this`streamTask
      ensures tally == old(tally).(cuts := tally.cuts)
      ensures if cut then Interrupted(Stopping) || input else Balanced() && !stream
      ensures !cut ==> Requests() == Also(old(Requests()), StreamJoin, old(stream))
      ensures cut ==> JustCut() && Logged() && !streamTask
    {
      cut := false;
      if stream {
        stream, streamTask := false, false;
        var a := Await(StreamJoin);
        cut := a == Cut;
      }
    }

    /** Takes the handle and waits for the stream to close by itself; one that is not done within the
        grace is aborted and then awaited. A drop in the first wait drops a bare handle, which does
        not end the task; in the second the task is already aborted. A stream whose sink `failed` ends
        with an error. */
    method Drain(failed: bool) returns (cut: Option<Step>, clean: bool)
      requires Balanced() && !tally.closed && !input
      modifies this`log, this`tally, this`stream, this`streamTask
      ensures tally == old(tally).(closed := tally.closed, cuts := tally.cuts)
      ensures cut.None? ==> Balanced() && !stream && (clean <==> tally.closed && !failed)
      ensures cut.None? && old(stream) ==>
        && Requests() == Also(old(Requests()) + [StreamEnd], StreamJoin, answers(old(|log|)) == Late)
        && (clean <==> answers(old(|log|)) == Good && !failed)
      ensures cut.Some? ==> Interrupted(cut.value) && (cut.value == Draining || cut.value == Joining)
      ensures old(stream) && answers(old(|log|)) == Cut ==> cut == Some(Draining)
      ensures old(stream) && answers(old(|log|)) == Late && answers(old(|log|) + 1) == Cut ==> cut == Some(Joining)
    {
      cut, clean := None, false;
      if !stream {
        return;
      }
      var a := AwaitStream();
      if a == Cut {
        return Some(Draining), false;
      }
      if a == Late {
        var joined := JoinAborted();
        cut := if joined then None else Some(Joining);
      }
      clean := a == Good && !failed;
    }

    /** Takes the handle and waits within the grace. Whatever comes back, the task is over: it has
        ended, or is aborted at once. */
    method AwaitStream() returns (a: Answer)
      requires Balanced() && stream && !tally.closed && !input
      modifies this`log, this`tally, this`stream, this`streamTask
      ensures a == answers(old(|log|)) && Requests() == old(Requests()) + [StreamEnd]
      ensures tally == old(tally).(closed := a == Good, cuts := tally.cuts)
      ensures !stream && (streamTask <==> a == Cut)
      ensures if a == Cut then Interrupted(Draining) else Balanced()
    {
      stream := false;
      a := Await(StreamEnd);
      streamTask := a == Cut;
    }

    /** Waits for a task already aborted. */
    method JoinAborted() returns (joined: bool)
      requires Balanced() && !stream
      modifies this`log, this`tally
      ensures tally == old(tally).(cuts := tally.cuts) && (joined <==> answers(old(|log|)) != Cut)
      ensures Requests() == old(Requests()) + [StreamJoin]
      ensures if joined then Balanced() else JustCut() && Logged()
    {
      var a := Await(StreamJoin);
      joined := a != Cut;
    }

    /** What dropping the handles does: the session and the stdin file are released once more and
        the stream aborted; the input pump is only detached. */
    method Drop(step: Step)
      requires Interrupted(step)
      modifies this
      ensures Logged() && tally.created == old(tally.created) && tally.uploads == old(tally.uploads)
      ensures tally.created <= tally.deletes <= 2 * tally.created && tally.uploads <= tally.removals <= 2 * tally.uploads
      ensures !session && !stdinFile && !stream && !input
      ensures streamTask <==> step == Draining
      ensures inputTask == old(inputTask) && |log| >= old(|log|)
    {
      if stream {
        streamTask := false;
      }
      if session {
        Spawn(DeleteSession);
      }
      if stdinFile {
        Spawn(RemoveFile);
      }
      session, stdinFile, stream, input := false, false, false, false;
    }

    // ----------------------------------------------------- the run

    /** Ends everything the run owns. */
    method Abort() returns (cut: Option<Step>)
      requires Balanced()
      modifies this
      ensures tally.created == old(tally.created) && tally.uploads == old(tally.uploads) && SameOutput()
      ensures cut.None? ==> Balanced() && Released()
      ensures cut.None? ==> Requests() == Aborting(old(Requests()), old(input), old(stream), old(session), old(stdinFile))
      ensures !old(session) ==> tally.confirmed == old(tally.confirmed)
      ensures cut.Some? ==> Interrupted(cut.value) && (cut.value == Stopping || cut.value == Closing)
    {
      var dropped := StopTasks();
      if dropped {
        return Some(Stopping);
      }
      var a := Release();
      cut := if a == Cut then Some(Closing) else None;
    }

    method StopTasks() returns (cut: bool)
      requires Balanced()
      modifies this`log, this`tally, this`input, this`inputTask, this`stream, this`streamTask
      ensures tally == old(tally).(cuts := tally.cuts)
      ensures if cut then Interrupted(Stopping) else Balanced() && !input && !stream
      ensures !cut ==> Requests() == Also(Also(old(Requests()), InputJoin, old(input)), StreamJoin, old(stream))
    {
      cut := StopInput();
      if !cut {
        cut := StopStream();
      }
    }

    /** The session's deletion, whose answer is given back, and the stdin file's. */
    method Release() returns (a: Answer)
      requires Balanced() && !input && !stream
      modifies this`log, this`tally, this`session, this`stdinFile
      ensures SameOutput() && tally.created == old(tally.created) && tally.uploads == old(tally.uploads)
      ensures !old(session) ==> tally.confirmed == old(tally.confirmed) && a != Bad && a != Late
      ensures old(session) && a != Cut ==> tally.confirmed == old(tally.confirmed) + (if a == Good then 1 else 0)
      ensures a == Cut ==> Interrupted(Closing)
      ensures a != Cut ==> Balanced() && Released()
      ensures a != Cut ==> Requests() == Also(Also(old(Requests()), DeleteSession, old(session)), RemoveFile, old(stdinFile))
    {
      a := CloseSession();
      if a == Cut {
        return;
      }
      var cut := CloseStdin();
      if cut {
        a := Cut;
      }
    }

    /** Uploads fixed input, unless it is too big. */
    method Upload(tooBig: bool) returns (a: Answer)
      requires Balanced() && tally.uploads == 0 && !stream && !input
      modifies this`log, this`tally, this`stdinFile
      ensures SameOutput() && tally.created == old(tally.created)
      ensures a == Good <==> !tooBig && answers(old(|log|)) == answers(old(|log|) + 1) == Good
      ensures a == Good ==> Balanced() && stdinFile && Requests() == old(Requests()) + [OpenFiles] + [UploadFile]
      ensures a != Good ==> tally.uploads == 0 && !stdinFile && (if a == Cut then Interrupted(Starting) else Balanced())
    {
      if tooBig {
        return Bad;
      }
      a := Await(OpenFiles);
      if a == Good {
        a := Await(UploadFile);
        stdinFile := a == Good;
      }
    }

    /** A session is held exactly when its creation was answered. */
    method Create() returns (a: Answer)
      requires Balanced() && tally.created == 0 && !stream && !input
      modifies this`log, this`tally, this`session
      ensures SameOutput()
      ensures a == Good <==> answers(old(|log|)) == answers(old(|log|) + 1) == answers(old(|log|) + 2) == Good
      ensures a == Good ==> Balanced() && session && tally.created == 1
      ensures a == Good ==> Requests() == old(Requests()) + [FindToolbox] + [OpenProcess] + [CreateSession]
      ensures a != Good ==> !session && tally.created == 0 && (if a == Cut then Interrupted(Starting) else Balanced())
    {
      a := FindProcess();
      if a == Good {
        a := Await(CreateSession);
        session := a == Good;
      }
    }

    method FindProcess() returns (a: Answer)
      requires Balanced()
      modifies this`log, this`tally
      ensures tally == old(tally).(cuts := tally.cuts)
      ensures a == Good <==> answers(old(|log|)) == answers(old(|log|) + 1) == Good
      ensures a == Good ==> Requests() == old(Requests()) + [FindToolbox] + [OpenProcess]
      ensures if a == Cut then JustCut() && Logged() else Balanced()
    {
      a := Await(FindToolbox);
      if a == Good {
        a := Await(OpenProcess);
      }
    }

    /** Creates the session and starts the command in it; a session whose command does not start
        is closed at once. */
    method Launch() returns (a: Answer)
      requires Balanced() && tally.created == 0 && !stream && !input
      modifies this`log, this`tally, this`session
      ensures SameOutput()
      ensures a == Good
        <==> answers(old(|log|)) == answers(old(|log|) + 1) == answers(old(|log|) + 2) == answers(old(|log|) + 3) == Good
      ensures a == Good ==> Balanced() && session
      ensures a == Good ==> Requests() == old(Requests()) + [FindToolbox] + [OpenProcess] + [CreateSession] + [StartCommand]
      ensures a != Good && a != Cut ==> Balanced() && !session
      ensures a == Cut ==> Interrupted(Starting)
    {
      a := Create();
      if a != Good {
        return;
      }
      a := Await(StartCommand);
      if a == Bad || a == Late {
        var closed := CloseSession();
        if closed == Cut {
          a := Cut;
        }
      }
    }

    /** `None` when the run is started. */
    method Start(script: Script) returns (ended: Option<Outcome>)
      requires Balanced() && log == [] && !stream && !input
      modifies this
      ensures ended.None? <==> Ready(script, answers)
      ensures ended.None? ==> Started(script)
      ensures ended.Some? ==> NotStarted(ended.value)
    {
      assert [] + [FindSandbox] == [FindSandbox];
      var a := Await(FindSandbox);
      if a != Good {
        return Some(if a == Cut then Dropped(Starting) else Failure);
      }
      ended := Feed(script);
      if ended.None? {
        ended := LaunchAndFollow(script);
      }
    }

    /** Uploads fixed input to its file. */
    method Feed(script: Script) returns (ended: Option<Outcome>)
      requires Balanced() && tally.created == 0 && tally.uploads == 0 && !stream && !input && !tally.closed && !tally.fetched
      modifies this
      ensures SameOutput()
      ensures ended.None? <==> !TakesFile(script) || (!script.tooBig && answers(old(|log|)) == answers(old(|log|) + 1) == Good)
      ensures ended.None? ==> Balanced() && tally.created == 0 && !stream && !input && stdinFile == TakesFile(script)
      ensures ended.None? ==> Requests() == Also(Also(old(Requests()), OpenFiles, TakesFile(script)), UploadFile, TakesFile(script))
      ensures ended.Some? ==> NotStarted(ended.value)
    {
      ended := None;
      if !script.streamed && script.fixed {
        var a := Upload(script.tooBig);
        if a != Good {
          ended := Some(if a == Cut then Dropped(Starting) else Failure);
        }
      }
    }

    /** Starts the command and the tasks around it. */
    method LaunchAndFollow(script: Script) returns (ended: Option<Outcome>)
      requires Balanced() && tally.created == 0 && !stream && !input && !tally.closed && !tally.fetched
      modifies this
      ensures SameOutput()
      ensures ended.None? <==> Launches(old(|log|), script.streamed)
      ensures ended.None? ==> Balanced() && session && stream && input == script.streamed && stdinFile == old(stdinFile)
      ensures ended.None? ==> Requests() == Launching(old(Requests()), script.streamed)
      ensures ended.Some? ==> NotStarted(ended.value)
    {
      var a := Launch();
      if a != Good {
        ended := CannotLaunch(a);
        return;
      }
      ended := StartTasks(script.streamed);
    }

    /** The calls from `n` on that launch a command and start the tasks around it are granted. */
    predicate Launches(n: nat, streamed: bool) {
      && answers(n) == answers(n + 1) == answers(n + 2) == answers(n + 3) == answers(n + 4) == Good
      && (streamed ==> answers(n + 5) == Good)
    }

    /** The command was not started and its session is closed, or the run was dropped meanwhile. */
    method CannotLaunch(a: Answer) returns (ended: Option<Outcome>)
      requires a != Good && (if a == Cut then Interrupted(Starting) else Balanced() && !session && !stream && !input)
      modifies this
      ensures SameOutput() && ended.Some? && NotStarted(ended.value)
    {
      if a == Cut {
        return Some(Dropped(Starting));
      }
      var cut := CloseStdin();
      ended := Some(if cut then Dropped(Closing) else Failure);
    }

    /** Everything is set up and was asked for in that order. */
    predicate Started(script: Script) reads this {
      && Balanced() && session && stream && input == script.streamed && stdinFile == TakesFile(script)
      && !tally.closed && !tally.fetched
      && Requests() == Setup(script)
    }

    /** How a run that did not get to its wait ended: with nothing left, or dropped with no pump. */
    predicate NotStarted(ended: Outcome) reads this {
      && (ended.Failure? || ended.Dropped?)
      && (ended.Failure? ==> Balanced() && Released())
      && (ended.Dropped? ==> Interrupted(ended.step) && ended.step != Draining && ended.step != Waiting)
    }

    method StartTasks(streamed: bool) returns (ended: Option<Outcome>)
      requires Balanced() && session && !stream && !input
      modifies this
      ensures tally.created == old(tally.created) && SameOutput()
      ensures ended.None? ==> Balanced() && session && stream && input == streamed
      ensures ended.Some? ==> NotStarted(ended.value)
      ensures ended.None? <==> answers(old(|log|)) == Good && (streamed ==> answers(old(|log|) + 1) == Good)
      ensures ended.None? ==> stdinFile == old(stdinFile) && Requests() == Also(old(Requests()) + [OpenProcess], OpenProcess, streamed)
    {
      var a := Await(OpenProcess);
      if a != Good {
        ended := CannotStart(a);
        return;
      }
      stream, streamTask := true, true;
      ended := StartInput(streamed);
    }

    method StartInput(streamed: bool) returns (ended: Option<Outcome>)
      requires Balanced() && session && stream && !input
      modifies this
      ensures tally.created == old(tally.created) && SameOutput()
      ensures ended.None? ==> Balanced() && session && stream && input == streamed && stdinFile == old(stdinFile)
      ensures ended.None? ==> Requests() == Also(old(Requests()), OpenProcess, streamed)
      ensures ended.None? <==> !streamed || answers(old(|log|)) == Good
      ensures ended.Some? ==> NotStarted(ended.value)
    {
      ended := None;
      if streamed {
        var a := Await(OpenProcess);
        if a != Good {
          ended := CannotStart(a);
          return;
        }
        input, inputTask := true, true;
      }
    }

    /** A task could not be started, or the run was dropped while it was. */
    method CannotStart(a: Answer) returns (ended: Option<Outcome>)
      requires !input && !inputTask && a != Good && (if a == Cut then Interrupted(Starting) else Balanced())
      modifies this
      ensures tally.created == old(tally.created) && SameOutput()
      ensures ended.Some? && NotStarted(ended.value)
    {
      if a == Cut {
        return Some(Dropped(Starting));
      }
      ended := AbortWith();
    }

    method AbortWith() returns (ended: Option<Outcome>)
      requires Balanced()
      modifies this
      ensures tally.created == old(tally.created) && SameOutput()
      ensures ended.Some? && NotStarted(ended.value)
    {
      var cut := Abort();
      ended := Some(if cut.Some? then Dropped(cut.value) else Failure);
    }

    /** What the wait leaves to do: nothing, an abandoned run, or a run to settle. Logs are fetched
        on the spot for a stop, before the session goes. */
    method Wait(script: Script) returns (ended: Option<Outcome>, fetched: bool)
      requires Balanced() && session && stream && tally.created == 1 && input == script.streamed && !tally.closed && !tally.fetched
      modifies this
      ensures ended.None? ==> Balanced() && session && stream && tally.created == 1 && !tally.closed
      ensures ended.None? ==> input == (script.streamed && !script.inputEnds) && stdinFile == old(stdinFile)
      ensures ended.None? ==> Over(script.waited) && (fetched <==> tally.fetched) && (fetched ==> script.waited.Halted?)
      ensures ended.None? ==> Requests() == Also(old(Requests()), FetchLog, script.waited.Halted?)
      ensures ended.Some? ==> WaitEnded(script, ended.value)
      ensures script.waited == WaitCut ==> ended == Some(Dropped(Waiting))
      ensures script.waited == Finished ==> ended.None? && log == old(log)
    {
      ended, fetched := None, false;
      if script.inputEnds || script.waited == InputFailed {
        input, inputTask := false, false;
      }
      if script.waited == WaitCut {
        return Some(Dropped(Waiting)), false;
      }
      if script.waited == PollFailed || script.waited == InputFailed {
        ended := AbortWith();
        return;
      }
      if script.waited.Halted? {
        var a := Await(FetchLog);
        if a == Cut {
          return Some(Dropped(Waiting)), false;
        }
        fetched := a == Good;
      }
    }

    /** How a run ended in its wait: an input pump is left if and only if it was dropped there with
        input flowing. */
    predicate WaitEnded(script: Script, ended: Outcome) reads this {
      && (ended.Failure? || ended.Dropped?)
      && (ended.Failure? ==> Balanced() && Released() && !Over(script.waited))
      && (ended.Dropped? ==> Interrupted(ended.step) && ended.step != Draining && (script.waited == WaitCut || JustCut()))
      && (ended.Dropped? ==> (inputTask <==> ended.step == Waiting && script.streamed && !script.inputEnds))
    }

    /** How a run that is not settled ended: incomplete with everything released but the delete not
        confirmed, or dropped. */
    predicate Unsettled(ended: Outcome, termination: Termination) reads this {
      && (ended.Incomplete? || ended.Dropped?)
      && (ended.Incomplete? ==> Balanced() && Released() && tally.created == 1 && tally.confirmed == 0)
      && (ended.Incomplete? ==> (ended.terminated <==> termination == Exited))
      && (ended.Dropped? ==> Interrupted(ended.step) && ended.step != Waiting)
    }

    /** Stops the input, and a command that did not end by itself by deleting its session. */
    method EndCommand(termination: Termination) returns (ended: Option<Outcome>)
      requires Balanced() && session && tally.created == 1 && tally.confirmed == 0
      modifies this
      ensures tally.created == 1 && SameOutput()
      ensures ended.None? ==> Balanced() && !input && (session <==> termination == Exited) && tally.confirmed + (if session then 1 else 0) == 1
      ensures ended.None? ==> stream == old(stream) && stdinFile == old(stdinFile)
      ensures ended.None? ==> Requests() == Halting(old(Requests()), old(input), termination != Exited)
      ensures ended.Some? ==> Unsettled(ended.value, termination)
      ensures !old(input) && termination == Exited ==> ended.None? && log == old(log) && stream == old(stream)
    {
      var cut := StopInput();
      if cut {
        return Some(Dropped(Stopping));
      }
      ended := None;
      if termination != Exited {
        ended := DeleteFirst(termination);
      }
    }

    /** Ends the command by deleting its session; only a confirmed delete lets the run go on. */
    method DeleteFirst(ghost termination: Termination) returns (ended: Option<Outcome>)
      requires Balanced() && session && !input && tally.created == 1 && tally.confirmed == 0 && termination != Exited
      modifies this
      ensures tally.created == 1 && SameOutput()
      ensures ended.None? ==> Balanced() && !input && !session && tally.confirmed == 1
      ensures ended.None? ==> stream == old(stream) && stdinFile == old(stdinFile) && Requests() == old(Requests()) + [DeleteSession]
      ensures ended.Some? ==> Unsettled(ended.value, termination)
    {
      var a := CloseSession();
      if a == Cut {
        return Some(Dropped(Closing));
      }
      ended := None;
      if a != Good {
        var step := Abort();
        ended := Some(if step.Some? then Dropped(step.value) else Incomplete(false));
      }
    }

    /** Drains the stream, and fetches the final log when that did not deliver everything and the
        session still has it. */
    method Collect(fetched: bool, failed: bool) returns (cut: Option<Step>, clean: bool, logs: bool)
      requires Balanced() && !input && stream && !tally.closed && fetched == tally.fetched && (fetched ==> !session)
      modifies this`log, this`tally, this`stream, this`streamTask
      ensures tally == old(tally).(closed := tally.closed, fetched := tally.fetched, cuts := tally.cuts)
      ensures cut.None? ==> Balanced() && !stream && (clean <==> tally.closed && !failed) && (logs <==> tally.fetched)
      ensures cut.None? ==> Requests() == Collected(old(Requests()), session, answers(old(|log|)), failed)
      ensures cut.Some? ==> Interrupted(cut.value) && cut.value != Waiting
      ensures answers(old(|log|)) == Cut ==> cut == Some(Draining)
      ensures answers(old(|log|)) == Late && answers(old(|log|) + 1) == Cut ==> cut == Some(Joining)
    {
      logs := fetched;
      cut, clean := Drain(failed);
      if cut.None? && !fetched && !clean && session {
        var a := Await(FetchLog);
        if a == Cut {
          cut := Some(Closing);
        }
        logs := a == Good;
      }
    }

    /** Closes the session, drains the stream, fetches the logs the stream did not deliver. Only
        a confirmed deletion settles the run. */
    method Settle(termination: Termination, fetched: bool, failed: bool) returns (ended: Option<Outcome>, clean: bool, logs: bool)
      requires Balanced() && session && stream && tally.created == 1 && !tally.closed
      requires fetched == tally.fetched && (fetched ==> termination != Exited)
      modifies this
      ensures ended.None? ==> Balanced() && Released() && tally.created == 1 && tally.confirmed == 1
      ensures ended.None? ==> (clean <==> tally.closed && !failed) && (logs <==> tally.fetched)
      ensures ended.None? ==>
        var before := Halting(old(Requests()), old(input), termination != Exited);
        Requests() == Ending(before, termination == Exited, old(stdinFile), answers(|before|), failed)
      ensures ended.Some? ==> Unsettled(ended.value, termination)
      ensures !old(input) && termination == Exited && answers(old(|log|)) == Cut ==> ended == Some(Dropped(Draining))
      ensures !old(input) && termination == Exited && answers(old(|log|)) == Late && answers(old(|log|) + 1) == Cut
        ==> ended == Some(Dropped(Joining))
    {
      clean, logs := false, false;
      Unconfirmed();
      ended := EndCommand(termination);
      if ended.Some? {
        return;
      }
      var cut;
      cut, clean, logs := Collect(fetched, failed);
      if cut.Some? {
        ended := Some(Dropped(cut.value));
        return;
      }
      var a := Release();
      ended := if a == Cut then Some(Dropped(Closing)) else if a == Good then None else Some(Incomplete(termination == Exited));
    }

    /** No delete is confirmed that was not asked for. */
    lemma Unconfirmed()
      requires Balanced() && session
      ensures tally.confirmed == 0
    {
      AuditMeans(log, answers);
      TallyBounded(log);
    }

    /** Runs until the session's deletion is confirmed, or the run has ended otherwise. */
    method UntilSettled(script: Script, failed: bool) returns (ended: Option<Outcome>, clean: bool, logs: bool)
      requires Started(script)
      modifies this
      ensures ended.None? ==> Balanced() && Released() && tally.created == 1 && tally.confirmed == 1 && Over(script.waited)
      ensures ended.None? ==> (clean <==> tally.closed && !failed) && (logs <==> tally.fetched)
      ensures ended.None? ==> Requests() + [LastDelivery] == Course(script, answers, failed)
      ensures ended.Some? ==> WaitEnded(script, ended.value) || (Over(script.waited) && Unsettled(ended.value, TerminationOf(script.waited)))
      ensures script.waited == WaitCut ==> ended == Some(Dropped(Waiting)) && WaitEnded(script, ended.value)
      ensures script.waited == Finished && !script.streamed && answers(old(|log|)) == Cut ==> ended == Some(Dropped(Draining))
      ensures script.waited == Finished && !script.streamed && answers(old(|log|)) == Late && answers(old(|log|) + 1) == Cut
        ==> ended == Some(Dropped(Joining))
    {
      clean, logs := false, false;
      var fetched;
      ended, fetched := Wait(script);
      if ended.None? {
        ended, clean, logs := Settle(TerminationOf(script.waited), fetched, failed);
      }
    }

    /** The whole run.
        - A run that is not dropped releases everything it made, exactly once: each session created
          got one delete request, each stdin file uploaded one removal, and no task is left.
        - A result is reported only when the delete was answered with success.
        - Output is reported whole if and only if the stream closed by itself or a log fetch was
          answered, and the sink refused nothing; the captures hold the chunks of the stream with the
          final log merged behind them, and until it failed the sink got exactly that.
        - A dropped run still asks for each release, at most twice; its stream task is left if and
          only if it was dropped while draining, before the abort, its input pump if and only if it
          was dropped in the wait with input still flowing.
        `followed` is how many chunks of the stream were taken. */
    method Execute(script: Script, output: SessionOutput) returns (r: Outcome, followed: nat)
      requires Balanced() && log == [] && !stream && !input
      requires output.Valid() && !output.sinkFailed && output.step == 0 && output.out.raw.seen == [] && output.err.raw.seen == []
      modifies this, output, output.out, output.err, output.out.raw, output.out.capture, output.err.raw, output.err.capture
      ensures Concluded(script, r) && output.Valid() && Reported(script, output, r, followed)
      ensures Ready(script, answers) ==> DropsWhere(script, r, |Setup(script)|)
    {
      var ended := Start(script);
      if ended.Some? {
        r, followed := ended.value, 0;
        Leave(r);
        return;
      }
      r, followed := Proceed(script, output);
    }

    /** Where a started run is dropped: in the wait, in the drain, or after the drain's abort. */
    predicate DropsWhere(script: Script, r: Outcome, n: nat) {
      && (script.waited == WaitCut ==> r == Dropped(Waiting))
      && (script.waited == Finished && !script.streamed ==>
            && (answers(n) == Cut ==> r == Dropped(Draining))
            && (answers(n) == Late && answers(n + 1) == Cut ==> r == Dropped(Joining)))
    }

    /** The report, and where it comes from: clean is a stream that closed by itself and was not
        refused, logs is an answered fetch. */
    ghost predicate Reported(script: Script, output: SessionOutput, r: Outcome, followed: nat)
      reads this, output, output.out, output.err, output.out.raw, output.err.raw
    {
      && followed <= |script.live|
      && (r.Report? ==>
            && Told(script, output, r, followed)
            && Requests() == Course(script, answers, LiveRefused(script, output.accepts, followed))
            && (r.clean <==> tally.closed && !LiveRefused(script, output.accepts, followed))
            && (r.logs <==> tally.fetched))
    }

    /** A started run, to its end. */
    method Proceed(script: Script, output: SessionOutput) returns (r: Outcome, followed: nat)
      requires Started(script) && Ready(script, answers)
      requires output.Valid() && !output.sinkFailed && output.step == 0 && output.out.raw.seen == [] && output.err.raw.seen == []
      modifies this, output, output.out, output.err, output.out.raw, output.out.capture, output.err.raw, output.err.capture
      ensures Concluded(script, r) && output.Valid() && Reported(script, output, r, followed)
      ensures DropsWhere(script, r, |Setup(script)|)
    {
      followed := Follow(script, output);
      r := Conclude(script, output, followed);
    }

    method Follow(script: Script, output: SessionOutput) returns (followed: nat)
      requires output.Valid() && !output.sinkFailed && output.step == 0 && output.out.raw.seen == [] && output.err.raw.seen == []
      modifies output, output.out, output.err, output.out.raw, output.out.capture, output.err.raw, output.err.capture
      ensures output.Valid() && Brought(script, output, followed)
    {
      followed := output.Follow(script.live);
      OfferedRefusal(script, output.accepts, followed, output.sinkFailed);
    }

    /** The end of a run whose stream has brought what it will. */
    method Conclude(script: Script, output: SessionOutput, followed: nat) returns (r: Outcome)
      requires Started(script) && Ready(script, answers)
      requires output.Valid() && Brought(script, output, followed)
      modifies this, output, output.out, output.err, output.out.raw, output.out.capture, output.err.raw, output.err.capture
      ensures Concluded(script, r) && output.Valid() && Reported(script, output, r, followed)
      ensures DropsWhere(script, r, |Setup(script)|)
    {
      var ended, clean, logs := UntilSettled(script, output.sinkFailed);
      if ended.Some? {
        r := ended.value;
        Leave(r);
        return;
      }
      r := Finish(script, output, followed, clean, logs);
    }

    /** The end of a settled run. */
    method Finish(script: Script, output: SessionOutput, followed: nat, clean: bool, logs: bool) returns (r: Outcome)
      requires Balanced() && Released() && tally.created == 1 && tally.confirmed == 1 && Over(script.waited) && Ready(script, answers)
      requires output.Valid() && Brought(script, output, followed)
      requires (clean <==> tally.closed && !LiveRefused(script, output.accepts, followed)) && (logs <==> tally.fetched)
      requires Requests() + [LastDelivery] == Course(script, answers, LiveRefused(script, output.accepts, followed))
      modifies this, output, output.out, output.err, output.out.raw, output.out.capture, output.err.raw, output.err.capture
      ensures Concluded(script, r) && output.Valid() && Reported(script, output, r, followed)
      ensures r.Report? || r == Dropped(Reporting)
    {
      var cut := DeliverLast(script);
      if cut {
        return Dropped(Reporting);
      }
      r := WriteUp(script, output, followed, clean, logs);
    }

    /** The deliveries of the final log are the last thing a run can be dropped in. */
    method DeliverLast(script: Script) returns (cut: bool)
      requires Balanced() && Released() && tally.created == 1 && tally.confirmed == 1 && Over(script.waited) && Ready(script, answers)
      modifies this`log, this`tally
      ensures tally == old(tally).(cuts := tally.cuts) && Requests() == old(Requests()) + [LastDelivery]
      ensures cut ==> Concluded(script, Dropped(Reporting))
      ensures !cut ==> forall r: Outcome :: r.Report? ==> Concluded(script, r)
    {
      var last := Await(LastDelivery);
      cut := last == Cut;
    }

    /** Appends the final log and assembles the result. */
    method WriteUp(script: Script, output: SessionOutput, followed: nat, clean: bool, logs: bool) returns (r: Outcome)
      requires Over(script.waited)
      requires output.Valid() && Brought(script, output, followed)
      modifies output, output.out, output.err, output.out.raw, output.out.capture, output.err.raw, output.err.capture
      ensures output.Valid() && r.Report? && r.clean == clean && r.logs == logs && Told(script, output, r, followed)
    {
      Merge(script, output, followed, logs);
      r := Assemble(script, output, followed, clean, logs);
    }

    method Assemble(script: Script, output: SessionOutput, followed: nat, clean: bool, logs: bool) returns (r: Outcome)
      requires followed <= |script.live| && output.Valid() && Joined(script, output, followed, logs)
      requires output.sinkFailed <==> LiveRefused(script, output.accepts, followed) || (logs && LateRefusal(script, output, followed))
      requires Offered(script.live, followed, output.accepts, 0, LiveRefused(script, output.accepts, followed))
      requires !LiveRefused(script, output.accepts, followed) ==> followed == |script.live|
      requires Over(script.waited)
      ensures r.Report? && r.clean == clean && r.logs == logs && Told(script, output, r, followed)
    {
      var failed := output.sinkFailed;
      r := Report(if failed then Cancelled else TerminationOf(script.waited), clean, logs, failed, (!clean && !logs) || failed);
    }

    /** Appends the final log, when there is one, to what the stream brought. */
    method Merge(script: Script, output: SessionOutput, followed: nat, logs: bool)
      requires output.Valid() && Brought(script, output, followed)
      modifies output, output.out, output.err, output.out.raw, output.out.capture, output.err.raw, output.err.capture
      ensures output.Valid() && Joined(script, output, followed, logs)
      ensures output.sinkFailed <==> old(output.sinkFailed) || (logs && LateRefusal(script, output, followed))
    {
      if logs {
        output.Append(script.final);
      }
    }

    /** What a run has done by its end. */
    ghost predicate Concluded(script: Script, r: Outcome) reads this {
      && Logged()
      && (!r.Dropped? ==> Balanced() && Released())
      && (r.Report? || r.Incomplete? ==> Ready(script, answers) && Over(script.waited) && tally.created == tally.deletes == 1)
      && (r.Report? ==> tally.confirmed == 1)
      && (r.Incomplete? ==> tally.confirmed == 0 && (r.terminated <==> script.waited == Finished))
      && (r.Failure? ==> !Ready(script, answers) || script.waited == PollFailed || script.waited == InputFailed)
      && (r.Dropped? ==> script.waited == WaitCut || exists i :: 0 <= i < |log| && answers(i) == Cut)
      && (r.Dropped? ==> tally.created <= tally.deletes <= 2 * tally.created && tally.uploads <= tally.removals <= 2 * tally.uploads)
      && (r.Dropped? ==> (streamTask <==> r.step == Draining))
      && (r.Dropped? ==> (inputTask <==> r.step == Waiting && script.streamed && !script.inputEnds))
    }

    /** A dropped run drops its handles; one that ended holds none. */
    method Leave(r: Outcome)
      requires if r.Dropped? then Interrupted(r.step) else Balanced() && Released()
      modifies this
      ensures Logged() && inputTask == old(inputTask) && |log| >= old(|log|)
      ensures r.Dropped? ==> tally.created <= tally.deletes <= 2 * tally.created && tally.uploads <= tally.removals <= 2 * tally.uploads
      ensures r.Dropped? ==> (streamTask <==> r.step == Draining)
      ensures !r.Dropped? ==> Balanced() && Released() && tally == old(tally)
    {
      if r.Dropped? {
        Drop(r.step);
      }
    }
  }

  /** The last chunk the stream brought was refused. */
  predicate LiveRefused(script: Script, accepts: nat -> bool, followed: nat)
    requires followed <= |script.live|
  {
    followed > 0 && Refused(script.live[followed - 1].bytes, accepts(followed - 1))
  }

  lemma OfferedRefusal(script: Script, accepts: nat -> bool, followed: nat, failed: bool)
    requires Offered(script.live, followed, accepts, 0, failed)
    ensures failed <==> LiveRefused(script, accepts, followed)
  {
  }

  /** What one stream has taken in: its chunks, and the final log behind them when there is one. */
  function Taken(cap: nat, chunks: seq<Live>, err: bool, logs: bool, final: seq<Byte>): seq<Byte> {
    if logs then MergedWith(cap, SideBytes(chunks, err), final) else SideBytes(chunks, err)
  }

  /** The stream has brought `followed` chunks: all of them, or up to one that was refused. */
  ghost predicate Brought(script: Script, output: SessionOutput, followed: nat)
    reads output, output.out.raw, output.err.raw
  {
    && followed <= |script.live| && output.step == followed
    && Offered(script.live, followed, output.accepts, 0, output.sinkFailed)
    && (output.sinkFailed <==> LiveRefused(script, output.accepts, followed))
    && (!output.sinkFailed ==> followed == |script.live|)
    && output.out.raw.seen == SideBytes(script.live[..followed], false)
    && output.err.raw.seen == SideBytes(script.live[..followed], true)
  }

  /** Both streams have taken in their chunks and the final log. */
  ghost predicate Joined(script: Script, output: SessionOutput, followed: nat, logs: bool)
    requires followed <= |script.live|
    reads output.out.raw, output.err.raw
  {
    && output.out.raw.seen == Taken(output.out.raw.cap, script.live[..followed], false, logs, script.final.out)
    && output.err.raw.seen == Taken(output.err.raw.cap, script.live[..followed], true, logs, script.final.err)
  }

  /** The sink refused what the final log added to either stream, once `followed` chunks had been
      offered. */
  predicate LateRefusal(script: Script, output: SessionOutput, followed: nat)
    requires followed <= |script.live|
  {
    || Refused(Added(output.out.raw.cap, SideBytes(script.live[..followed], false), script.final.out), output.accepts(followed))
    || Refused(Added(output.err.raw.cap, SideBytes(script.live[..followed], true), script.final.err), output.accepts(followed + 1))
  }

  /** What a report says, and what the captures and the sink hold. */
  ghost predicate Told(script: Script, output: SessionOutput, r: Outcome, followed: nat)
    requires r.Report? && followed <= |script.live|
    reads output, output.out, output.err, output.out.raw, output.err.raw
  {
    && (r.sinkFailed <==> LiveRefused(script, output.accepts, followed) || (r.logs && LateRefusal(script, output, followed)))
    && Offered(script.live, followed, output.accepts, 0, LiveRefused(script, output.accepts, followed))
    && (!LiveRefused(script, output.accepts, followed) ==> followed == |script.live|)
    && (r.truncated <==> r.sinkFailed || !(r.clean || r.logs))
    && Joined(script, output, followed, r.logs)
    && (!r.sinkFailed ==> output.out.delivered == output.out.raw.seen && output.err.delivered == output.err.raw.seen)
    && (r.termination == Exited <==> !r.sinkFailed && script.waited == Finished)
    && (r.termination == TimedOut <==> !r.sinkFailed && script.waited == Halted(Deadline))
    && (r.termination == Killed <==> !r.sinkFailed && script.waited == Halted(KillRequest))
  }

  /** A report rests on answers the log holds, each of them the server's own or a task's: the delete
      was answered with success; logs are reported if and only if a fetch was; the stream is reported
      clean if and only if it ended by itself and the sink took its last chunk. */
  lemma ReportGrounded(run: Run, script: Script, output: SessionOutput, r: Outcome, followed: nat)
    requires r.Report? && run.Concluded(script, r) && run.Reported(script, output, r, followed)
    ensures Answered(run.log, DeleteSession)
    ensures r.logs <==> Answered(run.log, FetchLog)
    ensures r.clean <==> Answered(run.log, StreamEnd) && !LiveRefused(script, output.accepts, followed)
    ensures forall i :: 0 <= i < |run.log| && run.log[i].answer == Good ==> run.answers(i) == Good
  {
    AuditMeans(run.log, run.answers);
    TallyGrounded(run.log);
  }

  /** Every wait behind a report, in order, with its answer. */
  lemma ReportedCourse(run: Run, script: Script, output: SessionOutput, r: Outcome, followed: nat)
    requires r.Report? && run.Concluded(script, r) && run.Reported(script, output, r, followed)
    ensures RequestsOf(run.log) == Course(script, run.answers, LiveRefused(script, output.accepts, followed))
    ensures forall i :: 0 <= i < |run.log| ==> run.log[i].answer == run.answers(i) != Cut
  {
    AuditMeans(run.log, run.answers);
    UncutGrounded(run.log);
  }

  /** Asked once, a request is answered when that one was. */
  lemma OnceAnswered(log: seq<Event>, at: nat, r: Request)
    requires OnceAt(RequestsOf(log), at, r)
    ensures Answered(log, r) <==> log[at].answer == Good
  {
    if log[at].answer == Good {
      assert log[at] == Event(r, Good);
    }
    if Answered(log, r) {
      var i :| 0 <= i < |log| && log[i] == Event(r, Good);
      assert RequestsOf(log)[i] == r;
    }
  }

  /** A run's log shows its final log fetched at `at`, with what is reported of it for an answer, and
      its session deleted behind that and not before. */
  predicate FetchLogged(log: seq<Event>, at: nat, logs: bool) {
    && at < |log| && log[at].request == FetchLog && (logs <==> log[at].answer == Good)
    && (forall i :: 0 <= i <= at ==> log[i].request != DeleteSession)
    && (exists i :: at < i < |log| && log[i] == Event(DeleteSession, Good))
  }

  lemma FetchReported(run: Run, script: Script, output: SessionOutput, r: Outcome, followed: nat, at: nat, gone: nat)
    requires r.Report? && run.Concluded(script, r) && run.Reported(script, output, r, followed)
    requires FetchedAndGone(RequestsOf(run.log), at, gone)
    ensures FetchLogged(run.log, at, r.logs)
  {
    ReportGrounded(run, script, output, r, followed);
    OnceAnswered(run.log, at, FetchLog);
    OnceAnswered(run.log, gone, DeleteSession);
    assert run.log[gone] == Event(DeleteSession, Good);
    forall i | 0 <= i <= at ensures run.log[i].request != DeleteSession {
      assert RequestsOf(run.log)[i] == run.log[i].request;
    }
  }

  /** The final log is always asked for while the session still has it: of a command that ended by
      itself behind the stream's end, if and only if the stream did not bring everything; of one that
      was stopped before the deletion that stops it. What is reported of it is the answer. */
  lemma FinalLogFetched(run: Run, script: Script, output: SessionOutput, r: Outcome, followed: nat)
    requires r.Report? && run.Concluded(script, r) && run.Reported(script, output, r, followed)
    ensures script.waited == Finished && r.clean ==> FetchLog !in RequestsOf(run.log)
    ensures script.waited == Finished && !r.clean ==>
      exists end: nat, at: nat :: end < at < |run.log| && run.log[end].request == StreamEnd && FetchLogged(run.log, at, r.logs)
    ensures script.waited.Halted? ==>
      exists at: nat, end: nat :: at < end < |run.log| && run.log[end].request == StreamEnd && FetchLogged(run.log, at, r.logs)
  {
    var failed := LiveRefused(script, output.accepts, followed);
    ReportedCourse(run, script, output, r, followed);
    ReportGrounded(run, script, output, r, followed);
    StreamOnce(script, run.answers, failed);
    var end := |Stopped(script)|;
    OnceAnswered(run.log, end, StreamEnd);
    if script.waited == Finished {
      NaturalFetch(script, run.answers, failed);
      if !r.clean {
        var at: nat, gone: nat :| end < at && FetchedAndGone(RequestsOf(run.log), at, gone);
        FetchReported(run, script, output, r, followed, at, gone);
        assert run.log[end].request == StreamEnd;
      }
    } else {
      HaltedFetch(script, run.answers, failed);
      var gone: nat :| FetchedAndGone(RequestsOf(run.log), |Setup(script)|, gone) && gone < end;
      FetchReported(run, script, output, r, followed, |Setup(script)|, gone);
      assert run.log[end].request == StreamEnd;
    }
  }

  /** When no wait is dropped, how a run ends is decided by what starts it, what its wait came to,
      and the answer to its delete request. */
  lemma UndroppedEnds(run: Run, script: Script, r: Outcome)
    requires run.Concluded(script, r)
    requires script.waited != WaitCut && forall i: nat :: run.answers(i) != Cut
    ensures r.Failure? <==> !Ready(script, run.answers) || !Over(script.waited)
    ensures r.Report? <==> Ready(script, run.answers) && Over(script.waited) && Answered(run.log, DeleteSession)
    ensures r.Incomplete? <==> Ready(script, run.answers) && Over(script.waited) && !Answered(run.log, DeleteSession)
  {
    AuditMeans(run.log, run.answers);
    TallyGrounded(run.log);
  }

  /** Nothing was dropped from the window, or it recognises the final log. */
  predicate Matches(cap: nat, seen: seq<Byte>, final: seq<Byte>) {
    OmittedOf(cap, seen) == 0 || Recognised(HeadOf(cap, seen), TailOf(cap, seen), final)
  }

  /** How much of a log one stream has taken in: what it brought, or what was fetched if that reaches
      further. */
  function Reach(logs: bool, a: nat, b: nat): (n: nat)
    ensures n == a || n == b
  {
    if logs && b > a then b else a
  }

  lemma SideTakesLog(cap: nat, chunks: seq<Live>, err: bool, logs: bool, final: seq<Byte>, log: seq<Byte>, a: nat, b: nat)
    requires a <= |log| && b <= |log| && SideBytes(chunks, err) == log[..a]
    requires logs ==> final == log[..b] && Matches(cap, log[..a], final)
    ensures Taken(cap, chunks, err, logs, final) == log[..Reach(logs, a, b)]
  {
    if logs {
      RunCapturesLongerLog(cap, log, a, b);
    }
  }

  /** What a report with no sink failure has captured, and given to the sink: of each stream, the
      first bytes of its log, as many as the stream brought or the fetched log holds, whichever is
      more. The stream may be past the fetched log or behind it, in each of the two streams. */
  lemma ReportedLog(script: Script, output: SessionOutput, r: Outcome, followed: nat, log: Final, a: nat, b: nat, c: nat, d: nat)
    requires r.Report? && !r.sinkFailed && followed <= |script.live| && output.Valid() && Told(script, output, r, followed)
    requires a <= |log.out| && b <= |log.out| && c <= |log.err| && d <= |log.err|
    requires SideBytes(script.live, false) == log.out[..a] && SideBytes(script.live, true) == log.err[..c]
    requires r.logs ==> script.final.out == log.out[..b] && Matches(output.out.raw.cap, log.out[..a], log.out[..b])
    requires r.logs ==> script.final.err == log.err[..d] && Matches(output.err.raw.cap, log.err[..c], log.err[..d])
    ensures output.out.capture.seen == log.out[..Reach(r.logs, a, b)] == output.out.delivered
    ensures output.err.capture.seen == log.err[..Reach(r.logs, c, d)] == output.err.delivered
  {
    assert script.live[..followed] == script.live;
    SideTakesLog(output.out.raw.cap, script.live, false, r.logs, script.final.out, log.out, a, b);
    SideTakesLog(output.err.raw.cap, script.live, true, r.logs, script.final.err, log.err, c, d);
  }

  /** A final log as long as the whole log is always recognised. */
  lemma WholeMatches(cap: nat, log: seq<Byte>, a: nat)
    requires a <= |log|
    ensures Matches(cap, log[..a], log)
  {
  }

  /** An untruncated report holds, and its sink was given, exactly the whole log of both streams,
      each byte once and in order, where a stream brings all of its log when it closes by itself and
      a fetched final log is whole. */
  lemma ReportedWhole(script: Script, output: SessionOutput, r: Outcome, followed: nat, log: Final)
    requires r.Report? && !r.truncated && followed <= |script.live| && output.Valid() && Told(script, output, r, followed)
    requires SideBytes(script.live, false) <= log.out && SideBytes(script.live, true) <= log.err
    requires r.clean ==> SideBytes(script.live, false) == log.out && SideBytes(script.live, true) == log.err
    requires r.logs && !r.clean ==> script.final == log
    requires r.logs && r.clean ==> script.final.out <= log.out && Matches(output.out.raw.cap, log.out, script.final.out)
    requires r.logs && r.clean ==> script.final.err <= log.err && Matches(output.err.raw.cap, log.err, script.final.err)
    ensures output.out.capture.seen == log.out == output.out.delivered
    ensures output.err.capture.seen == log.err == output.err.delivered
  {
    assert script.live[..followed] == script.live;
    SideTakesWhole(output.out.raw.cap, script.live, false, r.clean, r.logs, script.final.out, log.out);
    SideTakesWhole(output.err.raw.cap, script.live, true, r.clean, r.logs, script.final.err, log.err);
  }

  lemma SideTakesWhole(cap: nat, chunks: seq<Live>, err: bool, clean: bool, logs: bool, final: seq<Byte>, log: seq<Byte>)
    requires SideBytes(chunks, err) <= log && (clean ==> SideBytes(chunks, err) == log) && (clean || logs)
    requires logs ==> (if clean then final <= log && Matches(cap, log, final) else final == log)
    ensures Taken(cap, chunks, err, logs, final) == log
  {
    var a := |SideBytes(chunks, err)|;
    assert log[..|log|] == log;
    if logs {
      WholeMatches(cap, log, a);
      SideTakesLog(cap, chunks, err, logs, final, log, a, |final|);
    }
  }

  /** A run can be dropped while it drains, and then its stream task runs on. */
  method DroppedWhileDraining() returns (run: Run, r: Outcome)
    ensures r == Dropped(Draining) && run.streamTask
  {
    run := new Run(k => if k < 6 then Good else Cut);
    var output := new SessionOutput(None, _ => true);
    var followed;
    r, followed := run.Execute(Script(false, false, false, Finished, false, [], Final([], [])), output);
  }

  /** A run dropped in the same drain after the abort leaves nothing running. */
  method DroppedWhileJoining() returns (run: Run, r: Outcome)
    ensures r == Dropped(Joining) && !run.streamTask && !run.inputTask
  {
    run := new Run(k => if k < 6 then Good else if k == 6 then Late else Cut);
    var output := new SessionOutput(None, _ => true);
    var followed;
    r, followed := run.Execute(Script(false, false, false, Finished, false, [], Final([], [])), output);
  }

  /** A run can be dropped while it waits with input flowing, and then its input pump runs on. */
  method DroppedWhileWaiting() returns (run: Run, r: Outcome)
    ensures r == Dropped(Waiting) && run.inputTask && !run.streamTask
  {
    run := new Run(_ => Good);
    var output := new SessionOutput(None, _ => true);
    var followed;
    r, followed := run.Execute(Script(true, false, false, WaitCut, false, [], Final([], [])), output);
  }
}
