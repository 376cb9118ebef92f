/** What a session-backed run awaits and is answered: the log of a run, what it amounts to, and the
    course a run has to take to be reported. */
module SessionEvents {
  import opened Bytes
  import opened SessionLogs

  /** How an await ends: with success, with an error, with nothing in the time allowed, or never,
      because the run was dropped while waiting. */
  datatype Answer = Good | Bad | Late | Cut

  /** What is awaited: a request to the server, a task's own end, or a task after its abort. */
  datatype Request =
    | FindSandbox | OpenFiles | UploadFile | FindToolbox | OpenProcess | CreateSession | StartCommand
    | FetchLog | DeleteSession | RemoveFile
    | StreamEnd | StreamJoin | InputJoin | LastDelivery

  datatype Event = Event(request: Request, answer: Answer)

  /** What the server and the tasks are known to have done, and how often the run was dropped while
      waiting for one of them. */
  datatype Tally = Tally(created: nat, deletes: nat, confirmed: nat, uploads: nat, removals: nat, closed: bool, fetched: bool, cuts: nat)

  const Nothing := Tally(0, 0, 0, 0, 0, false, false, 0)

  function Noted(before: Tally, e: Event): Tally {
    var ok := e.answer == Good;
    var t := before.(cuts := before.cuts + (if e.answer == Cut then 1 else 0));
    match e.request
    case CreateSession => if ok then t.(created := t.created + 1) else t
    case DeleteSession => t.(deletes := t.deletes + 1, confirmed := t.confirmed + (if ok then 1 else 0))
    case UploadFile => if ok then t.(uploads := t.uploads + 1) else t
    case RemoveFile => t.(removals := t.removals + 1)
    case StreamEnd => t.(closed := t.closed || ok)
    case FetchLog => t.(fetched := t.fetched || ok)
    case _ => t
  }

  function TallyOf(log: seq<Event>): Tally {
    if log == [] then Nothing
    else Noted(TallyOf(log[..|log| - 1]), log[|log| - 1])
  }

  /** The tally of a log whose every answer is the one given, unless the run was dropped instead;
      no tally for any other log. */
  function Audit(log: seq<Event>, answers: nat -> Answer): Option<Tally> {
    if log == [] then Some(Nothing)
    else
      var n := |log| - 1;
      match Audit(log[..n], answers)
      case None => None
      case Some(t) => if log[n].answer == answers(n) || log[n].answer == Cut then Some(Noted(t, log[n])) else None
  }

  lemma AuditSnoc(log: seq<Event>, answers: nat -> Answer, e: Event)
    requires Audit(log, answers).Some? && (e.answer == answers(|log|) || e.answer == Cut)
    ensures Audit(log + [e], answers) == Some(Noted(Audit(log, answers).value, e))
  {
    assert (log + [e])[..|log|] == log;
  }

  lemma {:induction false} AuditMeans(log: seq<Event>, answers: nat -> Answer)
    requires Audit(log, answers).Some?
    ensures Audit(log, answers).value == TallyOf(log)
    ensures forall i :: 0 <= i < |log| ==> log[i].answer == answers(i) || log[i].answer == Cut
    decreases |log|
  {
    if log != [] {
      AuditMeans(log[..|log| - 1], answers);
    }
  }

  ghost predicate Answered(log: seq<Event>, request: Request) {
    exists i :: 0 <= i < |log| && log[i] == Event(request, Good)
  }

  /** A confirmed delete, a stream that closed by itself and a fetched log are answers the log holds. */
  lemma {:induction false} TallyGrounded(log: seq<Event>)
    ensures TallyOf(log).confirmed > 0 <==> Answered(log, DeleteSession)
    ensures TallyOf(log).closed <==> Answered(log, StreamEnd)
    ensures TallyOf(log).fetched <==> Answered(log, FetchLog)
    decreases |log|
  {
    if log != [] {
      var front, last := log[..|log| - 1], log[|log| - 1];
      TallyGrounded(front);
      AnsweredSnoc(front, last, DeleteSession);
      AnsweredSnoc(front, last, StreamEnd);
      AnsweredSnoc(front, last, FetchLog);
      assert log == front + [last];
    }
  }

  /** A run that was not dropped has waited every wait of its log to its end. */
  lemma {:induction false} UncutGrounded(log: seq<Event>)
    ensures TallyOf(log).cuts == 0 <==> forall i :: 0 <= i < |log| ==> log[i].answer != Cut
    decreases |log|
  {
    if log != [] {
      UncutGrounded(log[..|log| - 1]);
    }
  }

  lemma AnsweredSnoc(log: seq<Event>, e: Event, request: Request)
    ensures Answered(log + [e], request) <==> Answered(log, request) || e == Event(request, Good)
  {
    var more := log + [e];
    if Answered(log, request) {
      var i :| 0 <= i < |log| && log[i] == Event(request, Good);
      assert more[i] == Event(request, Good);
    }
    if e == Event(request, Good) {
      assert more[|log|] == Event(request, Good);
    }
    if Answered(more, request) && e != Event(request, Good) {
      var i :| 0 <= i < |more| && more[i] == Event(request, Good);
      assert log[i] == Event(request, Good);
    }
  }

  datatype Termination = Exited | TimedOut | Cancelled | Killed

  /** What the wait for the command came to. */
  datatype Waited = Finished | Halted(cause: Cause) | PollFailed | InputFailed | WaitCut

  /** Why a command was stopped before it ended. */
  datatype Cause = Deadline | TermRequest | KillRequest | SinkFailure

  /** How the wait's outcome is reported; only a command seen to end has exited. */
  function TerminationOf(waited: Waited): Termination {
    match waited
    case Halted(Deadline) => TimedOut
    case Halted(TermRequest) => Cancelled
    case Halted(KillRequest) => Killed
    case Halted(SinkFailure) => Cancelled
    case _ => Exited
  }

  /** What is decided outside the run: the stdin kind, what the wait comes to, whether the input
      pump ends by itself before that, the chunks the stream brings and the final log. */
  datatype Script = Script(streamed: bool, fixed: bool, tooBig: bool, waited: Waited, inputEnds: bool, live: seq<Live>, final: Final)

  lemma {:induction false} TallyBounded(log: seq<Event>)
    ensures TallyOf(log).confirmed <= TallyOf(log).deletes
    decreases |log|
  {
    if log != [] {
      TallyBounded(log[..|log| - 1]);
    }
  }

  // ------------------------------------------------------- the course of a run

  function RequestsOf(log: seq<Event>): (rs: seq<Request>)
    ensures |rs| == |log|
  {
    seq(|log|, i requires 0 <= i < |log| => log[i].request)
  }

  lemma RequestsSnoc(log: seq<Event>, e: Event)
    ensures RequestsOf(log + [e]) == RequestsOf(log) + [e.request]
  {
  }

  /** Fixed input is uploaded to a file, unless input is streamed. */
  predicate TakesFile(script: Script) {
    script.fixed && !script.streamed
  }

  function Also(rs: seq<Request>, r: Request, when: bool): seq<Request> {
    if when then rs + [r] else rs
  }

  /** What is asked to start a command: a stdin file first, then a session with the command in it,
      a task for its log, and one for its input. */
  function Setup(script: Script): seq<Request> {
    Launching(Also(Also([FindSandbox], OpenFiles, TakesFile(script)), UploadFile, TakesFile(script)), script.streamed)
  }

  function Launching(rs: seq<Request>, streamed: bool): seq<Request> {
    Also(rs + [FindToolbox] + [OpenProcess] + [CreateSession] + [StartCommand] + [OpenProcess], OpenProcess, streamed)
  }

  /** Everything that starting the command needs is granted. */
  predicate Ready(script: Script, answers: nat -> Answer) {
    && !(TakesFile(script) && script.tooBig)
    && forall i :: 0 <= i < |Setup(script)| ==> answers(i) == Good
  }

  /** The wait came to the command's end, or to a stop. */
  predicate Over(waited: Waited) {
    waited == Finished || waited.Halted?
  }

  /** The end of the input pump, and the deletion of the session of a command that has to be stopped. */
  function Halting(rs: seq<Request>, input: bool, halted: bool): seq<Request> {
    Also(Also(rs, InputJoin, input), DeleteSession, halted)
  }

  /** The end of an abandoned run: its tasks first, then what it holds at the server. */
  function Aborting(rs: seq<Request>, input: bool, stream: bool, session: bool, file: bool): seq<Request> {
    Also(Also(Also(Also(rs, InputJoin, input), StreamJoin, stream), DeleteSession, session), RemoveFile, file)
  }

  /** Up to the command's end. One that has to be stopped has its log fetched, and only then its
      session deleted, which is what stops it. */
  function Stopped(script: Script): seq<Request> {
    var halted := script.waited.Halted?;
    Halting(Also(Setup(script), FetchLog, halted), script.streamed && !script.inputEnds, halted)
  }

  /** After `before`, the stream's end, which is answered `end`, and the log that a session still
      there has and the stream did not bring. */
  function Collected(before: seq<Request>, session: bool, end: Answer, failed: bool): seq<Request> {
    Also(Also(before + [StreamEnd], StreamJoin, end == Late), FetchLog, session && (end != Good || failed))
  }

  /** The same, and then the deletion of the session, if it is still there, and of the stdin file. */
  function Ending(before: seq<Request>, session: bool, file: bool, end: Answer, failed: bool): seq<Request> {
    Also(Also(Collected(before, session, end, failed), DeleteSession, session), RemoveFile, file)
  }

  /** Everything a run awaits that ends in a report, where `failed` says that the sink refused the
      stream. */
  function Course(script: Script, answers: nat -> Answer, failed: bool): seq<Request> {
    var before := Stopped(script);
    Ending(before, script.waited == Finished, TakesFile(script), answers(|before|), failed) + [LastDelivery]
  }

  /** `r` was asked at position `at` and nowhere else. */
  predicate OnceAt(rs: seq<Request>, at: nat, r: Request) {
    && at < |rs| && rs[at] == r
    && forall i :: 0 <= i < |rs| && rs[i] == r ==> i == at
  }

  lemma OnceAmong(before: seq<Request>, r: Request, after: seq<Request>)
    requires r !in before && r !in after
    ensures OnceAt(before + [r] + after, |before|, r)
  {
  }

  /** The log is fetched at `at`, and the session is deleted behind that, at `gone`. */
  predicate FetchedAndGone(rs: seq<Request>, at: nat, gone: nat) {
    at < gone && OnceAt(rs, at, FetchLog) && OnceAt(rs, gone, DeleteSession)
  }

  lemma FetchedAmong(before: seq<Request>, between: seq<Request>, after: seq<Request>)
    requires FetchLog !in before && FetchLog !in between && FetchLog !in after
    requires DeleteSession !in before && DeleteSession !in between && DeleteSession !in after
    ensures FetchedAndGone(before + [FetchLog] + between + [DeleteSession] + after, |before|, |before| + 1 + |between|)
  {
    OnceAmong(before, FetchLog, between + [DeleteSession] + after);
    OnceAmong(before + [FetchLog] + between, DeleteSession, after);
    assert before + [FetchLog] + (between + [DeleteSession] + after) == before + [FetchLog] + between + [DeleteSession] + after;
  }

  /** The end of the stream, as it is awaited. */
  function Drained(end: Answer): seq<Request> {
    Also([StreamEnd], StreamJoin, end == Late)
  }

  /** What is awaited when the session is gone. */
  function Cleared(script: Script): seq<Request> {
    Also([], RemoveFile, TakesFile(script)) + [LastDelivery]
  }

  /** The log of a command that ended by itself is fetched after the stream's end and before the
      session is deleted, unless the stream brought it all. */
  lemma NaturalCourse(script: Script, answers: nat -> Answer, failed: bool)
    requires script.waited == Finished
    ensures var before := Stopped(script); var end := answers(|before|);
      Course(script, answers, failed)
      == before + Drained(end) + (if end == Good && !failed then [] else [FetchLog]) + [DeleteSession] + Cleared(script)
  {
  }

  /** The log of a command that is stopped is fetched before the session is deleted, and that is
      before the stream's end. */
  lemma HaltedCourse(script: Script, answers: nat -> Answer, failed: bool)
    requires script.waited.Halted?
    ensures var input := Also([], InputJoin, script.streamed && !script.inputEnds);
      Course(script, answers, failed)
      == Setup(script) + [FetchLog] + input + [DeleteSession] + (Drained(answers(|Stopped(script)|)) + Cleared(script))
  {
  }

  /** What follows the end of the stream. */
  function Remainder(script: Script, end: Answer, failed: bool): seq<Request> {
    var natural := script.waited == Finished;
    Also([], StreamJoin, end == Late) + Also([], FetchLog, natural && (end != Good || failed)) + Also([], DeleteSession, natural)
    + Cleared(script)
  }

  lemma CourseParts(script: Script, answers: nat -> Answer, failed: bool)
    ensures Course(script, answers, failed) == Stopped(script) + [StreamEnd] + Remainder(script, answers(|Stopped(script)|), failed)
  {
  }

  lemma StreamOnce(script: Script, answers: nat -> Answer, failed: bool)
    ensures OnceAt(Course(script, answers, failed), |Stopped(script)|, StreamEnd)
  {
    CourseParts(script, answers, failed);
    OnceAmong(Stopped(script), StreamEnd, Remainder(script, answers(|Stopped(script)|), failed));
  }

  lemma NaturalFetch(script: Script, answers: nat -> Answer, failed: bool)
    requires script.waited == Finished
    ensures var rs, before := Course(script, answers, failed), |Stopped(script)|;
      if answers(before) == Good && !failed then FetchLog !in rs
      else exists at: nat, gone: nat :: before < at && FetchedAndGone(rs, at, gone)
  {
    var before := Stopped(script);
    var drained := before + Drained(answers(|before|));
    NaturalCourse(script, answers, failed);
    if answers(|before|) != Good || failed {
      FetchedAmong(drained, [], Cleared(script));
      assert drained + [FetchLog] + [] == drained + [FetchLog];
      assert FetchedAndGone(Course(script, answers, failed), |drained|, |drained| + 1);
    }
  }

  lemma HaltedFetch(script: Script, answers: nat -> Answer, failed: bool)
    requires script.waited.Halted?
    ensures exists gone: nat :: FetchedAndGone(Course(script, answers, failed), |Setup(script)|, gone) && gone < |Stopped(script)|
  {
    var input := Also([], InputJoin, script.streamed && !script.inputEnds);
    HaltedCourse(script, answers, failed);
    FetchedAmong(Setup(script), input, Drained(answers(|Stopped(script)|)) + Cleared(script));
    assert FetchedAndGone(Course(script, answers, failed), |Setup(script)|, |Setup(script)| + 1 + |input|);
  }
}
