# Sandbox driver: a verified model of its protocols

The sandbox driver runs commands in sandboxes on a host, in Docker containers and on Daytona. Its
hardest code carries exact bytes over a lossy text channel and releases every resource it made,
although any call may fail and any task may be dropped. This project models that code in Dafny and
proves what it promises, for all inputs and all runs.

| module | what it models |
|---|---|
| `OutputCodec`, `OutputDecoder`, `OutputGrammar`, `EncodedExec`, `OutputTrip` | byte-exact output framing: the Bash encoder's `printf %q` records, the streaming decoder, the grammar of what it reads, and the whole trip |
| `Capture`, `LogMerge`, `SessionLogs` | bounded head/tail retention, the merge of the live log with the final log, and both streams of a session |
| `SessionEvents`, `SessionRun` | one session-backed command and everything it owns, dropped at any await or run to its end, and the course of requests behind every report |
| `StopProtocol`, `StopHeadway`, `StopAnswers`, `StdioHandle` | the wrapper, watcher, command and driver that meet in a stop file and a pid file, over every interleaving |
| `DockerWorld`, `DockerLifecycle`, `DockerSandboxes`, `DockerCreate` | a Docker daemon with failing calls, and create, abandon and delete on it |
| `HostRace` | the host's biased race of process, stop tokens, timeout, pumps and silence |
| `StreamedStdin`, `Utf8Pump`, `ShellWords`, `CivilDays` | streamed input records, UTF-8 hold-back, shell quoting through nested levels, timestamps |
| `TransitionRetry`, `FailedCreate`, `Leases` | lifecycle retries, cleanup confirmation, and the conformance harness's leases |
| `Bytes`, `TextLines` | shared sequence and line facts |

Calls into Daytona, Docker, the operating system and the Tokio scheduler are free choices: an
oracle, a parameter or an interleaving, over which every statement is quantified. Code that updates
its state in place is a class or a loop proved against a specification function; the two protocols
that live in interleavings (the stop files, the decoder's fragments) are state machines.

Results that are not what a reader of the source might expect, each with its exact condition:

- The decoder undoes an encoder that escapes a fixed set exactly when the set holds the backslash
  and the quote; the dollar sign plays no part (`OutputCodec.EscapeSetExact`).
- The windowed log merge appends exactly the missing bytes if and only if the final log reaches past
  the retained head or repeats the newest bytes (`LogMerge.WindowMergeExact`); any other final log is
  delivered again, in part or whole (`LogMerge.UnrecognisedRepeats`, `LogMerge.ShortFinalLogRepeats`).
- A stop takes effect unless a torn write left its file empty, with no request to come and the watcher
  still waiting, and in no other case (`StopHeadway.StopIsHonoured`); such a write can undo an
  earlier whole request (`StopHeadway.SecondRequestTearsFirst`).
- A kill is answered without a TERM on every run if and only if it is the only request: a second request,
  even another kill, can truncate the file between the watcher's two looks (`StopAnswers.TermExact`).
- A timestamp is read as the instant it names if and only if its zone offset is zero, or both the
  instant and the written columns are before 1970 (`CivilDays.OffsetExact`).
- A create whose network name is taken fails. On a working daemon the network that had the name is
  removed if and only if nothing is attached to it; otherwise it stays, and so does the new container
  (`DockerCreate.Create`).
- A sandbox with a stranger on its network can never be deleted, and without one always can, on a
  working daemon (`DockerSandboxes.Delete`).
- A kill or a timeout hides pumps that no earlier poll had found done: a failed read then gives a
  result, and delivered output is reported whole if and only if it was found so before
  (`HostRace.CompleteOutput`, `HostRace.KillOutranksPumps`).
- A session run dropped while it waits for its stream to close leaves the stream task running, and one
  dropped in the wait with input flowing leaves its input pump running, since a detached handle ends
  nothing; no other dropped run leaves a task (`SessionRun.Run.Execute`, with a run of each kind
  beside it).

## Model

| member | source | states |
|---|---|---|
| OutputCodec.RunDecodePlain | crates/sandbox-driver-daytona/src/encoded_exec.rs:129-142 | the loop computes the decoding of a plain body, errors included |
| OutputCodec.RunOctal | crates/sandbox-driver-daytona/src/encoded_exec.rs:166-178 | up to three octal digits are consumed, with their value |
| OutputCodec.RunDecodeAnsiC | crates/sandbox-driver-daytona/src/encoded_exec.rs:144-184 | the loop computes the decoding of an ANSI-C body, errors included |
| OutputCodec.RunDecodeQuoted | crates/sandbox-driver-daytona/src/encoded_exec.rs:106-118 | the three quoted forms are told apart as the specification says |
| OutputCodec.PlainRoundTrip | crates/sandbox-driver-daytona/src/encoded_exec.rs:129-142 | decoding undoes any backslash escaping that covers backslash and quote |
| OutputCodec.PlainAcceptsExactly | crates/sandbox-driver-daytona/src/encoded_exec.rs:120-142 | a plain body is accepted only if it is an escaping of what is returned, everything left bare being printable and no backslash |
| OutputCodec.AnsiRoundTrip | crates/sandbox-driver-daytona/src/encoded_exec.rs:144-184 | decoding undoes the ANSI-C escaping of every byte sequence |
| OutputCodec.QuotedRoundTrip | crates/sandbox-driver-daytona/src/encoded_exec.rs:100-184 | decoding undoes `printf %q` of every chunk |
| OutputCodec.EscapeSetExact | crates/sandbox-driver-daytona/src/encoded_exec.rs:100-184 | a fixed escape set is undone on every chunk if and only if it holds backslash and quote |
| OutputCodec.RecordSize | crates/sandbox-driver-daytona/src/encoded_exec.rs:24-69 | a record is one line of at most 4n + 5 bytes |
| OutputCodec.FrameBound | crates/sandbox-driver-daytona/src/encoded_exec.rs:24-42 | chunks of at most n bytes always fit a 512-byte frame if and only if n <= 126 |
| OutputDecoder.FragmentationIndependence | crates/sandbox-driver-daytona/src/encoded_exec.rs:250-299 | pushing x then y leaves the same state, losses and sink calls as pushing x + y |
| OutputDecoder.AnyFragmentation | crates/sandbox-driver-daytona/src/encoded_exec.rs:250-299 | the same for any cutting into fragments |
| OutputDecoder.RefinesLines | crates/sandbox-driver-daytona/src/encoded_exec.rs:250-306 | the streaming decoder equals split into lines and decode each, lines over 512 bytes included |
| OutputDecoder.LossConservation | crates/sandbox-driver-daytona/src/encoded_exec.rs:223-299 | bytes pushed = accepted + blank newlines + dropped + pending, at every point; frames count the unreadable lines |
| OutputDecoder.LossExact | crates/sandbox-driver-daytona/src/encoded_exec.rs:223-299 | dropped bytes are exactly those of the unreadable lines and of an unfinished line over the limit |
| OutputDecoder.FinishedLoss | crates/sandbox-driver-daytona/src/encoded_exec.rs:301-306 | the same after finishing; loss-free if and only if the text ends a line and every line is readable |
| OutputDecoder.NewlineResyncs | crates/sandbox-driver-daytona/src/encoded_exec.rs:255-299 | after any newline the decoder is clean |
| OutputDecoder.CorruptionIsLocal | crates/sandbox-driver-daytona/src/encoded_exec.rs:255-299 | replacing whole lines changes only what those lines deliver and how many frames and bytes they lose |
| OutputDecoder.RefusingSink | crates/sandbox-driver-daytona/src/encoded_exec.rs:235-299 | with any sink, deliveries are those of an accepting sink up to the first refusal |
| OutputDecoder.FeedKeepsBounded | crates/sandbox-driver-daytona/src/encoded_exec.rs:255-299 | pending never exceeds a frame and is empty while discarding |
| OutputGrammar.AnsiExact | crates/sandbox-driver-daytona/src/encoded_exec.rs:144-184 | an ANSI-C body is read if and only if it is spelled by proper tokens, every octal escape as long as it can be, and as what they mean |
| OutputGrammar.PlainExact | crates/sandbox-driver-daytona/src/encoded_exec.rs:129-142 | a plain body is read if and only if it is the bytes, each behind a backslash or bare and then printable and no backslash |
| OutputGrammar.QuotedExact | crates/sandbox-driver-daytona/src/encoded_exec.rs:106-118 | a body is read if and only if it is `''`, a closed `$'` string, or a plain form that does not begin like one |
| OutputGrammar.RecordExact | crates/sandbox-driver-daytona/src/encoded_exec.rs:92-184 | a line is a delivery of given bytes if and only if it has a stream tag and a quoted body of exactly those bytes; torn, unclosed, untagged and unknown forms are all refused |
| OutputGrammar.LineExact | crates/sandbox-driver-daytona/src/encoded_exec.rs:262-299 | the same for what the decoder makes of a line, with the limit of 512 bytes, and a newline alone is blank |
| EncodedExec.Encode | crates/sandbox-driver-daytona/src/encoded_exec.rs:28-69 | records carry exactly the input, each readable and within a frame, and everything read is out whenever input runs dry |
| EncodedExec.Write | crates/sandbox-driver-daytona/src/encoded_exec.rs:28-56 | one record carries one chunk |
| EncodedExec.WriteNul | crates/sandbox-driver-daytona/src/encoded_exec.rs:28-56 | one record carries one NUL |
| EncodedExec.ChunkRecordIsGood | crates/sandbox-driver-daytona/src/encoded_exec.rs:28-56 | a chunk's record reads back as the chunk on its stream |
| EncodedExec.NulRecordIsGood | crates/sandbox-driver-daytona/src/encoded_exec.rs:28-56 | a NUL's record reads back as a NUL on its stream |
| EncodedExec.InterleavedRecords | crates/sandbox-driver-daytona/src/encoded_exec.rs:57-69 | any interleaving of whole records keeps each stream's bytes in order |
| EncodedExec.EndToEnd | crates/sandbox-driver-daytona/src/encoded_exec.rs:24-306 | for all streams, interleavings and fragmentations, both streams arrive exactly, with no loss |
| EncodedExec.FramedOutput.constructor | crates/sandbox-driver-daytona/src/encoded_exec.rs:206-221 | starts clean and empty |
| EncodedExec.FramedOutput.Discard | crates/sandbox-driver-daytona/src/encoded_exec.rs:223-233 | counts one frame and its bytes |
| EncodedExec.FramedOutput.EmitTo | crates/sandbox-driver-daytona/src/encoded_exec.rs:235-248 | captures and delivers, refusals reported |
| EncodedExec.FramedOutput.ReadRecordLine | crates/sandbox-driver-daytona/src/encoded_exec.rs:278-296 | a complete line is emitted or discarded as the specification says |
| EncodedExec.FramedOutput.TakeSegment | crates/sandbox-driver-daytona/src/encoded_exec.rs:255-297 | one segment takes the state where the byte machine takes it |
| EncodedExec.FramedOutput.Push | crates/sandbox-driver-daytona/src/encoded_exec.rs:250-299 | one fragment takes the object's state where the byte machine takes it |
| EncodedExec.FramedOutput.FinishRun | crates/sandbox-driver-daytona/src/encoded_exec.rs:301-338 | an unfinished record is lost; any loss marks both captures truncated |
| OutputTrip.PushAll | crates/sandbox-driver-daytona/src/encoded_exec.rs:250-299 | pushing fragments one by one takes the object where the byte machine takes them all |
| OutputTrip.Carry | crates/sandbox-driver-daytona/src/encoded_exec.rs:24-338 | encoder, interleaving, transport, decoder and captures composed: exactly both outputs delivered, nothing lost or truncated, captures hold the head and tail of each |
| Capture.RetainsAllWithinCap | crates/sandbox-driver/src/capture.rs:26-63 | nothing is omitted if and only if the bytes fit, and then all are kept; otherwise the cap is used up, half of it for the head and the rest for the tail |
| Capture.LimitKeeps | crates/sandbox-driver/src/capture.rs:26-36 | a limit keeps that many bytes, and no limit none |
| Capture.HeadStep | crates/sandbox-driver/src/capture.rs:38-50 | the head takes exactly what it has room for |
| Capture.TailStep | crates/sandbox-driver/src/capture.rs:50-63 | one more byte rolls a full tail forward and counts one omitted |
| Capture.Roll | crates/sandbox-driver/src/capture.rs:50-63 | the loop leaves the tail and the count of all bytes so far |
| Capture.OutputCaptureBuffer.constructor | crates/sandbox-driver/src/capture.rs:26-36 | starts empty |
| Capture.OutputCaptureBuffer.Push | crates/sandbox-driver/src/capture.rs:38-63 | however bytes are cut, head and tail are a prefix and a suffix of all of them and retained + omitted = observed |
| LogMerge.FindOverlap | crates/sandbox-driver-daytona/src/session.rs:396-407 | finds the longest overlap |
| LogMerge.FindPlainOffset | crates/sandbox-driver-daytona/src/session.rs:390-407 | the offset past what was already seen |
| LogMerge.MissingSuffix | crates/sandbox-driver-daytona/src/session.rs:355-388 | what the window says is missing from the final log |
| LogMerge.Side.constructor | crates/sandbox-driver-daytona/src/exec.rs:771-783 | starts empty, with the minimum matching window |
| LogMerge.Side.Deliver | crates/sandbox-driver-daytona/src/exec.rs:788-812 | a live chunk goes to both captures and the sink |
| LogMerge.Side.AppendFinal | crates/sandbox-driver-daytona/src/exec.rs:816-857 | the missing bytes go to both captures, and to the sink unless it failed |
| LogMerge.BestOverlapIsLongest | crates/sandbox-driver-daytona/src/session.rs:396-407 | the overlap found is an overlap and no longer one exists |
| LogMerge.MergeCovers | crates/sandbox-driver-daytona/src/session.rs:355-407 | merging only appends; the result ends with the final log unless the stream is past it |
| LogMerge.MergeIsShortest | crates/sandbox-driver-daytona/src/session.rs:390-407 | no shorter extension ends with the final log |
| LogMerge.MergeIsIdempotent | crates/sandbox-driver-daytona/src/session.rs:355-407 | merging the same final log again appends nothing |
| LogMerge.WindowMergeExact | crates/sandbox-driver-daytona/src/session.rs:363-388 | through a truncated window the merge appends exactly the missing bytes if and only if the window recognises the final log |
| LogMerge.WindowMergeShortest | crates/sandbox-driver-daytona/src/session.rs:381-388 | a final log the window cannot place is joined where it overlaps the newest bytes at hand: what was seen then ends with it, and no extension with such an overlap is shorter |
| LogMerge.UnrecognisedRepeats | crates/sandbox-driver-daytona/src/session.rs:363-388 | a final log the window does not recognise lacks nothing, and at least its last byte is delivered again |
| LogMerge.ShortFinalLogRepeats | crates/sandbox-driver-daytona/src/session.rs:363-388 | at every window the program can have, some final log shorter than the head is delivered a second time, whole |
| LogMerge.RunCapturesLongerLog | crates/sandbox-driver-daytona/src/session.rs:345-388 | a final log at least as long as the head leaves captures of the longer of both logs |
| SessionLogs.SessionOutput.constructor | crates/sandbox-driver-daytona/src/exec.rs:771-783 | two empty sides and a sink that has not failed |
| SessionLogs.SessionOutput.Deliver | crates/sandbox-driver-daytona/src/exec.rs:788-812 | a live chunk goes to its own side only; the sink fails if and only if it refused a chunk with bytes in it |
| SessionLogs.SessionOutput.Follow | crates/sandbox-driver-daytona/src/exec.rs:672-710 | chunks are taken in order and offered one by one, all accepted but the last if that failed the sink, all of them otherwise; each side gets exactly its own bytes |
| SessionLogs.SessionOutput.Append | crates/sandbox-driver-daytona/src/exec.rs:816-857 | each side takes in what it missed of its final log; the sink has failed if and only if it had before or refused one of the two pieces |
| SessionLogs.SessionOutput.AppendSide | crates/sandbox-driver-daytona/src/exec.rs:816-857 | the same for one side |
| SessionRun.Run.constructor | crates/sandbox-driver-daytona/src/exec.rs:443-488 | a run starts owning nothing |
| SessionRun.Run.Await | crates/sandbox-driver-daytona/src/session.rs:147-166 | what is awaited is logged with the answer given, and the tally is the log's |
| SessionEvents.AuditMeans | crates/sandbox-driver-daytona/src/session.rs:147-166 | a run's log holds the server's own answers, and its tally counts them |
| SessionEvents.TallyGrounded | crates/sandbox-driver-daytona/src/session.rs:147-166 | a confirmed delete, a closed stream and a fetched log are good answers in the log, and conversely |
| SessionEvents.NaturalFetch | crates/sandbox-driver-daytona/src/exec.rs:584-598 | on the course of a command that ended by itself the log is fetched once, behind the stream's end and before the one deletion, unless the stream brought it all; then never |
| SessionEvents.HaltedFetch | crates/sandbox-driver-daytona/src/session.rs:312-340 | on the course of a command that is stopped the log is fetched once, before the one deletion, and that is before the stream's end |
| SessionRun.Run.CloseSession | crates/sandbox-driver-daytona/src/session.rs:147-166 | at most one delete request, whose answer is given back; only a good one confirms it; a drop meanwhile keeps the session held |
| SessionRun.Run.CloseStdin | crates/sandbox-driver-daytona/src/exec.rs:101-114 | one removal attempt; a drop meanwhile keeps the file held |
| SessionRun.Run.StopInput | crates/sandbox-driver-daytona/src/streamed_stdin.rs:117-122 | the pump is aborted before it is awaited |
| SessionRun.Run.StopStream | crates/sandbox-driver-daytona/src/exec.rs:731-736 | the stream task is aborted before it is awaited |
| SessionRun.Run.Drain | crates/sandbox-driver-daytona/src/exec.rs:714-727 | clean if and only if the wait for the stream was answered with success and the sink had not failed; a drop in that wait leaves the task, a drop after the abort does not |
| SessionRun.Run.AwaitStream | crates/sandbox-driver-daytona/src/exec.rs:714-721 | the task outlives the first wait if and only if the run is dropped in it |
| SessionRun.Run.JoinAborted | crates/sandbox-driver-daytona/src/exec.rs:721-725 | a drop while joining an aborted task leaves nothing |
| SessionRun.Run.Drop | crates/sandbox-driver-daytona/src/exec.rs:739-747 | what dropping the handles releases; the stream task survives if and only if the run was dropped in the drain before its abort, the input pump if and only if it was still running |
| SessionRun.Run.Abort | crates/sandbox-driver-daytona/src/exec.rs:559-565 | everything owned is released exactly once, the tasks ended first, then the session and the file |
| SessionRun.Run.Release | crates/sandbox-driver-daytona/src/exec.rs:598-605 | the session and the file are released, and the delete's own answer given back |
| SessionRun.Run.Upload | crates/sandbox-driver-daytona/src/exec.rs:80-97 | a file is held if and only if it was not too big and both calls for it were answered |
| SessionRun.Run.Create | crates/sandbox-driver-daytona/src/session.rs:49-68 | a session is held if and only if its creation was answered |
| SessionRun.Run.Launch | crates/sandbox-driver-daytona/src/session.rs:73-88 | started if and only if its four calls were answered, in their order; a session whose command does not start is closed |
| SessionRun.Run.Start | crates/sandbox-driver-daytona/src/exec.rs:460-532 | started if and only if everything that starting needs is granted, all of it asked for in order; otherwise failed with everything released, or dropped |
| SessionRun.Run.LaunchAndFollow | crates/sandbox-driver-daytona/src/exec.rs:490-532 | the command and the tasks around it are started if and only if every call was answered |
| SessionRun.Run.StartTasks | crates/sandbox-driver-daytona/src/exec.rs:512-532 | a task that cannot start aborts the run; a started run follows its stream, and pumps input if and only if that is streamed |
| SessionRun.Run.CannotStart | crates/sandbox-driver-daytona/src/exec.rs:512-532 | everything is released, or dropped with no input pump yet |
| SessionRun.Run.Wait | crates/sandbox-driver-daytona/src/exec.rs:537-554 | a failed poll or failed input aborts the run; a stop fetches the log first, and says so if and only if the fetch was answered; a drop leaves the input pump running if and only if input is still flowing |
| SessionRun.Run.EndCommand | crates/sandbox-driver-daytona/src/exec.rs:571-582 | a command that did not end by itself is stopped by a confirmed delete, or the run is incomplete |
| SessionRun.Run.DeleteFirst | crates/sandbox-driver-daytona/src/exec.rs:572-582 | the run goes on only if the delete was answered with success |
| SessionRun.Run.Collect | crates/sandbox-driver-daytona/src/exec.rs:583-597 | logs are reported if and only if a fetch was answered, and another is made only when the stream was not clean and the session is still open; what was awaited is the stream's end, and then the log if and only if a session still there has what the stream did not bring |
| SessionRun.Run.Settle | crates/sandbox-driver-daytona/src/exec.rs:571-611 | only a delete answered with success settles the run, and what was awaited till then is the course of a settled run |
| SessionRun.Run.UntilSettled | crates/sandbox-driver-daytona/src/exec.rs:537-611 | settled with a confirmed delete, or ended with everything released, or dropped |
| SessionRun.Run.Conclude | crates/sandbox-driver-daytona/src/exec.rs:412-663 | a run whose stream has brought what it will ends reported, incomplete, failed or dropped, with what each of them promises |
| SessionRun.Run.WriteUp | crates/sandbox-driver-daytona/src/exec.rs:627-663 | the captures hold the chunks taken with the final log merged behind them; the sink failed if and only if it refused the last chunk or a piece of the final log; truncated if and only if it failed or neither stream nor log was complete |
| SessionRun.Run.Execute | crates/sandbox-driver-daytona/src/exec.rs:412-663 | on every run that completes each session gets one delete request, each stdin file one removal and no task is left; a result needs a delete answered with success; clean, fetched, sink failure, truncation and captured bytes are what the answers and the sink made them; a dropped run asks for each release once or twice, leaves its stream task if and only if dropped in the drain before the abort, and its input pump if and only if dropped in the wait with input flowing; behind a report is exactly the course of waits of a reported run; a failure has a call of the start that was not granted, or a failed poll or input, as its reason, an incomplete run a delete that was not confirmed, and a dropped one a wait it was dropped in |
| SessionRun.ReportGrounded | crates/sandbox-driver-daytona/src/exec.rs:412-663 | behind every report the log holds a successful delete, a successful fetch if and only if logs are reported, and a stream that ended by itself and was not refused if and only if it is reported clean |
| SessionRun.ReportedCourse | crates/sandbox-driver-daytona/src/exec.rs:412-663 | every wait behind a report, in order, none of them dropped and each with the server's own answer |
| SessionRun.FinalLogFetched | crates/sandbox-driver-daytona/src/exec.rs:584-598 | behind every report the log was fetched while the session had it: of a command that ended by itself after the stream's end, if and only if that was not clean; of one that was stopped before the deletion; and logs are reported if and only if that fetch was answered |
| SessionRun.UndroppedEnds | crates/sandbox-driver-daytona/src/exec.rs:412-611 | when no wait is dropped, a run fails, is reported or is incomplete, each if and only if its own condition on the start, the wait and the delete holds |
| SessionRun.SideTakesLog | crates/sandbox-driver-daytona/src/session.rs:345-407 | a first part of the log merged with another first part is the longer of both, where the window matches |
| SessionRun.ReportedLog | crates/sandbox-driver-daytona/src/exec.rs:627-663 | without a sink failure the captures, and the sink, hold of each stream as much of its log as the stream brought or the fetched log holds, whichever is more |
| SessionRun.ReportedWhole | crates/sandbox-driver-daytona/src/exec.rs:627-663 | an untruncated report has captured, and its sink got, exactly the whole log of both streams, where a stream that closes by itself brought all of it and otherwise the fetched log is whole |
| SessionRun.DroppedWhileDraining | crates/sandbox-driver-daytona/src/exec.rs:714-727 | a run dropped while draining exists, and its stream task runs on |
| SessionRun.DroppedWhileJoining | crates/sandbox-driver-daytona/src/exec.rs:721-725 | a run dropped after its drain aborted the stream exists, and leaves nothing running |
| SessionRun.DroppedWhileWaiting | crates/sandbox-driver-daytona/src/streamed_stdin.rs:80-122 | a run dropped while waiting exists, and its input pump runs on |
| StopProtocol.WrapperKeeps | crates/sandbox-driver-docker/src/exec.rs:193-231 | every wrapper step keeps the protocol invariant |
| StopProtocol.WatcherKeeps | crates/sandbox-driver-docker/src/exec.rs:208-222 | every watcher step keeps it |
| StopProtocol.DriverKeeps | crates/sandbox-driver-docker/src/exec.rs:242-272 | every step of a stop request keeps it: truncate, then write, possibly to an unlinked file |
| StopProtocol.TearKeeps | crates/sandbox-driver-docker/src/exec.rs:242-272 | a write that fails after truncating keeps it too |
| StopProtocol.ChildKeeps | crates/sandbox-driver-docker/src/exec.rs:223-226 | every step of the command keeps it |
| StopProtocol.RunKeeps | crates/sandbox-driver-docker/src/exec.rs:178-280 | it holds over every run, in every interleaving |
| StopProtocol.SignalsAreALadder | crates/sandbox-driver-docker/src/exec.rs:178-232 | over every run TERM and KILL are each sent at most once, in that order, to the command and to no other pid; a wrapper that exited leaves no watcher and no unwaited command |
| StopProtocol.KillOnlyOnKill | crates/sandbox-driver-docker/src/exec.rs:200-221 | SIGKILL is sent, and status 137 chosen, only after the stop file held `kill` |
| StopProtocol.StopOnlyOnStop | crates/sandbox-driver-docker/src/exec.rs:200-221 | without a stop file no signal is sent and no start refused |
| StopAnswers.TermExact | crates/sandbox-driver-docker/src/exec.rs:207-221 | no run ever sends TERM if and only if the driver's only request, if any, is a kill: a second request can truncate a kill between the watcher's two looks |
| StopAnswers.KillAlone | crates/sandbox-driver-docker/src/exec.rs:207-221 | a kill as the only request is answered by SIGKILL alone, to the command |
| StopAnswers.KillRefusesStart | crates/sandbox-driver-docker/src/exec.rs:200-206 | a kill whole in the file when the wrapper looks, and the last request, ends the exec with 137 within a bounded number of rounds, the command never started |
| StopAnswers.ToolsExact | crates/sandbox-driver-docker/src/exec.rs:193-197 | an exec ends with 127 if and only if the wrapper's first turn finds its tools missing |
| StopAnswers.NothingLeft | crates/sandbox-driver-docker/src/exec.rs:200-231 | no control file is left by an exec when every request began before the wrapper removed the stop file |
| StopHeadway.RunHeadway | crates/sandbox-driver-docker/src/exec.rs:193-232 | a pending stop never loses ground, torn writes included, and gains it when the helpful party moves |
| StopHeadway.StopIsHonoured | crates/sandbox-driver-docker/src/exec.rs:178-280 | once a stop file appeared before the wrapper exited, within a bounded number of fair rounds of any steps, torn writes and failed requests included, the command never started, has ended or was signalled, if and only if the file was not left empty with no writer to come and the watcher still waiting |
| StopHeadway.WholeStopIsHonoured | crates/sandbox-driver-docker/src/exec.rs:178-280 | a stop written, or being written, always takes effect if no later write is torn |
| StopHeadway.TornStopIsLost | crates/sandbox-driver-docker/src/exec.rs:193-222 | a file left empty by a failed write, with no request to follow, is never acted on by a waiting watcher |
| StopHeadway.SecondRequestTearsFirst | crates/sandbox-driver-docker/src/exec.rs:242-272 | from the start of an exec there are turns in which a whole stop is in the file and a second request, failing after it truncated, loses both for good |
| StopHeadway.KillLands | crates/sandbox-driver-docker/src/exec.rs:185-222 | a kill, first or after an ignored term, ends the exec within a bounded number of rounds without torn writes, command dead and waited for |
| StopHeadway.EscalationEnds | crates/sandbox-driver-docker/src/exec.rs:486-514 | under a term-then-kill escalation a kill in the file ends the exec within 85 rounds |
| StdioHandle.Handle.constructor | crates/sandbox-driver-docker/src/exec.rs:444-467 | no stop requested yet |
| StdioHandle.Handle.Terminate | crates/sandbox-driver-docker/src/exec.rs:486-514 | over any number of calls, at most one term and then one kill, and nothing for a process seen ended |
| StdioHandle.Wait | crates/sandbox-driver-docker/src/exec.rs:520-549 | reports the first answer that ends the wait, and no earlier one would have; exited with a status if and only if the last answer used gave it |
| StdioHandle.VerdictWaits | crates/sandbox-driver-docker/src/exec.rs:520-549 | a process seen running, and an outage shorter than ten seconds, end nothing |
| StdioHandle.BackoffDoubles | crates/sandbox-driver-docker/src/exec.rs:533-549 | the pauses double from a tenth of a second to one second |
| StdioHandle.GivesUpInTime | crates/sandbox-driver-docker/src/exec.rs:533-548 | fourteen failures in a row always end the wait as unknown |
| StdioHandle.UnknownMeansOutage | crates/sandbox-driver-docker/src/exec.rs:533-545 | an unknown end means every inspection failed for the whole ten seconds |
| DockerWorld.WithoutTidy | crates/sandbox-driver-docker/src/sidecars.rs:231-253 | dependents may be removed at any time without orphaning anything |
| DockerWorld.WithoutPrimaryTidy | crates/sandbox-driver-docker/src/container.rs:161-176 | the sandbox's container may be removed once nothing depends on it |
| DockerWorld.WithContainerTidy | crates/sandbox-driver-docker/src/create.rs:125-133 | a labelled primary may be added at any time, a sidecar when its primary exists |
| DockerWorld.NetworksTidy | crates/sandbox-driver-docker/src/sidecars.rs:65-77 | a managed network needs a primary whose label names it |
| DockerWorld.FreeNameHasNoSidecars | crates/sandbox-driver-docker/src/create.rs:87-111 | a free sandbox name has no dependents anywhere |
| DockerWorld.OnePrimary | crates/sandbox-driver-docker/src/create.rs:87-111 | a label names at most one sandbox |
| DockerWorld.WithoutDependentsFit | crates/sandbox-driver-docker/src/sidecars.rs:231-253 | removing dependents puts no stranger on a network and changes no role |
| DockerWorld.WithoutUnneededFit | crates/sandbox-driver-docker/src/container.rs:161-176 | nor does removing a sandbox that nothing depends on |
| DockerWorld.AttachFit | crates/sandbox-driver-docker/src/create.rs:325-344 | nor does putting a container on the network it belongs to |
| DockerLifecycle.Daemon.constructor | crates/sandbox-driver-docker/src/provider.rs:256-262 | a restarted driver finds a world and knows nothing else |
| DockerLifecycle.Daemon.CreateContainer | crates/sandbox-driver-docker/src/create.rs:304-320 | a name in use is refused; a lost answer may still have created the container |
| DockerLifecycle.Daemon.RemoveContainer | crates/sandbox-driver-docker/src/container.rs:144-159 | success and not-found both mean gone |
| DockerLifecycle.Daemon.RemoveNetwork | crates/sandbox-driver-docker/src/sidecars.rs:281-286 | a network with containers on it stays, whatever happens |
| DockerLifecycle.Daemon.RemoveListed | crates/sandbox-driver-docker/src/sidecars.rs:236-252 | one listed container goes, or the sweep fails |
| DockerLifecycle.Daemon.RemoveAll | crates/sandbox-driver-docker/src/one_shot.rs:377-388 | removes exactly containers with the label; success means none is left |
| DockerLifecycle.Daemon.Leave | crates/sandbox-driver-docker/src/sidecars.rs:254-279 | takes the sandbox off the network if it is on it |
| DockerLifecycle.Daemon.Dissolve | crates/sandbox-driver-docker/src/sidecars.rs:254-286 | removes the network, never when somebody else is on it; with a working daemon if and only if nobody is |
| DockerLifecycle.Daemon.Sweep | crates/sandbox-driver-docker/src/sidecars.rs:231-286 | touches only the network and its sidecars; success means neither is left; never succeeds with somebody else on the network, and on a working daemon always does without |
| DockerSandboxes.RemoveSandbox | crates/sandbox-driver-docker/src/container.rs:166-176 | any failure keeps the primary while anything depends on it and the sandbox as deletable as it was; success clears everything and touches nothing else; no success with a stranger on the network |
| DockerSandboxes.RemoveLast | crates/sandbox-driver-docker/src/container.rs:144-176 | the primary goes last |
| DockerSandboxes.Delete | crates/sandbox-driver-docker/src/provider.rs:249-275 | no orphans at any step whatever fails; success clears the sandbox; foreign containers are left alone; never succeeds with a stranger on the network, always does on a working daemon without, and a failure keeps it deletable, at the end and between any two calls; it begins with an inspection, and one that is not answered changes nothing |
| DockerSandboxes.StrangerBlocks | crates/sandbox-driver-docker/src/sidecars.rs:281-286 | a world in which a stranger on the network makes deletion impossible |
| DockerSandboxes.PrivateIsDeletable | crates/sandbox-driver-docker/src/provider.rs:249-275 | a sandbox can be deleted if and only if only its own containers are on its network |
| DockerSandboxes.Recover | crates/sandbox-driver-docker/src/provider.rs:256-271 | deleting from a tidy world with a working daemon succeeds if and only if nobody else is on the network, and then removes everything the sandbox owns and nothing else |
| DockerSandboxes.RecoverFromCrash | crates/sandbox-driver-docker/src/provider.rs:256-271 | from the world left by a driver that dies after any call, a delete on a working daemon removes everything the sandbox owns and nothing else |
| DockerSandboxes.HistoryRecoverable | crates/sandbox-driver-docker/src/provider.rs:249-275 | between any two calls a container that is there is the labelled primary and deletable |
| DockerSandboxes.RetryDelete | crates/sandbox-driver-docker/src/provider.rs:249-275 | a delete under any failures, and another from the world between any two of its calls: everything goes |
| DockerSandboxes.Abandon | crates/sandbox-driver-docker/src/create.rs:381-405 | dependents go before the primary; with working calls nothing of the sandbox is left |
| DockerSandboxes.StartOne | crates/sandbox-driver-docker/src/sidecars.rs:95-144 | one sidecar is added on its network, nothing else changes; it succeeds if and only if its name is free and its image, container and start calls are all answered |
| DockerSandboxes.StartAll | crates/sandbox-driver-docker/src/sidecars.rs:89-152 | success means every sidecar has its container and was started, and every one with a check found healthy; whatever happens only sidecars are added |
| DockerSandboxes.AwaitHealth | crates/sandbox-driver-docker/src/sidecars.rs:154-179 | healthy if and only if the inspections end with a healthy one and all of them were answered |
| DockerSandboxes.AwaitAll | crates/sandbox-driver-docker/src/sidecars.rs:146-152 | succeeds if and only if every sidecar with a check becomes healthy and every inspection was answered |
| DockerSandboxes.EverySidecarSeen | crates/sandbox-driver-docker/src/sidecars.rs:89-152 | the calls of a realized network start every sidecar, and after the last start inspect each one with a check |
| DockerSandboxes.Realize | crates/sandbox-driver-docker/src/sidecars.rs:65-87 | it succeeds if and only if the network is new, the names are free, every check turns healthy and every call of its plan is answered; a failed start takes down only what it put up, and all of it where those calls work; a network already there is refused untouched |
| DockerSandboxes.MakeNetwork | crates/sandbox-driver-docker/src/sidecars.rs:65-77 | a network already there is refused untouched |
| DockerSandboxes.TakeDown | crates/sandbox-driver-docker/src/sidecars.rs:79-86 | what was put up is swept, and nothing else |
| DockerCreate.ConnectSidecars | crates/sandbox-driver-docker/src/create.rs:325-344 | success means the sandbox is on its network beside all its sidecars, and comes if and only if these can be realized and every call is answered |
| DockerCreate.SwitchNetwork | crates/sandbox-driver-docker/src/create.rs:330-344 | the sandbox joins its sidecars and nobody else does, once it has left its isolated network |
| DockerCreate.BringUp | crates/sandbox-driver-docker/src/create.rs:325-379 | success means ready and running, if and only if every call is answered and the container runs |
| DockerCreate.EverythingSeen | crates/sandbox-driver-docker/src/provider.rs:187-206 | the calls of a create start every sidecar and see its health before the sandbox changes networks, and start and inspect the sandbox last |
| DockerCreate.Create | crates/sandbox-driver-docker/src/provider.rs:164-211 | no orphans at any step whatever fails; what was there is kept but for an empty network with the same name; what is left, at the end and between any two calls, is the labelled primary and deletable; a failure on a working daemon, or whose cleanup works, restores the world; under any failures a create succeeds if and only if its names are free, its sidecars turn healthy, the container runs and every call of its plan is answered; a taken network fails the create, and on a working daemon it survives if and only if somebody is on it, the new primary then staying behind |
| DockerCreate.Admit | crates/sandbox-driver-docker/src/create.rs:304-320 | the container is created if and only if its name is free and the calls are answered |
| DockerCreate.Complete | crates/sandbox-driver-docker/src/provider.rs:187-206 | handed out ready and running, or given up with the world restored where cleanup works |
| DockerCreate.RetryCreate | crates/sandbox-driver-docker/src/provider.rs:164-275 | a create under any failures, and a delete on a working daemon from the world between any two of its calls: everything the create left goes |
| DockerCreate.EmptyNetworkLost | crates/sandbox-driver-docker/src/create.rs:384-405 | a world whose empty network of the same name a failed create removes |
| DockerCreate.OccupiedNetworkStays | crates/sandbox-driver-docker/src/create.rs:384-405 | a world whose occupied network of the same name stays, with the new container |
| DockerCreate.GiveUp | crates/sandbox-driver-docker/src/create.rs:384-405 | abandonment restores the world before the create, removes a taken empty network, and leaves a taken occupied one with the primary |
| HostRace.Race | crates/sandbox-driver-host/src/exec.rs:502-576 | each termination has its cause at the deciding poll, kill before timeout before term; a status is always collected; the pumps are reported as they are at that poll unless a kill or timeout outranked them; the drain gives up only on a whole silent grace and is extended at most once per chunk read after exit; an ended process with finished pumps is settled within two polls |
| HostRace.SilentPipeEnds | crates/sandbox-driver-host/src/exec.rs:543-568 | a pipe held open in silence ends the race: two graces after any poll that follows the exit, the term token's poll apart, with no chunk in between |
| HostRace.SilenceKept | crates/sandbox-driver-host/src/exec.rs:543-568 | no poll goes by at which such a silence is over |
| HostRace.TrackPrompt | crates/sandbox-driver-host/src/exec.rs:525-569 | an ended process with finished pumps, or one that cannot be waited for, is acted on within two polls, a failed pump within one |
| HostRace.Select | crates/sandbox-driver-host/src/exec.rs:525-569 | one poll goes on or ends soundly, in the fixed order of preference |
| HostRace.LookAtExit | crates/sandbox-driver-host/src/exec.rs:543-568 | the same for the exit and the silence deadline, which is armed again only when it has passed and a chunk has come since |
| HostRace.PumpFailureSound | crates/sandbox-driver-host/src/exec.rs:533-538 | a failed pump cancels the run, with a status |
| HostRace.StopSound | crates/sandbox-driver-host/src/exec.rs:277-296 | a kill or timeout has a status in either phase |
| HostRace.NaturalSound | crates/sandbox-driver-host/src/exec.rs:298-306 | a process that ended by itself is cancelled if and only if a term was sent |
| HostRace.Pump | crates/sandbox-driver-host/src/exec.rs:225-255 | delivered if and only if the pipe's end was reached with every chunk captured and accepted |
| HostRace.Joined | crates/sandbox-driver-host/src/exec.rs:403-424 | both pumps delivered, or the failure of one |
| HostRace.CompleteOutput | crates/sandbox-driver-host/src/exec.rs:436-450 | with neither kill nor timeout at the deciding poll, output is reported whole if and only if both pumps delivered, and there is no result if and only if a read failed; with one there always is a result, whole if and only if an earlier poll, not the one that went to the term token, had found both pumps delivered |
| HostRace.SeenDoneMeans | crates/sandbox-driver-host/src/exec.rs:525-542 | which polls count as having found both pumps delivered |
| HostRace.KillOutranksPumps | crates/sandbox-driver-host/src/exec.rs:527-541 | a kill seen with finished pumps hides them: a failed read gives a result, delivered output is reported cut |
| StreamedStdin.EscapeChunk | crates/sandbox-driver-daytona/src/streamed_stdin.rs:66-78 | the inner loop writes the escape of every byte |
| StreamedStdin.EncodeRecords | crates/sandbox-driver-daytona/src/streamed_stdin.rs:66-78 | appends the records of the bytes |
| StreamedStdin.Forward | crates/sandbox-driver-daytona/src/streamed_stdin.rs:125-159 | what is sent is a prefix of the whole stream, all of it unless a request is refused |
| StreamedStdin.EscapeRoundTrip | crates/sandbox-driver-daytona/src/streamed_stdin.rs:29-78 | `%b` undoes the escapes of every byte sequence |
| StreamedStdin.RecordsAreLines | crates/sandbox-driver-daytona/src/streamed_stdin.rs:46-78 | every record is one line within its bound |
| StreamedStdin.StreamIsLines | crates/sandbox-driver-daytona/src/streamed_stdin.rs:125-159 | the whole stream is lines |
| StreamedStdin.DecodeRecords | crates/sandbox-driver-daytona/src/streamed_stdin.rs:29-78 | the decoder gives back the bytes of the records and goes on behind them |
| StreamedStdin.DecodeStream | crates/sandbox-driver-daytona/src/streamed_stdin.rs:29-78 | the decoder gives back the whole stream and then end of file |
| StreamedStdin.StdinRoundTrip | crates/sandbox-driver-daytona/src/streamed_stdin.rs:29-159 | for every input and every split into reads the program gets exactly the input and then end of file |
| Utf8Pump.CompletePrefixExact | crates/sandbox-driver-daytona/src/stdio.rs:213-219 | the prefix is the longest valid one, refused if and only if no continuation could make the bytes valid |
| Utf8Pump.ValidFront | crates/sandbox-driver-daytona/src/stdio.rs:213-219 | a valid front may be taken off before scanning |
| Utf8Pump.HoldingIsLongest | crates/sandbox-driver-daytona/src/stdio.rs:158-203 | what was forwarded is the longest valid prefix of what was read, and valid input is forwarded whole |
| Utf8Pump.RefusedIsImpossible | crates/sandbox-driver-daytona/src/stdio.rs:158-203 | a read is refused if and only if the input can no longer become valid |
| Utf8Pump.Pump | crates/sandbox-driver-daytona/src/stdio.rs:158-203 | for every chunking the forwarded text is valid, a prefix, and the longest such one; at most three bytes are held back |
| Utf8Pump.PumpedText | crates/sandbox-driver-daytona/src/stdio.rs:158-203 | nothing beyond the longest valid prefix of the whole input is ever forwarded |
| ShellWords.ShellQuote | crates/sandbox-driver-daytona/src/shell.rs:5-17 | the loop writes the quoted value |
| ShellWords.ExecLine | crates/sandbox-driver-daytona/src/shell.rs:25-38 | the loops write exec, env and the quoted argument vector |
| ShellWords.LexQuote | crates/sandbox-driver-daytona/src/shell.rs:5-17 | shell word parsing undoes the quoting of every string |
| ShellWords.RenderReadsBack | crates/sandbox-driver-daytona/src/session.rs:199-215 | a command line assembled from separated pieces reads back as exactly those pieces |
| ShellWords.ExecLineTokens | crates/sandbox-driver-daytona/src/shell.rs:19-38 | splitting the exec line gives exec, env, each KEY=VALUE, the program and the arguments, for all strings |
| ShellWords.SessionWrapperTokens | crates/sandbox-driver-daytona/src/session.rs:213-215 | Bash gets the whole script as one argument |
| ShellWords.SessionScriptTokens | crates/sandbox-driver-daytona/src/session.rs:199-211 | the script enters exactly the directory and runs exactly the words of an exec line |
| ShellWords.SessionScriptAround | crates/sandbox-driver-daytona/src/session.rs:199-211 | the same for any command made of separated pieces |
| ShellWords.RedirectedScriptTokens | crates/sandbox-driver-daytona/src/exec.rs:480-486 | with fixed input the words are followed by a redirection from exactly the file |
| ShellWords.DockerShellTokens | crates/sandbox-driver-docker/src/access.rs:23-30 | both levels of the Docker command line read back exactly |
| CivilDays.MarchDaysPlain | crates/sandbox-driver-daytona/src/fs.rs:351-357 | the era arithmetic counts the leap days of the Gregorian rule |
| CivilDays.NextDayCounts | crates/sandbox-driver-daytona/src/fs.rs:350-357 | one calendar day is one day of the closed form, in every year |
| CivilDays.AdvanceCounts | crates/sandbox-driver-daytona/src/fs.rs:350-357 | n calendar days are n days of the closed form |
| CivilDays.DaysAreMonotone | crates/sandbox-driver-daytona/src/fs.rs:350-357 | the closed form orders dates as the calendar does |
| CivilDays.DaysAreSteps | crates/sandbox-driver-daytona/src/fs.rs:350-357 | for every date the closed form is the number of single-day steps to or from 1970-01-01 |
| CivilDays.SecondsAreMonotone | crates/sandbox-driver-daytona/src/fs.rs:350-358 | epoch seconds order UTC timestamps |
| CivilDays.TimestampParses | crates/sandbox-driver-daytona/src/fs.rs:341-359 | every well-formed timestamp, leap seconds included, parses to its columns' epoch seconds, or to nothing before 1970 |
| CivilDays.OffsetExact | crates/sandbox-driver-daytona/src/fs.rs:341-359 | for every timestamp with its fraction and zone, the result is the named instant if and only if the offset is zero or both instant and columns are before 1970 |
| CivilDays.EastIsMisread | crates/sandbox-driver-daytona/src/fs.rs:341-359 | 1970-01-01T05:00:00+05:00 names second 0 and is read as 18000 |
| CivilDays.WestIsRefused | crates/sandbox-driver-daytona/src/fs.rs:341-359 | 1969-12-31T23:30:00-01:00 names second 1800 and is not read |
| TransitionRetry.WaitForState | crates/sandbox-driver-daytona/src/sandbox.rs:260-287 | ends in a settled or stable state, after the budget, or with a look that failed |
| TransitionRetry.RetryPause | crates/sandbox-driver-daytona/src/sandbox.rs:291-301 | pauses at least one poll, within the budget |
| TransitionRetry.Attempt | crates/sandbox-driver-daytona/src/sandbox.rs:323-335 | one call, and all that must happen before the next |
| TransitionRetry.RetryThroughTransition | crates/sandbox-driver-daytona/src/sandbox.rs:312-336 | success comes if and only if a call was accepted or a settled state seen, failure if and only if a call was denied or a look failed; a call is repeated only after an in-progress rejection and a stable, unsettled state; calls and observations are bounded by the budget |
| TransitionRetry.GoalSeen | crates/sandbox-driver-daytona/src/sandbox.rs:338-408 | which observed states are the goal of starting, stopping and deleting: seeing one is success, and seeing another last is not |
| TransitionRetry.Start | crates/sandbox-driver-daytona/src/sandbox.rs:338-358 | a running sandbox needs no call; success and failure have the reasons above and no other |
| FailedCreate.RequestDelete | crates/sandbox-driver-daytona/src/cleanup.rs:18-28 | a delete is sent, and repeated only while it is turned away |
| FailedCreate.ConfirmAbsence | crates/sandbox-driver-daytona/src/cleanup.rs:29-38 | confirmed if and only if absence was seen; looks go on while the sandbox is there and the budget lasts |
| FailedCreate.CleanUp | crates/sandbox-driver-daytona/src/cleanup.rs:40-76 | the cause is returned unchanged if and only if absence was seen, and otherwise kept with the sandbox id; at most one request can have deleted anything; requests come in order, a delete first and looks behind an admitted one, and stop only when absence was seen, an answer said nothing or the budget is spent |
| Leases.Harness.constructor | crates/sandbox-driver-conformance/src/lib.rs:132-143 | starts with no leases |
| Leases.Harness.Lease | crates/sandbox-driver-conformance/src/lib.rs:269-274 | leases once |
| Leases.Harness.DeleteLeased | crates/sandbox-driver-conformance/src/lib.rs:278-293 | the lease ends only after the delete was answered |
| Leases.Harness.GetReady | crates/sandbox-driver-conformance/src/lib.rs:211-222 | a sandbox is leased from the moment it exists, whatever happens next |
| Leases.Harness.Perform | crates/sandbox-driver-conformance/src/lib.rs:162-174 | any check body, dropped at any await, keeps every lease accounted for; the verdict is that of the check's events, and a check that passes has performed all of its actions |
| Leases.Harness.WithSandbox | crates/sandbox-driver-conformance/src/lib.rs:232-254 | the same for a body with a sandbox of its own |
| Leases.Harness.ReapLeases | crates/sandbox-driver-conformance/src/lib.rs:298-313 | every sandbox ever leased has had a delete attempted and no lease is left |
| Leases.Harness.RunCheck | crates/sandbox-driver-conformance/src/lib.rs:162-175 | a check starts and ends without leases; its verdict is that of what it did |
| Leases.VerdictMeans | crates/sandbox-driver-conformance/src/lib.rs:164-174 | dropped is over budget, else a failed await other than a cleanup is a failure, else a skip is a skip, else the check has passed |
| Leases.Harness.RunChecks | crates/sandbox-driver-conformance/src/lib.rs:156-180 | one result for each included check, in order; the lease set is empty between checks and every sandbox made for a check has had a delete attempted; every verdict is that of its check's events |

## Left out

- Output sanitization: the captures and sinks get raw bytes.
- Counter widths: dropped frames, dropped bytes, observed and omitted bytes are unbounded here and 64-bit in the program.
- Final logs as JSON or marker text (`parse_logs`): the merge starts from the two decoded streams.
- Timestamps with non-ASCII text: columns are characters here and bytes in the program, which gives up on a split character.
- `%b` and `printf %q` beyond the escapes these records use, and the rest of Bash.
- SessionRun.Run.Execute: the status poll is one free choice, so the order in which it notices exit, deadline and stop is not modelled; a session created by a request whose answer was lost is not counted.
- StopHeadway.KillLands: torn writes are excluded from its rounds; what one can lose is the stop's own case.
- ShellWords.SessionScriptTokens: the command line of streamed input, with its decoder function and process substitution, is not read as words.
- StopHeadway.StopIsHonoured: pids that are used again after a wait and other members of the command's process group are not modelled.
- DockerSandboxes.RetryDelete: nobody joins the sandbox's network while a driver works on it.
- DockerCreate.RetryCreate: for a network that no stranger had joined; a taken one is `DockerCreate.Create`'s own case.
- DockerLifecycle.Daemon.Sweep: parties other than the driver act only through calls found already done; two drivers deleting one sandbox at the same time are not interleaved.
- DockerCreate.Create: plan validation, mounts and container options are not modelled; having the sandbox's image, pulled or not, is one call.
- DockerSandboxes.AwaitHealth: the deadline of a health wait is one of the things an inspection may find, and the log excerpt of a failure is not fetched.
- HostRace.Race: signalling the process group and the stop grace around the race are not modelled.
- Leases.Harness.RunChecks: the reasons of a verdict are not kept; sandboxes that a check creates without a lease, to judge their deletion itself, are not modelled.
- TransitionRetry.RetryThroughTransition: the bounded delete's own timeout is an answer that never comes.
- `wait` and `terminate` of the host's stdio handle, PTY sessions, previews, volumes, git, JSON-RPC, CLI and tables: thin delegation or I/O.
