/** A host command raced against its stop tokens, its timeout and its output pumps. The loop
    polls everything in a fixed order of preference and acts on the first thing that is ready. */
module HostRace {
  import opened Bytes
  import opened Capture

  datatype PumpEnd = Delivered | SinkFailed | ReadFailed

  datatype Exit = NotYet | Status(code: int) | WaitFailed

  /** What one poll finds: the clock, the stop tokens, whether both pumps have finished, whether
      the process has ended, and how many chunks the pumps have read so far. */
  datatype Poll = Poll(now: nat, killed: bool, termed: bool, pumps: Option<PumpEnd>, exit: Exit, chunks: nat)

  datatype Termination = Exited | TimedOut | Cancelled | Killed

  datatype Outcome =
    | Ended(termination: Termination, status: int, pumps: Option<PumpEnd>, at: nat)
    | WaitError(at: nat)
    | StillRacing

  datatype Phase = Running | Draining(status: int, seen: nat)

  /** Time and counters do not go back, tokens stay cancelled, and what has ended stays so. */
  predicate Follows(p: Poll, q: Poll) {
    && p.now <= q.now && p.chunks <= q.chunks
    && (p.killed ==> q.killed)
    && (p.termed ==> q.termed)
    && (p.pumps.Some? ==> q.pumps == p.pumps)
    && (!p.exit.NotYet? ==> q.exit == p.exit)
  }

  predicate Monotone(polls: seq<Poll>) {
    forall i, j {:trigger Follows(polls[i], polls[j])} :: 0 <= i <= j < |polls| ==> Follows(polls[i], polls[j])
  }

  predicate TimeUp(timeout: Option<nat>, p: Poll) {
    timeout.Some? && p.now >= timeout.value
  }

  /** From some poll after the exit, a whole grace passed without a chunk. */
  ghost predicate SilentSince(polls: seq<Poll>, grace: nat, exitAt: nat, at: nat)
    requires exitAt <= at < |polls|
  {
    exists a :: exitAt <= a < at && polls[at].now >= polls[a].now + grace && polls[at].chunks == polls[a].chunks
  }

  function NaturalTermination(termFired: bool): Termination {
    if termFired then Cancelled else Exited
  }

  /** The status after a stop: already known while draining, collected after the kill otherwise. */
  function Stopped(phase: Phase, reaped: Option<int>, termination: Termination, pumps: Option<PumpEnd>, at: nat): Outcome {
    match phase
    case Draining(status, _) => Ended(termination, status, pumps, at)
    case Running => if reaped.Some? then Ended(termination, reaped.value, pumps, at) else WaitError(at)
  }

  predicate PumpFailed(pumps: Option<PumpEnd>) {
    pumps.Some? && pumps.value != Delivered
  }

  /** The process ended with this status at poll `e`, and its output was delivered or fell
      silent. */
  ghost predicate SawExit(polls: seq<Poll>, grace: nat, r: Outcome, e: Option<nat>)
    requires r.Ended? && r.at < |polls|
  {
    && !PumpFailed(r.pumps)
    && e.Some? && e.value <= r.at && polls[e.value].exit == Status(r.status)
    && (r.pumps == Some(Delivered) || SilentSince(polls, grace, e.value, r.at))
  }

  /** The reasons for each way to end. */
  ghost predicate Justified(polls: seq<Poll>, timeout: Option<nat>, grace: nat, r: Outcome, e: Option<nat>)
    requires r.Ended? && r.at < |polls|
  {
    var p := polls[r.at];
    match r.termination
    case Killed => p.killed
    case TimedOut => TimeUp(timeout, p) && !p.killed
    case Exited => !p.killed && !TimeUp(timeout, p) && !p.termed && SawExit(polls, grace, r, e)
    case Cancelled => !p.killed && !TimeUp(timeout, p) && (PumpFailed(r.pumps) || (p.termed && SawExit(polls, grace, r, e)))
  }

  /** Nothing that would have ended the race at once was seen before poll `k`. */
  ghost predicate Undecided(polls: seq<Poll>, timeout: Option<nat>, k: nat)
    requires k <= |polls|
  {
    forall i :: 0 <= i < k ==> !polls[i].killed && !TimeUp(timeout, polls[i])
  }

  /** The polls that went to the term token and to the pumps: at most one each. */
  function Turns(termFired: bool, pumps: Option<PumpEnd>): nat {
    (if termFired then 1 else 0) + (if pumps.Some? then 1 else 0)
  }

  /** The loop's variables. */
  datatype Track = Track(phase: Phase, termFired: bool, pumps: Option<PumpEnd>, deadline: nat, exitAt: Option<nat>, rearms: nat)

  /** The polls that armed the deadline, last and before that, and had the term token and the pumps
      ready. */
  datatype Marks = Marks(armed: nat, before: nat, termAt: nat, pumpsAt: nat)

  /** The term token and the pumps after `k` polls. */
  ghost predicate Tracked(polls: seq<Poll>, k: nat, t: Track, g: Marks)
    requires k <= |polls|
  {
    && (t.termFired ==> g.termAt < k && polls[g.termAt].termed)
    && (t.pumps.Some? ==> t.pumps.value == Delivered && g.pumpsAt < k && polls[g.pumpsAt].pumps == t.pumps)
    && (t.pumps.None? ==> forall i :: 0 <= i < k - Turns(t.termFired, t.pumps) ==> polls[i].pumps.None?)
  }

  ghost predicate PhaseOk(polls: seq<Poll>, k: nat, grace: nat, t: Track, g: Marks)
    requires k <= |polls|
  {
    match t.phase
    case Running => t.exitAt.None? && t.rearms == 0 && forall i :: 0 <= i < k - Turns(t.termFired, t.pumps) ==> polls[i].exit.NotYet?
    case Draining(status, seen) =>
      && t.pumps.None?
      && t.exitAt.Some? && t.exitAt.value <= g.armed < k
      && polls[t.exitAt.value].exit == Status(status)
      && seen == polls[g.armed].chunks
      && t.deadline == polls[g.armed].now + grace
      && polls[t.exitAt.value].chunks + t.rearms <= seen
  }

  /** The poll that goes to the term token: the first at which it is ready. */
  predicate FirstTermed(polls: seq<Poll>, i: nat)
    requires i < |polls|
  {
    polls[i].termed && (i == 0 || !polls[i - 1].termed)
  }

  /** Among the first `k` polls one found both pumps delivered and did not go to the term token. */
  predicate SeenDone(polls: seq<Poll>, k: nat)
    requires k <= |polls|
  {
    k > 0 && (SeenDone(polls, k - 1) || (polls[k - 1].pumps == Some(Delivered) && !FirstTermed(polls, k - 1)))
  }

  /** The silence deadline after `k` polls: no poll but the one that went to the term token has found
      it passed since it was armed; and it was armed where the exit was seen, at once, or where the
      one before it had passed and a chunk had come meanwhile. */
  ghost predicate Watched(polls: seq<Poll>, k: nat, grace: nat, t: Track, g: Marks)
    requires k <= |polls| && PhaseOk(polls, k, grace, t, g)
  {
    t.phase.Draining? ==>
      && NonePast(polls, g.armed, k, t.deadline)
      && (forall i :: 0 <= i < t.exitAt.value - 1 ==> polls[i].exit.NotYet?)
      && (if t.rearms == 0 then g.armed == t.exitAt.value
          else g.before < g.armed && polls[g.before].chunks != polls[g.armed].chunks
               && NonePast(polls, g.before, g.armed, polls[g.before].now + grace))
  }

  ghost predicate NonePast(polls: seq<Poll>, a: nat, k: nat, deadline: nat)
    requires k <= |polls|
  {
    forall m :: a < m < k && !FirstTermed(polls, m) ==> polls[m].now < deadline
  }

  /** From a poll at which the process has ended, two graces pass without a chunk or the pumps' end. */
  predicate Silence(polls: seq<Poll>, grace: nat, i: nat, j: nat, l: nat)
    requires i < j < l < |polls|
  {
    && polls[i].exit.Status? && polls[l].pumps.None? && polls[i].chunks == polls[l].chunks
    && polls[j].now >= polls[i].now + grace && polls[l].now >= polls[j].now + grace
    && !FirstTermed(polls, j) && !FirstTermed(polls, l)
  }

  ghost predicate NoSilence(polls: seq<Poll>, grace: nat, k: nat)
    requires k <= |polls|
  {
    forall i: nat, j: nat, l: nat :: i < j < l < k ==> !Silence(polls, grace, i, j, l)
  }

  /** A silence that ended at poll `k` would have ended the race there. */
  lemma SilenceKept(polls: seq<Poll>, grace: nat, k: nat, t: Track, g: Marks)
    requires Monotone(polls) && k < |polls| && Tracked(polls, k + 1, t, g)
    requires PhaseOk(polls, k + 1, grace, t, g) && Watched(polls, k + 1, grace, t, g) && NoSilence(polls, grace, k)
    ensures NoSilence(polls, grace, k + 1)
  {
    forall i: nat, j: nat | i < j < k ensures !Silence(polls, grace, i, j, k) {
      SilenceEnds(polls, grace, k, t, g, i, j);
    }
  }

  lemma SilenceEnds(polls: seq<Poll>, grace: nat, k: nat, t: Track, g: Marks, i: nat, j: nat)
    requires Monotone(polls) && k < |polls| && Tracked(polls, k + 1, t, g)
    requires PhaseOk(polls, k + 1, grace, t, g) && Watched(polls, k + 1, grace, t, g)
    requires i < j < k
    ensures !Silence(polls, grace, i, j, k)
  {
    assert Follows(polls[i], polls[j]) && Follows(polls[j], polls[k]);
    if t.phase.Running? {
      assert t.pumps.Some? ==> Follows(polls[g.pumpsAt], polls[k]);
    } else {
      ArmedLater(polls, grace, k, t, g, i, j);
    }
  }

  /** Nothing came since poll `i`, so the deadline was not armed again since `j`; but it was. */
  lemma ArmedLater(polls: seq<Poll>, grace: nat, k: nat, t: Track, g: Marks, i: nat, j: nat)
    requires Monotone(polls) && k < |polls| && t.phase.Draining?
    requires PhaseOk(polls, k + 1, grace, t, g) && Watched(polls, k + 1, grace, t, g)
    requires i < j < k
    ensures !Silence(polls, grace, i, j, k)
  {
    var a, b := g.armed, g.before;
    assert Follows(polls[i], polls[k]);
    if a <= j {
      assert Follows(polls[a], polls[j]);
    } else {
      assert Follows(polls[i], polls[a]) && Follows(polls[a], polls[k]);
      if t.rearms > 0 {
        if b < i {
          assert Follows(polls[b], polls[i]);
        } else {
          assert Follows(polls[i], polls[b]) && Follows(polls[b], polls[a]);
        }
      }
    }
  }

  /** The loop's invariant after `k` polls. */
  ghost predicate OnTrack(polls: seq<Poll>, timeout: Option<nat>, grace: nat, k: nat, t: Track, g: Marks)
    requires k <= |polls|
  {
    && Undecided(polls, timeout, k) && Tracked(polls, k, t, g) && PhaseOk(polls, k, grace, t, g)
    && (t.termFired <==> k > 0 && polls[k - 1].termed)
    && (t.pumps.Some? <==> SeenDone(polls, k))
    && Watched(polls, k, grace, t, g) && NoSilence(polls, grace, k)
  }

  /** How the pumps are reported. An end of the command's own, or of its output, reports them as
      they are; a kill or a timeout as they were seen at the polls before it. */
  ghost predicate Reported(polls: seq<Poll>, termination: Termination, pumps: Option<PumpEnd>, at: nat)
    requires at < |polls|
  {
    match termination
    case Exited => pumps == polls[at].pumps
    case Cancelled => pumps == polls[at].pumps
    case _ =>
      pumps == if SeenDone(polls, at) then Some(Delivered) else None
  }

  /** What `k` polls without an end come to: once the process has ended and both pumps are done, or it
      could not be waited for, at most two polls go by, and once a pump has failed at most one. */
  ghost predicate Prompt(polls: seq<Poll>, k: nat)
    requires k <= |polls|
  {
    && (forall i :: 0 <= i < k - 2 ==> polls[i].pumps.None? || polls[i].exit.NotYet?)
    && (forall i :: 0 <= i < k - 2 ==> !polls[i].exit.WaitFailed?)
    && (forall i :: 0 <= i < k - 1 ==> !PumpFailed(polls[i].pumps))
  }

  /** What a race may report. */
  ghost predicate Sound(polls: seq<Poll>, timeout: Option<nat>, grace: nat, reaped: Option<int>, r: Outcome, exitAt: Option<nat>) {
    match r
    case Ended(termination, status, pumps, at) =>
      && at < |polls|
      && Undecided(polls, timeout, at) && Prompt(polls, at) && NoSilence(polls, grace, at)
      && Justified(polls, timeout, grace, r, exitAt)
      && (exitAt.Some? ==> exitAt.value <= at && polls[exitAt.value].exit == Status(status))
      && (exitAt.None? ==> reaped == Some(status))
      && Reported(polls, termination, pumps, at)
    case WaitError(at) =>
      && at < |polls|
      && Undecided(polls, timeout, at) && Prompt(polls, at) && NoSilence(polls, grace, at)
      && var p := polls[at];
         if p.killed || TimeUp(timeout, p) || PumpFailed(p.pumps) then reaped.None? && exitAt.None? else p.exit.WaitFailed?
    case StillRacing => Undecided(polls, timeout, |polls|) && Prompt(polls, |polls|) && NoSilence(polls, grace, |polls|)
  }

  /** Neither the kill token nor the timeout is ready, and the term token is not news. */
  predicate Quiet(timeout: Option<nat>, p: Poll, t: Track) {
    !p.killed && !TimeUp(timeout, p) && (p.termed ==> t.termFired)
  }

  lemma TrackPrompt(polls: seq<Poll>, timeout: Option<nat>, grace: nat, k: nat, t: Track, g: Marks)
    requires Monotone(polls) && k <= |polls| && OnTrack(polls, timeout, grace, k, t, g)
    ensures Prompt(polls, k)
  {
    forall i | 0 <= i < k - 1 ensures !PumpFailed(polls[i].pumps) {
      if t.pumps.Some? {
        assert if i <= g.pumpsAt then Follows(polls[i], polls[g.pumpsAt]) else Follows(polls[g.pumpsAt], polls[i]);
      }
    }
    forall i | 0 <= i < k - 2 ensures !polls[i].exit.WaitFailed? && (polls[i].pumps.None? || polls[i].exit.NotYet?) {
      if t.phase.Draining? {
        var e := t.exitAt.value;
        assert if i <= e then Follows(polls[i], polls[e]) else Follows(polls[e], polls[i]);
      }
    }
  }

  /** A process that cannot be waited for. */
  lemma WaitFailedSound(polls: seq<Poll>, timeout: Option<nat>, grace: nat, reaped: Option<int>, k: nat, t: Track, g: Marks)
    requires Monotone(polls) && k < |polls| && OnTrack(polls, timeout, grace, k, t, g) && Quiet(timeout, polls[k], t)
    requires (t.pumps.None? ==> polls[k].pumps.None?) && polls[k].exit.WaitFailed?
    ensures Sound(polls, timeout, grace, reaped, WaitError(k), t.exitAt)
  {
    TrackPrompt(polls, timeout, grace, k, t, g);
    assert t.pumps.Some? ==> Follows(polls[g.pumpsAt], polls[k]);
  }

  /** A kill or a timeout is sound whatever the phase: the status is known or collected. */
  lemma StopSound(polls: seq<Poll>, timeout: Option<nat>, grace: nat, reaped: Option<int>, k: nat, t: Track, g: Marks, termination: Termination)
    requires Monotone(polls) && k < |polls| && OnTrack(polls, timeout, grace, k, t, g)
    requires (termination == Killed && polls[k].killed) || (termination == TimedOut && TimeUp(timeout, polls[k]) && !polls[k].killed)
    ensures Sound(polls, timeout, grace, reaped, Stopped(t.phase, reaped, termination, t.pumps, k), t.exitAt)
  {
    TrackPrompt(polls, timeout, grace, k, t, g);
    assert t.pumps.Some? ==> Follows(polls[g.pumpsAt], polls[k - 1]) && Follows(polls[g.pumpsAt], polls[k]);
  }

  /** A failed pump ends the race as cancelled. */
  lemma PumpFailureSound(polls: seq<Poll>, timeout: Option<nat>, grace: nat, reaped: Option<int>, k: nat, t: Track, g: Marks)
    requires Monotone(polls) && k < |polls| && OnTrack(polls, timeout, grace, k, t, g) && Quiet(timeout, polls[k], t)
    requires t.pumps.None? && PumpFailed(polls[k].pumps)
    ensures Sound(polls, timeout, grace, reaped, Stopped(t.phase, reaped, Cancelled, polls[k].pumps, k), t.exitAt)
  {
    TrackPrompt(polls, timeout, grace, k, t, g);
  }

  /** A natural end is sound once the exit was seen and the output delivered or silent; it is
      cancelled if and only if a term was sent. */
  lemma NaturalSound(polls: seq<Poll>, timeout: Option<nat>, grace: nat, reaped: Option<int>, k: nat, t: Track, g: Marks, status: int, exitAt: nat)
    requires Monotone(polls) && k < |polls| && OnTrack(polls, timeout, grace, k, t, g) && Quiet(timeout, polls[k], t)
    requires exitAt <= k && polls[exitAt].exit == Status(status)
    requires polls[k].pumps == Some(Delivered) || (polls[k].pumps.None? && SilentSince(polls, grace, exitAt, k))
    ensures Sound(polls, timeout, grace, reaped, Ended(NaturalTermination(t.termFired), status, polls[k].pumps, k), Some(exitAt))
    ensures t.termFired <==> polls[k].termed
  {
    TrackPrompt(polls, timeout, grace, k, t, g);
    assert t.termFired ==> Follows(polls[g.termAt], polls[k]);
  }

  // What each kind of poll does to the loop's variables.

  lemma TermTurn(polls: seq<Poll>, timeout: Option<nat>, grace: nat, k: nat, t: Track, g: Marks)
    requires Monotone(polls) && k < |polls| && OnTrack(polls, timeout, grace, k, t, g)
    requires !polls[k].killed && !TimeUp(timeout, polls[k]) && polls[k].termed && !t.termFired
    ensures OnTrack(polls, timeout, grace, k + 1, t.(termFired := true), g.(termAt := k))
  {
    SilenceKept(polls, grace, k, t.(termFired := true), g.(termAt := k));
  }

  lemma PumpsTurn(polls: seq<Poll>, timeout: Option<nat>, grace: nat, k: nat, t: Track, g: Marks)
    requires Monotone(polls) && k < |polls| && OnTrack(polls, timeout, grace, k, t, g) && Quiet(timeout, polls[k], t)
    requires t.phase.Running? && t.pumps.None? && polls[k].pumps == Some(Delivered)
    ensures OnTrack(polls, timeout, grace, k + 1, t.(pumps := polls[k].pumps), g.(pumpsAt := k))
  {
    assert k > 0 ==> Follows(polls[k - 1], polls[k]);
    SilenceKept(polls, grace, k, t.(pumps := polls[k].pumps), g.(pumpsAt := k));
  }

  /** A poll at which the pumps are not ready leaves what is known of them. */
  lemma IdleTracked(polls: seq<Poll>, k: nat, t: Track, g: Marks)
    requires Monotone(polls) && k < |polls| && Tracked(polls, k, t, g)
    requires t.pumps.None? ==> polls[k].pumps.None?
    ensures Tracked(polls, k + 1, t, g)
  {
    var i := k - Turns(t.termFired, t.pumps);
    assert 0 <= i ==> Follows(polls[i], polls[k]);
  }

  lemma IdleTurn(polls: seq<Poll>, timeout: Option<nat>, grace: nat, k: nat, t: Track, g: Marks)
    requires Monotone(polls) && k < |polls| && OnTrack(polls, timeout, grace, k, t, g) && Quiet(timeout, polls[k], t)
    requires t.pumps.None? ==> polls[k].pumps.None?
    requires if t.phase.Running? then polls[k].exit.NotYet? else polls[k].now < t.deadline
    ensures OnTrack(polls, timeout, grace, k + 1, t, g)
  {
    assert k > 0 ==> Follows(polls[k - 1], polls[k]);
    IdleTracked(polls, k, t, g);
    var i := k - Turns(t.termFired, t.pumps);
    assert 0 <= i ==> Follows(polls[i], polls[k]);
    SilenceKept(polls, grace, k, t, g);
  }

  lemma ExitTurn(polls: seq<Poll>, timeout: Option<nat>, grace: nat, k: nat, t: Track, g: Marks)
    requires Monotone(polls) && k < |polls| && OnTrack(polls, timeout, grace, k, t, g) && Quiet(timeout, polls[k], t)
    requires t.phase.Running? && t.pumps.None? && polls[k].pumps.None? && polls[k].exit.Status?
    ensures OnTrack(polls, timeout, grace, k + 1, Armed(polls[k], grace, t, k), g.(armed := k))
  {
    assert k > 0 ==> Follows(polls[k - 1], polls[k]);
    IdleTracked(polls, k, t, g);
    SilenceKept(polls, grace, k, Armed(polls[k], grace, t, k), g.(armed := k));
  }

  lemma RearmTurn(polls: seq<Poll>, timeout: Option<nat>, grace: nat, k: nat, t: Track, g: Marks)
    requires Monotone(polls) && k < |polls| && OnTrack(polls, timeout, grace, k, t, g) && Quiet(timeout, polls[k], t)
    requires t.phase.Draining? && polls[k].pumps.None? && polls[k].chunks != t.phase.seen && polls[k].now >= t.deadline
    ensures OnTrack(polls, timeout, grace, k + 1, Rearmed(polls[k], grace, t), g.(armed := k, before := g.armed))
  {
    assert k > 0 ==> Follows(polls[k - 1], polls[k]);
    IdleTracked(polls, k, t, g);
    assert Follows(polls[g.armed], polls[k]);
    SilenceKept(polls, grace, k, Rearmed(polls[k], grace, t), g.(armed := k, before := g.armed));
  }

  /** Draining from the exit on, with a whole grace to go. */
  function Armed(p: Poll, grace: nat, t: Track, k: nat): Track
    requires p.exit.Status?
  {
    t.(phase := Draining(p.exit.code, p.chunks), deadline := p.now + grace, exitAt := Some(k))
  }

  function Rearmed(p: Poll, grace: nat, t: Track): Track
    requires t.phase.Draining?
  {
    t.(phase := Draining(t.phase.status, p.chunks), deadline := p.now + grace, rearms := t.rearms + 1)
  }

  lemma SilentNow(polls: seq<Poll>, timeout: Option<nat>, grace: nat, k: nat, t: Track, g: Marks)
    requires k < |polls| && OnTrack(polls, timeout, grace, k, t, g) && t.phase.Draining?
    requires polls[k].now >= t.deadline && polls[k].chunks == t.phase.seen
    ensures SilentSince(polls, grace, t.exitAt.value, k)
  {
    assert t.exitAt.value <= g.armed < k;
  }

  ghost predicate RearmsBounded(polls: seq<Poll>, t: Track) {
    t.rearms > 0 ==> t.exitAt.Some? && t.exitAt.value < |polls| && t.rearms <= polls[|polls| - 1].chunks - polls[t.exitAt.value].chunks
  }

  lemma RearmsAreBounded(polls: seq<Poll>, timeout: Option<nat>, grace: nat, k: nat, t: Track, g: Marks)
    requires Monotone(polls) && k <= |polls| && OnTrack(polls, timeout, grace, k, t, g)
    ensures RearmsBounded(polls, t)
  {
    assert t.phase.Draining? ==> Follows(polls[g.armed], polls[|polls| - 1]);
  }

  lemma RunsOut(polls: seq<Poll>, timeout: Option<nat>, grace: nat, reaped: Option<int>, t: Track, g: Marks)
    requires Monotone(polls) && OnTrack(polls, timeout, grace, |polls|, t, g)
    ensures Sound(polls, timeout, grace, reaped, StillRacing, t.exitAt)
  {
    TrackPrompt(polls, timeout, grace, |polls|, t, g);
  }

  /** What one poll came to: the race goes on, or has ended. */
  ghost predicate Turned(polls: seq<Poll>, timeout: Option<nat>, grace: nat, reaped: Option<int>, k: nat, t: Track, g: Marks, r: Outcome, exitAt: Option<nat>)
    requires k < |polls|
  {
    if r.StillRacing? then OnTrack(polls, timeout, grace, k + 1, t, g) && exitAt == t.exitAt
    else Sound(polls, timeout, grace, reaped, r, exitAt) && RearmsBounded(polls, t)
  }

  /** The branches that look at the process and at the silence deadline. */
  method LookAtExit(polls: seq<Poll>, timeout: Option<nat>, grace: nat, reaped: Option<int>, k: nat, was: Track, ghost h: Marks)
      returns (r: Outcome, t: Track, exitAt: Option<nat>, ghost g: Marks)
    requires Monotone(polls) && k < |polls| && OnTrack(polls, timeout, grace, k, was, h) && Quiet(timeout, polls[k], was)
    requires was.pumps.None? ==> polls[k].pumps.None?
    ensures Turned(polls, timeout, grace, reaped, k, t, g, r, exitAt)
  {
    var p := polls[k];
    r, t, exitAt, g := StillRacing, was, was.exitAt, h;
    RearmsAreBounded(polls, timeout, grace, k, t, g);
    if t.phase.Running? && !p.exit.NotYet? {
      if p.exit.WaitFailed? {
        WaitFailedSound(polls, timeout, grace, reaped, k, t, g);
        r := WaitError(k);
      } else if t.pumps.Some? {
        PumpsStayDone(polls, timeout, grace, k, t, g);
        NaturalSound(polls, timeout, grace, reaped, k, t, g, p.exit.code, k);
        r, exitAt := Ended(NaturalTermination(t.termFired), p.exit.code, t.pumps, k), Some(k);
      } else {
        ExitTurn(polls, timeout, grace, k, t, g);
        t, g := Armed(p, grace, t, k), g.(armed := k);
        exitAt := t.exitAt;
      }
    } else if t.phase.Draining? && p.now >= t.deadline {
      if p.chunks == t.phase.seen {
        SilentNow(polls, timeout, grace, k, t, g);
        NaturalSound(polls, timeout, grace, reaped, k, t, g, t.phase.status, t.exitAt.value);
        r := Ended(NaturalTermination(t.termFired), t.phase.status, t.pumps, k);
      } else {
        RearmTurn(polls, timeout, grace, k, t, g);
        t, g := Rearmed(p, grace, t), g.(armed := k, before := g.armed);
      }
    } else {
      IdleTurn(polls, timeout, grace, k, t, g);
    }
  }

  /** One poll, in the fixed order of preference: kill, timeout, term, pumps, exit, silence. */
  method Select(polls: seq<Poll>, timeout: Option<nat>, grace: nat, reaped: Option<int>, k: nat, was: Track, ghost h: Marks)
      returns (r: Outcome, t: Track, exitAt: Option<nat>, ghost g: Marks)
    requires Monotone(polls) && k < |polls| && OnTrack(polls, timeout, grace, k, was, h)
    ensures Turned(polls, timeout, grace, reaped, k, t, g, r, exitAt)
  {
    var p := polls[k];
    r, t, exitAt, g := StillRacing, was, was.exitAt, h;
    RearmsAreBounded(polls, timeout, grace, k, t, g);
    if p.killed {
      StopSound(polls, timeout, grace, reaped, k, t, g, Killed);
      r := Stopped(t.phase, reaped, Killed, t.pumps, k);
    } else if TimeUp(timeout, p) {
      StopSound(polls, timeout, grace, reaped, k, t, g, TimedOut);
      r := Stopped(t.phase, reaped, TimedOut, t.pumps, k);
    } else if p.termed && !t.termFired {
      TermTurn(polls, timeout, grace, k, t, g);
      t, g := t.(termFired := true), g.(termAt := k);
    } else if t.pumps.None? && p.pumps.Some? {
      if p.pumps.value != Delivered {
        PumpFailureSound(polls, timeout, grace, reaped, k, t, g);
        r := Stopped(t.phase, reaped, Cancelled, p.pumps, k);
      } else if t.phase.Draining? {
        NaturalSound(polls, timeout, grace, reaped, k, t, g, t.phase.status, t.exitAt.value);
        r := Ended(NaturalTermination(t.termFired), t.phase.status, p.pumps, k);
      } else {
        PumpsTurn(polls, timeout, grace, k, t, g);
        t, g := t.(pumps := p.pumps), g.(pumpsAt := k);
      }
    } else {
      r, t, exitAt, g := LookAtExit(polls, timeout, grace, reaped, k, t, g);
    }
  }

  /** Runs the race over the polls. Each ending has its cause at the poll that ended it, in the
      fixed order of preference; the drain gives up only on a whole silent grace, and is extended
      at most once for each chunk read after the exit. `reaped` is what waiting after a kill
      gives; the last result is the poll that saw the exit. */
  method Race(polls: seq<Poll>, timeout: Option<nat>, grace: nat, reaped: Option<int>) returns (r: Outcome, t: Track, exitAt: Option<nat>)
    requires Monotone(polls)
    ensures Sound(polls, timeout, grace, reaped, r, exitAt) && RearmsBounded(polls, t)
  {
    t := Track(Running, false, None, 0, None, 0);
    exitAt := None;
    ghost var g := Marks(0, 0, 0, 0);
    var k := 0;
    while k < |polls|
      invariant 0 <= k <= |polls|
      invariant OnTrack(polls, timeout, grace, k, t, g) && exitAt == t.exitAt
    {
      r, t, exitAt, g := Select(polls, timeout, grace, reaped, k, t, g);
      if !r.StillRacing? {
        return;
      }
      k := k + 1;
    }
    r := StillRacing;
    RearmsAreBounded(polls, timeout, grace, k, t, g);
    RunsOut(polls, timeout, grace, reaped, t, g);
  }

  /** A pipe that a left-over process holds open in silence does not hold up the race: it has ended by
      the second poll, the term token's apart, that comes a grace after another and still finds the
      chunk count of a poll after the exit. */
  lemma SilentPipeEnds(polls: seq<Poll>, timeout: Option<nat>, grace: nat, reaped: Option<int>, r: Outcome, exitAt: Option<nat>, i: nat, j: nat, l: nat)
    requires Sound(polls, timeout, grace, reaped, r, exitAt)
    requires i < j < l < |polls|
    ensures Silence(polls, grace, i, j, l) ==> !r.StillRacing? && r.at <= l
  {
  }

  lemma PumpsStayDone(polls: seq<Poll>, timeout: Option<nat>, grace: nat, k: nat, t: Track, g: Marks)
    requires Monotone(polls) && k < |polls| && OnTrack(polls, timeout, grace, k, t, g) && t.pumps.Some?
    ensures polls[k].pumps == t.pumps == Some(Delivered)
  {
    assert Follows(polls[g.pumpsAt], polls[k]);
  }

  // ------------------------------------------------------- the pumps

  datatype Read = Chunk(bytes: seq<Byte>) | Eof | Broken

  /** The chunks before the first end or failure. */
  function Leading(input: seq<Read>): (n: nat)
    ensures n <= |input|
    ensures forall i :: 0 <= i < n ==> input[i].Chunk?
    ensures n < |input| ==> !input[n].Chunk?
  {
    if input == [] || !input[0].Chunk? then 0 else 1 + Leading(input[1..])
  }

  function Chunks(input: seq<Read>, n: nat): seq<seq<Byte>>
    requires n <= |input| && forall i :: 0 <= i < n ==> input[i].Chunk?
  {
    seq(n, i requires 0 <= i < n => input[i].bytes)
  }

  lemma ChunksSnoc(input: seq<Read>, n: nat)
    requires n < |input| && forall i :: 0 <= i < n + 1 ==> input[i].Chunk?
    ensures Chunks(input, n + 1) == Chunks(input, n) + [input[n].bytes]
    ensures Concat(Chunks(input, n + 1)) == Concat(Chunks(input, n)) + input[n].bytes
  {
    assert Chunks(input, n + 1) == Chunks(input, n) + [input[n].bytes];
    ConcatSnoc(Chunks(input, n), input[n].bytes);
  }

  /** Reads one pipe to its end, capturing and delivering every chunk; `refusal` is the index of
      the delivery the sink fails, if any. The pump ends `Delivered` exactly when it reached the
      end of the pipe with every chunk captured and accepted. */
  method Pump(capture: OutputCaptureBuffer, input: seq<Read>, refusal: Option<nat>)
      returns (end: Option<PumpEnd>, sent: seq<seq<Byte>>, progress: nat)
    requires capture.Valid() && forall i :: 0 <= i < |input| && input[i].Chunk? ==> input[i].bytes != []
    modifies capture
    ensures capture.Valid() && progress <= Leading(input) && sent == Chunks(input, progress)
    ensures capture.seen == old(capture.seen) + Concat(sent)
    ensures end == Some(Delivered) <==>
      Leading(input) < |input| && input[Leading(input)].Eof? && (refusal.Some? ==> refusal.value >= Leading(input))
    ensures end == Some(Delivered) ==> progress == Leading(input)
    ensures end == Some(SinkFailed) <==> refusal.Some? && refusal.value < Leading(input)
  {
    progress := 0;
    sent := [];
    assert capture.seen + Concat(sent) == capture.seen;
    while progress < |input|
      invariant 0 <= progress <= Leading(input)
      invariant capture.Valid() && sent == Chunks(input, progress)
      invariant capture.seen == old(capture.seen) + Concat(sent)
      invariant refusal.Some? ==> refusal.value >= progress
    {
      match input[progress] {
        case Eof =>
          return Some(Delivered), sent, progress;
        case Broken =>
          return Some(ReadFailed), sent, progress;
        case Chunk(bytes) =>
          ChunksSnoc(input, progress);
          capture.Push(bytes);
          SeqAssociates(old(capture.seen), Concat(sent), bytes);
          sent := sent + [bytes];
          progress := progress + 1;
          if refusal == Some(progress - 1) {
            return Some(SinkFailed), sent, progress;
          }
      }
    }
    end := None;
  }

  /** Both pumps: the first failure, or the end of both. */
  function Joined(stdout: Option<PumpEnd>, stderr: Option<PumpEnd>): (both: Option<PumpEnd>)
    ensures both == Some(Delivered) <==> stdout == Some(Delivered) && stderr == Some(Delivered)
    ensures PumpFailed(both) <==> PumpFailed(stdout) || PumpFailed(stderr)
  {
    if PumpFailed(stdout) then stdout
    else if PumpFailed(stderr) then stderr
    else if stdout.None? || stderr.None? then None
    else Some(Delivered)
  }

  datatype Report = Streamed(termination: Termination, status: int, truncated: bool) | ReadError | Failure

  function Assemble(r: Outcome): Report
    requires !r.StillRacing?
  {
    match r
    case WaitError(_) => Failure
    case Ended(termination, status, pumps, _) =>
      if pumps == Some(ReadFailed) then ReadError
      else Streamed(termination, status, pumps != Some(Delivered))
  }

  /** Unless a kill or the timeout ended the race, output is reported whole if and only if both
      pumps reached the end of their pipes and delivered everything, and there is no result if and
      only if a read had failed. After a kill or a timeout there always is a result, and it is
      reported whole if and only if an earlier poll, other than the one that went to the term token,
      had found both pumps delivered. */
  lemma CompleteOutput(polls: seq<Poll>, timeout: Option<nat>, grace: nat, reaped: Option<int>, r: Outcome, exitAt: Option<nat>,
                       stdout: Option<PumpEnd>, stderr: Option<PumpEnd>)
    requires Sound(polls, timeout, grace, reaped, r, exitAt) && r.Ended?
    requires polls[r.at].pumps == Joined(stdout, stderr)
    ensures !polls[r.at].killed && !TimeUp(timeout, polls[r.at]) ==>
      && (Assemble(r).ReadError? <==> polls[r.at].pumps == Some(ReadFailed))
      && (Whole(r) <==> stdout == Some(Delivered) && stderr == Some(Delivered))
    ensures polls[r.at].killed || TimeUp(timeout, polls[r.at]) ==>
      && Assemble(r).Streamed?
      && (Whole(r) <==> SeenDone(polls, r.at))
  {
  }

  /** An earlier poll that found both pumps delivered is what `SeenDone` says. */
  lemma {:induction false} SeenDoneMeans(polls: seq<Poll>, k: nat)
    requires k <= |polls|
    ensures SeenDone(polls, k) <==> exists i :: 0 <= i < k && polls[i].pumps == Some(Delivered) && !FirstTermed(polls, i)
  {
    if k > 0 {
      SeenDoneMeans(polls, k - 1);
    }
  }

  predicate Whole(r: Outcome)
    requires !r.StillRacing?
  {
    Assemble(r).Streamed? && !Assemble(r).truncated
  }

  /** The exception is real: a kill seen together with a failed read gives a result, and one seen
      together with delivered pumps reports their output as cut. */
  method KillOutranksPumps(end: PumpEnd, status: int) returns (r: Outcome)
    ensures r == Ended(Killed, status, None, 0) && Assemble(r) == Streamed(Killed, status, true)
  {
    var polls := [Poll(0, true, false, Some(end), NotYet, 0)];
    var t, exitAt;
    r, t, exitAt := Race(polls, None, 0, Some(status));
    assert polls[0].killed;
  }
}
