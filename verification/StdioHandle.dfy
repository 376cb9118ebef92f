/** The handle of an attached process: `terminate` asks for a stop at most once, escalating, and
    `wait` reports only an end it saw. */
module StdioHandle {
  import opened Bytes
  import opened StopProtocol

  class Handle {
    /** At most one ladder of requests for each handle. */
    var stopRequested: bool
    /** The requests made through this handle. */
    var requests: seq<Mode>

    predicate Valid() reads this {
      && requests <= [Term, Kill]
      && (!stopRequested ==> requests == [])
    }

    constructor ()
      ensures Valid() && !stopRequested && requests == []
    {
      stopRequested, requests := false, [];
    }

    /** `first` and `later` are the two inspections, where a failed one counts as running;
        `accepted` is the outcome of the TERM request. */
    method Terminate(first: bool, accepted: bool, later: bool)
      requires Valid()
      modifies this
      ensures Valid() && stopRequested
      ensures old(stopRequested) ==> requests == old(requests)
      ensures !old(stopRequested) ==> (requests == [] <==> !first)
      ensures !old(stopRequested) ==> (requests == [Term, Kill] <==> first && accepted && later)
    {
      var was := stopRequested;
      stopRequested := true;
      if was || !first {
        return;
      }
      requests := requests + [Term];
      if !accepted || !later {
        return;
      }
      requests := requests + [Kill];
    }
  }

  // ------------------------------------------------------- waiting

  datatype Answer = Running | Stopped(code: int) | Failed

  /** One inspection: what it said and how long it took, in milliseconds. */
  datatype Poll = Poll(answer: Answer, took: nat)

  datatype End = Exited(code: int) | Unknown | StillWaiting

  const RetryBound: nat := 10000

  /** How many inspections have failed in a row, up to and including the `i`-th. */
  function Streak(polls: seq<Poll>, i: nat): (n: nat)
    requires i < |polls|
    ensures n <= i + 1
    ensures n > 0 <==> polls[i].answer.Failed?
  {
    if !polls[i].answer.Failed? then 0
    else if i == 0 then 1
    else 1 + Streak(polls, i - 1)
  }

  /** The pause after the `n`-th failure in a row. */
  function Backoff(n: nat): (d: nat)
    ensures 100 <= d <= 1000
  {
    if n <= 1 then 100
    else if 2 * Backoff(n - 1) < 1000 then 2 * Backoff(n - 1)
    else 1000
  }

  /** The pauses in a row of failures: they double up to a second. */
  lemma {:induction false} BackoffDoubles(n: nat)
    requires n >= 1
    ensures Backoff(n) == if n <= 4 then [100, 200, 400, 800][n - 1] else 1000
  {
    if n > 1 {
      BackoffDoubles(n - 1);
    }
  }

  function Pause(polls: seq<Poll>, i: nat): nat
    requires i < |polls|
  {
    if Streak(polls, i) == 0 then 100 else Backoff(Streak(polls, i))
  }

  /** When the `i`-th answer is in hand. */
  function Clock(polls: seq<Poll>, i: nat): nat
    requires i < |polls|
  {
    polls[i].took + (if i == 0 then 0 else Clock(polls, i - 1) + Pause(polls, i - 1))
  }

  /** How long the daemon has been unreachable when the `i`-th answer is in hand. */
  function Outage(polls: seq<Poll>, i: nat): int
    requires i < |polls| && Streak(polls, i) > 0
  {
    Clock(polls, i) - Clock(polls, i + 1 - Streak(polls, i))
  }

  /** The end reported at answer `i`, if any. */
  function Verdict(polls: seq<Poll>, i: nat): End
    requires i < |polls|
  {
    match polls[i].answer
    case Running => StillWaiting
    case Stopped(code) => Exited(code)
    case Failed => if Outage(polls, i) >= RetryBound then Unknown else StillWaiting
  }

  /** A process seen running, and a daemon unreachable for less than the bound, end nothing. */
  lemma VerdictWaits(polls: seq<Poll>, i: nat)
    requires i < |polls|
    ensures Verdict(polls, i).StillWaiting? <==> polls[i].answer.Running? || (polls[i].answer.Failed? && Outage(polls, i) < 10_000)
  {
  }

  /** Reports the first answer that ends the wait: a process seen stopped, or an outage unbroken
      for the whole bound. */
  method Wait(polls: seq<Poll>) returns (end: End, used: nat)
    ensures used <= |polls|
    ensures forall i :: 0 <= i < used - 1 ==> Verdict(polls, i).StillWaiting?
    ensures end.StillWaiting? ==> used == |polls| && (used > 0 ==> Verdict(polls, used - 1).StillWaiting?)
    ensures !end.StillWaiting? ==> used > 0 && Verdict(polls, used - 1) == end
    ensures forall c :: end == Exited(c) <==> used > 0 && polls[used - 1].answer == Stopped(c)
    ensures end == Unknown ==> polls[used - 1].answer.Failed?
  {
    end, used := StillWaiting, 0;
    var now: nat := 0;
    var since: Option<nat> := None;
    var delay: nat := 100;
    while used < |polls|
      invariant used <= |polls|
      invariant forall i :: 0 <= i < used ==> Verdict(polls, i).StillWaiting?
      invariant OnClock(polls, used, now, since, delay)
    {
      var poll := polls[used];
      now := now + poll.took;
      Ticked(polls, used, now, since, delay);
      used := used + 1;
      match poll.answer {
        case Running =>
          since, delay := None, 100;
          now := now + 100;
        case Stopped(code) =>
          end := Exited(code);
          return;
        case Failed =>
          if since.None? {
            since := Some(now);
          }
          if now - since.value >= RetryBound {
            end := Unknown;
            return;
          }
          now := now + delay;
          delay := if delay * 2 < 1000 then delay * 2 else 1000;
      }
    }
  }

  /** The loop's clock, start of outage and next pause after `used` answers. */
  predicate OnClock(polls: seq<Poll>, used: nat, now: nat, since: Option<nat>, delay: nat)
    requires used <= |polls|
  {
    if used == 0 then now == 0 && since.None? && delay == 100
    else
      var n := Streak(polls, used - 1);
      && now == Clock(polls, used - 1) + Pause(polls, used - 1)
      && (if n == 0 then since.None? && delay == 100 else since == Some(Clock(polls, used - n)) && delay == Backoff(n + 1))
  }

  /** What the next answer makes of them. */
  lemma Ticked(polls: seq<Poll>, i: nat, now: nat, since: Option<nat>, delay: nat)
    requires i < |polls| && now >= polls[i].took && OnClock(polls, i, now - polls[i].took, since, delay)
    ensures now == Clock(polls, i)
    ensures polls[i].answer.Failed? ==>
      var s := if since.None? then now else since.value;
      && s <= now && now - s == Outage(polls, i)
      && OnClock(polls, i + 1, now + delay, Some(s), if delay * 2 < 1000 then delay * 2 else 1000)
    ensures polls[i].answer.Running? ==> OnClock(polls, i + 1, now + 100, None, 100)
  {
    if polls[i].answer.Failed? {
      if since.None? {
        FirstFailure(polls, i, now, delay);
      } else {
        AnotherFailure(polls, i, now, since.value, delay);
      }
    }
  }

  lemma FirstFailure(polls: seq<Poll>, i: nat, now: nat, delay: nat)
    requires i < |polls| && now >= polls[i].took && OnClock(polls, i, now - polls[i].took, None, delay) && polls[i].answer.Failed?
    ensures now == Clock(polls, i) && Outage(polls, i) == 0
    ensures OnClock(polls, i + 1, now + delay, Some(now), if delay * 2 < 1000 then delay * 2 else 1000)
  {
    assert Streak(polls, i) == 1;
    assert Backoff(1) == 100 && Backoff(2) == 200;
  }

  lemma AnotherFailure(polls: seq<Poll>, i: nat, now: nat, since: nat, delay: nat)
    requires i < |polls| && now >= polls[i].took && OnClock(polls, i, now - polls[i].took, Some(since), delay) && polls[i].answer.Failed?
    ensures now == Clock(polls, i) && since <= now && now - since == Outage(polls, i)
    ensures OnClock(polls, i + 1, now + delay, Some(since), if delay * 2 < 1000 then delay * 2 else 1000)
  {
    OutageNotNegative(polls, i);
    var n := Streak(polls, i - 1);
    assert Streak(polls, i) == n + 1 && delay == Backoff(n + 1);
    assert Backoff(n + 2) == if delay * 2 < 1000 then delay * 2 else 1000;
  }

  lemma {:induction false} OutageNotNegative(polls: seq<Poll>, i: nat)
    requires i < |polls| && Streak(polls, i) > 0
    ensures Outage(polls, i) >= 0
    decreases i
  {
    if Streak(polls, i) > 1 {
      OutageNotNegative(polls, i - 1);
    }
  }

  /** `n` failures in a row take at least this long. */
  function Slept(n: nat): nat {
    if n <= 1 then 0 else Slept(n - 1) + Backoff(n - 1)
  }

  lemma {:induction false} OutageSlept(polls: seq<Poll>, i: nat)
    requires i < |polls| && Streak(polls, i) > 0
    ensures Outage(polls, i) >= Slept(Streak(polls, i))
    decreases i
  {
    if Streak(polls, i) > 1 {
      OutageSlept(polls, i - 1);
    }
  }

  lemma SleptEnough(n: nat)
    requires n == 14
    ensures Slept(n) >= RetryBound
  {
    assert Backoff(1) == 100 && Backoff(2) == 200 && Backoff(3) == 400 && Backoff(4) == 800;
    assert Backoff(5) == 1000 && Backoff(6) == 1000 && Backoff(7) == 1000 && Backoff(8) == 1000 && Backoff(9) == 1000;
    assert Backoff(10) == 1000 && Backoff(11) == 1000 && Backoff(12) == 1000 && Backoff(13) == 1000;
    assert Slept(5) == 1500;
    assert Slept(9) == 5500;
    assert Slept(13) == 9500;
  }

  /** The wait gives up by the fourteenth failure in a row. */
  lemma GivesUpInTime(polls: seq<Poll>, i: nat)
    requires i < |polls| && Streak(polls, i) == 14
    ensures Verdict(polls, i) == Unknown
  {
    OutageSlept(polls, i);
    SleptEnough(14);
  }

  /** An unknown end means that every inspection for the whole bound failed. */
  lemma UnknownMeansOutage(polls: seq<Poll>, i: nat)
    requires i < |polls| && Verdict(polls, i) == Unknown
    ensures exists k :: 0 <= k <= i && Clock(polls, i) - Clock(polls, k) >= RetryBound && AllFailed(polls, k, i)
  {
    var k := i + 1 - Streak(polls, i);
    StreakFailed(polls, i);
    assert AllFailed(polls, k, i);
  }

  predicate AllFailed(polls: seq<Poll>, k: nat, i: nat)
    requires i < |polls|
  {
    forall j :: k <= j <= i ==> polls[j].answer.Failed?
  }

  lemma {:induction false} StreakFailed(polls: seq<Poll>, i: nat)
    requires i < |polls| && Streak(polls, i) > 0
    ensures AllFailed(polls, i + 1 - Streak(polls, i), i)
    decreases i
  {
    if Streak(polls, i) > 1 {
      StreakFailed(polls, i - 1);
    }
  }
}
