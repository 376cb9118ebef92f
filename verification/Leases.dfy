/** The conformance harness: every sandbox a check leases is deleted before the next check starts,
    although the budget may drop a check at any await. */
module Leases {

  /** How an await inside a check ends; `Cut` is the budget dropping the check. */
  datatype Answer = Good | Bad | Cut

  /** What a check does with the harness: waits for something of its own, skips the rest, gets a ready
      sandbox, judges the deletion of the k-th sandbox it was given, or runs a body with a sandbox of
      its own. */
  datatype Action = Work | Skip | Ready | Delete(k: nat) | With(ready: bool, body: seq<Action>)

  datatype Verdict = Passed | Skipped | Failed | OverBudget

  /** What a check has awaited, or that it decided to skip; a deletion is judged by the check or made
      to clean up behind it. */
  datatype Step = Worked | Skipping | Created | Activated | Judged | Cleaned

  datatype Event = Event(step: Step, answer: Answer)

  function Rank(v: Verdict): nat {
    match v case Passed => 0 case Skipped => 1 case Failed => 2 case OverBudget => 3
  }

  function Worse(a: Verdict, b: Verdict): Verdict {
    if Rank(a) >= Rank(b) then a else b
  }

  /** What one event alone makes of a check; a cleanup that fails makes nothing of it. */
  function VerdictOn(e: Event): Verdict {
    match e.answer
    case Cut => OverBudget
    case Bad => if e.step == Cleaned then Passed else Failed
    case Good => if e.step == Skipping then Skipped else Passed
  }

  function VerdictOf(events: seq<Event>): Verdict {
    if events == [] then Passed else Worse(VerdictOf(events[..|events| - 1]), VerdictOn(events[|events| - 1]))
  }

  /** A check that was dropped is over its budget; one that was not has failed if anything but a
      cleanup did; one that did not is skipped if it said so; any other has passed. */
  lemma {:induction false} VerdictMeans(events: seq<Event>)
    ensures VerdictOf(events) == OverBudget <==> exists i :: 0 <= i < |events| && events[i].answer == Cut
    ensures Rank(VerdictOf(events)) >= 2 <==> exists i :: 0 <= i < |events| && (events[i].answer == Cut || (events[i].answer == Bad && events[i].step != Cleaned))
    ensures VerdictOf(events) == Passed <==> forall i :: 0 <= i < |events| ==> VerdictOn(events[i]) == Passed
    decreases |events|
  {
    if events != [] {
      VerdictMeans(events[..|events| - 1]);
    }
  }

  function StepsOf(events: seq<Event>): seq<Step> {
    seq(|events|, i requires 0 <= i < |events| => events[i].step)
  }

  lemma Snoc(events: seq<Event>, e: Event)
    ensures VerdictOf(events + [e]) == Worse(VerdictOf(events), VerdictOn(e))
    ensures StepsOf(events + [e]) == StepsOf(events) + [e.step]
  {
    assert (events + [e])[..|events|] == events;
  }

  // The steps of a check that passes, behind those already made; `n` is how many sandboxes it has.

  function Readies(actions: seq<Action>, i: nat): nat
    requires i <= |actions|
  {
    if i == 0 then 0 else Readies(actions, i - 1) + (if actions[i - 1].Ready? then 1 else 0)
  }

  function Ran(steps: seq<Step>, actions: seq<Action>, i: nat, n: nat): seq<Step>
    requires i <= |actions|
    decreases actions, i, 0
  {
    if i == 0 then steps else RanOne(Ran(steps, actions, i - 1, n), actions[i - 1], n + Readies(actions, i - 1))
  }

  function Provisioned(steps: seq<Step>, ready: bool): seq<Step> {
    if ready then steps + [Created] + [Activated] else steps + [Created]
  }

  function RanOne(steps: seq<Step>, action: Action, n: nat): seq<Step>
    decreases action, 0, 0
  {
    match action
    case Work => steps + [Worked]
    case Skip => steps + [Skipping]
    case Ready => Provisioned(steps, true)
    case Delete(k) => if k < n then steps + [Judged] else steps
    case With(ready, body) => Ran(Provisioned(steps, ready), body, |body|, n + 1) + [Cleaned]
  }

  datatype Check = Check(name: string, actions: seq<Action>)

  datatype CheckResult = CheckResult(name: string, verdict: Verdict)

  /** The names of the included checks, in order. */
  function Included(checks: seq<Check>, chosen: string -> bool): seq<string> {
    if checks == [] then []
    else if chosen(checks[0].name) then [checks[0].name] + Included(checks[1..], chosen)
    else Included(checks[1..], chosen)
  }

  function Names(results: seq<CheckResult>): seq<string> {
    seq(|results|, i requires 0 <= i < |results| => results[i].name)
  }

  class Harness {
    const answers: nat -> Answer
    var at: nat
    /** Ids of the sandboxes made so far are below this. */
    var next: nat
    var leased: seq<nat>
    /** Every sandbox made for a check, every one ever leased, and every one a delete was attempted
        for. */
    var made: set<nat>
    var everLeased: set<nat>
    var attempted: set<nat>
    /** What the running check has done. */
    var events: seq<Event>

    /** A sandbox that was ever leased is still leased or was deleted, as far as asking goes. */
    predicate Accounted() reads this {
      Tracked() && made <= everLeased
    }

    predicate Tracked() reads this {
      && (forall id :: id in everLeased ==> id in leased || id in attempted)
      && (forall id :: id in leased ==> id in everLeased)
      && Distinct(leased)
    }

    constructor (answers: nat -> Answer)
      ensures Accounted() && leased == [] && made == {} && everLeased == {}
    {
      this.answers, this.at, this.next, this.events := answers, 0, 0, [];
      leased, made, everLeased, attempted := [], {}, {}, {};
    }

    /** The running check has done nothing that ends it. */
    predicate Clear() reads this {
      VerdictOf(events) == Passed
    }

    method Await(step: Step) returns (a: Answer)
      modifies this`at, this`events
      ensures a == answers(old(at)) && at == old(at) + 1
      ensures VerdictOf(events) == Worse(old(VerdictOf(events)), VerdictOn(Event(step, a)))
      ensures StepsOf(events) == old(StepsOf(events)) + [step]
    {
      a := answers(at);
      at := at + 1;
      Note(Event(step, a));
    }

    method Note(e: Event)
      modifies this`events
      ensures VerdictOf(events) == Worse(old(VerdictOf(events)), VerdictOn(e)) && StepsOf(events) == old(StepsOf(events)) + [e.step]
    {
      Snoc(events, e);
      events := events + [e];
    }

    /** Leasing twice is harmless. */
    method Lease(id: nat)
      requires Tracked()
      modifies this`leased, this`everLeased
      ensures Tracked() && id in leased && everLeased == old(everLeased) + {id}
    {
      if id !in leased {
        DistinctSnoc(leased, id);
        leased := leased + [id];
      }
      everLeased := everLeased + {id};
    }

    /** Deletes first and ends the lease after, so that a cut in between keeps the lease. */
    method DeleteLeased(id: nat, step: Step) returns (a: Answer)
      requires Accounted()
      modifies this`at, this`events, this`leased, this`attempted
      ensures VerdictOf(events) == Worse(old(VerdictOf(events)), VerdictOn(Event(step, a))) && StepsOf(events) == old(StepsOf(events)) + [step]
      ensures Accounted() && attempted == old(attempted) + {id}
      ensures a == Cut ==> leased == old(leased)
      ensures a != Cut ==> id !in leased
      ensures forall other :: other in leased ==> other in old(leased)
      ensures forall other :: other in old(leased) && other != id ==> other in leased
    {
      attempted := attempted + {id};
      a := Await(step);
      if a != Cut {
        leased := Retain(leased, id);
      }
    }

    /** Creates a sandbox and hands it back without a lease. */
    method Create() returns (a: Answer, id: nat)
      requires Accounted()
      modifies this`at, this`events, this`next, this`made
      ensures VerdictOf(events) == Worse(old(VerdictOf(events)), VerdictOn(Event(Created, a))) && StepsOf(events) == old(StepsOf(events)) + [Created]
      ensures Tracked() && old(made) <= made
      ensures if a == Good then made == old(made) + {id} else made == old(made)
    {
      id := 0;
      a := Await(Created);
      if a == Good {
        id := next;
        next := next + 1;
        made := made + {id};
      }
    }

    /** Creates, leases at once, activates; a failed activation is cleaned up. */
    method GetReady() returns (a: Answer, id: nat)
      requires Accounted() && Clear()
      modifies this
      ensures Accounted() && old(everLeased) <= everLeased && old(made) <= made
      ensures a == Good ==> id in made && StepsOf(events) == Provisioned(old(StepsOf(events)), true)
      ensures VerdictOf(events) == Told(a)
    {
      a, id := Create();
      if a != Good {
        return;
      }
      Lease(id);
      a := Await(Activated);
      if a == Bad {
        var deleted := DeleteLeased(id, Cleaned);
        if deleted == Cut {
          a := Cut;
        }
      }
    }

    /** Runs a check's actions until one fails or skips the rest, or the check is dropped. */
    method Perform(actions: seq<Action>, held: seq<nat>) returns (v: Verdict)
      requires Accounted() && Clear()
      modifies this
      ensures Accounted() && old(everLeased) <= everLeased && old(made) <= made
      ensures v == VerdictOf(events)
      ensures v == Passed ==> StepsOf(events) == Ran(old(StepsOf(events)), actions, |actions|, |held|)
      decreases actions, 0
    {
      var mine := held;
      var i := 0;
      while i < |actions|
        invariant 0 <= i <= |actions| && |mine| == |held| + Readies(actions, i)
        invariant Accounted() && old(everLeased) <= everLeased && old(made) <= made
        invariant Clear() && StepsOf(events) == Ran(old(StepsOf(events)), actions, i, |held|)
      {
        var id;
        v, id := Act(actions[i], mine);
        if v != Passed {
          return;
        }
        if actions[i].Ready? {
          mine := mine + [id];
        }
        i := i + 1;
      }
      v := Passed;
    }

    /** One action; the sandbox is one it got ready. */
    method Act(action: Action, mine: seq<nat>) returns (v: Verdict, id: nat)
      requires Accounted() && Clear()
      modifies this
      ensures Accounted() && old(everLeased) <= everLeased && old(made) <= made
      ensures v == VerdictOf(events)
      ensures v == Passed ==> StepsOf(events) == RanOne(old(StepsOf(events)), action, |mine|)
      decreases action, 2
    {
      id := 0;
      var a := Good;
      match action {
        case Work =>
          a := Await(Worked);
        case Skip =>
          Note(Event(Skipping, Good));
          return Skipped, 0;
        case Ready =>
          a, id := GetReady();
        case Delete(k) =>
          if k < |mine| {
            a := DeleteLeased(mine[k], Judged);
          }
        case With(ready, body) =>
          v := WithSandbox(ready, body, mine);
          return v, 0;
      }
      v := Told(a);
    }

    /** A body with a sandbox of its own, deleted on every return of the body. */
    method WithSandbox(ready: bool, body: seq<Action>, held: seq<nat>) returns (v: Verdict)
      requires Accounted() && Clear()
      modifies this
      ensures Accounted() && old(everLeased) <= everLeased && old(made) <= made
      ensures v == VerdictOf(events)
      ensures v == Passed ==> StepsOf(events) == Ran(Provisioned(old(StepsOf(events)), ready), body, |body|, |held| + 1) + [Cleaned]
      decreases body, 1
    {
      var a, id;
      if ready {
        a, id := GetReady();
      } else {
        a, id := Create();
      }
      if a != Good {
        return Told(a);
      }
      Lease(id);
      v := Perform(body, held + [id]);
      if v == OverBudget {
        return;
      }
      var deleted := DeleteLeased(id, Cleaned);
      if deleted == Cut {
        v := OverBudget;
      }
    }

    /** Deletes whatever is still leased, each on a budget of its own. */
    method ReapLeases()
      requires Accounted()
      modifies this
      ensures Accounted() && leased == [] && everLeased == old(everLeased) && made == old(made)
      ensures forall id :: id in everLeased ==> id in attempted
    {
      var leaked := leased;
      leased := [];
      var i := 0;
      while i < |leaked|
        invariant 0 <= i <= |leaked|
        invariant leased == [] && everLeased == old(everLeased) && made == old(made)
        invariant old(attempted) <= attempted
        invariant forall j :: 0 <= j < i ==> leaked[j] in attempted
      {
        attempted := attempted + {leaked[i]};
        var _ := Await(Cleaned);
        i := i + 1;
      }
    }

    /** One check under its budget, and then the reap. */
    method RunCheck(check: Check) returns (verdict: Verdict, ran: seq<Event>)
      requires Accounted() && leased == []
      modifies this
      ensures Accounted() && leased == [] && old(everLeased) <= everLeased && old(made) <= made
      ensures forall id :: id in everLeased ==> id in attempted
      ensures verdict == VerdictOf(ran)
      ensures verdict == Passed ==> StepsOf(ran) == Ran([], check.actions, |check.actions|, 0)
    {
      events := [];
      assert StepsOf(events) == [];
      verdict := Perform(check.actions, []);
      ran := events;
      ReapLeases();
    }

    /** Every included check in order, one result each; no check starts while another's sandbox is
        still leased, and every sandbox made for a check has had its delete attempted. */
    method RunChecks(checks: seq<Check>, chosen: string -> bool) returns (results: seq<CheckResult>, runs: seq<seq<Event>>)
      requires Accounted() && leased == [] && everLeased <= attempted
      modifies this
      ensures Names(results) == Included(checks, chosen) && |runs| == |results|
      ensures forall i :: 0 <= i < |results| ==> results[i].verdict == VerdictOf(runs[i])
      ensures made <= attempted
      ensures Accounted() && leased == [] && everLeased <= attempted
    {
      results, runs := [], [];
      var i := 0;
      assert checks[0..] == checks;
      while i < |checks|
        invariant 0 <= i <= |checks|
        invariant Accounted() && leased == [] && everLeased <= attempted
        invariant |runs| == |results| && forall j :: 0 <= j < |results| ==> results[j].verdict == VerdictOf(runs[j])
        invariant Names(results) + Included(checks[i..], chosen) == Included(checks, chosen)
      {
        var check := checks[i];
        assert checks[i..][0] == check && checks[i..][1..] == checks[i + 1..];
        if chosen(check.name) {
          var verdict, ran := RunCheck(check);
          assert Names(results + [CheckResult(check.name, verdict)]) == Names(results) + [check.name];
          results, runs := results + [CheckResult(check.name, verdict)], runs + [ran];
        }
        i := i + 1;
      }
    }
  }

  /** What an answer makes of the check that waited for it. */
  function Told(a: Answer): Verdict {
    match a case Good => Passed case Bad => Failed case Cut => OverBudget
  }

  predicate Distinct(held: seq<nat>) {
    held == [] || (held[0] !in held[1..] && Distinct(held[1..]))
  }

  lemma {:induction false} DistinctSnoc(held: seq<nat>, id: nat)
    requires Distinct(held) && id !in held
    ensures Distinct(held + [id])
  {
    if held != [] {
      assert (held + [id])[1..] == held[1..] + [id];
      DistinctSnoc(held[1..], id);
    }
  }

  function Retain(held: seq<nat>, id: nat): (rest: seq<nat>)
    ensures id !in rest
    ensures forall x :: x in rest <==> x in held && x != id
    ensures Distinct(held) ==> Distinct(rest)
  {
    if held == [] then []
    else if held[0] == id then Retain(held[1..], id)
    else [held[0]] + Retain(held[1..], id)
  }
}
