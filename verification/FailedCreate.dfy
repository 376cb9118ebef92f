/** Cleanup of a sandbox whose creation failed: one admitted delete, then observations until its
    absence is certain, all within a budget that may cut any request short. */
module FailedCreate {
  import opened Bytes
  import opened TransitionRetry

  /** The errors a caller can tell apart; `Unconfirmed` keeps the sandbox and the cause. */
  datatype Failure = Cause(text: string) | Unconfirmed(sandbox: string, cause: Failure)

  /** `Undecided` is a request that was cut short or failed without saying what became of it. */
  datatype Reply = Admitted | Absent | Busy | Undecided

  datatype View = Present(state: State) | Gone | Blind

  datatype Request = DeleteSent(reply: Reply) | Looked(view: View) | Waited

  /** The requests that may have changed something: admitted, or of unknown effect. */
  function Mutations(log: seq<Request>): nat {
    if log == [] then 0
    else Mutations(log[..|log| - 1]) + (match log[|log| - 1] case DeleteSent(reply) => (if reply.Admitted? || reply.Undecided? then 1 else 0) case _ => 0)
  }

  /** The sandbox was seen to be gone. */
  predicate ShowsAbsence(r: Request) {
    r == DeleteSent(Absent) || r == Looked(Gone) || r == Looked(Present(Deleted))
  }

  ghost predicate AbsenceSeen(log: seq<Request>) {
    exists i :: 0 <= i < |log| && ShowsAbsence(log[i])
  }

  /** Turned away, or seen still there: there is more to do. */
  predicate Pending(r: Request) {
    r == DeleteSent(Busy) || (r.Looked? && r.view.Present? && r.view.state != Deleted)
  }

  /** `r` may follow `log`: a delete first, after a pause another one for one turned away or another
      look for one at a sandbox that is still there, and a look behind an admitted delete. */
  predicate Follows(log: seq<Request>, r: Request) {
    if log == [] then r.DeleteSent?
    else
      match log[|log| - 1]
      case Waited => |log| >= 2 && !r.Waited? && (r.DeleteSent? <==> log[|log| - 2].DeleteSent?)
      case DeleteSent(reply) => if reply == Busy then r.Waited? else reply == Admitted && r.Looked?
      case Looked(_) => r.Waited? && Pending(log[|log| - 1])
  }

  predicate Orderly(log: seq<Request>) {
    log == [] || (Orderly(log[..|log| - 1]) && Follows(log[..|log| - 1], log[|log| - 1]))
  }

  lemma OrderlyNext(log: seq<Request>, r: Request)
    requires Orderly(log) && Follows(log, r)
    ensures Orderly(log + [r])
  {
    assert (log + [r])[..|log|] == log;
  }

  /** There is nothing more to do: the sandbox was seen to be gone, a request did not say what became
      of it, or the budget is spent. */
  predicate Over(log: seq<Request>, now: nat, deadline: nat) {
    log != [] &&
    match log[|log| - 1]
    case DeleteSent(reply) => reply == Absent || reply == Undecided
    case Looked(view) => ShowsAbsence(log[|log| - 1]) || view == Blind
    case Waited => now >= deadline
  }

  lemma MutationsNext(log: seq<Request>, r: Request)
    ensures Mutations(log + [r]) == Mutations(log) + (if r == DeleteSent(Admitted) || r == DeleteSent(Undecided) then 1 else 0)
    ensures AbsenceSeen(log + [r]) <==> AbsenceSeen(log) || ShowsAbsence(r)
  {
    assert (log + [r])[..|log|] == log;
    if AbsenceSeen(log) {
      var i :| 0 <= i < |log| && ShowsAbsence(log[i]);
      assert (log + [r])[i] == log[i];
    }
    if ShowsAbsence(r) {
      assert (log + [r])[|log|] == r;
    }
    if AbsenceSeen(log + [r]) && !ShowsAbsence(r) {
      var i :| 0 <= i < |log + [r]| && ShowsAbsence((log + [r])[i]);
      assert log[i] == (log + [r])[i];
    }
  }

  class Service {
    const replies: nat -> Reply
    const views: nat -> View
    const delays: nat -> nat
    var now: nat
    var log: seq<Request>

    constructor (replies: nat -> Reply, views: nat -> View, delays: nat -> nat, now: nat)
      ensures log == [] && this.now == now
    {
      this.replies, this.views, this.delays, this.now, this.log := replies, views, delays, now, [];
    }

    /** A request that the deadline cuts short has an undecided effect and no answer. */
    method Delete(deadline: nat) returns (reply: Reply, cut: bool)
      modifies this
      ensures now >= old(now) && log == old(log) + [DeleteSent(reply)]
      ensures (cut <==> now >= deadline) && reply == if cut then Undecided else replies(old(|log|))
    {
      now := now + delays(|log|);
      cut := now >= deadline;
      reply := if cut then Undecided else replies(|log|);
      log := log + [DeleteSent(reply)];
    }

    method Look(deadline: nat) returns (view: View, cut: bool)
      modifies this
      ensures now >= old(now) && log == old(log) + [Looked(view)]
      ensures (cut <==> now >= deadline) && view == if cut then Blind else views(old(|log|))
    {
      now := now + delays(|log|);
      cut := now >= deadline;
      view := if cut then Blind else views(|log|);
      log := log + [Looked(view)];
    }

    method Wait(deadline: nat) returns (cut: bool)
      modifies this
      ensures now >= old(now) + Pause && log == old(log) + [Waited]
      ensures cut <==> now >= deadline
    {
      now := now + Pause + delays(|log|);
      cut := now >= deadline;
      log := log + [Waited];
    }
  }

  datatype Phase = Confirmed | Requested | Unclear

  /** Repeats the delete while it is turned away, and never after it may have been admitted. */
  method RequestDelete(service: Service, deadline: nat) returns (phase: Phase)
    requires service.log == []
    modifies service
    ensures Mutations(service.log) <= 1 && Orderly(service.log)
    ensures phase == Confirmed <==> AbsenceSeen(service.log)
    ensures if phase == Requested then Last(service.log, DeleteSent(Admitted)) else Over(service.log, service.now, deadline)
  {
    while true
      invariant Mutations(service.log) == 0 && !AbsenceSeen(service.log)
      invariant Orderly(service.log) && MayDelete(service.log)
      decreases if service.now < deadline then deadline - service.now else 0
    {
      var tried := TryDelete(service, deadline);
      if tried.Some? {
        return tried.value;
      }
      var cut := PauseOnce(service, deadline);
      if cut {
        return Unclear;
      }
    }
  }

  predicate Last(log: seq<Request>, r: Request) {
    log != [] && log[|log| - 1] == r
  }

  predicate MayDelete(log: seq<Request>) {
    log == [] || (Last(log, Waited) && Last(log[..|log| - 1], DeleteSent(Busy)))
  }

  /** One delete; `None` if it was turned away. */
  method TryDelete(service: Service, deadline: nat) returns (phase: Option<Phase>)
    requires Mutations(service.log) == 0 && !AbsenceSeen(service.log) && Orderly(service.log) && MayDelete(service.log)
    modifies service
    ensures service.now >= old(service.now) && Mutations(service.log) <= 1 && Orderly(service.log)
    ensures match phase
      case None => Last(service.log, DeleteSent(Busy))
      case Some(Requested) => Last(service.log, DeleteSent(Admitted))
      case _ => Over(service.log, service.now, deadline)
    ensures phase.None? ==> Mutations(service.log) == 0 && service.now < deadline
    ensures phase == Some(Confirmed) <==> AbsenceSeen(service.log)
  {
    ghost var log := service.log;
    var reply, cut := service.Delete(deadline);
    MutationsNext(log, DeleteSent(reply));
    OrderlyNext(log, DeleteSent(reply));
    phase := match reply
      case Admitted => Some(Requested)
      case Absent => Some(Confirmed)
      case Undecided => Some(Unclear)
      case Busy => None;
  }

  /** A pause of one poll, cut short by the deadline. */
  method PauseOnce(service: Service, deadline: nat) returns (cut: bool)
    requires Orderly(service.log) && service.log != [] && Pending(service.log[|service.log| - 1])
    modifies service
    ensures service.log == old(service.log) + [Waited] && Orderly(service.log)
    ensures service.now > old(service.now) && (cut <==> service.now >= deadline)
    ensures Mutations(service.log) == Mutations(old(service.log))
    ensures AbsenceSeen(service.log) <==> AbsenceSeen(old(service.log))
  {
    ghost var log := service.log;
    cut := service.Wait(deadline);
    MutationsNext(log, Waited);
    OrderlyNext(log, Waited);
  }

  predicate MayLook(log: seq<Request>) {
    Last(log, DeleteSent(Admitted)) || (Last(log, Waited) && |log| >= 2 && log[|log| - 2].Looked? && Pending(log[|log| - 2]))
  }

  /** Observes until the sandbox is gone; an observation that fails proves nothing. */
  method ConfirmAbsence(service: Service, deadline: nat) returns (phase: Phase)
    requires Mutations(service.log) <= 1 && !AbsenceSeen(service.log) && Orderly(service.log) && Last(service.log, DeleteSent(Admitted))
    modifies service
    ensures Mutations(service.log) <= 1 && Orderly(service.log)
    ensures phase == Confirmed <==> AbsenceSeen(service.log)
    ensures Over(service.log, service.now, deadline)
  {
    while true
      invariant Mutations(service.log) <= 1 && !AbsenceSeen(service.log)
      invariant Orderly(service.log) && MayLook(service.log)
      decreases if service.now < deadline then deadline - service.now else 0
    {
      ghost var log := service.log;
      var view, cut := service.Look(deadline);
      MutationsNext(log, Looked(view));
      OrderlyNext(log, Looked(view));
      if view == Gone || view == Present(Deleted) {
        return Confirmed;
      }
      if view == Blind {
        return Unclear;
      }
      cut := PauseOnce(service, deadline);
      if cut {
        return Unclear;
      }
    }
  }

  /** The original cause comes back unchanged exactly when the sandbox was seen to be gone; every
      other run, the timeout included, keeps both the sandbox and the cause; and at most one
      request can have deleted anything. It sends a delete, follows an admitted one with looks, and
      stops only when there is nothing more to do. */
  method CleanUp(service: Service, sandbox: string, cause: Failure, budget: nat) returns (error: Failure)
    requires service.log == []
    modifies service
    ensures error == if AbsenceSeen(service.log) then cause else Unconfirmed(sandbox, cause)
    ensures Mutations(service.log) <= 1 && Orderly(service.log) && Over(service.log, service.now, old(service.now) + budget)
  {
    var deadline := service.now + budget;
    var phase := RequestDelete(service, deadline);
    if phase == Requested {
      phase := ConfirmAbsence(service, deadline);
    }
    error := if phase == Confirmed then cause else Unconfirmed(sandbox, cause);
  }
}
