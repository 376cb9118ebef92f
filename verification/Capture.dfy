/** Bounded output retention: a stable head, a rolling tail and a count of what fell between. */
module Capture {
  import opened Bytes

  /** No limit given retains nothing. */
  function CapOf(limit: Option<nat>): nat {
    match limit
    case Some(n) => n
    case None => 0
  }

  function HeadCap(cap: nat): nat {
    cap / 2
  }

  function TailCap(cap: nat): nat {
    cap - cap / 2
  }

  /** What a buffer of `cap` bytes keeps at the front of the observed bytes `s`. */
  function HeadOf(cap: nat, s: seq<Byte>): (head: seq<Byte>)
    ensures head <= s
  {
    s[..Min(HeadCap(cap), |s|)]
  }

  /** What it keeps at the back: the newest bytes that are not part of the head. */
  function TailOf(cap: nat, s: seq<Byte>): (tail: seq<Byte>)
    ensures |tail| <= |s| - |HeadOf(cap, s)|
  {
    if |s| <= HeadCap(cap) then [] else s[|s| - Min(TailCap(cap), |s| - HeadCap(cap))..]
  }

  function OmittedOf(cap: nat, s: seq<Byte>): nat {
    |s| - |HeadOf(cap, s)| - |TailOf(cap, s)|
  }

  /** Nothing is omitted exactly while the observed bytes fit, and then all of them are kept. */
  lemma RetainsAllWithinCap(cap: nat, s: seq<Byte>)
    ensures OmittedOf(cap, s) == 0 <==> |s| <= cap
    ensures |s| <= cap ==> HeadOf(cap, s) + TailOf(cap, s) == s
    ensures |HeadOf(cap, s)| + |TailOf(cap, s)| == Min(cap, |s|)
    ensures |s| > cap ==> |HeadOf(cap, s)| <= |TailOf(cap, s)| <= |HeadOf(cap, s)| + 1
  {
  }

  /** What a limit keeps of the observed bytes: that many, and none when there is no limit. */
  lemma LimitKeeps(limit: Option<nat>, s: seq<Byte>)
    ensures |HeadOf(CapOf(limit), s)| + |TailOf(CapOf(limit), s)| == if limit.Some? then Min(limit.value, |s|) else 0
  {
  }

  /** The head takes what it still has room for. */
  lemma HeadStep(cap: nat, s: seq<Byte>, chunk: seq<Byte>, take: nat)
    requires take == if |HeadOf(cap, s)| < HeadCap(cap) then Min(HeadCap(cap) - |HeadOf(cap, s)|, |chunk|) else 0
    ensures HeadOf(cap, s + chunk[..take]) == HeadOf(cap, s) + chunk[..take]
    ensures TailOf(cap, s + chunk[..take]) == TailOf(cap, s)
    ensures OmittedOf(cap, s + chunk[..take]) == OmittedOf(cap, s)
    ensures take < |chunk| ==> |HeadOf(cap, s + chunk[..take])| == HeadCap(cap)
  {
    if take > 0 {
      assert |TailOf(cap, s)| == 0 && |s| < HeadCap(cap);
    } else {
      assert s + chunk[..take] == s;
    }
  }

  /** One more byte rolls a full tail forward. */
  lemma TailStep(cap: nat, s: seq<Byte>, b: Byte)
    requires |HeadOf(cap, s)| == HeadCap(cap) && TailCap(cap) > 0
    ensures var t := TailOf(cap, s);
            && HeadOf(cap, s + [b]) == HeadOf(cap, s)
            && TailOf(cap, s + [b]) == (if |t| == TailCap(cap) then t[1..] else t) + [b]
            && OmittedOf(cap, s + [b]) == OmittedOf(cap, s) + if |t| == TailCap(cap) then 1 else 0
  {
  }

  lemma NoTail(cap: nat, s: seq<Byte>)
    requires TailCap(cap) == 0
    ensures HeadOf(cap, s) == [] && TailOf(cap, s) == [] && OmittedOf(cap, s) == |s|
  {
  }

  /** A tail rolled forward from `kept` to `s`, with what fell out of it on the way. */
  ghost predicate Rolled(cap: nat, kept: seq<Byte>, s: seq<Byte>, tail: seq<Byte>, dropped: int) {
    && tail == TailOf(cap, s)
    && dropped == OmittedOf(cap, s) - OmittedOf(cap, kept)
    && HeadOf(cap, s) == HeadOf(cap, kept)
  }

  lemma RolledNext(cap: nat, kept: seq<Byte>, s: seq<Byte>, tail: seq<Byte>, dropped: int, b: Byte)
    requires Rolled(cap, kept, s, tail, dropped) && |HeadOf(cap, kept)| == HeadCap(cap) && TailCap(cap) > 0
    ensures |tail| == TailCap(cap) ==> Rolled(cap, kept, s + [b], tail[1..] + [b], dropped + 1)
    ensures |tail| != TailCap(cap) ==> Rolled(cap, kept, s + [b], tail + [b], dropped)
  {
    TailStep(cap, s, b);
  }

  lemma RolledWithoutTail(cap: nat, kept: seq<Byte>, rest: seq<Byte>)
    requires TailCap(cap) == 0
    ensures Rolled(cap, kept, kept + rest, TailOf(cap, kept), |rest|)
  {
    NoTail(cap, kept);
    NoTail(cap, kept + rest);
  }

  lemma Rejoined(s: seq<Byte>, chunk: seq<Byte>, take: nat)
    requires take <= |chunk|
    ensures s + chunk[..take] + chunk[take..] == s + chunk
  {
  }

  lemma OneMore(kept: seq<Byte>, rest: seq<Byte>, i: nat)
    requires i < |rest|
    ensures kept + rest[..i] + [rest[i]] == kept + rest[..i + 1]
  {
  }

  /** Appends `rest` to the tail of a buffer whose head is already full, oldest bytes first out. */
  method Roll(cap: nat, ghost kept: seq<Byte>, tail: seq<Byte>, rest: seq<Byte>) returns (rolled: seq<Byte>, dropped: nat)
    requires tail == TailOf(cap, kept) && (rest != [] ==> |HeadOf(cap, kept)| == HeadCap(cap))
    ensures Rolled(cap, kept, kept + rest, rolled, dropped)
  {
    rolled, dropped := tail, 0;
    if TailCap(cap) == 0 {
      RolledWithoutTail(cap, kept, rest);
      return tail, |rest|;
    }
    ghost var s := kept;
    assert kept + rest[..0] == kept;
    var i := 0;
    while i < |rest|
      invariant 0 <= i <= |rest|
      invariant s == kept + rest[..i]
      invariant Rolled(cap, kept, s, rolled, dropped)
    {
      RolledNext(cap, kept, s, rolled, dropped, rest[i]);
      OneMore(kept, rest, i);
      if |rolled| == TailCap(cap) {
        rolled := rolled[1..];
        dropped := dropped + 1;
      }
      rolled := rolled + [rest[i]];
      s := s + [rest[i]];
      i := i + 1;
    }
    assert rest[..i] == rest;
  }

  class OutputCaptureBuffer {
    const cap: nat
    const headCap: nat
    var head: seq<Byte>
    var tail: seq<Byte>
    var observed: nat
    var omitted: nat
    /** Every byte pushed so far. */
    ghost var seen: seq<Byte>

    ghost predicate Valid()
      reads this
    {
      && headCap == HeadCap(cap)
      && head == HeadOf(cap, seen)
      && tail == TailOf(cap, seen)
      && observed == |seen|
      && omitted == OmittedOf(cap, seen)
    }

    constructor (cap: nat)
      ensures Valid() && seen == [] && this.cap == cap
    {
      this.cap := cap;
      headCap := cap / 2;
      head, tail, observed, omitted, seen := [], [], 0, 0, [];
    }

    /** However the bytes are cut into chunks, the buffer holds the head and tail of all of
        them, and retained plus omitted is what was observed. */
    method Push(chunk: seq<Byte>)
      requires Valid()
      modifies this
      ensures Valid() && seen == old(seen) + chunk
    {
      observed := observed + |chunk|;
      var take := if |head| < headCap then Min(headCap - |head|, |chunk|) else 0;
      HeadStep(cap, seen, chunk, take);
      head := head + chunk[..take];
      var rolled, dropped := Roll(cap, seen + chunk[..take], tail, chunk[take..]);
      Rejoined(seen, chunk, take);
      tail := rolled;
      omitted := omitted + dropped;
      seen := seen + chunk;
    }
  }
}
