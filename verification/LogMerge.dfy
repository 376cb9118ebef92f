/** Merging a live log stream with the final log of the same command, when only a bounded
    window of what the stream delivered is still at hand. */
module LogMerge {
  import opened Bytes
  import opened Capture

  /** The overlap window is never smaller than this, whatever the caller retains. */
  const MIN_DEDUP_BYTES: nat := 64 * 1024

  function DedupCap(limit: Option<nat>): nat {
    Max(CapOf(limit), MIN_DEDUP_BYTES)
  }

  /** The last `k` bytes of `a` are the first `k` of `b`. */
  predicate Overlaps(a: seq<Byte>, b: seq<Byte>, k: nat) {
    k <= |a| && k <= |b| && a[|a| - k..] == b[..k]
  }

  /** The longest overlap of at most `n` bytes, or 0. */
  function BestOverlap(a: seq<Byte>, b: seq<Byte>, n: nat): (k: nat)
    ensures k <= n
  {
    if n == 0 then 0 else if Overlaps(a, b, n) then n else BestOverlap(a, b, n - 1)
  }

  lemma {:induction false} BestOverlapIsLongest(a: seq<Byte>, b: seq<Byte>, n: nat)
    requires n <= |a| && n <= |b|
    ensures Overlaps(a, b, BestOverlap(a, b, n))
    ensures forall k: nat :: Overlaps(a, b, k) && k <= n ==> k <= BestOverlap(a, b, n)
  {
    if n == 0 {
      assert a[|a|..] == b[..0];
    } else if !Overlaps(a, b, n) {
      BestOverlapIsLongest(a, b, n - 1);
    }
  }

  /** Where `final` goes on beyond what was seen, when all of it is still at hand. */
  function PlainOffset(seen: seq<Byte>, final: seq<Byte>): nat {
    if seen <= final then |seen|
    else if final <= seen then |final|
    else BestOverlap(seen, final, Min(|seen|, |final|))
  }

  /** The same when only the head and the tail of what was seen are at hand. */
  function WindowOffset(head: seq<Byte>, tail: seq<Byte>, observed: nat, final: seq<Byte>): nat
    requires |tail| <= observed
  {
    if |final| >= observed && head <= final && tail == final[observed - |tail|..observed] then observed
    else if |final| <= observed && head <= final then |final|
    else BestOverlap(tail, final, Min(|tail|, |final|))
  }

  /** The append point for a buffer of `cap` bytes that has seen `s`. */
  function Offset(cap: nat, s: seq<Byte>, final: seq<Byte>): nat {
    if OmittedOf(cap, s) == 0 then PlainOffset(s, final)
    else WindowOffset(HeadOf(cap, s), TailOf(cap, s), |s|, final)
  }

  function Missing(offset: nat, final: seq<Byte>): seq<Byte> {
    if offset >= |final| then [] else final[offset..]
  }

  // ------------------------------------------------------- the code

  /** The search from the longest overlap down. */
  method FindOverlap(a: seq<Byte>, b: seq<Byte>) returns (k: nat)
    ensures k == BestOverlap(a, b, Min(|a|, |b|))
  {
    k := Min(|a|, |b|);
    while k > 0 && a[|a| - k..] != b[..k]
      invariant 0 <= k <= Min(|a|, |b|)
      invariant BestOverlap(a, b, Min(|a|, |b|)) == BestOverlap(a, b, k)
    {
      k := k - 1;
    }
  }

  method FindPlainOffset(seen: seq<Byte>, final: seq<Byte>) returns (offset: nat)
    ensures offset == PlainOffset(seen, final)
  {
    if seen <= final {
      return |seen|;
    }
    if final <= seen {
      return |final|;
    }
    offset := FindOverlap(seen, final);
  }

  method MissingSuffix(seen: OutputCaptureBuffer, final: seq<Byte>) returns (missing: seq<Byte>)
    requires seen.Valid()
    ensures missing == Missing(Offset(seen.cap, seen.seen, final), final)
  {
    var offset: nat;
    RetainsAllWithinCap(seen.cap, seen.seen);
    var head, tail := seen.head, seen.tail;
    if seen.omitted == 0 {
      offset := FindPlainOffset(head + tail, final);
    } else if |final| >= seen.observed && head <= final
              && tail == final[seen.observed - |tail|..seen.observed] {
      offset := seen.observed;
    } else if |final| <= seen.observed && head <= final {
      offset := |final|;
    } else {
      offset := FindOverlap(tail, final);
    }
    return if offset >= |final| then [] else final[offset..];
  }

  /** One stream of a session: the raw window for matching, the caller's capture, and what the
      sink was given. A refused delivery ends deliveries for good. */
  class Side {
    const raw: OutputCaptureBuffer
    const capture: OutputCaptureBuffer
    var delivered: seq<Byte>

    ghost predicate Valid()
      reads this, raw, capture
    {
      raw != capture && raw.Valid() && capture.Valid() && raw.seen == capture.seen
    }

    constructor (limit: Option<nat>)
      ensures Valid() && fresh(raw) && fresh(capture)
      ensures raw.seen == [] && delivered == []
      ensures raw.cap == DedupCap(limit) && capture.cap == CapOf(limit)
    {
      raw := new OutputCaptureBuffer(DedupCap(limit));
      capture := new OutputCaptureBuffer(CapOf(limit));
      delivered := [];
    }

    /** One live chunk; `accepts` is the sink's answer to it. */
    method Deliver(chunk: seq<Byte>, accepts: bool) returns (ok: bool)
      requires Valid()
      modifies this, raw, capture
      ensures Valid() && raw.seen == old(raw.seen) + chunk && delivered == old(delivered) + chunk
      ensures ok <==> chunk == [] || accepts
    {
      if chunk == [] {
        assert raw.seen + chunk == raw.seen && delivered + chunk == delivered;
        return true;
      }
      raw.Push(chunk);
      capture.Push(chunk);
      delivered := delivered + chunk;
      ok := accepts;
    }

    /** Appends what the stream missed of the final log, to the captures always and to the
        sink unless it has failed. */
    method AppendFinal(final: seq<Byte>, failed: bool, accepts: bool) returns (nowFailed: bool)
      requires Valid()
      modifies this, raw, capture
      ensures Valid()
      ensures var missing := Missing(Offset(raw.cap, old(raw.seen), final), final);
              && raw.seen == old(raw.seen) + missing
              && delivered == old(delivered) + (if failed then [] else missing)
              && (nowFailed <==> failed || (missing != [] && !accepts))
    {
      var missing := MissingSuffix(raw, final);
      raw.Push(missing);
      capture.Push(missing);
      nowFailed := failed;
      if missing != [] && !failed {
        delivered := delivered + missing;
        nowFailed := !accepts;
      } else {
        assert delivered + [] == delivered;
      }
    }
  }

  // ------------------------------------------------------- with everything at hand

  predicate EndsWith(s: seq<Byte>, suffix: seq<Byte>) {
    |suffix| <= |s| && s[|s| - |suffix|..] == suffix
  }

  function Merged(seen: seq<Byte>, final: seq<Byte>): seq<Byte> {
    seen + Missing(PlainOffset(seen, final), final)
  }

  /** Merging only appends. A final log the stream is already past appends nothing; otherwise
      the result ends with the final log. */
  lemma MergeCovers(seen: seq<Byte>, final: seq<Byte>)
    ensures seen <= Merged(seen, final)
    ensures if final <= seen then Merged(seen, final) == seen else EndsWith(Merged(seen, final), final)
  {
    var m := Merged(seen, final);
    if seen <= final {
      assert m == final;
    } else if final <= seen {
      assert m == seen;
    } else {
      var n := Min(|seen|, |final|);
      BestOverlapIsLongest(seen, final, n);
      var k := BestOverlap(seen, final, n);
      OverlapJoins(seen, final, k);
    }
  }

  lemma OverlapJoins(seen: seq<Byte>, final: seq<Byte>, k: nat)
    requires Overlaps(seen, final, k)
    ensures EndsWith(seen + final[k..], final)
  {
    var m := seen + final[k..];
    assert m[|m| - |final|..] == seen[|seen| - k..] + final[k..];
    assert final == final[..k] + final[k..];
  }

  /** No shorter extension of what was seen ends with the final log. */
  lemma MergeIsShortest(seen: seq<Byte>, final: seq<Byte>, other: seq<Byte>)
    requires !(final <= seen) && seen <= other && EndsWith(other, final)
    ensures |Merged(seen, final)| <= |other|
  {
    if !(seen <= final) {
      var n := Min(|seen|, |final|);
      BestOverlapIsLongest(seen, final, n);
      var added := |other| - |seen|;
      if added < |final| {
        var k := |final| - added;
        assert other[|other| - |final|..] == final;
        if k <= |seen| {
          ExtensionOverlaps(seen, final, other, k);
        }
      }
    }
  }

  lemma ExtensionOverlaps(seen: seq<Byte>, final: seq<Byte>, other: seq<Byte>, k: nat)
    requires seen <= other && EndsWith(other, final) && k <= |seen| && |final| == k + |other| - |seen|
    ensures Overlaps(seen, final, k)
  {
    assert forall i :: 0 <= i < k ==> seen[|seen| - k + i] == other[|seen| - k + i] == final[i];
  }

  /** Merging the same final log again appends nothing. */
  lemma MergeIsIdempotent(seen: seq<Byte>, final: seq<Byte>)
    ensures Merged(Merged(seen, final), final) == Merged(seen, final)
  {
    MergeCovers(seen, final);
    var m := Merged(seen, final);
    if final <= seen {
      assert m == seen;
    } else if !(m <= final) && !(final <= m) {
      BestOverlapIsLongest(m, final, Min(|m|, |final|));
      assert Overlaps(m, final, |final|);
    }
  }

  // ------------------------------------------------------- with a window at hand

  /** The guard a caller can evaluate on the retained window: the final log reaches past the
      head, or it repeats the newest bytes. */
  predicate Recognised(head: seq<Byte>, tail: seq<Byte>, final: seq<Byte>) {
    |final| >= |head| || EndsWith(tail, final)
  }

  /** The bytes of `log[..b]` that `log[..a]` lacks. */
  function Lacking(log: seq<Byte>, a: nat, b: nat): seq<Byte>
    requires a <= |log| && b <= |log|
  {
    if b > a then log[a..b] else []
  }

  lemma HeadOfPrefix(cap: nat, log: seq<Byte>, a: nat)
    requires a <= |log|
    ensures HeadOf(cap, log[..a]) == log[..|HeadOf(cap, log[..a])|]
    ensures TailOf(cap, log[..a]) == log[a - |TailOf(cap, log[..a])|..a]
  {
  }

  /** The live stream delivered `log[..a]` into a window that had to drop some of it, and the
      final log is `log[..b]`: merging appends exactly the bytes the stream lacked if and only
      if the window recognises the final log. */
  lemma WindowMergeExact(cap: nat, log: seq<Byte>, a: nat, b: nat)
    requires a <= |log| && b <= |log| && OmittedOf(cap, log[..a]) > 0
    ensures var s, final := log[..a], log[..b];
            (Missing(Offset(cap, s, final), final) == Lacking(log, a, b)) == Recognised(HeadOf(cap, s), TailOf(cap, s), final)
  {
    var s, final := log[..a], log[..b];
    var head, tail := HeadOf(cap, s), TailOf(cap, s);
    RetainsAllWithinCap(cap, s);
    HeadOfPrefix(cap, log, a);
    if b >= |head| {
      WindowMergeLong(cap, log, a, b);
    } else {
      WindowMergeShort(head, tail, log, a, b);
    }
  }

  lemma WindowMergeLong(cap: nat, log: seq<Byte>, a: nat, b: nat)
    requires a <= |log| && b <= |log| && OmittedOf(cap, log[..a]) > 0 && b >= |HeadOf(cap, log[..a])|
    ensures Missing(Offset(cap, log[..a], log[..b]), log[..b]) == Lacking(log, a, b)
  {
    var s, final := log[..a], log[..b];
    var head, tail := HeadOf(cap, s), TailOf(cap, s);
    HeadOfPrefix(cap, log, a);
    assert head <= final;
    if b >= a {
      assert final[a - |tail|..a] == log[a - |tail|..a];
      assert Offset(cap, s, final) == a;
      assert b > a ==> final[a..] == log[a..b];
    }
  }

  lemma WindowMergeShort(head: seq<Byte>, tail: seq<Byte>, log: seq<Byte>, a: nat, b: nat)
    requires b < |head| <= a <= |log| && |tail| <= a && |head| <= |tail| + 1
    ensures Missing(WindowOffset(head, tail, a, log[..b]), log[..b]) == [] <==> EndsWith(tail, log[..b])
  {
    var final := log[..b];
    BestOverlapIsLongest(tail, final, Min(|tail|, b));
    assert final[..b] == final;
    assert b <= |tail|;
    assert Overlaps(tail, final, b) <==> EndsWith(tail, final);
  }

  /** Neither the head nor the newest bytes place the final log where the stream stands. */
  predicate Unplaced(head: seq<Byte>, tail: seq<Byte>, observed: nat, final: seq<Byte>)
    requires |tail| <= observed
  {
    !(head <= final) || (|final| > observed && tail != final[observed - |tail|..observed])
  }

  lemma OverlapInTail(s: seq<Byte>, tail: seq<Byte>, final: seq<Byte>, k: nat)
    requires |tail| <= |s| && tail == s[|s| - |tail|..] && k <= |tail|
    ensures Overlaps(tail, final, k) <==> Overlaps(s, final, k)
  {
    assert tail[|tail| - k..] == s[|s| - k..];
  }

  lemma UnplacedJoins(cap: nat, s: seq<Byte>, final: seq<Byte>)
    requires OmittedOf(cap, s) > 0 && Unplaced(HeadOf(cap, s), TailOf(cap, s), |s|, final)
    ensures var m, tail := s + Missing(Offset(cap, s, final), final), TailOf(cap, s);
      && EndsWith(m, final) && |m| <= |s| + |final|
      && forall k: nat :: Overlaps(tail, final, k) ==> |m| <= |s| + |final| - k
  {
    var tail := TailOf(cap, s);
    var n := Min(|tail|, |final|);
    BestOverlapIsLongest(tail, final, n);
    var k := BestOverlap(tail, final, n);
    OverlapInTail(s, tail, final, k);
    OverlapJoins(s, final, k);
    assert Missing(Offset(cap, s, final), final) == final[k..];
  }

  /** An unplaced final log is joined where it overlaps the newest bytes at hand: what was seen then
      ends with it, and no extension that overlaps what was seen by no more than those is shorter. */
  lemma WindowMergeShortest(cap: nat, s: seq<Byte>, final: seq<Byte>, other: seq<Byte>)
    requires OmittedOf(cap, s) > 0 && Unplaced(HeadOf(cap, s), TailOf(cap, s), |s|, final)
    requires s <= other && EndsWith(other, final) && |final| - (|other| - |s|) <= |TailOf(cap, s)|
    ensures var m := s + Missing(Offset(cap, s, final), final); EndsWith(m, final) && |m| <= |other|
  {
    UnplacedJoins(cap, s, final);
    if |other| - |s| < |final| {
      ExtensionInTail(s, TailOf(cap, s), final, other, |final| - (|other| - |s|));
    }
  }

  lemma ExtensionInTail(s: seq<Byte>, tail: seq<Byte>, final: seq<Byte>, other: seq<Byte>, k: nat)
    requires |tail| <= |s| && tail == s[|s| - |tail|..] && k <= |tail|
    requires s <= other && EndsWith(other, final) && |final| == k + |other| - |s|
    ensures Overlaps(tail, final, k)
  {
    ExtensionOverlaps(s, final, other, k);
    OverlapInTail(s, tail, final, k);
  }

  /** A final log the window does not recognise lacks nothing, and its last bytes are delivered
      again, at least one of them. */
  lemma UnrecognisedRepeats(cap: nat, log: seq<Byte>, a: nat, b: nat)
    requires a <= |log| && b <= |log| && OmittedOf(cap, log[..a]) > 0
    requires !Recognised(HeadOf(cap, log[..a]), TailOf(cap, log[..a]), log[..b])
    ensures var again := Missing(Offset(cap, log[..a], log[..b]), log[..b]);
            Lacking(log, a, b) == [] && again != [] && EndsWith(log[..b], again)
  {
    WindowMergeExact(cap, log, a, b);
  }

  /** The failing family is real at every window the program can have: after an `a` and as many `b`s
      as the window holds, the final log `a` is delivered a second time, whole. */
  lemma ShortFinalLogRepeats(limit: Option<nat>, cap: nat, log: seq<Byte>, final: seq<Byte>)
    requires cap == DedupCap(limit) && log == [97] + seq(cap, _ => 98) && final == [97]
    ensures final == log[..1] && OmittedOf(cap, log) > 0 && Missing(Offset(cap, log, final), final) == final
  {
    RepeatWindow(cap, log);
    RepeatOffset(cap, log, HeadOf(cap, log), TailOf(cap, log), final);
  }

  lemma RepeatWindow(cap: nat, log: seq<Byte>)
    requires cap >= 4 && log == [97] + seq(cap, _ => 98)
    ensures OmittedOf(cap, log) > 0 && |HeadOf(cap, log)| > 1
    ensures var tail := TailOf(cap, log); |tail| >= 1 && tail[|tail| - 1] == 98
  {
  }

  lemma RepeatOffset(cap: nat, log: seq<Byte>, head: seq<Byte>, tail: seq<Byte>, final: seq<Byte>)
    requires head == HeadOf(cap, log) && tail == TailOf(cap, log) && OmittedOf(cap, log) > 0
    requires |head| > 1 && |tail| >= 1 && tail[|tail| - 1] == 98 && final == [97]
    ensures Missing(Offset(cap, log, final), final) == final
  {
    assert !Overlaps(tail, final, 1) by {
      assert tail[|tail| - 1..][0] == 98 && final[..1][0] == 97;
    }
    assert BestOverlap(tail, final, 0) == 0 && BestOverlap(tail, final, 1) == 0;
  }

  /** A whole run of one stream: whatever the window, once the final log is merged the captured
      bytes are the longer of the two logs, as long as the window recognises the final log. */
  lemma RunCapturesLongerLog(cap: nat, log: seq<Byte>, a: nat, b: nat)
    requires a <= |log| && b <= |log|
    requires var s := log[..a]; OmittedOf(cap, s) == 0 || Recognised(HeadOf(cap, s), TailOf(cap, s), log[..b])
    ensures log[..a] + Missing(Offset(cap, log[..a], log[..b]), log[..b]) == log[..Max(a, b)]
  {
    var s, final := log[..a], log[..b];
    if OmittedOf(cap, s) == 0 {
      assert a <= b ==> s <= final;
      assert b <= a ==> final <= s;
      assert a < b ==> final[a..] == log[a..b];
    } else {
      WindowMergeExact(cap, log, a, b);
    }
    assert a < b ==> log[..a] + log[a..b] == log[..b];
  }
}
