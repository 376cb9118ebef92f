/** Everything a session's output passes through: both streams, live chunks in the order they
    arrive, the final log merged behind them, and one sink for all of it. */
module SessionLogs {
  import opened Bytes
  import opened Capture
  import opened LogMerge

  /** A live chunk of one of the two streams. */
  datatype Live = Live(err: bool, bytes: seq<Byte>)

  /** The final log of both streams. */
  datatype Final = Final(out: seq<Byte>, err: seq<Byte>)

  /** The bytes of one stream among the chunks. */
  function SideBytes(chunks: seq<Live>, err: bool): seq<Byte> {
    if chunks == [] then []
    else
      var last := chunks[|chunks| - 1];
      SideBytes(chunks[..|chunks| - 1], err) + (if last.err == err then last.bytes else [])
  }

  lemma SideBytesSnoc(chunks: seq<Live>, n: nat, err: bool)
    requires n < |chunks|
    ensures SideBytes(chunks[..n + 1], err) == SideBytes(chunks[..n], err) + (if chunks[n].err == err then chunks[n].bytes else [])
  {
    assert chunks[..n + 1][..n] == chunks[..n];
  }

  /** What one stream has seen once the final log is merged. */
  function MergedWith(cap: nat, seen: seq<Byte>, final: seq<Byte>): seq<Byte> {
    seen + Missing(Offset(cap, seen, final), final)
  }

  /** What a final log adds to what one stream has seen. */
  function Added(cap: nat, seen: seq<Byte>, final: seq<Byte>): seq<Byte> {
    Missing(Offset(cap, seen, final), final)
  }

  /** A delivery of nothing is not made; any other can be refused. */
  predicate Refused(bytes: seq<Byte>, answer: bool) {
    bytes != [] && !answer
  }

  /** The first `n` chunks were offered from step `first` on, and all were accepted but the last if
      that failed the sink. */
  predicate Offered(chunks: seq<Live>, n: nat, accepts: nat -> bool, first: nat, failed: bool) {
    && n <= |chunks|
    && (forall i :: 0 <= i < n - (if failed then 1 else 0) ==> !Refused(chunks[i].bytes, accepts(first + i)))
    && (failed ==> n > 0 && Refused(chunks[n - 1].bytes, accepts(first + n - 1)))
  }

  lemma OfferedNext(chunks: seq<Live>, n: nat, accepts: nat -> bool, first: nat, failed: bool)
    requires n < |chunks| && Offered(chunks, n, accepts, first, false) && (failed <==> Refused(chunks[n].bytes, accepts(first + n)))
    ensures Offered(chunks, n + 1, accepts, first, failed)
  {
  }

  lemma BytesNext(base: seq<Byte>, chunks: seq<Live>, n: nat, err: bool)
    requires n < |chunks|
    ensures base + SideBytes(chunks[..n], err) + (if chunks[n].err == err then chunks[n].bytes else []) == base + SideBytes(chunks[..n + 1], err)
  {
    SideBytesSnoc(chunks, n, err);
    SeqAssociates(base, SideBytes(chunks[..n], err), if chunks[n].err == err then chunks[n].bytes else []);
  }

  class SessionOutput {
    const out: Side
    const err: Side
    /** The sink's answer to a delivery made at step n. */
    const accepts: nat -> bool
    var step: nat
    var sinkFailed: bool

    ghost predicate Apart() {
      && out != err
      && out.raw != out.capture && err.raw != err.capture
      && out.raw != err.raw && out.raw != err.capture && out.capture != err.raw && out.capture != err.capture
    }

    /** Until the sink fails it has been given exactly what was captured. */
    ghost predicate Valid()
      reads this, out, err, out.raw, out.capture, err.raw, err.capture
    {
      && Apart() && out.Valid() && err.Valid()
      && (!sinkFailed ==> out.delivered == out.raw.seen && err.delivered == err.raw.seen)
    }

    constructor (limit: Option<nat>, accepts: nat -> bool)
      ensures Valid() && fresh(out) && fresh(err) && fresh(out.raw) && fresh(out.capture) && fresh(err.raw) && fresh(err.capture)
      ensures !sinkFailed && step == 0 && out.raw.seen == [] && err.raw.seen == [] && this.accepts == accepts
      ensures out.raw.cap == err.raw.cap == DedupCap(limit) && out.capture.cap == err.capture.cap == CapOf(limit)
    {
      out := new Side(limit);
      err := new Side(limit);
      this.accepts, step, sinkFailed := accepts, 0, false;
    }

    /** One live chunk; a refusal fails the sink and ends the stream. */
    method Deliver(chunk: Live)
      requires Valid() && !sinkFailed
      modifies this, out, err, out.raw, out.capture, err.raw, err.capture
      ensures Valid() && step == old(step) + 1
      ensures sinkFailed <==> Refused(chunk.bytes, accepts(old(step)))
      ensures out.raw.seen == old(out.raw.seen) + (if chunk.err then [] else chunk.bytes)
      ensures err.raw.seen == old(err.raw.seen) + (if chunk.err then chunk.bytes else [])
    {
      var ok;
      if chunk.err {
        ok := err.Deliver(chunk.bytes, accepts(step));
      } else {
        ok := out.Deliver(chunk.bytes, accepts(step));
      }
      step := step + 1;
      sinkFailed := !ok;
    }

    ghost predicate Followed(chunks: seq<Live>, n: nat, out0: seq<Byte>, err0: seq<Byte>, first: nat)
      requires n <= |chunks|
      reads this, out, err, out.raw, out.capture, err.raw, err.capture
    {
      && Valid() && step == first + n
      && Offered(chunks, n, accepts, first, sinkFailed)
      && out.raw.seen == out0 + SideBytes(chunks[..n], false)
      && err.raw.seen == err0 + SideBytes(chunks[..n], true)
    }

    method FollowOne(chunks: seq<Live>, n: nat, ghost out0: seq<Byte>, ghost err0: seq<Byte>, ghost first: nat)
      requires n < |chunks| && !sinkFailed && Followed(chunks, n, out0, err0, first)
      modifies this, out, err, out.raw, out.capture, err.raw, err.capture
      ensures Followed(chunks, n + 1, out0, err0, first)
    {
      BytesNext(out0, chunks, n, false);
      BytesNext(err0, chunks, n, true);
      Deliver(chunks[n]);
      OfferedNext(chunks, n, accepts, first, sinkFailed);
    }

    /** The stream task: chunks in order, up to the first that the sink refuses. */
    method Follow(chunks: seq<Live>) returns (n: nat)
      requires Valid() && !sinkFailed
      modifies this, out, err, out.raw, out.capture, err.raw, err.capture
      ensures Valid() && step == old(step) + n
      ensures Offered(chunks, n, accepts, old(step), sinkFailed) && (!sinkFailed ==> n == |chunks|)
      ensures out.raw.seen == old(out.raw.seen) + SideBytes(chunks[..n], false)
      ensures err.raw.seen == old(err.raw.seen) + SideBytes(chunks[..n], true)
    {
      ghost var out0, err0, first := out.raw.seen, err.raw.seen, step;
      n := 0;
      while n < |chunks| && !sinkFailed
        invariant n <= |chunks| && Followed(chunks, n, out0, err0, first)
      {
        FollowOne(chunks, n, out0, err0, first);
        n := n + 1;
      }
    }

    /** Appends what the stream missed of the final log, stdout before stderr; a refusal of either
        fails the sink. */
    method Append(final: Final)
      requires Valid()
      modifies this, out, err, out.raw, out.capture, err.raw, err.capture
      ensures Valid() && step == old(step) + 2
      ensures sinkFailed <==>
        || old(sinkFailed)
        || Refused(Added(out.raw.cap, old(out.raw.seen), final.out), accepts(old(step)))
        || Refused(Added(err.raw.cap, old(err.raw.seen), final.err), accepts(old(step) + 1))
      ensures out.raw.seen == MergedWith(out.raw.cap, old(out.raw.seen), final.out)
      ensures err.raw.seen == MergedWith(err.raw.cap, old(err.raw.seen), final.err)
    {
      AppendSide(out, final.out);
      AppendSide(err, final.err);
    }

    method AppendSide(side: Side, final: seq<Byte>)
      requires Valid() && (side == out || side == err)
      modifies this, side, side.raw, side.capture
      ensures Valid() && step == old(step) + 1
      ensures sinkFailed <==> old(sinkFailed) || Refused(Added(side.raw.cap, old(side.raw.seen), final), accepts(old(step)))
      ensures side.raw.seen == MergedWith(side.raw.cap, old(side.raw.seen), final)
    {
      sinkFailed := side.AppendFinal(final, sinkFailed, accepts(step));
      step := step + 1;
    }
  }
}
