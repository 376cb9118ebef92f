/** The whole trip of a command's output: encoded on both streams, interleaved, cut up by the
    transport, decoded and captured. */
module OutputTrip {
  import opened Bytes
  import opened OutputCodec
  import opened OutputDecoder
  import opened Capture
  import opened EncodedExec

  /** The records of both encoders in the order they reach the shared pipe. */
  function Merge(a: seq<seq<Byte>>, b: seq<seq<Byte>>, first: nat -> bool, k: nat): (m: seq<seq<Byte>>)
    ensures Interleaves(a, b, m)
    decreases |a| + |b|
  {
    if a == [] && b == [] then []
    else if b == [] || (a != [] && first(k)) then [a[0]] + Merge(a[1..], b, first, k + 1)
    else [b[0]] + Merge(a, b[1..], first, k + 1)
  }

  lemma AcceptingStaysOk(d: Decoder, w: Wire, bytes: seq<Byte>)
    requires d.ok && Accepting(w)
    ensures Feed(d, w, bytes).ok
  {
    RefusingSink(d, w, bytes);
  }

  /** Every fragment in turn, none refused. */
  method PushAll(output: FramedOutput, fragments: seq<seq<Byte>>)
    requires output.Valid() && Accepting(output.Wires())
    modifies output, output.stdout, output.stderr
    ensures output.Valid()
    ensures output.State(true) == FeedAll(old(output.State(true)), output.Wires(), fragments)
  {
    var i := 0;
    assert fragments[0..] == fragments;
    while i < |fragments|
      invariant 0 <= i <= |fragments| && output.Valid()
      invariant FeedAll(old(output.State(true)), output.Wires(), fragments) == FeedAll(output.State(true), output.Wires(), fragments[i..])
    {
      AcceptingStaysOk(output.State(true), output.Wires(), fragments[i]);
      var ok := output.Push(Stdout, fragments[i]);
      assert ok;
      assert fragments[i..][1..] == fragments[i + 1..];
      i := i + 1;
    }
  }

  /** For all outputs of both streams, whatever the encoders' chunking, the order of their records
      and the transport's fragments, exactly both outputs are delivered, nothing is counted as
      lost, and the captures hold the head and tail of each. */
  method Carry(out: seq<Byte>, err: seq<Byte>, readyOut: nat -> bool, readyErr: nat -> bool, marks: Quoter, count: nat,
               first: nat -> bool, cut: seq<Byte> -> seq<seq<Byte>>, limit: Option<nat>)
      returns (outcome: Outcome, delivered: seq<Delivery>)
    requires 1 <= count <= CHUNK_BYTES && FaithfulQuoter(marks)
    requires forall text :: Concat(cut(text)) == text
    ensures StreamBytes(delivered, Stdout) == out && StreamBytes(delivered, Stderr) == err
    ensures outcome.droppedFrames == 0 && outcome.droppedBytes == 0 && !outcome.truncated
    ensures outcome.stdout == HeadOf(CapOf(limit), out) + TailOf(CapOf(limit), out)
    ensures outcome.stderr == HeadOf(CapOf(limit), err) + TailOf(CapOf(limit), err)
  {
    var a := Encode(Stdout, out, readyOut, marks, count);
    var b := Encode(Stderr, err, readyErr, marks, count);
    var m := Merge(a, b, first, 0);
    var fragments := cut(Concat(m));
    var output := new FramedOutput(limit, _ => true);
    ghost var start := output.State(true);
    EndToEnd(start, output.Wires(), a, b, m, fragments);
    PushAll(output, fragments);
    outcome := output.FinishRun(Transport(false, false));
    delivered := output.calls;
  }
}
