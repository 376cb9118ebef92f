/** Exact bytes over a text channel: the Bash encoder of two concurrent streams, the driver's
    stateful decoder, and the two of them end to end. */
module EncodedExec {
  import opened Bytes
  import opened TextLines
  import opened OutputCodec
  import opened Capture
  import opened OutputDecoder

  // ------------------------------------------------------- the encoder

  /** The bytes a quoting of a chunk escapes. */
  type Quoter = seq<Byte> -> seq<bool>

  ghost predicate FaithfulQuoter(marks: Quoter) {
    forall chunk: seq<Byte> :: Faithful(chunk, marks(chunk))
  }

  /** One line that the decoder reads back as bytes of `stream`. */
  ghost predicate GoodRecord(stream: Stream, r: seq<Byte>) {
    && IsLine(r) && |r| <= MAX_FRAME_BYTES && r != [NEWLINE]
    && ReadRecord(r).Some?
    && ReadRecord(r).value.stream == stream && ReadRecord(r).value.bytes != []
  }

  ghost predicate GoodRecords(stream: Stream, records: seq<seq<Byte>>) {
    forall i :: 0 <= i < |records| ==> GoodRecord(stream, records[i])
  }

  /** The bytes the records carry. */
  function Payload(records: seq<seq<Byte>>): seq<Byte> {
    if records == [] then []
    else (if ReadRecord(records[0]).Some? then ReadRecord(records[0]).value.bytes else []) + Payload(records[1..])
  }

  lemma {:induction false} PayloadSnoc(records: seq<seq<Byte>>, r: seq<Byte>)
    requires ReadRecord(r).Some?
    ensures Payload(records + [r]) == Payload(records) + ReadRecord(r).value.bytes
  {
    if records == [] {
      assert records + [r] == [r] && Payload([r]) == ReadRecord(r).value.bytes;
    } else {
      assert (records + [r])[1..] == records[1..] + [r];
      PayloadSnoc(records[1..], r);
    }
  }

  lemma TagRoundTrip(stream: Stream)
    ensures StreamTag(Tag(stream)) == Some(stream)
  {
  }

  lemma ChunkRecordIsGood(stream: Stream, chunk: seq<Byte>, escaped: seq<bool>)
    requires Faithful(chunk, escaped) && 0 < |chunk| <= CHUNK_BYTES
    ensures GoodRecord(stream, ChunkRecord(stream, chunk, escaped))
    ensures ReadRecord(ChunkRecord(stream, chunk, escaped)) == Some(Delivery(stream, chunk))
  {
    var r := ChunkRecord(stream, chunk, escaped);
    RecordSize(stream, chunk, escaped);
    QuotedRoundTrip(chunk, escaped);
    TagRoundTrip(stream);
    assert r[1..|r| - 1] == PercentQ(chunk, escaped);
  }

  lemma NulBody(body: seq<Byte>)
    requires body == [BACKSLASH, 48]
    ensures DecodeAnsiC(body) == Ok([NUL])
  {
    assert NamedEscape(body[1]).None? && IsOctal(body[1]) && body[0] == BACKSLASH;
    assert OctalLength(body[1..]) == 1;
    var digits := body[1..2];
    assert digits == [48] && digits[..0] == [];
    assert OctalValue(digits) == OctalValue(digits[..0]) * 8 + OctalDigit(digits[0]);
    assert OctalValue(digits) == 0;
    assert body[2..] == [] && DecodeAnsiC(body[2..]) == Ok([]);
    var nul: seq<Byte> := [NUL];
    assert DecodeAnsiC(body) == Prepend(nul, DecodeAnsiC(body[2..])) && nul + [] == nul;
  }

  lemma NulRecordIsGood(stream: Stream)
    ensures GoodRecord(stream, NulRecord(stream))
    ensures ReadRecord(NulRecord(stream)) == Some(Delivery(stream, [NUL]))
  {
    var r := NulRecord(stream);
    TagRoundTrip(stream);
    var quoted := r[1..|r| - 1];
    assert quoted == [DOLLAR, QUOTE, BACKSLASH, 48, QUOTE];
    assert quoted[2..] == [BACKSLASH, 48, QUOTE];
    assert quoted[2..][..2] == [BACKSLASH, 48];
    NulBody(quoted[2..][..2]);
    FirstUnique(r, NEWLINE, 6, First(r, NEWLINE));
  }

  /** Whatever was read when input ran dry has been written. */
  ghost predicate Flushed(records: seq<seq<Byte>>, input: seq<Byte>, ready: nat -> bool, upTo: nat)
    requires upTo <= |input|
  {
    forall j: nat :: j < upTo && !ready(j) ==> HasPrefix(records, input[..j + 1])
  }

  ghost predicate HasPrefix(records: seq<seq<Byte>>, data: seq<Byte>) {
    exists k :: 0 <= k <= |records| && Payload(records[..k]) == data
  }

  /** The encoder's loop over one stream: bytes gather in a chunk that is written when it is
      full, when no more input is ready, before a NUL, and at the end of input. `count` is 96,
      or 1 on a Bash without the readiness test. */
  method Encode(stream: Stream, input: seq<Byte>, ready: nat -> bool, marks: Quoter, count: nat)
    returns (records: seq<seq<Byte>>)
    requires 1 <= count <= CHUNK_BYTES && FaithfulQuoter(marks)
    ensures GoodRecords(stream, records) && Payload(records) == input
    ensures Flushed(records, input, ready, |input|)
  {
    records := [];
    var chunk: seq<Byte> := [];
    var i := 0;
    while i < |input|
      invariant 0 <= i <= |input| && |chunk| < count
      invariant GoodRecords(stream, records)
      invariant Payload(records) + chunk == input[..i]
      invariant Flushed(records, input, ready, i)
    {
      var byte := input[i];
      ghost var before := records;
      assert input[..i + 1] == input[..i] + [byte];
      records, chunk := TakeByte(stream, records, chunk, byte, ready(i), marks, count);
      StillFlushed(before, records, input, ready, i, chunk);
      i := i + 1;
    }
    assert input[..i] == input;
    ghost var before := records;
    records := Write(stream, records, chunk, marks);
    FlushedGrows(before, records, input, ready, i);
  }

  /** One byte into the chunk, or what it makes the encoder write. */
  method TakeByte(stream: Stream, records: seq<seq<Byte>>, chunk: seq<Byte>, byte: Byte, more: bool, marks: Quoter, count: nat)
    returns (r: seq<seq<Byte>>, kept: seq<Byte>)
    requires FaithfulQuoter(marks) && |chunk| < count <= CHUNK_BYTES && GoodRecords(stream, records)
    ensures GoodRecords(stream, r) && records <= r && |kept| < count
    ensures Payload(r) + kept == Payload(records) + chunk + [byte]
    ensures !more ==> kept == []
  {
    if byte == NUL {
      r := Write(stream, records, chunk, marks);
      r := WriteNul(stream, r);
      kept := [];
    } else {
      r, kept := records, chunk + [byte];
      SeqAssociates(Payload(records), chunk, [byte]);
      if |kept| >= count || !more {
        r := Write(stream, records, kept, marks);
        kept := [];
      }
    }
    assert kept == [] ==> Payload(r) + kept == Payload(r);
  }

  /** `printf '%s%q\n'` of a chunk with bytes in it. */
  method Write(stream: Stream, records: seq<seq<Byte>>, chunk: seq<Byte>, marks: Quoter) returns (r: seq<seq<Byte>>)
    requires FaithfulQuoter(marks) && |chunk| <= CHUNK_BYTES && GoodRecords(stream, records)
    ensures GoodRecords(stream, r) && records <= r
    ensures Payload(r) == Payload(records) + chunk
  {
    if chunk == [] {
      return records;
    }
    var record := ChunkRecord(stream, chunk, marks(chunk));
    ChunkRecordIsGood(stream, chunk, marks(chunk));
    PayloadSnoc(records, record);
    r := records + [record];
  }

  method WriteNul(stream: Stream, records: seq<seq<Byte>>) returns (r: seq<seq<Byte>>)
    requires GoodRecords(stream, records)
    ensures GoodRecords(stream, r) && records <= r
    ensures Payload(r) == Payload(records) + [NUL]
  {
    NulRecordIsGood(stream);
    PayloadSnoc(records, NulRecord(stream));
    r := records + [NulRecord(stream)];
  }

  lemma FlushedGrows(before: seq<seq<Byte>>, after: seq<seq<Byte>>, input: seq<Byte>, ready: nat -> bool, i: nat)
    requires i <= |input| && before <= after
    requires Flushed(before, input, ready, i)
    ensures Flushed(after, input, ready, i)
  {
    forall j: nat | j < i && !ready(j)
      ensures HasPrefix(after, input[..j + 1])
    {
      var k :| 0 <= k <= |before| && Payload(before[..k]) == input[..j + 1];
      assert after[..k] == before[..k];
    }
  }

  lemma StillFlushed(before: seq<seq<Byte>>, after: seq<seq<Byte>>, input: seq<Byte>, ready: nat -> bool, i: nat,
                     chunk: seq<Byte>)
    requires i < |input| && before <= after && Flushed(before, input, ready, i)
    requires Payload(after) + chunk == input[..i + 1] && (!ready(i) ==> chunk == [])
    ensures Flushed(after, input, ready, i + 1)
  {
    FlushedGrows(before, after, input, ready, i);
    assert after[..|after|] == after;
    assert chunk == [] ==> Payload(after) + chunk == Payload(after);
  }

  // ------------------------------------------------------- end to end

  /** `m` is some interleaving of whole records of `a` and `b`. */
  predicate Interleaves(a: seq<seq<Byte>>, b: seq<seq<Byte>>, m: seq<seq<Byte>>) {
    if m == [] then a == [] && b == []
    else (
      || (a != [] && m[0] == a[0] && Interleaves(a[1..], b, m[1..]))
      || (b != [] && m[0] == b[0] && Interleaves(a, b[1..], m[1..])))
  }

  /** The bytes delivered on one stream, in order. */
  function StreamBytes(calls: seq<Delivery>, stream: Stream): seq<Byte> {
    if calls == [] then []
    else (if calls[0].stream == stream then calls[0].bytes else []) + StreamBytes(calls[1..], stream)
  }

  lemma {:induction false} StreamBytesAppend(a: seq<Delivery>, b: seq<Delivery>, stream: Stream)
    ensures StreamBytes(a + b, stream) == StreamBytes(a, stream) + StreamBytes(b, stream)
    decreases |a|
  {
    if a == [] {
      assert a + b == b;
    } else {
      assert (a + b)[1..] == a[1..] + b && (a + b)[0] == a[0];
      StreamBytesAppend(a[1..], b, stream);
    }
  }

  lemma {:induction false} InterleavedRecords(a: seq<seq<Byte>>, b: seq<seq<Byte>>, m: seq<seq<Byte>>, w: Wire)
    requires Interleaves(a, b, m) && w.read == ReadRecord
    requires GoodRecords(Stdout, a) && GoodRecords(Stderr, b)
    ensures forall i :: 0 <= i < |m| ==> IsLine(m[i]) && Meaning(w, m[i]).Record?
    ensures StreamBytes(Deliveries(w, m), Stdout) == Payload(a)
    ensures StreamBytes(Deliveries(w, m), Stderr) == Payload(b)
    decreases |m|
  {
    if m != [] {
      var first := m[0];
      var d := [ReadRecord(first).value];
      if a != [] && first == a[0] && Interleaves(a[1..], b, m[1..]) {
        InterleavedRecords(a[1..], b, m[1..], w);
        assert GoodRecord(Stdout, first);
      } else {
        InterleavedRecords(a, b[1..], m[1..], w);
        assert GoodRecord(Stderr, first);
      }
      assert Deliveries(w, m) == d + Deliveries(w, m[1..]);
      OneDelivery(d[0], Deliveries(w, m[1..]));
    }
  }

  lemma OneDelivery(d: Delivery, rest: seq<Delivery>)
    ensures StreamBytes([d] + rest, d.stream) == d.bytes + StreamBytes(rest, d.stream)
    ensures forall s: Stream :: s != d.stream ==> StreamBytes([d] + rest, s) == StreamBytes(rest, s)
  {
    assert ([d] + rest)[1..] == rest;
  }

  /** For all outputs of both streams, any interleaving of their whole records and any cutting
      of the transported text, the decoder delivers exactly both streams and loses nothing. */
  lemma EndToEnd(d: Decoder, w: Wire, a: seq<seq<Byte>>, b: seq<seq<Byte>>, m: seq<seq<Byte>>,
                 fragments: seq<seq<Byte>>)
    requires IsFresh(d) && Accepting(w) && w.read == ReadRecord
    requires GoodRecords(Stdout, a) && GoodRecords(Stderr, b) && Interleaves(a, b, m)
    requires Concat(fragments) == Concat(m)
    ensures var e := Finish(FeedAll(d, w, fragments));
            && e.frames == 0 && e.dropped == 0
            && StreamBytes(e.calls, Stdout) == Payload(a)
            && StreamBytes(e.calls, Stderr) == Payload(b)
  {
    AnyFragmentation(d, w, fragments);
    LinesOfRecordsOf(a, b, m, w);
    FinishedLoss(d, w, Concat(m));
    AllAccepted(w, m);
  }

  lemma LinesOfRecordsOf(a: seq<seq<Byte>>, b: seq<seq<Byte>>, m: seq<seq<Byte>>, w: Wire)
    requires Interleaves(a, b, m) && w.read == ReadRecord
    requires GoodRecords(Stdout, a) && GoodRecords(Stderr, b)
    ensures Split(Concat(m)) == m && Rest(Concat(m)) == []
    ensures forall i :: 0 <= i < |m| ==> Meaning(w, m[i]).Record?
    ensures StreamBytes(Deliveries(w, m), Stdout) == Payload(a)
    ensures StreamBytes(Deliveries(w, m), Stderr) == Payload(b)
  {
    InterleavedRecords(a, b, m, w);
    LinesOfRecords(m);
  }

  lemma {:induction false} AllAccepted(w: Wire, lines: seq<seq<Byte>>)
    requires forall i :: 0 <= i < |lines| ==> Meaning(w, lines[i]).Record?
    ensures AcceptedBytes(w, lines) == |Concat(lines)|
    ensures UnreadableLines(w, lines) == 0
  {
    if lines != [] {
      AllAccepted(w, lines[1..]);
    }
  }

  // ------------------------------------------------------- the decoder object

  /** What the transport reported about its own captures. */
  datatype Transport = Transport(stdoutTruncated: bool, stderrTruncated: bool)

  datatype Outcome = Outcome(
    stdout: seq<Byte>,
    stderr: seq<Byte>,
    truncated: bool,
    droppedFrames: nat,
    droppedBytes: nat)

  class FramedOutput {
    var pending: seq<Byte>
    /** A discarded record has not reached its newline yet. */
    var discarding: bool
    var droppedFrames: nat
    var droppedBytes: nat
    const stdout: OutputCaptureBuffer
    const stderr: OutputCaptureBuffer
    const accepts: nat -> bool
    /** What the sink was given, in order. */
    var calls: seq<Delivery>

    ghost function Wires(): Wire {
      Wire(accepts, ReadRecord)
    }

    /** The decoder's state as the specification sees it. */
    ghost function State(ok: bool): Decoder
      reads this
    {
      Decoder(pending, discarding, droppedFrames, droppedBytes, calls, ok)
    }

    /** The captures hold exactly what was delivered on their stream. */
    ghost predicate Valid()
      reads this, stdout, stderr
    {
      && stdout != stderr && stdout.Valid() && stderr.Valid()
      && stdout.seen == StreamBytes(calls, Stdout)
      && stderr.seen == StreamBytes(calls, Stderr)
      && |pending| <= MAX_FRAME_BYTES && (discarding ==> pending == [])
    }

    constructor (limit: Option<nat>, sink: nat -> bool)
      ensures Valid() && fresh(stdout) && fresh(stderr) && accepts == sink
      ensures pending == [] && !discarding && droppedFrames == 0 && droppedBytes == 0 && calls == []
      ensures stdout.cap == CapOf(limit) && stderr.cap == CapOf(limit)
    {
      stdout := new OutputCaptureBuffer(CapOf(limit));
      stderr := new OutputCaptureBuffer(CapOf(limit));
      pending, discarding, droppedFrames, droppedBytes, calls := [], false, 0, 0, [];
      accepts := sink;
    }

    method Discard(bytes: nat)
      modifies this`droppedFrames, this`droppedBytes
      ensures droppedFrames == old(droppedFrames) + 1 && droppedBytes == old(droppedBytes) + bytes
    {
      droppedFrames := droppedFrames + 1;
      droppedBytes := droppedBytes + bytes;
    }

    /** Captures the bytes and offers a non-empty piece to the sink. */
    method EmitTo(stream: Stream, raw: seq<Byte>) returns (ok: bool)
      requires Valid()
      modifies this`calls, stdout, stderr
      ensures Valid()
      ensures State(ok) == Emit(old(State(true)), Wires(), Delivery(stream, raw))
    {
      if stream == Stdout {
        stdout.Push(raw);
      } else {
        stderr.Push(raw);
      }
      ok := true;
      StreamBytesAppend(calls, [Delivery(stream, raw)], Stdout);
      StreamBytesAppend(calls, [Delivery(stream, raw)], Stderr);
      OneDelivery(Delivery(stream, raw), []);
      if raw != [] {
        ok := accepts(|calls|);
        calls := calls + [Delivery(stream, raw)];
      }
    }

    /** A complete record line, taken out of `pending`. */
    method ReadRecordLine(line: seq<Byte>) returns (ok: bool)
      requires Valid() && pending == [] && 2 <= |line| <= MAX_FRAME_BYTES
      modifies this, stdout, stderr
      ensures Valid()
      ensures State(ok) == EndLine(old(State(true)), Wires(), line)
    {
      ok := true;
      var stream := StreamTag(line[0]);
      if stream.None? {
        Discard(|line|);
        return;
      }
      var decoded := RunDecodeQuoted(line[1..|line| - 1]);
      match decoded {
        case Ok(raw) => ok := EmitTo(stream.value, raw);
        case Err(_) => Discard(|line|);
      }
    }

    /** One stretch of encoded stdout up to its newline, or to the end of what arrived. */
    method TakeSegment(segment: seq<Byte>, complete: bool) returns (ok: bool)
      requires Valid() && segment != []
      requires if complete then IsLine(segment) else NEWLINE !in segment
      modifies this, stdout, stderr
      ensures Valid()
      ensures State(ok) == Feed(old(State(true)), Wires(), segment)
    {
      ok := true;
      ghost var start := State(true);
      if complete {
        FeedLineEnd(start, Wires(), segment);
      } else {
        FeedSegment(start, Wires(), segment);
      }
      if discarding {
        droppedBytes := droppedBytes + |segment|;
        discarding := !complete;
        return;
      }
      if |pending| + |segment| > MAX_FRAME_BYTES {
        Discard(|pending| + |segment|);
        pending := [];
        discarding := !complete;
        return;
      }
      var line := pending + segment;
      if !complete {
        pending := line;
        return;
      }
      pending := [];
      if line != [NEWLINE] {
        assert line[|line| - 1] == NEWLINE;
        ok := ReadRecordLine(line);
      }
    }

    /** The next stretch up to a newline, or what is left. */
    method NextSegment(rest: seq<Byte>) returns (segment: seq<Byte>, more: seq<Byte>, complete: bool)
      requires rest != []
      ensures rest == segment + more && segment != [] && |more| < |rest|
      ensures if complete then IsLine(segment) else NEWLINE !in segment && more == []
    {
      var end := Find(rest, NEWLINE);
      complete := end < |rest|;
      var take := if complete then end + 1 else |rest|;
      segment, more := rest[..take], rest[take..];
      if complete {
        PrefixIsLine(rest);
      }
    }

    /** Decodes one fragment of the transport's output. Stderr is not encoded: it carries the
        wrapper's own startup diagnostics. On a refused delivery the rest is not looked at. */
    method Push(stream: Stream, bytes: seq<Byte>) returns (ok: bool)
      requires Valid()
      modifies this, stdout, stderr
      ensures Valid()
      ensures stream == Stderr ==> State(ok) == Emit(old(State(true)), Wires(), Delivery(Stderr, bytes))
      ensures stream == Stdout ==> State(ok) == Feed(old(State(true)), Wires(), bytes)
    {
      if stream == Stderr {
        ok := EmitTo(Stderr, bytes);
        return;
      }
      ok := true;
      var rest := bytes;
      ghost var start := State(true);
      while rest != []
        invariant Valid() && ok
        invariant Feed(start, Wires(), bytes) == Feed(State(true), Wires(), rest)
        decreases |rest|
      {
        var segment, more, complete := NextSegment(rest);
        ghost var before := State(true);
        FragmentationIndependence(before, Wires(), segment, more);
        ok := TakeSegment(segment, complete);
        rest := more;
        if !ok {
          FeedFailed(State(false), Wires(), rest);
          return;
        }
      }
    }

    /** Ends decoding: an unfinished record is lost, and any loss marks both captures
        truncated, because a torn record's stream is unknown. */
    method FinishRun(transport: Transport) returns (outcome: Outcome)
      requires Valid()
      modifies this`pending, this`droppedFrames, this`droppedBytes
      ensures Valid() && State(true) == Finish(old(State(true)))
      ensures outcome.stdout == HeadOf(stdout.cap, stdout.seen) + TailOf(stdout.cap, stdout.seen)
      ensures outcome.stderr == HeadOf(stderr.cap, stderr.seen) + TailOf(stderr.cap, stderr.seen)
      ensures outcome.droppedFrames == droppedFrames && outcome.droppedBytes == droppedBytes
      ensures outcome.truncated <==>
        transport.stdoutTruncated || transport.stderrTruncated || droppedFrames > 0 || droppedBytes > 0
    {
      if pending != [] {
        var bytes := |pending|;
        pending := [];
        Discard(bytes);
      }
      var lossy := droppedFrames > 0 || droppedBytes > 0;
      outcome := Outcome(
        stdout.head + stdout.tail,
        stderr.head + stderr.tail,
        transport.stdoutTruncated || transport.stderrTruncated || lossy,
        droppedFrames,
        droppedBytes);
    }
  }
}
