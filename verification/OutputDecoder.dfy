/** The streaming decoder of encoded output: records arrive in arbitrary fragments, unreadable
    ones are given up through their newline and counted, and decoding resumes after it. */
module OutputDecoder {
  import opened Bytes
  import opened TextLines
  import opened OutputCodec
  import opened Capture

  /** One delivery of decoded bytes to the captures and the caller's sink. */
  datatype Delivery = Delivery(stream: Stream, bytes: seq<Byte>)

  /** `calls` is the ordered list of deliveries; `ok` falls when the sink refuses one, which
      ends decoding. */
  datatype Decoder = Decoder(
    pending: seq<Byte>,
    discarding: bool,
    frames: nat,
    dropped: nat,
    calls: seq<Delivery>,
    ok: bool)

  /** What the decoder faces: the sink's answer to its n-th delivery (a caller without a sink
      accepts all), and the reading of one record line. Framing is the same for every reading. */
  datatype Wire = Wire(accepts: nat -> bool, read: seq<Byte> -> Option<Delivery>)

  /** The reading of a record: a stream tag, a quoted body and the newline. */
  function ReadRecord(line: seq<Byte>): Option<Delivery> {
    if |line| < 2 || StreamTag(line[0]).None? then None
    else match DecodeQuoted(line[1..|line| - 1])
      case Ok(raw) => Some(Delivery(StreamTag(line[0]).value, raw))
      case Err(_) => None
  }

  predicate Clean(d: Decoder) {
    d.ok && !d.discarding && d.pending == []
  }

  function Emit(d: Decoder, w: Wire, delivery: Delivery): Decoder {
    if delivery.bytes == [] then d
    else d.(calls := d.calls + [delivery], ok := w.accepts(|d.calls|))
  }

  /** What a complete line, newline included, means on its own. */
  datatype LineMeaning = Blank | Record(delivery: Delivery) | Unreadable

  function Meaning(w: Wire, line: seq<Byte>): LineMeaning {
    if |line| > MAX_FRAME_BYTES then Unreadable
    else if line == [NEWLINE] then Blank
    else match w.read(line)
      case Some(delivery) => Record(delivery)
      case None => Unreadable
  }

  function EndLine(d: Decoder, w: Wire, line: seq<Byte>): Decoder {
    match Meaning(w, line)
    case Blank => d
    case Record(delivery) => Emit(d, w, delivery)
    case Unreadable => d.(frames := d.frames + 1, dropped := d.dropped + |line|)
  }

  /** The decoder one byte at a time. */
  function Step(d: Decoder, w: Wire, b: Byte): Decoder {
    if !d.ok then d
    else if d.discarding then d.(dropped := d.dropped + 1, discarding := b != NEWLINE)
    else if |d.pending| + 1 > MAX_FRAME_BYTES then
      d.(frames := d.frames + 1, dropped := d.dropped + |d.pending| + 1, pending := [],
         discarding := b != NEWLINE)
    else if b != NEWLINE then d.(pending := d.pending + [b])
    else EndLine(d.(pending := []), w, d.pending + [b])
  }

  function Feed(d: Decoder, w: Wire, bytes: seq<Byte>): Decoder
    decreases |bytes|
  {
    if bytes == [] then d else Feed(Step(d, w, bytes[0]), w, bytes[1..])
  }

  /** Output that ends inside a record loses that record. */
  function Finish(d: Decoder): Decoder {
    if d.pending == [] then d
    else d.(pending := [], frames := d.frames + 1, dropped := d.dropped + |d.pending|)
  }

  // ------------------------------------------------------- fragmentation

  /** Pushing `x` and then `y` is pushing `x + y`: same state, same ordered deliveries. */
  lemma {:induction false} FragmentationIndependence(d: Decoder, w: Wire, x: seq<Byte>, y: seq<Byte>)
    ensures Feed(Feed(d, w, x), w, y) == Feed(d, w, x + y)
    decreases |x|
  {
    if x == [] {
      assert x + y == y;
    } else {
      assert (x + y)[1..] == x[1..] + y && (x + y)[0] == x[0];
      FragmentationIndependence(Step(d, w, x[0]), w, x[1..], y);
    }
  }

  /** The pushes of a whole run, one per fragment. */
  function FeedAll(d: Decoder, w: Wire, fragments: seq<seq<Byte>>): Decoder
    decreases |fragments|
  {
    if fragments == [] then d else FeedAll(Feed(d, w, fragments[0]), w, fragments[1..])
  }

  lemma {:induction false} AnyFragmentation(d: Decoder, w: Wire, fragments: seq<seq<Byte>>)
    ensures FeedAll(d, w, fragments) == Feed(d, w, Concat(fragments))
    decreases |fragments|
  {
    if fragments != [] {
      AnyFragmentation(Feed(d, w, fragments[0]), w, fragments[1..]);
      FragmentationIndependence(d, w, fragments[0], Concat(fragments[1..]));
    }
  }

  lemma {:induction false} FeedFailed(d: Decoder, w: Wire, bytes: seq<Byte>)
    requires !d.ok
    ensures Feed(d, w, bytes) == d
  {
    if bytes != [] {
      FeedFailed(d, w, bytes[1..]);
    }
  }

  /** A stretch without a newline, taken in one piece. */
  function Segment(d: Decoder, bytes: seq<Byte>): Decoder {
    if bytes == [] then d
    else if d.discarding then d.(dropped := d.dropped + |bytes|)
    else if |d.pending| + |bytes| > MAX_FRAME_BYTES then
      d.(frames := d.frames + 1, dropped := d.dropped + |d.pending| + |bytes|, pending := [], discarding := true)
    else d.(pending := d.pending + bytes)
  }

  lemma {:induction false} FeedSegment(d: Decoder, w: Wire, bytes: seq<Byte>)
    requires d.ok && NEWLINE !in bytes && |d.pending| <= MAX_FRAME_BYTES
    requires d.discarding ==> d.pending == []
    ensures Feed(d, w, bytes) == Segment(d, bytes)
    decreases |bytes|
  {
    if bytes != [] {
      var d' := Step(d, w, bytes[0]);
      assert bytes[0] in bytes;
      FeedSegment(d', w, bytes[1..]);
      assert d.pending + [bytes[0]] + bytes[1..] == d.pending + bytes;
    }
  }

  /** A stretch that ends at its only newline, taken in one piece. */
  function LineEnd(d: Decoder, w: Wire, bytes: seq<Byte>): Decoder
    requires bytes != []
  {
    if d.discarding then d.(dropped := d.dropped + |bytes|, discarding := false)
    else EndLine(d.(pending := []), w, d.pending + bytes)
  }

  lemma FeedLineEnd(d: Decoder, w: Wire, bytes: seq<Byte>)
    requires d.ok && |d.pending| <= MAX_FRAME_BYTES && (d.discarding ==> d.pending == [])
    requires IsLine(bytes)
    ensures Feed(d, w, bytes) == LineEnd(d, w, bytes)
  {
    var body := bytes[..|bytes| - 1];
    assert bytes == body + [NEWLINE];
    FeedSegment(d, w, body);
    FragmentationIndependence(d, w, body, [NEWLINE]);
    var m := Segment(d, body);
    assert Feed(m, w, [NEWLINE]) == Step(m, w, NEWLINE);
    assert d.pending + body + [NEWLINE] == d.pending + bytes;
    assert d.pending + [] == d.pending;
  }

  // ------------------------------------------------------- the per-line reading

  function ReadLines(d: Decoder, w: Wire, lines: seq<seq<Byte>>): Decoder
    decreases |lines|
  {
    if lines == [] then d else ReadLines(EndLine(d, w, lines[0]), w, lines[1..])
  }

  /** An unfinished last line is held back, or given up when it is too long for any record. */
  function HoldBack(d: Decoder, rest: seq<Byte>): Decoder {
    if |rest| <= MAX_FRAME_BYTES then d.(pending := rest)
    else d.(discarding := true, frames := d.frames + 1, dropped := d.dropped + |rest|)
  }

  /** The sink accepts every delivery. */
  ghost predicate Accepting(w: Wire) {
    forall n :: w.accepts(n)
  }

  /** Byte-by-byte decoding refines the simple reading on every text: split it into lines, read
      each line on its own, hold back the rest. */
  lemma {:induction false} RefinesLines(d: Decoder, w: Wire, text: seq<Byte>)
    requires Clean(d) && Accepting(w)
    ensures Feed(d, w, text) == HoldBack(ReadLines(d, w, Split(text)), Rest(text))
    ensures Clean(ReadLines(d, w, Split(text)))
    decreases |text|
  {
    var e := First(text, NEWLINE);
    if e == |text| {
      assert text[..e] == text;
      FeedSegment(d, w, text);
      assert d.pending + text == text;
    } else {
      var line, more := text[..e + 1], text[e + 1..];
      assert text == line + more;
      PrefixIsLine(text);
      FeedLine(d, w, line);
      var d' := EndLine(d, w, line);
      FragmentationIndependence(d, w, line, more);
      RefinesLines(d', w, more);
      assert Split(text)[0] == line && Split(text)[1..] == Split(more);
    }
  }

  lemma FeedLine(d: Decoder, w: Wire, line: seq<Byte>)
    requires Clean(d) && Accepting(w) && IsLine(line)
    ensures Feed(d, w, line) == EndLine(d, w, line) && Clean(EndLine(d, w, line))
  {
    FeedLineEnd(d, w, line);
    assert d.pending + line == line;
    assert d.(pending := []) == d;
  }

  // ------------------------------------------------------- accounting

  function AcceptedBytes(w: Wire, lines: seq<seq<Byte>>): nat {
    if lines == [] then 0
    else (if Meaning(w, lines[0]).Record? then |lines[0]| else 0) + AcceptedBytes(w, lines[1..])
  }

  function BlankLines(w: Wire, lines: seq<seq<Byte>>): nat {
    if lines == [] then 0 else (if Meaning(w, lines[0]).Blank? then 1 else 0) + BlankLines(w, lines[1..])
  }

  function UnreadableLines(w: Wire, lines: seq<seq<Byte>>): nat {
    if lines == [] then 0 else (if Meaning(w, lines[0]).Unreadable? then 1 else 0) + UnreadableLines(w, lines[1..])
  }

  /** The bytes of the unreadable lines. */
  function UnreadableBytes(w: Wire, lines: seq<seq<Byte>>): nat {
    if lines == [] then 0 else (if Meaning(w, lines[0]).Unreadable? then |lines[0]| else 0) + UnreadableBytes(w, lines[1..])
  }

  /** Every byte of some lines is in a record, a blank line's newline or an unreadable line. */
  lemma {:induction false} LinesDivide(w: Wire, lines: seq<seq<Byte>>)
    ensures |Concat(lines)| == AcceptedBytes(w, lines) + BlankLines(w, lines) + UnreadableBytes(w, lines)
  {
    if lines != [] {
      LinesDivide(w, lines[1..]);
    }
  }

  /** The deliveries of readable lines; an empty record delivers nothing. */
  function Deliveries(w: Wire, lines: seq<seq<Byte>>): seq<Delivery> {
    if lines == [] then []
    else
      var m := Meaning(w, lines[0]);
      (if m.Record? && m.delivery.bytes != [] then [m.delivery] else []) + Deliveries(w, lines[1..])
  }

  lemma {:induction false} LinesAccount(d: Decoder, w: Wire, lines: seq<seq<Byte>>)
    requires Clean(d) && Accepting(w)
    ensures var e := ReadLines(d, w, lines);
            && e.frames == d.frames + UnreadableLines(w, lines)
            && |Concat(lines)| == AcceptedBytes(w, lines) + BlankLines(w, lines) + (e.dropped - d.dropped)
            && e.calls == d.calls + Deliveries(w, lines)
            && Clean(e)
    decreases |lines|
  {
    if lines != [] {
      var d' := EndLine(d, w, lines[0]);
      LinesAccount(d', w, lines[1..]);
      var m := Meaning(w, lines[0]);
      var one := if m.Record? && m.delivery.bytes != [] then [m.delivery] else [];
      assert d'.calls == d.calls + one;
      assert d.calls + one + Deliveries(w, lines[1..]) == d.calls + (one + Deliveries(w, lines[1..]));
    }
  }

  predicate IsFresh(d: Decoder) {
    Clean(d) && d.frames == 0 && d.dropped == 0 && d.calls == []
  }

  /** Every pushed byte is accounted for at every point: in an accepted record, in a blank
      line's newline, in the loss, or still pending. `frames` counts the unreadable lines. */
  lemma LossConservation(d: Decoder, w: Wire, text: seq<Byte>)
    requires IsFresh(d) && Accepting(w)
    ensures var e := Feed(d, w, text);
            var lines := Split(text);
            && |text| == AcceptedBytes(w, lines) + BlankLines(w, lines) + e.dropped + |e.pending|
            && e.frames == UnreadableLines(w, lines) + (if |Rest(text)| > MAX_FRAME_BYTES then 1 else 0)
            && e.calls == Deliveries(w, lines)
  {
    RefinesLines(d, w, text);
    LinesAccount(d, w, Split(text));
    SplitIsWhole(text);
    assert [] + Deliveries(w, Split(text)) == Deliveries(w, Split(text));
  }

  /** After finishing, nothing is pending and the whole text is accepted, blank or dropped; an
      unfinished last line is one more lost frame. The run is loss-free exactly when the text
      ends with a newline and every line of it is readable. */
  lemma FinishedLoss(d: Decoder, w: Wire, text: seq<Byte>)
    requires IsFresh(d) && Accepting(w)
    ensures var e := Finish(Feed(d, w, text));
            var lines := Split(text);
            && e.pending == []
            && e.calls == Deliveries(w, lines)
            && e.frames == UnreadableLines(w, lines) + (if Rest(text) == [] then 0 else 1)
            && |text| == AcceptedBytes(w, lines) + BlankLines(w, lines) + e.dropped
            && (e.frames == 0 <==> EndsLine(text) && forall l :: l in lines ==> !Meaning(w, l).Unreadable?)
  {
    RefinesLines(d, w, text);
    LossConservation(d, w, text);
    NoUnreadable(w, Split(text));
    RestOfLines(text);
  }

  lemma {:induction false} NoUnreadable(w: Wire, lines: seq<seq<Byte>>)
    ensures UnreadableLines(w, lines) == 0 <==> forall l :: l in lines ==> !Meaning(w, l).Unreadable?
  {
    if lines != [] {
      NoUnreadable(w, lines[1..]);
      assert forall l :: l in lines <==> l == lines[0] || l in lines[1..];
    }
  }

  // ------------------------------------------------------- resynchronisation

  lemma {:induction false} DeliveriesAppend(w: Wire, a: seq<seq<Byte>>, b: seq<seq<Byte>>)
    ensures Deliveries(w, a + b) == Deliveries(w, a) + Deliveries(w, b)
    ensures UnreadableLines(w, a + b) == UnreadableLines(w, a) + UnreadableLines(w, b)
    decreases |a|
  {
    if a == [] {
      assert a + b == b;
    } else {
      assert (a + b)[1..] == a[1..] + b && (a + b)[0] == a[0];
      DeliveriesAppend(w, a[1..], b);
    }
  }

  /** What every state of a run keeps. */
  predicate Bounded(d: Decoder) {
    |d.pending| <= MAX_FRAME_BYTES && (d.discarding ==> d.pending == [])
  }

  lemma {:induction false} FeedKeepsBounded(d: Decoder, w: Wire, text: seq<Byte>)
    requires Bounded(d)
    ensures Bounded(Feed(d, w, text))
    ensures d.ok && Accepting(w) ==> Feed(d, w, text).ok
    decreases |text|
  {
    if text != [] {
      FeedKeepsBounded(Step(d, w, text[0]), w, text[1..]);
    }
  }

  /** Whatever came before, a newline leaves the decoder clean. */
  lemma NewlineResyncs(d: Decoder, w: Wire, text: seq<Byte>)
    requires d.ok && Bounded(d) && Accepting(w)
    ensures Clean(Feed(d, w, text + [NEWLINE]))
  {
    FragmentationIndependence(d, w, text, [NEWLINE]);
    FeedKeepsBounded(d, w, text);
    var m := Feed(d, w, text);
    assert Feed(m, w, [NEWLINE]) == Step(m, w, NEWLINE);
  }

  lemma {:induction false} UnreadableBytesAppend(w: Wire, a: seq<seq<Byte>>, b: seq<seq<Byte>>)
    ensures UnreadableBytes(w, a + b) == UnreadableBytes(w, a) + UnreadableBytes(w, b)
    decreases |a|
  {
    if a == [] {
      assert a + b == b;
    } else {
      assert (a + b)[1..] == a[1..] + b && (a + b)[0] == a[0];
      UnreadableBytesAppend(w, a[1..], b);
    }
  }

  /** What is lost at any point: the unreadable lines, and an unfinished line over the limit. */
  lemma LossExact(d: Decoder, w: Wire, text: seq<Byte>)
    requires IsFresh(d) && Accepting(w)
    ensures Feed(d, w, text).dropped == UnreadableBytes(w, Split(text)) + (if |Rest(text)| > MAX_FRAME_BYTES then |Rest(text)| else 0)
  {
    LossConservation(d, w, text);
    LinesDivide(w, Split(text));
    SplitIsWhole(text);
    HeldBack(d, w, text);
  }

  lemma HeldBack(d: Decoder, w: Wire, text: seq<Byte>)
    requires IsFresh(d) && Accepting(w)
    ensures var e := Feed(d, w, text);
            && e.pending == (if |Rest(text)| <= MAX_FRAME_BYTES then Rest(text) else [])
            && e.discarding == (|Rest(text)| > MAX_FRAME_BYTES)
  {
    RefinesLines(d, w, text);
    LinesAccount(d, w, Split(text));
  }

  /** The lines of a text whose first two parts end a line are the lines of its parts. */
  lemma LocalLines(before: seq<Byte>, line: seq<Byte>, after: seq<Byte>, text: seq<Byte>)
    requires EndsLine(before) && EndsLine(line) && text == before + line + after
    ensures Split(text) == Split(before) + Split(line) + Split(after) && Rest(text) == Rest(after)
  {
    SplitAppend(before, line);
    SplitAppend(before + line, after);
  }

  /** Corruption confined to one line, or to a run of lines, changes what those lines deliver
      and how much they lose, and nothing else. */
  lemma CorruptionIsLocal(d: Decoder, w: Wire, before: seq<Byte>, good: seq<Byte>, bad: seq<Byte>, after: seq<Byte>)
    requires IsFresh(d) && Accepting(w) && EndsLine(before) && EndsLine(good) && EndsLine(bad)
    ensures var g, b := Feed(d, w, before + good + after), Feed(d, w, before + bad + after);
            && g.calls == Deliveries(w, Split(before)) + Deliveries(w, Split(good)) + Deliveries(w, Split(after))
            && b.calls == Deliveries(w, Split(before)) + Deliveries(w, Split(bad)) + Deliveries(w, Split(after))
            && g.pending == b.pending && g.discarding == b.discarding
            && b.frames - g.frames == UnreadableLines(w, Split(bad)) - UnreadableLines(w, Split(good))
            && b.dropped - g.dropped == UnreadableBytes(w, Split(bad)) - UnreadableBytes(w, Split(good))
  {
    LocalReading(d, w, before, good, after, before + good + after);
    LocalReading(d, w, before, bad, after, before + bad + after);
  }

  /** What one run of lines contributes. */
  lemma LocalReading(d: Decoder, w: Wire, before: seq<Byte>, line: seq<Byte>, after: seq<Byte>, text: seq<Byte>)
    requires IsFresh(d) && Accepting(w) && EndsLine(before) && EndsLine(line) && text == before + line + after
    ensures var e, rest := Feed(d, w, text), |Rest(after)|;
            && e.calls == Deliveries(w, Split(before)) + Deliveries(w, Split(line)) + Deliveries(w, Split(after))
            && e.pending == (if rest <= MAX_FRAME_BYTES then Rest(after) else [])
            && e.discarding == (rest > MAX_FRAME_BYTES)
            && e.frames == UnreadableLines(w, Split(before)) + UnreadableLines(w, Split(line)) + UnreadableLines(w, Split(after))
                           + (if rest > MAX_FRAME_BYTES then 1 else 0)
            && e.dropped == UnreadableBytes(w, Split(before)) + UnreadableBytes(w, Split(line)) + UnreadableBytes(w, Split(after))
                            + (if rest > MAX_FRAME_BYTES then rest else 0)
  {
    LocalLines(before, line, after, text);
    LocalCounts(w, Split(before), Split(line), Split(after), Split(text));
    LossConservation(d, w, text);
    LossExact(d, w, text);
    HeldBack(d, w, text);
  }

  lemma LocalCounts(w: Wire, a: seq<seq<Byte>>, b: seq<seq<Byte>>, c: seq<seq<Byte>>, all: seq<seq<Byte>>)
    requires all == a + b + c
    ensures Deliveries(w, all) == Deliveries(w, a) + Deliveries(w, b) + Deliveries(w, c)
    ensures UnreadableLines(w, all) == UnreadableLines(w, a) + UnreadableLines(w, b) + UnreadableLines(w, c)
    ensures UnreadableBytes(w, all) == UnreadableBytes(w, a) + UnreadableBytes(w, b) + UnreadableBytes(w, c)
  {
    DeliveriesAppend(w, a, b);
    DeliveriesAppend(w, a + b, c);
    UnreadableBytesAppend(w, a, b);
    UnreadableBytesAppend(w, a + b, c);
  }

  // ------------------------------------------------------- a sink that refuses

  function Obliging(w: Wire): Wire {
    w.(accepts := _ => true)
  }

  /** With any sink, the deliveries are those of an accepting sink up to and including the
      first one refused. */
  lemma {:induction false} RefusingSink(d: Decoder, w: Wire, text: seq<Byte>)
    requires d.ok
    ensures var actual := Feed(d, w, text);
            var all := Feed(d, Obliging(w), text);
            && actual.calls <= all.calls && |d.calls| <= |actual.calls|
            && (forall k :: |d.calls| <= k < |actual.calls| - 1 ==> w.accepts(k))
            && (actual.ok ==> actual == all && (|actual.calls| > |d.calls| ==> w.accepts(|actual.calls| - 1)))
            && (!actual.ok ==> |actual.calls| > |d.calls| && !w.accepts(|actual.calls| - 1))
    decreases |text|
  {
    if text != [] {
      var actual, all := Step(d, w, text[0]), Step(d, Obliging(w), text[0]);
      assert |actual.calls| <= |d.calls| + 1 && actual.calls == all.calls;
      if actual.ok {
        assert actual == all;
        RefusingSink(actual, w, text[1..]);
      } else {
        FeedFailed(actual, w, text[1..]);
        CallsGrow(all, Obliging(w), text[1..]);
      }
    }
  }

  lemma {:induction false} CallsGrow(d: Decoder, w: Wire, text: seq<Byte>)
    ensures d.calls <= Feed(d, w, text).calls
    decreases |text|
  {
    if text != [] {
      CallsGrow(Step(d, w, text[0]), w, text[1..]);
    }
  }
}
