/** Streamed stdin over a text-only input channel: ASCII records on the driver side, and the
    Bash loop that turns them back into the program's input. */
module StreamedStdin {
  import opened Bytes
  import opened TextLines

  const BACKSLASH: Byte := 92
  const DATA: Byte := 68
  const END: Byte := 69
  const ZERO: Byte := 48

  const RECORD_BYTES: nat := 4096
  const REQUEST_BYTES: nat := 64 * 1024

  // ------------------------------------------------------- the driver side

  /** Printable ASCII but the backslash passes; every other byte is a `\0ooo` escape. */
  function EscapeByte(b: Byte): seq<Byte> {
    if b != BACKSLASH && 0x20 <= b <= 0x7e then [b]
    else [BACKSLASH, ZERO, 48 + b / 64, 48 + b / 8 % 8, 48 + b % 8]
  }

  function EscapeAll(bytes: seq<Byte>): seq<Byte> {
    if bytes == [] then [] else EscapeByte(bytes[0]) + EscapeAll(bytes[1..])
  }

  lemma {:induction false} EscapeAllSnoc(bytes: seq<Byte>, b: Byte)
    ensures EscapeAll(bytes + [b]) == EscapeAll(bytes) + EscapeByte(b)
  {
    if bytes == [] {
      assert bytes + [b] == [b] && EscapeAll([b]) == EscapeByte(b);
    } else {
      assert (bytes + [b])[1..] == bytes[1..] + [b];
      EscapeAllSnoc(bytes[1..], b);
    }
  }

  function DataRecord(chunk: seq<Byte>): seq<Byte> {
    [DATA] + EscapeAll(chunk) + [NEWLINE]
  }

  function EndRecord(): seq<Byte> {
    [END, NEWLINE]
  }

  /** The records of one read, a chunk at a time. */
  function Records(bytes: seq<Byte>): seq<seq<Byte>>
    decreases |bytes|
  {
    if bytes == [] then []
    else
      var take := Min(RECORD_BYTES, |bytes|);
      [DataRecord(bytes[..take])] + Records(bytes[take..])
  }

  /** The loop over one chunk. */
  method EscapeChunk(chunk: seq<Byte>) returns (text: seq<Byte>)
    ensures text == EscapeAll(chunk)
  {
    text := [];
    var i := 0;
    while i < |chunk|
      invariant 0 <= i <= |chunk|
      invariant text == EscapeAll(chunk[..i])
    {
      assert chunk[..i + 1] == chunk[..i] + [chunk[i]];
      EscapeAllSnoc(chunk[..i], chunk[i]);
      text := text + EscapeByte(chunk[i]);
      i := i + 1;
    }
    assert chunk[..i] == chunk;
  }

  /** The loop over chunks, appending to the request text. */
  method EncodeRecords(bytes: seq<Byte>, records: seq<Byte>) returns (text: seq<Byte>)
    ensures text == records + Concat(Records(bytes))
  {
    text := records;
    var rest := bytes;
    ghost var written: seq<seq<Byte>> := [];
    assert records + [] == records;
    while rest != []
      invariant text == records + Concat(written)
      invariant written + Records(rest) == Records(bytes)
      decreases |rest|
    {
      var take := Min(RECORD_BYTES, |rest|);
      var body := EscapeChunk(rest[..take]);
      var record := [DATA] + body + [NEWLINE];
      ConcatSnoc(written, record);
      SeqAssociates(records, Concat(written), record);
      SeqAssociates(written, [record], Records(rest[take..]));
      text := text + record;
      written := written + [record];
      rest := rest[take..];
    }
    assert written + [] == written;
  }

  /** How forwarding ended: everything sent, the command gone, or a send that failed. */
  datatype Forwarded = Delivered | CommandEnded | SendFailed

  /** The answer to one input request, and what the status poll says after a failed one. */
  datatype Answer = Accepted | Refused(commandEnded: bool)

  /** All the records of a run of reads, then the end record. */
  function Stream(pieces: seq<seq<Byte>>): seq<seq<Byte>> {
    if pieces == [] then [EndRecord()] else Records(pieces[0]) + Stream(pieces[1..])
  }

  function RequestTexts(pieces: seq<seq<Byte>>): seq<seq<Byte>> {
    if pieces == [] then [EndRecord()] else [Concat(Records(pieces[0]))] + RequestTexts(pieces[1..])
  }

  lemma {:induction false} RequestsCarryStream(pieces: seq<seq<Byte>>)
    ensures Concat(RequestTexts(pieces)) == Concat(Stream(pieces))
  {
    if pieces != [] {
      RequestsCarryStream(pieces[1..]);
      ConcatAppend(Records(pieces[0]), Stream(pieces[1..]));
    }
  }

  /** The forwarding loop: one request per read, and the end record at end of input. What is
      sent is a prefix of the whole stream, all of it unless a request is refused. */
  method Forward(pieces: seq<seq<Byte>>, answer: nat -> Answer) returns (sent: seq<seq<Byte>>, outcome: Forwarded)
    requires forall i :: 0 <= i < |pieces| ==> 0 < |pieces[i]| <= REQUEST_BYTES
    ensures sent <= RequestTexts(pieces)
    ensures outcome == Delivered <==> sent == RequestTexts(pieces)
    ensures outcome != Delivered ==>
      answer(|sent|).Refused? && (outcome == CommandEnded <==> answer(|sent|).commandEnded)
    ensures forall k: nat :: k < |sent| ==> answer(k) == Accepted
  {
    sent := [];
    var rest := pieces;
    while true
      invariant sent + RequestTexts(rest) == RequestTexts(pieces)
      invariant forall k: nat :: k < |sent| ==> answer(k) == Accepted
      invariant forall i :: 0 <= i < |rest| ==> 0 < |rest[i]| <= REQUEST_BYTES
      decreases |rest|
    {
      var request: seq<Byte>;
      if rest == [] {
        request := EndRecord();
      } else {
        request := EncodeRecords(rest[0], []);
      }
      SentGrows(sent, request, rest, pieces);
      match answer(|sent|) {
        case Refused(ended) =>
          outcome := if ended then CommandEnded else SendFailed;
          return;
        case Accepted =>
          sent := sent + [request];
      }
      if rest == [] {
        return sent, Delivered;
      }
      rest := rest[1..];
    }
  }

  lemma SentGrows(sent: seq<seq<Byte>>, request: seq<Byte>, rest: seq<seq<Byte>>, pieces: seq<seq<Byte>>)
    requires sent + RequestTexts(rest) == RequestTexts(pieces)
    requires request == if rest == [] then EndRecord() else [] + Concat(Records(rest[0]))
    ensures sent <= RequestTexts(pieces) && sent != RequestTexts(pieces)
    ensures rest == [] ==> sent + [request] == RequestTexts(pieces)
    ensures rest != [] ==> sent + [request] + RequestTexts(rest[1..]) == RequestTexts(pieces)
  {
    assert |sent + RequestTexts(rest)| > |sent|;
    if rest != [] {
      assert request == Concat(Records(rest[0]));
      SeqAssociates(sent, [request], RequestTexts(rest[1..]));
    }
  }

  // ------------------------------------------------------- the sandbox side

  predicate IsOctal(b: Byte) {
    48 <= b <= 55
  }

  /** The number of octal digits at the front, at most `limit`. */
  function OctalRun(s: seq<Byte>, limit: nat): (n: nat)
    ensures n <= limit && n <= |s|
    ensures forall i :: 0 <= i < n ==> IsOctal(s[i])
  {
    if limit == 0 || s == [] || !IsOctal(s[0]) then 0 else 1 + OctalRun(s[1..], limit - 1)
  }

  function OctalValue(digits: seq<Byte>): int {
    if digits == [] then 0 else OctalValue(digits[..|digits| - 1]) * 8 + digits[|digits| - 1] - 48
  }

  /** Bash's `printf %b` on the escapes that occur here: `\0` with up to three octal digits. Any
      other escape is outside the model, and pieces as `None`. */
  function PercentB(s: seq<Byte>): Option<seq<Byte>> {
    if s == [] then Some([])
    else if s[0] != BACKSLASH then Before([s[0]], PercentB(s[1..]))
    else if |s| == 1 || s[1] != ZERO then None
    else
      var n := OctalRun(s[2..], 3);
      Before([OctalValue(s[2..2 + n]) % 256], PercentB(s[2 + n..]))
  }

  function Before(head: seq<Byte>, tail: Option<seq<Byte>>): Option<seq<Byte>> {
    match tail
    case Some(bytes) => Some(head + bytes)
    case None => None
  }

  datatype Ending = Waiting | Eof | Killed | OutsideModel

  /** What the program's stdin has received, and how it stands. */
  datatype Input = Input(bytes: seq<Byte>, ending: Ending)

  function Receive(head: seq<Byte>, rest: Input): Input {
    Input(head + rest.bytes, rest.ending)
  }

  /** The decoder loop over complete lines: `D` writes data, `E` ends the input, anything else
      kills the program. An unfinished line is still being read. */
  function DecodeLines(lines: seq<seq<Byte>>): Input
    requires forall i :: 0 <= i < |lines| ==> lines[i] != []
  {
    if lines == [] then Input([], Waiting)
    else
      var record := lines[0][..|lines[0]| - 1];
      if record != [] && record[0] == DATA then
        match PercentB(record[1..])
        case Some(bytes) => Receive(bytes, DecodeLines(lines[1..]))
        case None => Input([], OutsideModel)
      else if record == [END] then Input([], Eof)
      else Input([], Killed)
  }

  // ------------------------------------------------------- round trip

  lemma EscapeStep(b: Byte, rest: seq<Byte>)
    ensures PercentB(EscapeByte(b) + rest) == Before([b], PercentB(rest))
  {
    var e := EscapeByte(b);
    var s := e + rest;
    assert s[|e|..] == rest;
    if |e| == 5 {
      var digits := s[2..5];
      assert digits == [48 + b / 64, 48 + b / 8 % 8, 48 + b % 8];
      assert s[2..][0] == digits[0] && s[2..][1..][0] == digits[1] && s[2..][1..][1..][0] == digits[2];
      assert OctalRun(s[2..][1..][1..], 1) == 1 && OctalRun(s[2..][1..], 2) == 2;
      assert OctalRun(s[2..], 3) == 3;
      OctalDigits(b, digits);
    }
  }

  lemma OctalDigits(b: Byte, digits: seq<Byte>)
    requires digits == [48 + b / 64, 48 + b / 8 % 8, 48 + b % 8]
    ensures OctalValue(digits) == b
  {
    var two := digits[..2];
    var one := two[..1];
    assert one[..0] == [] && OctalValue(one) == b / 64;
    assert OctalValue(two) == b / 64 * 8 + b / 8 % 8;
  }

  /** `%b` undoes the escaping of any bytes. */
  lemma {:induction false} EscapeRoundTrip(bytes: seq<Byte>)
    ensures PercentB(EscapeAll(bytes)) == Some(bytes)
  {
    if bytes != [] {
      EscapeRoundTrip(bytes[1..]);
      EscapeStep(bytes[0], EscapeAll(bytes[1..]));
      assert [bytes[0]] + bytes[1..] == bytes;
    }
  }

  lemma {:induction false} EscapeSize(bytes: seq<Byte>)
    ensures |EscapeAll(bytes)| <= 5 * |bytes|
    ensures forall i :: 0 <= i < |EscapeAll(bytes)| ==> 0x20 <= EscapeAll(bytes)[i] <= 0x7e
  {
    if bytes != [] {
      EscapeSize(bytes[1..]);
    }
  }

  /** Every record is one bounded line of printable ASCII. */
  lemma {:induction false} RecordsAreLines(bytes: seq<Byte>)
    ensures forall i :: 0 <= i < |Records(bytes)| ==>
              IsLine(Records(bytes)[i]) && |Records(bytes)[i]| <= 5 * RECORD_BYTES + 2
    decreases |bytes|
  {
    if bytes != [] {
      var take := Min(RECORD_BYTES, |bytes|);
      var chunk := bytes[..take];
      EscapeSize(chunk);
      var r := DataRecord(chunk);
      FirstUnique(r, NEWLINE, |r| - 1, First(r, NEWLINE));
      RecordsAreLines(bytes[take..]);
    }
  }

  lemma {:induction false} StreamIsLines(pieces: seq<seq<Byte>>)
    ensures forall i :: 0 <= i < |Stream(pieces)| ==>
              IsLine(Stream(pieces)[i]) && |Stream(pieces)[i]| <= 5 * RECORD_BYTES + 2
  {
    if pieces == [] {
      var r := EndRecord();
      FirstUnique(r, NEWLINE, 1, First(r, NEWLINE));
    } else {
      RecordsAreLines(pieces[0]);
      StreamIsLines(pieces[1..]);
    }
  }

  lemma DecodeDataLine(chunk: seq<Byte>, lines: seq<seq<Byte>>, more: seq<seq<Byte>>)
    requires lines == [DataRecord(chunk)] + more && forall i :: 0 <= i < |more| ==> more[i] != []
    ensures forall i :: 0 <= i < |lines| ==> lines[i] != []
    ensures DecodeLines(lines) == Receive(chunk, DecodeLines(more))
  {
    EscapeRoundTrip(chunk);
    assert lines[1..] == more;
    var record := lines[0][..|lines[0]| - 1];
    assert record[0] == DATA && record[1..] == EscapeAll(chunk);
  }

  lemma ReceiveTwice(a: seq<Byte>, b: seq<Byte>, ab: seq<Byte>, rest: Input)
    requires ab == a + b
    ensures Receive(a, Receive(b, rest)) == Receive(ab, rest)
  {
    SeqAssociates(a, b, rest.bytes);
  }

  lemma {:induction false} DecodeRecords(bytes: seq<Byte>, more: seq<seq<Byte>>, lines: seq<seq<Byte>>)
    requires forall i :: 0 <= i < |more| ==> more[i] != []
    requires lines == Records(bytes) + more
    ensures forall i :: 0 <= i < |lines| ==> lines[i] != []
    ensures DecodeLines(lines) == Receive(bytes, DecodeLines(more))
    decreases |bytes|
  {
    if bytes == [] {
      assert lines == more && [] + DecodeLines(more).bytes == DecodeLines(more).bytes;
    } else {
      var take := Min(RECORD_BYTES, |bytes|);
      var chunk, rest := bytes[..take], bytes[take..];
      DecodeRecords(rest, more, Records(rest) + more);
      SeqAssociates([DataRecord(chunk)], Records(rest), more);
      DecodeDataLine(chunk, lines, Records(rest) + more);
      ReceiveTwice(chunk, rest, bytes, DecodeLines(more));
    }
  }

  lemma {:induction false} DecodeStream(pieces: seq<seq<Byte>>)
    requires forall i :: 0 <= i < |Stream(pieces)| ==> Stream(pieces)[i] != []
    ensures DecodeLines(Stream(pieces)) == Input(Concat(pieces), Eof)
  {
    if pieces == [] {
      assert EndRecord()[..1] == [END];
    } else {
      StreamIsLines(pieces[1..]);
      DecodeStream(pieces[1..]);
      DecodeRecords(pieces[0], Stream(pieces[1..]), Stream(pieces));
    }
  }

  /** For every input and every split of it into reads, the requests, read back line by line,
      give the program exactly the original bytes and then end of file. */
  lemma StdinRoundTrip(pieces: seq<seq<Byte>>, text: seq<Byte>)
    requires text == Concat(RequestTexts(pieces))
    ensures Rest(text) == [] && forall i :: 0 <= i < |Split(text)| ==> Split(text)[i] != []
    ensures DecodeLines(Split(text)) == Input(Concat(pieces), Eof)
  {
    RequestsCarryStream(pieces);
    StreamIsLines(pieces);
    LinesOfRecords(Stream(pieces));
    DecodeStream(pieces);
  }
}
