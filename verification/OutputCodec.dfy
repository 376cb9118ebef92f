/** The text form of one output record: Bash's `printf %q` under `LC_ALL=C` on the sandbox
    side, and the decoder of that text on the driver side. */
module OutputCodec {
  import opened Bytes
  import opened TextLines

  const NUL: Byte := 0
  const DOLLAR: Byte := 36
  const QUOTE: Byte := 39
  const BACKSLASH: Byte := 92
  const TAG_STDOUT: Byte := 79
  const TAG_STDERR: Byte := 69

  /** One record never exceeds POSIX PIPE_BUF, so concurrent writers cannot split it. */
  const MAX_FRAME_BYTES: nat := 512

  /** The encoder flushes a chunk at this many bytes. */
  const CHUNK_BYTES: nat := 96

  datatype Stream = Stdout | Stderr

  datatype Fault =
    | UnterminatedQuote
    | IncompleteEscape
    | UnknownEscape
    | EscapeTooLarge
    | NotPrintable

  type Decoded = Result<seq<Byte>, Fault>

  function StreamTag(tag: Byte): Option<Stream> {
    if tag == TAG_STDOUT then Some(Stdout)
    else if tag == TAG_STDERR then Some(Stderr)
    else None
  }

  function Tag(stream: Stream): Byte {
    match stream
    case Stdout => TAG_STDOUT
    case Stderr => TAG_STDERR
  }

  predicate Printable(b: Byte) {
    0x20 <= b <= 0x7e
  }

  predicate IsOctal(b: Byte) {
    48 <= b <= 55
  }

  function OctalDigit(b: Byte): nat
    requires IsOctal(b)
  {
    b - 48
  }

  function Prepend(head: seq<Byte>, tail: Decoded): Decoded {
    match tail
    case Ok(bytes) => Ok(head + bytes)
    case Err(_) => tail
  }

  lemma PrependAssociates(a: seq<Byte>, b: seq<Byte>, tail: Decoded)
    ensures Prepend(a, Prepend(b, tail)) == Prepend(a + b, tail)
    ensures Prepend([], tail) == tail
  {
    if tail.Ok? {
      assert a + (b + tail.value) == a + b + tail.value;
      assert [] + tail.value == tail.value;
    }
  }

  // ---------------------------------------------------------------- decoding

  /** The plain form: a backslash escapes the next byte, whatever it is. */
  function DecodePlain(input: seq<Byte>): Decoded {
    if input == [] then Ok([])
    else if input[0] == BACKSLASH then
      if |input| == 1 then Err(IncompleteEscape) else Prepend([input[1]], DecodePlain(input[2..]))
    else if Printable(input[0]) then Prepend([input[0]], DecodePlain(input[1..]))
    else Err(NotPrintable)
  }

  /** The length of the octal escape at the front of `s`: at most three digits. */
  function OctalLength(s: seq<Byte>): (n: nat)
    requires s != [] && IsOctal(s[0])
    ensures 1 <= n <= 3 && n <= |s|
  {
    if |s| == 1 || !IsOctal(s[1]) then 1
    else if |s| == 2 || !IsOctal(s[2]) then 2
    else 3
  }

  function OctalValue(digits: seq<Byte>): (v: nat)
    requires forall i :: 0 <= i < |digits| ==> IsOctal(digits[i])
  {
    if digits == [] then 0
    else OctalValue(digits[..|digits| - 1]) * 8 + OctalDigit(digits[|digits| - 1])
  }

  /** The byte a one-letter escape stands for. */
  function NamedEscape(b: Byte): Option<Byte> {
    if b == 97 then Some(7)              // \a
    else if b == 98 then Some(8)         // \b
    else if b == 116 then Some(9)        // \t
    else if b == 110 then Some(10)       // \n
    else if b == 118 then Some(11)       // \v
    else if b == 102 then Some(12)       // \f
    else if b == 114 then Some(13)       // \r
    else if b == 101 || b == 69 then Some(27) // \e \E
    else if b == BACKSLASH || b == QUOTE || b == 34 then Some(b)
    else None
  }

  /** The body of an ANSI-C `$'...'` string. */
  function DecodeAnsiC(input: seq<Byte>): Decoded {
    if input == [] then Ok([])
    else if input[0] != BACKSLASH then
      if Printable(input[0]) then Prepend([input[0]], DecodeAnsiC(input[1..])) else Err(NotPrintable)
    else if |input| == 1 then Err(IncompleteEscape)
    else if NamedEscape(input[1]).Some? then
      Prepend([NamedEscape(input[1]).value], DecodeAnsiC(input[2..]))
    else if IsOctal(input[1]) then
      var n := OctalLength(input[1..]);
      var v := OctalValue(input[1..1 + n]);
      if v < 256 then Prepend([v], DecodeAnsiC(input[1 + n..])) else Err(EscapeTooLarge)
    else Err(UnknownEscape)
  }

  function DecodeQuoted(input: seq<Byte>): Decoded {
    if input == [QUOTE, QUOTE] then Ok([])
    else if |input| >= 2 && input[..2] == [DOLLAR, QUOTE] then
      var body := input[2..];
      if body != [] && body[|body| - 1] == QUOTE then DecodeAnsiC(body[..|body| - 1])
      else Err(UnterminatedQuote)
    else DecodePlain(input)
  }

  // The decoding loops, against the functions above.

  method RunDecodePlain(input: seq<Byte>) returns (r: Decoded)
    ensures r == DecodePlain(input)
  {
    var decoded: seq<Byte> := [];
    var i := 0;
    assert input[0..] == input;
    PrependAssociates([], [], DecodePlain(input));
    while i < |input|
      invariant 0 <= i <= |input|
      invariant DecodePlain(input) == Prepend(decoded, DecodePlain(input[i..]))
    {
      ghost var rest := input[i..];
      if input[i] == BACKSLASH {
        if i + 1 == |input| {
          return Err(IncompleteEscape);
        }
        assert rest[2..] == input[i + 2..];
        PrependAssociates(decoded, [input[i + 1]], DecodePlain(input[i + 2..]));
        decoded := decoded + [input[i + 1]];
        i := i + 2;
      } else {
        if !Printable(input[i]) {
          return Err(NotPrintable);
        }
        assert rest[1..] == input[i + 1..];
        PrependAssociates(decoded, [input[i]], DecodePlain(input[i + 1..]));
        decoded := decoded + [input[i]];
        i := i + 1;
      }
    }
    assert input[i..] == [] && decoded + [] == decoded;
    return Ok(decoded);
  }

  /** Reads the octal escape whose first digit is at `start`, as the inner loop does. */
  method RunOctal(input: seq<Byte>, start: nat) returns (value: nat, next: nat)
    requires start < |input| && IsOctal(input[start])
    ensures next == start + OctalLength(input[start..])
    ensures next <= |input| && forall k :: start <= k < next ==> IsOctal(input[k])
    ensures value == OctalValue(input[start..next])
  {
    value, next := OctalDigit(input[start]), start + 1;
    assert input[start..next] == [] + [input[start]];
    var more := 0;
    while more < 2 && next < |input| && IsOctal(input[next])
      invariant 0 <= more <= 2 && next == start + 1 + more && next <= |input|
      invariant forall k :: start <= k < next ==> IsOctal(input[k])
      invariant value == OctalValue(input[start..next])
    {
      assert input[start..next + 1][..next - start] == input[start..next];
      value := value * 8 + OctalDigit(input[next]);
      next := next + 1;
      more := more + 1;
    }
  }

  method RunDecodeAnsiC(input: seq<Byte>) returns (r: Decoded)
    ensures r == DecodeAnsiC(input)
  {
    var decoded: seq<Byte> := [];
    var i := 0;
    assert input[0..] == input;
    PrependAssociates([], [], DecodeAnsiC(input));
    while i < |input|
      invariant 0 <= i <= |input|
      invariant DecodeAnsiC(input) == Prepend(decoded, DecodeAnsiC(input[i..]))
    {
      var byte := input[i];
      ghost var rest := input[i..];
      if byte != BACKSLASH {
        if !Printable(byte) {
          return Err(NotPrintable);
        }
        assert rest[1..] == input[i + 1..];
        PrependAssociates(decoded, [byte], DecodeAnsiC(input[i + 1..]));
        decoded := decoded + [byte];
        i := i + 1;
        continue;
      }
      if i + 1 == |input| {
        return Err(IncompleteEscape);
      }
      var escaped := input[i + 1];
      assert rest[1] == escaped;
      match NamedEscape(escaped) {
        case Some(value) =>
          assert rest[2..] == input[i + 2..];
          PrependAssociates(decoded, [value], DecodeAnsiC(input[i + 2..]));
          decoded := decoded + [value];
          i := i + 2;
        case None =>
          if !IsOctal(escaped) {
            return Err(UnknownEscape);
          }
          var value, next := RunOctal(input, i + 1);
          assert rest[1..] == input[i + 1..] && rest[1..next - i] == input[i + 1..next];
          assert rest[next - i..] == input[next..];
          if value >= 256 {
            return Err(EscapeTooLarge);
          }
          PrependAssociates(decoded, [value], DecodeAnsiC(input[next..]));
          decoded := decoded + [value];
          i := next;
      }
    }
    assert input[i..] == [] && decoded + [] == decoded;
    return Ok(decoded);
  }

  method RunDecodeQuoted(input: seq<Byte>) returns (r: Decoded)
    ensures r == DecodeQuoted(input)
  {
    if input == [QUOTE, QUOTE] {
      return Ok([]);
    }
    if |input| >= 2 && input[..2] == [DOLLAR, QUOTE] {
      var body := input[2..];
      if body == [] || body[|body| - 1] != QUOTE {
        return Err(UnterminatedQuote);
      }
      r := RunDecodeAnsiC(body[..|body| - 1]);
    } else {
      r := RunDecodePlain(input);
    }
  }

  // ---------------------------------------------------------------- encoding

  /** The plain form of `chunk` when exactly the marked bytes are backslash-escaped. Which
      bytes Bash escapes depends on the byte and, for some, on its position. */
  function QuotePlain(chunk: seq<Byte>, escaped: seq<bool>): seq<Byte>
    requires |escaped| == |chunk|
  {
    if chunk == [] then []
    else (if escaped[0] then [BACKSLASH, chunk[0]] else [chunk[0]]) + QuotePlain(chunk[1..], escaped[1..])
  }

  /** The escapes of one byte in the ANSI-C form. */
  function AnsiEscape(b: Byte): seq<Byte> {
    if b == 27 then [BACKSLASH, 69]
    else if b == 7 then [BACKSLASH, 97]
    else if b == 11 then [BACKSLASH, 118]
    else if b == 8 then [BACKSLASH, 98]
    else if b == 12 then [BACKSLASH, 102]
    else if b == 10 then [BACKSLASH, 110]
    else if b == 13 then [BACKSLASH, 114]
    else if b == 9 then [BACKSLASH, 116]
    else if b == BACKSLASH || b == QUOTE then [BACKSLASH, b]
    else if Printable(b) then [b]
    else [BACKSLASH, 48 + b / 64, 48 + b / 8 % 8, 48 + b % 8]
  }

  function AnsiBody(chunk: seq<Byte>): seq<Byte> {
    if chunk == [] then [] else AnsiEscape(chunk[0]) + AnsiBody(chunk[1..])
  }

  predicate AllPrintable(chunk: seq<Byte>) {
    forall i :: 0 <= i < |chunk| ==> Printable(chunk[i])
  }

  /** Bash's `printf %q`: plain when every byte is printable, ANSI-C otherwise. */
  function PercentQ(chunk: seq<Byte>, escaped: seq<bool>): seq<Byte>
    requires |escaped| == |chunk|
  {
    if chunk == [] then [QUOTE, QUOTE]
    else if AllPrintable(chunk) then QuotePlain(chunk, escaped)
    else [DOLLAR, QUOTE] + AnsiBody(chunk) + [QUOTE]
  }

  /** Every backslash and every quote of `chunk` is among the escaped bytes. */
  predicate Faithful(chunk: seq<Byte>, escaped: seq<bool>) {
    && |escaped| == |chunk|
    && forall i :: 0 <= i < |chunk| && (chunk[i] == BACKSLASH || chunk[i] == QUOTE) ==> escaped[i]
  }

  /** `printf '%s%q\n' tag chunk`. */
  function ChunkRecord(stream: Stream, chunk: seq<Byte>, escaped: seq<bool>): seq<Byte>
    requires |escaped| == |chunk|
  {
    [Tag(stream)] + PercentQ(chunk, escaped) + [NEWLINE]
  }

  /** The record of one NUL byte, which no shell variable can hold. */
  function NulRecord(stream: Stream): seq<Byte> {
    [Tag(stream), DOLLAR, QUOTE, BACKSLASH, 48, QUOTE, NEWLINE]
  }

  // ---------------------------------------------------------------- round trip

  /** Every byte that is not escaped is printable and no backslash. */
  predicate Bare(chunk: seq<Byte>, escaped: seq<bool>) {
    && |escaped| == |chunk|
    && forall i :: 0 <= i < |chunk| && !escaped[i] ==> Printable(chunk[i]) && chunk[i] != BACKSLASH
  }

  lemma {:induction false} BareDecodes(chunk: seq<Byte>, escaped: seq<bool>)
    requires Bare(chunk, escaped)
    ensures DecodePlain(QuotePlain(chunk, escaped)) == Ok(chunk)
  {
    if chunk != [] {
      var tail := QuotePlain(chunk[1..], escaped[1..]);
      BareDecodes(chunk[1..], escaped[1..]);
      var whole := QuotePlain(chunk, escaped);
      if escaped[0] {
        assert whole[2..] == tail;
      } else {
        assert whole[1..] == tail;
      }
      assert [chunk[0]] + chunk[1..] == chunk;
    }
  }

  lemma PlainRoundTrip(chunk: seq<Byte>, escaped: seq<bool>)
    requires Faithful(chunk, escaped) && AllPrintable(chunk)
    ensures DecodePlain(QuotePlain(chunk, escaped)) == Ok(chunk)
  {
    BareDecodes(chunk, escaped);
  }

  /** The decoder accepts a plain body exactly when it is an escaping of what it returns. */
  lemma {:induction false} PlainAcceptsExactly(input: seq<Byte>) returns (escaped: seq<bool>)
    requires DecodePlain(input).Ok?
    ensures Bare(DecodePlain(input).value, escaped)
    ensures QuotePlain(DecodePlain(input).value, escaped) == input
  {
    if input == [] {
      escaped := [];
    } else if input[0] == BACKSLASH {
      var rest := PlainAcceptsExactly(input[2..]);
      escaped := [true] + rest;
      var value := DecodePlain(input).value;
      assert value[1..] == DecodePlain(input[2..]).value && escaped[1..] == rest;
      assert input == [BACKSLASH, input[1]] + input[2..];
    } else {
      var rest := PlainAcceptsExactly(input[1..]);
      escaped := [false] + rest;
      var value := DecodePlain(input).value;
      assert value[1..] == DecodePlain(input[1..]).value && escaped[1..] == rest;
      assert input == [input[0]] + input[1..];
    }
  }

  lemma OctalRoundTrip(b: Byte)
    ensures OctalValue([48 + b / 64, 48 + b / 8 % 8, 48 + b % 8]) == b
  {
    var s: seq<Byte> := [48 + b / 64, 48 + b / 8 % 8, 48 + b % 8];
    assert s[..2] == [48 + b / 64, 48 + b / 8 % 8];
    assert s[..2][..1] == [48 + b / 64];
    assert s[..2][..1][..0] == [];
    assert OctalValue(s[..2][..1]) == b / 64;
    assert OctalValue(s[..2]) == b / 64 * 8 + b / 8 % 8;
  }

  lemma AnsiStep(b: Byte, rest: seq<Byte>)
    ensures DecodeAnsiC(AnsiEscape(b) + rest) == Prepend([b], DecodeAnsiC(rest))
  {
    var e := AnsiEscape(b);
    var s := e + rest;
    assert s[|e|..] == rest;
    if |e| == 4 {
      OctalRoundTrip(b);
      assert s[1..4] == e[1..];
      assert OctalLength(s[1..]) == 3;
    } else if |e| == 2 {
      assert NamedEscape(s[1]) == Some(b);
    }
  }

  lemma {:induction false} AnsiRoundTrip(chunk: seq<Byte>)
    ensures DecodeAnsiC(AnsiBody(chunk)) == Ok(chunk)
  {
    if chunk != [] {
      AnsiRoundTrip(chunk[1..]);
      AnsiStep(chunk[0], AnsiBody(chunk[1..]));
      assert [chunk[0]] + chunk[1..] == chunk;
    }
  }

  /** The first two bytes of a faithful plain form are never `''` and never `$'`. */
  lemma PlainIsNotQuoted(chunk: seq<Byte>, escaped: seq<bool>)
    requires Faithful(chunk, escaped) && chunk != []
    ensures var q := QuotePlain(chunk, escaped); q[0] != QUOTE && (|q| >= 2 ==> q[..2] != [DOLLAR, QUOTE])
  {
    var q := QuotePlain(chunk, escaped);
    if !escaped[0] && |chunk| > 1 {
      var tail := QuotePlain(chunk[1..], escaped[1..]);
      assert q[1] == tail[0] && chunk[1..][0] == chunk[1] && escaped[1..][0] == escaped[1];
    }
  }

  lemma AnsiQuotedRoundTrip(chunk: seq<Byte>)
    ensures DecodeQuoted([DOLLAR, QUOTE] + AnsiBody(chunk) + [QUOTE]) == Ok(chunk)
  {
    AnsiRoundTrip(chunk);
    AnsiQuotedDecodes(AnsiBody(chunk), [DOLLAR, QUOTE] + AnsiBody(chunk) + [QUOTE]);
  }

  /** The ANSI-C form is told by its quotes, and decodes to what its body does. */
  lemma AnsiQuotedDecodes(body: seq<Byte>, q: seq<Byte>)
    requires q == [DOLLAR, QUOTE] + body + [QUOTE]
    ensures DecodeQuoted(q) == DecodeAnsiC(body)
  {
    AnsiQuotedParts(body, q);
  }

  lemma AnsiQuotedParts(body: seq<Byte>, q: seq<Byte>)
    requires q == [DOLLAR, QUOTE] + body + [QUOTE]
    ensures |q| == |body| + 3 && q[0] == DOLLAR && q[..2] == [DOLLAR, QUOTE]
    ensures q[2..] == body + [QUOTE] && q[2..][..|q[2..]| - 1] == body
  {
  }

  lemma PlainQuotedRoundTrip(chunk: seq<Byte>, escaped: seq<bool>)
    requires Faithful(chunk, escaped) && AllPrintable(chunk) && chunk != []
    ensures DecodeQuoted(QuotePlain(chunk, escaped)) == Ok(chunk)
  {
    PlainRoundTrip(chunk, escaped);
    PlainIsNotQuoted(chunk, escaped);
    var q := QuotePlain(chunk, escaped);
    assert q != [QUOTE, QUOTE];
    assert DecodeQuoted(q) == DecodePlain(q);
  }

  /** Whatever the bytes, decoding undoes `printf %q`. */
  lemma QuotedRoundTrip(chunk: seq<Byte>, escaped: seq<bool>)
    requires Faithful(chunk, escaped)
    ensures DecodeQuoted(PercentQ(chunk, escaped)) == Ok(chunk)
  {
    if chunk != [] && AllPrintable(chunk) {
      PlainQuotedRoundTrip(chunk, escaped);
    } else if chunk != [] {
      AnsiQuotedRoundTrip(chunk);
    }
  }

  function Marks(set_: set<Byte>, chunk: seq<Byte>): (escaped: seq<bool>)
    ensures |escaped| == |chunk|
    ensures forall i :: 0 <= i < |chunk| ==> (escaped[i] <==> chunk[i] in set_)
  {
    seq(|chunk|, i requires 0 <= i < |chunk| => chunk[i] in set_)
  }

  /** An encoder that escapes exactly the bytes of a fixed set is undone on every chunk if and
      only if the set holds the backslash and the quote. The dollar sign is not needed. */
  lemma EscapeSetExact(escapes: set<Byte>)
    ensures (forall chunk: seq<Byte> :: DecodeQuoted(PercentQ(chunk, Marks(escapes, chunk))) == Ok(chunk))
       <==> BACKSLASH in escapes && QUOTE in escapes
  {
    if BACKSLASH in escapes && QUOTE in escapes {
      forall chunk: seq<Byte>
        ensures DecodeQuoted(PercentQ(chunk, Marks(escapes, chunk))) == Ok(chunk)
      {
        QuotedRoundTrip(chunk, Marks(escapes, chunk));
      }
    } else if BACKSLASH !in escapes {
      var c: seq<Byte> := [BACKSLASH];
      var m := Marks(escapes, c);
      assert !m[0] && QuotePlain(c[1..], m[1..]) == [];
      assert PercentQ(c, m) == [BACKSLASH];
      assert DecodeQuoted(PercentQ(c, Marks(escapes, c))) == Err(IncompleteEscape);
    } else {
      var c: seq<Byte> := [QUOTE, QUOTE];
      var m := Marks(escapes, c);
      assert QuotePlain(c[1..], m[1..]) == [QUOTE];
      assert PercentQ(c, m) == [QUOTE, QUOTE];
      assert DecodeQuoted(PercentQ(c, m)) == Ok([]);
    }
  }

  // ---------------------------------------------------------------- record size

  lemma {:induction false} QuotePlainSize(chunk: seq<Byte>, escaped: seq<bool>)
    requires |escaped| == |chunk|
    ensures |chunk| <= |QuotePlain(chunk, escaped)| <= 2 * |chunk|
    ensures AllPrintable(chunk) ==> NEWLINE !in QuotePlain(chunk, escaped)
  {
    if chunk != [] {
      QuotePlainSize(chunk[1..], escaped[1..]);
    }
  }

  lemma {:induction false} AnsiBodySize(chunk: seq<Byte>)
    ensures |AnsiBody(chunk)| <= 4 * |chunk|
    ensures NEWLINE !in AnsiBody(chunk)
  {
    if chunk != [] {
      AnsiBodySize(chunk[1..]);
    }
  }

  /** A record is one line of at most `4n + 5` bytes. */
  lemma RecordSize(stream: Stream, chunk: seq<Byte>, escaped: seq<bool>)
    requires |escaped| == |chunk|
    ensures var r := ChunkRecord(stream, chunk, escaped);
            |r| <= 4 * |chunk| + 5 && First(r, NEWLINE) == |r| - 1
  {
    QuotePlainSize(chunk, escaped);
    AnsiBodySize(chunk);
    var r := ChunkRecord(stream, chunk, escaped);
    assert NEWLINE !in PercentQ(chunk, escaped);
    assert r[..|r| - 1] == [Tag(stream)] + PercentQ(chunk, escaped);
    FirstUnique(r, NEWLINE, |r| - 1, First(r, NEWLINE));
  }

  /** The worst chunk: every byte takes a three-digit escape. */
  lemma {:induction false} WorstBody(n: nat)
    ensures |AnsiBody(seq(n, _ => 255))| == 4 * n
  {
    var s: seq<Byte> := seq(n, _ => 255);
    if n > 0 {
      WorstBody(n - 1);
      assert s[1..] == seq(n - 1, _ => 255);
    }
  }

  /** Chunks of at most `n` bytes always fit one frame exactly when `n <= 126`; the encoder's
      96 leaves room to spare. */
  lemma FrameBound(n: nat)
    ensures (forall stream, chunk: seq<Byte>, escaped: seq<bool> :: |escaped| == |chunk| <= n ==>
              |ChunkRecord(stream, chunk, escaped)| <= MAX_FRAME_BYTES)
       <==> n <= 126
  {
    if n <= 126 {
      forall stream, chunk: seq<Byte>, escaped: seq<bool> | |escaped| == |chunk| <= n
        ensures |ChunkRecord(stream, chunk, escaped)| <= MAX_FRAME_BYTES
      {
        RecordSize(stream, chunk, escaped);
      }
    } else {
      var worst: seq<Byte> := seq(n, _ => 255);
      var escaped := seq(n, _ => false);
      WorstBody(n);
      assert worst[0] == 255 && !AllPrintable(worst);
      assert |ChunkRecord(Stdout, worst, escaped)| == 4 * n + 5;
    }
  }
}
