/** Which lines are output records, and of which bytes: a grammar of its own, which the decoder
    accepts exactly. */
module OutputGrammar {
  import opened Bytes
  import opened OutputCodec
  import opened OutputDecoder

  /** A piece of an ANSI-C body: a byte as it is, a one-letter escape, an octal escape. */
  datatype Token = Literal(byte: Byte) | Letter(letter: Byte) | Octal(digits: seq<Byte>)

  /** The one-letter escapes and what they stand for. */
  const Letters: map<Byte, Byte> :=
    map[97 := 7, 98 := 8, 116 := 9, 110 := 10, 118 := 11, 102 := 12, 114 := 13, 101 := 27, 69 := 27, 92 := 92, 39 := 39, 34 := 34]

  function Text(t: Token): (s: seq<Byte>)
    ensures s != []
  {
    match t
    case Literal(byte) => [byte]
    case Letter(letter) => [92, letter]
    case Octal(digits) => [92] + digits
  }

  predicate Digits(s: seq<Byte>) {
    1 <= |s| <= 3 && forall i :: 0 <= i < |s| ==> 48 <= s[i] <= 55
  }

  /** The number that one to three octal digits write. */
  function Number(s: seq<Byte>): nat
    requires Digits(s)
  {
    var digit := (i: int) requires 0 <= i < |s| => s[i] as int - 48;
    if |s| == 1 then digit(0) else if |s| == 2 then 8 * digit(0) + digit(1) else 64 * digit(0) + 8 * digit(1) + digit(2)
  }

  predicate Proper(t: Token) {
    match t
    case Literal(byte) => 0x20 <= byte <= 0x7e && byte != 92
    case Letter(letter) => letter in Letters
    case Octal(digits) => Digits(digits) && Number(digits) < 256
  }

  function Meant(t: Token): Byte
    requires Proper(t)
  {
    match t
    case Literal(byte) => byte
    case Letter(letter) => Letters[letter]
    case Octal(digits) => Number(digits)
  }

  /** An octal escape takes every digit it can. */
  predicate Apart(t: Token, next: Token) {
    t.Octal? && |t.digits| < 3 && next.Literal? ==> !(48 <= next.byte <= 55)
  }

  predicate Sound(tokens: seq<Token>) {
    && (forall i :: 0 <= i < |tokens| ==> Proper(tokens[i]))
    && (forall i :: 0 < i < |tokens| ==> Apart(tokens[i - 1], tokens[i]))
  }

  function Spelled(tokens: seq<Token>): seq<Byte> {
    if tokens == [] then [] else Text(tokens[0]) + Spelled(tokens[1..])
  }

  function Values(tokens: seq<Token>): (bytes: seq<Byte>)
    requires Sound(tokens)
    ensures |bytes| == |tokens|
  {
    seq(|tokens|, i requires 0 <= i < |tokens| => Meant(tokens[i]))
  }

  // ------------------------------------------------------- the ANSI-C body

  lemma NumberIsOctal(s: seq<Byte>)
    requires Digits(s)
    ensures OctalValue(s) == Number(s)
  {
    assert s[..|s| - 1] + [s[|s| - 1]] == s;
    if |s| > 1 {
      NumberIsOctal(s[..|s| - 1]);
    } else {
      assert s[..0] == [];
    }
  }

  lemma LettersAreNamed(b: Byte)
    ensures b in Letters <==> NamedEscape(b).Some?
    ensures b in Letters ==> NamedEscape(b) == Some(Letters[b]) && !IsOctal(b)
  {
  }

  /** What follows an octal escape with room for another digit is not one. */
  predicate Ends(digits: seq<Byte>, rest: seq<Byte>) {
    |digits| == 3 || rest == [] || !IsOctal(rest[0])
  }

  lemma OctalHead(digits: seq<Byte>, rest: seq<Byte>)
    requires Digits(digits) && Ends(digits, rest)
    ensures OctalLength(digits + rest) == |digits|
    ensures OctalValue((digits + rest)[..|digits|]) == Number(digits)
  {
    assert (digits + rest)[..|digits|] == digits;
    NumberIsOctal(digits);
  }

  /** A proper token is read as the byte it means, whatever may follow it. */
  lemma TokenRead(t: Token, rest: seq<Byte>)
    requires Proper(t) && (t.Octal? ==> Ends(t.digits, rest))
    ensures DecodeAnsiC(Text(t) + rest) == Prepend([Meant(t)], DecodeAnsiC(rest))
  {
    var s := Text(t) + rest;
    assert s[|Text(t)|..] == rest;
    match t
    case Literal(_) =>
    case Letter(letter) =>
      LettersAreNamed(letter);
    case Octal(digits) =>
      assert s[1..] == digits + rest && s[1..1 + |digits|] == (digits + rest)[..|digits|];
      OctalHead(digits, rest);
      LettersAreNamed(s[1]);
  }

  lemma SoundTail(tokens: seq<Token>)
    requires Sound(tokens) && tokens != []
    ensures Sound(tokens[1..]) && Values(tokens) == [Meant(tokens[0])] + Values(tokens[1..])
    ensures tokens[0].Octal? ==> Ends(tokens[0].digits, Spelled(tokens[1..]))
  {
    if |tokens| > 1 {
      assert Apart(tokens[0], tokens[1]) && Proper(tokens[1]);
      assert Spelled(tokens[1..])[0] == Text(tokens[1])[0];
    }
  }

  lemma {:induction false} TokensRead(tokens: seq<Token>)
    requires Sound(tokens)
    ensures DecodeAnsiC(Spelled(tokens)) == Ok(Values(tokens))
  {
    if tokens != [] {
      SoundTail(tokens);
      TokensRead(tokens[1..]);
      TokenRead(tokens[0], Spelled(tokens[1..]));
    }
  }

  /** The first token of a body that can be read, and what is left of it. */
  lemma FirstToken(s: seq<Byte>) returns (t: Token, rest: seq<Byte>)
    requires s != [] && DecodeAnsiC(s).Ok?
    ensures Proper(t) && s == Text(t) + rest && DecodeAnsiC(rest).Ok?
    ensures t.Octal? ==> Ends(t.digits, rest)
  {
    if s[0] != BACKSLASH {
      t, rest := Literal(s[0]), s[1..];
    } else if NamedEscape(s[1]).Some? {
      LettersAreNamed(s[1]);
      t, rest := Letter(s[1]), s[2..];
    } else {
      var n := OctalLength(s[1..]);
      t, rest := Octal(s[1..1 + n]), s[1 + n..];
      NumberIsOctal(t.digits);
    }
  }

  lemma SoundCons(t: Token, tokens: seq<Token>)
    requires Proper(t) && Sound(tokens) && (t.Octal? ==> Ends(t.digits, Spelled(tokens)))
    ensures Sound([t] + tokens) && Spelled([t] + tokens) == Text(t) + Spelled(tokens)
  {
    var all := [t] + tokens;
    assert all[1..] == tokens;
    if tokens != [] {
      assert Spelled(tokens)[0] == Text(tokens[0])[0];
    }
    forall i | 0 < i < |all| ensures Apart(all[i - 1], all[i]) {
      if i > 1 {
        assert Apart(tokens[i - 2], tokens[i - 1]);
      }
    }
  }

  lemma {:induction false} Tokens(s: seq<Byte>) returns (tokens: seq<Token>)
    requires DecodeAnsiC(s).Ok?
    ensures Sound(tokens) && Spelled(tokens) == s
    decreases |s|
  {
    if s == [] {
      tokens := [];
    } else {
      var t, rest := FirstToken(s);
      tokens := Tokens(rest);
      SoundCons(t, tokens);
      tokens := [t] + tokens;
    }
  }

  ghost predicate Ansi(body: seq<Byte>, bytes: seq<Byte>) {
    exists tokens: seq<Token> :: Sound(tokens) && Spelled(tokens) == body && Values(tokens) == bytes
  }

  /** An ANSI-C body is read if and only if it is spelled by proper tokens, as what they mean. */
  lemma AnsiExact(body: seq<Byte>, bytes: seq<Byte>)
    ensures DecodeAnsiC(body) == Ok(bytes) <==> Ansi(body, bytes)
  {
    if DecodeAnsiC(body).Ok? {
      var tokens := Tokens(body);
      TokensRead(tokens);
    }
    if Ansi(body, bytes) {
      var tokens: seq<Token> :| Sound(tokens) && Spelled(tokens) == body && Values(tokens) == bytes;
      TokensRead(tokens);
    }
  }

  // ------------------------------------------------------- the record

  /** The plain form: the bytes, each behind a backslash or as it is; as it is only if it is
      printable and no backslash. */
  ghost predicate Plain(body: seq<Byte>, bytes: seq<Byte>) {
    exists escaped: seq<bool> :: Bare(bytes, escaped) && QuotePlain(bytes, escaped) == body
  }

  lemma PlainExact(body: seq<Byte>, bytes: seq<Byte>)
    ensures DecodePlain(body) == Ok(bytes) <==> Plain(body, bytes)
  {
    if DecodePlain(body).Ok? {
      var escaped := PlainAcceptsExactly(body);
    }
    if Plain(body, bytes) {
      var escaped: seq<bool> :| Bare(bytes, escaped) && QuotePlain(bytes, escaped) == body;
      BareDecodes(bytes, escaped);
    }
  }

  /** The forms of a quoted body. One that begins with a dollar and a quote is never plain. */
  ghost predicate Quotes(body: seq<Byte>, bytes: seq<Byte>) {
    || (body == [39, 39] && bytes == [])
    || (exists inner: seq<Byte> :: body == [36, 39] + inner + [39] && Ansi(inner, bytes))
    || (body != [39, 39] && !([36, 39] <= body) && Plain(body, bytes))
  }

  lemma QuotedExact(body: seq<Byte>, bytes: seq<Byte>)
    ensures DecodeQuoted(body) == Ok(bytes) <==> Quotes(body, bytes)
  {
    PlainExact(body, bytes);
    if [36, 39] <= body {
      DollarExact(body, bytes);
    } else {
      forall inner: seq<Byte> ensures body != [36, 39] + inner + [39] {
        assert [36, 39] <= [36, 39] + inner + [39];
      }
    }
  }

  lemma DollarExact(body: seq<Byte>, bytes: seq<Byte>)
    requires [36, 39] <= body
    ensures DecodeQuoted(body) == Ok(bytes) <==> exists inner: seq<Byte> :: body == [36, 39] + inner + [39] && Ansi(inner, bytes)
  {
    assert body[..2] == [36, 39];
    var n := |body| - 1;
    if n >= 2 && body[n] == 39 {
      var inner := body[2..][..n - 2];
      assert body == [36, 39] + inner + [39];
      AnsiExact(inner, bytes);
      forall other: seq<Byte> | body == [36, 39] + other + [39] ensures other == inner {
        AnsiQuotedParts(other, body);
      }
    } else {
      var rest := body[2..];
      assert body[0] == 36 && (rest != [] ==> rest[|rest| - 1] == body[n]);
      assert DecodeQuoted(body) == Err(UnterminatedQuote);
      forall inner: seq<Byte> ensures body != [36, 39] + inner + [39] {
        var q := [36, 39] + inner + [39];
        assert |q| == |inner| + 3 && q[|inner| + 2] == 39;
      }
    }
  }

  /** A record: the tag of its stream, a quoted body, and the byte that ends the line. */
  ghost predicate IsRecord(line: seq<Byte>, stream: Stream, bytes: seq<Byte>) {
    && |line| >= 2 && line[0] == (if stream == Stdout then 79 else 69)
    && Quotes(line[1..|line| - 1], bytes)
  }

  /** A line is read if and only if it is a record, and as the bytes it is a record of. */
  lemma RecordExact(line: seq<Byte>, stream: Stream, bytes: seq<Byte>)
    ensures ReadRecord(line) == Some(Delivery(stream, bytes)) <==> IsRecord(line, stream, bytes)
  {
    if |line| >= 2 {
      QuotedExact(line[1..|line| - 1], bytes);
    }
  }

  /** What the decoder makes of a line, newline included: a line of more than 512 bytes is never read;
      any other is a record, a newline alone, which means nothing, or unreadable. */
  lemma LineExact(w: Wire, line: seq<Byte>, stream: Stream, bytes: seq<Byte>)
    requires w.read == ReadRecord
    ensures Meaning(w, line) == Record(Delivery(stream, bytes)) <==> |line| <= 512 && IsRecord(line, stream, bytes)
    ensures Meaning(w, line).Blank? <==> line == [10]
  {
    RecordExact(line, stream, bytes);
  }
}
