/** Shell strings: quoting on the driver side, and the shell's own splitting into tokens. */
module ShellWords {
  import opened Bytes

  // ------------------------------------------------------- quoting

  function EscapeQuotes(value: string): string {
    if value == "" then ""
    else (if value[0] == '\'' then "'\\''" else [value[0]]) + EscapeQuotes(value[1..])
  }

  function Quote(value: string): string {
    "'" + EscapeQuotes(value) + "'"
  }

  lemma {:induction false} EscapeQuotesSnoc(value: string, c: char)
    ensures EscapeQuotes(value + [c]) == EscapeQuotes(value) + (if c == '\'' then "'\\''" else [c])
  {
    if value == "" {
      assert value + [c] == [c] && EscapeQuotes([c]) == (if c == '\'' then "'\\''" else [c]) + "";
    } else {
      assert (value + [c])[1..] == value[1..] + [c];
      EscapeQuotesSnoc(value[1..], c);
    }
  }

  method ShellQuote(value: string) returns (quoted: string)
    ensures quoted == Quote(value)
  {
    quoted := "'";
    var i := 0;
    while i < |value|
      invariant 0 <= i <= |value|
      invariant quoted == "'" + EscapeQuotes(value[..i])
    {
      assert value[..i + 1] == value[..i] + [value[i]];
      EscapeQuotesSnoc(value[..i], value[i]);
      if value[i] == '\'' {
        quoted := quoted + "'\\''";
      } else {
        quoted := quoted + [value[i]];
      }
      i := i + 1;
    }
    assert value[..i] == value;
    quoted := quoted + "'";
  }

  /** Each word quoted, with a blank in front. */
  function QuotedWords(words: seq<string>): string {
    if words == [] then "" else " " + Quote(words[0]) + QuotedWords(words[1..])
  }

  lemma {:induction false} QuotedWordsAppend(a: seq<string>, b: seq<string>)
    ensures QuotedWords(a + b) == QuotedWords(a) + QuotedWords(b)
  {
    if a == [] {
      assert a + b == b;
    } else {
      assert (a + b)[1..] == a[1..] + b;
      QuotedWordsAppend(a[1..], b);
    }
  }

  datatype Variable = Variable(key: string, value: string)

  function Assignment(v: Variable): string {
    v.key + "=" + v.value
  }

  function Assignments(env: seq<Variable>): (words: seq<string>)
    ensures |words| == |env|
    ensures forall i :: 0 <= i < |env| ==> words[i] == Assignment(env[i])
  {
    if env == [] then [] else [Assignment(env[0])] + Assignments(env[1..])
  }

  /** The argument vector the program is to be started with. */
  function Argv(env: seq<Variable>, program: string, args: seq<string>): seq<string> {
    Assignments(env) + [program] + args
  }

  /** `exec env KEY=VALUE... program args...`, one quoted word after the other. */
  method ExecLine(env: seq<Variable>, program: string, args: seq<string>) returns (line: string)
    ensures line == "exec env" + QuotedWords(Argv(env, program, args))
  {
    line := "exec env";
    ghost var done: seq<string> := [];
    var i := 0;
    while i < |env|
      invariant 0 <= i <= |env|
      invariant done == Assignments(env)[..i]
      invariant line == "exec env" + QuotedWords(done)
    {
      line, done := AddWord(line, done, env[i].key + "=" + env[i].value);
      i := i + 1;
    }
    assert done == Assignments(env);
    line, done := AddWord(line, done, program);
    line, done := AddArgs(line, done, args);
  }

  method AddArgs(line: string, ghost done: seq<string>, args: seq<string>) returns (longer: string, ghost more: seq<string>)
    requires line == "exec env" + QuotedWords(done)
    ensures more == done + args && longer == "exec env" + QuotedWords(more)
  {
    longer, more := line, done;
    var i := 0;
    while i < |args|
      invariant 0 <= i <= |args|
      invariant more == done + args[..i]
      invariant longer == "exec env" + QuotedWords(more)
    {
      longer, more := AddWord(longer, more, args[i]);
      i := i + 1;
    }
    assert args[..i] == args;
  }

  method AddWord(line: string, ghost done: seq<string>, word: string) returns (longer: string, ghost more: seq<string>)
    requires line == "exec env" + QuotedWords(done)
    ensures more == done + [word] && longer == "exec env" + QuotedWords(more)
  {
    var quoted := ShellQuote(word);
    longer := line + " " + quoted;
    more := done + [word];
    QuotedWordsAppend(done, [word]);
    assert QuotedWords([word]) == " " + Quote(word) + "";
    SeqAssociates("exec env", QuotedWords(done), " " + Quote(word));
  }

  // ------------------------------------------------------- the shell's reading
  // Sections 2.2.1, 2.2.2 and 2.3 of the POSIX.1-2017 Shell Command Language.

  /** A word after quote removal, an operator, a newline, or the parameter `$?` on its own. */
  datatype Token = Word(text: string) | Operator(text: string) | Newline | Status

  /** The tokens read, and whether reading reached the end: an open quote or anything the shell
      would expand, other than `$?`, stops it. */
  datatype Lexed = Lexed(tokens: seq<Token>, complete: bool)

  function Then(front: seq<Token>, rest: Lexed): Lexed {
    Lexed(front + rest.tokens, rest.complete)
  }

  function Flush(word: Option<string>): seq<Token> {
    match word
    case Some(text) => [Word(text)]
    case None => []
  }

  function Text(word: Option<string>): string {
    match word
    case Some(text) => text
    case None => ""
  }

  predicate Blank(c: char) {
    c == ' ' || c == '\t'
  }

  predicate OperatorChar(c: char) {
    c in {'&', '|', ';', '<', '>', '(', ')'}
  }

  predicate ExpansionChar(c: char) {
    c in {'$', '`', '"', '*', '?', '[', '#', '~'}
  }

  /** A character that stands for itself wherever it appears. */
  predicate Plain(c: char) {
    !Blank(c) && !OperatorChar(c) && !ExpansionChar(c) && c != '\'' && c != '\\' && c != '\n'
  }

  function OperatorLength(s: string): (n: nat)
    requires s != "" && OperatorChar(s[0])
    ensures 1 <= n <= 2 && n <= |s|
  {
    if |s| >= 2 && s[0] == s[1] && s[0] in {'&', '|', ';', '<', '>'} then 2 else 1
  }

  /** Reads `s` with the word so far in hand; `quoted` is inside single quotes. */
  function Lex(s: string, word: Option<string>, quoted: bool): Lexed
    decreases |s|
  {
    if s == "" then
      if quoted then Lexed([], false) else Lexed(Flush(word), true)
    else if quoted then
      if s[0] == '\'' then Lex(s[1..], word, false) else Lex(s[1..], Some(Text(word) + [s[0]]), true)
    else if s[0] == '\'' then Lex(s[1..], Some(Text(word)), true)
    else if s[0] == '\\' then
      if |s| == 1 then Lexed([], false)
      else if s[1] == '\n' then Lex(s[2..], word, false)
      else Lex(s[2..], Some(Text(word) + [s[1]]), false)
    else if Blank(s[0]) then Then(Flush(word), Lex(s[1..], None, false))
    else if s[0] == '\n' then Then(Flush(word) + [Newline], Lex(s[1..], None, false))
    else if OperatorChar(s[0]) then
      var n := OperatorLength(s);
      Then(Flush(word) + [Operator(s[..n])], Lex(s[n..], None, false))
    else if s[0] == '$' && word.None? && |s| >= 2 && s[1] == '?' && (|s| == 2 || s[2] == '\n' || Blank(s[2])) then
      Then([Status], Lex(s[2..], None, false))
    else if ExpansionChar(s[0]) then Lexed([], false)
    else Lex(s[1..], Some(Text(word) + [s[0]]), false)
  }

  function Tokens(s: string): Lexed {
    Lex(s, None, false)
  }

  // ------------------------------------------------------- quoting is undone

  /** An escaped quote, met inside quotes, adds one quote and stays inside. */
  lemma LexEscapedQuote(after: string, s: string, word: Option<string>)
    requires s == "'\\''" + after && word.Some?
    ensures Lex(s, word, true) == Lex(after, Some(word.value + "'"), true)
  {
    var a := "\\''" + after;
    var b := "'" + after;
    assert s[1..] == a && a[2..] == b && b[1..] == after;
    assert a[0] == '\\' && a[1] == '\'';
    assert Lex(a, word, false) == Lex(b, Some(word.value + "'"), false);
  }

  lemma OneCharMore(front: string, value: string)
    requires value != ""
    ensures front + [value[0]] + value[1..] == front + value
  {
  }

  /** The escape of the first character, and the rest. */
  lemma EscapedFront(value: string, rest: string, s: string, after: string)
    requires value != "" && s == EscapeQuotes(value) + "'" + rest && after == EscapeQuotes(value[1..]) + "'" + rest
    ensures s == (if value[0] == '\'' then "'\\''" else [value[0]]) + after
  {
  }

  lemma {:induction false} LexEscaped(value: string, rest: string, s: string, word: Option<string>)
    requires s == EscapeQuotes(value) + "'" + rest && word.Some?
    ensures Lex(s, word, true) == Lex(rest, Some(word.value + value), false)
    decreases |value|
  {
    if value == "" {
      assert s[1..] == rest && word.value + value == word.value;
    } else {
      var c, tail := value[0], value[1..];
      var after := EscapeQuotes(tail) + "'" + rest;
      var longer := Some(word.value + [c]);
      LexEscaped(tail, rest, after, longer);
      OneCharMore(word.value, value);
      EscapedFront(value, rest, s, after);
      if c == '\'' {
        LexEscapedQuote(after, s, word);
      } else {
        assert s[1..] == after;
      }
    }
  }

  /** A quoted value adds exactly itself to the word in hand, whatever it contains. */
  lemma LexQuote(value: string, rest: string, s: string, word: Option<string>)
    requires s == Quote(value) + rest
    ensures Lex(s, word, false) == Lex(rest, Some(Text(word) + value), false)
  {
    var inside := EscapeQuotes(value) + "'" + rest;
    assert s[1..] == inside;
    LexEscaped(value, rest, inside, Some(Text(word)));
  }

  predicate AllPlain(p: string) {
    forall i :: 0 <= i < |p| ==> Plain(p[i])
  }

  lemma {:induction false} LexPlain(p: string, rest: string, s: string, word: Option<string>)
    requires AllPlain(p) && p != "" && s == p + rest
    ensures Lex(s, word, false) == Lex(rest, Some(Text(word) + p), false)
    decreases |p|
  {
    var longer := Some(Text(word) + [p[0]]);
    assert s[0] == p[0] && s[1..] == p[1..] + rest;
    if |p| == 1 {
      assert s[1..] == rest && [p[0]] == p;
    } else {
      LexPlain(p[1..], rest, s[1..], longer);
      assert Text(word) + [p[0]] + p[1..] == Text(word) + p;
    }
  }

  lemma LexBlank(rest: string, s: string, word: Option<string>)
    requires s == " " + rest
    ensures Lex(s, word, false) == Then(Flush(word), Lex(rest, None, false))
  {
    assert s[1..] == rest;
  }

  lemma LexNewline(rest: string, s: string, word: Option<string>)
    requires s == "\n" + rest
    ensures Lex(s, word, false) == Then(Flush(word) + [Newline], Lex(rest, None, false))
  {
    assert s[1..] == rest;
  }

  lemma ThenThen(a: seq<Token>, b: seq<Token>, rest: Lexed)
    ensures Then(a, Then(b, rest)) == Then(a + b, rest)
  {
    SeqAssociates(a, b, rest.tokens);
  }

  // ------------------------------------------------------- command lines, piece by piece

  /** One item of a command line: a plain word, a quoted word, a plain word run together with a
      quoted one, an operator, or `$?`. */
  datatype Item =
    | Bare(text: string)
    | Quoted(text: string)
    | Joined(text: string, quoted: string)
    | Op(text: string)
    | LastStatus

  datatype Separator = Space | Break | End

  datatype Piece = Piece(item: Item, sep: Separator)

  predicate WellFormed(item: Item) {
    match item
    case Bare(text) => text != "" && AllPlain(text)
    case Joined(text, _) => text != "" && AllPlain(text)
    case Op(text) => text in {"||", "&&", "(", ")", "<"}
    case _ => true
  }

  function ItemText(item: Item): string {
    match item
    case Bare(text) => text
    case Quoted(text) => Quote(text)
    case Joined(text, quoted) => text + Quote(quoted)
    case Op(text) => text
    case LastStatus => "$?"
  }

  function ItemToken(item: Item): Token {
    match item
    case Bare(text) => Word(text)
    case Quoted(text) => Word(text)
    case Joined(text, quoted) => Word(text + quoted)
    case Op(text) => Operator(text)
    case LastStatus => Status
  }

  function SepText(sep: Separator): string {
    match sep
    case Space => " "
    case Break => "\n"
    case End => ""
  }

  function PieceText(p: Piece): string {
    ItemText(p.item) + SepText(p.sep)
  }

  function PieceTokens(p: Piece): seq<Token> {
    if p.sep == Break then [ItemToken(p.item), Newline] else [ItemToken(p.item)]
  }

  function Render(pieces: seq<Piece>): string {
    if pieces == [] then "" else PieceText(pieces[0]) + Render(pieces[1..])
  }

  function Meant(pieces: seq<Piece>): seq<Token> {
    if pieces == [] then [] else PieceTokens(pieces[0]) + Meant(pieces[1..])
  }

  /** Every piece is followed by a separator. */
  predicate Linked(pieces: seq<Piece>) {
    pieces == [] || (Links(pieces[0]) && Linked(pieces[1..]))
  }

  predicate Links(p: Piece) {
    WellFormed(p.item) && p.sep != End
  }

  /** Only the last piece may go without a separator. */
  predicate Separated(pieces: seq<Piece>) {
    pieces == [] || (WellFormed(pieces[0].item) && (|pieces| > 1 ==> pieces[0].sep != End) && Separated(pieces[1..]))
  }

  lemma {:induction false} SeparatedAppend(a: seq<Piece>, b: seq<Piece>)
    requires Linked(a) && Separated(b)
    ensures Separated(a + b)
  {
    if a == [] {
      assert a + b == b;
    } else {
      SeparatedAppend(a[1..], b);
      assert (a + b)[1..] == a[1..] + b;
    }
  }

  lemma {:induction false} LinkedAppend(a: seq<Piece>, b: seq<Piece>)
    requires Linked(a) && Linked(b)
    ensures Linked(a + b)
  {
    if a == [] {
      assert a + b == b;
    } else {
      LinkedAppend(a[1..], b);
      assert (a + b)[1..] == a[1..] + b;
    }
  }

  lemma SeparatorStep(sep: Separator, rest: string, s: string, word: string)
    requires s == SepText(sep) + rest && (sep == End ==> rest == "")
    ensures Lex(s, Some(word), false) ==
            Then(if sep == Break then [Word(word), Newline] else [Word(word)], Lex(rest, None, false))
  {
    match sep {
      case Space => LexBlank(rest, s, Some(word));
      case Break => LexNewline(rest, s, Some(word));
      case End => assert s == "" && rest == "";
    }
  }

  /** What a separator adds behind a token that stands alone. */
  lemma AloneStep(sep: Separator, rest: string, after: string, token: Token)
    requires after == SepText(sep) + rest && (sep == End ==> rest == "")
    ensures Then([token], Lex(after, None, false)) ==
            Then(if sep == Break then [token, Newline] else [token], Lex(rest, None, false))
  {
    match sep {
      case Space => LexBlank(rest, after, None);
      case Break =>
        LexNewline(rest, after, None);
        ThenThen([token], [Newline], Lex(rest, None, false));
      case End => assert after == "" && rest == "";
    }
  }

  lemma OperatorHead(op: string, after: string, s: string)
    requires WellFormed(Op(op)) && s == op + after && (after == "" || after[0] == ' ' || after[0] == '\n')
    ensures Lex(s, None, false) == Then([Operator(op)], Lex(after, None, false))
  {
    assert s[0] == op[0] && OperatorChar(s[0]);
    assert |op| == 1 && after != "" ==> s[1] == after[0];
    assert OperatorLength(s) == |op|;
    assert s[..|op|] == op && s[|op|..] == after;
  }

  lemma OperatorStep(op: string, sep: Separator, rest: string, s: string)
    requires WellFormed(Op(op)) && s == op + (SepText(sep) + rest) && (sep == End ==> rest == "")
    ensures Lex(s, None, false) ==
            Then(if sep == Break then [Operator(op), Newline] else [Operator(op)], Lex(rest, None, false))
  {
    var after := SepText(sep) + rest;
    OperatorHead(op, after, s);
    AloneStep(sep, rest, after, Operator(op));
  }

  lemma StatusHead(after: string, s: string)
    requires s == "$?" + after && (after == "" || after[0] == ' ' || after[0] == '\n')
    ensures Lex(s, None, false) == Then([Status], Lex(after, None, false))
  {
    assert s[0] == '$' && s[1] == '?' && s[2..] == after;
    assert !Blank(s[0]) && !OperatorChar(s[0]) && s[0] != '\'' && s[0] != '\\' && s[0] != '\n';
    assert |s| > 2 ==> s[2] == after[0] && (s[2] == '\n' || Blank(s[2]));
  }

  lemma StatusStep(sep: Separator, rest: string, s: string)
    requires s == "$?" + (SepText(sep) + rest) && (sep == End ==> rest == "")
    ensures Lex(s, None, false) ==
            Then(if sep == Break then [Status, Newline] else [Status], Lex(rest, None, false))
  {
    var after := SepText(sep) + rest;
    StatusHead(after, s);
    AloneStep(sep, rest, after, Status);
  }

  /** One piece reads as its own tokens, and reading starts afresh behind it. */
  lemma PieceStep(p: Piece, rest: string, s: string)
    requires WellFormed(p.item) && s == PieceText(p) + rest && (p.sep == End ==> rest == "")
    ensures Lex(s, None, false) == Then(PieceTokens(p), Lex(rest, None, false))
  {
    var after := SepText(p.sep) + rest;
    SeqAssociates(ItemText(p.item), SepText(p.sep), rest);
    match p.item {
      case Bare(text) => BareStep(text, p.sep, rest, s);
      case Quoted(text) => QuotedStep(text, p.sep, rest, s);
      case Joined(text, quoted) => JoinedStep(text, quoted, p.sep, rest, after, s);
      case Op(text) => OperatorStep(text, p.sep, rest, s);
      case LastStatus => StatusStep(p.sep, rest, s);
    }
  }

  lemma BareStep(text: string, sep: Separator, rest: string, s: string)
    requires WellFormed(Bare(text)) && s == text + (SepText(sep) + rest) && (sep == End ==> rest == "")
    ensures Lex(s, None, false) == Then(if sep == Break then [Word(text), Newline] else [Word(text)], Lex(rest, None, false))
  {
    var after := SepText(sep) + rest;
    LexPlain(text, after, s, None);
    assert "" + text == text;
    SeparatorStep(sep, rest, after, text);
  }

  lemma QuotedStep(text: string, sep: Separator, rest: string, s: string)
    requires s == Quote(text) + (SepText(sep) + rest) && (sep == End ==> rest == "")
    ensures Lex(s, None, false) == Then(if sep == Break then [Word(text), Newline] else [Word(text)], Lex(rest, None, false))
  {
    var after := SepText(sep) + rest;
    LexQuote(text, after, s, None);
    assert "" + text == text;
    SeparatorStep(sep, rest, after, text);
  }

  lemma JoinedStep(text: string, quoted: string, sep: Separator, rest: string, after: string, s: string)
    requires WellFormed(Joined(text, quoted)) && after == SepText(sep) + rest && (sep == End ==> rest == "")
    requires s == text + Quote(quoted) + after
    ensures Lex(s, None, false) == Then(if sep == Break then [Word(text + quoted), Newline] else [Word(text + quoted)], Lex(rest, None, false))
  {
    SeqAssociates(text, Quote(quoted), after);
    LexPlain(text, Quote(quoted) + after, s, None);
    assert "" + text == text;
    LexQuote(quoted, after, Quote(quoted) + after, Some(text));
    SeparatorStep(sep, rest, after, text + quoted);
  }

  /** A command line assembled from separated pieces reads back as exactly those pieces. */
  lemma {:induction false} RenderReadsBack(pieces: seq<Piece>)
    requires Separated(pieces)
    ensures Tokens(Render(pieces)) == Lexed(Meant(pieces), true)
  {
    if pieces != [] {
      var rest := pieces[1..];
      RenderReadsBack(rest);
      PieceStep(pieces[0], Render(rest), Render(pieces));
    }
  }

  lemma {:induction false} RenderAppend(a: seq<Piece>, b: seq<Piece>)
    ensures Render(a + b) == Render(a) + Render(b)
    ensures Meant(a + b) == Meant(a) + Meant(b)
  {
    MeantAppend(a, b);
    if a == [] {
      assert a + b == b;
    } else {
      assert (a + b)[1..] == a[1..] + b;
      RenderAppend(a[1..], b);
      SeqAssociates(PieceText(a[0]), Render(a[1..]), Render(b));
    }
  }

  lemma {:induction false} MeantAppend(a: seq<Piece>, b: seq<Piece>)
    ensures Meant(a + b) == Meant(a) + Meant(b)
  {
    if a == [] {
      assert a + b == b;
    } else {
      assert (a + b)[1..] == a[1..] + b;
      MeantAppend(a[1..], b);
      SeqAssociates(PieceTokens(a[0]), Meant(a[1..]), Meant(b));
    }
  }

  function Words(words: seq<string>): seq<Token> {
    if words == [] then [] else [Word(words[0])] + Words(words[1..])
  }

  /** Quoted words with blanks between them. */
  function WordPieces(words: seq<string>, last: Separator): (pieces: seq<Piece>)
    ensures |pieces| == |words|
    ensures last != Break ==> Meant(pieces) == Words(words)
    ensures Separated(pieces) && (last != End ==> Linked(pieces))
  {
    if words == [] then []
    else [Piece(Quoted(words[0]), if |words| == 1 then last else Space)] + WordPieces(words[1..], last)
  }

  lemma {:induction false} WordPiecesBreak(words: seq<string>)
    requires words != []
    ensures Meant(WordPieces(words, Break)) == Words(words) + [Newline]
  {
    if |words| > 1 {
      WordPiecesBreak(words[1..]);
    } else {
      assert words[1..] == [] && WordPieces(words[1..], Break) == [];
    }
  }

  lemma {:induction false} WordPiecesText(words: seq<string>, last: Separator)
    requires words != []
    ensures QuotedWords(words) + SepText(last) == " " + Render(WordPieces(words, last))
  {
    var q, rest := Quote(words[0]), words[1..];
    if rest == [] {
      One(Piece(Quoted(words[0]), last));
      assert WordPieces(words, last) == [Piece(Quoted(words[0]), last)];
      WordText(q, "", SepText(last));
    } else {
      WordPiecesText(rest, last);
      var p := WordPieces(words, last);
      assert p[0] == Piece(Quoted(words[0]), Space) && p[1..] == WordPieces(rest, last);
      SeqAssociates(" " + q, QuotedWords(rest), SepText(last));
      SeqAssociates(" " + q, " ", Render(p[1..]));
      WordText(q, " ", Render(p[1..]));
    }
  }

  lemma WordText(q: string, a: string, b: string)
    ensures " " + q + a + b == " " + (q + a + b) && " " + q + "" == " " + q
  {
  }

  /** The two words in front of every argument vector. */
  predicate ExecPair(a: Piece, b: Piece) {
    a == Piece(Bare("exec"), Space) && b == Piece(Bare("env"), Space)
  }

  lemma ExecPairReads(a: Piece, b: Piece)
    requires ExecPair(a, b)
    ensures Links(a) && Links(b) && PieceText(a) + PieceText(b) == "exec env" + " "
    ensures PieceTokens(a) + PieceTokens(b) == [Word("exec"), Word("env")]
  {
    ExecEnvText(PieceText(a), PieceText(b));
  }

  lemma ExecPiecesText(argv: seq<string>, last: Separator, a: Piece, b: Piece)
    requires argv != [] && ExecPair(a, b)
    ensures "exec env" + QuotedWords(argv) + SepText(last) == Render([a, b] + WordPieces(argv, last))
  {
    var w := Render(WordPieces(argv, last));
    WordPiecesText(argv, last);
    RenderAppend([a, b], WordPieces(argv, last));
    TwoPieces(a, b);
    SeqAssociates("exec env", QuotedWords(argv), SepText(last));
    SeqAssociates("exec env", " ", w);
    ExecPairReads(a, b);
  }

  lemma ExecEnvText(a: string, b: string)
    requires a == "exec" + " " && b == "env" + " "
    ensures a + b == "exec env" + " "
  {
  }

  /** Splitting the exec line gives `exec`, `env`, and then exactly the argument vector, for all
      variables, programs and arguments. */
  lemma ExecLineTokens(env: seq<Variable>, program: string, args: seq<string>, line: string)
    requires line == "exec env" + QuotedWords(Argv(env, program, args))
    ensures Tokens(line) == Lexed([Word("exec"), Word("env")] + Words(Argv(env, program, args)), true)
  {
    ExecPiecesRead(Argv(env, program, args), line, Piece(Bare("exec"), Space), Piece(Bare("env"), Space));
  }

  lemma ExecPiecesRead(argv: seq<string>, line: string, a: Piece, b: Piece)
    requires argv != [] && ExecPair(a, b) && line == "exec env" + QuotedWords(argv)
    ensures Tokens(line) == Lexed([Word("exec"), Word("env")] + Words(argv), true)
  {
    ExecPiecesText(argv, End, a, b);
    assert line + "" == line;
    ExecPairReads(a, b);
    PairRead(argv, a, b, [a, b] + WordPieces(argv, End));
  }

  lemma PairRead(argv: seq<string>, a: Piece, b: Piece, p: seq<Piece>)
    requires p == [a, b] + WordPieces(argv, End) && Links(a) && Links(b)
    ensures Tokens(Render(p)) == Lexed(PieceTokens(a) + PieceTokens(b) + Words(argv), true)
  {
    TwoPieces(a, b);
    SeparatedAppend([a, b], WordPieces(argv, End));
    RenderReadsBack(p);
    RenderAppend([a, b], WordPieces(argv, End));
  }

  lemma TwoPieces(a: Piece, b: Piece)
    ensures Render([a, b]) == PieceText(a) + PieceText(b) && Meant([a, b]) == PieceTokens(a) + PieceTokens(b)
    ensures Links(a) && Links(b) ==> Linked([a, b])
    ensures Links(a) && WellFormed(b.item) ==> Separated([a, b])
  {
    assert [a, b][1..] == [b] && [b][1..] == [];
    assert Render([b]) == PieceText(b) + "" && Meant([b]) == PieceTokens(b) + [];
  }

  // ------------------------------------------------------- nested levels

  function WrapSessionScript(script: string): string {
    "/bin/bash -c " + Quote(script)
  }

  function BuildSessionScript(cwd: string, command: string): string {
    "cd " + Quote(cwd) + " || exit $?" + "\n" + "export BASH_ENV=''" + "\n" + "(" + "\n" + command + "\n" + ")"
  }

  function DockerShell(workingDir: string): string {
    "cd " + Quote(workingDir) + " && exec sh -l"
  }

  function DockerShellCommand(container: string, workingDir: string): string {
    "docker exec -it " + Quote(container) + " sh -lc " + Quote(DockerShell(workingDir))
  }

  /** A piece with its text and tokens, followed by a separator. */
  predicate Reads(p: Piece, text: string, tokens: seq<Token>) {
    Links(p) && PieceText(p) == text && PieceTokens(p) == tokens
  }

  /** Four pieces, with their text and tokens written out. */
  lemma FourRead(a: Piece, b: Piece, c: Piece, d: Piece, text: seq<string>, tokens: seq<seq<Token>>)
    requires |text| == 4 && |tokens| == 4
    requires Reads(a, text[0], tokens[0]) && Reads(b, text[1], tokens[1]) && Reads(c, text[2], tokens[2]) && Reads(d, text[3], tokens[3])
    ensures Render([a, b, c, d]) == text[0] + text[1] + (text[2] + text[3])
    ensures Meant([a, b, c, d]) == tokens[0] + tokens[1] + (tokens[2] + tokens[3])
    ensures Linked([a, b, c, d])
  {
    Four(a, b, c, d);
  }

  /** Four pieces, with their text and tokens. */
  lemma Four(a: Piece, b: Piece, c: Piece, d: Piece)
    ensures Render([a, b, c, d]) == PieceText(a) + PieceText(b) + (PieceText(c) + PieceText(d))
    ensures Meant([a, b, c, d]) == PieceTokens(a) + PieceTokens(b) + (PieceTokens(c) + PieceTokens(d))
    ensures Links(a) && Links(b) && Links(c) && Links(d) ==> Linked([a, b, c, d])
  {
    assert [a, b, c, d] == [a, b] + [c, d];
    if Links(a) && Links(b) && Links(c) && Links(d) {
      TwoPieces(a, b);
      TwoPieces(c, d);
      LinkedAppend([a, b], [c, d]);
    }
    RenderAppend([a, b], [c, d]);
    TwoPieces(a, b);
    TwoPieces(c, d);
  }

  lemma One(a: Piece)
    ensures Render([a]) == PieceText(a) && Meant([a]) == PieceTokens(a)
    ensures WellFormed(a.item) ==> Separated([a])
  {
    assert [a][1..] == [] && PieceText(a) + "" == PieceText(a) && PieceTokens(a) + [] == PieceTokens(a);
  }

  /** The session shell hands Bash the whole script as one argument. */
  lemma SessionWrapperTokens(script: string)
    ensures Tokens(WrapSessionScript(script)) == Lexed([Word("/bin/bash"), Word("-c"), Word(script)], true)
  {
    var a, b, c := Piece(Bare("/bin/bash"), Space), Piece(Bare("-c"), Space), Piece(Quoted(script), End);
    var p := [a, b] + [c];
    RenderAppend([a, b], [c]);
    TwoPieces(a, b);
    One(c);
    SeparatedAppend([a, b], [c]);
    RenderReadsBack(p);
    WrapperText(PieceText(a), PieceText(b), PieceText(c), Quote(script));
  }

  lemma WrapperText(a: string, b: string, c: string, q: string)
    requires a == "/bin/bash" + " " && b == "-c" + " " && c == q + ""
    ensures a + b + c == "/bin/bash -c " + q
  {
    assert a + b == "/bin/bash -c ";
  }

  /** The lines before the command: enter the directory or give up, blank BASH_ENV, open a
      subshell. */
  function ScriptEntry(cwd: string): seq<Piece> {
    [Piece(Bare("cd"), Space), Piece(Quoted(cwd), Space), Piece(Op("||"), Space), Piece(Bare("exit"), Space)]
  }

  function ScriptOpening(): seq<Piece> {
    [Piece(LastStatus, Break), Piece(Bare("export"), Space), Piece(Joined("BASH_ENV=", ""), Break), Piece(Op("("), Break)]
  }

  lemma ScriptEntryText(cwd: string)
    ensures Render(ScriptEntry(cwd)) == "cd " + Quote(cwd) + " || exit "
    ensures Meant(ScriptEntry(cwd)) == [Word("cd"), Word(cwd), Operator("||"), Word("exit")]
    ensures Linked(ScriptEntry(cwd))
  {
    var a, b, c, d := Piece(Bare("cd"), Space), Piece(Quoted(cwd), Space), Piece(Op("||"), Space), Piece(Bare("exit"), Space);
    EntryReads(cwd, a, b, c, d);
    var q := Quote(cwd) + " ";
    FourRead(a, b, c, d, ["cd ", q, "|| ", "exit "], [[Word("cd")], [Word(cwd)], [Operator("||")], [Word("exit")]]);
    EntryText("cd ", q, "|| ", "exit ", Quote(cwd));
  }

  lemma EntryReads(cwd: string, a: Piece, b: Piece, c: Piece, d: Piece)
    requires a == Piece(Bare("cd"), Space) && b == Piece(Quoted(cwd), Space) && c == Piece(Op("||"), Space) && d == Piece(Bare("exit"), Space)
    ensures Reads(a, "cd ", [Word("cd")]) && Reads(b, Quote(cwd) + " ", [Word(cwd)])
    ensures Reads(c, "|| ", [Operator("||")]) && Reads(d, "exit ", [Word("exit")])
  {
  }

  lemma EntryText(a: string, b: string, c: string, d: string, q: string)
    requires a == "cd" + " " && b == q + " " && c == "||" + " " && d == "exit" + " "
    ensures a + b + (c + d) == "cd " + q + " || exit "
  {
    assert c + d == "|| exit ";
    SeqAssociates("cd ", q, " ");
    SeqAssociates("cd " + q, " ", "|| exit ");
  }

  lemma ScriptOpeningText()
    ensures Render(ScriptOpening()) == "$?\nexport BASH_ENV=''\n(\n"
    ensures Meant(ScriptOpening()) == [Status, Newline, Word("export"), Word("BASH_ENV="), Newline, Operator("("), Newline]
    ensures Linked(ScriptOpening())
  {
    OpeningPieces(Piece(LastStatus, Break), Piece(Bare("export"), Space), Piece(Joined("BASH_ENV=", ""), Break), Piece(Op("("), Break));
  }

  lemma OpeningPieces(e: Piece, f: Piece, g: Piece, h: Piece)
    requires e == Piece(LastStatus, Break) && f == Piece(Bare("export"), Space)
    requires g == Piece(Joined("BASH_ENV=", ""), Break) && h == Piece(Op("("), Break)
    ensures Render([e, f, g, h]) == "$?\nexport BASH_ENV=''\n(\n"
    ensures Meant([e, f, g, h]) == [Status, Newline, Word("export"), Word("BASH_ENV="), Newline, Operator("("), Newline]
    ensures Linked([e, f, g, h])
  {
    StatusReads(e);
    ExportReads(f);
    UnsetReads(g);
    OpenReads(h);
    var k, l, m, n := [Status, Newline], [Word("export")], [Word("BASH_ENV="), Newline], [Operator("("), Newline];
    FourRead(e, f, g, h, ["$?\n", "export ", "BASH_ENV=''\n", "(\n"], [k, l, m, n]);
    OpeningText("$?\n", "export ", "BASH_ENV=''\n", "(\n", "''");
    OpeningTokens(k, l, m, n);
  }

  lemma StatusReads(p: Piece)
    requires p == Piece(LastStatus, Break)
    ensures Reads(p, "$?\n", [Status, Newline])
  {
  }

  lemma OpenReads(p: Piece)
    requires p == Piece(Op("("), Break)
    ensures Reads(p, "(\n", [Operator("("), Newline])
  {
  }

  lemma ExportReads(p: Piece)
    requires p == Piece(Bare("export"), Space)
    ensures Reads(p, "export ", [Word("export")])
  {
  }

  lemma UnsetReads(p: Piece)
    requires p == Piece(Joined("BASH_ENV=", ""), Break)
    ensures Reads(p, "BASH_ENV=''\n", [Word("BASH_ENV="), Newline])
  {
    EnvIsPlain("BASH_ENV=");
    BlankReads(p, "BASH_ENV=", "BASH_ENV=''\n");
  }

  lemma EnvIsPlain(name: string)
    requires name == "BASH_ENV="
    ensures AllPlain(name)
  {
  }

  /** An assignment of nothing. */
  lemma BlankReads(p: Piece, name: string, text: string)
    requires p == Piece(Joined(name, ""), Break) && name != "" && AllPlain(name) && text == name + "''\n"
    ensures Reads(p, text, [Word(name), Newline])
  {
    assert Quote("") == "''" && name + "" == name;
    SeqAssociates(name, "''", "\n");
  }

  lemma OpeningTokens(e: seq<Token>, f: seq<Token>, g: seq<Token>, h: seq<Token>)
    requires e == [Status, Newline] && f == [Word("export")] && g == [Word("BASH_ENV="), Newline] && h == [Operator("("), Newline]
    ensures e + f + (g + h) == [Status, Newline, Word("export"), Word("BASH_ENV="), Newline, Operator("("), Newline]
  {
    assert e + f == [Status, Newline, Word("export")];
    assert g + h == [Word("BASH_ENV="), Newline, Operator("("), Newline];
  }

  lemma OpeningText(e: string, f: string, g: string, h: string, q: string)
    requires q == "''" && e == "$?" + "\n" && f == "export" + " " && g == "BASH_ENV=" + q + "\n" && h == "(" + "\n"
    ensures e + f + (g + h) == "$?\nexport BASH_ENV=''\n(\n"
  {
    assert e + f == "$?\nexport ";
    assert g + h == "BASH_ENV=''\n(\n";
  }

  /** The tokens of the script in front of the command. */
  function EntryTokens(cwd: string): seq<Token> {
    [Word("cd"), Word(cwd), Operator("||"), Word("exit")]
    + [Status, Newline, Word("export"), Word("BASH_ENV="), Newline, Operator("("), Newline]
  }

  /** Whatever pieces a command and the closing line are made of, the script enters exactly the
      directory and then reads as those pieces. */
  lemma SessionScriptAround(cwd: string, command: string, closing: seq<Piece>)
    requires Render(closing) == command + "\n)" && Separated(closing)
    ensures Tokens(BuildSessionScript(cwd, command)) == Lexed(EntryTokens(cwd) + Meant(closing), true)
  {
    var entry, opening := ScriptEntry(cwd), ScriptOpening();
    ScriptEntryText(cwd);
    ScriptOpeningText();
    RenderAppend(entry, opening);
    RenderAppend(entry + opening, closing);
    LinkedAppend(entry, opening);
    SeparatedAppend(entry + opening, closing);
    RenderReadsBack(entry + opening + closing);
    ScriptText(Quote(cwd), command, Render(closing));
  }

  /** Inside, the script enters exactly the directory, and the command's own words stand between
      the parentheses. */
  lemma SessionScriptTokens(cwd: string, env: seq<Variable>, program: string, args: seq<string>, command: string)
    requires command == "exec env" + QuotedWords(Argv(env, program, args))
    ensures Tokens(BuildSessionScript(cwd, command)) ==
      Lexed(EntryTokens(cwd) + ([Word("exec"), Word("env")] + Words(Argv(env, program, args)) + [Newline, Operator(")")]), true)
  {
    var argv := Argv(env, program, args);
    var a, b, last := Piece(Bare("exec"), Space), Piece(Bare("env"), Space), Piece(Op(")"), End);
    var closing := [a, b] + WordPieces(argv, Break) + [last];
    ScriptClosing(argv, command, a, b, last, closing);
    SessionScriptAround(cwd, command, closing);
  }

  /** With fixed input, the command's words are followed by a redirection from exactly its file. */
  lemma RedirectedScriptTokens(cwd: string, env: seq<Variable>, program: string, args: seq<string>, path: string, command: string)
    requires command == "exec env" + QuotedWords(Argv(env, program, args)) + " < " + Quote(path)
    ensures Tokens(BuildSessionScript(cwd, command)) ==
      Lexed(EntryTokens(cwd) + ([Word("exec"), Word("env")] + Words(Argv(env, program, args)) + [Operator("<"), Word(path), Newline] + [Operator(")")]), true)
  {
    var argv := Argv(env, program, args);
    var a, b, last := Piece(Bare("exec"), Space), Piece(Bare("env"), Space), Piece(Op(")"), End);
    var lt, file := Piece(Op("<"), Space), Piece(Quoted(path), Break);
    var front := [a, b] + WordPieces(argv, Space);
    RedirectFront(argv, a, b, front);
    RedirectClosing(path, front, lt, file, last, "exec env" + QuotedWords(argv), command);
    SessionScriptAround(cwd, command, front + [lt, file] + [last]);
  }

  lemma RedirectFront(argv: seq<string>, a: Piece, b: Piece, front: seq<Piece>)
    requires argv != [] && ExecPair(a, b) && front == [a, b] + WordPieces(argv, Space)
    ensures Render(front) == "exec env" + QuotedWords(argv) + " " && Linked(front)
    ensures Meant(front) == [Word("exec"), Word("env")] + Words(argv)
  {
    ExecPiecesText(argv, Space, a, b);
    ExecPairReads(a, b);
    LinkedPair(a, b, WordPieces(argv, Space));
  }

  lemma RedirectClosing(path: string, front: seq<Piece>, lt: Piece, file: Piece, last: Piece, line: string, command: string)
    requires lt == Piece(Op("<"), Space) && file == Piece(Quoted(path), Break) && last == Piece(Op(")"), End)
    requires Linked(front) && Render(front) == line + " " && command == line + " < " + Quote(path)
    ensures Render(front + [lt, file] + [last]) == command + "\n)" && Separated(front + [lt, file] + [last])
    ensures Meant(front + [lt, file] + [last]) == Meant(front) + [Operator("<"), Word(path), Newline] + [Operator(")")]
  {
    TwoPieces(lt, file);
    One(last);
    RenderAppend(front, [lt, file]);
    RenderAppend(front + [lt, file], [last]);
    LinkedAppend(front, [lt, file]);
    SeparatedAppend(front + [lt, file], [last]);
    RedirectText(line, Quote(path), PieceText(lt), PieceText(file), PieceText(last));
    RedirectTokens(PieceTokens(lt), PieceTokens(file), path);
  }

  lemma RedirectText(line: string, q: string, lt: string, file: string, last: string)
    requires lt == "<" + " " && file == q + "\n" && last == ")" + ""
    ensures line + " " + (lt + file) + last == line + " < " + q + "\n)"
  {
    assert line + " " + (lt + file) == line + " < " + q + "\n" by {
      SeqAssociates(line + " ", lt, file);
      assert line + " " + lt == line + " < ";
      SeqAssociates(line + " < ", q, "\n");
    }
    ClosingText(line + " < " + q, last);
  }

  lemma RedirectTokens(lt: seq<Token>, file: seq<Token>, path: string)
    requires lt == [Operator("<")] && file == [Word(path), Newline]
    ensures lt + file == [Operator("<"), Word(path), Newline]
  {
  }

  lemma ScriptText(q: string, command: string, closing: string)
    requires closing == command + "\n)"
    ensures "cd " + q + " || exit $?" + "\n" + "export BASH_ENV=''" + "\n" + "(" + "\n" + command + "\n" + ")"
         == "cd " + q + " || exit " + "$?\nexport BASH_ENV=''\n(\n" + closing
  {
    var front := "cd " + q;
    var middle := "\n" + "export BASH_ENV=''" + "\n" + "(" + "\n";
    ScriptMiddle(front, middle);
    assert front + " || exit $?" + "\n" + "export BASH_ENV=''" + "\n" + "(" + "\n" == front + " || exit $?" + middle;
    SeqAssociates(front + " || exit $?" + middle, command, "\n)");
    assert command + "\n" + ")" == command + "\n)";
  }

  lemma ScriptMiddle(front: string, middle: string)
    requires middle == "\n" + "export BASH_ENV=''" + "\n" + "(" + "\n"
    ensures front + " || exit $?" + middle == front + " || exit " + "$?\nexport BASH_ENV=''\n(\n"
  {
    assert "$?" + middle == "$?\nexport BASH_ENV=''\n(\n";
    assert " || exit $?" == " || exit " + "$?";
    SeqAssociates(front, " || exit ", "$?");
    SeqAssociates(front + " || exit ", "$?", middle);
  }

  lemma LinkedPair(a: Piece, b: Piece, rest: seq<Piece>)
    requires Links(a) && Links(b) && Linked(rest)
    ensures Linked([a, b] + rest) && Meant([a, b] + rest) == PieceTokens(a) + PieceTokens(b) + Meant(rest)
  {
    TwoPieces(a, b);
    LinkedAppend([a, b], rest);
    RenderAppend([a, b], rest);
  }

  lemma ScriptClosing(argv: seq<string>, command: string, a: Piece, b: Piece, last: Piece, closing: seq<Piece>)
    requires argv != [] && command == "exec env" + QuotedWords(argv) && ExecPair(a, b) && last == Piece(Op(")"), End)
    requires closing == [a, b] + WordPieces(argv, Break) + [last]
    ensures Render(closing) == command + "\n)"
    ensures Meant(closing) == [Word("exec"), Word("env")] + Words(argv) + [Newline, Operator(")")]
    ensures Separated(closing)
  {
    var front := [a, b] + WordPieces(argv, Break);
    RenderAppend(front, [last]);
    One(last);
    ExecPiecesText(argv, Break, a, b);
    ExecPairReads(a, b);
    WordPiecesBreak(argv);
    LinkedPair(a, b, WordPieces(argv, Break));
    SeparatedAppend(front, [last]);
    ClosingText(command, PieceText(last));
    ClosingTokens([Word("exec"), Word("env")], Words(argv));
  }

  lemma ClosingText(command: string, last: string)
    requires last == ")" + ""
    ensures command + "\n" + last == command + "\n)"
  {
  }

  lemma ClosingTokens(a: seq<Token>, b: seq<Token>)
    ensures a + (b + [Newline]) + [Operator(")")] == a + b + [Newline, Operator(")")]
  {
  }

  /** The Docker command line starts the shell in exactly the given container, with one script
      argument, and that script enters exactly the given directory. */
  lemma DockerShellTokens(container: string, workingDir: string)
    ensures Tokens(DockerShellCommand(container, workingDir)) ==
      Lexed([Word("docker"), Word("exec"), Word("-it"), Word(container)]
            + [Word("sh"), Word("-lc"), Word(DockerShell(workingDir))], true)
    ensures Tokens(DockerShell(workingDir)) ==
      Lexed([Word("cd"), Word(workingDir), Operator("&&"), Word("exec")] + [Word("sh"), Word("-l")], true)
  {
    OuterShellTokens(container, DockerShell(workingDir));
    InnerShellTokens(workingDir);
  }

  function ShellEntry(container: string): seq<Piece> {
    [Piece(Bare("docker"), Space), Piece(Bare("exec"), Space), Piece(Bare("-it"), Space), Piece(Quoted(container), Space)]
  }

  lemma ShellEntryText(container: string)
    ensures Render(ShellEntry(container)) == "docker exec -it " + Quote(container) + " "
    ensures Meant(ShellEntry(container)) == [Word("docker"), Word("exec"), Word("-it"), Word(container)]
    ensures Linked(ShellEntry(container))
  {
    ShellEntryPieces(container, Piece(Bare("docker"), Space), Piece(Bare("exec"), Space), Piece(Bare("-it"), Space), Piece(Quoted(container), Space));
  }

  lemma ShellEntryPieces(container: string, a: Piece, b: Piece, c: Piece, d: Piece)
    requires a == Piece(Bare("docker"), Space) && b == Piece(Bare("exec"), Space) && c == Piece(Bare("-it"), Space) && d == Piece(Quoted(container), Space)
    ensures Render([a, b, c, d]) == "docker exec -it " + Quote(container) + " "
    ensures Meant([a, b, c, d]) == [Word("docker"), Word("exec"), Word("-it"), Word(container)]
    ensures Linked([a, b, c, d])
  {
    ShellEntryReads(container, a, b, c, d);
    var q := Quote(container) + " ";
    FourRead(a, b, c, d, ["docker ", "exec ", "-it ", q], [[Word("docker")], [Word("exec")], [Word("-it")], [Word(container)]]);
    OuterText("docker ", "exec ", "-it ", q, Quote(container));
  }

  lemma ShellEntryReads(container: string, a: Piece, b: Piece, c: Piece, d: Piece)
    requires a == Piece(Bare("docker"), Space) && b == Piece(Bare("exec"), Space) && c == Piece(Bare("-it"), Space) && d == Piece(Quoted(container), Space)
    ensures Reads(a, "docker ", [Word("docker")]) && Reads(b, "exec ", [Word("exec")]) && Reads(c, "-it ", [Word("-it")])
    ensures Reads(d, Quote(container) + " ", [Word(container)])
  {
  }

  function ShellScript(script: string): seq<Piece> {
    [Piece(Bare("sh"), Space), Piece(Bare("-lc"), Space)] + [Piece(Quoted(script), End)]
  }

  lemma ShellScriptText(script: string)
    ensures Render(ShellScript(script)) == "sh -lc " + Quote(script)
    ensures Meant(ShellScript(script)) == [Word("sh"), Word("-lc"), Word(script)]
    ensures Separated(ShellScript(script))
  {
    var e, f, g := Piece(Bare("sh"), Space), Piece(Bare("-lc"), Space), Piece(Quoted(script), End);
    RenderAppend([e, f], [g]);
    TwoPieces(e, f);
    One(g);
    SeparatedAppend([e, f], [g]);
    TailText(PieceText(e), PieceText(f), PieceText(g), Quote(script));
  }

  lemma OuterShellTokens(container: string, script: string)
    ensures Tokens("docker exec -it " + Quote(container) + " sh -lc " + Quote(script)) ==
      Lexed([Word("docker"), Word("exec"), Word("-it"), Word(container)] + [Word("sh"), Word("-lc"), Word(script)], true)
  {
    ShellEntryText(container);
    ShellScriptText(script);
    JoinTokens(ShellEntry(container), ShellScript(script));
    OuterJoin("docker exec -it " + Quote(container), Quote(script));
  }

  lemma JoinTokens(a: seq<Piece>, b: seq<Piece>)
    requires Linked(a) && Separated(b)
    ensures Tokens(Render(a) + Render(b)) == Lexed(Meant(a) + Meant(b), true)
  {
    RenderAppend(a, b);
    SeparatedAppend(a, b);
    RenderReadsBack(a + b);
  }

  lemma OuterText(a: string, b: string, c: string, d: string, q: string)
    requires a == "docker" + " " && b == "exec" + " " && c == "-it" + " " && d == q + " "
    ensures a + b + (c + d) == "docker exec -it " + q + " "
  {
    assert a + b == "docker exec ";
    SeqAssociates("docker exec ", "-it ", q + " ");
    assert "docker exec " + "-it " == "docker exec -it ";
    SeqAssociates("-it ", q, " ");
    SeqAssociates("docker exec -it ", q, " ");
  }

  lemma TailText(e: string, f: string, g: string, q: string)
    requires e == "sh" + " " && f == "-lc" + " " && g == q + ""
    ensures e + f + g == "sh -lc " + q
  {
    assert e + f == "sh -lc ";
  }

  lemma OuterJoin(front: string, q: string)
    ensures front + " " + ("sh -lc " + q) == front + " sh -lc " + q
  {
    SeqAssociates(front + " ", "sh -lc ", q);
    SeqAssociates(front, " ", "sh -lc ");
    assert " " + "sh -lc " == " sh -lc ";
  }

  function InnerEntry(workingDir: string): seq<Piece> {
    [Piece(Bare("cd"), Space), Piece(Quoted(workingDir), Space), Piece(Op("&&"), Space), Piece(Bare("exec"), Space)]
  }

  lemma InnerEntryText(workingDir: string)
    ensures Render(InnerEntry(workingDir)) == "cd " + Quote(workingDir) + " && exec "
    ensures Meant(InnerEntry(workingDir)) == [Word("cd"), Word(workingDir), Operator("&&"), Word("exec")]
    ensures Linked(InnerEntry(workingDir))
  {
    var a, b, c, d := Piece(Bare("cd"), Space), Piece(Quoted(workingDir), Space), Piece(Op("&&"), Space), Piece(Bare("exec"), Space);
    Four(a, b, c, d);
    InnerText(PieceText(a), PieceText(b), PieceText(c), PieceText(d), Quote(workingDir));
  }

  lemma InnerShellTokens(workingDir: string)
    ensures Tokens(DockerShell(workingDir)) ==
      Lexed([Word("cd"), Word(workingDir), Operator("&&"), Word("exec")] + [Word("sh"), Word("-l")], true)
  {
    var e, f := Piece(Bare("sh"), Space), Piece(Bare("-l"), End);
    TwoPieces(e, f);
    InnerEntryText(workingDir);
    JoinTokens(InnerEntry(workingDir), [e, f]);
    assert PieceText(e) + PieceText(f) == "sh -l";
    SeqAssociates("cd " + Quote(workingDir), " && exec ", "sh -l");
    assert " && exec " + "sh -l" == " && exec sh -l";
  }

  lemma InnerText(a: string, b: string, c: string, d: string, q: string)
    requires a == "cd" + " " && b == q + " " && c == "&&" + " " && d == "exec" + " "
    ensures a + b + (c + d) == "cd " + q + " && exec "
  {
    assert c + d == "&& exec ";
    SeqAssociates("cd ", q, " ");
    SeqAssociates("cd " + q, " ", "&& exec ");
    assert " " + "&& exec " == " && exec ";
  }
}
