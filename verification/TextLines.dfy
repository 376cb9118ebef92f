/** Text as lines: where they end, how a text splits into them, and what is left over. */
module TextLines {
  import opened Bytes

  const NEWLINE: Byte := 10

  /** The complete lines of `text`, newlines included. */
  ghost function Split(text: seq<Byte>): seq<seq<Byte>> {
    var e := First(text, NEWLINE);
    if e == |text| then [] else [text[..e + 1]] + Split(text[e + 1..])
  }

  /** What follows the last newline. */
  ghost function Rest(text: seq<Byte>): seq<Byte> {
    var e := First(text, NEWLINE);
    if e == |text| then text else Rest(text[e + 1..])
  }

  ghost predicate IsLine(line: seq<Byte>) {
    line != [] && First(line, NEWLINE) == |line| - 1
  }

  lemma PrefixIsLine(text: seq<Byte>)
    requires First(text, NEWLINE) < |text|
    ensures IsLine(text[..First(text, NEWLINE) + 1])
  {
    var e := First(text, NEWLINE);
    assert text[..e + 1][..e] == text[..e];
    FirstUnique(text[..e + 1], NEWLINE, e, First(text[..e + 1], NEWLINE));
  }

  lemma {:induction false} SplitIsWhole(text: seq<Byte>)
    ensures Concat(Split(text)) + Rest(text) == text
    decreases |text|
  {
    var e := First(text, NEWLINE);
    if e < |text| {
      var line, more := text[..e + 1], text[e + 1..];
      SplitIsWhole(more);
      PrefixIsLine(text);
      SplitFirst(text, line, more);
      WholeAgain(text, line, more, Split(more), Rest(more));
    }
  }

  lemma WholeAgain(text: seq<Byte>, line: seq<Byte>, more: seq<Byte>, lines: seq<seq<Byte>>, rest: seq<Byte>)
    requires text == line + more && Concat(lines) + rest == more
    ensures Concat([line] + lines) + rest == text
  {
    assert ([line] + lines)[1..] == lines;
    SeqAssociates(line, Concat(lines), rest);
  }

  predicate EndsLine(text: seq<Byte>) {
    text == [] || text[|text| - 1] == NEWLINE
  }

  lemma {:induction false} RestOfLines(text: seq<Byte>)
    ensures Rest(text) == [] <==> EndsLine(text)
    decreases |text|
  {
    var e := First(text, NEWLINE);
    if e < |text| {
      RestOfLines(text[e + 1..]);
    } else if text != [] {
      assert text[..e] == text && text[|text| - 1] in text;
    }
  }

  lemma FirstAppend(a: seq<Byte>, b: seq<Byte>)
    requires First(a, NEWLINE) < |a|
    ensures First(a + b, NEWLINE) == First(a, NEWLINE)
  {
    var e := First(a, NEWLINE);
    assert (a + b)[..e] == a[..e];
    FirstUnique(a + b, NEWLINE, e, First(a + b, NEWLINE));
  }

  /** The first line of a text that has one. */
  lemma SplitFirst(text: seq<Byte>, line: seq<Byte>, more: seq<Byte>)
    requires IsLine(line) && text == line + more
    ensures Split(text) == [line] + Split(more) && Rest(text) == Rest(more)
  {
    FirstAppend(line, more);
    assert text[..|line|] == line && text[|line|..] == more;
  }

  lemma SplitAppendLine(line: seq<Byte>, more: seq<Byte>, b: seq<Byte>, a: seq<Byte>, ab: seq<Byte>, mb: seq<Byte>)
    requires IsLine(line) && a == line + more && ab == line + mb
    requires Split(mb) == Split(more) + Split(b) && Rest(mb) == Rest(b)
    ensures Split(ab) == Split(a) + Split(b) && Rest(ab) == Rest(b)
  {
    assert Split(a) == [line] + Split(more) by {
      SplitFirst(a, line, more);
    }
    assert Split(ab) == [line] + Split(mb) && Rest(ab) == Rest(mb) by {
      SplitFirst(ab, line, mb);
    }
    SeqAssociates([line], Split(more), Split(b));
  }

  lemma {:induction false} SplitAppend(a: seq<Byte>, b: seq<Byte>)
    requires EndsLine(a)
    ensures Split(a + b) == Split(a) + Split(b) && Rest(a + b) == Rest(b)
    decreases |a|
  {
    if a == [] {
      assert a + b == b && Split(a) + Split(b) == Split(b);
    } else {
      var line, more := FirstLine(a);
      SplitAppend(more, b);
      SeqAssociates(line, more, b);
      SplitAppendLine(line, more, b, a, a + b, more + b);
    }
  }

  /** A text that ends a line is its first line and a text that ends a line. */
  lemma FirstLine(a: seq<Byte>) returns (line: seq<Byte>, more: seq<Byte>)
    requires EndsLine(a) && a != []
    ensures a == line + more && IsLine(line) && EndsLine(more) && |more| < |a|
  {
    RestOfLines(a);
    var e := First(a, NEWLINE);
    line, more := a[..e + 1], a[e + 1..];
    PrefixIsLine(a);
  }

  lemma {:induction false} LinesOfRecords(m: seq<seq<Byte>>)
    requires forall i :: 0 <= i < |m| ==> IsLine(m[i])
    ensures Split(Concat(m)) == m && Rest(Concat(m)) == []
    decreases |m|
  {
    if m != [] {
      LinesOfRecords(m[1..]);
      SplitFirst(Concat(m), m[0], Concat(m[1..]));
    }
  }
}
