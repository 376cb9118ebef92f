/** The stdin pump of an attached process: bytes arrive in arbitrary pieces, complete UTF-8 text
    goes on, and a character still arriving is held back. */
module Utf8Pump {
  import opened Bytes

  // ------------------------------------------------------- section 4 of RFC 3629

  predicate Tail(b: Byte) {
    0x80 <= b <= 0xBF
  }

  /** The bytes that may follow the lead byte `a` of a character of two or more bytes. */
  predicate SecondFits(a: Byte, b: Byte) {
    if a == 0xE0 then 0xA0 <= b <= 0xBF
    else if a == 0xED then 0x80 <= b <= 0x9F
    else if a == 0xF0 then 0x90 <= b <= 0xBF
    else if a == 0xF4 then 0x80 <= b <= 0x8F
    else Tail(b)
  }

  /** The length a lead byte announces, or 0 for a byte that leads nothing. */
  function LeadLength(a: Byte): nat {
    if a <= 0x7F then 1
    else if 0xC2 <= a <= 0xDF then 2
    else if 0xE0 <= a <= 0xEF then 3
    else if 0xF0 <= a <= 0xF4 then 4
    else 0
  }

  /** The bytes agree with the form their lead announces, as far as they go. */
  predicate Fits(c: seq<Byte>) {
    && c != [] && |c| <= LeadLength(c[0])
    && (|c| >= 2 ==> SecondFits(c[0], c[1]))
    && (|c| >= 3 ==> Tail(c[2]))
    && (|c| >= 4 ==> Tail(c[3]))
  }

  predicate IsChar(c: seq<Byte>) {
    Fits(c) && |c| == LeadLength(c[0])
  }

  /** UTF-8 text: characters, one after the other. */
  predicate Valid(s: seq<Byte>) {
    s == [] || (Starts(s) && Valid(s[LeadLength(s[0])..]))
  }

  /** A whole character stands at the front. */
  predicate Starts(s: seq<Byte>) {
    s != [] && 0 < LeadLength(s[0]) <= |s| && IsChar(s[..LeadLength(s[0])])
  }

  ghost predicate Extendable(s: seq<Byte>) {
    exists t: seq<Byte> :: Valid(s + t)
  }

  // ------------------------------------------------------- the code

  /** How scanning from the front ends: at the end of the text, at a character that the end of
      the text cuts short, or at bytes no continuation completes. */
  datatype Scan = Whole(length: nat) | Cut(length: nat) | Impossible

  function ScanText(s: seq<Byte>): Scan {
    if s == [] then Whole(0)
    else if Starts(s) then
      match ScanText(s[LeadLength(s[0])..])
      case Whole(n) => Whole(LeadLength(s[0]) + n)
      case Cut(n) => Cut(LeadLength(s[0]) + n)
      case Impossible => Impossible
    else if Fits(s) then Cut(0)
    else Impossible
  }

  /** The length of the longest complete prefix, or None when the bytes cannot be completed. */
  function CompletePrefix(s: seq<Byte>): Option<nat> {
    match ScanText(s)
    case Whole(n) => Some(n)
    case Cut(n) => Some(n)
    case Impossible => None
  }

  // ------------------------------------------------------- what it computes

  lemma StartsWithMore(s: seq<Byte>, t: seq<Byte>)
    requires Starts(s)
    ensures Starts(s + t) && (s + t)[LeadLength(s[0])..] == s[LeadLength(s[0])..] + t
  {
    assert (s + t)[..LeadLength(s[0])] == s[..LeadLength(s[0])];
  }

  /** Valid text in front changes nothing about what follows it. */
  lemma {:induction false} ValidFront(a: seq<Byte>, b: seq<Byte>)
    requires Valid(a)
    ensures Valid(a + b) <==> Valid(b)
    ensures CompletePrefix(a + b) == match CompletePrefix(b) case Some(n) => Some(|a| + n) case None => None
  {
    if a == [] {
      assert a + b == b;
    } else {
      StartsWithMore(a, b);
      ValidFront(a[LeadLength(a[0])..], b);
    }
  }

  lemma FitsPrefix(s: seq<Byte>, t: seq<Byte>)
    requires s != [] && !Starts(s) && Valid(s + t)
    ensures Fits(s)
  {
    var n := LeadLength(s[0]);
    assert (s + t)[0] == s[0];
    var c := (s + t)[..n];
    assert forall i :: 0 <= i < |s| && i < n ==> c[i] == s[i];
  }

  /** A cut character can be completed. */
  lemma FitsCompletes(s: seq<Byte>) returns (t: seq<Byte>)
    requires Fits(s)
    ensures Valid(s + t)
  {
    var n := LeadLength(s[0]);
    var second := if s[0] == 0xE0 then 0xA0 else if s[0] == 0xF0 then 0x90 else 0x80;
    t := seq(n - |s|, i requires 0 <= i < n - |s| => if |s| + i == 1 then second else 0x80);
    var c := s + t;
    assert c[..n] == c && c[n..] == [];
    assert IsChar(c);
  }

  /** The two verdicts, exactly: refused bytes are those no continuation makes valid; otherwise
      the answer is the longest valid prefix, and at most three bytes stay behind. */
  lemma {:induction false} CompletePrefixExact(s: seq<Byte>)
    ensures CompletePrefix(s).None? <==> !Extendable(s)
    ensures CompletePrefix(s).Some? ==>
              && var n := CompletePrefix(s).value;
              && n <= |s| <= n + 3 && Valid(s[..n])
              && (forall m :: 0 <= m <= |s| && Valid(s[..m]) ==> m <= n)
  {
    if s == [] {
      assert Valid([] + []) && s + [] == s;
    } else if Starts(s) {
      var k := LeadLength(s[0]);
      CompletePrefixExact(s[k..]);
      FrontExtends(s, k);
      FrontPrefixes(s, k);
    } else {
      CutOrImpossible(s);
    }
  }

  lemma CharIsValid(c: seq<Byte>)
    requires IsChar(c)
    ensures Valid(c)
  {
    assert c[..|c|] == c && c[|c|..] == [];
  }

  lemma FrontExtends(s: seq<Byte>, k: nat)
    requires Starts(s) && k == LeadLength(s[0])
    ensures Extendable(s) <==> Extendable(s[k..])
  {
    CharIsValid(s[..k]);
    forall t: seq<Byte>
      ensures Valid(s + t) <==> Valid(s[k..] + t)
    {
      StartsWithMore(s, t);
    }
  }

  lemma FrontPrefixes(s: seq<Byte>, k: nat)
    requires Starts(s) && k == LeadLength(s[0])
    ensures forall m :: k <= m <= |s| ==> (Valid(s[..m]) <==> Valid(s[k..][..m - k]))
  {
    forall m | k <= m <= |s|
      ensures Valid(s[..m]) <==> Valid(s[k..][..m - k])
    {
      assert s[..m][..k] == s[..k] && s[..m][0] == s[0];
      assert s[..m][k..] == s[k..][..m - k];
    }
  }

  lemma CutOrImpossible(s: seq<Byte>)
    requires s != [] && !Starts(s)
    ensures Extendable(s) <==> Fits(s)
    ensures Fits(s) ==> |s| <= 3
    ensures forall m :: 0 < m <= |s| ==> !Valid(s[..m])
  {
    if Fits(s) {
      var t := FitsCompletes(s);
      assert s[..|s|] == s;
    }
    forall t: seq<Byte> | Valid(s + t)
      ensures Fits(s)
    {
      FitsPrefix(s, t);
    }
    forall m | 0 < m <= |s|
      ensures !Valid(s[..m])
    {
      assert s[..m] + s[m..] == s;
      if Starts(s[..m]) {
        StartsWithMore(s[..m], s[m..]);
      }
    }
  }

  // ------------------------------------------------------- the pump

  datatype Ending = InputClosed | Refused | SendFailed

  /** Everything read so far splits into what was forwarded and what is held back. */
  ghost predicate Holding(read: seq<Byte>, forwarded: seq<Byte>, pending: seq<Byte>) {
    && read == forwarded + pending && Valid(forwarded)
    && |pending| <= 3 && CompletePrefix(pending) == Some(0)
  }

  lemma HoldingIsLongest(read: seq<Byte>, forwarded: seq<Byte>, pending: seq<Byte>)
    requires Holding(read, forwarded, pending)
    ensures Extendable(read) && CompletePrefix(read) == Some(|forwarded|)
    ensures Valid(read) ==> forwarded == read
  {
    ValidFront(forwarded, pending);
    CompletePrefixExact(read);
    if Valid(read) {
      assert read[..|read|] == read;
    }
  }

  /** One read joins what was held back. */
  lemma ReadMore(read: seq<Byte>, forwarded: seq<Byte>, pending: seq<Byte>, piece: seq<Byte>, n: nat)
    requires Holding(read, forwarded, pending)
    requires CompletePrefix(pending + piece) == Some(n)
    ensures n <= |pending + piece|
    ensures Holding(read + piece, forwarded + (pending + piece)[..n], (pending + piece)[n..])
  {
    var joined := pending + piece;
    CompletePrefixExact(joined);
    var front, back := joined[..n], joined[n..];
    assert joined == front + back;
    BackIsCut(front, back, joined);
    ValidFront(forwarded, front);
    SeqAssociates(forwarded, pending, piece);
    SeqAssociates(forwarded, front, back);
  }

  lemma BackIsCut(front: seq<Byte>, back: seq<Byte>, joined: seq<Byte>)
    requires Valid(front) && joined == front + back && CompletePrefix(joined) == Some(|front|)
    ensures CompletePrefix(back) == Some(0)
  {
    ValidFront(front, back);
  }

  lemma RefusedIsImpossible(read: seq<Byte>, forwarded: seq<Byte>, pending: seq<Byte>, piece: seq<Byte>)
    requires Holding(read, forwarded, pending)
    ensures CompletePrefix(pending + piece).None? <==> !Extendable(read + piece)
  {
    ValidFront(forwarded, pending + piece);
    assert read + piece == forwarded + (pending + piece);
    CompletePrefixExact(read + piece);
  }

  /** The pump. It stops at the end of input, at a read that makes the input impossible to
      complete, or at a failed send; `used` is the number of pieces taken in before that. What
      it forwarded is always the longest valid prefix of those pieces. */
  method Pump(pieces: seq<seq<Byte>>, sendWorks: nat -> bool)
    returns (forwarded: seq<Byte>, used: nat, ending: Ending)
    ensures used <= |pieces|
    ensures Extendable(Concat(pieces[..used])) && CompletePrefix(Concat(pieces[..used])) == Some(|forwarded|)
    ensures forwarded <= Concat(pieces[..used]) && Valid(forwarded)
    ensures ending == InputClosed ==> used == |pieces|
    ensures ending == Refused ==> used < |pieces| && !Extendable(Concat(pieces[..used + 1]))
    ensures ending == SendFailed ==> used < |pieces| && exists k :: !sendWorks(k)
  {
    forwarded, used := [], 0;
    var pending: seq<Byte> := [];
    var sends := 0;
    while used < |pieces|
      invariant used <= |pieces|
      invariant Holding(Concat(pieces[..used]), forwarded, pending)
    {
      ghost var read := Concat(pieces[..used]);
      assert pieces[..used + 1] == pieces[..used] + [pieces[used]];
      ConcatSnoc(pieces[..used], pieces[used]);
      RefusedIsImpossible(read, forwarded, pending, pieces[used]);
      HoldingIsLongest(read, forwarded, pending);
      var joined := pending + pieces[used];
      var complete := CompletePrefix(joined);
      if complete.None? {
        return forwarded, used, Refused;
      }
      var n := complete.value;
      ReadMore(read, forwarded, pending, pieces[used], n);
      if n != 0 {
        if !sendWorks(sends) {
          return forwarded, used, SendFailed;
        }
        sends := sends + 1;
        forwarded := forwarded + joined[..n];
      } else {
        assert forwarded + joined[..0] == forwarded;
      }
      pending := joined[n..];
      used := used + 1;
    }
    HoldingIsLongest(Concat(pieces[..used]), forwarded, pending);
    return forwarded, used, InputClosed;
  }

  /** Valid input is forwarded whole, however it was cut, and nothing beyond the longest valid
      prefix of the whole input ever is. */
  lemma PumpedText(pieces: seq<seq<Byte>>, used: nat, forwarded: seq<Byte>)
    requires used <= |pieces| && Valid(forwarded) && forwarded <= Concat(pieces[..used])
    ensures forwarded <= Concat(pieces)
    ensures CompletePrefix(Concat(pieces)).Some? ==> |forwarded| <= CompletePrefix(Concat(pieces)).value
    ensures (Valid(Concat(pieces)) && used == |pieces| && CompletePrefix(Concat(pieces)) == Some(|forwarded|))
            ==> forwarded == Concat(pieces)
    ensures Valid(Concat(pieces)) ==> forall k :: 0 <= k <= |pieces| ==> Extendable(Concat(pieces[..k]))
  {
    var all := Concat(pieces);
    FrontOfAll(pieces, used);
    WholePrefix(all, forwarded);
    assert pieces[..|pieces|] == pieces;
    forall k | 0 <= k <= |pieces|
      ensures Valid(all) ==> Extendable(Concat(pieces[..k]))
    {
      FrontOfAll(pieces, k);
    }
  }

  lemma FrontOfAll(pieces: seq<seq<Byte>>, k: nat)
    requires k <= |pieces|
    ensures Concat(pieces[..k]) <= Concat(pieces)
    ensures Valid(Concat(pieces)) ==> Extendable(Concat(pieces[..k]))
  {
    assert pieces[..k] + pieces[k..] == pieces;
    ConcatAppend(pieces[..k], pieces[k..]);
    FrontIsExtendable(Concat(pieces[..k]), Concat(pieces[k..]), Concat(pieces));
  }

  lemma FrontIsExtendable(front: seq<Byte>, back: seq<Byte>, all: seq<Byte>)
    requires all == front + back
    ensures Valid(all) ==> Extendable(front)
  {
  }

  /** No valid prefix is longer than the longest one. */
  lemma WholePrefix(all: seq<Byte>, forwarded: seq<Byte>)
    requires Valid(forwarded) && forwarded <= all
    ensures CompletePrefix(all).Some? ==> |forwarded| <= CompletePrefix(all).value
    ensures Valid(all) && CompletePrefix(all) == Some(|forwarded|) ==> forwarded == all
  {
    CompletePrefixExact(all);
    assert all[..|forwarded|] == forwarded && all[..|all|] == all;
  }
}
