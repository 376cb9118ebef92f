/** Bytes, optional values and the sequence facts every component shares. */
module Bytes {

  type Byte = b: int | 0 <= b < 256

  datatype Option<+T> = None | Some(value: T)

  datatype Result<+T, +E> = Ok(value: T) | Err(error: E)

  /** The concatenation of the parts, in order. */
  function Concat<T>(parts: seq<seq<T>>): seq<T> {
    if parts == [] then [] else parts[0] + Concat(parts[1..])
  }

  lemma {:induction false} ConcatAppend<T>(a: seq<seq<T>>, b: seq<seq<T>>)
    ensures Concat(a + b) == Concat(a) + Concat(b)
  {
    if a == [] {
      assert a + b == b;
    } else {
      assert (a + b)[1..] == a[1..] + b;
      ConcatAppend(a[1..], b);
    }
  }

  lemma ConcatSnoc<T>(a: seq<seq<T>>, x: seq<T>)
    ensures Concat(a + [x]) == Concat(a) + x
  {
    ConcatAppend(a, [x]);
    assert Concat([x]) == x;
  }

  lemma SeqAssociates<T>(a: seq<T>, b: seq<T>, c: seq<T>)
    ensures a + (b + c) == a + b + c
  {
  }

  ghost predicate IsFirst(s: seq<Byte>, b: Byte, n: nat) {
    n <= |s| && (forall k :: 0 <= k < n ==> s[k] != b) && (n < |s| ==> s[n] == b)
  }

  lemma {:induction false} FirstExists(s: seq<Byte>, b: Byte) returns (n: nat)
    ensures IsFirst(s, b, n)
  {
    if s == [] || s[0] == b {
      n := 0;
    } else {
      n := FirstExists(s[1..], b);
      assert forall k :: 1 <= k < n + 1 ==> s[k] == s[1..][k - 1];
      n := n + 1;
    }
  }

  lemma FirstUnique(s: seq<Byte>, b: Byte, n: nat, m: nat)
    requires IsFirst(s, b, n) && IsFirst(s, b, m)
    ensures n == m
  {
  }

  /** The position of the first `b`, or the length when there is none. */
  ghost function First(s: seq<Byte>, b: Byte): (n: nat)
    ensures IsFirst(s, b, n)
  {
    assert exists n: nat :: IsFirst(s, b, n) by {
      var w := FirstExists(s, b);
    }
    var n: nat :| IsFirst(s, b, n);
    n
  }

  /** The search itself. */
  method Find(s: seq<Byte>, b: Byte) returns (n: nat)
    ensures n == First(s, b)
  {
    n := 0;
    while n < |s| && s[n] != b
      invariant n <= |s| && forall k :: 0 <= k < n ==> s[k] != b
    {
      n := n + 1;
    }
    FirstUnique(s, b, n, First(s, b));
  }

  function Min(a: int, b: int): int {
    if a <= b then a else b
  }

  function Max(a: int, b: int): int {
    if a <= b then b else a
  }
}
