/** The few pieces of ECMAScript string semantics that the chat screen relies on:
    a JavaScript string is a sequence of UTF-16 code units, `length` counts code
    units, the default comparator of `Array.prototype.sort` orders strings by
    code units (the abstract operation IsLessThan, section 7.2.13 of ECMA-262),
    and `Array.prototype.join` concatenates with a separator.

    Dafny's `string` is a sequence of Unicode scalar values; `CodeUnits` gives
    the UTF-16 view of it, on which length and order are taken. */
module Ecma {

  /** A UTF-16 code unit. */
  predicate IsCodeUnit(u: int) { 0 <= u < 0x1_0000 }

  predicate IsHighSurrogate(u: int) { 0xD800 <= u < 0xDC00 }

  /** UTF-16 encoding of one scalar value: one unit in the Basic Multilingual
      Plane, a high surrogate followed by a low surrogate above it. */
  function Utf16(c: char): (r: seq<int>)
    ensures 1 <= |r| <= 2
    ensures forall i :: 0 <= i < |r| ==> IsCodeUnit(r[i])
    ensures |r| == 2 <==> IsHighSurrogate(r[0])
  {
    var n := c as int;
    if n < 0x1_0000 then [n]
    else [0xD800 + (n - 0x1_0000) / 0x400, 0xDC00 + (n - 0x1_0000) % 0x400]
  }

  /** The JavaScript view of a string: its UTF-16 code units. */
  function CodeUnits(s: string): (r: seq<int>)
    ensures |s| <= |r| <= 2 * |s|
    ensures forall i :: 0 <= i < |r| ==> IsCodeUnit(r[i])
  {
    if s == [] then [] else Utf16(s[0]) + CodeUnits(s[1..])
  }

  /** `s.length` in JavaScript. */
  function Length(s: string): (n: nat)
  {
    |CodeUnits(s)|
  }

  lemma Utf16Injective(c: char, d: char)
    requires Utf16(c) == Utf16(d)
    ensures c == d
  {
  }

  /** The encoding is prefix-free: the first code unit tells how many units
      the first scalar value takes. */
  lemma Utf16PrefixFree(c: char, d: char, x: seq<int>, y: seq<int>)
    requires Utf16(c) + x == Utf16(d) + y
    ensures c == d && x == y
  {
    var p, q := Utf16(c), Utf16(d);
    assert (p + x)[0] == p[0] && (q + y)[0] == q[0];
    assert |p| == |q|;
    assert p == (p + x)[..|p|] == (q + y)[..|q|] == q;
    Utf16Injective(c, d);
    assert x == (p + x)[|p|..] == (q + y)[|q|..] == y;
  }

  /** Distinct strings have distinct code-unit views. */
  lemma {:induction false} CodeUnitsInjective(a: string, b: string)
    requires CodeUnits(a) == CodeUnits(b)
    ensures a == b
  {
    if a != [] && b != [] {
      Utf16PrefixFree(a[0], b[0], CodeUnits(a[1..]), CodeUnits(b[1..]));
      CodeUnitsInjective(a[1..], b[1..]);
      assert a == [a[0]] + a[1..] && b == [b[0]] + b[1..];
    }
  }

  /** IsLessThan on two code-unit sequences, as a recursive comparison that
      walks the common prefix. */
  predicate Less(a: seq<int>, b: seq<int>)
  {
    if |b| == 0 then false
    else if |a| == 0 then true
    else if a[0] != b[0] then a[0] < b[0]
    else Less(a[1..], b[1..])
  }

  /** IsLessThan as ECMA-262 words it: false when b is a prefix of a, true
      when a is a prefix of b, otherwise decided by the first code unit at
      which they differ. */
  ghost predicate EcmaLess(a: seq<int>, b: seq<int>)
  {
    if b <= a then false
    else if a <= b then true
    else exists k :: 0 <= k < |a| && k < |b| && a[..k] == b[..k] && a[k] != b[k] && a[k] < b[k]
  }

  /** When the first code units differ, EcmaLess is decided by them. */
  lemma EcmaLessAtHead(a: seq<int>, b: seq<int>)
    requires |a| > 0 && |b| > 0 && a[0] != b[0]
    ensures EcmaLess(a, b) <==> a[0] < b[0]
  {
  }

  /** A common first code unit does not change EcmaLess. */
  lemma EcmaLessTail(a: seq<int>, b: seq<int>)
    requires |a| > 0 && |b| > 0 && a[0] == b[0]
    ensures EcmaLess(a, b) <==> EcmaLess(a[1..], b[1..])
  {
    var a', b' := a[1..], b[1..];
    assert a == [a[0]] + a' && b == [a[0]] + b';
    assert b <= a <==> b' <= a';
    assert a <= b <==> a' <= b';
    if !(b' <= a') && !(a' <= b') {
      if EcmaLess(a', b') {
        var k :| 0 <= k < |a'| && k < |b'| && a'[..k] == b'[..k] && a'[k] != b'[k] && a'[k] < b'[k];
        assert a[..k + 1] == [a[0]] + a'[..k] && b[..k + 1] == [a[0]] + b'[..k];
        assert a[k + 1] == a'[k] && b[k + 1] == b'[k];
      }
      if EcmaLess(a, b) {
        var k :| 0 <= k < |a| && k < |b| && a[..k] == b[..k] && a[k] != b[k] && a[k] < b[k];
        assert k > 0;
        assert a'[..k - 1] == a[..k][1..] && b'[..k - 1] == b[..k][1..];
        assert a'[k - 1] == a[k] && b'[k - 1] == b[k];
      }
    }
  }

  /** The recursive comparison is exactly ECMA-262's IsLessThan. */
  lemma {:induction false} LessIsEcmaLess(a: seq<int>, b: seq<int>)
    ensures Less(a, b) <==> EcmaLess(a, b)
  {
    if |b| == 0 {
      assert b <= a;
    } else if |a| == 0 {
      assert !(b <= a) && a <= b;
    } else if a[0] != b[0] {
      EcmaLessAtHead(a, b);
    } else {
      LessIsEcmaLess(a[1..], b[1..]);
      EcmaLessTail(a, b);
    }
  }

  lemma {:induction false} LessAsymmetric(a: seq<int>, b: seq<int>)
    requires Less(a, b)
    ensures !Less(b, a)
  {
    if |a| > 0 && a[0] == b[0] {
      LessAsymmetric(a[1..], b[1..]);
    }
  }

  lemma {:induction false} LessTotal(a: seq<int>, b: seq<int>)
    requires a != b
    ensures Less(a, b) || Less(b, a)
  {
    if |a| > 0 && |b| > 0 && a[0] == b[0] {
      assert a == [a[0]] + a[1..] && b == [b[0]] + b[1..];
      LessTotal(a[1..], b[1..]);
    }
  }

  /** `a < b` on JavaScript strings. */
  predicate StringLess(a: string, b: string)
  {
    Less(CodeUnits(a), CodeUnits(b))
  }

  /** Code-unit order on strings is a strict total order. */
  lemma StringLessTrichotomy(a: string, b: string)
    ensures StringLess(a, b) ==> !StringLess(b, a)
    ensures !StringLess(a, a)
    ensures a != b ==> StringLess(a, b) || StringLess(b, a)
  {
    if StringLess(a, b) {
      LessAsymmetric(CodeUnits(a), CodeUnits(b));
    }
    if StringLess(a, a) {
      LessAsymmetric(CodeUnits(a), CodeUnits(a));
    }
    if a != b {
      if CodeUnits(a) == CodeUnits(b) {
        CodeUnitsInjective(a, b);
      }
      LessTotal(CodeUnits(a), CodeUnits(b));
    }
  }

  /** `[a, b].sort()` with the default comparator: the comparator answers -1,
      +1 or 0 by IsLessThan, and the sort is stable, so the pair is swapped
      exactly when b < a. The result is sorted and a permutation of the pair. */
  function SortPair(a: string, b: string): (r: seq<string>)
    ensures |r| == 2 && multiset(r) == multiset{a, b}
    ensures !StringLess(r[1], r[0])
  {
    StringLessTrichotomy(a, b);
    if StringLess(b, a) then [b, a] else [a, b]
  }

  /** `parts.join(sep)`: the parts in order, with `sep` between neighbours. */
  function Join(parts: seq<string>, sep: string): (r: string)
  {
    if |parts| == 0 then ""
    else if |parts| == 1 then parts[0]
    else Join(parts[..|parts| - 1], sep) + sep + parts[|parts| - 1]
  }

  lemma JoinPair(x: string, y: string, sep: string)
    ensures Join([x, y], sep) == x + sep + y
  {
  }
}
