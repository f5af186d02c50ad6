/**
 * The JavaScript string operations the worker relies on: decimal rendering of numbers
 * (template literals, `String(n)`), `split('.')`, code-unit-wise comparison (`<`, `>=` on
 * strings) and ASCII case-insensitive matching (the `i` flag of a regular expression).
 */
module Text {

  predicate IsDigit(c: char) {
    '0' <= c <= '9'
  }

  predicate AllDigits(s: string) {
    forall i :: 0 <= i < |s| ==> IsDigit(s[i])
  }

  function DigitChar(d: nat): (c: char)
    requires d < 10
    ensures IsDigit(c) && c as int - '0' as int == d
  {
    (d + '0' as int) as char
  }

  function DigitValue(c: char): (d: nat)
    requires IsDigit(c)
    ensures d < 10
  {
    c as int - '0' as int
  }

  function Pow10(k: nat): (p: nat)
    ensures p >= 1
  {
    if k == 0 then 1 else 10 * Pow10(k - 1)
  }

  /** The number a digit string denotes, most significant digit first; "" denotes 0. */
  function Value(s: string): nat
    requires AllDigits(s)
  {
    if s == [] then 0 else Value(s[..|s| - 1]) * 10 + DigitValue(s[|s| - 1])
  }

  /** `String(n)` for a non-negative integer: its decimal digits without leading zeros. */
  function NatToString(n: nat): (s: string)
    ensures |s| >= 1 && AllDigits(s)
  {
    if n < 10 then [DigitChar(n)] else NatToString(n / 10) + [DigitChar(n % 10)]
  }

  /** `String(i)` for an integer: a minus sign before the digits of a negative number. */
  function IntToString(i: int): (s: string)
    ensures |s| >= 1
  {
    if i < 0 then "-" + NatToString(-i) else NatToString(i)
  }

  /** The decimal rendering reads back as the number it renders. */
  lemma {:induction false} NatToStringValue(n: nat)
    ensures Value(NatToString(n)) == n
  {
    if n >= 10 {
      NatToStringValue(n / 10);
      var s := NatToString(n);
      assert s[..|s| - 1] == NatToString(n / 10);
    }
  }

  /** The rendering has no leading zero: it starts with '0' only when it is "0" itself. */
  lemma {:induction false} NatToStringNoLeadingZero(n: nat)
    ensures NatToString(n)[0] == '0' <==> n == 0
    ensures n == 0 ==> NatToString(n) == "0"
  {
    if n >= 10 {
      NatToStringNoLeadingZero(n / 10);
    }
  }

  /** A number with k + 1 decimal digits renders as exactly k + 1 characters. */
  lemma {:induction false} NatToStringLength(n: nat, k: nat)
    requires Pow10(k) <= n < Pow10(k + 1)
    ensures |NatToString(n)| == k + 1
  {
    if k > 0 {
      NatToStringLength(n / 10, k - 1);
    }
  }

  /** A digit string of length k denotes a number below 10^k. */
  lemma {:induction false} ValueBound(s: string)
    requires AllDigits(s)
    ensures Value(s) < Pow10(|s|)
  {
    if s != [] {
      ValueBound(s[..|s| - 1]);
    }
  }

  /** Reading a digit string from the front: the first digit weighs 10^(length - 1). */
  lemma {:induction false} ValueFront(s: string)
    requires AllDigits(s) && |s| >= 1
    ensures Value(s) == DigitValue(s[0]) * Pow10(|s| - 1) + Value(s[1..])
  {
    if |s| > 1 {
      var t := s[..|s| - 1];
      ValueFront(t);
      assert t[1..] == s[1..][..|s| - 2];
      assert t[0] == s[0];
      var d0, p := DigitValue(s[0]), Pow10(|s| - 2);
      calc {
        Value(s);
        Value(t) * 10 + DigitValue(s[|s| - 1]);
        (d0 * p + Value(t[1..])) * 10 + DigitValue(s[|s| - 1]);
        { assert (d0 * p) * 10 == d0 * (10 * p); }
        d0 * Pow10(|s| - 1) + (Value(t[1..]) * 10 + DigitValue(s[|s| - 1]));
        d0 * Pow10(|s| - 1) + Value(s[1..]);
      }
    } else {
      assert s[1..] == [];
    }
  }

  /** Code-unit-wise string comparison `a < b` as JavaScript performs it. */
  predicate LexLess(a: string, b: string) {
    if |a| == 0 then |b| > 0
    else if |b| == 0 then false
    else if a[0] != b[0] then a[0] < b[0]
    else LexLess(a[1..], b[1..])
  }

  /** Two different strings of equal length are ordered one way or the other. */
  lemma {:induction false} LexLessTotal(a: string, b: string)
    requires |a| == |b| && a != b
    ensures LexLess(a, b) || LexLess(b, a)
  {
    if a[0] == b[0] {
      assert a[1..] != b[1..] by {
        assert a == [a[0]] + a[1..] && b == [b[0]] + b[1..];
      }
      LexLessTotal(a[1..], b[1..]);
    }
  }

  /** Strings that agree before position k and differ at k are ordered by their k-th characters. */
  lemma {:induction false} LexLessAt(a: string, b: string, k: nat)
    requires k < |a| && k < |b| && a[..k] == b[..k] && a[k] < b[k]
    ensures LexLess(a, b)
  {
    if k > 0 {
      assert a[0] == a[..k][0] && b[0] == b[..k][0];
      assert a[1..][..k - 1] == a[..k][1..] && b[1..][..k - 1] == b[..k][1..];
      LexLessAt(a[1..], b[1..], k - 1);
    }
  }

  /** Comparing a shared-length prefix first, then the rest. */
  lemma {:induction false} LexLessConcat(p: string, q: string, x: string, y: string)
    requires |p| == |q|
    ensures LexLess(p + x, q + y) <==> LexLess(p, q) || (p == q && LexLess(x, y))
  {
    if |p| == 0 {
      assert p + x == x && q + y == y;
    } else {
      assert (p + x)[0] == p[0] && (q + y)[0] == q[0];
      assert (p + x)[1..] == p[1..] + x && (q + y)[1..] == q[1..] + y;
      LexLessConcat(p[1..], q[1..], x, y);
      if p[0] == q[0] {
        assert p == q <==> p[1..] == q[1..] by {
          assert p == [p[0]] + p[1..] && q == [q[0]] + q[1..];
        }
      }
    }
  }

  lemma MulMonotone(a: nat, b: nat, p: nat)
    requires a <= b
    ensures a * p <= b * p
  {
  }

  /** The first digit of a digit string bounds its value from both sides. */
  lemma FrontDigitBounds(s: string)
    requires AllDigits(s) && |s| >= 1
    ensures DigitValue(s[0]) * Pow10(|s| - 1) <= Value(s) < (DigitValue(s[0]) + 1) * Pow10(|s| - 1)
  {
    ValueFront(s);
    ValueBound(s[1..]);
    assert |s[1..]| == |s| - 1;
    LeadingTermBounds(DigitValue(s[0]), Pow10(|s| - 1), Value(s[1..]), Value(s));
  }

  /** A number `d * p + r` with `r < p` lies between `d * p` and `(d + 1) * p`. */
  lemma LeadingTermBounds(d: nat, p: nat, r: nat, v: nat)
    requires v == d * p + r && r < p
    ensures d * p <= v < (d + 1) * p
  {
    assert (d + 1) * p == d * p + p;
  }

  /**
   * For digit strings of equal length, comparing the strings as JavaScript does
   * agrees with comparing the numbers they denote.
   */
  lemma {:induction false} DigitsLexOrder(a: string, b: string)
    requires AllDigits(a) && AllDigits(b) && |a| == |b|
    ensures LexLess(a, b) <==> Value(a) < Value(b)
  {
    if |a| > 0 {
      var p := Pow10(|a| - 1);
      var da, db := DigitValue(a[0]), DigitValue(b[0]);
      if a[0] == b[0] {
        ValueFront(a);
        ValueFront(b);
        DigitsLexOrder(a[1..], b[1..]);
      } else if a[0] < b[0] {
        FrontDigitBounds(a);
        FrontDigitBounds(b);
        MulMonotone(da + 1, db, p);
      } else {
        FrontDigitBounds(a);
        FrontDigitBounds(b);
        MulMonotone(db + 1, da, p);
      }
    }
  }

  /** Equal-length digit strings denote the same number only when they are the same string. */
  lemma DigitsValueInjective(a: string, b: string)
    requires AllDigits(a) && AllDigits(b) && |a| == |b|
    ensures Value(a) == Value(b) <==> a == b
  {
    if a != b {
      LexLessTotal(a, b);
      DigitsLexOrder(a, b);
      DigitsLexOrder(b, a);
    }
  }

  /** Number of occurrences of `c` in `s`. */
  function Count(s: string, c: char): nat {
    if s == [] then 0 else (if s[0] == c then 1 else 0) + Count(s[1..], c)
  }

  /** The part of `s` before the first `c` (all of `s` when there is none). */
  function TakeUntil(s: string, c: char): (r: string)
    ensures c !in r
  {
    if s == [] || s[0] == c then [] else [s[0]] + TakeUntil(s[1..], c)
  }

  /** `s.split(sep)` for a one-character separator. */
  function Split(s: string, sep: char): (parts: seq<string>)
    ensures |parts| == Count(s, sep) + 1
    ensures parts[0] == TakeUntil(s, sep)
    ensures forall i :: 0 <= i < |parts| ==> sep !in parts[i]
  {
    if s == [] then [""]
    else
      var rest := Split(s[1..], sep);
      if s[0] == sep then [""] + rest
      else [[s[0]] + rest[0]] + rest[1..]
  }

  /** `parts.join(sep)`. */
  function Join(parts: seq<string>, sep: char): string
    requires |parts| >= 1
  {
    if |parts| == 1 then parts[0] else parts[0] + [sep] + Join(parts[1..], sep)
  }

  /** Prepending a character to the first part prepends it to the joined string. */
  lemma JoinPrepend(c: char, rest: seq<string>, sep: char)
    requires |rest| >= 1
    ensures Join([[c] + rest[0]] + rest[1..], sep) == [c] + Join(rest, sep)
  {
    var parts := [[c] + rest[0]] + rest[1..];
    if |rest| > 1 {
      assert parts[1..] == rest[1..];
      assert Join(parts, sep) == ([c] + rest[0]) + [sep] + Join(rest[1..], sep);
    }
  }

  /** Splitting and joining again gives back the original string. */
  lemma {:induction false} JoinSplit(s: string, sep: char)
    ensures Join(Split(s, sep), sep) == s
  {
    if s != [] {
      JoinSplit(s[1..], sep);
      var rest := Split(s[1..], sep);
      if s[0] == sep {
        assert Split(s, sep)[1..] == rest;
      } else {
        JoinPrepend(s[0], rest, sep);
      }
      assert s == [s[0]] + s[1..];
    }
  }

  /** Joining separator-free parts and splitting again gives back the parts. */
  lemma {:induction false} SplitJoin(parts: seq<string>, sep: char)
    requires |parts| >= 1
    requires forall i :: 0 <= i < |parts| ==> sep !in parts[i]
    ensures Split(Join(parts, sep), sep) == parts
  {
    if |parts| == 1 {
      SplitWithoutSeparator(parts[0], sep);
    } else {
      SplitJoin(parts[1..], sep);
      SplitAfterSeparator(parts[0], Join(parts[1..], sep), sep);
      assert parts == [parts[0]] + parts[1..];
    }
  }

  lemma {:induction false} SplitWithoutSeparator(s: string, sep: char)
    requires sep !in s
    ensures Split(s, sep) == [s]
  {
    if s != [] {
      SplitWithoutSeparator(s[1..], sep);
      assert s == [s[0]] + s[1..];
    }
  }

  /** Splitting `head + sep + tail`, where `head` has no separator, yields `head` then the parts of `tail`. */
  lemma {:induction false} SplitAfterSeparator(head: string, tail: string, sep: char)
    requires sep !in head
    ensures Split(head + [sep] + tail, sep) == [head] + Split(tail, sep)
  {
    if head == [] {
      assert head + [sep] + tail == [sep] + tail;
      assert ([sep] + tail)[1..] == tail;
    } else {
      var s := head + [sep] + tail;
      assert s[0] == head[0];
      assert s[1..] == head[1..] + [sep] + tail;
      SplitAfterSeparator(head[1..], tail, sep);
      assert head == [head[0]] + head[1..];
    }
  }

  function ToLowerAscii(c: char): char {
    if 'A' <= c <= 'Z' then (c as int - 'A' as int + 'a' as int) as char else c
  }

  /**
   * Equality up to ASCII letter case: what a case-insensitive, non-Unicode JavaScript
   * regular expression treats as equal (letters outside ASCII never fold onto ASCII ones).
   */
  predicate EqualsIgnoreAsciiCase(a: string, b: string) {
    |a| == |b| && forall i :: 0 <= i < |a| ==> ToLowerAscii(a[i]) == ToLowerAscii(b[i])
  }
}
