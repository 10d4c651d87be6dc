/**
 * Decimal rendering of integers (as JavaScript's template literals render them) and
 * `Array.prototype.join`.
 */
module Text {

  predicate IsDigit(c: char) {
    '0' <= c <= '9'
  }

  predicate AllDigits(s: string) {
    forall i :: 0 <= i < |s| ==> IsDigit(s[i])
  }

  function DigitChar(d: nat): (c: char)
    requires d < 10
    ensures IsDigit(c) && c as int - '0' as int == d
  {
    ('0' as int + d) as char
  }

  /** Decimal digits of `n`, without leading zeros. */
  function NatToString(n: nat): (s: string)
    ensures |s| >= 1 && AllDigits(s)
    ensures |s| > 1 ==> s[0] != '0'
    decreases n
  {
    if n < 10 then [DigitChar(n)] else NatToString(n / 10) + [DigitChar(n % 10)]
  }

  /** The value of a string of decimal digits: the inverse of `NatToString`. */
  function ParseNat(s: string): nat
    requires AllDigits(s)
  {
    if s == [] then 0 else ParseNat(s[..|s| - 1]) * 10 + (s[|s| - 1] as int - '0' as int)
  }

  lemma {:induction false} ParseNatOfNatToString(n: nat)
    ensures ParseNat(NatToString(n)) == n
    decreases n
  {
    if n >= 10 {
      var s := NatToString(n);
      assert s[..|s| - 1] == NatToString(n / 10);
      ParseNatOfNatToString(n / 10);
    }
  }

  /** Distinct numbers render as distinct strings. */
  lemma NatToStringInjective(m: nat, n: nat)
    ensures NatToString(m) == NatToString(n) ==> m == n
  {
    ParseNatOfNatToString(m);
    ParseNatOfNatToString(n);
  }

  /** `String(i)` for an integer `i`. */
  function IntToString(i: int): (s: string)
    ensures i >= 0 ==> s == NatToString(i)
    ensures i < 0 ==> s == "-" + NatToString(-i)
  {
    if i < 0 then "-" + NatToString(-i) else NatToString(i)
  }

  /** Distinct integers render as distinct strings: a sign never starts a natural's digits. */
  lemma {:induction false} IntToStringInjective(a: int, b: int)
    ensures IntToString(a) == IntToString(b) ==> a == b
  {
    if IntToString(a) == IntToString(b) {
      if a >= 0 && b >= 0 {
        NatToStringInjective(a, b);
      } else if a < 0 && b < 0 {
        assert IntToString(a)[1..] == NatToString(-a) && IntToString(b)[1..] == NatToString(-b);
        NatToStringInjective(-a, -b);
      }
    }
  }

  /** `parts.join(sep)`. */
  function Join(parts: seq<string>, sep: string): (r: string)
    ensures |parts| == 0 ==> r == ""
    ensures |parts| >= 1 ==> |parts[0]| <= |r| && r[..|parts[0]|] == parts[0]
    ensures |parts| == 1 ==> r == parts[0]
    ensures |r| == SumLengths(parts) + (if |parts| == 0 then 0 else (|parts| - 1) * |sep|)
  {
    if |parts| == 0 then ""
    else if |parts| == 1 then parts[0]
    else parts[0] + sep + Join(parts[1..], sep)
  }

  function SumLengths(parts: seq<string>): nat {
    if |parts| == 0 then 0 else |parts[0]| + SumLengths(parts[1..])
  }

  /** Lists whose parts have the same lengths, position by position, join to texts of one length. */
  lemma {:induction false} JoinSameShape(a: seq<string>, b: seq<string>, sep: string)
    requires |a| == |b| && forall i :: 0 <= i < |a| ==> |a[i]| == |b[i]|
    ensures |Join(a, sep)| == |Join(b, sep)|
  {
    SumLengthsPointwise(a, b);
  }

  /** Where part `k` starts in `Join(parts, sep)`: the parts before it and one separator after each. */
  function Offset(parts: seq<string>, k: nat, sep: string): nat
    requires k <= |parts|
  {
    SumLengths(parts[..k]) + k * |sep|
  }

  /** A slice of the second half of a concatenation is the slice of that half. */
  lemma SliceOfSuffix(a: string, b: string, x: nat, y: nat)
    requires x <= y <= |b|
    ensures (a + b)[|a| + x..|a| + y] == b[x..y]
  {
    assert forall i :: 0 <= i < y - x ==> (a + b)[|a| + x..|a| + y][i] == b[x..y][i];
  }

  /** Part `k` of the tail starts one part and one separator later in the whole list. */
  lemma OffsetOfTail(parts: seq<string>, k: nat, sep: string)
    requires 0 < k < |parts|
    ensures Offset(parts, k, sep) == |parts[0]| + |sep| + Offset(parts[1..], k - 1, sep)
  {
    assert parts[..k][1..] == parts[1..][..k - 1];
  }

  /** Every part sits at its offset in the joined text. */
  lemma {:induction false} JoinPartAt(parts: seq<string>, sep: string, k: nat)
    requires k < |parts|
    ensures var o := Offset(parts, k, sep);
            o + |parts[k]| <= |Join(parts, sep)| && Join(parts, sep)[o..o + |parts[k]|] == parts[k]
  {
    assert parts[..0] == [];
    if |parts| > 1 && k > 0 {
      var head := parts[0] + sep;
      var rest := Join(parts[1..], sep);
      assert Join(parts, sep) == head + rest;
      JoinPartAt(parts[1..], sep, k - 1);
      OffsetOfTail(parts, k, sep);
      var o := Offset(parts[1..], k - 1, sep);
      SliceOfSuffix(head, rest, o, o + |parts[k]|);
    }
  }

  /** Every part but the last is followed by the separator. */
  lemma {:induction false} JoinSeparatorAfter(parts: seq<string>, sep: string, k: nat)
    requires k + 1 < |parts|
    ensures var e := Offset(parts, k, sep) + |parts[k]|;
            e + |sep| <= |Join(parts, sep)| && Join(parts, sep)[e..e + |sep|] == sep
  {
    assert parts[..0] == [];
    var head := parts[0] + sep;
    var rest := Join(parts[1..], sep);
    assert Join(parts, sep) == head + rest;
    if k == 0 {
      assert (head + rest)[|parts[0]|..|parts[0]| + |sep|] == sep;
    } else {
      JoinSeparatorAfter(parts[1..], sep, k - 1);
      OffsetOfTail(parts, k, sep);
      var e := Offset(parts[1..], k - 1, sep) + |parts[k]|;
      SliceOfSuffix(head, rest, e, e + |sep|);
    }
  }

  lemma {:induction false} SumLengthsPointwise(a: seq<string>, b: seq<string>)
    requires |a| == |b| && forall i :: 0 <= i < |a| ==> |a[i]| == |b[i]|
    ensures SumLengths(a) == SumLengths(b)
  {
    if |a| > 0 {
      assert |a[0]| == |b[0]|;
      SumLengthsPointwise(a[1..], b[1..]);
    }
  }

  /**
   * Code-unit lexicographic order, the model's stand-in for `localeCompare(...) <= 0`.
   */
  predicate LexLe(a: string, b: string)
    decreases |a|
  {
    |a| == 0 || (|b| > 0 && (a[0] < b[0] || (a[0] == b[0] && LexLe(a[1..], b[1..]))))
  }

  lemma {:induction false} LexLeTotal(a: string, b: string)
    ensures LexLe(a, b) || LexLe(b, a)
    decreases |a|
  {
    if |a| > 0 && |b| > 0 && a[0] == b[0] {
      LexLeTotal(a[1..], b[1..]);
    }
  }

  lemma {:induction false} LexLeTransitive(a: string, b: string, c: string)
    requires LexLe(a, b) && LexLe(b, c)
    ensures LexLe(a, c)
    decreases |a|
  {
    if |a| > 0 && a[0] == b[0] && b[0] == c[0] {
      LexLeTransitive(a[1..], b[1..], c[1..]);
    }
  }
}
