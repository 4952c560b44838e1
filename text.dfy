/**
 * String building blocks used by the code emitter: Python's '%d' rendering
 * of a non-negative integer, str.join, prefix/suffix/substring tests and the
 * concatenation of a sequence of text chunks.
 */
module Text {

  predicate IsDigit(c: char) {
    '0' <= c <= '9'
  }

  function DigitChar(d: nat): (c: char)
    requires d < 10
    ensures IsDigit(c) && c as int - '0' as int == d
  {
    ('0' as int + d) as char
  }

  function DigitValue(c: char): int {
    c as int - '0' as int
  }

  /** Python's '%d' % n for n >= 0: decimal digits, no sign, no leading zero. */
  function Decimal(n: nat): (s: string)
    ensures |s| >= 1
    ensures forall k :: 0 <= k < |s| ==> IsDigit(s[k])
    decreases n
  {
    if n < 10 then [DigitChar(n)] else Decimal(n / 10) + [DigitChar(n % 10)]
  }

  /** Reads a string of decimal digits back as a number. */
  function ParseDecimal(s: string): int
    decreases |s|
  {
    if s == [] then 0 else ParseDecimal(s[..|s| - 1]) * 10 + DigitValue(s[|s| - 1])
  }

  lemma {:induction false} DecimalRoundTrip(n: nat)
    ensures ParseDecimal(Decimal(n)) == n
    decreases n
  {
    if n >= 10 {
      DecimalRoundTrip(n / 10);
      var s := Decimal(n);
      assert s[..|s| - 1] == Decimal(n / 10);
    }
  }

  /** Only zero itself renders with a leading '0'. */
  lemma {:induction false} DecimalNoLeadingZero(n: nat)
    ensures Decimal(n)[0] == '0' <==> n == 0
    decreases n
  {
    if n >= 10 {
      DecimalNoLeadingZero(n / 10);
    }
  }

  /** Different numbers render differently. */
  lemma DecimalInjective(m: nat, n: nat)
    ensures Decimal(m) == Decimal(n) <==> m == n
  {
    DecimalRoundTrip(m);
    DecimalRoundTrip(n);
  }

  lemma AppendAssoc(a: string, b: string, c: string)
    ensures a + b + c == a + (b + c)
  {
  }

  lemma DropPrefix(a: string, b: string, c: string)
    requires a + b == a + c
    ensures b == c
  {
    assert b == (a + b)[|a|..];
    assert c == (a + c)[|a|..];
  }

  predicate StartsWith(s: string, p: string) {
    |p| <= |s| && s[..|p|] == p
  }

  predicate EndsWith(s: string, p: string) {
    |p| <= |s| && s[|s| - |p|..] == p
  }

  lemma EndsWithAppend(a: string, b: string, p: string)
    requires EndsWith(b, p)
    ensures EndsWith(a + b, p)
  {
    assert (a + b)[|a + b| - |p|..] == b[|b| - |p|..];
  }

  /** Two endings of the same string that differ in one place cannot both be there. */
  lemma EndingsDiffer(s: string, p: string, q: string, k: nat)
    requires EndsWith(s, p) && k < |p| && k < |q|
    requires p[|p| - 1 - k] != q[|q| - 1 - k]
    ensures !EndsWith(s, q)
  {
  }

  /** Python's `p in s` for strings. */
  predicate Contains(s: string, p: string)
    decreases |s|
  {
    StartsWith(s, p) || (s != [] && Contains(s[1..], p))
  }

  predicate OccursAt(s: string, p: string, i: nat) {
    i + |p| <= |s| && s[i..i + |p|] == p
  }

  /** A chunk found inside a chunk found in s is found in s. */
  lemma OccursWithin(s: string, t: string, u: string, i: nat, j: nat)
    requires OccursAt(s, t, i) && OccursAt(t, u, j)
    ensures OccursAt(s, u, i + j)
  {
    forall m | 0 <= m < |u| ensures s[i + j + m] == u[m] {
      assert s[i + j + m] == s[i..i + |t|][j + m];
      assert t[j + m] == t[j..j + |u|][m];
    }
    assert s[i + j..i + j + |u|] == u;
  }

  /** Chunk k stands in a + Concat(parts) + b right after a and chunks 0 .. k-1. */
  lemma ConcatAtWithin(a: string, parts: seq<string>, b: string, k: nat)
    requires k < |parts|
    ensures OccursAt(a + Concat(parts) + b, parts[k], |a| + |Concat(parts[..k])|)
    ensures |Concat(parts[..k + 1])| == |Concat(parts[..k])| + |parts[k]|
  {
    ConcatAt(parts, k);
    ConcatStep(parts, k);
    OccursInside(a, Concat(parts), b);
    OccursWithin(a + Concat(parts) + b, Concat(parts), parts[k], |a|, |Concat(parts[..k])|);
  }

  /** s stands in a + s + b right after a. */
  lemma OccursInside(a: string, s: string, b: string)
    ensures OccursAt(a + s + b, s, |a|)
  {
    assert (a + s + b)[|a|..|a| + |s|] == s;
  }

  lemma OccursSelf(s: string)
    ensures OccursAt(s, s, 0)
  {
    assert s[0..|s|] == s;
  }

  /** Appending text keeps what was found where it was. */
  lemma OccursExtend(s: string, t: string, p: string, i: nat)
    requires OccursAt(s, p, i)
    ensures OccursAt(s + t, p, i)
  {
    assert (s + t)[i..i + |p|] == s[i..i + |p|];
  }

  /** Prepending text moves what was found by the length of the new text. */
  lemma OccursShift(s: string, t: string, p: string, i: nat)
    requires OccursAt(t, p, i)
    ensures OccursAt(s + t, p, |s| + i)
  {
    assert (s + t)[|s| + i..|s| + i + |p|] == t[i..i + |p|];
  }

  /** t stands in s + t right after s. */
  lemma OccursAfter(s: string, t: string)
    ensures OccursAt(s + t, t, |s|)
  {
    OccursSelf(t);
    OccursShift(s, t, t, 0);
  }

  /** What is found in m is found in a + m + b + c, shifted by the length of a. */
  lemma OccursInMiddle(a: string, m: string, b: string, c: string, p: string, i: nat)
    requires OccursAt(m, p, i)
    ensures OccursAt(a + m + b + c, p, |a| + i)
  {
    OccursShift(a, m, p, i);
    OccursExtend(a + m, b, p, |a| + i);
    OccursExtend(a + m + b, c, p, |a| + i);
  }

  lemma StartsWithOfOccurs(s: string, p: string)
    requires OccursAt(s, p, 0)
    ensures StartsWith(s, p)
  {
  }

  lemma EndsWithOfOccurs(s: string, p: string, i: nat)
    requires OccursAt(s, p, i) && i + |p| == |s|
    ensures EndsWith(s, p)
  {
  }

  lemma ContainsOfOccurs(s: string, p: string, i: nat)
    requires OccursAt(s, p, i)
    ensures Contains(s, p)
  {
    ContainsIffOccurs(s, p);
  }

  /** The recursive test agrees with "p occurs at some position of s". */
  lemma {:induction false} ContainsIffOccurs(s: string, p: string)
    ensures Contains(s, p) <==> exists i: nat :: OccursAt(s, p, i)
    decreases |s|
  {
    if StartsWith(s, p) {
      assert OccursAt(s, p, 0);
    } else if s == [] {
      assert !OccursAt(s, p, 0);
    } else {
      ContainsIffOccurs(s[1..], p);
      if Contains(s[1..], p) {
        var i: nat :| OccursAt(s[1..], p, i);
        assert s[i + 1..i + 1 + |p|] == s[1..][i..i + |p|];
        assert OccursAt(s, p, i + 1);
      } else {
        forall i: nat | OccursAt(s, p, i) ensures false {
          if i > 0 {
            assert s[1..][i - 1..i - 1 + |p|] == s[i..i + |p|];
            assert OccursAt(s[1..], p, i - 1);
          }
        }
      }
    }
  }

  lemma {:induction false} ContainsInfix(a: string, p: string, b: string)
    ensures Contains(a + p + b, p)
    decreases |a|
  {
    if a == [] {
      assert (a + p + b)[..|p|] == p;
    } else {
      assert (a + p + b)[1..] == a[1..] + p + b;
      ContainsInfix(a[1..], p, b);
    }
  }

  /** Python's sep.join(parts). */
  function Join(sep: string, parts: seq<string>): string
    decreases |parts|
  {
    if |parts| == 0 then ""
    else if |parts| == 1 then parts[0]
    else parts[0] + sep + Join(sep, parts[1..])
  }

  /** Index of the first c in s, or |s| when there is none. */
  function IndexOf(s: string, c: char): (k: nat)
    ensures k <= |s|
    ensures k < |s| ==> s[k] == c
    ensures forall m :: 0 <= m < k ==> s[m] != c
    decreases |s|
  {
    if s == [] then 0 else if s[0] == c then 0 else 1 + IndexOf(s[1..], c)
  }

  /** The pieces of s between occurrences of c (the empty string has none). */
  function Fields(s: string, c: char): seq<string>
    decreases |s|
  {
    if s == [] then []
    else
      var k := IndexOf(s, c);
      if k == |s| then [s] else [s[..k]] + Fields(s[k + 1..], c)
  }

  /** Joining non-empty pieces that do not contain the separator can be undone. */
  lemma {:induction false} FieldsOfJoin(c: char, parts: seq<string>)
    requires forall k :: 0 <= k < |parts| ==> parts[k] != [] && c !in parts[k]
    ensures Fields(Join([c], parts), c) == parts
    decreases |parts|
  {
    if |parts| == 1 {
      assert IndexOf(parts[0], c) == |parts[0]|;
    } else if |parts| > 1 {
      var p0 := parts[0];
      var rest := Join([c], parts[1..]);
      var s := p0 + [c] + rest;
      assert s == Join([c], parts);
      var k := IndexOf(s, c);
      assert forall m :: 0 <= m < |p0| ==> s[m] == p0[m];
      assert s[|p0|] == c;
      assert k == |p0|;
      assert s[..k] == p0;
      assert s[k + 1..] == rest;
      FieldsOfJoin(c, parts[1..]);
    }
  }

  /** The chunks of `parts` written one after the other. */
  function Concat(parts: seq<string>): string
    decreases |parts|
  {
    if parts == [] then "" else Concat(parts[..|parts| - 1]) + parts[|parts| - 1]
  }

  lemma {:induction false} ConcatAppend(a: seq<string>, b: seq<string>)
    ensures Concat(a + b) == Concat(a) + Concat(b)
    decreases |b|
  {
    if b == [] {
      assert a + b == a;
    } else {
      var init := b[..|b| - 1];
      var last := b[|b| - 1];
      assert (a + b)[..|a + b| - 1] == a + init;
      assert Concat(a + b) == Concat(a + init) + last;
      assert Concat(b) == Concat(init) + last;
      ConcatAppend(a, init);
    }
  }

  /** Chunk k stands in the concatenation right after chunks 0 .. k-1. */
  lemma ConcatAt(parts: seq<string>, k: nat)
    requires k < |parts|
    ensures |Concat(parts[..k])| + |parts[k]| <= |Concat(parts)|
    ensures OccursAt(Concat(parts), parts[k], |Concat(parts[..k])|)
  {
    ConcatAppend(parts[..k + 1], parts[k + 1..]);
    assert parts[..k + 1] + parts[k + 1..] == parts;
    assert parts[..k + 1][..k] == parts[..k];
    var pre := Concat(parts[..k]);
    assert Concat(parts[..k + 1]) == pre + parts[k];
    assert Concat(parts)[|pre|..|pre| + |parts[k]|] == parts[k];
  }

  /** Adding one more chunk extends the text by exactly that chunk. */
  lemma ConcatStep(parts: seq<string>, k: nat)
    requires k < |parts|
    ensures Concat(parts[..k + 1]) == Concat(parts[..k]) + parts[k]
  {
    assert parts[..k + 1][..k] == parts[..k];
  }
}
