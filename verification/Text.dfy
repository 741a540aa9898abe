/** Facts about strings that several components print, split or compare. */
module Text {

  /** The decimal digit of a number below ten. */
  function Digit(n: nat): (c: char)
    requires n < 10
    ensures IsDigit(c) && DigitValue(c) == n
  {
    "0123456789"[n]
  }

  predicate IsDigit(c: char) {
    '0' <= c <= '9'
  }

  function DigitValue(c: char): (n: nat)
    requires IsDigit(c)
    ensures n < 10
  {
    (c as int - '0' as int) as nat
  }

  predicate AllDigits(s: string) {
    forall i :: 0 <= i < |s| ==> IsDigit(s[i])
  }

  /** The shortest decimal text of a number. */
  function Decimal(n: nat): (s: string)
    ensures |s| > 0 && AllDigits(s) && DecimalValue(s) == n
  {
    if n < 10 then [Digit(n)] else
      var s := Decimal(n / 10) + [Digit(n % 10)];
      assert s[..|s| - 1] == Decimal(n / 10);
      s
  }

  /** The number a digit string denotes, leading zeroes allowed. */
  function DecimalValue(s: string): nat
    requires AllDigits(s)
  {
    if |s| == 0 then 0 else 10 * DecimalValue(s[..|s| - 1]) + DigitValue(s[|s| - 1])
  }

  /** Decimal text of at least `width` digits. */
  function Padded(n: nat, width: nat): (s: string)
    ensures AllDigits(s) && DecimalValue(s) == n && |s| >= width
    decreases width
  {
    if width == 0 then (if n == 0 then "" else Decimal(n))
    else
      var s := Padded(n / 10, width - 1) + [Digit(n % 10)];
      assert s[..|s| - 1] == Padded(n / 10, width - 1);
      s
  }

  /** ASCII lower case. */
  function LowerChar(c: char): char {
    if 'A' <= c <= 'Z' then (c as int + 32) as char else c
  }

  /** A separator that neither head contains splits a text in one way only. */
  lemma SplitUnique(p: string, r: string, q: string, t: string, sep: char)
    requires p + [sep] + r == q + [sep] + t
    requires sep !in p && sep !in q
    ensures p == q && r == t
  {
    var x, y := p + [sep] + r, q + [sep] + t;
    assert x[|p|] == sep && y[|q|] == sep;
    assert forall i :: 0 <= i < |p| ==> x[i] == p[i] && p[i] != sep;
    assert forall i :: 0 <= i < |q| ==> y[i] == q[i] && q[i] != sep;
    assert |p| == |q|;
    assert p == x[..|p|] && q == y[..|q|];
    assert r == x[|p| + 1..] && t == y[|q| + 1..];
  }

  /** Cancelling a common head. */
  lemma CancelHead(p: string, r: string, t: string)
    requires p + r == p + t
    ensures r == t
  {
    assert r == (p + r)[|p|..] && t == (p + t)[|p|..];
  }

  /** Lexicographic order of texts by code point; a proper prefix comes first. */
  predicate TextLess(a: string, b: string) {
    |b| > 0 && (|a| == 0 || a[0] < b[0] || (a[0] == b[0] && TextLess(a[1..], b[1..])))
  }

  lemma {:induction false} TextTotal(a: string, b: string)
    ensures TextLess(a, b) || a == b || TextLess(b, a)
  {
    if |a| == 0 || |b| == 0 || a[0] != b[0] {
    } else {
      TextTotal(a[1..], b[1..]);
      assert a == [a[0]] + a[1..] && b == [b[0]] + b[1..];
    }
  }

  lemma {:induction false} TextAsymmetric(a: string, b: string)
    ensures !(TextLess(a, b) && TextLess(b, a)) && !TextLess(a, a)
  {
    if |a| == 0 || |b| == 0 {
    } else {
      TextAsymmetric(a[1..], b[1..]);
    }
    if |a| == 0 {
    } else {
      TextAsymmetric(a[1..], a[1..]);
    }
  }

  lemma {:induction false} TextTransitive(a: string, b: string, c: string)
    requires TextLess(a, b) && TextLess(b, c)
    ensures TextLess(a, c)
  {
    if |a| == 0 || a[0] != b[0] || b[0] != c[0] {
    } else {
      TextTransitive(a[1..], b[1..], c[1..]);
    }
  }
}
