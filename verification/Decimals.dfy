/** Decimal numerals: printing, parsing, and the zero-padded form whose string order is the order of the numbers. */
module Decimals {
  import opened Ordering

  function Digit(d: nat): char
    requires d < 10
  {
    '0' + d as char
  }

  predicate IsDigit(c: char) {
    '0' <= c <= '9'
  }

  predicate AllDigits(s: string) {
    forall i :: 0 <= i < |s| ==> IsDigit(s[i])
  }

  /** Python's `str` of a non-negative integer. */
  function Decimal(n: nat): (s: string)
    ensures s != "" && AllDigits(s)
  {
    if n < 10 then [Digit(n)] else Decimal(n / 10) + [Digit(n % 10)]
  }

  /** Python's `int` of a digit string. */
  function Value(s: string): nat
    requires AllDigits(s)
  {
    if s == "" then 0 else Value(s[..|s| - 1]) * 10 + (s[|s| - 1] as int - '0' as int)
  }

  lemma {:induction false} ValueOfDecimal(n: nat)
    ensures Value(Decimal(n)) == n
  {
    if n < 10 {
      assert Decimal(n)[..0] == "";
    } else {
      ValueOfDecimal(n / 10);
      assert Decimal(n)[..|Decimal(n)| - 1] == Decimal(n / 10);
    }
  }

  /** A numeral without superfluous zeros. */
  predicate Plainest(s: string) {
    s != "" && AllDigits(s) && (s[0] == '0' ==> s == "0")
  }

  lemma {:induction false} DecimalIsPlainest(n: nat)
    ensures Plainest(Decimal(n)) && (Decimal(n) == "0" <==> n == 0)
  {
    if n >= 10 { DecimalIsPlainest(n / 10); }
  }

  lemma {:induction false} ValuePositive(s: string)
    requires Plainest(s) && s != "0"
    ensures Value(s) > 0
  {
    if |s| > 1 {
      ValuePositive(s[..|s| - 1]);
    } else {
      assert s[..0] == "" && s == [s[0]];
    }
  }

  /** Printing undoes parsing on plainest numerals, and only there. */
  lemma {:induction false} DecimalOfValue(s: string)
    requires s != "" && AllDigits(s)
    ensures Decimal(Value(s)) == s <==> Plainest(s)
  {
    DecimalIsPlainest(Value(s));
    if Plainest(s) {
      var n := |s| - 1;
      assert s == s[..n] + [s[n]];
      if n > 0 {
        DecimalOfValue(s[..n]);
        ValuePositive(s[..n]);
      } else {
        assert s[..0] == "";
      }
    }
  }

  function Pow10(w: nat): (p: nat)
    ensures p > 0
  {
    if w == 0 then 1 else 10 * Pow10(w - 1)
  }

  lemma {:induction false} DecimalWidth(n: nat, w: nat)
    requires w > 0
    ensures |Decimal(n)| <= w <==> n < Pow10(w)
  {
    if n >= 10 {
      if w > 1 { DecimalWidth(n / 10, w - 1); }
    } else if w > 1 {
      DecimalWidth(n, w - 1);
    }
  }

  function Zeros(w: nat): (s: string)
    ensures |s| == w && AllDigits(s) && forall i :: 0 <= i < w ==> s[i] == '0'
  {
    if w == 0 then "" else Zeros(w - 1) + ['0']
  }

  /** Python's `f"{n:0{w}d}"`: longer numerals are not cut. */
  function Padded(n: nat, w: nat): (s: string)
    ensures AllDigits(s) && |s| >= w
  {
    var d := Decimal(n);
    if |d| >= w then d else Zeros(w - |d|) + d
  }

  lemma {:induction false} ValueOfZeros(w: nat)
    ensures Value(Zeros(w)) == 0
  {
    if w > 0 {
      ValueOfZeros(w - 1);
      assert Zeros(w)[..w - 1] == Zeros(w - 1);
    }
  }

  lemma {:induction false} ValueAfterZeros(w: nat, s: string)
    requires AllDigits(s)
    ensures AllDigits(Zeros(w) + s) && Value(Zeros(w) + s) == Value(s)
  {
    if s == "" {
      assert Zeros(w) + s == Zeros(w);
      ValueOfZeros(w);
    } else {
      ValueAfterZeros(w, s[..|s| - 1]);
      assert (Zeros(w) + s)[..w + |s| - 1] == Zeros(w) + s[..|s| - 1];
    }
  }

  lemma PaddedIsFixed(n: nat, w: nat)
    requires w > 0 && n < Pow10(w)
    ensures |Padded(n, w)| == w && Value(Padded(n, w)) == n
  {
    DecimalWidth(n, w);
    PaddedValue(n, w);
  }

  // ----- string order -----

  /** Strings that start with blocks of one length are compared block by block. */
  lemma {:induction false} BelowByBlocks(p: string, x: string, q: string, y: string)
    requires |p| == |q|
    ensures Below(p + x, q + y) <==> Below(p, q) || (p == q && Below(x, y))
  {
    if p == "" {
      assert p + x == x && q + y == y;
    } else {
      assert (p + x)[1..] == p[1..] + x && (q + y)[1..] == q[1..] + y;
      BelowByBlocks(p[1..], x, q[1..], y);
      assert p == [p[0]] + p[1..] && q == [q[0]] + q[1..];
    }
  }

  function DigitValue(c: char): (d: nat)
    requires IsDigit(c)
    ensures d < 10
  {
    c as int - '0' as int
  }

  lemma ValueSnoc(s: string)
    requires AllDigits(s) && s != ""
    ensures var n := |s| - 1;
      AllDigits(s[..n]) && IsDigit(s[n]) && Value(s) == Value(s[..n]) * 10 + DigitValue(s[n]) && s == s[..n] + [s[n]]
  {
    var n := |s| - 1;
    assert IsDigit(s[n]);
    assert Value(s) == Value(s[..n]) * 10 + (s[n] as int - '0' as int);
  }

  lemma DivUnique(v: nat, m: nat, q: nat, r: nat)
    requires r < m && v == m * q + r
    ensures v / m == q
  {
    var p, e := v / m, v % m;
    assert v == m * p + e;
    if p < q {
      NextMultiple(m, p, q);
    } else if q < p {
      NextMultiple(m, q, p);
    }
  }

  lemma NextMultiple(m: nat, p: nat, q: nat)
    requires p < q
    ensures m * p + m <= m * q
  {
    var d := q - p - 1;
    assert m * q == m * (p + 1 + d) == m * p + m + m * d;
  }

  lemma DivTwice(v: nat, p: nat)
    requires p > 0
    ensures v / (10 * p) == (v / 10) / p
  {
    var a := v / 10;
    var b, e := a / p, a % p;
    assert a == p * b + e;
    assert v == 10 * a + v % 10;
    assert 10 * (p * b) == (10 * p) * b;
    DivUnique(v, 10 * p, b, 10 * e + v % 10);
  }

  /** The leading digits of a numeral are its value without the digits that follow. */
  lemma {:induction false} LeadingValue(s: string, w: nat)
    requires AllDigits(s) && w <= |s|
    ensures Value(s[..w]) == Value(s) / Pow10(|s| - w)
    decreases |s|
  {
    if w == |s| {
      assert s[..w] == s;
    } else {
      var n := |s| - 1;
      ValueSnoc(s);
      LeadingValue(s[..n], w);
      assert s[..n][..w] == s[..w];
      DivTwice(Value(s), Pow10(n - w));
      assert Value(s) / 10 == Value(s[..n]);
    }
  }

  lemma PaddedValue(n: nat, w: nat)
    ensures Value(Padded(n, w)) == n
  {
    var d := Decimal(n);
    ValueOfDecimal(n);
    if |d| < w {
      ValueAfterZeros(w - |d|, d);
      assert Padded(n, w) == Zeros(w - |d|) + d;
    } else {
      assert Padded(n, w) == d;
    }
  }

  /** Digit strings of one length are ordered as their values. */
  lemma {:induction false} DigitOrder(s: string, t: string)
    requires AllDigits(s) && AllDigits(t) && |s| == |t|
    ensures Below(s, t) <==> Value(s) < Value(t)
    ensures s == t <==> Value(s) == Value(t)
  {
    if s != "" {
      var n := |s| - 1;
      ValueSnoc(s);
      ValueSnoc(t);
      DigitOrder(s[..n], t[..n]);
      BelowByBlocks(s[..n], [s[n]], t[..n], [t[n]]);
      OneDigit(s[n], t[n]);
      DigitStep(Value(s[..n]), DigitValue(s[n]), Value(t[..n]), DigitValue(t[n]));
    }
  }

  lemma OneDigit(c: char, d: char)
    ensures Below([c], [d]) <==> c < d
  {
    assert [c][1..] == "" && [d][1..] == "";
  }

  lemma DigitStep(a: int, c: int, b: int, d: int)
    requires 0 <= c < 10 && 0 <= d < 10
    ensures a * 10 + c < b * 10 + d <==> a < b || (a == b && c < d)
    ensures a * 10 + c == b * 10 + d <==> a == b && c == d
  {
  }

  /** Within the width, padded numerals are ordered as the numbers, whatever follows them. */
  lemma PaddedOrder(a: nat, b: nat, w: nat, x: string, y: string)
    requires w > 0 && a < Pow10(w) && b < Pow10(w)
    ensures Below(Padded(a, w) + x, Padded(b, w) + y) <==> a < b || (a == b && Below(x, y))
  {
    PaddedIsFixed(a, w);
    PaddedIsFixed(b, w);
    DigitOrder(Padded(a, w), Padded(b, w));
    BelowByBlocks(Padded(a, w), x, Padded(b, w), y);
  }
}
