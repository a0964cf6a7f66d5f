/**
  * Text as the ledger stores and compares it: the lexicographic order SQLite
  * applies to TEXT columns (binary collation), and the zero-padded decimal
  * renderings produced by `date.isoformat()` and by the `%02d` format.
  */
module Text {

  /** Lexicographic order on strings, as SQLite compares TEXT values. */
  predicate StrLe(a: string, b: string)
    decreases |a|
  {
    |a| == 0 || (|b| > 0 && (a[0] < b[0] || (a[0] == b[0] && StrLe(a[1..], b[1..]))))
  }

  predicate StrLt(a: string, b: string)
  {
    StrLe(a, b) && a != b
  }

  lemma {:induction false} StrLeReflexive(a: string)
    ensures StrLe(a, a)
    decreases |a|
  {
    if |a| > 0 {
      StrLeReflexive(a[1..]);
    }
  }

  lemma {:induction false} StrLeTotal(a: string, b: string)
    ensures StrLe(a, b) || StrLe(b, a)
    decreases |a|
  {
    if |a| > 0 && |b| > 0 && a[0] == b[0] {
      StrLeTotal(a[1..], b[1..]);
    }
  }

  lemma {:induction false} StrLeAntisymmetric(a: string, b: string)
    requires StrLe(a, b) && StrLe(b, a)
    ensures a == b
    decreases |a|
  {
    if |a| > 0 {
      StrLeAntisymmetric(a[1..], b[1..]);
      assert a == [a[0]] + a[1..] && b == [b[0]] + b[1..];
    }
  }

  lemma {:induction false} StrLeTransitive(a: string, b: string, c: string)
    requires StrLe(a, b) && StrLe(b, c)
    ensures StrLe(a, c)
    decreases |a|
  {
    if |a| > 0 && a[0] == b[0] && b[0] == c[0] {
      StrLeTransitive(a[1..], b[1..], c[1..]);
    }
  }

  /** Comparing two strings that share a prefix of equal length comes down to the prefixes first. */
  lemma {:induction false} StrLeConcat(p1: string, x1: string, p2: string, x2: string)
    requires |p1| == |p2|
    ensures StrLe(p1 + x1, p2 + x2) <==> StrLt(p1, p2) || (p1 == p2 && StrLe(x1, x2))
    decreases |p1|
  {
    if |p1| == 0 {
      assert p1 + x1 == x1 && p2 + x2 == x2;
    } else {
      assert (p1 + x1)[0] == p1[0] && (p2 + x2)[0] == p2[0];
      assert (p1 + x1)[1..] == p1[1..] + x1 && (p2 + x2)[1..] == p2[1..] + x2;
      StrLeConcat(p1[1..], x1, p2[1..], x2);
      assert p1 == [p1[0]] + p1[1..] && p2 == [p2[0]] + p2[1..];
      if p1[0] == p2[0] {
        assert p1 == p2 <==> p1[1..] == p2[1..];
      }
    }
  }

  /** Three fields joined by `-`, the first two of fixed widths, compare field by field. */
  lemma StrLeFields(y1: string, m1: string, d1: string, y2: string, m2: string, d2: string)
    requires |y1| == |y2| && |m1| == |m2|
    ensures StrLe(y1 + "-" + m1 + "-" + d1, y2 + "-" + m2 + "-" + d2)
            <==> StrLt(y1, y2) || (y1 == y2 && (StrLt(m1, m2) || (m1 == m2 && StrLe(d1, d2))))
  {
    assert y1 + "-" + m1 + "-" + d1 == (y1 + "-") + (m1 + "-" + d1);
    assert y2 + "-" + m2 + "-" + d2 == (y2 + "-") + (m2 + "-" + d2);
    StrLeConcat(y1 + "-", m1 + "-" + d1, y2 + "-", m2 + "-" + d2);
    StrLeConcat(y1, "-", y2, "-");
    StrLeReflexive("-");
    assert (y1 + "-" == y2 + "-") <==> y1 == y2 by {
      if y1 + "-" == y2 + "-" { assert y1 == (y1 + "-")[..|y1|] && y2 == (y2 + "-")[..|y2|]; }
    }
    assert m1 + "-" + d1 == (m1 + "-") + d1 && m2 + "-" + d2 == (m2 + "-") + d2;
    StrLeConcat(m1 + "-", d1, m2 + "-", d2);
    StrLeConcat(m1, "-", m2, "-");
    assert (m1 + "-" == m2 + "-") <==> m1 == m2 by {
      if m1 + "-" == m2 + "-" { assert m1 == (m1 + "-")[..|m1|] && m2 == (m2 + "-")[..|m2|]; }
    }
  }

  predicate IsDigit(c: char)
  {
    '0' <= c <= '9'
  }

  predicate AllDigits(s: string)
  {
    forall i :: 0 <= i < |s| ==> IsDigit(s[i])
  }

  function DigitChar(n: int): (c: char)
    requires 0 <= n <= 9
    ensures IsDigit(c)
  {
    (48 + n) as char
  }

  function DigitValue(c: char): (n: int)
    requires IsDigit(c)
    ensures 0 <= n <= 9 && DigitChar(n) == c
  {
    c as int - 48
  }

  function Pow10(w: nat): (p: nat)
    ensures p >= 1
  {
    if w == 0 then 1 else 10 * Pow10(w - 1)
  }

  /** `n` in decimal with at least `width` digits, zero-padded: Python's `'%0*d' % (width, n)` for `n >= 0`. */
  function Digits(n: nat, width: nat): string
    decreases n, width
  {
    if n < 10 && width <= 1 then [DigitChar(n)]
    else Digits(n / 10, if width == 0 then 0 else width - 1) + [DigitChar(n % 10)]
  }

  /** Python's `'%0*d' % (width, n)` for any integer; a minus sign counts towards the width. */
  function FormatInt(n: int, width: nat): string
  {
    if n >= 0 then Digits(n, width) else "-" + Digits(-n, if width > 1 then width - 1 else 0)
  }

  /** The number a string of decimal digits denotes. */
  function DecimalValue(s: string): (n: nat)
    requires AllDigits(s)
  {
    if |s| == 0 then 0 else 10 * DecimalValue(s[..|s| - 1]) + DigitValue(s[|s| - 1])
  }

  lemma {:induction false} DigitsShape(n: nat, width: nat)
    requires 1 <= width && n < Pow10(width)
    ensures |Digits(n, width)| == width && AllDigits(Digits(n, width))
    ensures DecimalValue(Digits(n, width)) == n
    decreases width
  {
    var s := Digits(n, width);
    if width > 1 {
      DigitsShape(n / 10, width - 1);
      var p := Digits(n / 10, width - 1);
      assert s == p + [DigitChar(n % 10)];
      assert s[..|s| - 1] == p;
    }
  }

  /** Rendering a digit string at its own width gives the string back. */
  lemma {:induction false} DigitsOfValue(s: string)
    requires |s| >= 1 && AllDigits(s)
    ensures DecimalValue(s) < Pow10(|s|)
    ensures Digits(DecimalValue(s), |s|) == s
    decreases |s|
  {
    var p := s[..|s| - 1];
    assert AllDigits(p);
    if |s| == 1 {
      assert DecimalValue(p) == 0;
    } else {
      DigitsOfValue(p);
      var v, q, r := DecimalValue(s), DecimalValue(p), DigitValue(s[|s| - 1]);
      assert v == 10 * q + r;
      LastDigit(q, r);
      assert Digits(v, |s|) == Digits(q, |s| - 1) + [DigitChar(r)];
      assert s == p + [s[|s| - 1]];
    }
  }

  /** Appending digit `r` to the numeral of `q` gives a number whose quotient and remainder by ten are `q` and `r`. */
  lemma LastDigit(q: nat, r: nat)
    requires r <= 9
    ensures (10 * q + r) / 10 == q && (10 * q + r) % 10 == r
  {
  }

  /** Zero-padded numerals of one width compare as text exactly as the numbers compare. */
  lemma {:induction false} DigitsOrder(a: nat, b: nat, width: nat)
    requires 1 <= width && a < Pow10(width) && b < Pow10(width)
    ensures StrLe(Digits(a, width), Digits(b, width)) <==> a <= b
    decreases width
  {
    if width == 1 {
      assert Digits(a, 1) == [DigitChar(a)] && Digits(b, 1) == [DigitChar(b)];
      assert Digits(a, 1)[1..] == [] && Digits(b, 1)[1..] == [];
    } else {
      var pa, pb := Digits(a / 10, width - 1), Digits(b / 10, width - 1);
      DigitsShape(a / 10, width - 1);
      DigitsShape(b / 10, width - 1);
      DigitsOrder(a / 10, b / 10, width - 1);
      StrLeConcat(pa, [DigitChar(a % 10)], pb, [DigitChar(b % 10)]);
      assert pa == pb <==> a / 10 == b / 10;
      assert StrLe([DigitChar(a % 10)], [DigitChar(b % 10)]) <==> a % 10 <= b % 10 by {
        assert [DigitChar(a % 10)][1..] == [] && [DigitChar(b % 10)][1..] == [];
      }
      assert Digits(a, width) == pa + [DigitChar(a % 10)] && Digits(b, width) == pb + [DigitChar(b % 10)];
      StrLtDigits(pa, pb, a / 10, b / 10);
      DecimalOrder(a, b);
    }
  }

  lemma StrLtDigits(pa: string, pb: string, x: nat, y: nat)
    requires StrLe(pa, pb) <==> x <= y
    requires pa == pb <==> x == y
    ensures StrLt(pa, pb) <==> x < y
  {
  }

  /** Numbers compare as their last-digit-dropped quotients, then as their last digits. */
  lemma DecimalOrder(a: nat, b: nat)
    ensures a <= b <==> a / 10 < b / 10 || (a / 10 == b / 10 && a % 10 <= b % 10)
  {
  }
}
