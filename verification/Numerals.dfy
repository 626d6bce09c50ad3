/** Numerals as values: exponentiation in 32 bits, the digits of a number and reading them back. */
module Numerals {
  import opened Arithmetic

  /** The C type int. */
  newtype Int32 = x: int | -0x8000_0000 <= x <= 0x7FFF_FFFF

  predicate InRange(x: int) { -0x8000_0000 <= x <= 0x7FFF_FFFF }

  ghost function Pow(b: int, e: nat): int {
    if e == 0 then 1 else b * Pow(b, e - 1)
  }

  lemma {:induction false} PowAdd(b: int, m: nat, n: nat)
    ensures Pow(b, m + n) == Pow(b, m) * Pow(b, n)
  {
    if m > 0 {
      PowAdd(b, m - 1, n);
      MulAssociates(b, Pow(b, m - 1), Pow(b, n));
    }
  }

  lemma MulAssociates(x: int, y: int, z: int)
    ensures (x * y) * z == x * (y * z)
  {
  }

  lemma {:induction false} PowPositive(b: int, e: nat)
    requires b >= 1
    ensures Pow(b, e) >= 1
  {
    if e > 0 {
      PowPositive(b, e - 1);
      assert b * Pow(b, e - 1) >= 1 * 1;
    }
  }

  lemma PowHalf(b: int, e: nat)
    ensures Pow(b, e) == (if e % 2 == 0 then 1 else b) * Pow(b, e / 2) * Pow(b, e / 2)
  {
    var h := e / 2;
    PowAdd(b, h, h);
    if e % 2 == 1 {
      assert Pow(b, e) == b * Pow(b, h + h);
      MulAssociates(b, Pow(b, h), Pow(b, h));
    }
  }

  function Abs(x: int): nat { if x < 0 then -x else x }

  lemma AbsProduct(x: int, y: int)
    ensures Abs(x * y) == Abs(x) * Abs(y)
  {
    var p := Abs(x) * Abs(y);
    Grows(0, Abs(x), Abs(y));
    if x < 0 && y < 0 {
      assert p == x * y;
    } else if x < 0 {
      assert p == -(x * y);
    } else if y < 0 {
      assert p == -(x * y);
    } else {
      assert p == x * y;
    }
  }

  lemma AbsGrows(x: int, y: int)
    ensures y != 0 ==> Abs(x * y) >= Abs(x)
  {
    AbsProduct(x, y);
    Multiple(Abs(x), Abs(y));
  }

  lemma {:induction false} PowAbs(b: int, e: nat)
    requires e >= 1
    ensures b != 0 ==> Abs(Pow(b, e)) >= Abs(b)
    ensures b == 0 ==> Pow(b, e) == 0
  {
    if e == 1 {
      assert Pow(b, 1) == b * Pow(b, 0);
    } else {
      PowAbs(b, e - 1);
      if b != 0 {
        AbsGrows(b, Pow(b, e - 1));
      }
    }
  }

  /** `f * t * t` in range, with `t` at least `f` unless `f` is 1, keeps the partial products in range. */
  lemma PartialProducts(f: int, t: int)
    requires InRange(f * t * t) && InRange(f) && f != 0 && t != 0 && (f == 1 || Abs(t) >= Abs(f))
    ensures InRange(t) && InRange(f * t)
  {
    AbsGrows(f * t, t);
    AbsProduct(f, t);
    AbsProduct(f * t, t);
    AbsGrows(t, f);
    assert t * f == f * t;
    if Abs(t) >= 2 {
      Grows(2, Abs(t), Abs(f * t));
    }
  }

  /** If the power fits in an int, so do the intermediate products of pandos_pow. */
  lemma NoOverflow(b: int, e: nat)
    requires e >= 1 && InRange(b) && InRange(Pow(b, e))
    ensures InRange(Pow(b, e / 2)) && InRange((if e % 2 == 0 then 1 else b) * Pow(b, e / 2))
  {
    var t := Pow(b, e / 2);
    PowHalf(b, e);
    if e == 1 {
      assert t == 1;
    } else {
      PowAbs(b, e / 2);
      if b != 0 {
        PartialProducts(if e % 2 == 0 then 1 else b, t);
      }
    }
  }

  /** pandos_pow: exponentiation by squaring, in int arithmetic throughout. */
  function PandosPow(base: Int32, exp: nat): (r: Int32)
    requires InRange(Pow(base as int, exp))
    ensures r as int == Pow(base as int, exp)
  {
    if exp == 0 then 1
    else
      NoOverflow(base as int, exp);
      PowHalf(base as int, exp);
      var tmp := PandosPow(base, exp / 2);
      (if exp % 2 == 0 then 1 else base) * tmp * tmp
  }

  /** The characters from which digits are chosen. */
  function Digit(r: int): char
    requires 0 <= r < 36
  {
    if r > 9 then 'a' + (r - 10) as char else '0' + r as char
  }

  function DigitValue(c: char): int {
    if '0' <= c <= '9' then c as int - '0' as int else c as int - 'a' as int + 10
  }

  predicate Base(b: int) { 2 <= b <= 36 }

  /** The numeral of a number. */
  function Numeral(n: nat, b: int): (s: string)
    requires Base(b)
    ensures s != [] && '\0' !in s && '-' !in s
    decreases n
  {
    if n < b then [Digit(n)] else Shorter(n, b); Numeral(n / b, b) + [Digit(n % b)]
  }

  lemma Shorter(n: int, b: int)
    requires 2 <= b <= n
    ensures 1 <= n / b < n
  {
    var q := n / b;
    assert n == b * q + n % b;
    Multiple(b, q);
    if q >= 1 {
      Grows(2, b, q);
    }
  }

  lemma DigitHasValue(r: int)
    requires 0 <= r < 36
    ensures DigitValue(Digit(r)) == r
  {
  }

  /** What a reader of numerals makes of one. */
  function Parse(s: string, b: int): int
    decreases |s|
  {
    if s == [] then 0 else Parse(s[..|s| - 1], b) * b + DigitValue(s[|s| - 1])
  }

  lemma ParseAppend(s: string, c: char, b: int)
    ensures Parse(s + [c], b) == Parse(s, b) * b + DigitValue(c)
  {
    assert (s + [c])[..|s|] == s;
  }

  lemma ParseLonger(s: string, q: nat, r: nat, b: int)
    requires r < 36 && Parse(s, b) == q
    ensures Parse(s + [Digit(r)], b) == q * b + r
  {
    ParseAppend(s, Digit(r), b);
    DigitHasValue(r);
  }

  lemma LastDigit(n: nat, b: int) returns (s: string, q: nat, r: nat)
    requires Base(b)
    ensures n == q * b + r && r < b && Numeral(n, b) == s + [Digit(r)]
    ensures if n < b then s == [] && q == 0 else q < n && s == Numeral(q, b)
  {
    if n < b {
      s, q, r := [], 0, n;
    } else {
      Shorter(n, b);
      q, r := n / b, n % b;
      s := Numeral(q, b);
    }
  }

  lemma {:induction false} ParseNumeral(n: nat, b: int)
    requires Base(b)
    ensures Parse(Numeral(n, b), b) == n
    decreases n
  {
    var s, q, r := LastDigit(n, b);
    if n >= b {
      ParseNumeral(q, b);
    }
    ParseLonger(s, q, r, b);
  }

  /** The text of an integer: numerals of negative ones have a sign, in base ten only. */
  function Text(i: int, b: int): (s: string)
    requires Base(b) && (i >= 0 || b == 10)
    ensures s != [] && '\0' !in s
  {
    if i < 0 then "-" + Numeral(-i, b) else Numeral(i, b)
  }

  function ParseText(s: string, b: int): int
    requires s != []
  {
    if s[0] == '-' then -Parse(s[1..], b) else Parse(s, b)
  }

  /** The text of an integer determines it. */
  lemma TextRoundTrip(i: int, b: int)
    requires Base(b) && (i >= 0 || b == 10)
    ensures ParseText(Text(i, b), b) == i
  {
    if i < 0 {
      ParseNumeral(-i, b);
      assert Text(i, b)[1..] == Numeral(-i, b);
    } else {
      ParseNumeral(i, b);
      assert Numeral(i, b)[0] in Numeral(i, b);
    }
  }

  /** Appending a digit to a non-empty numeral. */
  lemma AppendDigit(a: nat, b: int, r: nat)
    requires Base(b) && r < b && a > 0
    ensures Numeral(a * b + r, b) == Numeral(a, b) + [Digit(r)]
  {
    assert a * b + r == b * a + r;
    DivideBy(a * b + r, b, a, r);
    Multiple(b, a);
    assert a * b == b * a;
  }

  /** The leading digits of a numeral are the numeral of what remains after dropping the others. */
  lemma {:induction false} LeadingDigits(a: nat, b: int, d: nat, u: nat)
    requires Base(b) && a > 0 && u < Pow(b, d)
    ensures a * Pow(b, d) + u >= a && Numeral(a, b) <= Numeral(a * Pow(b, d) + u, b)
    decreases d
  {
    if d > 0 {
      var q, r := u / b, u % b;
      var p := Pow(b, d - 1);
      QuotientBelow(u, b, p);
      LeadingDigits(a, b, d - 1, q);
      var n := a * p + q;
      OneMoreDigit(a, b, p, q, r);
      AppendDigit(n, b, r);
      Multiple(n, b);
    }
  }

  lemma OneMoreDigit(a: int, b: int, p: int, q: int, r: int)
    ensures a * (b * p) + (b * q + r) == (a * p + q) * b + r
  {
    assert a * (b * p) == (a * p) * b;
    assert (a * p + q) * b == (a * p) * b + q * b;
  }

  lemma QuotientBelow(u: int, b: int, p: int)
    requires 0 <= u < b * p && b >= 1
    ensures 0 <= u / b < p && u == b * (u / b) + u % b
  {
    var q := u / b;
    Multiple(b, q - p);
    Multiple(b, q);
    assert b * (q - p) == b * q - b * p;
  }
}
