/** The bounded printer of integers of os/src/util.c, writing into a character buffer. */
module Nitoa {
  import opened Arithmetic
  import opened Numerals

  /** Character `i` of a C string. */
  function CharAt(text: string, i: nat): char { if i < |text| then text[i] else '\0' }

  function Min(x: int, y: int): int { if x < y then x else y }

  /** How many characters of `text` are kept in `room`, `len` being a limit unless it is 0. */
  function Kept(text: string, len: nat, room: nat): nat {
    Min(Min(|text|, room), if len == 0 then |text| else len)
  }

  /** str_target_t: a buffer, how much of it may be used, and how much has been written. */
  class StrTarget {
    const str: array<char>
    const size: nat
    var wrote: nat

    constructor (str: array<char>, size: nat)
      ensures this.str == str && this.size == size && wrote == 0
    {
      this.str := str;
      this.size := size;
      wrote := 0;
    }

    ghost predicate Valid()
      reads this
    {
      1 <= size <= str.Length && wrote <= size - 1
    }

    /** What is left for characters, the last place being that of the terminator. */
    function Room(): int
      reads this
    {
      size - 1 - wrote
    }

    /** str_writer, for a string without the terminator. */
    method StrWriter(text: string, len: nat) returns (i: nat)
      requires Valid() && '\0' !in text
      modifies this`wrote, str
      ensures Valid() && wrote == old(wrote) + i
      ensures i == if text == "" then 0 else Kept(text, len, old(Room()))
      ensures text == "" ==>
        str[..] == old(str[..])[(if wrote >= size - 1 then wrote else wrote + 1) := '\0']
      ensures text != "" ==> forall j :: old(wrote) <= j < wrote ==> str[j] == text[j - old(wrote)]
      ensures text != "" && wrote < size - 1 ==> str[wrote] == CharAt(text, i)
      ensures text != "" ==>
        forall j :: 0 <= j < old(wrote) || (wrote <= j < str.Length && (j > wrote || j >= size - 1)) ==> str[j] == old(str[j])
    {
      i := 0;
      if text == "" {
        str[if wrote >= size - 1 then wrote else wrote + 1] := '\0';
        return;
      }
      var left := len;
      while wrote + i < size - 1
        invariant i <= |text| && wrote + i <= size - 1 && wrote == old(wrote)
        invariant len != 0 ==> left == len - i
        invariant forall j :: 0 <= j < str.Length ==> str[j] == if wrote <= j < wrote + i then text[j - wrote] else old(str[j])
        decreases size - i
      {
        str[wrote + i] := CharAt(text, i);
        if CharAt(text, i) == '\0' {
          break;
        }
        if len != 0 {
          if left == 0 {
            break;
          }
          left := left - 1;
        }
        i := i + 1;
      }
      wrote := wrote + i;
    }
  }

  /** The digits of a number counted by repeated division, as between two powers of the base. */
  method CountDigits(i: Int32, base: Int32) returns (digits: nat)
    requires i >= 0 && Base(base as int)
    ensures i == 0 ==> digits == 0
    ensures i > 0 ==> digits >= 1 && Pow(base as int, digits - 1) <= i as int
    ensures i as int < Pow(base as int, digits)
  {
    var cpy := i;
    digits := 0;
    while cpy != 0
      invariant cpy >= 0 && (digits == 0 ==> cpy == i)
      invariant digits > 0 ==> Pow(base as int, digits - 1) <= i as int
      invariant cpy as int * Pow(base as int, digits) <= i as int < (cpy as int + 1) * Pow(base as int, digits)
      decreases cpy
    {
      CountStep(i as int, base as int, cpy as int, Pow(base as int, digits));
      digits := digits + 1;
      cpy := cpy / base;
    }
  }

  lemma CountStep(i: int, b: int, c: nat, p: int)
    requires c >= 1 && b >= 2 && p >= 0 && c * p <= i < (c + 1) * p
    ensures p <= i && 0 <= c / b < c
    ensures (c / b) * (b * p) <= i < (c / b + 1) * (b * p)
  {
    var q := c / b;
    QuotientBounds(c, b);
    Multiple(p, c);
    assert p * c == c * p;
    Grows(b * q, c, p);
    Grows(c + 1, b * (q + 1), p);
    Reassociate(q, b, p);
    Reassociate(q + 1, b, p);
  }

  lemma QuotientBounds(c: nat, b: int)
    requires c >= 1 && b >= 2
    ensures 0 <= b * (c / b) <= c < b * (c / b + 1) && 0 <= c / b < c
  {
    var q := c / b;
    assert c == b * q + c % b && b * (q + 1) == b * q + b;
    Multiple(b, q);
    if q >= 1 {
      Grows(2, b, q);
    }
  }

  lemma Reassociate(q: int, b: int, p: int)
    ensures q * (b * p) == (b * q) * p
  {
  }

  /** The digits shown so far: none, or the numeral of the leading part `a`. */
  ghost function Shown(a: nat, b: int): string
    requires Base(b)
  {
    if a == 0 then "" else Numeral(a, b)
  }

  /** Taking the most significant digit off `u`, which is below `b * p`. */
  lemma TopDigit(a: nat, b: int, p: int, u: int)
    requires b >= 2 && p >= 1 && 0 <= u < b * p
    ensures 0 <= u / p < b && 0 <= u % p < p && (p <= u ==> u / p > 0)
    ensures a * (b * p) + u == (a * b + u / p) * p + u % p
  {
    var r, m := u / p, u % p;
    assert p * b == b * p;
    QuotientBelow(u, p, b);
    Multiple(p, r);
    Regroup(a, b, p, r, m);
  }

  lemma Regroup(a: int, b: int, p: int, r: int, m: int)
    ensures a * (b * p) + (p * r + m) == (a * b + r) * p + m
  {
    assert a * (b * p) == (a * b) * p;
    assert (a * b + r) * p == (a * b) * p + r * p;
  }

  lemma ShowDigit(a: nat, b: int, r: nat)
    requires Base(b) && r < b && (a == 0 ==> r > 0)
    ensures a * b + r > 0 && Shown(a * b + r, b) == Shown(a, b) + [Digit(r)]
  {
    Multiple(b, a);
    assert a * b == b * a;
    if a > 0 {
      AppendDigit(a, b, r);
    }
  }

  lemma NextDigit(i: int, b: int, a: nat, d: nat, u: int) returns (r: nat)
    requires Base(b) && d >= 1 && i == a * Pow(b, d) + u && 0 <= u < Pow(b, d)
    requires a == 0 ==> Pow(b, d - 1) <= i
    ensures Pow(b, d - 1) >= 1 && r == u / Pow(b, d - 1) && r < b && (a == 0 ==> r > 0)
    ensures i == (a * b + r) * Pow(b, d - 1) + u % Pow(b, d - 1)
    ensures 0 <= u % Pow(b, d - 1) < Pow(b, d - 1)
    ensures a * b + r > 0 && Shown(a * b + r, b) == Shown(a, b) + [Digit(r)]
  {
    var p := Pow(b, d - 1);
    PowPositive(b, d - 1);
    TopDigit(a, b, p, u);
    r := u / p;
    ShowDigit(a, b, r);
  }

  /** The loop of __itoa over the digits of a positive number, the most significant first. */
  method WriteDigits(t: StrTarget, i: Int32, base: Int32, count: nat) returns (wrote: nat)
    requires t.Valid() && i > 0 && Base(base as int) && count >= 1
    requires Pow(base as int, count - 1) <= i as int < Pow(base as int, count)
    modifies t`wrote, t.str
    ensures t.Valid() && t.wrote == old(t.wrote) + wrote
    ensures wrote == Min(|Numeral(i as int, base as int)|, old(t.Room()))
    ensures forall j :: old(t.wrote) <= j < t.wrote ==> t.str[j] == Numeral(i as int, base as int)[j - old(t.wrote)]
    ensures wrote > 0 && t.Room() > 0 ==> t.str[t.wrote] == '\0'
    ensures forall j :: 0 <= j < old(t.wrote) || t.size <= j < t.str.Length ==> t.str[j] == old(t.str[j])
  {
    ghost var b, w0 := base as int, t.wrote;
    var digits, u, wr := count, i, 1;
    PowPositive(b, count - 1);
    var exp := PandosPow(base, digits - 1);
    ghost var a: nat := 0;
    wrote := 0;
    while digits != 0 && wr != 0
      invariant digits <= count && t.Valid() && t.wrote == w0 + wrote && u >= 0
      invariant i as int == a * Pow(b, digits) + u as int && u as int < Pow(b, digits)
      invariant digits > 0 ==> exp as int == Pow(b, digits - 1)
      invariant a == 0 <==> digits == count
      invariant wr != 0 ==> wrote == |Shown(a, b)|
      invariant wr == 0 ==> a != 0 && t.Room() == 0 && wrote <= |Shown(a, b)|
      invariant forall j :: w0 <= j < t.wrote ==> t.str[j] == Shown(a, b)[j - w0]
      invariant wrote > 0 && t.Room() > 0 ==> t.str[t.wrote] == '\0'
      invariant forall j :: 0 <= j < w0 || t.size <= j < t.str.Length ==> t.str[j] == old(t.str[j])
      decreases digits
    {
      ghost var r := NextDigit(i as int, b, a, digits, u as int);
      DigitIsOne(r);
      wr := t.StrWriter([Digit((u / exp) as int)], 1);
      LowerPower(b, digits - 1, exp as int);
      digits, u, exp, wrote := digits - 1, u % exp, exp / base, wrote + wr;
      a := a * b + r;
    }
    if digits == 0 {
      assert a == i as int;
    } else {
      LeadingDigits(a, b, digits, u as int);
    }
  }

  lemma DigitIsOne(r: nat)
    requires r < 36
    ensures '\0' !in [Digit(r)]
  {
  }

  /** What becomes of `exp`; dividing 1 by the base leaves 0, which nothing uses. */
  lemma LowerPower(b: int, d: nat, p: int)
    requires b >= 2 && p == Pow(b, d)
    ensures p >= 1 && 0 <= p / b <= p && (d > 0 ==> p / b == Pow(b, d - 1))
  {
    PowPositive(b, d);
    if d > 0 {
      DivideBy(p, b, Pow(b, d - 1), 0);
      PowPositive(b, d - 1);
      Grows(1, b, Pow(b, d - 1));
    } else {
      DivideBy(p, b, 0, 1);
    }
  }

  /** __itoa with str_writer as its writer. */
  method Itoa(t: StrTarget, i: Int32, base: Int32) returns (wrote: nat)
    requires t.Valid() && Base(base as int) && i > -0x8000_0000 && (i >= 0 || base == 10)
    modifies t`wrote, t.str
    ensures t.Valid() && t.wrote == old(t.wrote) + wrote
    ensures wrote == Min(|Text(i as int, base as int)|, old(t.Room()))
    ensures forall j :: old(t.wrote) <= j < t.wrote ==> t.str[j] == Text(i as int, base as int)[j - old(t.wrote)]
    ensures t.str[t.wrote] == '\0'
    ensures forall j :: 0 <= j < old(t.wrote) || t.size <= j < t.str.Length ==> t.str[j] == old(t.str[j])
  {
    ghost var w0 := t.wrote;
    var n, sign := i, 0;
    if base == 10 && n < 0 {
      sign := t.StrWriter("-", 1);
      n := -n;
    }
    var digits := CountDigits(n, base);
    var more: nat;
    if n != 0 {
      more := WriteDigits(t, n, base, digits);
    } else {
      more := t.StrWriter("0", 1);
    }
    wrote := sign + more;
    ghost var before := t.str[..];
    var none := t.StrWriter("", 1);
    assert forall j :: 0 <= j < t.wrote ==> t.str[..][j] == before[j];
    wrote := wrote + none;
  }

  /**
   nitoa: the buffer ends up with the characters of the integer's text that fit and a terminator, all
   within its first `len` places, and if they all fit they determine the integer.
   */
  method NItoA(i: Int32, base: Int32, dest: array<char>, len: nat) returns (wrote: nat)
    requires 1 <= len <= dest.Length && Base(base as int) && i > -0x8000_0000 && (i >= 0 || base == 10)
    modifies dest
    ensures wrote == Min(|Text(i as int, base as int)|, len - 1)
    ensures dest[..wrote] == Text(i as int, base as int)[..wrote] && dest[wrote] == '\0'
    ensures dest[len..] == old(dest[len..])
    ensures |Text(i as int, base as int)| < len ==> ParseText(dest[..wrote], base as int) == i as int
  {
    var w := new StrTarget(dest, len);
    wrote := Itoa(w, i, base);
    assert dest[..wrote] == Text(i as int, base as int)[..wrote];
    TextRoundTrip(i as int, base as int);
    assert wrote == |Text(i as int, base as int)| ==> dest[..wrote] == Text(i as int, base as int);
  }
}
