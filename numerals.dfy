/** Decimal numbers as text, as the parser reads and writes them: Swift's
    `Int(String)` and `Double(String)` initialisers, `String(Int)`, the
    thousands grouping rsync 3 prints, and the IEEE results of a division. */
module Numerals {
  import opened Wrappers
  import opened Strings

  /** The range of Swift's 64-bit `Int`. */
  const IntMin: int := -0x8000_0000_0000_0000
  const IntMax: int := 0x7fff_ffff_ffff_ffff

  predicate IsDigit(c: char) {
    '0' <= c <= '9'
  }

  predicate AllDigits(s: string) {
    forall i :: 0 <= i < |s| ==> IsDigit(s[i])
  }

  function DigitValue(c: char): nat
    requires IsDigit(c)
  {
    (c as int) - ('0' as int)
  }

  /** The value of a string of decimal digits, most significant first. */
  function DigitsValue(s: string): nat
    requires AllDigits(s)
    decreases |s|
  {
    if |s| == 0 then 0 else DigitsValue(s[..|s| - 1]) * 10 + DigitValue(s[|s| - 1])
  }

  function Pow10(k: nat): (r: nat)
    ensures r >= 1
  {
    if k == 0 then 1 else 10 * Pow10(k - 1)
  }

  /** Swift's `Int(s)`: an optional `+` or `-`, then one or more decimal
      digits and nothing else, whose value fits in 64 bits; `nil` otherwise. */
  function ParseInt(s: string): (r: Option<int>)
    ensures r.Some? ==> IntMin <= r.value <= IntMax
  {
    var signed := |s| > 0 && (s[0] == '+' || s[0] == '-');
    var digits := if signed then s[1..] else s;
    if |digits| == 0 || !AllDigits(digits) then None
    else
      var v: int := if signed && s[0] == '-' then -(DigitsValue(digits) as int) else DigitsValue(digits);
      if IntMin <= v <= IntMax then Some(v) else None
  }

  /** The position of the first `c` in `s`. */
  function IndexOf(s: string, c: char): (i: nat)
    requires c in s
    ensures i < |s| && s[i] == c && c !in s[..i]
    decreases |s|
  {
    if s[0] == c then 0
    else
      var j := IndexOf(s[1..], c);
      assert s[..j + 1] == [s[0]] + s[1..][..j];
      j + 1
  }

  /** The value of `whole.frac` written in decimal digits. */
  function DecimalValue(whole: string, frac: string): real
    requires AllDigits(whole) && AllDigits(frac)
  {
    DigitsValue(whole) as real + DigitsValue(frac) as real / Pow10(|frac|) as real
  }

  /** An unsigned decimal: digits with at most one `.`, at least one digit. */
  function ParseUnsignedDecimal(s: string): Option<real> {
    if '.' in s then
      var i := IndexOf(s, '.');
      var whole := s[..i];
      var frac := s[i + 1..];
      if AllDigits(whole) && AllDigits(frac) && |whole| + |frac| > 0 then
        Some(DecimalValue(whole, frac))
      else None
    else if |s| > 0 && AllDigits(s) then Some(DigitsValue(s) as real)
    else None
  }

  /** Swift's `Double(s)` on plain decimal text: an optional sign, then an
      unsigned decimal; its exact value. */
  function ParseDouble(s: string): Option<real> {
    if |s| > 0 && (s[0] == '+' || s[0] == '-') then
      match ParseUnsignedDecimal(s[1..])
      case None => None
      case Some(v) => Some(if s[0] == '-' then -v else v)
    else ParseUnsignedDecimal(s)
  }

  function DigitChar(d: nat): (c: char)
    requires d < 10
    ensures IsDigit(c) && DigitValue(c) == d
  {
    (d + '0' as int) as char
  }

  /** `String(n)` for a non-negative `n`: its decimal digits, no leading zero. */
  function NatToString(n: nat): (s: string)
    ensures |s| >= 1 && AllDigits(s)
    decreases n
  {
    if n < 10 then [DigitChar(n)] else NatToString(n / 10) + [DigitChar(n % 10)]
  }

  /** Swift's `String(n)` for an `Int`. */
  function IntToString(n: int): string {
    if n < 0 then "-" + NatToString(-n) else NatToString(n)
  }

  /** The digits printed for `n` read back as `n`. */
  lemma {:induction false} NatToStringValue(n: nat)
    ensures DigitsValue(NatToString(n)) == n
    decreases n
  {
    if n >= 10 {
      NatToStringValue(n / 10);
      var s := NatToString(n);
      assert s[..|s| - 1] == NatToString(n / 10);
    }
  }

  /** `Int(String(n)) == n` for every 64-bit `n`. */
  lemma ParseIntToString(n: int)
    requires IntMin <= n <= IntMax
    ensures ParseInt(IntToString(n)) == Some(n)
  {
    var m := if n < 0 then -n else n;
    NatToStringValue(m);
    var t := NatToString(m);
    assert IsDigit(t[0]);
    if n < 0 {
      assert ("-" + t)[1..] == t;
    }
  }

  /** `Double(String(n)) == n` for every non-negative integer. */
  lemma ParseDoubleOfNat(n: nat)
    ensures ParseDouble(NatToString(n)) == Some(n as real)
  {
    var t := NatToString(n);
    NatToStringValue(n);
    assert IsDigit(t[0]);
    DigitsFree(t);
    assert ParseUnsignedDecimal(t) == Some(DigitsValue(t) as real);
  }

  /** Two digits, with a leading zero when needed (the cents of a rate). */
  function Pad2(c: nat): string
    requires c < 100
  {
    [DigitChar(c / 10), DigitChar(c % 10)]
  }

  /** The first `c` of `t + [c] + rest` is the one after `t` when `t` has none. */
  lemma {:induction false} IndexOfAfter(t: string, c: char, rest: string)
    requires c !in t
    ensures IndexOf(t + [c] + rest, c) == |t|
    decreases |t|
  {
    if |t| > 0 {
      assert (t + [c] + rest)[1..] == t[1..] + [c] + rest;
      IndexOfAfter(t[1..], c, rest);
    }
  }

  lemma Pad2Value(c: nat)
    requires c < 100
    ensures AllDigits(Pad2(c)) && DigitsValue(Pad2(c)) == c
  {
    var p := Pad2(c);
    var hi := p[..1];
    assert hi == [DigitChar(c / 10)];
    assert DigitsValue(hi) == DigitsValue(hi[..0]) * 10 + DigitValue(hi[0]);
    assert hi[..0] == [];
    assert DigitsValue(hi) == c / 10;
    assert DigitsValue(p) == DigitsValue(hi) * 10 + DigitValue(p[1]);
  }

  /** Text that starts with a digit has no sign to read. */
  lemma ParseDoubleUnsigned(s: string)
    requires |s| > 0 && IsDigit(s[0])
    ensures ParseDouble(s) == ParseUnsignedDecimal(s)
  {
  }

  /** Digits, a `.` and digits read back as whole part plus fraction. */
  lemma ParseDecimalParts(whole: string, frac: string)
    requires |whole| >= 1 && AllDigits(whole) && AllDigits(frac)
    ensures ParseUnsignedDecimal(whole + "." + frac) == Some(DecimalValue(whole, frac))
  {
    var s := whole + "." + frac;
    assert '.' in s by {
      assert s[|whole|] == '.';
    }
    assert IndexOf(s, '.') == |whole| by {
      DigitsFree(whole);
      IndexOfAfter(whole, '.', frac);
    }
    assert s[..|whole|] == whole && s[|whole| + 1..] == frac;
  }

  /** A number printed with two decimals reads back exactly. */
  lemma ParseDoubleDecimal(w: nat, c: nat)
    requires c < 100
    ensures ParseDouble(NatToString(w) + "." + Pad2(c)) == Some(w as real + c as real / 100.0)
  {
    ParseDecimalParts(NatToString(w), Pad2(c));
    ParseDoubleUnsigned(NatToString(w) + "." + Pad2(c));
    assert DecimalValue(NatToString(w), Pad2(c)) == w as real + c as real / 100.0 by {
      NatToStringValue(w);
      Pad2Value(c);
      assert Pow10(|Pad2(c)|) == 100;
    }
  }

  /** Three digits, with leading zeros (one group after a thousands separator). */
  function Pad3(d: nat): string
    requires d < 1000
  {
    [DigitChar(d / 100), DigitChar(d / 10 % 10), DigitChar(d % 10)]
  }

  /** `n` with a `,` between groups of three digits, as rsync 3 prints counts
      and sizes ("1,016,382,148"). */
  function Grouped(n: nat): string
    decreases n
  {
    if n < 1000 then NatToString(n) else Grouped(n / 1000) + "," + Pad3(n % 1000)
  }

  /** The digits of `m * 1000 + d` are those of `m` followed by three for `d`. */
  lemma NatToStringThousands(m: nat, d: nat)
    requires m >= 1 && d < 1000
    ensures NatToString(m * 1000 + d) == NatToString(m) + Pad3(d)
  {
    var x := m * 1000 + d;
    assert x / 10 == m * 100 + d / 10 && x % 10 == d % 10;
    var y := x / 10;
    assert y / 10 == m * 10 + d / 100 && y % 10 == d / 10 % 10;
    var z := y / 10;
    assert z / 10 == m && z % 10 == d / 100;
    assert NatToString(z) == NatToString(m) + [DigitChar(d / 100)];
    assert NatToString(y) == NatToString(z) + [DigitChar(d / 10 % 10)];
    assert NatToString(x) == NatToString(y) + [DigitChar(d % 10)];
  }

  /** Removing the thousands separators gives the plain digits. */
  lemma {:induction false} StripGrouped(n: nat)
    ensures Strip(Grouped(n), ',') == NatToString(n)
    decreases n
  {
    if n < 1000 {
      StripDigits(NatToString(n));
    } else {
      var m, d := n / 1000, n % 1000;
      StripGrouped(m);
      StripGroupedStep(m, d);
    }
  }

  lemma StripGroupedStep(m: nat, d: nat)
    requires 1 <= m && d < 1000
    requires Strip(Grouped(m), ',') == NatToString(m)
    ensures Strip(Grouped(m * 1000 + d), ',') == NatToString(m * 1000 + d)
  {
    var n := m * 1000 + d;
    assert n / 1000 == m && n % 1000 == d;
    var g, pd := Grouped(m), Pad3(d);
    assert Grouped(n) == g + "," + pd;
    StripConcat(g + ",", pd, ',');
    StripConcat(g, ",", ',');
    StripDigits(pd);
    assert Strip(",", ',') == [];
    NatToStringThousands(m, d);
  }

  /** Digits hold no separator of any kind used here. */
  lemma StripDigits(s: string)
    requires AllDigits(s)
    ensures Strip(s, ',') == s && Strip(s, ')') == s
  {
    DigitsFree(s);
    StripAbsent(s, ',');
    StripAbsent(s, ')');
  }

  /** No punctuation the parser splits or strips on is a digit. */
  lemma DigitsFree(s: string)
    requires AllDigits(s)
    ensures ',' !in s && ')' !in s && ' ' !in s && '.' !in s
  {
    forall i | 0 <= i < |s| ensures s[i] != ',' && s[i] != ')' && s[i] != ' ' && s[i] != '.' {
      assert IsDigit(s[i]);
    }
  }

  /** A grouped number holds only digits and commas. */
  lemma {:induction false} GroupedChars(n: nat)
    ensures forall i :: 0 <= i < |Grouped(n)| ==> IsDigit(Grouped(n)[i]) || Grouped(n)[i] == ','
    decreases n
  {
    if n >= 1000 {
      GroupedChars(n / 1000);
    }
  }

  /** An IEEE 754 double as far as the parser needs one: a finite value, or
      what a division by zero gives. */
  datatype Float = Finite(value: real) | PosInf | NegInf | NaN

  /** Swift's `x / y` on `Double`. */
  function Divide(x: real, y: real): (r: Float)
    ensures y != 0.0 <==> r.Finite?
    ensures r.Finite? ==> r.value * y == x
    ensures y == 0.0 ==> (r.PosInf? <==> x > 0.0) && (r.NaN? <==> x == 0.0)
  {
    if y != 0.0 then Finite(x / y)
    else if x > 0.0 then PosInf
    else if x < 0.0 then NegInf
    else NaN
  }
}
