/** Decimal numerals: `String(n)` for natural numbers, and the prefix parsers
    `parseFloat` and `parseInt` restricted to plain decimal notation. `None`
    stands for JavaScript's `NaN`. */
module Numbers {
  import opened Wrappers
  import Text

  predicate IsDigit(c: char) {
    '0' <= c <= '9'
  }

  function DigitValue(c: char): (d: nat)
    requires IsDigit(c)
    ensures d < 10
  {
    c as int - '0' as int
  }

  function DigitChar(d: nat): (c: char)
    requires d < 10
    ensures IsDigit(c) && DigitValue(c) == d
  {
    ('0' as int + d) as char
  }

  predicate AllDigits(s: string) {
    forall i :: 0 <= i < |s| ==> IsDigit(s[i])
  }

  /** `String(n)`: the decimal digits of `n`, without leading zeros. */
  function Decimal(n: nat): (r: string)
    ensures |r| >= 1 && AllDigits(r)
    ensures |r| > 1 ==> r[0] != '0'
  {
    if n < 10 then [DigitChar(n)] else Decimal(n / 10) + [DigitChar(n % 10)]
  }

  /** The number a run of decimal digits denotes. */
  function DigitsValue(ds: string): nat
    requires AllDigits(ds)
  {
    if ds == [] then 0 else DigitsValue(ds[..|ds| - 1]) * 10 + DigitValue(ds[|ds| - 1])
  }

  /** Reading back the numeral of `n` gives `n`. */
  lemma {:induction false} DecimalRoundTrip(n: nat)
    ensures DigitsValue(Decimal(n)) == n
  {
    if n >= 10 {
      var r := Decimal(n);
      assert r[..|r| - 1] == Decimal(n / 10);
      DecimalRoundTrip(n / 10);
    }
  }

  /** Numerals of different numbers differ. */
  lemma DecimalInjective(m: nat, n: nat)
    requires Decimal(m) == Decimal(n)
    ensures m == n
  {
    DecimalRoundTrip(m);
    DecimalRoundTrip(n);
  }

  /** The length of the run of digits `s` starts with. */
  function DigitRun(s: string): (k: nat)
    ensures k <= |s| && AllDigits(s[..k])
    ensures k == |s| || !IsDigit(s[k])
  {
    if s == [] || !IsDigit(s[0]) then 0 else 1 + DigitRun(s[1..])
  }

  lemma {:induction false} DigitRunAll(s: string)
    requires AllDigits(s)
    ensures DigitRun(s) == |s|
  {
    if s != [] {
      DigitRunAll(s[1..]);
    }
  }

  function Pow10(k: nat): (p: nat)
    ensures p >= 1
  {
    if k == 0 then 1 else 10 * Pow10(k - 1)
  }

  /** An unsigned decimal prefix: digits, optionally a point and more digits,
      with at least one digit in all. */
  function ParseUnsignedDecimal(s: string): Option<real> {
    var i := DigitRun(s);
    if i < |s| && s[i] == '.' then
      var fraction := s[i + 1..];
      var j := DigitRun(fraction);
      if i == 0 && j == 0 then None
      else Some(DigitsValue(s[..i]) as real + DigitsValue(fraction[..j]) as real / Pow10(j) as real)
    else if i == 0 then None
    else Some(DigitsValue(s[..i]) as real)
  }

  /** `parseFloat(s)` for plain decimal notation: leading white space and one
      sign are skipped, and the longest decimal prefix is read. */
  function ParseFloat(s: string): Option<real> {
    var t := Text.TrimStart(s);
    if |t| > 0 && t[0] == '-' then
      match ParseUnsignedDecimal(t[1..])
      case Some(x) => Some(-x)
      case None => None
    else if |t| > 0 && t[0] == '+' then ParseUnsignedDecimal(t[1..])
    else ParseUnsignedDecimal(t)
  }

  predicate IsHexDigit(c: char) {
    IsDigit(c) || 'a' <= c <= 'f' || 'A' <= c <= 'F'
  }

  function HexDigitValue(c: char): (d: nat)
    requires IsHexDigit(c)
    ensures d < 16
  {
    if IsDigit(c) then DigitValue(c)
    else if 'a' <= c <= 'f' then c as int - 'a' as int + 10
    else c as int - 'A' as int + 10
  }

  /** Text starting with a digit or a minus sign has no white space to skip. */
  lemma NoLeadingSpace(s: string)
    requires s != [] && (IsDigit(s[0]) || s[0] == '-')
    ensures Text.TrimStart(s) == s
  {
    assert !Text.IsWhitespace(s[0]);
  }

  /** The length of the run of hexadecimal digits `s` starts with. */
  function HexRun(s: string): (k: nat)
    ensures k <= |s| && (forall i :: 0 <= i < k ==> IsHexDigit(s[i]))
    ensures k == |s| || !IsHexDigit(s[k])
  {
    if s == [] || !IsHexDigit(s[0]) then 0 else 1 + HexRun(s[1..])
  }

  /** The number a run of hexadecimal digits denotes. */
  function HexValue(ds: string): nat
    requires forall i :: 0 <= i < |ds| ==> IsHexDigit(ds[i])
  {
    if ds == [] then 0 else HexValue(ds[..|ds| - 1]) * 16 + HexDigitValue(ds[|ds| - 1])
  }

  /** `0x` or `0X`, which makes `parseInt` without a radix read base 16. */
  predicate HexPrefixed(u: string) {
    |u| >= 2 && u[0] == '0' && (u[1] == 'x' || u[1] == 'X')
  }

  /** `parseInt(s)` without a radix: leading white space and one sign are
      skipped; after a `0x` or `0X` prefix the run of hexadecimal digits is
      read, otherwise the run of decimal digits. */
  function ParseInt(s: string): Option<int> {
    var t := Text.TrimStart(s);
    var negative := |t| > 0 && t[0] == '-';
    var u := if |t| > 0 && (t[0] == '-' || t[0] == '+') then t[1..] else t;
    var magnitude: Option<nat> :=
      if HexPrefixed(u) then
        var k := HexRun(u[2..]);
        if k == 0 then None else Some(HexValue(u[2..][..k]))
      else
        var k := DigitRun(u);
        if k == 0 then None else Some(DigitsValue(u[..k]));
    match magnitude
    case None => None
    case Some(m) => if negative then Some(-(m as int)) else Some(m as int)
  }

  /** `parseInt("0x1A")` is 26, where a decimal reading would give 0. */
  lemma ParseIntHex()
    ensures ParseInt("0x1A") == Some(26)
  {
    var s := "0x1A";
    NoLeadingSpace(s);
    assert HexPrefixed(s);
    assert s[2..] == "1A";
    assert HexRun("1A") == 2 by {
      assert "1A"[1..] == "A";
    }
    assert "1A"[..2] == "1A";
    assert HexValue("1A") == 26 by {
      assert "1A"[..1] == "1";
      assert HexValue("1") == 1 by {
        assert "1"[..0] == "";
      }
    }
  }

  /** The numeral of a natural number parses back to it as an integer. */
  lemma ParseIntDecimal(n: nat)
    ensures ParseInt(Decimal(n)) == Some(n)
  {
    var r := Decimal(n);
    NoLeadingSpace(r);
    assert !HexPrefixed(r);
    DigitRunAll(r);
    assert r[..|r|] == r;
    DecimalRoundTrip(n);
  }

  /** The numeral of a natural number is read whole as an unsigned decimal. */
  lemma UnsignedDecimal(n: nat)
    ensures ParseUnsignedDecimal(Decimal(n)) == Some(n as real)
  {
    var r := Decimal(n);
    DigitRunAll(r);
    assert r[..|r|] == r;
    DecimalRoundTrip(n);
  }

  /** The numeral of a natural number parses back to it as a float. */
  lemma ParseFloatDecimal(n: nat)
    ensures ParseFloat(Decimal(n)) == Some(n as real)
  {
    var r := Decimal(n);
    NoLeadingSpace(r);
    UnsignedDecimal(n);
  }

  /** A minus sign before a numeral negates it. */
  lemma ParseFloatNegated(n: nat)
    ensures ParseFloat("-" + Decimal(n)) == Some(-(n as real))
  {
    var t := "-" + Decimal(n);
    NoLeadingSpace(t);
    assert t[1..] == Decimal(n);
    UnsignedDecimal(n);
  }

  /** A run of digits followed by anything is read up to its end. */
  lemma {:induction false} DigitRunConcat(a: string, b: string)
    requires AllDigits(a)
    ensures DigitRun(a + b) == |a| + DigitRun(b)
  {
    if a == [] {
      assert a + b == b;
    } else {
      assert IsDigit(a[0]) && (a + b)[0] == a[0];
      assert (a + b)[1..] == a[1..] + b;
      DigitRunConcat(a[1..], b);
    }
  }

  /** The value of a numeral with a fraction: the whole part plus the
      fraction digits over the matching power of ten. */
  function FractionValue(m: nat, ds: string): real
    requires AllDigits(ds)
  {
    m as real + DigitsValue(ds) as real / Pow10(|ds|) as real
  }

  /** How `Decimal(m) + "." + ds` splits: the whole digits, the point at
      the end of them, and the fraction digits after it. */
  lemma FractionSplit(m: nat, ds: string)
    requires AllDigits(ds)
    ensures var w := Decimal(m); var s := w + "." + ds;
      && DigitRun(s) == |w| && s[|w|] == '.' && s[..|w|] == w && s[|w| + 1..] == ds
      && DigitRun(ds) == |ds| && ds[..|ds|] == ds
  {
    var w := Decimal(m);
    var s := w + "." + ds;
    assert s == w + ("." + ds);
    DigitRunConcat(w, "." + ds);
    DigitRunAll(ds);
  }

  /** `Decimal(m) + "." + ds` is read whole as an unsigned decimal. */
  lemma UnsignedFraction(m: nat, ds: string)
    requires AllDigits(ds)
    ensures ParseUnsignedDecimal(Decimal(m) + "." + ds) == Some(FractionValue(m, ds))
  {
    var w := Decimal(m);
    var s := w + "." + ds;
    FractionSplit(m, ds);
    DecimalRoundTrip(m);
    var i := DigitRun(s);
    var fraction := s[i + 1..];
    assert i == |w| && fraction == ds && DigitRun(fraction) == |ds|;
    assert DigitsValue(s[..i]) == m && fraction[..|ds|] == ds;
  }

  /** A numeral with a fraction, as the provider writes prices (`"189.8400"`),
      parses to its value. */
  lemma ParseFloatFraction(m: nat, ds: string)
    requires AllDigits(ds)
    ensures ParseFloat(Decimal(m) + "." + ds) == Some(FractionValue(m, ds))
  {
    var s := Decimal(m) + "." + ds;
    assert s[0] == Decimal(m)[0];
    NoLeadingSpace(s);
    UnsignedFraction(m, ds);
  }

  /** A minus sign before a numeral with a fraction (`"-1.2300"`) negates it. */
  lemma ParseFloatFractionNegated(m: nat, ds: string)
    requires AllDigits(ds)
    ensures ParseFloat("-" + Decimal(m) + "." + ds) == Some(-FractionValue(m, ds))
  {
    var u := Decimal(m) + "." + ds;
    var s := "-" + Decimal(m) + "." + ds;
    assert s == "-" + u;
    assert s[0] == '-';
    NoLeadingSpace(s);
    assert s[1..] == u;
    UnsignedFraction(m, ds);
  }

  /** Text that does not start (after white space and a sign) with a digit
      or a point is not a number. */
  lemma ParseFloatRejects(s: string)
    requires s == [] || !(IsDigit(s[0]) || s[0] == '.' || s[0] == '-' || s[0] == '+' || Text.IsWhitespace(s[0]))
    ensures ParseFloat(s) == None
  {
  }
}
