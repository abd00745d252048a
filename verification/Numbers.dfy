/**
 The layout of numbers in canonical text.

 A float is given by its sign, its shortest decimal digits and the position of the decimal
 point, the form Python's `repr` starts from. `Number` rewrites the text of `repr`;
 `Ecma` is the layout that section 3.2.2.3 of RFC 8785 requires; `ReadNumber` reads either.
 */
module Numbers {
  import opened Sequences
  import opened Decimals

  /** The value 0.d1d2d3... times ten to the power `point`; no digits at all is zero. */
  datatype Decimal = Decimal(negative: bool, digits: string, point: int)

  const ZERO := Decimal(false, "", 0)

  /** Digits that neither begin nor end with a zero. */
  predicate Trimmed(digits: string) {
    AllDigits(digits) && (digits != "" ==> digits[0] != '0' && digits[|digits| - 1] != '0')
  }

  predicate Normal(d: Decimal) { Trimmed(d.digits) && (d.digits == "" ==> d == ZERO) }

  // --- Values -----------------------------------------------------------------------------

  function Pow10(k: int): (r: real)
    ensures r > 0.0
    decreases if k >= 0 then k else -k
  {
    if k == 0 then 1.0 else if k > 0 then 10.0 * Pow10(k - 1) else Pow10(k + 1) / 10.0
  }

  lemma PowStep(k: int)
    ensures Pow10(k + 1) == 10.0 * Pow10(k)
  {
  }

  lemma {:induction false} PowMonotone(j: int, k: int)
    ensures j <= k <==> Pow10(j) <= Pow10(k)
    decreases if j <= k then k - j else j - k
  {
    if j < k {
      PowMonotone(j, k - 1);
      PowStep(k - 1);
    } else if k < j {
      PowMonotone(j - 1, k);
      PowStep(j - 1);
    }
  }

  /** `d` times `p`. */
  function Times(d: nat, p: real): real {
    if d == 0 then 0.0 else p + Times(d - 1, p)
  }

  lemma DigitTimes(d: nat, p: real)
    requires d < 10 && p > 0.0
    ensures 0.0 <= Times(d, p) <= 9.0 * p
    ensures d > 0 ==> p <= Times(d, p)
  {
    assert Times(1, p) == p && Times(2, p) == 2.0 * p && Times(3, p) == 3.0 * p;
    assert Times(4, p) == 4.0 * p && Times(5, p) == 5.0 * p && Times(6, p) == 6.0 * p;
    assert Times(7, p) == 7.0 * p && Times(8, p) == 8.0 * p && Times(9, p) == 9.0 * p;
  }

  /** The sum of the digits, each at its power of ten. */
  function Magnitude(digits: string, point: int): real
    requires AllDigits(digits)
  {
    if digits == "" then 0.0
    else
      var n := |digits| - 1;
      assert digits == digits[..n] + [digits[n]];
      Magnitude(digits[..n], point) + Times(DigitValue(digits[n]), Pow10(point - n - 1))
  }

  lemma {:induction false} MagnitudeBound(digits: string, point: int)
    requires AllDigits(digits) && digits != "" && digits[0] != '0'
    ensures Pow10(point - 1) <= Magnitude(digits, point) <= Pow10(point) - Pow10(point - |digits|)
  {
    hide Pow10, Times;
    var n := |digits| - 1;
    assert digits == digits[..n] + [digits[n]];
    PowStep(point - n - 1);
    DigitTimes(DigitValue(digits[n]), Pow10(point - n - 1));
    if n > 0 {
      MagnitudeBound(digits[..n], point);
    } else {
      assert Magnitude(digits[..0], point) == 0.0;
    }
  }

  /** The source's test `1e-6 <= abs(x) < 1e21`. */
  predicate InPositionalRange(d: Decimal)
    requires AllDigits(d.digits)
  {
    Pow10(-6) <= Magnitude(d.digits, d.point) < Pow10(21)
  }

  lemma RangeByPoint(d: Decimal)
    requires Normal(d) && d.digits != ""
    ensures InPositionalRange(d) <==> -6 < d.point <= 21
  {
    MagnitudeBound(d.digits, d.point);
    PowMonotone(-6, d.point - 1);
    PowMonotone(d.point, -6);
    PowMonotone(21, d.point - 1);
    PowMonotone(d.point, 21);
  }

  // --- Texts ------------------------------------------------------------------------------

  function Zeros(n: nat): (z: string)
    ensures |z| == n && AllDigits(z) && forall c | c in z :: c == '0'
  {
    seq(n, _ => '0')
  }

  function Signed(negative: bool, body: string): string { if negative then "-" + body else body }

  /** Everything in place: no exponent. */
  function Positional(digits: string, point: int): string {
    if point >= |digits| then digits + Zeros(point - |digits|)
    else if point > 0 then digits[..point] + "." + digits[point..]
    else "0." + (Zeros(-point) + digits)
  }

  function Mantissa(digits: string): string
    requires digits != ""
  {
    if |digits| == 1 then digits else digits[..1] + "." + digits[1..]
  }

  function Exponent(e: int): string { if e >= 0 then "+" + Dec(e) else "-" + Dec(-e) }

  /** ECMAScript's layout, required by section 3.2.2.3 of RFC 8785. */
  function Ecma(d: Decimal): string {
    if d.digits == "" then "0"
    else if -6 < d.point <= 21 then Signed(d.negative, Positional(d.digits, d.point))
    else Signed(d.negative, Mantissa(d.digits) + "e" + Exponent(d.point - 1))
  }

  function TwoDigits(n: nat): string { if n < 10 then "0" + Dec(n) else Dec(n) }

  /** Python's shortest `repr` of a float that is not zero. */
  function Repr(d: Decimal): string
    requires d.digits != ""
  {
    if -4 < d.point <= 16 then
      Signed(d.negative, Positional(d.digits, d.point) + if d.point >= |d.digits| then ".0" else "")
    else
      var e := d.point - 1;
      Signed(d.negative, Mantissa(d.digits) + "e" + if e >= 0 then "+" + TwoDigits(e) else "-" + TwoDigits(-e))
  }

  /** The text before the first `c`, and the text after it if there is one. */
  function Cut(s: string, c: char): (r: (string, Option<string>))
    ensures c !in r.0
    ensures r.1.Some? ==> s == r.0 + [c] + r.1.value
    ensures r.1.None? ==> s == r.0
  {
    if s == "" then ("", None)
    else if s[0] == c then ("", Some(s[1..]))
    else
      var r := Cut(s[1..], c);
      ([s[0]] + r.0, r.1)
  }

  lemma {:induction false} CutAt(a: string, c: char, b: string)
    requires c !in a
    ensures Cut(a + [c] + b, c) == (a, Some(b))
  {
    var s := a + [c] + b;
    if a == "" {
      assert s == [c] + b && s[1..] == b;
    } else {
      assert s[1..] == a[1..] + [c] + b;
      CutAt(a[1..], c, b);
      assert [a[0]] + a[1..] == a;
    }
  }

  lemma {:induction false} CutNone(a: string, c: char)
    requires c !in a
    ensures Cut(a, c) == (a, None)
  {
    if a != "" {
      CutNone(a[1..], c);
      assert [a[0]] + a[1..] == a;
    }
  }

  function OrNothing(s: Option<string>): string { if s.Some? then s.value else "" }

  /** A signed exponent as Python's `int` reads it. */
  function ReadExponent(s: string): Option<int> {
    if s != "" && s[0] == '+' && AllDigits(s[1..]) then Some(Undec(s[1..]))
    else if s != "" && s[0] == '-' && AllDigits(s[1..]) then var n: int := Undec(s[1..]); Some(-n)
    else None
  }

  /** Sign, whole part, fraction, exponent. */
  datatype Parts = Parts(negative: bool, whole: string, fraction: string, exponent: Option<string>)

  function Unsigned(s: string): (r: (bool, string))
    ensures s == Signed(r.0, r.1)
  {
    if s != "" && s[0] == '-' then (true, s[1..]) else (false, s)
  }

  function PartsOf(s: string): Parts {
    var u := Unsigned(s);
    var e := Cut(u.1, 'e');
    var f := Cut(e.0, '.');
    Parts(u.0, f.0, OrNothing(f.1), e.1)
  }

  /** `format(Decimal(text), "f")`: the coefficient laid out around its point. */
  function FormatF(text: string): string {
    var p := PartsOf(text);
    var e := if p.exponent.Some? then ReadExponent(p.exponent.value) else Some(0);
    if e.None? then text
    else Signed(p.negative, Positional(p.whole + p.fraction, |p.whole| + e.value))
  }

  predicate EndsWithPointZero(s: string) { |s| >= 2 && s[|s| - 2..] == ".0" }

  function DropPointZero(s: string): string { if EndsWithPointZero(s) then s[..|s| - 2] else s }

  /** `number` of a float: its `repr`, rewritten. Outside the positional range a `repr` always has an exponent. */
  function Number(d: Decimal): string
    requires AllDigits(d.digits)
  {
    if d.digits == "" then "0"
    else
      var rendered := Repr(d);
      if InPositionalRange(d) then if 'e' in rendered then FormatF(rendered) else DropPointZero(rendered)
      else
        var cut := Cut(rendered, 'e');
        var e := ReadExponent(OrNothing(cut.1));
        if e.None? then rendered else DropPointZero(cut.0) + "e" + Exponent(e.value)
  }

  // --- The rewritten text is the required one ---------------------------------------------

  lemma DigitsOnly(s: string)
    requires AllDigits(s)
    ensures 'e' !in s && '.' !in s && '-' !in s && '+' !in s
  {
  }

  lemma ReadTwoDigits(e: int)
    ensures ReadExponent(if e >= 0 then "+" + TwoDigits(e) else "-" + TwoDigits(-e)) == Some(e)
  {
    var n: nat := if e >= 0 then e else -e;
    var s := if e >= 0 then "+" + TwoDigits(e) else "-" + TwoDigits(-e);
    assert s[1..] == TwoDigits(n);
    UndecDec(n);
    if n < 10 {
      var t := TwoDigits(n);
      assert t == "0" + [DigitChar(n)];
      assert t[..1] == "0" && Undec("0") == 10 * Undec("") + 0;
    }
  }

  lemma ReadExponentBack(e: int)
    ensures ReadExponent(Exponent(e)) == Some(e)
  {
    var n: nat := if e >= 0 then e else -e;
    assert Exponent(e)[1..] == Dec(n);
    UndecDec(n);
  }

  function Fractional(whole: string, tail: string): string { if tail == "" then whole else whole + "." + tail }

  function WithExponent(m: string, e: Option<string>): string { if e.Some? then m + "e" + e.value else m }

  lemma CutFraction(whole: string, tail: string)
    requires AllDigits(whole)
    ensures Cut(Fractional(whole, tail), '.') == (whole, if tail == "" then None else Some(tail))
  {
    DigitsOnly(whole);
    if tail == "" { CutNone(whole, '.'); } else { CutAt(whole, '.', tail); }
  }

  lemma CutExponent(m: string, e: Option<string>)
    requires 'e' !in m
    ensures Cut(WithExponent(m, e), 'e') == (m, e)
  {
    if e.Some? { CutAt(m, 'e', e.value); } else { CutNone(m, 'e'); }
  }

  lemma UnsignedBack(negative: bool, body: string)
    requires body != "" && body[0] != '-'
    ensures Unsigned(Signed(negative, body)) == (negative, body)
  {
    if negative { assert ("-" + body)[1..] == body; }
  }

  /** Reading apart what was put together. */
  lemma PartsBack(negative: bool, whole: string, tail: string, e: Option<string>)
    requires AllDigits(whole) && whole != "" && AllDigits(tail)
    ensures PartsOf(Signed(negative, WithExponent(Fractional(whole, tail), e))) == Parts(negative, whole, tail, e)
  {
    hide Cut, Unsigned, Signed, AllDigits;
    var m := Fractional(whole, tail);
    DigitsOnly(whole);
    DigitsOnly(tail);
    assert m[0] == whole[0] && whole[0] in whole;
    CutFraction(whole, tail);
    CutExponent(m, e);
    UnsignedBack(negative, WithExponent(m, e));
  }

  /** A mantissa and an exponent, read apart. */
  lemma ScientificParts(negative: bool, digits: string, exponent: string)
    requires AllDigits(digits) && digits != ""
    ensures PartsOf(Signed(negative, Mantissa(digits) + "e" + exponent))
         == Parts(negative, digits[..1], digits[1..], Some(exponent))
    ensures digits[..1] + digits[1..] == digits
  {
    hide PartsOf;
    PartsBack(negative, digits[..1], digits[1..], Some(exponent));
    assert Mantissa(digits) == Fractional(digits[..1], digits[1..]);
  }

  lemma FormatScientific(negative: bool, digits: string, point: int)
    requires AllDigits(digits) && digits != ""
    ensures var e := point - 1;
      FormatF(Signed(negative, Mantissa(digits) + "e" + if e >= 0 then "+" + TwoDigits(e) else "-" + TwoDigits(-e)))
      == Signed(negative, Positional(digits, point))
  {
    hide PartsOf, Positional, ReadExponent, Mantissa, TwoDigits, Signed;
    var e := point - 1;
    ScientificParts(negative, digits, if e >= 0 then "+" + TwoDigits(e) else "-" + TwoDigits(-e));
    ReadTwoDigits(e);
  }

  lemma PositionalHasNoExponent(negative: bool, digits: string, point: int)
    requires AllDigits(digits)
    ensures 'e' !in Signed(negative, Positional(digits, point) + ".0")
    ensures 'e' !in Signed(negative, Positional(digits, point))
  {
    DigitsOnly(digits);
  }

  lemma DropsPointZero(s: string)
    ensures DropPointZero(s + ".0") == s
  {
    assert (s + ".0")[|s|..] == ".0";
  }

  lemma PointZeroEndsInZero(s: string)
    ensures EndsWithPointZero(s) ==> s[|s| - 1] == '0'
  {
    if EndsWithPointZero(s) { assert s[|s| - 1] == s[|s| - 2..][1]; }
  }

  /** A fraction that ends in a digit other than zero is no trailing ".0". */
  lemma KeepsFraction(negative: bool, digits: string, point: int)
    requires Trimmed(digits) && digits != "" && point < |digits|
    ensures DropPointZero(Signed(negative, Positional(digits, point))) == Signed(negative, Positional(digits, point))
  {
    var s := Signed(negative, Positional(digits, point));
    assert s[|s| - 1] == digits[|digits| - 1];
    PointZeroEndsInZero(s);
  }

  lemma MantissaIsPlain(negative: bool, digits: string)
    requires Trimmed(digits) && digits != ""
    ensures var s := Signed(negative, Mantissa(digits)); 'e' !in s && DropPointZero(s) == s
  {
    DigitsOnly(digits);
    var s := Signed(negative, Mantissa(digits));
    assert s[|s| - 1] == digits[|digits| - 1];
    PointZeroEndsInZero(s);
  }

  /** The source's rewriting of `repr` is the ECMAScript layout, for every float. */
  lemma NumberIsEcma(d: Decimal)
    requires Normal(d)
    ensures Number(d) == Ecma(d)
  {
    hide Positional, Mantissa, FormatF, InPositionalRange, ReadExponent, DropPointZero, Cut, TwoDigits, Exponent;
    if d.digits != "" {
      RangeByPoint(d);
      var e := d.point - 1;
      var exponent := if e >= 0 then "+" + TwoDigits(e) else "-" + TwoDigits(-e);
      if -4 < d.point <= 16 {
        PositionalHasNoExponent(d.negative, d.digits, d.point);
        if d.point >= |d.digits| {
          assert Repr(d) == Signed(d.negative, Positional(d.digits, d.point)) + ".0";
          DropsPointZero(Signed(d.negative, Positional(d.digits, d.point)));
        } else {
          assert Repr(d) == Signed(d.negative, Positional(d.digits, d.point));
          KeepsFraction(d.negative, d.digits, d.point);
        }
      } else {
        var m := Signed(d.negative, Mantissa(d.digits));
        assert Repr(d) == m + ['e'] + exponent;
        if -6 < d.point <= 21 {
          assert Repr(d)[|m|] == 'e';
          FormatScientific(d.negative, d.digits, d.point);
        } else {
          MantissaIsPlain(d.negative, d.digits);
          CutAt(m, 'e', exponent);
          ReadTwoDigits(e);
        }
      }
    }
  }

  // --- Reading numbers back ---------------------------------------------------------------

  /** Drops leading zeros, moving the point along, and then trailing zeros. */
  function Trim(negative: bool, digits: string, point: int): (d: Decimal)
    requires AllDigits(digits)
    ensures Normal(d)
    decreases |digits|
  {
    if digits == "" then ZERO
    else if digits[0] == '0' then Trim(negative, digits[1..], point - 1)
    else if digits[|digits| - 1] == '0' then Trim(negative, digits[..|digits| - 1], point)
    else Decimal(negative, digits, point)
  }

  function ReadNumber(s: string): (r: Option<Decimal>)
    ensures r.Some? ==> Normal(r.value)
  {
    var p := PartsOf(s);
    var e := if p.exponent.Some? then ReadExponent(p.exponent.value) else Some(0);
    if e.None? || p.whole == "" || !AllDigits(p.whole + p.fraction) then None
    else Some(Trim(p.negative, p.whole + p.fraction, |p.whole| + e.value))
  }

  lemma {:induction false} TrimTrailing(negative: bool, digits: string, n: nat, point: int)
    requires Trimmed(digits) && digits != ""
    ensures Trim(negative, digits + Zeros(n), point) == Decimal(negative, digits, point)
  {
    var s := digits + Zeros(n);
    if n > 0 {
      TrimTrailing(negative, digits, n - 1, point);
      assert s[..|s| - 1] == digits + Zeros(n - 1);
    } else {
      assert s == digits;
    }
  }

  lemma TrimHead(negative: bool, rest: string, point: int)
    requires AllDigits(rest)
    ensures Trim(negative, "0" + rest, point) == Trim(negative, rest, point - 1)
  {
    assert ("0" + rest)[1..] == rest;
  }

  lemma {:induction false} TrimLeading(negative: bool, n: nat, digits: string, point: int)
    requires Trimmed(digits) && digits != ""
    ensures Trim(negative, Zeros(n) + digits, point) == Decimal(negative, digits, point - n)
  {
    hide Trim;
    if n > 0 {
      TrimLeading(negative, n - 1, digits, point - 1);
      TrimHead(negative, Zeros(n - 1) + digits, point);
      assert Zeros(n) + digits == "0" + (Zeros(n - 1) + digits);
    } else {
      TrimNothing(negative, digits, point);
      assert Zeros(0) + digits == digits;
    }
  }

  lemma TrimNothing(negative: bool, digits: string, point: int)
    requires Trimmed(digits) && digits != ""
    ensures Trim(negative, digits, point) == Decimal(negative, digits, point)
  {
  }

  /** The required layout is read back to the same sign, digits and point: it keeps the value. */
  lemma ReadEcma(d: Decimal)
    requires Normal(d)
    ensures ReadNumber(Ecma(d)) == Some(d)
  {
    hide PartsOf, Trim, Mantissa, ReadExponent, Exponent, Positional;
    if d.digits == "" {
      PartsBack(false, "0", "", None);
      assert "0" + "" == "0";
      assert Trim(false, "0", 1) == ZERO by { TrimZero(); }
    } else if -6 < d.point <= 21 {
      ReadPositional(d);
    } else {
      ScientificParts(d.negative, d.digits, Exponent(d.point - 1));
      ReadExponentBack(d.point - 1);
      TrimNothing(d.negative, d.digits, d.point);
    }
  }

  lemma TrimZero() ensures Trim(false, "0", 1) == ZERO { assert "0"[1..] == ""; }

  lemma ReadPositional(d: Decimal)
    requires Normal(d) && d.digits != ""
    ensures ReadNumber(Signed(d.negative, Positional(d.digits, d.point))) == Some(d)
  {
    hide PartsOf, Trim, Signed;
    var k := |d.digits|;
    if d.point >= k {
      var body := d.digits + Zeros(d.point - k);
      PartsBack(d.negative, body, "", None);
      assert body + "" == body;
      TrimTrailing(d.negative, d.digits, d.point - k, d.point);
    } else if d.point > 0 {
      PartsBack(d.negative, d.digits[..d.point], d.digits[d.point..], None);
      assert d.digits[..d.point] + d.digits[d.point..] == d.digits;
      TrimNothing(d.negative, d.digits, d.point);
    } else {
      var tail := Zeros(-d.point) + d.digits;
      PartsBack(d.negative, "0", tail, None);
      assert "0" + "." + tail == Positional(d.digits, d.point);
      assert "0" + tail == Zeros(1 - d.point) + d.digits;
      TrimLeading(d.negative, 1 - d.point, d.digits, 1);
    }
  }

  // --- Integers ---------------------------------------------------------------------------

  function Whole(i: int): string { if i >= 0 then Dec(i) else "-" + Dec(-i) }

  function DecimalOf(i: int): (d: Decimal)
    ensures Normal(d)
  {
    var n: nat := if i >= 0 then i else -i;
    Trim(i < 0, Dec(n), |Dec(n)|)
  }

  lemma ReadWhole(i: int)
    ensures ReadNumber(Whole(i)) == Some(DecimalOf(i))
  {
    var n: nat := if i >= 0 then i else -i;
    PartsBack(i < 0, Dec(n), "", None);
    assert Dec(n) + "" == Dec(n);
  }

  lemma {:induction false} DecStart(n: nat)
    ensures n > 0 ==> Dec(n)[0] != '0'
    ensures n == 0 ==> Dec(n) == "0"
  {
    if n >= 10 { DecStart(n / 10); }
  }

  function TenTo(k: nat): nat { if k == 0 then 1 else 10 * TenTo(k - 1) }

  lemma {:induction false} DecLength(n: nat, k: nat)
    requires k > 0
    ensures |Dec(n)| <= k <==> n < TenTo(k)
    decreases k
  {
    if k == 1 {
      assert TenTo(1) == 10;
    } else if n >= 10 {
      DecLength(n / 10, k - 1);
    } else {
      TenToGrows(k);
    }
  }

  lemma {:induction false} TenToGrows(k: nat)
    requires k > 0
    ensures TenTo(k) >= 10
  {
    if k > 1 { TenToGrows(k - 1); }
  }

  lemma {:induction false} TrimKeepsPlaces(negative: bool, digits: string, point: int)
    requires AllDigits(digits) && digits != "" && digits[0] != '0'
    ensures var d := Trim(negative, digits, point);
      d.digits != "" && d.negative == negative && d.point == point && |d.digits| <= |digits|
      && digits == d.digits + Zeros(|digits| - |d.digits|)
  {
    var n := |digits| - 1;
    if digits[n] == '0' {
      TrimKeepsPlaces(negative, digits[..n], point);
      var d := Trim(negative, digits, point);
      assert digits == digits[..n] + "0";
      assert Zeros(n - |d.digits|) + "0" == Zeros(|digits| - |d.digits|);
    } else {
      assert digits == digits + Zeros(0);
    }
  }

  /** An integer below 1e21 is laid out as the float of the same value would be. */
  lemma WholeIsEcma(i: int)
    requires 0 - TenTo(21) < i < TenTo(21)
    ensures Whole(i) == Ecma(DecimalOf(i))
  {
    hide TenTo;
    var n: nat := if i >= 0 then i else -i;
    DecStart(n);
    DecLength(n, 21);
    if n == 0 {
      assert "0"[1..] == "";
    } else {
      TrimKeepsPlaces(i < 0, Dec(n), |Dec(n)|);
    }
  }
}
