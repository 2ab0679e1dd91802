/**
 * Bounded fixed-point arithmetic with twelve decimal places.
 * An amount is an `int` counting units of 10^-12; only this module looks at decimal text.
 */
module Fixed {
  import opened Outcomes

  const SCALE: int := 1_000_000_000_000
  const MAX_UNITS: int := 1_000_000_000_000_000_000_000_000_000_000
  const BPS_DENOMINATOR: int := 10_000 * SCALE

  function Abs(x: int): int {
    if x < 0 then -x else x
  }

  function Max(x: int, y: int): int {
    if x < y then y else x
  }

  function Min(x: int, y: int): int {
    if x < y then x else y
  }

  /** Rounds the quotient up; it is the least integer at or above `n / d`. */
  function CeilDiv(n: int, d: int): (q: int)
    requires d > 0
    ensures (q - 1) * d < n <= q * d
  {
    var q := -((-n) / d);
    assert -n == d * ((-n) / d) + (-n) % d;
    q
  }

  lemma ScaledOrder(x: int, y: int, d: int)
    requires d >= 0
    ensures x <= y ==> x * d <= y * d
  {
  }

  lemma FloorIsCovered(n: int, d: int)
    requires d > 0
    ensures n / d * d <= n
    ensures n >= 0 ==> n / d >= 0
  {
    assert n == d * (n / d) + n % d;
  }

  lemma CeilDivMonotone(n: int, m: int, d: int)
    requires d > 0 && n <= m
    ensures CeilDiv(n, d) <= CeilDiv(m, d)
  {
    ScaledOrder(CeilDiv(m, d), CeilDiv(n, d) - 1, d);
  }

  lemma CeilDivOfProductMonotone(a: int, b: int, factor: int, d: int)
    requires d > 0 && factor >= 0 && a <= b
    ensures CeilDiv(a * factor, d) <= CeilDiv(b * factor, d)
  {
    assert a * factor <= b * factor;
    CeilDivMonotone(a * factor, b * factor, d);
  }

  lemma CeilDivNonNegative(n: int, d: int)
    requires d > 0 && n >= 0
    ensures CeilDiv(n, d) >= 0
  {
    CeilDivMonotone(0, n, d);
  }

  /** The value of `left * right`, refused when it is not exact or too large. */
  function Product(left: int, right: int): Option<int> {
    var result := left * right / SCALE;
    if left * right % SCALE != 0 || Abs(result) > MAX_UNITS then None else Some(result)
  }

  lemma ProductIsExact(left: int, right: int)
    ensures Product(left, right).Some? ==>
              Product(left, right).value * SCALE == left * right && Abs(Product(left, right).value) <= MAX_UNITS
    ensures Product(left, right).None? ==>
              forall v {:trigger v * SCALE} :: v * SCALE == left * right ==> Abs(v) > MAX_UNITS
  {
    var p := left * right;
    assert p == SCALE * (p / SCALE) + p % SCALE;
  }

  /** When lot times tick is representable, products of their multiples can only fail by magnitude. */
  lemma ProductOfAligned(lot: int, tick: int, m: int, n: int)
    requires lot * tick % SCALE == 0
    ensures (m * lot) * (n * tick) % SCALE == 0
    ensures (m * lot) * (n * tick) / SCALE == m * n * (lot * tick / SCALE)
    ensures Product(m * lot, n * tick) ==
            (if Abs(m * n * (lot * tick / SCALE)) > MAX_UNITS then None
             else Some(m * n * (lot * tick / SCALE)))
  {
    var unit := lot * tick / SCALE;
    var total := m * n * unit;
    assert (m * lot) * (n * tick) == total * SCALE by {
      assert lot * tick == unit * SCALE;
      assert (m * lot) * (n * tick) == (m * n) * (lot * tick);
    }
    MultipleOfScale(total);
  }

  lemma MultipleOfScale(v: int)
    ensures v * SCALE % SCALE == 0 && v * SCALE / SCALE == v
  {
  }

  lemma ProductMonotone(a: int, b: int, price: int)
    requires a <= b && price >= 0
    requires Product(a, price).Some? && Product(b, price).Some?
    ensures Product(a, price).value <= Product(b, price).value
  {
    ProductIsExact(a, price);
    ProductIsExact(b, price);
    hide Product;
    ScaledOrder(a, b, price);
    ScaledOrder(Product(b, price).value + 1, Product(a, price).value, SCALE);
  }

  /** `gross / quantity` as a unit count, rounded half to even. */
  function Average(gross: int, quantity: int): (a: int)
    requires quantity > 0
    ensures 2 * Abs(a * quantity - gross * SCALE) <= quantity
    ensures 2 * Abs(a * quantity - gross * SCALE) == quantity ==> a % 2 == 0
  {
    var total := gross * SCALE;
    var quotient, remainder := total / quantity, total % quantity;
    assert quotient * quantity == total - remainder;
    if remainder * 2 > quantity || (remainder * 2 == quantity && quotient % 2 != 0) then
      assert (quotient + 1) * quantity == quotient * quantity + quantity;
      quotient + 1
    else
      quotient
  }

  /** A price of at least one unit per unit of quantity never rounds to zero. */
  lemma AverageIsPositive(gross: int, quantity: int)
    requires quantity > 0 && gross * SCALE >= quantity
    ensures Average(gross, quantity) > 0
  {
    ScaledOrder(Average(gross, quantity), 0, quantity);
  }

  // ---- Decimal text -------------------------------------------------------------------

  /** A parsed decimal: a digit string without redundant leading zeros, and a power of ten. */
  datatype Decimal =
    | Finite(negative: bool, digits: string, exponent: int)
    | NotFinite

  predicate IsDigits(s: string) {
    forall i :: 0 <= i < |s| ==> '0' <= s[i] <= '9'
  }

  function Pow10(n: nat): nat {
    if n == 0 then 1 else 10 * Pow10(n - 1)
  }

  function DigitChar(d: nat): (c: char)
    requires d < 10
    ensures '0' <= c <= '9'
  {
    '0' + d as char
  }

  function ValueOf(s: string): nat
    requires IsDigits(s)
  {
    if s == "" then 0 else ValueOf(s[..|s| - 1]) * 10 + (s[|s| - 1] - '0') as nat
  }

  function DigitsOf(n: nat): (s: string)
    ensures IsDigits(s) && s != ""
  {
    if n < 10 then [DigitChar(n)] else DigitsOf(n / 10) + [DigitChar(n % 10)]
  }

  /** Exactly `width` digits, zero-padded on the left. */
  function Padded(n: nat, width: nat): (s: string)
    ensures IsDigits(s) && |s| == width
  {
    if width == 0 then "" else Padded(n / 10, width - 1) + [DigitChar(n % 10)]
  }

  function Strip(s: string): (r: string)
    requires IsDigits(s)
    ensures IsDigits(r) && r != ""
    decreases |s|
  {
    if s == "" then "0" else if s[0] == '0' && |s| > 1 then Strip(s[1..]) else s
  }

  /** The text the engine prints for a unit count. */
  function Text(v: int): string {
    (if v < 0 then "-" else "") + DigitsOf(Abs(v) / SCALE) + "." + Padded(Abs(v) % SCALE, 12)
  }

  function PointIndex(s: string): (i: nat)
    ensures i <= |s|
    ensures forall j :: 0 <= j < i ==> s[j] != '.'
    ensures i < |s| ==> s[i] == '.'
  {
    if s == "" || s[0] == '.' then 0 else 1 + PointIndex(s[1..])
  }

  /** Reads plain decimal notation: an optional sign, digits, a point and more digits. */
  function Parse(text: string): Decimal {
    var negative := text != "" && text[0] == '-';
    var body := if negative then text[1..] else text;
    var point := PointIndex(body);
    if point == |body| then NotFinite
    else
      var whole, fraction := body[..point], body[point + 1..];
      if IsDigits(whole) && IsDigits(fraction) then
        Finite(negative, Strip(whole + fraction), -|fraction|)
      else NotFinite
  }

  function Coefficient(d: Decimal): int
    requires d.Finite? && IsDigits(d.digits)
  {
    var magnitude: int := ValueOf(d.digits);
    if d.negative then -magnitude else magnitude
  }

  /** The number of units in a decimal, refused when it is not a whole number of units in range. */
  function Units(d: Decimal): Option<int>
    requires d.Finite? ==> IsDigits(d.digits) && d.digits != ""
  {
    if d.NotFinite? || Abs(d.exponent + |d.digits| - 1) > 40 then None
    else
      var coefficient := Coefficient(d);
      var numerator := if d.exponent >= 0 then coefficient * Pow10(d.exponent) else coefficient;
      var denominator := if d.exponent >= 0 then 1 else Pow10(-d.exponent);
      Pow10Positive(if d.exponent >= 0 then 0 else -d.exponent);
      var result := numerator * SCALE / denominator;
      if numerator * SCALE % denominator != 0 || Abs(result) > MAX_UNITS then None else Some(result)
  }

  /** `Units` never rounds: it answers `v` exactly when `d` equals `v` units and is in range. */
  lemma UnitsIsExact(d: Decimal, v: int)
    requires d.Finite? ==> IsDigits(d.digits) && d.digits != ""
    ensures Units(d) == Some(v) <==>
            (d.Finite? && Abs(d.exponent + |d.digits| - 1) <= 40 && Abs(v) <= MAX_UNITS &&
             v * Pow10(if d.exponent >= 0 then 0 else -d.exponent) ==
             Coefficient(d) * Pow10(if d.exponent >= 0 then d.exponent else 0) * SCALE)
  {
    if d.Finite? {
      var coefficient := Coefficient(d);
      var denominator := Pow10(if d.exponent >= 0 then 0 else -d.exponent);
      Pow10Positive(if d.exponent >= 0 then 0 else -d.exponent);
      var n := coefficient * Pow10(if d.exponent >= 0 then d.exponent else 0) * SCALE;
      ExactQuotient(n, denominator, v);
    }
  }

  lemma ExactQuotient(n: int, d: int, v: int)
    requires d > 0
    ensures (n % d == 0 && n / d == v) <==> v * d == n
  {
    assert n == d * (n / d) + n % d;
    ScaledOrder(v + 1, n / d, d);
    ScaledOrder(n / d + 1, v, d);
  }

  lemma Pow10Positive(n: nat)
    ensures Pow10(n) > 0
  {
  }

  lemma {:induction false} Pow10Monotone(m: nat, n: nat)
    requires m <= n
    ensures Pow10(m) <= Pow10(n)
  {
    if m < n {
      Pow10Monotone(m, n - 1);
      Pow10Positive(n - 1);
    }
  }

  lemma {:induction false} ValueOfConcat(a: string, b: string)
    requires IsDigits(a) && IsDigits(b)
    ensures IsDigits(a + b) && ValueOf(a + b) == ValueOf(a) * Pow10(|b|) + ValueOf(b)
  {
    if b == "" {
      assert a + b == a;
    } else {
      var n := |b| - 1;
      ValueOfConcat(a, b[..n]);
      assert (a + b)[..|a + b| - 1] == a + b[..n];
      ShiftByTen(ValueOf(a), n, ValueOf(b[..n]));
    }
  }

  lemma ShiftByTen(v: int, n: nat, w: int)
    ensures (v * Pow10(n) + w) * 10 == v * Pow10(n + 1) + w * 10
  {
    var p := Pow10(n);
    assert v * (10 * p) == (v * p) * 10;
  }

  lemma {:induction false} ValueOfDigits(n: nat)
    ensures ValueOf(DigitsOf(n)) == n
  {
    var s := DigitsOf(n);
    if n < 10 {
      assert s[..|s| - 1] == "";
    } else {
      ValueOfDigits(n / 10);
      assert s[..|s| - 1] == DigitsOf(n / 10);
    }
  }

  lemma {:induction false} ValueOfPadded(n: nat, width: nat)
    requires n < Pow10(width)
    ensures ValueOf(Padded(n, width)) == n
  {
    if width > 0 {
      var s := Padded(n, width);
      ValueOfPadded(n / 10, width - 1);
      assert s[..|s| - 1] == Padded(n / 10, width - 1);
    }
  }

  lemma LeadingDigit(s: string)
    requires IsDigits(s) && s != ""
    ensures IsDigits(s[1..])
    ensures ValueOf(s) == (s[0] - '0') as int * Pow10(|s| - 1) + ValueOf(s[1..])
  {
    var head := [s[0]];
    assert s == head + s[1..];
    ValueOfConcat(head, s[1..]);
    assert ValueOf(head) == (s[0] - '0') as int by {
      assert head[..0] == "";
    }
  }

  lemma {:induction false} StripKeepsValue(s: string)
    requires IsDigits(s)
    ensures ValueOf(Strip(s)) == ValueOf(s)
    ensures |Strip(s)| > 1 ==> Strip(s)[0] != '0'
    decreases |s|
  {
    if s == "" {
      assert ValueOf("0") == 0 by {
        assert "0"[..0] == "";
      }
    } else if s[0] == '0' && |s| > 1 {
      StripKeepsValue(s[1..]);
      LeadingDigit(s);
    }
  }

  /** A digit string without leading zeros is at least as large as its length suggests. */
  lemma LengthBound(s: string)
    requires IsDigits(s) && s != "" && (|s| > 1 ==> s[0] != '0')
    ensures |s| > 1 ==> ValueOf(s) >= Pow10(|s| - 1)
  {
    if |s| > 1 {
      LeadingDigit(s);
      Pow10Positive(|s| - 1);
      ScaledOrder(1, (s[0] - '0') as int, Pow10(|s| - 1));
    }
  }

  lemma {:induction false} PointIsFirst(whole: string, rest: string)
    requires IsDigits(whole)
    ensures PointIndex(whole + "." + rest) == |whole|
  {
    var s := whole + "." + rest;
    if whole != "" {
      PointIsFirst(whole[1..], rest);
      assert s[1..] == whole[1..] + "." + rest;
    }
  }

  /** What the parser makes of printed text. */
  lemma ParseOfText(v: int)
    ensures Parse(Text(v)) ==
            Finite(v < 0, Strip(DigitsOf(Abs(v) / SCALE) + Padded(Abs(v) % SCALE, 12)), -12)
  {
    hide DigitsOf, Padded, Strip, PointIndex;
    var whole, fraction := DigitsOf(Abs(v) / SCALE), Padded(Abs(v) % SCALE, 12);
    var body := whole + "." + fraction;
    PointIsFirst(whole, fraction);
    assert body[..|whole|] == whole && body[|whole| + 1..] == fraction;
    assert whole[0] == body[0];
    if v < 0 {
      assert Text(v) == "-" + body;
      assert Text(v)[1..] == body;
    } else {
      assert Text(v) == body;
    }
  }

  lemma PrintedValue(v: int)
    ensures ValueOf(Strip(DigitsOf(Abs(v) / SCALE) + Padded(Abs(v) % SCALE, 12))) == Abs(v)
  {
    var whole, fraction := DigitsOf(Abs(v) / SCALE), Padded(Abs(v) % SCALE, 12);
    ValueOfDigits(Abs(v) / SCALE);
    Pow12();
    ValueOfPadded(Abs(v) % SCALE, 12);
    ValueOfConcat(whole, fraction);
    StripKeepsValue(whole + fraction);
  }

  /** Printing a unit count and reading it back gives the same count, over the whole range. */
  lemma UnitsOfText(v: int)
    requires Abs(v) <= MAX_UNITS
    ensures Parse(Text(v)).Finite?
    ensures IsDigits(Parse(Text(v)).digits) && Parse(Text(v)).digits != ""
    ensures Units(Parse(Text(v))) == Some(v)
  {
    hide Text, Parse, DigitsOf, Padded, ValueOf;
    var source := DigitsOf(Abs(v) / SCALE) + Padded(Abs(v) % SCALE, 12);
    var digits := Strip(source);
    ParseOfText(v);
    PrintedValue(v);
    StripKeepsValue(source);
    LengthBound(digits);
    Pow12();
    assert |digits| <= 31 by {
      if |digits| > 31 {
        Pow10Monotone(31, |digits| - 1);
      }
    }
    UnitsIsExact(Finite(v < 0, digits, -12), v);
  }

  lemma Pow12()
    ensures Pow10(12) == SCALE && Pow10(31) == 10 * MAX_UNITS
  {
    assert Pow10(3) == 1_000;
    assert Pow10(6) == 1_000_000;
    assert Pow10(9) == 1_000_000_000;
    assert Pow10(12) == SCALE;
    assert Pow10(15) == 1_000 * SCALE;
    assert Pow10(18) == 1_000_000 * SCALE;
    assert Pow10(21) == 1_000_000_000 * SCALE;
    assert Pow10(24) == SCALE * SCALE;
    assert Pow10(27) == 1_000 * SCALE * SCALE;
    assert Pow10(30) == MAX_UNITS;
    assert Pow10(31) == 10 * MAX_UNITS;
  }
}
