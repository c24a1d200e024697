/** Exact money: minor units to decimal text and back, written once with digit
    slicing and once with division. */
module Money {
  import opened Basics
  import opened DecimalText

  const INT64_MAX: nat := 0x7FFF_FFFF_FFFF_FFFF
  const MAX_SCALE: nat := 6

  function Pow10(n: nat): (p: nat)
    ensures p > 0
  {
    if n == 0 then 1 else 10 * Pow10(n - 1)
  }

  function DigitOf(d: nat): char
    requires d < 10
  {
    '0' + d as char
  }

  /** A number's decimal digits, without leading zeros. */
  function Digits(n: nat): (s: string)
    ensures s != []
  {
    if n < 10 then [DigitOf(n)] else Digits(n / 10) + [DigitOf(n % 10)]
  }

  /** The last w digits of a number, zeros included. */
  function LastDigits(n: nat, w: nat): (s: string)
    ensures |s| == w
  {
    if w == 0 then "" else LastDigits(n / 10, w - 1) + [DigitOf(n % 10)]
  }

  function Zeros(n: nat): (s: string)
    ensures |s| == n && forall i :: 0 <= i < n ==> s[i] == '0'
  {
    seq(n, _ => '0')
  }

  /** Zeros put in front up to a width. */
  function ZeroFill(s: string, w: nat): string {
    if |s| >= w then s else Zeros(w - |s|) + s
  }

  function TrimZeros(s: string): (r: string)
    ensures |r| <= |s| && r == s[..|r|]
    ensures r != [] ==> r[|r| - 1] != '0'
    ensures forall i :: |r| <= i < |s| ==> s[i] == '0'
  {
    if s == [] || s[|s| - 1] != '0' then s else TrimZeros(s[..|s| - 1])
  }

  /** The Python rendering: digits padded, then sliced at the decimal point. */
  function FromMinor(minor: nat, scale: nat): string {
    if scale == 0 then Digits(minor)
    else
      var digits := ZeroFill(Digits(minor), scale + 1);
      assert |digits| >= scale + 1 by { FilledLength(Digits(minor), scale + 1); }
      var whole, fraction := digits[..|digits| - scale], TrimZeros(digits[|digits| - scale..]);
      if fraction == "" then whole else whole + "." + fraction
  }

  lemma FilledLength(s: string, w: nat)
    ensures |ZeroFill(s, w)| >= w && |ZeroFill(s, w)| >= |s|
  {
  }

  // --------------------------------------------------------------- arithmetic

  /** A number without its last w digits, and those digits as a number. */
  function Above(n: nat, w: nat): nat {
    if w == 0 then n else Above(n / 10, w - 1)
  }

  function Below(n: nat, w: nat): nat {
    if w == 0 then 0 else 10 * Below(n / 10, w - 1) + n % 10
  }

  lemma TimesTen(a: nat, p: nat, r: nat)
    ensures 10 * (a * p + r) == a * (10 * p) + 10 * r
  {
    assert 10 * (a * p) == a * (10 * p);
  }

  lemma {:induction false} AboveBelow(n: nat, w: nat)
    ensures n == Above(n, w) * Pow10(w) + Below(n, w) && Below(n, w) < Pow10(w)
  {
    if w > 0 {
      AboveBelow(n / 10, w - 1);
      TimesTen(Above(n, w), Pow10(w - 1), Below(n / 10, w - 1));
    }
  }

  lemma TimesAtLeast(x: int, d: int)
    requires x >= 1 && d > 0
    ensures x * d >= d
  {
    assert x * d == (x - 1) * d + d;
    assert (x - 1) * d >= 0;
  }

  lemma DivMod(n: nat, d: nat, q: nat, r: nat)
    requires d > 0 && n == q * d + r && r < d
    ensures n / d == q && n % d == r
  {
    var q', r' := n / d, n % d;
    assert n == q' * d + r';
    assert (q - q') * d == q * d - q' * d;
    if q > q' {
      TimesAtLeast(q - q', d);
    } else if q < q' {
      assert (q' - q) * d == q' * d - q * d;
      TimesAtLeast(q' - q, d);
    }
  }

  lemma AboveDivides(n: nat, w: nat)
    ensures n / Pow10(w) == Above(n, w) && n % Pow10(w) == Below(n, w)
  {
    AboveBelow(n, w);
    hide Pow10;
    hide Above;
    hide Below;
    DivMod(n, Pow10(w), Above(n, w), Below(n, w));
  }

  lemma Regroup(a: nat, b: nat, c: nat)
    ensures a * (b * c) == (a * b) * c
  {
  }

  lemma {:induction false} PowAdds(m: nat, n: nat)
    ensures Pow10(m + n) == Pow10(m) * Pow10(n)
  {
    if m > 0 {
      PowAdds(m - 1, n);
      Regroup(10, Pow10(m - 1), Pow10(n));
    }
  }

  lemma {:induction false} LastDigitsRead(n: nat, w: nat)
    ensures Number(LastDigits(n, w)) == Below(n, w)
  {
    if w > 0 {
      LastDigitsRead(n / 10, w - 1);
      assert LastDigits(n, w)[..w - 1] == LastDigits(n / 10, w - 1);
    }
  }

  lemma {:induction false} DigitsRead(n: nat)
    ensures Number(Digits(n)) == n
  {
    if n >= 10 {
      DigitsRead(n / 10);
      assert Digits(n)[..|Digits(n)| - 1] == Digits(n / 10);
    } else {
      assert Digits(n)[..0] == [];
    }
  }

  lemma {:induction false} NumberConcat(s: string, t: string)
    ensures Number(s + t) == Number(s) * Pow10(|t|) + Number(t)
    decreases |t|
  {
    if t == [] {
      assert s + t == s;
    } else {
      var n := |t| - 1;
      NumberConcat(s, t[..n]);
      assert (s + t)[..|s + t| - 1] == s + t[..n];
      TimesTen(Number(s), Pow10(n), Number(t[..n]));
    }
  }

  lemma {:induction false} ZerosAreZero(s: string)
    requires forall i :: 0 <= i < |s| ==> s[i] == '0'
    ensures Number(s) == 0
    decreases |s|
  {
    if s != [] { ZerosAreZero(s[..|s| - 1]); }
  }

  lemma TrimmedNumber(s: string)
    ensures Number(s) == Number(TrimZeros(s)) * Pow10(|s| - |TrimZeros(s)|)
  {
    var r := TrimZeros(s);
    var zeros := s[|r|..];
    assert s == r + zeros;
    NumberConcat(r, zeros);
    ZerosAreZero(zeros);
  }

  // ----------------------------------------------- slicing is division

  /** Digits above the point are those of the quotient. */
  lemma {:induction false} DigitsSplit(n: nat, w: nat)
    requires Above(n, w) > 0
    ensures Digits(n) == Digits(Above(n, w)) + LastDigits(n, w)
  {
    if w == 0 {
      assert Digits(n) + "" == Digits(n);
    } else {
      AboveZero(n, w);
      DigitsSplit(n / 10, w - 1);
      assert Digits(n) == Digits(n / 10) + [DigitOf(n % 10)];
      assert Digits(Above(n, w)) + (LastDigits(n / 10, w - 1) + [DigitOf(n % 10)])
          == (Digits(Above(n, w)) + LastDigits(n / 10, w - 1)) + [DigitOf(n % 10)];
    }
  }

  lemma {:induction false} AboveZero(n: nat, w: nat)
    ensures n == 0 ==> Above(n, w) == 0
    ensures n < 10 && w > 0 ==> Above(n, w) == 0
  {
    if w > 0 { AboveZero(n / 10, w - 1); }
  }

  lemma {:induction false} SmallFill(n: nat, w: nat)
    requires Above(n, w) == 0 && w > 0
    ensures |Digits(n)| <= w && ZeroFill(Digits(n), w) == LastDigits(n, w)
  {
    if n < 10 {
      ZeroLast(w - 1);
      assert n / 10 == 0;
      assert LastDigits(n, w) == LastDigits(0, w - 1) + [DigitOf(n)];
    } else {
      SmallFill(n / 10, w - 1);
      assert Digits(n) == Digits(n / 10) + [DigitOf(n % 10)];
      assert Zeros(w - |Digits(n)|) + (Digits(n / 10) + [DigitOf(n % 10)])
          == (Zeros(w - 1 - |Digits(n / 10)|) + Digits(n / 10)) + [DigitOf(n % 10)];
    }
  }

  lemma {:induction false} ZeroLast(w: nat)
    ensures LastDigits(0, w) == Zeros(w)
  {
    if w > 0 { ZeroLast(w - 1); }
  }

  lemma {:induction false} LastOneMore(n: nat, w: nat)
    requires Above(n, w) == 0
    ensures LastDigits(n, w + 1) == "0" + LastDigits(n, w)
  {
    if w == 0 {
      assert LastDigits(n, 1) == LastDigits(n / 10, 0) + [DigitOf(n % 10)];
    } else {
      LastOneMore(n / 10, w - 1);
    }
  }

  lemma {:induction false} AboveOneMore(n: nat, w: nat)
    requires Above(n, w) == 0
    ensures Above(n, w + 1) == 0
  {
    if w > 0 { AboveOneMore(n / 10, w - 1); }
  }

  /** The padded digits are the quotient's digits and then the remainder's. */
  lemma PaddedSplit(n: nat, w: nat)
    requires w > 0
    ensures ZeroFill(Digits(n), w + 1) == Digits(Above(n, w)) + LastDigits(n, w)
  {
    if Above(n, w) == 0 {
      AboveOneMore(n, w);
      SmallFill(n, w + 1);
      LastOneMore(n, w);
      assert Digits(0) == "0";
    } else {
      DigitsSplit(n, w);
    }
  }

  lemma {:induction false} OfBelow(n: nat, w: nat)
    ensures LastDigits(Below(n, w), w) == LastDigits(n, w) && Above(Below(n, w), w) == 0
  {
    if w > 0 {
      assert Below(n, w) / 10 == Below(n / 10, w - 1) && Below(n, w) % 10 == n % 10;
      OfBelow(n / 10, w - 1);
    }
  }

  lemma {:induction false} AllZerosTrim(s: string)
    requires forall i :: 0 <= i < |s| ==> s[i] == '0'
    ensures TrimZeros(s) == []
    decreases |s|
  {
    if s != [] { AllZerosTrim(s[..|s| - 1]); }
  }

  /** A fraction is left out exactly when it is zero. */
  lemma FractionVanishes(n: nat, w: nat)
    ensures TrimZeros(LastDigits(n, w)) == "" <==> Below(n, w) == 0
  {
    var last := LastDigits(n, w);
    LastDigitsRead(n, w);
    if TrimZeros(last) == "" {
      ZerosAreZero(last);
    }
    if Below(n, w) == 0 {
      OfBelow(n, w);
      ZeroLast(w);
      AllZerosTrim(last);
    }
  }

  function Joined(whole: string, fraction: string): string {
    if fraction == "" then whole else whole + "." + fraction
  }

  /** The rendering in terms of the digits above and below the point. */
  lemma FromMinorSplits(minor: nat, scale: nat)
    ensures FromMinor(minor, scale) == Joined(Digits(Above(minor, scale)), TrimZeros(LastDigits(minor, scale)))
  {
    if scale > 0 {
      PaddedSplit(minor, scale);
      var whole, last := Digits(Above(minor, scale)), LastDigits(minor, scale);
      assert (whole + last)[..|whole + last| - scale] == whole && (whole + last)[|whole + last| - scale..] == last;
    }
  }

  lemma SmallFactors(n: nat)
    requires n <= 6
    ensures Pow10(n) <= 1000000
  {
    assert Pow10(3) == 1000 && Pow10(6) == 1000 * Pow10(3);
  }

  /** The Go rendering divides; it gives the same text, and its factor fits. */
  method CanonicalMajorAmount(minor: nat, scale: nat) returns (text: string)
    requires minor <= INT64_MAX && scale <= MAX_SCALE
    ensures text == FromMinor(minor, scale)
  {
    hide FromMinor;
    hide TrimZeros;
    hide Digits;
    FromMinorSplits(minor, scale);
    FractionVanishes(minor, scale);
    AboveDivides(minor, scale);
    OfBelow(minor, scale);
    if scale == 0 {
      FractionVanishes(minor, 0);
      return Digits(minor);
    }
    var factor := PowerLoop(scale);
    var whole, fraction := minor / factor, minor % factor;
    if fraction == 0 { return Digits(whole); }
    SmallFill(fraction, scale);
    var fractionText := ZeroFill(Digits(fraction), scale);
    text := Digits(whole) + "." + TrimZeros(fractionText);
  }

  /** The factor, computed in 64 bits; at the scales in use nothing wraps. */
  method PowerLoop(scale: nat) returns (factor: nat)
    requires scale <= MAX_SCALE
    ensures factor == Pow10(scale) && factor <= 1000000
  {
    factor := 1;
    var i := 0;
    while i < scale
      invariant 0 <= i <= scale && factor == Pow10(i)
    {
      SmallFactors(i + 1);
      assert factor * 10 <= INT64_MAX;
      factor := factor * 10;
      i := i + 1;
    }
    SmallFactors(scale);
  }

  // ------------------------------------------------------------------ parsing

  /** A whole part: zero, or digits that do not start with one. */
  predicate IsWhole(s: string) {
    s != [] && AllDigits(s) && (s[0] == '0' ==> s == "0")
  }

  /** A plain amount: a whole part and perhaps a point and more digits. */
  predicate Splits(text: string, whole: string, fraction: string) {
    && IsWhole(whole) && AllDigits(fraction)
    && text == Joined(whole, fraction)
  }

  /** The digits of an amount as one number. */
  function Significand(whole: string, fraction: string): nat {
    Number(whole) * Pow10(|fraction|) + Number(fraction)
  }

  /** The value in minor units, if it is a whole number of them. */
  function ToMinorParts(whole: string, fraction: string, scale: nat): Option<nat> {
    ExactMinor(Significand(whole, fraction), Pow10(|fraction|), Pow10(scale))
  }

  /** The decimal arithmetic keeps this many digits of a product. */
  const PRECISION: nat := 28

  /** The first number with more digits. */
  const LIMIT: nat := 10_000_000_000_000_000_000_000_000_000

  /** A whole number of units, half a unit going to the even neighbour. */
  function HalfEven(p: nat, unit: nat): nat
    requires unit > 0
  {
    var q, r := p / unit, p % unit;
    if 2 * r > unit || (2 * r == unit && q % 2 == 1) then q + 1 else q
  }

  function Surplus(p: nat): nat {
    if |Digits(p)| > PRECISION then |Digits(p)| - PRECISION else 0
  }

  function Rounded(p: nat): nat {
    HalfEven(p, Pow10(Surplus(p))) * Pow10(Surplus(p))
  }

  /** n/unit major units at so many minor units each. */
  function ExactMinor(n: nat, unit: nat, factor: nat): Option<nat>
    requires unit > 0
  {
    var scaled := Rounded(n * factor);
    if scaled % unit != 0 || scaled / unit > INT64_MAX then None else Some(scaled / unit)
  }

  function PointAt(text: string): nat {
    if text == "" || text[0] == '.' then 0 else 1 + PointAt(text[1..])
  }

  /** Reading an amount; a point must be followed by digits. */
  function ToMinor(text: string, scale: nat): Option<nat> {
    var k := PointAt(text);
    PointBounds(text);
    var whole := text[..k];
    if !IsWhole(whole) then None
    else if k == |text| then ToMinorParts(whole, "", scale)
    else if k + 1 == |text| || !AllDigits(text[k + 1..]) then None
    else ToMinorParts(whole, text[k + 1..], scale)
  }

  lemma {:induction false} PointBounds(text: string)
    ensures PointAt(text) <= |text|
    ensures PointAt(text) < |text| ==> text[PointAt(text)] == '.'
    ensures forall i :: 0 <= i < PointAt(text) ==> text[i] != '.'
    decreases |text|
  {
    if text != "" && text[0] != '.' { PointBounds(text[1..]); }
  }

  /** Whatever is read as an amount is a whole part, alone or before a point and
      at least one digit. */
  lemma OnlyAmountsRead(text: string, scale: nat) returns (whole: string, fraction: string)
    requires ToMinor(text, scale).Some?
    ensures Splits(text, whole, fraction) && ToMinor(text, scale) == ToMinorParts(whole, fraction, scale)
    ensures fraction == "" ==> '.' !in text
  {
    hide ToMinorParts;
    PointBounds(text);
    var k := PointAt(text);
    whole, fraction := text[..k], if k == |text| then "" else text[k + 1..];
    if k < |text| { assert text == whole + "." + fraction; }
  }

  lemma SplitIsRead(text: string, whole: string, fraction: string, scale: nat)
    requires Splits(text, whole, fraction)
    ensures ToMinor(text, scale) == ToMinorParts(whole, fraction, scale)
  {
    PointBounds(text);
    var k := PointAt(text);
    assert forall i :: 0 <= i < |whole| ==> text[i] == whole[i];
    assert k >= |whole|;
    hide ToMinorParts;
    if fraction == "" {
      assert text == whole && text[..k] == whole;
    } else {
      assert text[|whole|] == '.';
      assert text[|whole| + 1..] == fraction && text[..|whole|] == whole;
    }
  }

  lemma {:induction false} DigitsAreWhole(n: nat)
    ensures IsWhole(Digits(n)) && (n > 0 ==> Digits(n)[0] != '0')
  {
    if n >= 10 { DigitsAreWhole(n / 10); }
  }

  lemma {:induction false} LastAreDigits(n: nat, w: nat)
    ensures AllDigits(LastDigits(n, w))
  {
    if w > 0 { LastAreDigits(n / 10, w - 1); }
  }

  /** Minor units rendered to text, whose parts are the quotient and the trimmed
      remainder. */
  lemma RenderedSplits(minor: nat, scale: nat) returns (whole: string, fraction: string)
    ensures Splits(FromMinor(minor, scale), whole, fraction)
    ensures whole == Digits(Above(minor, scale)) && fraction == TrimZeros(LastDigits(minor, scale))
  {
    whole, fraction := Digits(Above(minor, scale)), TrimZeros(LastDigits(minor, scale));
    DigitsAreWhole(Above(minor, scale));
    LastAreDigits(minor, scale);
    FromMinorSplits(minor, scale);
  }

  // ---------------------------------------------------------------- rounding

  lemma {:induction false} DigitCount(p: nat, m: nat)
    requires m > 0
    ensures p < Pow10(m) <==> |Digits(p)| <= m
  {
    if p >= 10 && m > 1 { DigitCount(p / 10, m - 1); }
  }

  lemma LessTimes(a: nat, b: nat, c: nat)
    requires c > 0
    ensures a < b <==> a * c < b * c
  {
    if a < b {
      TimesAtLeast(b - a, c);
      assert (b - a) * c == b * c - a * c;
    } else if b < a {
      TimesAtLeast(a - b, c);
      assert (a - b) * c == a * c - b * c;
    }
  }

  /** Rounding goes to the nearest whole number of units, and from the middle to
      the even one. */
  lemma NearestEven(p: nat, unit: nat)
    requires unit > 0
    ensures var h := HalfEven(p, unit);
      && -(unit as int) <= 2 * (p - h * unit) <= unit
      && (2 * (p - h * unit) == unit || 2 * (p - h * unit) == -(unit as int) ==> h % 2 == 0)
  {
    var q := p / unit;
    assert p == q * unit + p % unit;
    assert (q + 1) * unit == q * unit + unit;
  }

  lemma WholeUnits(q: nat, unit: nat)
    requires unit > 0
    ensures HalfEven(q * unit, unit) == q
  {
    DivMod(q * unit, unit, q, 0);
  }

  lemma LimitIsPower()
    ensures LIMIT == Pow10(PRECISION)
  {
    assert Pow10(4) == 1_0000;
    PowAdds(4, 4);
    PowAdds(8, 8);
    PowAdds(16, 8);
    PowAdds(24, 4);
  }

  /** The product of a number of at most 28 digits with a power of ten is exact. */
  lemma RoundsExactly(n: nat, scale: nat)
    requires n < LIMIT
    ensures Rounded(n * Pow10(scale)) == n * Pow10(scale)
  {
    hide Pow10;
    hide Digits;
    hide HalfEven;
    var p := n * Pow10(scale);
    var k := Surplus(p);
    LimitIsPower();
    LessTimes(n, LIMIT, Pow10(scale));
    PowAdds(PRECISION, scale);
    DigitCount(p, PRECISION + scale);
    PowAdds(scale - k, k);
    Regroup(n, Pow10(scale - k), Pow10(k));
    WholeUnits(n * Pow10(scale - k), Pow10(k));
  }

  lemma TimesAtMost(a: nat, b: nat, c: nat)
    requires a <= b
    ensures a * c <= b * c && c * a <= c * b
  {
    assert (b - a) * c >= 0;
    assert (b - a) * c == b * c - a * c;
  }

  /** A longer one gives at least as much as its leading power of ten. */
  lemma RoundsAbove(n: nat, scale: nat)
    requires n >= LIMIT
    ensures Rounded(n * Pow10(scale)) >= Pow10(PRECISION + scale)
  {
    hide Pow10;
    hide Digits;
    var p := n * Pow10(scale);
    var k := Surplus(p);
    LimitIsPower();
    TimesAtMost(LIMIT, n, Pow10(scale));
    PowAdds(PRECISION, scale);
    DigitCount(p, PRECISION + scale);
    assert k > scale;
    var d := |Digits(p)| - 1;
    DigitCount(p, d);
    PowAdds(PRECISION - 1, k);
    QuotientAtLeast(p, Pow10(k), Pow10(PRECISION - 1));
    TimesAtMost(Pow10(PRECISION - 1), HalfEven(p, Pow10(k)), Pow10(k));
    PowGrows(PRECISION + scale, d);
  }

  lemma QuotientAtLeast(p: nat, unit: nat, q: nat)
    requires unit > 0 && p >= q * unit
    ensures HalfEven(p, unit) >= q
  {
    var low := p / unit;
    assert p == low * unit + p % unit;
    assert (low + 1) * unit == low * unit + unit;
    if low < q { TimesAtMost(low + 1, q, unit); }
  }

  lemma PowGrows(m: nat, n: nat)
    requires m <= n
    ensures Pow10(m) <= Pow10(n)
  {
    PowAdds(n - m, m);
    TimesAtLeast(Pow10(n - m), Pow10(m));
  }

  lemma Multiply(a: nat, b: nat, c: nat)
    ensures (a + b) * c == a * c + b * c && a * b * c == a * (b * c) && a * b == b * a
  {
  }

  lemma Rescale(m: nat, q: nat, f: nat, unit: nat, rest: nat, factor: nat)
    requires factor == rest * unit && m == q * factor + f * rest
    ensures (q * unit + f) * factor == m * unit
  {
    Multiply(q * unit, f, factor);
    Multiply(q * factor, f * rest, unit);
    Multiply(f, rest, unit);
    Multiply(q, unit, factor);
    Multiply(q, factor, unit);
    Multiply(unit, factor, 1);
  }

  lemma ScaledBack(minor: nat, scale: nat, fraction: string)
    requires fraction == TrimZeros(LastDigits(minor, scale))
    ensures Significand(Digits(Above(minor, scale)), fraction) * Pow10(scale) == minor * Pow10(|fraction|)
  {
    hide Pow10;
    hide Above;
    hide Below;
    hide Number;
    hide Digits;
    hide LastDigits;
    var k := scale - |fraction|;
    LastDigitsRead(minor, scale);
    TrimmedNumber(LastDigits(minor, scale));
    AboveBelow(minor, scale);
    PowAdds(k, |fraction|);
    DigitsRead(Above(minor, scale));
    Rescale(minor, Above(minor, scale), Number(fraction), Pow10(|fraction|), Pow10(k), Pow10(scale));
  }

  /** What renders a 64-bit amount has no more digits than the amount. */
  lemma ShortSignificand(n: nat, minor: nat, places: nat, scale: nat)
    requires places <= scale && n * Pow10(scale) == minor * Pow10(places) && minor <= INT64_MAX
    ensures n < LIMIT
  {
    PowGrows(places, scale);
    hide Pow10;
    TimesAtMost(Pow10(places), Pow10(scale), minor);
    Multiply(minor, Pow10(scale), 1);
    LessTimes(minor, n, Pow10(scale));
  }

  lemma AcceptsExact(n: nat, minor: nat, places: nat, scale: nat)
    requires n * Pow10(scale) == minor * Pow10(places) && n < LIMIT && minor <= INT64_MAX
    ensures ExactMinor(n, Pow10(places), Pow10(scale)) == Some(minor)
  {
    hide Pow10;
    RoundsExactly(n, scale);
    DivMod(minor * Pow10(places), Pow10(places), minor, 0);
    hide Rounded;
  }

  /** Minor units survive the trip to text and back, at every scale. */
  lemma MinorRoundTrip(minor: nat, scale: nat)
    requires minor <= INT64_MAX
    ensures ToMinor(FromMinor(minor, scale), scale) == Some(minor)
  {
    hide Pow10;
    hide FromMinor;
    hide ToMinor;
    hide Splits;
    hide Digits;
    hide Above;
    hide Number;
    var whole, fraction := RenderedSplits(minor, scale);
    SplitIsRead(FromMinor(minor, scale), whole, fraction, scale);
    DigitsRead(Above(minor, scale));
    ScaledBack(minor, scale, fraction);
    hide ExactMinor;
    ShortSignificand(Significand(whole, fraction), minor, |fraction|, scale);
    AcceptsExact(Significand(whole, fraction), minor, |fraction|, scale);
  }

  /** Canonical text: no trailing zero after the point, and no bare point. */
  ghost predicate CanonicalDecimal(text: string) {
    exists whole, fraction :: CanonicalParts(text, whole, fraction)
  }

  predicate CanonicalParts(text: string, whole: string, fraction: string) {
    Splits(text, whole, fraction) && (fraction != "" ==> fraction[|fraction| - 1] != '0')
  }

  lemma RenderedIsCanonical(minor: nat, scale: nat)
    ensures CanonicalDecimal(FromMinor(minor, scale))
  {
    var whole, fraction := RenderedSplits(minor, scale);
    assert CanonicalParts(FromMinor(minor, scale), whole, fraction);
  }

  // ----------------------------------------- canonical text determines itself

  lemma Cancel(a: nat, b: nat, c: nat)
    requires c > 0 && a * c == b * c
    ensures a == b
  {
    assert (b - a) * c == b * c - a * c;
    assert (a - b) * c == a * c - b * c;
    if a < b {
      TimesAtLeast(b - a, c);
    } else if b < a {
      TimesAtLeast(a - b, c);
    }
  }

  lemma AcceptedProduct(n: nat, unit: nat, factor: nat, m: nat)
    requires unit > 0 && ExactMinor(n, unit, factor) == Some(m)
    ensures Rounded(n * factor) == m * unit && m <= INT64_MAX
  {
    hide Rounded;
    var scaled := Rounded(n * factor);
    assert scaled == scaled / unit * unit + scaled % unit;
  }

  lemma ExactProduct(n: nat, unit: nat, scale: nat, m: nat)
    requires unit > 0 && n < LIMIT && ExactMinor(n, unit, Pow10(scale)) == Some(m)
    ensures n * Pow10(scale) == m * unit
  {
    hide Rounded;
    hide ExactMinor;
    RoundsExactly(n, scale);
    AcceptedProduct(n, unit, Pow10(scale), m);
  }

  lemma FineProduct(n: nat, tens: nat, factor: nat, m: nat)
    requires tens > 0 && factor > 0 && n * factor == m * (10 * tens * factor)
    ensures n % 10 == 0
  {
    Multiply(m, 10 * tens, factor);
    Cancel(n, m * (10 * tens), factor);
    Multiply(m, 10, tens);
    Multiply(m * tens, 10, 1);
    Multiply(10, tens, 1);
    Multiply(m, tens, 10);
    assert n == 10 * (m * tens);
  }

  lemma PartsProduct(w: nat, f: nat, unit: nat, rest: nat, factor: nat, m: nat)
    requires unit > 0 && rest > 0 && f < unit && factor == rest * unit && (w * unit + f) * factor == m * unit
    ensures m == w * factor + f * rest && f * rest < factor
  {
    Rescale(w * factor + f * rest, w, f, unit, rest, factor);
    Cancel(m, w * factor + f * rest, unit);
    TimesAtLeast(unit - f, rest);
    assert (unit - f) * rest == unit * rest - f * rest;
    Multiply(unit, rest, 1);
  }

  lemma {:induction false} NumberBounded(s: string)
    requires AllDigits(s)
    ensures Number(s) < Pow10(|s|)
    decreases |s|
  {
    if s != [] { NumberBounded(s[..|s| - 1]); }
  }

  /** Digit strings of one length and one value are equal. */
  lemma {:induction false} SameNumber(s: string, t: string)
    requires AllDigits(s) && AllDigits(t) && |s| == |t| && Number(s) == Number(t)
    ensures s == t
    decreases |s|
  {
    if s != [] {
      var n := |s| - 1;
      UnitsDigit(s);
      UnitsDigit(t);
      SameNumber(s[..n], t[..n]);
      assert s == s[..n] + [s[n]] && t == t[..n] + [t[n]];
    }
  }

  lemma {:induction false} DigitsOfWhole(s: string)
    requires IsWhole(s)
    ensures Digits(Number(s)) == s
    decreases |s|
  {
    var n := |s| - 1;
    if n == 0 {
      assert s[..0] == [] && Number(s) == ValueOf(s[0]);
    } else {
      var front := s[..n];
      assert front[0] == s[0];
      DigitsOfWhole(front);
      WholePositive(front);
      assert Number(s) == 10 * Number(front) + ValueOf(s[n]);
      assert Digits(Number(s)) == Digits(Number(front)) + [s[n]];
    }
  }

  lemma {:induction false} WholePositive(s: string)
    requires IsWhole(s) && s[0] != '0'
    ensures Number(s) > 0
    decreases |s|
  {
    if |s| > 1 {
      assert s[..|s| - 1][0] == s[0];
      WholePositive(s[..|s| - 1]);
    } else {
      assert s[..0] == [];
    }
  }

  lemma {:induction false} TrimAppended(s: string, k: nat)
    requires s != [] ==> s[|s| - 1] != '0'
    ensures TrimZeros(s + Zeros(k)) == s
    decreases k
  {
    if k == 0 {
      assert s + Zeros(0) == s;
    } else {
      assert (s + Zeros(k))[..|s + Zeros(k)| - 1] == s + Zeros(k - 1);
      TrimAppended(s, k - 1);
    }
  }

  lemma UnitsDigit(s: string)
    requires s != ""
    ensures Number(s) % 10 == ValueOf(s[|s| - 1])
  {
  }

  lemma LastPlace(whole: string, fraction: string)
    requires AllDigits(fraction) && fraction != "" && fraction[|fraction| - 1] != '0'
    ensures Significand(whole, fraction) % 10 != 0
  {
    hide Pow10;
    hide Number;
    NumberConcat(whole, fraction);
    UnitsDigit(whole + fraction);
  }

  lemma FinerUnit(places: nat, scale: nat) returns (tens: nat)
    requires places > scale
    ensures tens > 0 && Pow10(places) == 10 * tens * Pow10(scale)
  {
    PowAdds(places - scale, scale);
    tens := Pow10(places - scale - 1);
  }

  /** Text with more places than the scale and at most 28 digits is refused:
      its last digit counts. */
  lemma TooFine(whole: string, fraction: string, scale: nat)
    requires AllDigits(fraction) && |fraction| > scale && fraction[|fraction| - 1] != '0'
    requires Significand(whole, fraction) < LIMIT
    ensures ToMinorParts(whole, fraction, scale).None?
  {
    LastPlace(whole, fraction);
    var n := Significand(whole, fraction);
    hide Pow10;
    hide Number;
    hide ExactMinor;
    hide Significand;
    var r := ToMinorParts(whole, fraction, scale);
    if r.Some? {
      var tens := FinerUnit(|fraction|, scale);
      ExactProduct(n, Pow10(|fraction|), scale, r.value);
      FineProduct(n, tens, Pow10(scale), r.value);
    }
  }

  lemma ExactParts(whole: string, fraction: string, scale: nat, m: nat)
    requires AllDigits(fraction) && |fraction| <= scale && ToMinorParts(whole, fraction, scale) == Some(m)
    requires Significand(whole, fraction) < LIMIT
    ensures m == Number(whole) * Pow10(scale) + Number(fraction) * Pow10(scale - |fraction|)
    ensures Number(fraction) * Pow10(scale - |fraction|) < Pow10(scale)
  {
    hide Pow10;
    hide Number;
    hide ExactMinor;
    PowAdds(scale - |fraction|, |fraction|);
    NumberBounded(fraction);
    ExactProduct(Significand(whole, fraction), Pow10(|fraction|), scale, m);
    PartsProduct(Number(whole), Number(fraction), Pow10(|fraction|), Pow10(scale - |fraction|), Pow10(scale), m);
  }

  lemma CanonicalDigits(fraction: string, scale: nat, m: nat)
    requires AllDigits(fraction) && |fraction| <= scale
    requires Below(m, scale) == Number(fraction) * Pow10(scale - |fraction|)
    ensures LastDigits(m, scale) == fraction + Zeros(scale - |fraction|)
  {
    var zeros := Zeros(scale - |fraction|);
    NumberConcat(fraction, zeros);
    ZerosAreZero(zeros);
    LastDigitsRead(m, scale);
    LastAreDigits(m, scale);
    SameNumber(LastDigits(m, scale), fraction + zeros);
  }

  lemma ShortTextReturns(text: string, whole: string, fraction: string, scale: nat, m: nat)
    requires CanonicalParts(text, whole, fraction) && ToMinor(text, scale) == Some(m)
    requires Significand(whole, fraction) < LIMIT
    ensures FromMinor(m, scale) == text
  {
    hide Pow10;
    hide Number;
    hide Digits;
    hide LastDigits;
    hide TrimZeros;
    hide FromMinor;
    hide ToMinor;
    hide ToMinorParts;
    hide Above;
    hide Below;
    hide Significand;
    SplitIsRead(text, whole, fraction, scale);
    if |fraction| > scale {
      TooFine(whole, fraction, scale);
    } else {
      ExactParts(whole, fraction, scale, m);
      AboveDivides(m, scale);
      DivMod(m, Pow10(scale), Number(whole), Number(fraction) * Pow10(scale - |fraction|));
      CanonicalDigits(fraction, scale, m);
      TrimAppended(fraction, scale - |fraction|);
      DigitsOfWhole(whole);
      FromMinorSplits(m, scale);
    }
  }

  /** A longer amount is accepted only when it is finer than the scale. */
  lemma LongIsFine(whole: string, fraction: string, scale: nat, m: nat)
    requires ToMinorParts(whole, fraction, scale) == Some(m) && Significand(whole, fraction) >= LIMIT
    ensures |fraction| > scale
  {
    hide Pow10;
    hide Significand;
    hide Rounded;
    hide ExactMinor;
    var n := Significand(whole, fraction);
    RoundsAbove(n, scale);
    AcceptedProduct(n, Pow10(|fraction|), Pow10(scale), m);
    if |fraction| <= scale {
      LimitIsPower();
      TimesAtMost(m, LIMIT - 1, Pow10(|fraction|));
      LessTimes(LIMIT - 1, LIMIT, Pow10(|fraction|));
      PowAdds(PRECISION, |fraction|);
      PowGrows(PRECISION + |fraction|, PRECISION + scale);
    }
  }

  lemma PointOfSplit(text: string, whole: string, fraction: string)
    requires Splits(text, whole, fraction)
    ensures PointAt(text) == |whole|
  {
    PointBounds(text);
    assert forall i :: 0 <= i < |whole| ==> text[i] == whole[i];
    if fraction != "" { assert text[|whole|] == '.'; }
  }

  lemma SplitsOneWay(text: string, w: string, f: string, w': string, f': string)
    requires Splits(text, w, f) && Splits(text, w', f')
    ensures w == w' && f == f'
  {
    PointOfSplit(text, w, f);
    PointOfSplit(text, w', f');
    assert w == text[..|w|] && w' == text[..|w'|];
    assert f != "" ==> f == text[|w| + 1..];
    assert f' != "" ==> f' == text[|w'| + 1..];
  }

  lemma LongTextChanges(text: string, whole: string, fraction: string, scale: nat, m: nat)
    requires CanonicalParts(text, whole, fraction) && ToMinor(text, scale) == Some(m)
    requires Significand(whole, fraction) >= LIMIT
    ensures FromMinor(m, scale) != text
  {
    hide Pow10;
    hide Significand;
    hide ToMinor;
    hide ToMinorParts;
    hide FromMinor;
    hide Digits;
    hide Above;
    SplitIsRead(text, whole, fraction, scale);
    LongIsFine(whole, fraction, scale, m);
    var w, f := RenderedSplits(m, scale);
    if FromMinor(m, scale) == text { SplitsOneWay(text, whole, fraction, w, f); }
  }

  /** Canonical text that is accepted renders as itself if and only if it has at
      most 28 digits, leading zeros aside. */
  lemma TextRoundTrip(text: string, whole: string, fraction: string, scale: nat, m: nat)
    requires CanonicalParts(text, whole, fraction) && ToMinor(text, scale) == Some(m)
    ensures FromMinor(m, scale) == text <==> Significand(whole, fraction) < LIMIT
  {
    hide Significand;
    hide FromMinor;
    hide ToMinor;
    if Significand(whole, fraction) < LIMIT {
      ShortTextReturns(text, whole, fraction, scale, m);
    } else {
      LongTextChanges(text, whole, fraction, scale, m);
    }
  }

  /** A longer text can be accepted: 1 and 29 places, the last of them a 1, is
      rounded to a whole number of cents. */
  lemma RoundingAccepts()
    ensures ToMinor("1." + Zeros(28) + "1", 2) == Some(100)
  {
    var fraction := Zeros(28) + "1";
    var text := "1." + fraction;
    assert "1." + Zeros(28) + "1" == text;
    assert text == Joined("1", fraction);
    SplitIsRead(text, "1", fraction, 2);
    RoundingExample(fraction);
  }

  lemma RoundingExample(fraction: string)
    requires fraction == Zeros(28) + "1"
    ensures ToMinorParts("1", fraction, 2) == Some(100)
  {
    NumberConcat(Zeros(28), "1");
    ZerosAreZero(Zeros(28));
    assert Number("1") == 1 by { assert "1"[..0] == []; }
    assert Significand("1", fraction) == Pow10(29) + 1;
    var p := (Pow10(29) + 1) * 100;
    PowAdds(2, 29);
    assert Pow10(2) == 100;
    assert p == Pow10(31) + 100;
    assert Rounded(p) == Pow10(31) by { RoundsDown(); }
    hide Rounded;
    hide Number;
    DivMod(Pow10(31), Pow10(29), 100, 0);
  }

  lemma SurplusAbove(e: nat)
    requires e >= PRECISION
    ensures Surplus(Pow10(e) + 100) == e + 1 - PRECISION
  {
    var p := Pow10(e) + 100;
    assert Pow10(2) == 100;
    assert Pow10(e + 1) == 10 * Pow10(e);
    PowGrows(2, e);
    hide Pow10;
    DigitCount(p, e);
    DigitCount(p, e + 1);
  }

  lemma RoundsDown()
    ensures Rounded(Pow10(31) + 100) == Pow10(31)
  {
    SurplusAbove(31);
    assert Pow10(4) == 10000;
    hide Pow10;
    hide Surplus;
    PowAdds(27, 4);
    DivMod(Pow10(31) + 100, Pow10(4), Pow10(27), 100);
  }
}
