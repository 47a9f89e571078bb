/** Gold amounts in text (arena_game/money.py, arena_game/hosted_coordinator.py) and the wire's
    fixed-point parser (arena_agent_contracts/actions.py). */
module Money {
  import opened Wrappers

  const GOLD_SCALE: nat := 1000000
  const MAX_GOLD_ATOMIC: nat := Pow10(38) - 1
  const MAX_DECIMAL_DIGITS: nat := 38
  const MAX_DECIMAL_PLACES: nat := 18

  /** The significant digits a product keeps. */
  const PRECISION: nat := 28

  function Pow10(k: nat): (p: nat)
    ensures p >= 1
  {
    if k == 0 then 1 else 10 * Pow10(k - 1)
  }

  /** A non-negative decimal: coefficient / 10^places. */
  datatype Dec = Dec(coefficient: nat, places: nat)

  datatype MoneyError = NotFixedPoint | TooManyDigits | TooManyPlaces | MoreThanSixPlaces | OutsideBound

  // ----------------------------------------------------------- digit strings

  predicate IsDigit(c: char) {
    '0' <= c <= '9'
  }

  function DigitValue(c: char): nat
    requires IsDigit(c)
  {
    (c - '0') as nat
  }

  function Digit(d: nat): (c: char)
    requires d < 10
    ensures IsDigit(c) && DigitValue(c) == d
  {
    '0' + d as char
  }

  predicate AllDigits(s: string) {
    forall i | 0 <= i < |s| :: IsDigit(s[i])
  }

  function ReadNat(s: string): nat
    requires AllDigits(s)
  {
    if s == [] then 0 else ReadNat(s[..|s| - 1]) * 10 + DigitValue(s[|s| - 1])
  }

  /** How str() writes a number. */
  function Str(n: nat): string {
    if n < 10 then [Digit(n)] else Str(n / 10) + [Digit(n % 10)]
  }

  /** The last k digits, with leading zeros. */
  function Padded(n: nat, k: nat): string {
    if k == 0 then [] else Padded(n / 10, k - 1) + [Digit(n % 10)]
  }

  // ---------------------------------------------------------------- printing

  function GoldDecimal(atomic: nat): string {
    Str(atomic / GOLD_SCALE) + "." + Padded(atomic % GOLD_SCALE, 6)
  }

  function WithoutTrailingZeros(s: string): string {
    if s != [] && s[|s| - 1] == '0' then WithoutTrailingZeros(s[..|s| - 1]) else s
  }

  function FormatGold(atomic: nat): Result<string, MoneyError> {
    if atomic > MAX_GOLD_ATOMIC then Err(OutsideBound)
    else if atomic % GOLD_SCALE == 0 then Ok(Str(atomic / GOLD_SCALE))
    else Ok(WithoutTrailingZeros(GoldDecimal(atomic)))
  }

  // ----------------------------------------------------------------- parsing

  /** The first point of a text, or its end. */
  function PointAt(s: string): (n: nat)
    ensures n <= |s| && (n < |s| ==> s[n] == '.') && forall i | 0 <= i < n :: s[i] != '.'
  {
    if s == [] || s[0] == '.' then 0 else 1 + PointAt(s[1..])
  }

  predicate CanonicalWhole(s: string) {
    s != [] && AllDigits(s) && (s[0] == '0' ==> |s| == 1)
  }

  function ParseFixedDecimal(s: string): Result<Dec, MoneyError> {
    var n := PointAt(s);
    var whole := s[..n];
    if !CanonicalWhole(whole) then Err(NotFixedPoint)
    else if n == |s| then
      if n > MAX_DECIMAL_DIGITS then Err(TooManyDigits) else Ok(Dec(ReadNat(whole), 0))
    else
      var fraction := s[n + 1..];
      if fraction == [] || !AllDigits(fraction) then Err(NotFixedPoint)
      else if n + |fraction| > MAX_DECIMAL_DIGITS then Err(TooManyDigits)
      else if |fraction| > MAX_DECIMAL_PLACES then Err(TooManyPlaces)
      else
        assert AllDigits(whole + fraction);
        Ok(Dec(ReadNat(whole + fraction), |fraction|))
  }

  // -------------------------------------------------------------------- gold

  function Len(n: nat): nat {
    if n < 10 then 1 else 1 + Len(n / 10)
  }

  /** Half-even rounding to a multiple of u. */
  function RoundTo(x: nat, u: nat): nat
    requires u > 0
  {
    var q, r := x / u, x % u;
    if 2 * r < u || (2 * r == u && q % 2 == 0) then q * u else (q + 1) * u
  }

  /** Rounding to the precision of the decimal context. */
  function Rounded(x: nat): nat {
    if Len(x) <= PRECISION then x else RoundTo(x, Pow10(Len(x) - PRECISION))
  }

  /** gold() of a decimal: scale with rounding, demand a whole number, check the bound. */
  function Gold(d: Dec): Result<nat, MoneyError> {
    var scaled := Rounded(d.coefficient * GOLD_SCALE);
    var unit := Pow10(d.places);
    if scaled % unit != 0 then Err(MoreThanSixPlaces)
    else if scaled / unit > MAX_GOLD_ATOMIC then Err(OutsideBound)
    else Ok(scaled / unit)
  }

  /** Decimals are compared exactly. */
  predicate LessEq(a: Dec, b: Dec) {
    a.coefficient * Pow10(b.places) <= b.coefficient * Pow10(a.places)
  }

  /** Decimals are multiplied with rounding. */
  function Times(d: Dec, n: nat): Dec {
    Dec(Rounded(d.coefficient * n), d.places)
  }

  // ------------------------------------------------------------ digit lemmas

  lemma {:induction false} ReadStr(n: nat)
    ensures AllDigits(Str(n)) && ReadNat(Str(n)) == n && CanonicalWhole(Str(n)) && (n > 0 ==> Str(n)[0] != '0')
    ensures |Str(n)| == Len(n)
  {
    if n >= 10 {
      ReadStr(n / 10);
      assert Str(n)[..|Str(n)| - 1] == Str(n / 10);
    }
  }

  lemma {:induction false} ReadPadded(n: nat, k: nat)
    requires n < Pow10(k)
    ensures AllDigits(Padded(n, k)) && |Padded(n, k)| == k && ReadNat(Padded(n, k)) == n
  {
    if k > 0 {
      ReadPadded(n / 10, k - 1);
      assert Padded(n, k)[..k - 1] == Padded(n / 10, k - 1);
    }
  }

  lemma PowStep(k: nat)
    requires k > 0
    ensures Pow10(k) == 10 * Pow10(k - 1)
  {
  }

  lemma Shift(a: nat, p: nat, b: nat, d: nat)
    ensures (a * p + b) * 10 + d == a * (10 * p) + (b * 10 + d)
  {
  }

  lemma ReadLast(s: string)
    requires s != [] && AllDigits(s)
    ensures AllDigits(s[..|s| - 1]) && ReadNat(s) == ReadNat(s[..|s| - 1]) * 10 + DigitValue(s[|s| - 1])
  {
  }

  lemma {:induction false} ReadConcat(a: string, b: string)
    requires AllDigits(a) && AllDigits(b)
    ensures AllDigits(a + b) && ReadNat(a + b) == ReadNat(a) * Pow10(|b|) + ReadNat(b)
  {
    hide ReadNat, Pow10;
    if b == [] {
      assert a + b == a;
      EmptyReads();
    } else {
      var n := |b| - 1;
      ReadConcat(a, b[..n]);
      assert (a + b)[..|a| + n] == a + b[..n];
      ReadLast(a + b);
      ReadLast(b);
      PowStep(n + 1);
      Shift(ReadNat(a), Pow10(n), ReadNat(b[..n]), DigitValue(b[n]));
    }
  }

  lemma EmptyReads()
    ensures ReadNat([]) == 0 && Pow10(0) == 1
  {
  }

  lemma {:induction false} LenBound(n: nat, k: nat)
    requires n < Pow10(k) && k >= 1
    ensures Len(n) <= k
  {
    if n >= 10 {
      LenBound(n / 10, k - 1);
    }
  }

  /** Stripping zeros of a fraction divides it by a power of ten and stops inside it. */
  lemma {:induction false} StripFraction(head: string, fraction: string) returns (kept: string)
    requires AllDigits(fraction) && ReadNat(fraction) > 0
    ensures WithoutTrailingZeros(head + fraction) == head + kept && 1 <= |kept| <= |fraction| && AllDigits(kept)
    ensures ReadNat(kept) * Pow10(|fraction| - |kept|) == ReadNat(fraction)
  {
    hide ReadNat, Pow10;
    EmptyReads();
    var n := |fraction| - 1;
    assert (head + fraction)[|head| + n] == fraction[n];
    ReadLast(fraction);
    if fraction[n] == '0' {
      assert (head + fraction)[..|head| + n] == head + fraction[..n];
      kept := StripFraction(head, fraction[..n]);
      PowStep(n + 1 - |kept|);
      Shift(ReadNat(kept), Pow10(n - |kept|), 0, 0);
    } else {
      kept := fraction;
    }
  }

  // ---------------------------------------------------- printing then parsing

  lemma {:induction false} PointAfter(whole: string, rest: string)
    requires AllDigits(whole) && (rest == [] || rest[0] == '.')
    ensures PointAt(whole + rest) == |whole|
  {
    if whole == [] {
      assert whole + rest == rest;
    } else {
      assert (whole + rest)[1..] == whole[1..] + rest;
      PointAfter(whole[1..], rest);
    }
  }

  lemma ParseParts(whole: string, fraction: string)
    requires CanonicalWhole(whole) && AllDigits(fraction) && 1 <= |fraction| <= MAX_DECIMAL_PLACES
    requires |whole| + |fraction| <= MAX_DECIMAL_DIGITS
    ensures AllDigits(whole + fraction)
    ensures ParseFixedDecimal(whole + "." + fraction) == Ok(Dec(ReadNat(whole + fraction), |fraction|))
  {
    hide ReadNat;
    var s := whole + "." + fraction;
    assert s == whole + ("." + fraction);
    PointAfter(whole, "." + fraction);
    assert s[..|whole|] == whole && s[|whole| + 1..] == fraction;
  }

  lemma ParseWhole(whole: string)
    requires CanonicalWhole(whole) && |whole| <= MAX_DECIMAL_DIGITS
    ensures ParseFixedDecimal(whole) == Ok(Dec(ReadNat(whole), 0))
  {
    hide ReadNat;
    PointAfter(whole, []);
    assert whole + [] == whole && whole[..|whole|] == whole;
  }

  /** Nothing else is accepted: an accepted text is a whole part, with or without a point and a fraction. */
  lemma ParseAcceptsOnly(s: string) returns (whole: string, fraction: string)
    requires ParseFixedDecimal(s).Ok?
    ensures CanonicalWhole(whole) && AllDigits(fraction) && AllDigits(whole + fraction)
    ensures |whole| + |fraction| <= MAX_DECIMAL_DIGITS && |fraction| <= MAX_DECIMAL_PLACES
    ensures s == if fraction == [] then whole else whole + "." + fraction
    ensures ParseFixedDecimal(s) == Ok(Dec(ReadNat(whole + fraction), |fraction|))
  {
    hide ReadNat;
    var n := PointAt(s);
    whole := s[..n];
    if n == |s| {
      fraction := [];
      assert whole == s && whole + fraction == whole;
    } else {
      fraction := s[n + 1..];
      assert s == whole + "." + fraction;
    }
  }

  lemma ScaleIsPower()
    ensures Pow10(6) == GOLD_SCALE
  {
    assert Pow10(3) == 1000;
  }

  lemma {:induction false} PowAdds(a: nat, b: nat)
    ensures Pow10(a + b) == Pow10(a) * Pow10(b)
  {
    if a > 0 {
      PowAdds(a - 1, b);
    }
  }

  /** The whole part of an amount in the bound has at most 32 digits. */
  lemma WholeFits(atomic: nat)
    requires atomic <= MAX_GOLD_ATOMIC
    ensures |Str(atomic / GOLD_SCALE)| <= 32
  {
    hide Pow10, Str;
    PowAdds(6, 32);
    ScaleIsPower();
    ReadStr(atomic / GOLD_SCALE);
    LenBound(atomic / GOLD_SCALE, 32);
  }

  /** The six-place form of an amount parses to exactly that amount. */
  lemma GoldDecimalParses(atomic: nat)
    requires atomic <= MAX_GOLD_ATOMIC
    ensures ParseFixedDecimal(GoldDecimal(atomic)) == Ok(Dec(atomic, 6))
  {
    hide Pow10, Str, Padded, ReadNat, ParseFixedDecimal;
    var whole, fraction := Str(atomic / GOLD_SCALE), Padded(atomic % GOLD_SCALE, 6);
    ScaleIsPower();
    WholeFits(atomic);
    ReadStr(atomic / GOLD_SCALE);
    ReadPadded(atomic % GOLD_SCALE, 6);
    ReadConcat(whole, fraction);
    ParseParts(whole, fraction);
  }

  /** A decimal in gold stands for that many atomic units. */
  ghost predicate Means(d: Dec, atomic: nat) {
    d.coefficient * GOLD_SCALE == atomic * Pow10(d.places)
  }

  /** The shortest form of an amount parses to exactly that amount. */
  lemma FormatGoldParses(atomic: nat)
    requires atomic <= MAX_GOLD_ATOMIC
    ensures FormatGold(atomic).Ok? && ParseFixedDecimal(FormatGold(atomic).value).Ok?
    ensures Means(ParseFixedDecimal(FormatGold(atomic).value).value, atomic)
  {
    hide Pow10, Str, Padded, ReadNat, ParseFixedDecimal, WithoutTrailingZeros;
    var whole, fraction := Str(atomic / GOLD_SCALE), Padded(atomic % GOLD_SCALE, 6);
    ScaleIsPower();
    EmptyReads();
    WholeFits(atomic);
    ReadStr(atomic / GOLD_SCALE);
    if atomic % GOLD_SCALE == 0 {
      ParseWhole(whole);
    } else {
      ReadPadded(atomic % GOLD_SCALE, 6);
      var kept := StripFraction(whole + ".", fraction);
      ReadConcat(whole, kept);
      ParseParts(whole, kept);
      KeptMeans(atomic, whole, kept);
    }
  }

  lemma KeptMeans(atomic: nat, whole: string, kept: string)
    requires AllDigits(whole) && AllDigits(kept) && |kept| <= 6 && AllDigits(whole + kept)
    requires ReadNat(whole) == atomic / GOLD_SCALE && ReadNat(kept) * Pow10(6 - |kept|) == atomic % GOLD_SCALE
    requires ReadNat(whole + kept) == ReadNat(whole) * Pow10(|kept|) + ReadNat(kept)
    ensures Means(Dec(ReadNat(whole + kept), |kept|), atomic)
  {
    hide Pow10, ReadNat;
    ScaleIsPower();
    PowAdds(|kept|, 6 - |kept|);
    var p, q := Pow10(|kept|), Pow10(6 - |kept|);
    Regroup(ReadNat(whole), p, ReadNat(kept), q);
    assert atomic == ReadNat(whole) * (p * q) + ReadNat(kept) * q;
  }

  lemma Regroup(w: nat, p: nat, k: nat, q: nat)
    ensures (w * p + k) * (p * q) == (w * (p * q) + k * q) * p
  {
    assert (w * p + k) * (p * q) == w * p * (p * q) + k * (p * q);
    assert (w * (p * q) + k * q) * p == w * (p * q) * p + k * q * p;
    assert w * p * (p * q) == w * (p * q) * p by { Swap(w, p, p * q); }
    assert k * (p * q) == k * q * p by { Swap(k, q, p); assert k * (p * q) == k * p * q; }
  }

  lemma Swap(a: nat, b: nat, c: nat)
    ensures a * b * c == a * c * b
  {
  }

  // ------------------------------------------------------------ gold and back

  lemma DivUnique(x: nat, u: nat, q: nat, r: nat)
    requires u > 0 && x == q * u + r && r < u
    ensures x / u == q && x % u == r
  {
    var d := x / u - q;
    assert d * u == r - x % u;
    Multiples(d, u);
  }

  lemma Multiples(d: int, u: int)
    requires u > 0
    ensures d >= 1 ==> d * u >= u
    ensures d <= -1 ==> d * u <= -u
  {
  }

  lemma RoundToScales(x: nat, u: nat)
    requires u > 0
    ensures RoundTo(10 * x, 10 * u) == 10 * RoundTo(x, u)
  {
    var q, r := x / u, x % u;
    assert x == q * u + r;
    assert 10 * x == q * (10 * u) + 10 * r;
    DivUnique(10 * x, 10 * u, q, 10 * r);
    assert q * (10 * u) == 10 * (q * u) && (q + 1) * (10 * u) == 10 * ((q + 1) * u);
  }

  /** Rounding is exact exactly on the multiples. */
  lemma RoundToIsExact(x: nat, u: nat)
    requires u > 0
    ensures RoundTo(x, u) == x <==> x % u == 0
  {
    var q, r := x / u, x % u;
    assert x == q * u + r && (q + 1) * u == q * u + u;
  }

  lemma RoundedTimesTen(x: nat)
    ensures Rounded(10 * x) == 10 * Rounded(x)
  {
    hide RoundTo, Pow10;
    if x > 0 {
      assert Len(10 * x) == 1 + Len(x);
      if Len(x) > PRECISION {
        PowStep(Len(x) + 1 - PRECISION);
        RoundToScales(x, Pow10(Len(x) - PRECISION));
      } else if Len(x) == PRECISION {
        PowStep(1);
        EmptyReads();
        RoundToIsExact(10 * x, 10);
      }
    }
  }

  /** What is left depends on the value, not on how many places it is written with. */
  lemma {:induction false} RoundedScales(x: nat, p: nat)
    ensures Rounded(x * Pow10(p)) == Rounded(x) * Pow10(p)
  {
    hide Rounded, Pow10;
    if p == 0 {
      EmptyReads();
    } else {
      PowStep(p);
      RoundedScales(x, p - 1);
      RoundedTimesTen(x * Pow10(p - 1));
      TenOut(x, Pow10(p - 1));
      TenOut(Rounded(x), Pow10(p - 1));
    }
  }

  lemma TenOut(x: nat, p: nat)
    ensures x * (10 * p) == 10 * (x * p)
  {
  }

  /** gold() of any decimal standing for an amount is that amount rounded to 28 digits. */
  lemma GoldRounds(d: Dec, atomic: nat)
    requires Means(d, atomic)
    ensures Gold(d) == if Rounded(atomic) > MAX_GOLD_ATOMIC then Err(OutsideBound) else Ok(Rounded(atomic))
  {
    hide Rounded, Pow10;
    RoundedScales(atomic, d.places);
    DivUnique(Rounded(atomic) * Pow10(d.places), Pow10(d.places), Rounded(atomic), 0);
  }

  /** An amount has at most 28 significant digits. */
  predicate Survives(atomic: nat) {
    Len(atomic) <= PRECISION || atomic % Pow10(Len(atomic) - PRECISION) == 0
  }

  lemma SmallAmountsSurvive(atomic: nat)
    requires atomic < Pow10(28)
    ensures Survives(atomic)
  {
    LenBound(atomic, 28);
  }

  lemma RoundedIsExact(atomic: nat)
    ensures Rounded(atomic) == atomic <==> Survives(atomic)
  {
    hide RoundTo, Pow10;
    if Len(atomic) > PRECISION {
      RoundToIsExact(atomic, Pow10(Len(atomic) - PRECISION));
    }
  }

  /** Both printers' texts are read back to the same amount exactly when it has at most 28 significant digits. */
  lemma GoldReadsBackExactlyWhen(atomic: nat)
    requires atomic <= MAX_GOLD_ATOMIC
    ensures ParseFixedDecimal(GoldDecimal(atomic)).Ok? && FormatGold(atomic).Ok? && ParseFixedDecimal(FormatGold(atomic).value).Ok?
    ensures Gold(ParseFixedDecimal(GoldDecimal(atomic)).value) == Ok(atomic) <==> Survives(atomic)
    ensures Gold(ParseFixedDecimal(FormatGold(atomic).value).value) == Ok(atomic) <==> Survives(atomic)
  {
    hide ParseFixedDecimal, Gold, FormatGold, GoldDecimal, Survives, Rounded, Pow10;
    GoldDecimalParses(atomic);
    FormatGoldParses(atomic);
    ScaleIsPower();
    GoldRounds(Dec(atomic, 6), atomic);
    GoldRounds(ParseFixedDecimal(FormatGold(atomic).value).value, atomic);
    RoundedIsExact(atomic);
  }

  lemma {:induction false} LenIs(n: nat, k: nat)
    requires k >= 1 && n < Pow10(k) && (k > 1 ==> Pow10(k - 1) <= n)
    ensures Len(n) == k
  {
    if k > 1 {
      LenIs(n / 10, k - 1);
    }
  }

  /** One unit above 10^28 is already lost. */
  lemma LargeAmountsMayBeLost()
    ensures Pow10(28) + 1 <= MAX_GOLD_ATOMIC && !Survives(Pow10(28) + 1)
  {
    hide Pow10, Len;
    PowStep(29);
    PowStep(28);
    PowStep(1);
    EmptyReads();
    PowAdds(29, 9);
    assert Pow10(29) * Pow10(9) >= Pow10(29);
    LenIs(Pow10(28) + 1, 29);
  }
}
