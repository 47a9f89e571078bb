/** What the precision check and the conversion to atomic units make of a wire price, given that
    both multiply in a decimal context of 28 digits. */
module PriceChecks {
  import opened Wrappers
  import opened Money
  import opened DecimalRounding
  import opened CandidateValidation

  /** The price is a whole number of millionths. */
  predicate SixPlaces(d: Dec) {
    d.coefficient * GOLD_SCALE % Pow10(d.places) == 0
  }

  lemma ScaledRounds(c: nat)
    ensures Rounded(c * GOLD_SCALE) == Rounded(c) * GOLD_SCALE
  {
    hide Rounded, Pow10;
    ScaleIsPower();
    RoundedScales(c, 6);
  }

  /** Rounding the product is rounding the price. */
  lemma PreciseWhenRounded(d: Dec)
    ensures Precise(d) <==> SixPlaces(Dec(Rounded(d.coefficient), d.places))
  {
    hide Rounded, Pow10;
    ScaledRounds(d.coefficient);
  }

  /** The check never refuses a price of at most six places. */
  lemma SixPlacesArePrecise(d: Dec)
    requires SixPlaces(d)
    ensures Precise(d)
  {
    hide Rounded, Pow10;
    var n := d.coefficient * GOLD_SCALE / Pow10(d.places);
    RoundedScales(n, d.places);
    DivUnique(Rounded(n) * Pow10(d.places), Pow10(d.places), Rounded(n), 0);
  }

  lemma FewPlacesAreSix(d: Dec)
    requires d.places <= 6
    ensures SixPlaces(d)
  {
    hide Pow10;
    ScaleIsPower();
    PowAdds(6 - d.places, d.places);
    Associate(d.coefficient, Pow10(6 - d.places), Pow10(d.places));
    DivUnique(d.coefficient * GOLD_SCALE, Pow10(d.places), d.coefficient * Pow10(6 - d.places), 0);
  }

  /** With at most 28 digits nothing is rounded, and the check means what it says. */
  lemma ShortPricesAreChecked(d: Dec)
    requires Len(d.coefficient) <= PRECISION
    ensures Precise(d) <==> SixPlaces(d)
  {
    hide Pow10, Len, RoundTo;
    PreciseWhenRounded(d);
  }

  /** One unit above a power of ten, with more digits than the context keeps. */
  function Hidden(digits: nat): nat
    requires digits >= 1
  {
    Pow10(digits - 1) + 1
  }

  lemma HiddenRounds(digits: nat)
    requires digits > PRECISION
    ensures Len(Hidden(digits)) == digits && Rounded(Hidden(digits)) == Pow10(digits - 1)
  {
    hide Pow10, Len;
    PowStep(digits);
    PowStep(digits - 1);
    LenIs(Hidden(digits), digits);
    var k := digits - PRECISION;
    var u := Pow10(k);
    PowStep(k);
    PowAdds(PRECISION - 1, k);
    DivUnique(Hidden(digits), u, Pow10(PRECISION - 1), 1);
  }

  /** Its last place is dropped by the rounding, so the check lets it through. */
  lemma HiddenPlacesPass(digits: nat, places: nat)
    requires digits > PRECISION && 6 < places <= MAX_DECIMAL_PLACES
    ensures Precise(Dec(Hidden(digits), places)) && !SixPlaces(Dec(Hidden(digits), places))
  {
    hide Pow10, Len, Rounded, Hidden;
    HiddenRounds(digits);
    PreciseWhenRounded(Dec(Hidden(digits), places));
    PowerHasSixPlaces(digits - 1, places);
    HiddenHasMore(digits, places);
  }

  lemma PowerHasSixPlaces(k: nat, places: nat)
    requires places <= k + 6
    ensures SixPlaces(Dec(Pow10(k), places))
  {
    hide Pow10;
    ScaleIsPower();
    PowAdds(k, 6);
    PowAdds(k + 6 - places, places);
    DivUnique(Pow10(k) * GOLD_SCALE, Pow10(places), Pow10(k + 6 - places), 0);
  }

  lemma HiddenHasMore(digits: nat, places: nat)
    requires digits > PRECISION && 6 < places <= MAX_DECIMAL_PLACES
    ensures !SixPlaces(Dec(Hidden(digits), places))
  {
    hide Pow10;
    ScaleIsPower();
    PowAdds(digits - 1, 6);
    PowAdds(digits + 5 - places, places);
    PowAdds(places - 6, 6);
    PowStep(places - 6);
    assert Hidden(digits) * GOLD_SCALE == Pow10(digits - 1) * GOLD_SCALE + GOLD_SCALE;
    assert GOLD_SCALE < Pow10(places);
    DivUnique(Hidden(digits) * GOLD_SCALE, Pow10(places), Pow10(digits + 5 - places), GOLD_SCALE);
  }

  /**
   * For wire prices of up to `digits` digits and `places` places, the check means "at most six
   * places" exactly when 28 digits are not exceeded or there are no more than six places anyway.
   */
  lemma PrecisionCheckIsExactWhen(digits: nat, places: nat)
    requires places <= MAX_DECIMAL_PLACES
    ensures (forall c: nat | Len(c) <= digits :: Precise(Dec(c, places)) <==> SixPlaces(Dec(c, places)))
            <==> digits <= PRECISION || places <= 6
  {
    hide Pow10, Len, Rounded, Hidden, Precise, SixPlaces;
    if digits <= PRECISION || places <= 6 {
      forall c: nat | Len(c) <= digits ensures Precise(Dec(c, places)) <==> SixPlaces(Dec(c, places)) {
        if places <= 6 {
          FewPlacesAreSix(Dec(c, places));
          SixPlacesArePrecise(Dec(c, places));
        } else {
          ShortPricesAreChecked(Dec(c, places));
        }
      }
    } else {
      HiddenRounds(digits);
      HiddenPlacesPass(digits, places);
    }
  }

  /** A wire price the check accepts although its eighteenth place is not zero: 10000000000.000000000000000001. */
  lemma AnAcceptedPriceWithEighteenPlaces()
    ensures var d := Dec(Pow10(28) + 1, 18); Precise(d) && !SixPlaces(d)
  {
    hide Pow10, Precise, SixPlaces;
    HiddenPlacesPass(29, 18);
  }

  // -------------------------------------------------------------- conversion

  /** The amount gold() computes before it looks at the bound. */
  function Units(d: Dec): nat {
    Quotient(Rounded(d.coefficient * GOLD_SCALE), Pow10(d.places))
  }

  function Quotient(x: nat, u: nat): nat
    requires u > 0
  {
    x / u
  }

  /** A price is converted exactly when it passed the check and its rounded amount is within the bound. */
  lemma ConvertsExactlyWhen(d: Dec)
    ensures Gold(d).Ok? <==> Precise(d) && Units(d) <= MAX_GOLD_ATOMIC
    ensures Gold(d).Ok? ==> Gold(d).value == Units(d)
    ensures Precise(d) ==> Units(d) * Pow10(d.places) == Rounded(d.coefficient) * GOLD_SCALE
  {
    hide Rounded, Pow10;
    ScaledRounds(d.coefficient);
  }

  /** A price the check accepts and the conversion refuses: 10^32 gold. */
  lemma AnAcceptedPriceOutsideTheBound()
    ensures var d := Dec(Pow10(32), 0); Precise(d) && Gold(d) == Err(OutsideBound)
  {
    hide Rounded, Pow10, Precise;
    var d := Dec(Pow10(32), 0);
    FewPlacesAreSix(d);
    SixPlacesArePrecise(d);
    ConvertsExactlyWhen(d);
    PowerRounds(32);
    EmptyReads();
    ScaleIsPower();
    PowAdds(32, 6);
  }

  lemma PositiveStaysPositive(d: Dec)
    requires Precise(d) && d.coefficient > 0
    ensures Units(d) > 0
  {
    hide Rounded, Pow10, Precise, Units;
    ConvertsExactlyWhen(d);
    RoundedIsPositive(d.coefficient);
  }

  lemma Increasing(a: nat, b: nat, k: nat)
    requires k > 0
    ensures a < b ==> a * k < b * k
  {
  }

  lemma CrossMultiply(a: nat, b: nat, p: nat, q: nat, m: nat, n: nat, g: nat)
    requires p > 0 && q > 0 && m * p == a * g && n * q == b * g && a * q <= b * p
    ensures m <= n
  {
    assert m * p * q == a * g * q == a * q * g;
    assert n * q * p == b * g * p == b * p * g;
    assert a * q * g <= b * p * g;
    Increasing(n, m, p * q);
  }

  /** Conversion keeps the order of accepted prices. */
  lemma ConversionKeepsOrder(a: Dec, b: Dec)
    requires Precise(a) && Precise(b) && LessEq(a, b)
    ensures Units(a) <= Units(b)
  {
    hide Rounded, Pow10, Precise, Units;
    RoundedScales(a.coefficient, b.places);
    RoundedScales(b.coefficient, a.places);
    RoundedMonotone(a.coefficient * Pow10(b.places), b.coefficient * Pow10(a.places));
    ConvertsExactlyWhen(a);
    ConvertsExactlyWhen(b);
    CrossMultiply(Rounded(a.coefficient), Rounded(b.coefficient), Pow10(a.places), Pow10(b.places), Units(a), Units(b), GOLD_SCALE);
  }

  /** An amount of gold covers a number of atomic units. */
  predicate Covers(cash: Dec, units: nat) {
    units * Pow10(cash.places) <= cash.coefficient * GOLD_SCALE
  }

  /** The rounded product of the cash check is rounded like the converted price, so it covers it. */
  lemma CheckedCashCovers(d: Dec, cash: Dec)
    requires Precise(d) && LessEq(Times(d, 1), cash)
    ensures Covers(cash, Units(d))
  {
    hide Rounded, Pow10, Precise, Units;
    ConvertsExactlyWhen(d);
    Uncross(Rounded(d.coefficient), cash.coefficient, Pow10(d.places), Pow10(cash.places), Units(d), GOLD_SCALE);
  }

  lemma Uncross(a: nat, b: nat, p: nat, q: nat, m: nat, g: nat)
    requires p > 0 && m * p == a * g && a * q <= b * p
    ensures m * q <= b * g
  {
    assert m * q * p == m * p * q == a * g * q == a * q * g;
    assert a * q * g <= b * p * g;
    assert b * p * g == b * g * p;
    Increasing(b * g, m * q, p);
  }

  /** Whatever gold() returned has at most 28 significant digits. */
  lemma ConvertedSurvives(d: Dec)
    requires Gold(d).Ok?
    ensures Rounded(Gold(d).value) == Gold(d).value
  {
    hide Rounded, Pow10, Precise, Units, Gold;
    ConvertsExactlyWhen(d);
    var n := Units(d);
    RoundedSurvives(d.coefficient);
    ScaledRounds(Rounded(d.coefficient));
    RoundedScales(n, d.places);
    Cancel(Rounded(n), n, Pow10(d.places));
  }

  lemma Cancel(a: nat, b: nat, k: nat)
    requires k > 0 && a * k == b * k
    ensures a == b
  {
    Increasing(a, b, k);
    Increasing(b, a, k);
  }

  /** An amount that came from gold() keeps its place among prices: comparing with its six-place form is
      comparing the converted amounts. */
  lemma ComparedAsConverted(d: Dec, n: nat)
    requires Precise(d) && Rounded(n) == n
    ensures LessEq(d, Dec(n, 6)) ==> Units(d) <= n
    ensures LessEq(Dec(n, 6), d) ==> n <= Units(d)
  {
    hide Rounded, Pow10, Precise, Units, LessEq;
    SixPlaceUnits(n);
    if LessEq(d, Dec(n, 6)) { ConversionKeepsOrder(d, Dec(n, 6)); }
    if LessEq(Dec(n, 6), d) { ConversionKeepsOrder(Dec(n, 6), d); }
  }

  lemma SixPlaceUnits(n: nat)
    requires Rounded(n) == n
    ensures Precise(Dec(n, 6)) && Units(Dec(n, 6)) == n
  {
    hide Rounded, Pow10, Precise, Units;
    FewPlacesAreSix(Dec(n, 6));
    SixPlacesArePrecise(Dec(n, 6));
    ConvertsExactlyWhen(Dec(n, 6));
    ScaleIsPower();
    Cancel(Units(Dec(n, 6)), n, Pow10(6));
  }
}
