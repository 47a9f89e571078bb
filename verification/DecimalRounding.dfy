/** Rounding to 28 digits keeps the order and the sign of decimals, and where it hides excess places. */
module DecimalRounding {
  import opened Money

  // ------------------------------------------------------------ order and sign

  lemma Scaled(a: int, b: int, u: nat)
    requires a <= b
    ensures a * u <= b * u
  {
  }

  lemma RoundToBounds(x: nat, u: nat)
    requires u > 0
    ensures x / u * u <= RoundTo(x, u) <= (x / u + 1) * u
  {
    assert (x / u + 1) * u == x / u * u + u;
  }

  lemma RoundToMonotone(x: nat, y: nat, u: nat)
    requires u > 0 && x <= y
    ensures RoundTo(x, u) <= RoundTo(y, u)
  {
    var q, r := x / u, x % u;
    assert x == q * u + r && y == y / u * u + y % u;
    if y / u > q {
      RoundToBounds(x, u);
      RoundToBounds(y, u);
      Scaled(q + 1, y / u, u);
    } else {
      Quotients(x, y, u);
      assert (q + 1) * u == q * u + u;
    }
  }

  /** Rounding goes to the nearest multiple, and halfway to the even one. */
  lemma RoundsToNearestEven(x: nat, u: nat)
    requires u > 0
    ensures RoundTo(x, u) % u == 0
    ensures 2 * (x - RoundTo(x, u)) <= u && 2 * (RoundTo(x, u) - x) <= u
    ensures 2 * (x - RoundTo(x, u)) == u || 2 * (RoundTo(x, u) - x) == u ==> RoundTo(x, u) / u % 2 == 0
  {
    var q, r := x / u, x % u;
    assert x == q * u + r && (q + 1) * u == q * u + u;
    DivUnique(q * u, u, q, 0);
    DivUnique((q + 1) * u, u, q + 1, 0);
  }

  lemma Quotients(x: nat, y: nat, u: nat)
    requires u > 0 && x <= y
    ensures x / u <= y / u
  {
    if y / u < x / u {
      Scaled(y / u + 1, x / u, u);
    }
  }

  lemma {:induction false} LenBounds(n: nat)
    ensures n < Pow10(Len(n)) && (n > 0 ==> Pow10(Len(n) - 1) <= n)
  {
    if n >= 10 {
      LenBounds(n / 10);
      PowStep(Len(n));
      PowStep(Len(n) - 1);
    }
  }

  lemma {:induction false} PowMonotone(a: nat, b: nat)
    requires a <= b
    ensures Pow10(a) <= Pow10(b)
  {
    if a < b {
      PowMonotone(a, b - 1);
    }
  }

  lemma LenMonotone(x: nat, y: nat)
    requires x <= y
    ensures Len(x) <= Len(y)
  {
    hide Pow10, Len;
    LenBounds(y);
    LenPositive(y);
    LenBound(x, Len(y));
  }

  lemma LenPositive(n: nat)
    ensures Len(n) >= 1
  {
  }

  /** Multiples of u are fixed points, so rounding never leaves the interval between two of them. */
  lemma RoundToBetween(x: nat, low: nat, high: nat, u: nat)
    requires u > 0 && low * u <= x <= high * u
    ensures low * u <= RoundTo(x, u) <= high * u
  {
    hide RoundTo;
    DivUnique(low * u, u, low, 0);
    DivUnique(high * u, u, high, 0);
    RoundToIsExact(low * u, u);
    RoundToIsExact(high * u, u);
    RoundToMonotone(low * u, x, u);
    RoundToMonotone(x, high * u, u);
  }

  /** Rounding keeps the number of digits, or reaches the next power of ten. */
  lemma RoundedWithin(x: nat)
    requires x > 0
    ensures Pow10(Len(x) - 1) <= Rounded(x) <= Pow10(Len(x))
  {
    hide Pow10, Len, RoundTo;
    LenPositive(x);
    LenBounds(x);
    if Len(x) > PRECISION {
      var k := Len(x) - PRECISION;
      PowAdds(PRECISION - 1, k);
      PowAdds(PRECISION, k);
      RoundToBetween(x, Pow10(PRECISION - 1), Pow10(PRECISION), Pow10(k));
    }
  }

  lemma RoundedMonotone(x: nat, y: nat)
    requires x <= y
    ensures Rounded(x) <= Rounded(y)
  {
    hide Pow10, Len, RoundTo;
    LenMonotone(x, y);
    if Len(x) == Len(y) {
      if Len(x) > PRECISION {
        RoundToMonotone(x, y, Pow10(Len(x) - PRECISION));
      }
    } else if x > 0 {
      RoundedWithin(x);
      RoundedWithin(y);
      LenPositive(x);
      PowMonotone(Len(x), Len(y) - 1);
    } else {
      ZeroIsExact();
    }
  }

  lemma ZeroIsExact()
    ensures Rounded(0) == 0
  {
  }

  lemma RoundedIsPositive(x: nat)
    requires x > 0
    ensures Rounded(x) > 0
  {
    hide Pow10, Rounded;
    LenPositive(x);
    RoundedWithin(x);
  }

  /** A rounded amount has at most 28 significant digits, so it survives any further rounding. */
  lemma RoundedSurvives(x: nat)
    ensures Rounded(Rounded(x)) == Rounded(x)
  {
    hide Pow10, Len, RoundTo;
    if Len(x) > PRECISION {
      var u := Pow10(Len(x) - PRECISION);
      var y := RoundTo(x, u);
      RoundToIsMultiple(x, u);
      LenPositive(x);
      if x > 0 { RoundedWithin(x); } else { ZeroIsExact(); }
      LenAtMost(y, Len(x));
      if Len(y) > PRECISION {
        if Len(y) <= Len(x) {
          MultipleOfLess(y, Len(y) - PRECISION, Len(x) - PRECISION);
          RoundToIsExact(y, Pow10(Len(y) - PRECISION));
        } else {
          PowerRounds(Len(x));
        }
      }
    }
  }

  lemma RoundToIsMultiple(x: nat, u: nat)
    requires u > 0
    ensures RoundTo(x, u) % u == 0
  {
    DivUnique(x / u * u, u, x / u, 0);
    DivUnique((x / u + 1) * u, u, x / u + 1, 0);
  }

  /** A number up to 10^k has at most k digits, or is 10^k itself. */
  lemma LenAtMost(y: nat, k: nat)
    requires y <= Pow10(k) && k >= 1
    ensures Len(y) <= k || y == Pow10(k)
  {
    hide Pow10, Len;
    if y < Pow10(k) {
      LenBound(y, k);
    }
  }

  lemma MultipleOfLess(y: nat, a: nat, b: nat)
    requires a <= b && y % Pow10(b) == 0
    ensures y % Pow10(a) == 0
  {
    hide Pow10;
    PowAdds(b - a, a);
    var q := y / Pow10(b);
    assert y == q * Pow10(b);
    Associate(q, Pow10(b - a), Pow10(a));
    DivUnique(y, Pow10(a), q * Pow10(b - a), 0);
  }

  lemma Associate(a: nat, b: nat, c: nat)
    ensures a * (b * c) == a * b * c
  {
  }

  lemma PowerRounds(k: nat)
    ensures Rounded(Pow10(k)) == Pow10(k)
  {
    hide Rounded, Pow10;
    RoundedScales(1, k);
    OneIsExact();
  }

  lemma OneIsExact()
    ensures Rounded(1) == 1
  {
  }
}
