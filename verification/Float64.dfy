/**
 Integers through an IEEE 754 double and back: reading a JSON number into an untyped value and printing it again.
 Only non-negative integers are covered.
 */
module Float64 {
  import opened Decimals

  const TWO_TO_52 := 0x10_0000_0000_0000
  const TWO_TO_53 := 0x20_0000_0000_0000

  function Pow2(e: nat): (p: nat)
    ensures p >= 1
  {
    if e == 0 then 1 else 2 * Pow2(e - 1)
  }

  /** Binary exponent of the unit in the last place of the doubles around n. */
  function Exponent(n: nat): (e: nat)
    ensures n < TWO_TO_53 * Pow2(e)
    ensures e > 0 ==> TWO_TO_52 * Pow2(e) <= n
  {
    if n < TWO_TO_53 then 0 else Exponent(n / 2) + 1
  }

  /** Nearest double to n, ties to the even significand. */
  function FloatOf(n: nat): nat {
    var unit := Pow2(Exponent(n));
    var q, r := n / unit, n % unit;
    if 2 * r < unit || (2 * r == unit && q % 2 == 0) then q * unit else (q + 1) * unit
  }

  /** The multiples of p around f, the nearer one first; a tie prefers the even multiple. */
  function Neighbours(f: nat, p: nat): (nat, nat)
    requires p > 0
  {
    var below := f - f % p;
    var above := below + p;
    if f - below < above - f || (f - below == above - f && f / p % 2 == 0) then (below, above) else (above, below)
  }

  /** Shortest decimal that reads back as the double f: most trailing zeros first, nearer candidate first. */
  function Shortest(f: nat, zeros: nat): (d: nat)
    requires FloatOf(f) == f
    ensures FloatOf(d) == f
  {
    if zeros == 0 then f
    else
      var (first, second) := Neighbours(f, Pow10(zeros));
      if FloatOf(first) == f then first
      else if FloatOf(second) == f then second
      else Shortest(f, zeros - 1)
  }

  /** What a number becomes after one decode into an untyped value and one re-encode. */
  function Reprint(n: nat): (d: nat)
    ensures FloatOf(d) == FloatOf(n)
  {
    FloatOfIdempotent(n);
    Shortest(FloatOf(n), |Digits(FloatOf(n))|)
  }

  lemma {:induction false} ExponentOfScaled(q: nat, e: nat)
    requires TWO_TO_52 <= q < TWO_TO_53
    ensures Exponent(q * Pow2(e)) == e
  {
    if e > 0 {
      ExponentOfScaled(q, e - 1);
      DoubleScaled(q, Pow2(e - 1));
    }
  }

  lemma DoubleScaled(q: nat, p: nat)
    requires p >= 1
    ensures q * (2 * p) == 2 * (q * p)
    ensures q * p >= q
  {
    Scale(q, 1, p);
  }

  lemma Scale(q: nat, a: nat, b: nat)
    requires a <= b
    ensures q * a <= q * b
  {
  }

  lemma MultipleIsFloat(q: nat, e: nat)
    requires TWO_TO_52 <= q < TWO_TO_53
    ensures FloatOf(q * Pow2(e)) == q * Pow2(e)
  {
    ExponentOfScaled(q, e);
    DivideProduct(q, Pow2(e));
  }

  lemma DivideProduct(q: nat, u: nat)
    requires u > 0
    ensures q * u / u == q && q * u % u == 0
  {
    var d := q * u / u;
    assert q * u == d * u + q * u % u;
    assert (q - d) * u == q * u % u;
    if q > d {
      Scale(u, 1, q - d);
      assert false;
    }
  }

  lemma QuotientBounds(n: nat, u: nat, lo: nat, hi: nat)
    requires u > 0 && lo * u <= n < hi * u
    ensures lo <= n / u < hi
  {
    var q := n / u;
    assert q * u <= n < (q + 1) * u;
    assert q + 1 <= lo ==> (q + 1) * u <= lo * u;
    assert hi <= q ==> hi * u <= q * u;
  }

  lemma FloatOfSmall(n: nat)
    requires n < TWO_TO_53
    ensures FloatOf(n) == n
  {
  }

  /** Above 2^53 the rounded significand stays in [2^52, 2^53]. */
  lemma FloatOfLarge(n: nat) returns (q: nat, e: nat)
    requires n >= TWO_TO_53
    ensures TWO_TO_52 <= q <= TWO_TO_53 && e > 0 && FloatOf(n) == q * Pow2(e)
  {
    e := Exponent(n);
    var u := Pow2(e);
    QuotientBounds(n, u, TWO_TO_52, TWO_TO_53);
    q := if 2 * (n % u) < u || (2 * (n % u) == u && n / u % 2 == 0) then n / u else n / u + 1;
  }

  lemma FloatOfIdempotent(n: nat)
    ensures FloatOf(FloatOf(n)) == FloatOf(n)
  {
    if n < TWO_TO_53 {
      FloatOfSmall(n);
    } else {
      var q, e := FloatOfLarge(n);
      if q < TWO_TO_53 {
        MultipleIsFloat(q, e);
      } else {
        assert q * Pow2(e) == TWO_TO_52 * Pow2(e + 1);
        MultipleIsFloat(TWO_TO_52, e + 1);
      }
    }
  }

  lemma FloatOfNotBelow(n: nat)
    requires n >= TWO_TO_53
    ensures FloatOf(n) >= TWO_TO_53
  {
    var q, e := FloatOfLarge(n);
    assert Pow2(e) == 2 * Pow2(e - 1);
    Scale(TWO_TO_52, 2, Pow2(e));
    Scale(Pow2(e), TWO_TO_52, q);
  }

  /** Rounding at most doubles a number. */
  lemma FloatOfAtMostDouble(n: nat)
    ensures FloatOf(n) <= 2 * n
  {
    if n < TWO_TO_53 {
      FloatOfSmall(n);
    } else {
      var u := Pow2(Exponent(n));
      assert n == n / u * u + n % u;
      Scale(u, 1, TWO_TO_52);
      assert (n / u + 1) * u == n / u * u + u;
    }
  }

  /** Re-encoding is the identity below 2^53 and merges exactly the numbers that share a double. */
  lemma ReprintSmall(n: nat)
    requires n < 9007199254740992
    ensures Reprint(n) == n
  {
    FloatOfSmall(n);
    var d := Reprint(n);
    if d >= TWO_TO_53 {
      FloatOfNotBelow(d);
    } else {
      FloatOfSmall(d);
    }
  }

  lemma ReprintMerges(m: nat, n: nat)
    ensures Reprint(m) == Reprint(n) <==> FloatOf(m) == FloatOf(n)
  {
    assert FloatOf(Reprint(m)) == FloatOf(m) && FloatOf(Reprint(n)) == FloatOf(n);
  }

  /** The bound is sharp: the first number above 2^53 is lost. */
  lemma ReprintLosesFirstOddNumber()
    ensures FloatOf(9007199254740993) == FloatOf(9007199254740992) == 9007199254740992
  {
    assert Exponent((TWO_TO_53 + 1) / 2) == 0;
    assert Exponent(TWO_TO_53 + 1) == 1 && Exponent(TWO_TO_53) == 1;
    assert Pow2(1) == 2 * Pow2(0) == 2;
  }

  // ---- Rounding, without the algorithm ----

  /** A significand of at most 53 bits, scaled by a power of two. */
  ghost predicate IsDouble(f: nat) {
    exists q: nat, e: nat :: Scaled(f, q, e)
  }

  predicate Scaled(f: nat, q: nat, e: nat) {
    q < 0x20_0000_0000_0000 && f == q * Pow2(e)
  }

  function Distance(a: nat, b: nat): nat {
    if a <= b then b - a else a - b
  }

  lemma {:induction false} Pow2Sum(d: nat, e: nat)
    ensures Pow2(d + e) == Pow2(d) * Pow2(e)
  {
    if d > 0 {
      Pow2Sum(d - 1, e);
    }
  }

  lemma TimesAssociative(a: nat, b: nat, c: nat)
    ensures a * (b * c) == a * b * c
  {
  }

  /** No double lies strictly between two neighbouring multiples of the unit around n. */
  lemma NoDoubleBetween(q: nat, e: nat, f: nat)
    requires TWO_TO_52 <= q && e > 0 && IsDouble(f)
    ensures f <= q * Pow2(e) || (q + 1) * Pow2(e) <= f
  {
    var s: nat, g: nat :| Scaled(f, s, g);
    if g >= e {
      CoarserIsMultiple(s, g, e);
      MultiplesApart(s * Pow2(g - e), q, Pow2(e));
    } else {
      FinerIsBelow(s, g, e);
      Scale(Pow2(e), TWO_TO_52, q);
    }
  }

  lemma CoarserIsMultiple(s: nat, g: nat, e: nat)
    requires g >= e
    ensures s * Pow2(g) == s * Pow2(g - e) * Pow2(e)
  {
    Pow2Sum(g - e, e);
    TimesAssociative(s, Pow2(g - e), Pow2(e));
  }

  lemma MultiplesApart(t: nat, q: nat, u: nat)
    ensures t * u <= q * u || (q + 1) * u <= t * u
  {
    if t <= q {
      Scale(u, t, q);
    } else {
      Scale(u, q + 1, t);
    }
  }

  lemma {:induction false} Pow2Grows(g: nat, e: nat)
    requires g <= e
    ensures Pow2(g) <= Pow2(e)
  {
    if g < e {
      Pow2Grows(g, e - 1);
    }
  }

  lemma FinerIsBelow(s: nat, g: nat, e: nat)
    requires s < TWO_TO_53 && g < e
    ensures s * Pow2(g) <= Pow2(e) * TWO_TO_52
  {
    Pow2Grows(g, e - 1);
    HalvedUnit(s, Pow2(g), Pow2(e - 1), Pow2(e));
  }

  lemma HalvedUnit(s: nat, p: nat, half: nat, u: nat)
    requires s < TWO_TO_53 && p <= half && u == 2 * half
    ensures s * p <= u * TWO_TO_52
  {
    Scale(s, p, half);
    Scale(half, s, TWO_TO_53);
  }

  lemma FloatIsDouble(n: nat)
    ensures IsDouble(FloatOf(n))
  {
    if n < TWO_TO_53 {
      FloatOfSmall(n);
      assert Scaled(n, n, 0);
    } else {
      var q, e := FloatOfLarge(n);
      if q == TWO_TO_53 {
        assert Scaled(FloatOf(n), TWO_TO_52, e + 1);
      } else {
        assert Scaled(FloatOf(n), q, e);
      }
    }
  }

  /** The double of n is a double, none is nearer to n, and of two equally near ones it is the even multiple. */
  lemma NearestDouble(n: nat, f: nat)
    requires IsDouble(f)
    ensures IsDouble(FloatOf(n)) && Distance(FloatOf(n), n) <= Distance(f, n)
    ensures (f != FloatOf(n) && Distance(FloatOf(n), n) == Distance(f, n)
      ==> FloatOf(n) % (2 * Distance(FloatOf(n), f)) == 0)
  {
    FloatIsDouble(n);
    if n < TWO_TO_53 {
      FloatOfSmall(n);
    } else {
      var e := Exponent(n);
      var u := Pow2(e);
      QuotientBounds(n, u, TWO_TO_52, TWO_TO_53);
      var q, r := n / u, n % u;
      NoDoubleBetween(q, e, f);
      Rounded(n, q, r, u, f);
    }
  }

  lemma Rounded(n: nat, q: nat, r: nat, u: nat, f: nat)
    requires u > 0 && n == q * u + r && r < u && (f <= q * u || (q + 1) * u <= f)
    ensures var d := if 2 * r < u || (2 * r == u && q % 2 == 0) then q * u else (q + 1) * u;
      && Distance(d, n) <= Distance(f, n)
      && (f != d && Distance(d, n) == Distance(f, n) ==> d % (2 * Distance(d, f)) == 0)
  {
    assert (q + 1) * u == q * u + u;
    var d := if 2 * r < u || (2 * r == u && q % 2 == 0) then q * u else (q + 1) * u;
    if f != d && Distance(d, n) == Distance(f, n) {
      assert 2 * r == u && Distance(d, f) == u;
      EvenMultiple(if q % 2 == 0 then q else q + 1, u);
    }
  }

  lemma EvenMultiple(q: nat, u: nat)
    requires q % 2 == 0 && u > 0
    ensures q * u % (2 * u) == 0
  {
    DivideProduct(q / 2, 2 * u);
    TimesAssociative(q / 2, 2, u);
  }

  lemma FloatMonotone(m: nat, n: nat)
    requires m <= n
    ensures FloatOf(m) <= FloatOf(n)
  {
    FloatIsDouble(m);
    FloatIsDouble(n);
    NearestDouble(m, FloatOf(n));
    NearestDouble(n, FloatOf(m));
  }

  /** Whatever lies between a double and a number that reads back as it also does. */
  lemma BetweenReadsBack(f: nat, below: nat, above: nat, d: nat)
    requires FloatOf(d) == f == FloatOf(f) && below <= f < above && (d <= below || above <= d)
    ensures FloatOf(if d <= below then below else above) == f
  {
    if d <= below {
      FloatMonotone(d, below);
      FloatMonotone(below, f);
    } else {
      FloatMonotone(above, d);
      FloatMonotone(f, above);
    }
  }

  lemma MultipleBeside(f: nat, p: nat, d: nat)
    requires p > 0 && d % p == 0
    ensures f - f % p >= 0 && f < f - f % p + p
    ensures if d <= f then d <= f - f % p else f - f % p + p <= d
  {
    var s, t := d / p, f / p;
    assert d == s * p && f == t * p + f % p;
    assert (t + 1) * p == t * p + p;
    MultiplesApart(s, t, p);
  }

  // ---- Shortest text ----

  lemma {:induction false} Pow10Divides(m: nat, z: nat, zeros: nat)
    requires z <= zeros && m % Pow10(zeros) == 0
    ensures m % Pow10(z) == 0
  {
    if z < zeros {
      var p, k := Pow10(zeros - 1), m / Pow10(zeros);
      assert m == k * (10 * p);
      TimesAssociative(k, 10, p);
      DivideProduct(10 * k, p);
      Pow10Divides(m, z, zeros - 1);
    }
  }

  lemma BelowIsMultiple(f: nat, p: nat)
    requires p > 0
    ensures f % p <= f && (f - f % p) % p == 0 && (f - f % p + p) % p == 0
  {
    var t := f / p;
    assert f == t * p + f % p && (t + 1) * p == t * p + p;
    DivideProduct(t, p);
    DivideProduct(t + 1, p);
  }

  lemma NeighboursAre(f: nat, p: nat)
    requires p > 0
    ensures var below, (first, second) := f - f % p, Neighbours(f, p);
      && ((first == below && second == below + p) || (first == below + p && second == below))
      && Distance(first, f) <= Distance(second, f)
      && first % p == 0 && second % p == 0
  {
    BelowIsMultiple(f, p);
  }

  lemma NearerReadsBack(f: nat, first: nat, second: nat, below: nat, above: nat, d: nat)
    requires FloatOf(d) == f == FloatOf(f) && below <= f < above && (d <= below || above <= d)
    requires (first == below && second == above) || (first == above && second == below)
    requires Distance(first, f) <= Distance(second, f)
    ensures if FloatOf(first) == f then Distance(first, f) <= Distance(d, f)
            else FloatOf(second) == f && Distance(second, f) <= Distance(d, f)
  {
    BetweenReadsBack(f, below, above, d);
  }

  /** At the power of ten where the search ends nothing nearer reads back. */
  lemma NearestMultiple(f: nat, p: nat, d: nat)
    requires p > 0 && d % p == 0 && FloatOf(d) == f == FloatOf(f)
    ensures var (first, second) := Neighbours(f, p);
      if FloatOf(first) == f then Distance(first, f) <= Distance(d, f)
      else FloatOf(second) == f && Distance(second, f) <= Distance(d, f)
  {
    var (first, second) := Neighbours(f, p);
    MultipleBeside(f, p, d);
    NeighboursAre(f, p);
    NearerReadsBack(f, first, second, f - f % p, f - f % p + p, d);
  }

  /** Where the search goes when it does not end at once. */
  lemma SearchStep(f: nat, zeros: nat)
    requires FloatOf(f) == f && zeros > 0
    ensures var (first, second), s := Neighbours(f, Pow10(zeros)), Shortest(f, zeros);
      && (FloatOf(first) == f ==> s == first)
      && (FloatOf(first) != f && FloatOf(second) == f ==> s == second)
      && (FloatOf(first) != f && FloatOf(second) != f ==> s == Shortest(f, zeros - 1))
  {
  }

  /** s ends in z zeros; if in no more, d is no nearer to f. */
  predicate Beats(s: nat, d: nat, f: nat, z: nat) {
    s % Pow10(z) == 0 && (s % Pow10(z + 1) == 0 || Distance(s, f) <= Distance(d, f))
  }

  lemma MoreZerosBeat(s: nat, d: nat, f: nat, z: nat, zeros: nat)
    requires z < zeros && s % Pow10(zeros) == 0
    ensures Beats(s, d, f, z)
  {
    Pow10Divides(s, z, zeros);
    Pow10Divides(s, z + 1, zeros);
  }

  lemma SearchEnds(f: nat, d: nat, z: nat)
    requires FloatOf(d) == f == FloatOf(f) && d % Pow10(z) == 0
    ensures Beats(Shortest(f, z), d, f, z)
  {
    if z > 0 {
      SearchStep(f, z);
      NearestMultiple(f, Pow10(z), d);
      NeighboursAre(f, Pow10(z));
    } else {
      assert Shortest(f, 0) == f && Pow10(0) == 1;
    }
  }

  lemma SearchGoesOn(f: nat, d: nat, z: nat, zeros: nat)
    requires FloatOf(f) == f && z < zeros && Beats(Shortest(f, zeros - 1), d, f, z)
    ensures Beats(Shortest(f, zeros), d, f, z)
  {
    SearchStep(f, zeros);
    var (first, second) := Neighbours(f, Pow10(zeros));
    NeighboursAre(f, Pow10(zeros));
    MoreZerosBeat(first, d, f, z, zeros);
    MoreZerosBeat(second, d, f, z, zeros);
  }

  lemma {:induction false} ShortestFrom(f: nat, zeros: nat, d: nat, z: nat)
    requires FloatOf(d) == f == FloatOf(f) && d % Pow10(z) == 0 && z <= zeros
    ensures Beats(Shortest(f, zeros), d, f, z)
  {
    if z == zeros {
      SearchEnds(f, d, z);
    } else {
      ShortestFrom(f, zeros - 1, d, z);
      SearchGoesOn(f, d, z, zeros);
    }
  }

  /** Rounding at most halves a number. */
  lemma FloatOfAtLeastHalf(n: nat)
    ensures n <= 2 * FloatOf(n)
  {
    if n < TWO_TO_53 {
      FloatOfSmall(n);
    } else {
      var u := Pow2(Exponent(n));
      QuotientBounds(n, u, TWO_TO_52, TWO_TO_53);
      assert n == n / u * u + n % u;
      Scale(u, 1, n / u);
      assert (n / u + 1) * u == n / u * u + u;
    }
  }

  /** Only zero has more trailing zeros than its double has digits. */
  lemma TooManyZeros(d: nat, f: nat, z: nat)
    requires FloatOf(d) == f && d % Pow10(z) == 0 && z > |Digits(f)|
    ensures d == 0
  {
    if d > 0 {
      var k := |Digits(f)|;
      ValueOfDigits(f);
      ValueBelowPow10(Digits(f));
      Pow10Monotone(k + 1, z);
      assert Pow10(k + 1) == 10 * Pow10(k);
      AtLeastDivisor(d, Pow10(z));
      FloatOfAtLeastHalf(d);
      assert false;
    }
  }

  lemma AtLeastDivisor(d: nat, p: nat)
    requires d > 0 && p > 0 && d % p == 0
    ensures d >= p
  {
  }

  /**
   No number that reads back as the double of n ends in more zeros than what n becomes, and of those that end in as
   many none is nearer to the double.
   */
  lemma ReprintIsShortest(n: nat, d: nat, z: nat)
    requires FloatOf(d) == FloatOf(n) && d % Pow10(z) == 0
    ensures FloatOf(Reprint(n)) == FloatOf(n) && Reprint(n) % Pow10(z) == 0
    ensures (Reprint(n) % Pow10(z + 1) == 0
      || Distance(Reprint(n), FloatOf(n)) <= Distance(d, FloatOf(n)))
  {
    var f := FloatOf(n);
    FloatOfIdempotent(n);
    if z <= |Digits(f)| {
      ShortestFrom(f, |Digits(f)|, d, z);
    } else {
      TooManyZeros(d, f, z);
      ReprintMerges(n, 0);
      ReprintSmall(0);
    }
  }
}
