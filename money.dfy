/** Monetary amounts. The service keeps naira amounts as exact decimals and compares them
    only after quantizing both sides to two decimal places; Python's decimal context rounds
    half to even, both for `quantize(Decimal("0.00"))` and for `round(x, 2)`. Amounts are
    exact `real`s here, and `Cents` is that quantization, counted in kobo. */
module Money {

  /** Nearest integer, ties going to the even neighbour. */
  function RoundHalfEven(x: real): (n: int)
    ensures -0.5 <= x - n as real <= 0.5
    ensures (x - n as real == 0.5 || x - n as real == -0.5) ==> n % 2 == 0
  {
    var f := x.Floor;
    var d := x - f as real;
    if d < 0.5 then f
    else if d > 0.5 then f + 1
    else if f % 2 == 0 then f
    else f + 1
  }

  /** The two postconditions of RoundHalfEven pin its result down: it is the rounding rule. */
  lemma RoundHalfEvenUnique(x: real, m: int)
    requires -0.5 <= x - m as real <= 0.5
    requires (x - m as real == 0.5 || x - m as real == -0.5) ==> m % 2 == 0
    ensures m == RoundHalfEven(x)
  {
  }

  /** An amount quantized to two decimals, counted in minor units (kobo). */
  function Cents(x: real): int {
    RoundHalfEven(x * 100.0)
  }

  /** `Decimal(x).quantize(Decimal("0.00"))`, and `round(x, 2)` on a Decimal. */
  function Quantize2(x: real): (q: real)
    ensures -0.005 <= q - x <= 0.005
  {
    Cents(x) as real / 100.0
  }

  /** The comparison every payment handler makes before it writes anything. */
  predicate AmountsMatch(paid: real, expected: real) {
    Cents(paid) == Cents(expected)
  }

  function Abs(x: real): (a: real)
    ensures a >= 0.0 && (a == x || a == -x)
  {
    if x < 0.0 then -x else x
  }

  /** A whole number of kobo quantizes to itself. */
  lemma CentsOfWholeKobo(k: int)
    ensures Cents(k as real / 100.0) == k
  {
    assert (k as real / 100.0) * 100.0 == k as real;
    RoundHalfEvenUnique(k as real, k);
  }

  /** Gateway residue below half a kobo does not change the quantized amount. */
  lemma ResidueIsIgnored(x: real, k: int)
    requires -0.005 < x - k as real / 100.0 < 0.005
    ensures Cents(x) == k
  {
    assert -0.5 < x * 100.0 - k as real < 0.5;
    RoundHalfEvenUnique(x * 100.0, k);
  }

  /** Quantizing twice is quantizing once. */
  lemma QuantizeIdempotent(x: real)
    ensures Quantize2(Quantize2(x)) == Quantize2(x)
    ensures Cents(Quantize2(x)) == Cents(x)
  {
    CentsOfWholeKobo(Cents(x));
  }

  /** Two amounts whose whole-kobo values differ never match. */
  lemma DistinctKoboNeverMatch(j: int, k: int)
    requires j != k
    ensures !AmountsMatch(j as real / 100.0, k as real / 100.0)
  {
    CentsOfWholeKobo(j);
    CentsOfWholeKobo(k);
  }

  /** The gateway's binary-float rendering of 2818.19 matches 2818.19; 2818.20 does not. */
  lemma PrecisionExamples()
    ensures AmountsMatch(2818.19000000000005456968210637569427490234375, 2818.19)
    ensures !AmountsMatch(2818.20, 2818.19)
  {
    ResidueIsIgnored(2818.19000000000005456968210637569427490234375, 281819);
    CentsOfWholeKobo(281819);
    assert 2818.19 == 281819 as real / 100.0;
    assert 2818.20 == 281820 as real / 100.0;
    DistinctKoboNeverMatch(281820, 281819);
  }
}
