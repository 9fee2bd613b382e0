/**
 * Angle interpretation of the AS5050 driver: the position field of an
 * angle response, the optional mirroring, the multi-turn rollover
 * decision and the fair-rounding average of several samples.
 */
module Angles {
  import opened Frames

  /** `AS5050_ANGULAR_RESOLUTION`: steps per full turn. */
  const RESOLUTION: int := 1024

  /** Line 174: `(data & 0x3FFE) >> 2`, the bits 13..2 of the response. */
  function Position(data: Word): (p: int)
    ensures 0 <= p < 4096
  {
    var field := (data & 0x3FFE) >> 2;
    PositionBits(data, field);
    field as int
  }

  /** The position lies within one turn exactly when bits 13..12 of the response are clear. */
  lemma PositionInTurn(data: Word)
    ensures Position(data) < RESOLUTION <==> data & 0x3000 == 0
  {
    PositionBits(data, (data & 0x3FFE) >> 2);
  }

  lemma PositionBits(data: Word, field: Word)
    requires field == (data & 0x3FFE) >> 2
    ensures field < 4096
    ensures field < 1024 <==> data & 0x3000 == 0
  {
  }

  /** Line 177: the reversed logical rotation. */
  function Mirror(v: int): int
  {
    (RESOLUTION - 1) - v
  }

  /** Mirroring is its own inverse and maps one turn onto itself. */
  lemma MirrorSelfInverse(v: int)
    ensures Mirror(Mirror(v)) == v
    ensures 0 <= v < RESOLUTION <==> 0 <= Mirror(v) < RESOLUTION
  {
  }

  /**
   * Lines 180-181: +1 when the previous angle was in the last quarter turn
   * and the new one is in the first, -1 for the opposite crossing.
   */
  function RolloverStep(last: int, angle: int): (d: int)
    ensures d == 1 <==> last > 768 && angle <= 256
    ensures d == -1 <==> last < 256 && angle >= 768
    ensures d == 0 <==> !(last > 768 && angle <= 256) && !(last < 256 && angle >= 768)
  {
    if last > 768 && angle <= 256 then 1
    else if last < 256 && angle >= 768 then -1
    else 0
  }

  /** A forward crossing from 1000 to 50 counts +1 turn, the backward crossing -1. */
  lemma RolloverExamples()
    ensures RolloverStep(1000, 50) == 1 && RolloverStep(50, 1000) == -1
    ensures RolloverStep(500, 520) == 0
  {
  }

  /** The single-turn angle the sensor reports for a continuous position `p`. */
  function Reading(p: int): (a: int)
    ensures 0 <= a < RESOLUTION
  {
    p % RESOLUTION
  }

  /** A mirrored reading is the reading of the position turned the other way. */
  lemma MirroredReading(p: int)
    ensures Mirror(Reading(p)) == Reading(-1 - p)
  {
    var q := p / RESOLUTION;
    assert p == q * RESOLUTION + Reading(p);
    assert -1 - p == (-1 - q) * RESOLUTION + Mirror(Reading(p));
  }

  /**
   * One rollover step is exact when the shaft moved less than a quarter turn
   * (at most 255 steps) between two samples: the change of the single-turn
   * reading plus the counted turns equals the true motion.
   */
  lemma RolloverStepExact(p: int, p': int)
    requires -255 <= p' - p <= 255
    ensures Reading(p') - Reading(p) + RESOLUTION * RolloverStep(Reading(p), Reading(p')) == p' - p
  {
    var q, q' := p / RESOLUTION, p' / RESOLUTION;
    assert p == q * RESOLUTION + Reading(p);
    assert p' == q' * RESOLUTION + Reading(p');
  }

  /** The bound is tight: a move of exactly a quarter turn across zero is missed. */
  lemma RolloverMissesQuarterTurn()
    ensures RolloverStep(Reading(768), Reading(1024)) == 0
    ensures Reading(1024) - Reading(768) != 1024 - 768
  {
  }

  /** Turns counted over consecutive samples of single-turn readings. */
  function CountedTurns(angles: seq<int>): int
  {
    if |angles| < 2 then 0
    else CountedTurns(angles[..|angles| - 1]) + RolloverStep(angles[|angles| - 2], angles[|angles| - 1])
  }

  /** The readings of a sequence of continuous positions. */
  function Readings(ps: seq<int>): (angles: seq<int>)
    ensures |angles| == |ps|
    ensures forall i :: 0 <= i < |ps| ==> angles[i] == Reading(ps[i])
  {
    if ps == [] then [] else Readings(ps[..|ps| - 1]) + [Reading(ps[|ps| - 1])]
  }

  /** Consecutive positions never move by a quarter turn or more. */
  ghost predicate SlowMotion(ps: seq<int>)
  {
    forall i :: 0 < i < |ps| ==> -255 <= ps[i] - ps[i - 1] <= 255
  }

  /**
   * Multi-turn tracking: when the shaft never moves a quarter turn or more
   * between samples, the last reading plus the counted turns is the first
   * reading plus the net motion, so the counter tracks net full turns.
   */
  lemma {:induction false} RolloverTracksMotion(ps: seq<int>)
    requires |ps| > 0
    requires SlowMotion(ps)
    ensures Reading(ps[|ps| - 1]) + RESOLUTION * CountedTurns(Readings(ps))
            == Reading(ps[0]) + (ps[|ps| - 1] - ps[0])
  {
    if |ps| > 1 {
      var init := ps[..|ps| - 1];
      var n := |ps|;
      assert SlowMotion(init);
      RolloverTracksMotion(init);
      assert Readings(ps)[..n - 1] == Readings(init);
      RolloverStepExact(ps[n - 2], ps[n - 1]);
    }
  }

  // ---------------------------------------------------------------------
  // Averaging (`angle(byte nsamples)`, lines 187-194)
  // ---------------------------------------------------------------------

  /** C integer division: truncates toward zero. */
  function TruncDiv(a: int, n: int): int
    requires n > 0
  {
    if a >= 0 then a / n else -((-a) / n)
  }

  /** The quotient rounds toward zero: down for a non-negative dividend, up for a negative one. */
  lemma TruncDivBounds(a: int, n: int)
    requires n > 0
    ensures var q := TruncDiv(a, n);
            && (a >= 0 ==> q * n <= a < q * n + n)
            && (a < 0 ==> q * n - n < a <= q * n)
  {
  }

  function Sum(xs: seq<int>): int
  {
    if xs == [] then 0 else Sum(xs[..|xs| - 1]) + xs[|xs| - 1]
  }

  /** Line 193: `(sum + nsamples/2) / nsamples`. */
  function FairAverage(xs: seq<int>): int
    requires |xs| > 0
  {
    TruncDiv(Sum(xs) + |xs| / 2, |xs|)
  }

  lemma {:induction false} SumBounds(xs: seq<int>, lo: int, hi: int)
    requires forall i :: 0 <= i < |xs| ==> lo <= xs[i] <= hi
    ensures |xs| * lo <= Sum(xs) <= |xs| * hi
  {
    if xs != [] {
      SumBounds(xs[..|xs| - 1], lo, hi);
    }
  }

  /**
   * Fair rounding: for a non-negative sum the average is the mean rounded to
   * the nearest integer, halves rounded up.
   */
  lemma FairAverageRounds(xs: seq<int>)
    requires |xs| > 0
    requires Sum(xs) >= 0
    ensures var r, n := FairAverage(xs), |xs|;
            r * n - n / 2 <= Sum(xs) < r * n + (n - n / 2)
  {
    TruncDivBounds(Sum(xs) + |xs| / 2, |xs|);
  }

  /** Averaging samples within one non-negative range stays within that range. */
  lemma FairAverageBounds(xs: seq<int>, lo: int, hi: int)
    requires |xs| > 0
    requires 0 <= lo
    requires forall i :: 0 <= i < |xs| ==> lo <= xs[i] <= hi
    ensures lo <= FairAverage(xs) <= hi
  {
    var n, r := |xs|, FairAverage(xs);
    SumBounds(xs, lo, hi);
    var a := Sum(xs) + n / 2;
    TruncDivBounds(a, n);
    assert r * n <= a < r * n + n;
    assert (r - lo + 1) * n == r * n + n - lo * n;
    PositiveFactor(r - lo + 1, n);
    assert (hi + 1 - r) * n == hi * n + n - r * n;
    PositiveFactor(hi + 1 - r, n);
  }

  lemma PositiveFactor(x: int, n: int)
    requires n > 0 && x * n > 0
    ensures x > 0
  {
  }

  /** Identical non-negative samples average to that sample. */
  lemma FairAverageOfEqualSamples(xs: seq<int>, v: int)
    requires |xs| > 0
    requires 0 <= v
    requires forall i :: 0 <= i < |xs| ==> xs[i] == v
    ensures FairAverage(xs) == v
  {
    FairAverageBounds(xs, v, v);
  }

  /**
   * Fair rounding fails for negative sums, because C division truncates
   * toward zero: two or more identical negative samples average to one
   * above that sample (two samples of -1 average to 0).
   */
  lemma FairAverageOfEqualNegativeSamples(xs: seq<int>, v: int)
    requires |xs| >= 2
    requires v < 0
    requires forall i :: 0 <= i < |xs| ==> xs[i] == v
    ensures FairAverage(xs) == v + 1
  {
    var n, r := |xs|, FairAverage(xs);
    SumBounds(xs, v, v);
    var a := Sum(xs) + n / 2;
    assert a == n * v + n / 2;
    assert n * v <= -n;
    TruncDivBounds(a, n);
    assert r * n - n < a <= r * n;
    assert (r - v) * n == r * n - n * v;
    PositiveFactor(r - v, n);
    assert (v + 2 - r) * n == n * v + n + n - r * n;
    PositiveFactor(v + 2 - r, n);
  }

  /** Samples 0 and 1 average to 1: rounding, not truncation. */
  lemma FairAverageRoundsHalfUp()
    ensures FairAverage([0, 1]) == 1
  {
    assert [0, 1][..1] == [0];
    assert [0][..0] == [];
  }

  // ---------------------------------------------------------------------
  // The sum as written: a 16-bit `int`.
  // ---------------------------------------------------------------------

  /** Two's-complement wrap-around of a 16-bit `int`. */
  function Wrap16(x: int): (r: int)
    ensures -32768 <= r < 32768
    ensures -32768 <= x < 32768 ==> r == x
  {
    (x + 32768) % 65536 - 32768
  }

  /** `sum += angle()` in a 16-bit `int`, wrapping on overflow. */
  function Sum16(xs: seq<int>): int
  {
    if xs == [] then 0 else Wrap16(Sum16(xs[..|xs| - 1]) + xs[|xs| - 1])
  }

  /** Line 193 evaluated in 16-bit `int` arithmetic. */
  function FairAverageInt16(xs: seq<int>): int
    requires |xs| > 0
  {
    TruncDiv(Wrap16(Sum16(xs) + |xs| / 2), |xs|)
  }

  /** The average computed from a running 16-bit sum of the samples. */
  lemma AverageOfRunningSum(xs: seq<int>, sum: int, n: int)
    requires 0 < n == |xs|
    requires sum == Sum16(xs)
    ensures TruncDiv(Wrap16(sum + n / 2), n) == FairAverageInt16(xs)
  {
  }

  lemma WrapAdd(a: int, b: int)
    ensures Wrap16(Wrap16(a) + b) == Wrap16(a + b)
  {
    var k := (a + 32768) / 65536;
    assert Wrap16(a) == a - 65536 * k;
    assert (Wrap16(a) + b + 32768) % 65536 == (a + b + 32768 - 65536 * k) % 65536;
  }

  /** The 16-bit running sum is the true sum wrapped once. */
  lemma {:induction false} Sum16IsWrappedSum(xs: seq<int>)
    ensures Sum16(xs) == Wrap16(Sum(xs))
  {
    if xs != [] {
      Sum16IsWrappedSum(xs[..|xs| - 1]);
      WrapAdd(Sum(xs[..|xs| - 1]), xs[|xs| - 1]);
    }
  }

  /** Up to 32 samples of one turn, the 16-bit sum cannot overflow. */
  lemma AverageInt16AgreesForFewSamples(xs: seq<int>)
    requires 0 < |xs| <= 32
    requires forall i :: 0 <= i < |xs| ==> 0 <= xs[i] < RESOLUTION
    ensures FairAverageInt16(xs) == FairAverage(xs)
  {
    SumBounds(xs, 0, RESOLUTION - 1);
    Sum16IsWrappedSum(xs);
  }

  /** 33 samples of 1023 overflow the 16-bit sum: the average comes out as -962. */
  lemma AverageInt16Overflows()
    ensures var xs := seq(33, _ => 1023);
            FairAverageInt16(xs) == -962 && FairAverage(xs) == 1023
  {
    var xs := seq(33, _ => 1023);
    SumBounds(xs, 1023, 1023);
    Sum16IsWrappedSum(xs);
    FairAverageOfEqualSamples(xs, 1023);
    assert Wrap16(33759 + 16) == -31761;
  }
}
