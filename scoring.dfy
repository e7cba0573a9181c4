/** Exact integer model of `Math.round(s / t * 100)`, the percentage every
    part of the system shows (audit scores, quiz scores, training progress),
    and the 80 / 60 thresholds that several of them are graded by. */
module Scoring {

  /** `Math.round(x)` is `floor(x + 1/2)`; with x = 100*s/t this is
      `floor((200*s + t) / (2*t))`, Dafny's `/` being floor division for a
      positive divisor. */
  function Percent(s: int, t: int): (r: int)
    requires t > 0
    ensures 2 * t * r <= 200 * s + t < 2 * t * (r + 1)
  {
    (200 * s + t) / (2 * t)
  }

  /** The rounding bracket determines the result: any integer in it is Percent. */
  lemma {:induction false} PercentUnique(s: int, t: int, r: int)
    requires t > 0
    requires 2 * t * r <= 200 * s + t < 2 * t * (r + 1)
    ensures Percent(s, t) == r
  {
    var p := Percent(s, t);
    FactorCancel(2 * t, p, r + 1);
    FactorCancel(2 * t, r, p + 1);
  }

  /** Cancelling a positive factor from a strict inequality. */
  lemma FactorCancel(k: int, a: int, b: int)
    requires k > 0 && k * a < k * b
    ensures a < b
  {
    if a >= b {
      MulMono(k, b, a);
    }
  }

  lemma MulMono(k: int, a: int, b: int)
    requires k >= 0 && a <= b
    ensures k * a <= k * b
  {
  }

  /** A score between 0 and its denominator gives a percentage in 0..100. */
  lemma {:induction false} PercentBounds(s: int, t: int)
    requires t > 0 && 0 <= s <= t
    ensures 0 <= Percent(s, t) <= 100
  {
    var p := Percent(s, t);
    FactorCancel(2 * t, -1, p + 1);
    assert 200 * s <= 200 * t;
    FactorCancel(2 * t, p, 101);
  }

  /** More points never give a lower percentage. */
  lemma {:induction false} PercentMonotone(s1: int, s2: int, t: int)
    requires t > 0 && s1 <= s2
    ensures Percent(s1, t) <= Percent(s2, t)
  {
    var p1, p2 := Percent(s1, t), Percent(s2, t);
    FactorCancel(2 * t, p1, p2 + 1);
  }

  /** All points give exactly 100, no points exactly 0. */
  lemma {:induction false} PercentEndpoints(t: int)
    requires t > 0
    ensures Percent(t, t) == 100 && Percent(0, t) == 0
  {
    PercentUnique(t, t, 100);
    PercentUnique(0, t, 0);
  }

  /** The values quoted for the two audit denominators (half-way cases round up). */
  lemma PercentExamples()
    ensures Percent(5, 16) == 31 && Percent(2, 16) == 13 && Percent(11, 14) == 79
    ensures Percent(12, 16) == 75 && Percent(13, 16) == 81
    ensures Percent(9, 16) == 56 && Percent(10, 16) == 63
    ensures Percent(8, 14) == 57 && Percent(9, 14) == 64 && Percent(12, 14) == 86
  {
  }

  /** The three grades that the ISO verdict, both certificates and the quiz
      results share: 80 or more, 60 to 79, below 60. */
  datatype Band = High | Mid | Low

  function BandOf(pct: int): (b: Band)
    ensures b == High <==> 80 <= pct
    ensures b == Mid <==> 60 <= pct < 80
    ensures b == Low <==> pct < 60
  {
    if pct >= 80 then High else if pct >= 60 then Mid else Low
  }

  /** Grades are ordered like the percentages they come from. */
  function Rank(b: Band): nat
  {
    match b
    case Low => 0
    case Mid => 1
    case High => 2
  }

  lemma BandMonotone(p1: int, p2: int)
    requires p1 <= p2
    ensures Rank(BandOf(p1)) <= Rank(BandOf(p2))
  {
  }
}
