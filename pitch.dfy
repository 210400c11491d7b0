/**
 Equal temperament over integer semitones. The factor 2^(n/12) of a pitch n semitones
 above a tonic is irrational for most n, so the twelve ratios inside one octave are a
 parameter of the model, constrained by the facts every equal-tempered scale satisfies;
 the octave structure around them is exact.
 */
module Pitch {

  /** 2^k for every integer k. */
  function Pow2(k: int): (p: real)
    ensures p > 0.0
    decreases if k < 0 then -k else k
  {
    if k == 0 then 1.0
    else if k > 0 then 2.0 * Pow2(k - 1)
    else Pow2(k + 1) / 2.0
  }

  lemma Pow2Succ(k: int)
    ensures Pow2(k + 1) == 2.0 * Pow2(k)
  {
  }

  /**
   The ratios 2^(0/12), ..., 2^(11/12): the first is 1, they strictly increase, and the
   last stays below the octave 2.
   */
  predicate ValidRatios(r: seq<real>) {
    && |r| == 12
    && r[0] == 1.0
    && r[11] < 2.0
    && forall i, j :: 0 <= i < j < |r| ==> r[i] < r[j]
  }

  type OctaveRatios = r: seq<real> | ValidRatios(r)
    witness [1.0, 1.06, 1.12, 1.19, 1.26, 1.33, 1.41, 1.5, 1.59, 1.68, 1.78, 1.89]

  /** 2^(n/12): whole octaves are exact powers of two, the rest comes from `r`. */
  function Ratio(r: OctaveRatios, n: int): (x: real)
    ensures x > 0.0
  {
    assert n % 12 == 0 || r[0] < r[n % 12];
    Pow2(n / 12) * r[n % 12]
  }

  /** Within the first octave the ratio is the tuning's own entry. */
  lemma RatioInFirstOctave(r: OctaveRatios, n: int)
    requires 0 <= n < 12
    ensures Ratio(r, n) == r[n]
  {
  }

  /** No semitones, no change: 2^0 == 1. */
  lemma RatioUnison(r: OctaveRatios)
    ensures Ratio(r, 0) == 1.0
  {
  }

  /** Twelve semitones up is one octave up: the ratio doubles. */
  lemma {:induction false} RatioOctave(r: OctaveRatios, n: int)
    ensures Ratio(r, n + 12) == 2.0 * Ratio(r, n)
  {
    assert (n + 12) / 12 == n / 12 + 1;
    assert (n + 12) % 12 == n % 12;
    Pow2Succ(n / 12);
  }

  lemma ScaleLess(p: real, a: real, b: real)
    requires p > 0.0 && a < b
    ensures p * a < p * b
  {
  }

  /** Scaling by a factor between 1 and 2 lands between the value and twice it. */
  lemma ScaleWithinOctave(p: real, x: real)
    requires p > 0.0 && 1.0 <= x <= 2.0
    ensures p <= p * x <= 2.0 * p
  {
  }

  /** One semitone up always raises the pitch. */
  lemma {:induction false} RatioStep(r: OctaveRatios, n: int)
    ensures Ratio(r, n) < Ratio(r, n + 1)
  {
    var q, m := n / 12, n % 12;
    var p := Pow2(q);
    if m < 11 {
      assert (n + 1) / 12 == q && (n + 1) % 12 == m + 1;
      ScaleLess(p, r[m], r[m + 1]);
      calc {
        Ratio(r, n);
        p * r[m];
      <
        p * r[m + 1];
        Ratio(r, n + 1);
      }
    } else {
      assert (n + 1) / 12 == q + 1 && (n + 1) % 12 == 0;
      Pow2Succ(q);
      ScaleLess(p, r[11], 2.0);
      calc {
        Ratio(r, n);
        p * r[11];
      <
        p * 2.0;
        Pow2(q + 1) * r[0];
        Ratio(r, n + 1);
      }
    }
  }

  /** The ratio strictly increases with the number of semitones. */
  lemma {:induction false} RatioMonotone(r: OctaveRatios, s: int, t: int)
    requires s < t
    ensures Ratio(r, s) < Ratio(r, t)
    decreases t - s
  {
    RatioStep(r, s);
    if s + 1 < t {
      RatioMonotone(r, s + 1, t);
    }
  }

  /** Inside the first octave the ratio lies between 1 and 2. */
  lemma RatioWithinOctave(r: OctaveRatios, n: int)
    requires 0 <= n <= 12
    ensures 1.0 <= Ratio(r, n) <= 2.0
  {
    RatioUnison(r);
    RatioOctave(r, 0);
    if 0 < n { RatioMonotone(r, 0, n); }
    if n < 12 { RatioMonotone(r, n, 12); }
  }
}
