/**
 * computeKarana of src/calculations/karana.ts: the half-tithi (one of 60,
 * each 6 degrees of Moon-Sun elongation) at sunrise.
 */
module Karana {
  import opened Foreign
  import opened Angles
  import opened Tithi

  /** Math.ceil(phase / 6) with 0 read as 60. */
  function KaranaIndex(phase: real): (r: int)
    ensures 0.0 <= phase < 360.0 ==> 1 <= r <= 60
    ensures phase == 0.0 ==> r == 60
    ensures phase > 0.0 ==> (r - 1) as real * 6.0 < phase <= r as real * 6.0
  {
    var c := Ceil(phase / 6.0);
    if c == 0 then 60 else c
  }

  /** The karana at sunrise. */
  function ComputeKarana(env: Env, sunrise: Instant, obs: Observer): (r: int)
    ensures 1 <= r <= 60
    ensures Elongation(env, sunrise, obs) == 0.0 ==> r == 60
    ensures var phase := Elongation(env, sunrise, obs);
      phase > 0.0 ==> (r - 1) as real * 6.0 < phase <= r as real * 6.0
  {
    KaranaIndex(Elongation(env, sunrise, obs))
  }

  /** Two karanas make a tithi: halving the karana index, rounded up, gives the tithi index of the same elongation. */
  lemma KaranaHalvesTithi(phase: real)
    requires 0.0 <= phase < 360.0
    ensures Ceil(KaranaIndex(phase) as real / 2.0) == TithiIndex(phase)
    ensures 1 <= Ceil(KaranaIndex(phase) as real / 2.0) <= 30
  {
    var k, t := KaranaIndex(phase), TithiIndex(phase);
    if phase > 0.0 {
      assert (k - 1) as real < (2 * t) as real by {
        assert (k - 1) as real * 6.0 < t as real * 12.0;
      }
      assert (2 * t - 2) as real < k as real by {
        assert (t - 1) as real * 12.0 < k as real * 6.0;
      }
    }
    var c := Ceil(k as real / 2.0);
    assert (c - 1) as real < k as real / 2.0 <= c as real;
    assert c == t;
  }
}
