/**
 * computeTithi of src/calculations/tithi.ts: the lunar day (one of 30, each
 * 12 degrees of Moon-Sun elongation) at sunrise, its end time found by
 * inverse interpolation over the relative motion sampled through the day,
 * and the record of a tithi skipped before the next sunrise.
 */
module Tithi {
  import opened Wrappers
  import opened Foreign
  import opened Angles
  import opened Interpolation
  import opened Errors

  datatype LeapTithi = LeapTithi(index: int, endTime: Instant)

  /** The tithi record; leap is the optional leapTithi field set after the record is built. */
  datatype TithiResult = TithiResult(index: int, endTime: Instant, leap: Option<LeapTithi>)

  /** Math.ceil(phase / 12) with 0 read as 30. */
  function TithiIndex(phase: real): (r: int)
    ensures 0.0 <= phase < 360.0 ==> 1 <= r <= 30
    ensures phase == 0.0 ==> r == 30
    ensures phase > 0.0 ==> (r - 1) as real * 12.0 < phase <= r as real * 12.0
  {
    var c := Ceil(phase / 12.0);
    if c == 0 then 30 else c
  }

  /** The degrees of elongation still to go before the tithi ends. */
  function DegreesLeft(today: int, phase: real): real {
    today as real * 12.0 - phase
  }

  /** Inside a tithi less than 12 degrees remain; at new moon exactly the whole circle. */
  lemma DegreesLeftRange(phase: real)
    requires 0.0 <= phase < 360.0
    ensures phase > 0.0 ==> 0.0 <= DegreesLeft(TithiIndex(phase), phase) < 12.0
    ensures phase == 0.0 ==> DegreesLeft(TithiIndex(phase), phase) == 360.0
  {
  }

  /** The index of tomorrow's tithi: Math.ceil without the remap, so 0 is possible. */
  function TomorrowIndex(phase: real): (r: int)
    ensures 0.0 <= phase < 360.0 ==> 0 <= r <= 30
    ensures r == 0 <==> -12.0 < phase <= 0.0
  {
    Ceil(phase / 12.0)
  }

  /** (tomorrow - today + 30) % 30: how many tithis the next sunrise is ahead, modulo 30. */
  function SkipMeasure(tomorrow: int, today: int): int {
    TruncRem(tomorrow - today + 30, 30)
  }

  lemma SkipMeasureRange(tomorrow: int, today: int)
    requires 0 <= tomorrow <= 30 && 1 <= today <= 30
    ensures 0 <= SkipMeasure(tomorrow, today) <= 29
    ensures SkipMeasure(tomorrow, today) == (tomorrow - today) % 30
  {
  }

  /** The sampling offsets, in days after sunrise. */
  const TithiOffsets: seq<real> := [0.25, 0.5, 0.75, 1.0]

  /** The relative motion at one offset: the angle between the Moon's and the Sun's advance since sunrise. */
  function RelativeMotion(env: Env, sunrise: Instant, obs: Observer, offset: real): real {
    var sample := AddDays(sunrise, offset);
    var lunarDiff := Mod360(TropicalLongitude(env, Moon, sample, obs) - TropicalLongitude(env, Moon, sunrise, obs));
    var solarDiff := Mod360(TropicalLongitude(env, Sun, sample, obs) - TropicalLongitude(env, Sun, sunrise, obs));
    env.angleDifference(lunarDiff, solarDiff)
  }

  /** The relative motions the loop collects, one per offset, in offset order. */
  function RelativeMotions(env: Env, sunrise: Instant, obs: Observer, offsets: seq<real>): (m: seq<real>)
    ensures |m| == |offsets|
  {
    seq(|offsets|, i requires 0 <= i < |offsets| => RelativeMotion(env, sunrise, obs, offsets[i]))
  }

  /** The instant at which the interpolated relative motion reaches target; None when that is not finite. */
  function EndAt(env: Env, sunrise: Instant, obs: Observer, target: real): Option<Instant> {
    ShiftBy(sunrise, InverseLagrangeValue(TithiOffsets, RelativeMotions(env, sunrise, obs, TithiOffsets), target))
  }

  /**
   * What computeTithi returns: the index brackets the elongation, the leap
   * record is present exactly when a tithi is skipped, carries the next
   * index and ends where the relative motion has gone 12 degrees further.
   * A non-finite interpolation makes addDays build an AstroTime from an
   * invalid date, which throws: InvalidTime.
   */
  function TithiOf(env: Env, sunrise: Instant, obs: Observer): (r: Result<TithiResult, PanchangaError>)
    ensures var phase := Elongation(env, sunrise, obs);
      var today := TithiIndex(phase);
      var tomorrow := TomorrowIndex(Elongation(env, AddDays(sunrise, 1.0), obs));
      r.Failure? <==>
        EndAt(env, sunrise, obs, DegreesLeft(today, phase)).None?
        || (SkipMeasure(tomorrow, today) > 1 && EndAt(env, sunrise, obs, DegreesLeft(today, phase) + 12.0).None?)
    ensures r.Failure? ==> r.error == InvalidTime
    ensures r.Success? ==>
      var t := r.value;
      var phase := Elongation(env, sunrise, obs);
      var tomorrow := TomorrowIndex(Elongation(env, AddDays(sunrise, 1.0), obs));
      && 1 <= t.index <= 30
      && (phase == 0.0 ==> t.index == 30)
      && (phase > 0.0 ==> (t.index - 1) as real * 12.0 < phase <= t.index as real * 12.0)
      && Some(t.endTime) == EndAt(env, sunrise, obs, DegreesLeft(t.index, phase))
      && (t.leap.Some? <==> SkipMeasure(tomorrow, t.index) > 1)
      && (t.leap.Some? ==>
            t.leap.value.index == t.index + 1 &&
            Some(t.leap.value.endTime) == EndAt(env, sunrise, obs, DegreesLeft(t.index, phase) + 12.0))
  {
    var phase := Elongation(env, sunrise, obs);
    var today := TithiIndex(phase);
    assert DegreesLeft(today + 1, phase) == DegreesLeft(today, phase) + 12.0;
    var endTime := EndAt(env, sunrise, obs, DegreesLeft(today, phase));
    var tomorrow := TomorrowIndex(Elongation(env, AddDays(sunrise, 1.0), obs));
    if endTime.None? then Failure(InvalidTime)
    else if SkipMeasure(tomorrow, today) > 1 then
      var leapEnd := EndAt(env, sunrise, obs, DegreesLeft(today + 1, phase));
      if leapEnd.None? then Failure(InvalidTime)
      else Success(TithiResult(today, endTime.value, Some(LeapTithi(today + 1, leapEnd.value))))
    else Success(TithiResult(today, endTime.value, None))
  }

  /** The sampling loop: one relative motion per offset, pushed in offset order. */
  method SampleRelativeMotions(env: Env, sunrise: Instant, obs: Observer, offsets: seq<real>)
    returns (relativeMotions: seq<real>)
    ensures relativeMotions == RelativeMotions(env, sunrise, obs, offsets)
  {
    relativeMotions := [];
    var k := 0;
    while k < |offsets|
      invariant 0 <= k <= |offsets|
      invariant |relativeMotions| == k
      invariant forall i :: 0 <= i < k ==> relativeMotions[i] == RelativeMotion(env, sunrise, obs, offsets[i])
    {
      var sampleTime := AddDays(sunrise, offsets[k]);
      var lunarDiff := Mod360(TropicalLongitude(env, Moon, sampleTime, obs) - TropicalLongitude(env, Moon, sunrise, obs));
      var solarDiff := Mod360(TropicalLongitude(env, Sun, sampleTime, obs) - TropicalLongitude(env, Sun, sunrise, obs));
      relativeMotions := relativeMotions + [env.angleDifference(lunarDiff, solarDiff)];
      k := k + 1;
    }
  }

  method ComputeTithi(env: Env, sunrise: Instant, obs: Observer) returns (r: Result<TithiResult, PanchangaError>)
    ensures r == TithiOf(env, sunrise, obs)
  {
    var phase := Elongation(env, sunrise, obs);
    var today := Ceil(phase / 12.0);
    if today == 0 {
      today := 30;
    }
    assert today == TithiIndex(phase);
    var degreesLeft := today as real * 12.0 - phase;

    var relativeMotions := SampleRelativeMotions(env, sunrise, obs, TithiOffsets);
    var approxEnd := InverseLagrange(TithiOffsets, relativeMotions, degreesLeft);
    assert EndAt(env, sunrise, obs, DegreesLeft(today, phase)) == ShiftBy(sunrise, approxEnd);
    if approxEnd.None? {
      return Failure(InvalidTime);
    }
    var result := TithiResult(today, AddDays(sunrise, approxEnd.value), None);

    var tomorrow := Ceil(Elongation(env, AddDays(sunrise, 1.0), obs) / 12.0);
    assert tomorrow == TomorrowIndex(Elongation(env, AddDays(sunrise, 1.0), obs));
    if TruncRem(tomorrow - today + 30, 30) > 1 {
      var leapTithi := today + 1;
      var degreesLeftLeap := leapTithi as real * 12.0 - phase;
      var approxEndLeap := InverseLagrange(TithiOffsets, relativeMotions, degreesLeftLeap);
      assert EndAt(env, sunrise, obs, DegreesLeft(today + 1, phase)) == ShiftBy(sunrise, approxEndLeap);
      if approxEndLeap.None? {
        return Failure(InvalidTime);
      }
      result := result.(leap := Some(LeapTithi(leapTithi, AddDays(sunrise, approxEndLeap.value))));
    }
    r := Success(result);
  }

  /**
   * The leap index is today + 1, which is the cyclic successor today % 30 + 1
   * for every tithi but the 30th, where the record says 31 rather than 1.
   */
  lemma LeapIndexWraps(today: int)
    requires 1 <= today <= 30
    ensures today + 1 == today % 30 + 1 <==> today != 30
  {
  }

  /** The end time at a target equal to one of the sampled motions is that sample's instant. */
  lemma EndAtSample(env: Env, sunrise: Instant, obs: Observer, k: nat)
    requires k < |TithiOffsets|
    requires Distinct(RelativeMotions(env, sunrise, obs, TithiOffsets))
    ensures EndAt(env, sunrise, obs, RelativeMotions(env, sunrise, obs, TithiOffsets)[k])
      == Some(sunrise + (k + 1) * 21600000)
  {
    InverseLagrangeReproducesNodes(TithiOffsets, RelativeMotions(env, sunrise, obs, TithiOffsets), k);
    AddDaysExact(sunrise, k + 1);
    assert TithiOffsets[k] == (k + 1) as real / 4.0;
  }
}
