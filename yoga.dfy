/**
 * computeYoga of src/calculations/yoga.ts: one of 27 arcs of the sum of the
 * Sun's and the Moon's sidereal longitudes at sunrise, and the instant the
 * sum reaches the arc's far edge.
 */
module Yoga {
  import opened Wrappers
  import opened Foreign
  import opened Angles
  import opened Interpolation
  import opened Errors
  import opened Nakshatra

  datatype YogaResult = YogaResult(index: int, endTime: Instant)

  /** mod360(sunSid + moonSid). */
  function YogaTotal(sunSid: real, moonSid: real): (r: real)
    ensures 0.0 <= r < 360.0
    ensures Congruent360(sunSid + moonSid, r)
  {
    Mod360(sunSid + moonSid)
  }

  /** Only the sum matters: exchanging the two longitudes leaves the yoga unchanged. */
  lemma YogaSymmetric(sunSid: real, moonSid: real)
    ensures ArcIndex(YogaTotal(sunSid, moonSid)) == ArcIndex(YogaTotal(moonSid, sunSid))
  {
  }

  /** The function interpolateTime samples: the normalised sum of the two sidereal longitudes. */
  function SiderealSum(env: Env, obs: Observer): Instant -> real {
    t => YogaTotal(SiderealLongitude(env, Sun, t, obs), SiderealLongitude(env, Moon, t, obs))
  }

  /** What computeYoga returns; a non-finite interpolation throws in addDays: InvalidTime. */
  function YogaOf(env: Env, sunrise: Instant, obs: Observer): (r: Result<YogaResult, PanchangaError>)
    ensures r.Failure? <==> !Distinct(Samples(SiderealSum(env, obs), sunrise, DefaultOffsets))
    ensures r.Failure? ==> r.error == InvalidTime
    ensures r.Success? ==>
      var total := SiderealSum(env, obs)(sunrise);
      && 1 <= r.value.index <= 27
      && (total == 0.0 ==> r.value.index == 27)
      && (total > 0.0 ==> 0.0 <= ArcEnd(r.value.index) - total < Span)
      && Some(r.value.endTime) == Interpolated(sunrise, ArcEnd(r.value.index), SiderealSum(env, obs), DefaultOffsets)
  {
    var total := YogaTotal(SiderealLongitude(env, Sun, sunrise, obs), SiderealLongitude(env, Moon, sunrise, obs));
    var index := ArcIndex(total);
    ArcEndBounds(total);
    var endTime := Interpolated(sunrise, ArcEnd(index), SiderealSum(env, obs), DefaultOffsets);
    if endTime.None? then Failure(InvalidTime) else Success(YogaResult(index, endTime.value))
  }

  /** The sample at offset 0 is the total the index was read from. */
  lemma FirstSampleIsTotal(env: Env, sunrise: Instant, obs: Observer)
    ensures Samples(SiderealSum(env, obs), sunrise, DefaultOffsets)[0]
      == YogaTotal(SiderealLongitude(env, Sun, sunrise, obs), SiderealLongitude(env, Moon, sunrise, obs))
  {
    SampleAt(SiderealSum(env, obs), sunrise, DefaultOffsets, 0);
    AddDaysExact(sunrise, 0);
    assert DefaultOffsets[0] == 0 as real / 4.0;
    assert AddDays(sunrise, DefaultOffsets[0]) == sunrise;
    Mod360Idempotent(SiderealLongitude(env, Sun, sunrise, obs) + SiderealLongitude(env, Moon, sunrise, obs));
  }
}
