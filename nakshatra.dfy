/**
 * computeNakshatra of src/calculations/nakshatra.ts: the lunar mansion (one
 * of 27 equal arcs of the sidereal zodiac) holding the Moon at sunrise, and
 * the instant the Moon reaches the mansion's far edge.
 */
module Nakshatra {
  import opened Wrappers
  import opened Foreign
  import opened Angles
  import opened Interpolation
  import opened Errors

  /** The arc of one nakshatra (and of one yoga), 360 / 27 degrees. */
  const Span: real := 360.0 / 27.0

  datatype NakshatraResult = NakshatraResult(index: int, endTime: Instant)

  /**
   * Math.ceil(angle * 27 / 360) with 0 read as 27: the arc of 27 holding the
   * angle.  computeNakshatra reads it from the Moon's sidereal longitude and
   * computeYoga, in the same way, from the sidereal sum.
   */
  function ArcIndex(angle: real): (r: int)
    ensures 0.0 <= angle < 360.0 ==> 1 <= r <= 27
    ensures angle == 0.0 ==> r == 27
    ensures angle > 0.0 ==> (r - 1) as real * Span < angle <= r as real * Span
  {
    var c := Ceil(angle * 27.0 / 360.0);
    if c == 0 then 27 else c
  }

  /** The far edge of arc index: the target handed to interpolateTime. */
  function ArcEnd(index: int): real {
    index as real * Span
  }

  /** The edge lies in (0, 360] and, away from 0, less than one arc ahead of the angle. */
  lemma ArcEndBounds(angle: real)
    requires 0.0 <= angle < 360.0
    ensures 0.0 < ArcEnd(ArcIndex(angle)) <= 360.0
    ensures angle > 0.0 ==> 0.0 <= ArcEnd(ArcIndex(angle)) - angle < Span
  {
  }

  /** The function interpolateTime samples: the Moon's sidereal longitude. */
  function MoonSidereal(env: Env, obs: Observer): Instant -> real {
    t => SiderealLongitude(env, Moon, t, obs)
  }

  /**
   * What computeNakshatra returns; a non-finite interpolation reaches the
   * AstroTime constructor inside addDays, which throws: InvalidTime.
   */
  function NakshatraOf(env: Env, sunrise: Instant, obs: Observer): (r: Result<NakshatraResult, PanchangaError>)
    ensures r.Failure? <==> !Distinct(Samples(MoonSidereal(env, obs), sunrise, DefaultOffsets))
    ensures r.Failure? ==> r.error == InvalidTime
    ensures r.Success? ==>
      var moonSid := SiderealLongitude(env, Moon, sunrise, obs);
      && 1 <= r.value.index <= 27
      && (moonSid == 0.0 ==> r.value.index == 27)
      && (moonSid > 0.0 ==> (r.value.index - 1) as real * Span < moonSid <= r.value.index as real * Span)
      && Some(r.value.endTime) == Interpolated(sunrise, ArcEnd(r.value.index), MoonSidereal(env, obs), DefaultOffsets)
  {
    var moonSid := SiderealLongitude(env, Moon, sunrise, obs);
    var index := ArcIndex(moonSid);
    var endTime := Interpolated(sunrise, ArcEnd(index), MoonSidereal(env, obs), DefaultOffsets);
    if endTime.None? then Failure(InvalidTime) else Success(NakshatraResult(index, endTime.value))
  }

  /** The first sample, at sunrise, is the very longitude the index was read from. */
  lemma FirstSampleIsSunriseLongitude(env: Env, sunrise: Instant, obs: Observer)
    ensures Samples(MoonSidereal(env, obs), sunrise, DefaultOffsets)[0] == SiderealLongitude(env, Moon, sunrise, obs)
  {
    SampleAt(MoonSidereal(env, obs), sunrise, DefaultOffsets, 0);
    AddDaysExact(sunrise, 0);
    assert DefaultOffsets[0] == 0 as real / 4.0;
    Mod360Normalised(SiderealLongitude(env, Moon, sunrise, obs));
  }
}
