/**
 * computeMasa and computeRitu of src/calculations/masa.ts: the lunar month
 * named after the zodiac sign (raasi) the Sun occupies at the previous new
 * moon, the adhika (leap) flag when the Sun is still in that sign at the
 * next new moon, and the season of a month.
 */
module Masa {
  import opened Wrappers
  import opened Foreign
  import opened Angles
  import opened Errors

  datatype MasaResult = MasaResult(masa: int, isLeap: bool)

  /**
   * Math.ceil(sunTrop / 30) with 0 read as 12.  The next raasi is written
   * `Math.ceil(...) || 12`, which replaces the same falsy 0, so both signs
   * are read with this one function.
   */
  function Raasi(sunTrop: real): (r: int)
    ensures 0.0 <= sunTrop < 360.0 ==> 1 <= r <= 12
    ensures sunTrop == 0.0 ==> r == 12
    ensures sunTrop > 0.0 ==> (r - 1) as real * 30.0 < sunTrop <= r as real * 30.0
  {
    var c := Ceil(sunTrop / 30.0);
    if c == 0 then 12 else c
  }

  /** raasi + 1, brought back with % 12 when it passes 12: the month after the sign. */
  function MasaOfRaasi(raasi: int): (m: int)
    ensures 1 <= raasi <= 12 ==> 1 <= m <= 12 && m == raasi % 12 + 1
  {
    var m := raasi + 1;
    if m > 12 then TruncRem(m, 12) else m
  }

  /** The month from the Sun's tropical longitude at the last and at the next new moon. */
  function MasaFromNewMoons(env: Env, obs: Observer, lastNewMoon: Instant, nextNewMoon: Instant): (r: MasaResult)
    ensures 1 <= r.masa <= 12
    ensures r.masa == Raasi(TropicalLongitude(env, Sun, lastNewMoon, obs)) % 12 + 1
    ensures r.isLeap <==> Raasi(TropicalLongitude(env, Sun, lastNewMoon, obs)) == Raasi(TropicalLongitude(env, Sun, nextNewMoon, obs))
  {
    var raasi := Raasi(TropicalLongitude(env, Sun, lastNewMoon, obs));
    var nextRaasi := Raasi(TropicalLongitude(env, Sun, nextNewMoon, obs));
    MasaResult(MasaOfRaasi(raasi), raasi == nextRaasi)
  }

  /** The mean synodic month, in days. */
  const SynodicMonth: real := 29.53

  /**
   * What computeMasa returns.  The next new moon is searched for up to a
   * month ahead; the last one is taken a fixed month back, a time that
   * always exists, so only the forward search can fail.
   */
  function MasaOf(env: Env, sunrise: Instant, obs: Observer): (r: Result<MasaResult, PanchangaError>)
    ensures r.Failure? <==> env.searchMoonPhase(0.0, sunrise, SynodicMonth).None?
    ensures r.Failure? ==> r.error == NewMoonNotFound
    ensures r.Success? ==>
      r.value == MasaFromNewMoons(env, obs, AddDays(sunrise, -SynodicMonth), env.searchMoonPhase(0.0, sunrise, SynodicMonth).value)
  {
    var nextNewMoon := env.searchMoonPhase(0.0, sunrise, SynodicMonth);
    var lastNewMoon := AddDays(sunrise, -SynodicMonth);
    if nextNewMoon.None? then Failure(NewMoonNotFound)
    else Success(MasaFromNewMoons(env, obs, lastNewMoon, nextNewMoon.value))
  }

  /** computeRitu: Math.floor((masa - 1) / 2). */
  function Ritu(masa: int): (r: int)
    ensures 1 <= masa <= 12 ==> 0 <= r <= 5
  {
    ((masa - 1) as real / 2.0).Floor
  }

  /** Each season spans two consecutive months: months 2k-1 and 2k are season k-1. */
  lemma RituPairs(k: int)
    requires 1 <= k <= 6
    ensures Ritu(2 * k - 1) == k - 1 && Ritu(2 * k) == k - 1
  {
    assert (2 * k - 2) as real / 2.0 == (k - 1) as real;
    assert (k - 1) as real <= (2 * k - 1) as real / 2.0 < k as real;
  }
}
