/**
 * The angle layer of src/utils/helpers.ts: normalisation of degrees to
 * [0, 360), the linear ayanamsa, tropical and sidereal longitudes, the
 * Julian day of a time value and the day offsets added to an instant.
 * JavaScript numbers are modelled as exact reals; where the source rounds
 * (a truncating `%`, a Date setter that drops fractions) the rounding is
 * written out.
 */
module Angles {
  import opened Foreign

  /** Rounding toward zero, as JavaScript's `%` and its integer conversions do. */
  function Trunc(x: real): (r: int)
    ensures x >= 0.0 ==> 0 <= r && r as real <= x < r as real + 1.0
    ensures x < 0.0 ==> r <= 0 && r as real - 1.0 < x <= r as real
  {
    if x >= 0.0 then x.Floor else -((-x).Floor)
  }

  /** Math.ceil. */
  function Ceil(x: real): (r: int)
    ensures r as real - 1.0 < x <= r as real
  {
    -((-x).Floor)
  }

  /** JavaScript's `a % m` on integer values: the remainder keeps the sign of a. */
  function TruncRem(a: int, m: int): (r: int)
    requires m > 0
    ensures a >= 0 ==> 0 <= r < m && r == a % m
    ensures a < 0 ==> -m < r <= 0
    ensures (a - r) % m == 0
  {
    if a >= 0 then
      MultipleRem(a - a % m, m, a / m);
      a % m
    else
      var q := (-a) / m;
      assert -a == m * q + (-a) % m;
      assert m * -q == -(m * q);
      MultipleRem(a + (-a) % m, m, -q);
      -((-a) % m)
  }

  lemma MultipleRem(x: int, m: int, q: int)
    requires m > 0 && x == m * q
    ensures x % m == 0
  {
    var d, r := x / m, x % m;
    assert m * (q - d) == r by {
      assert x == m * d + r;
    }
    if q - d >= 1 {
      assert false;
    } else if q - d <= -1 {
      assert false;
    }
  }

  predicate IsIntegral(x: real) {
    x.Floor as real == x
  }

  /** a and b differ by a whole number of turns. */
  predicate Congruent360(a: real, b: real) {
    IsIntegral((a - b) / 360.0)
  }

  lemma IntegralClosed(x: real, y: real)
    requires IsIntegral(x) && IsIntegral(y)
    ensures IsIntegral(x + y) && IsIntegral(x - y)
  {
    var a, b := x.Floor, y.Floor;
    assert x + y == (a + b) as real;
    assert ((a + b) as real).Floor == a + b;
    assert x - y == (a - b) as real;
    assert ((a - b) as real).Floor == a - b;
  }

  /** JavaScript's `a % 360`: the remainder keeps the sign of a. */
  function Rem360(a: real): (r: real)
    ensures -360.0 < r < 360.0
    ensures a >= 0.0 ==> r >= 0.0
    ensures a < 0.0 ==> r <= 0.0
    ensures Congruent360(a, r)
  {
    var q := Trunc(a / 360.0);
    assert (a - (a - 360.0 * q as real)) / 360.0 == q as real;
    a - 360.0 * q as real
  }

  /** mod360: ((angle % 360) + 360) % 360. */
  function Mod360(angle: real): (r: real)
    ensures 0.0 <= r < 360.0
    ensures Congruent360(angle, r)
  {
    var inner := Rem360(angle);
    var r := Rem360(inner + 360.0);
    IntegralClosed((angle - inner) / 360.0, (inner + 360.0 - r) / 360.0);
    IntegralClosed((angle - inner) / 360.0 + (inner + 360.0 - r) / 360.0, 1.0);
    assert (angle - r) / 360.0 == (angle - inner) / 360.0 + (inner + 360.0 - r) / 360.0 - 1.0;
    r
  }

  /** mod360 returns the one angle in [0, 360) congruent to its argument. */
  lemma Mod360Unique(angle: real, r: real)
    requires 0.0 <= r < 360.0 && Congruent360(angle, r)
    ensures Mod360(angle) == r
  {
    var m := Mod360(angle);
    IntegralClosed((angle - m) / 360.0, (angle - r) / 360.0);
    assert (r - m) / 360.0 == (angle - m) / 360.0 - (angle - r) / 360.0;
    var k := ((r - m) / 360.0).Floor;
    assert -1 < k < 1;
  }

  /** An angle already in [0, 360) is left as it is. */
  lemma Mod360Normalised(angle: real)
    requires 0.0 <= angle < 360.0
    ensures Mod360(angle) == angle
  {
    assert IsIntegral(0.0);
    Mod360Unique(angle, angle);
  }

  /** Normalising twice is normalising once. */
  lemma Mod360Idempotent(angle: real)
    ensures Mod360(Mod360(angle)) == Mod360(angle)
  {
    Mod360Normalised(Mod360(angle));
  }

  /** getUTCSeconds: the seconds field of a time value, counted within its minute. */
  function UtcSeconds(t: Instant): (s: int)
    ensures 0 <= s <= 59
    ensures (t / 1000 - s) % 60 == 0
  {
    var secs := t / 1000;
    MultipleRem(secs - secs % 60, 60, secs / 60);
    secs % 60
  }

  /**
   * addDays: setUTCSeconds(getUTCSeconds() + days * 86400) replaces the
   * seconds field by the new count truncated toward zero and keeps the
   * milliseconds, so the shift is days * 86400 seconds rounded toward zero
   * as counted from the start of the current minute.
   */
  function AddDays(t: Instant, days: real): (r: Instant)
    ensures (r - t) % 1000 == 0
    ensures UtcSeconds(t) as real + days * 86400.0 >= 0.0 ==> 0.0 <= days * 86400000.0 - (r - t) as real < 1000.0
    ensures UtcSeconds(t) as real + days * 86400.0 < 0.0 ==> -1000.0 < days * 86400000.0 - (r - t) as real <= 0.0
  {
    var s0 := UtcSeconds(t);
    var s := Trunc(s0 as real + days * 86400.0);
    MultipleRem((s - s0) * 1000, 1000, s - s0);
    t - s0 * 1000 + s * 1000
  }

  /** Counting from the minute's start: half a second back from 00:00:30 is 00:00:29, not 00:00:30. */
  lemma AddDaysHalfSecondBack()
    ensures AddDays(30000, -0.5 / 86400.0) == 29000
  {
    assert UtcSeconds(30000) == 30;
  }

  /** Whole days and the quarter-day sampling offsets are added exactly. */
  lemma AddDaysExact(t: Instant, quarters: int)
    ensures AddDays(t, quarters as real / 4.0) == t + quarters * 21600000
  {
    var s0 := UtcSeconds(t);
    assert s0 as real + quarters as real / 4.0 * 86400.0 == (s0 + quarters * 21600) as real;
  }

  /** getJulianDay. */
  function JulianDay(t: Instant): (jd: real)
    ensures t >= 0 <==> jd >= 2440587.5
  {
    t as real / 86400000.0 + 2440587.5
  }

  /** The Unix epoch is Julian day 2440587.5, and each day of milliseconds adds one. */
  lemma JulianDayEpochAndRate(t: Instant, days: int)
    ensures JulianDay(0) == 2440587.5
    ensures JulianDay(t + days * 86400000) == JulianDay(t) + days as real
  {
  }

  /** The milliseconds of one day. */
  const DayMs: int := 86400000

  /** The leap years of the proleptic Gregorian calendar a Date counts in. */
  predicate IsLeapYear(y: int) {
    (y % 4 == 0 && y % 100 != 0) || y % 400 == 0
  }

  /** The day, counted from 1970-01-01, on which year y begins. */
  function YearStart(y: int): int {
    365 * y + (y + 3) / 4 - (y + 99) / 100 + (y + 399) / 400 - 719528
  }

  /** Years follow one another by 365 days, 366 after a leap year, and 1970 begins on day 0. */
  lemma YearStartStep(y: int)
    ensures YearStart(y + 1) - YearStart(y) == if IsLeapYear(y) then 366 else 365
    ensures YearStart(1970) == 0
  {
    MultiplesStep(y, 4);
    MultiplesStep(y, 100);
    MultiplesStep(y, 400);
    var d4, d100, d400 := (if y % 4 == 0 then 1 else 0), (if y % 100 == 0 then 1 else 0), (if y % 400 == 0 then 1 else 0);
    assert YearStart(y + 1) - YearStart(y) == 365 + d4 - d100 + d400;
    if y % 400 == 0 {
      MultipleRem(y, 100, 4 * (y / 400));
      MultipleRem(y, 4, 100 * (y / 400));
    } else if y % 100 == 0 {
      MultipleRem(y, 4, 25 * (y / 100));
    }
  }

  /** Counting multiples of k: moving from y to y + 1 adds one exactly when y is a multiple. */
  lemma MultiplesStep(y: int, k: int)
    requires k == 4 || k == 100 || k == 400
    ensures (y + k) / k - (y + k - 1) / k == if y % k == 0 then 1 else 0
  {
    var a, m := y / k, y % k;
    if k == 4 {
      assert y == 4 * a + m && 0 <= m < 4;
      assert (y + 4) / 4 == a + 1;
      assert (y + 3) / 4 == if m == 0 then a else a + 1;
    } else if k == 100 {
      assert y == 100 * a + m && 0 <= m < 100;
      assert (y + 100) / 100 == a + 1;
      assert (y + 99) / 100 == if m == 0 then a else a + 1;
    } else {
      assert y == 400 * a + m && 0 <= m < 400;
      assert (y + 400) / 400 == a + 1;
      assert (y + 399) / 400 == if m == 0 then a else a + 1;
    }
  }

  /** Later years start later. */
  lemma {:induction false} YearStartsAscend(a: int, b: int)
    requires a <= b
    ensures YearStart(a) <= YearStart(b)
    decreases b - a
  {
    if a < b {
      YearStartStep(a);
      YearStartsAscend(a + 1, b);
    }
  }

  /** A year starts within a day and a half of 365.2425 days per year since 1970 (scaled by 400). */
  lemma YearStartNear(y: int)
    ensures 146097 * (y - 1970) - 607 < 400 * YearStart(y) < 146097 * (y - 1970) + 593
  {
    var q4, q100, q400 := (y + 3) / 4, (y + 99) / 100, (y + 399) / 400;
    assert 4 * q4 <= y + 3 < 4 * q4 + 4;
    assert 100 * q100 <= y + 99 < 100 * q100 + 100;
    assert 400 * q400 <= y + 399 < 400 * q400 + 400;
  }

  /**
   * getUTCFullYear: the year whose first day is at or before the instant's
   * day and whose successor's first day is after it, found from the mean
   * Gregorian year and corrected by one either way.
   */
  function UtcYear(t: Instant): (y: int)
    ensures YearStart(y) <= t / DayMs < YearStart(y + 1)
  {
    var d := t / DayMs;
    var est := (400 * d) / 146097 + 1970;
    YearStartNear(est - 1);
    YearStartNear(est);
    YearStartNear(est + 1);
    YearStartNear(est + 2);
    if YearStart(est) > d then est - 1
    else if YearStart(est + 1) <= d then est + 1
    else est
  }

  /** Only one year holds a given day, so the year of an instant is determined. */
  lemma UtcYearUnique(t: Instant, y: int)
    requires YearStart(y) <= t / DayMs < YearStart(y + 1)
    ensures y == UtcYear(t)
  {
    var u := UtcYear(t);
    if y < u {
      YearStartsAscend(y + 1, u);
    } else if u < y {
      YearStartsAscend(u + 1, y);
    }
  }

  /** computeAyanamsa, as a function of the UTC year. */
  function Ayanamsa(year: int): (r: real)
    ensures year >= 2000 <==> r >= 24.07
  {
    24.07 + 0.014 * (year - 2000) as real
  }

  /** The ayanamsa is 24.07 degrees in 2000 and grows by 0.014 degrees a year. */
  lemma AyanamsaAnchorAndRate(year: int)
    ensures Ayanamsa(2000) == 24.07
    ensures Ayanamsa(year + 1) == Ayanamsa(year) + 0.014
  {
  }

  /** tropicalLongitude: the ecliptic longitude, normalised. */
  function TropicalLongitude(env: Env, body: Body, t: Instant, obs: Observer): (r: real)
    ensures 0.0 <= r < 360.0
    ensures Congruent360(env.eclipticLongitude(body, t, obs), r)
  {
    Mod360(env.eclipticLongitude(body, t, obs))
  }

  /** The Moon-Sun elongation mod360(moon - sun) that tithi and karana are read from. */
  function Elongation(env: Env, t: Instant, obs: Observer): (r: real)
    ensures 0.0 <= r < 360.0
    ensures Congruent360(TropicalLongitude(env, Moon, t, obs) - TropicalLongitude(env, Sun, t, obs), r)
  {
    Mod360(TropicalLongitude(env, Moon, t, obs) - TropicalLongitude(env, Sun, t, obs))
  }

  /** siderealLongitude: tropical longitude minus the ayanamsa of the instant's UTC year, normalised. */
  function SiderealLongitude(env: Env, body: Body, t: Instant, obs: Observer): (r: real)
    ensures 0.0 <= r < 360.0
    ensures Congruent360(TropicalLongitude(env, body, t, obs) - Ayanamsa(UtcYear(t)), r)
  {
    Mod360(TropicalLongitude(env, body, t, obs) - Ayanamsa(UtcYear(t)))
  }
}
