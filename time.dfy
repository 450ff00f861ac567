/**
 * src/calculations/time.ts: the length of daylight, rounded to whole seconds
 * and written HH:MM:SS; the sunrise and sunset search with its failure; and
 * the weekday of sunrise.
 */
module Time {
  import opened Wrappers
  import opened Foreign
  import opened Angles
  import opened Text
  import opened Errors

  /** Math.round: the nearest integer, halves rounded up. */
  function RoundHalfUp(x: real): (r: int)
    ensures r as real - 0.5 <= x < r as real + 0.5
  {
    (x + 0.5).Floor
  }

  /** The day length in hours. */
  function DurationHours(sunrise: Instant, sunset: Instant): (h: real)
    ensures h * 3600000.0 == (sunset - sunrise) as real
  {
    (sunset - sunrise) as real / 3600000.0
  }

  /** The day length in whole seconds, Math.round(hours * 3600). */
  function TotalSeconds(sunrise: Instant, sunset: Instant): (s: int)
    ensures s as real - 0.5 <= (sunset - sunrise) as real / 1000.0 < s as real + 0.5
  {
    RoundHalfUp(DurationHours(sunrise, sunset) * 3600.0)
  }

  datatype Hms = Hms(hours: int, minutes: int, seconds: int)

  /**
   * hh = Math.floor(totalSec / 3600), mm = Math.floor((totalSec % 3600) / 60),
   * ss = totalSec % 60, with `%` truncating; Dafny's `/` by a positive
   * divisor rounds down, as Math.floor does.
   */
  function SplitSeconds(totalSec: int): (f: Hms)
    ensures totalSec >= 0 ==>
      && f.hours >= 0 && 0 <= f.minutes <= 59 && 0 <= f.seconds <= 59
      && f.hours * 3600 + f.minutes * 60 + f.seconds == totalSec
  {
    Hms(totalSec / 3600, TruncRem(totalSec, 3600) / 60, TruncRem(totalSec, 60))
  }

  /**
   * `${hh}:${mm}:${ss}`: the fields, each padded to two characters with "0",
   * joined by ":".  For a split of a non-negative count the text has three
   * digit fields, the last two exactly two digits wide.
   */
  function FormatHms(f: Hms): (s: string)
    ensures f.hours >= 0 && 0 <= f.minutes <= 59 && 0 <= f.seconds <= 59 ==>
      var p := Split(s, ':');
      && |p| == 3 && |p[0]| >= 2 && |p[1]| == 2 && |p[2]| == 2
      && AllDigits(p[0]) && AllDigits(p[1]) && AllDigits(p[2])
      && DigitsValue(p[0]) == f.hours && DigitsValue(p[1]) == f.minutes && DigitsValue(p[2]) == f.seconds
  {
    var hh, mm, ss := PadStart2(IntToString(f.hours)), PadStart2(IntToString(f.minutes)), PadStart2(IntToString(f.seconds));
    assert f.hours >= 0 && 0 <= f.minutes <= 59 && 0 <= f.seconds <= 59 ==> PaddedFields(f, hh, mm, ss) by {
      if f.hours >= 0 && 0 <= f.minutes <= 59 && 0 <= f.seconds <= 59 {
        PaddedFieldsHold(f);
      }
    }
    Join([hh, mm, ss], ':')
  }

  /** What printing f to hh, mm and ss guarantees of the three strings. */
  predicate PaddedFields(f: Hms, hh: string, mm: string, ss: string) {
    && Split(Join([hh, mm, ss], ':'), ':') == [hh, mm, ss]
    && |hh| >= 2 && |mm| == 2 && |ss| == 2
    && AllDigits(hh) && AllDigits(mm) && AllDigits(ss)
    && DigitsValue(hh) == f.hours && DigitsValue(mm) == f.minutes && DigitsValue(ss) == f.seconds
  }

  lemma PaddedFieldsHold(f: Hms)
    requires f.hours >= 0 && 0 <= f.minutes <= 59 && 0 <= f.seconds <= 59
    ensures PaddedFields(f, PadStart2(IntToString(f.hours)), PadStart2(IntToString(f.minutes)), PadStart2(IntToString(f.seconds)))
  {
    var hh, mm, ss := PadStart2(IntToString(f.hours)), PadStart2(IntToString(f.minutes)), PadStart2(IntToString(f.seconds));
    PaddedField(f.hours);
    PaddedField(f.minutes);
    PaddedField(f.seconds);
    ShortField(f.minutes);
    ShortField(f.seconds);
    SplitJoinedDigits(hh, mm, ss);
  }

  /** A field below 100, padded, is exactly two characters wide. */
  lemma ShortField(n: nat)
    requires n < 100
    ensures |PadStart2(IntToString(n))| == 2
  {
    if n >= 10 {
      assert |NatToString(n / 10)| == 1;
    }
  }

  /** Three digit strings joined with ":" split back into the same three. */
  lemma SplitJoinedDigits(a: string, b: string, c: string)
    requires AllDigits(a) && AllDigits(b) && AllDigits(c)
    ensures Split(Join([a, b, c], ':'), ':') == [a, b, c]
  {
    var parts := [a, b, c];
    forall k | 0 <= k < 3
      ensures ':' !in parts[k]
    {
      assert AllDigits(parts[k]);
    }
    SplitJoin(parts, ':');
  }

  /** Reads back "H:M:S" of decimal fields as a count of seconds. */
  function ParseHms(s: string): Option<int> {
    var parts := Split(s, ':');
    if |parts| == 3 && AllDigits(parts[0]) && AllDigits(parts[1]) && AllDigits(parts[2]) then
      Some(DigitsValue(parts[0]) * 3600 + DigitsValue(parts[1]) * 60 + DigitsValue(parts[2]))
    else None
  }

  /** Three digit strings joined with ":" read back as the seconds they denote. */
  lemma ParseJoined(a: string, b: string, c: string)
    requires AllDigits(a) && AllDigits(b) && AllDigits(c)
    ensures ParseHms(Join([a, b, c], ':')) == Some(DigitsValue(a) * 3600 + DigitsValue(b) * 60 + DigitsValue(c))
  {
    SplitJoinedDigits(a, b, c);
    ParseOfParts(Join([a, b, c], ':'), [a, b, c]);
  }

  lemma ParseOfParts(s: string, parts: seq<string>)
    requires |parts| == 3 && Split(s, ':') == parts
    requires AllDigits(parts[0]) && AllDigits(parts[1]) && AllDigits(parts[2])
    ensures ParseHms(s) == Some(DigitsValue(parts[0]) * 3600 + DigitsValue(parts[1]) * 60 + DigitsValue(parts[2]))
  {
  }

  /** One field as printed: its digits, padded, denote the field. */
  lemma PaddedField(n: nat)
    ensures AllDigits(PadStart2(IntToString(n)))
    ensures DigitsValue(PadStart2(IntToString(n))) == n
  {
    PaddedRoundTrip(n);
  }

  /** The formatted fields lose nothing: reading them back gives the seconds they stand for. */
  lemma FormatHmsRoundTrip(f: Hms)
    requires f.hours >= 0 && f.minutes >= 0 && f.seconds >= 0
    ensures ParseHms(FormatHms(f)) == Some(f.hours * 3600 + f.minutes * 60 + f.seconds)
  {
    var hh, mm, ss := PadStart2(IntToString(f.hours)), PadStart2(IntToString(f.minutes)), PadStart2(IntToString(f.seconds));
    PaddedField(f.hours);
    PaddedField(f.minutes);
    PaddedField(f.seconds);
    FormatHmsJoins(f);
    ParseJoined(hh, mm, ss);
  }

  /** The formatted text is the join of the three padded fields. */
  lemma FormatHmsJoins(f: Hms)
    ensures FormatHms(f) == Join([PadStart2(IntToString(f.hours)), PadStart2(IntToString(f.minutes)), PadStart2(IntToString(f.seconds))], ':')
  {
  }

  datatype DayDuration = DayDuration(duration: real, formatted: string)

  /** computeDayDuration. */
  function ComputeDayDuration(sunrise: Instant, sunset: Instant): (r: DayDuration)
    ensures r.duration * 3600000.0 == (sunset - sunrise) as real
    ensures TotalSeconds(sunrise, sunset) >= 0 ==> ParseHms(r.formatted) == Some(TotalSeconds(sunrise, sunset))
    ensures TotalSeconds(sunrise, sunset) >= 0 ==>
      var p := Split(r.formatted, ':');
      && |p| == 3 && |p[0]| >= 2 && |p[1]| == 2 && |p[2]| == 2
      && AllDigits(p[0]) && AllDigits(p[1]) && AllDigits(p[2])
      && DigitsValue(p[1]) <= 59 && DigitsValue(p[2]) <= 59
      && DigitsValue(p[0]) * 3600 + DigitsValue(p[1]) * 60 + DigitsValue(p[2]) == TotalSeconds(sunrise, sunset)
  {
    var totalSec := TotalSeconds(sunrise, sunset);
    var fields := SplitSeconds(totalSec);
    assert totalSec >= 0 ==> ParseHms(FormatHms(fields)) == Some(totalSec) by {
      if totalSec >= 0 {
        FormatHmsRoundTrip(fields);
      }
    }
    DayDuration(DurationHours(sunrise, sunset), FormatHms(fields))
  }

  /** Sunrise at 06:30 and sunset at 18:00 make 11.5 hours, written 11:30:00. */
  lemma DayDurationExample(sunrise: Instant)
    ensures ComputeDayDuration(sunrise, sunrise + 41400000) == DayDuration(11.5, "11:30:00")
  {
    assert DurationHours(sunrise, sunrise + 41400000) == 11.5;
    assert TotalSeconds(sunrise, sunrise + 41400000) == 41400;
    ExampleFields();
    ExampleText();
  }

  lemma ExampleFields()
    ensures SplitSeconds(41400) == Hms(11, 30, 0)
  {
    assert TruncRem(41400, 3600) == 1800;
  }

  lemma ExampleText()
    ensures FormatHms(Hms(11, 30, 0)) == "11:30:00"
  {
    assert DigitChar(1) == '1' && DigitChar(3) == '3' && DigitChar(0) == '0';
    assert IntToString(11) == "11" && IntToString(30) == "30" && IntToString(0) == "0";
    assert PadStart2("11") == "11" && PadStart2("30") == "30" && PadStart2("0") == "00";
    assert Join(["11", "30", "00"], ':') == "11:30:00" by {
      assert Join(["30", "00"], ':') == "30:00";
    }
  }

  datatype SunTimes = SunTimes(sunrise: Instant, sunset: Instant)

  /** calculateSunTimes: the next rising and the next setting within two days of ut. */
  function CalculateSunTimes(env: Env, ut: Instant, obs: Observer): (r: Result<SunTimes, PanchangaError>)
    ensures r.Failure? <==> env.searchRiseSet(Sun, obs, 1, ut, 2.0).None? || env.searchRiseSet(Sun, obs, -1, ut, 2.0).None?
    ensures r.Failure? ==> r.error == SunTimesNotFound
    ensures r.Success? ==>
      && env.searchRiseSet(Sun, obs, 1, ut, 2.0) == Some(r.value.sunrise)
      && env.searchRiseSet(Sun, obs, -1, ut, 2.0) == Some(r.value.sunset)
  {
    var sunrise := env.searchRiseSet(Sun, obs, 1, ut, 2.0);
    var sunset := env.searchRiseSet(Sun, obs, -1, ut, 2.0);
    if sunrise.None? || sunset.None? then Failure(SunTimesNotFound)
    else Success(SunTimes(sunrise.value, sunset.value))
  }


  /** The weekday of a time value read in UTC, Sunday 0: day 0 of the epoch was a Thursday. */
  function WeekDay(t: Instant): (r: int)
    ensures 0 <= r <= 6
  {
    (t / DayMs + 4) % 7
  }

  /** One day later is the next weekday, Saturday wrapping to Sunday. */
  lemma WeekDayAdvances(t: Instant)
    ensures WeekDay(t + DayMs) == (WeekDay(t) + 1) % 7
  {
    assert (t + DayMs) / DayMs == t / DayMs + 1;
  }

  /** 1 January 1970 was a Thursday and 1 January 2023 a Sunday. */
  lemma WeekDayAnchors()
    ensures WeekDay(0) == 4
    ensures WeekDay(1672531200000) == 0
  {
  }

  /** computeVaara: Date.getDay, the weekday in the host's local time. */
  function ComputeVaara(env: Env, sunrise: Instant): (r: int)
    ensures 0 <= r <= 6
  {
    WeekDay(sunrise + env.hostOffset(sunrise))
  }
}
