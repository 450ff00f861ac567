/**
 * calculatePanchanga of src/index.ts: resolving the place from a city or
 * from coordinates, reading the date (natively or as D/M/Y), finding
 * sunrise and sunset after the local midnight, computing every element at
 * sunrise and labelling each from the name tables.  The file carries its
 * own copies of some engines; where a copy behaves differently from
 * src/calculations (the tithi end, the previous new moon, the weekday) the
 * copy is modelled here, and the identical ones are shared.
 */
module Panchanga {
  import opened Wrappers
  import opened Foreign
  import opened Angles
  import opened Text
  import opened Errors
  import opened Tithi
  import opened Karana
  import opened Nakshatra
  import opened Yoga
  import opened Masa
  import opened Year
  import opened Time

  /** A place with a numeric timezone offset in hours. */
  datatype Place = Place(latitude: real, longitude: real, timezone: real)

  /** The request: a date string and either a city or explicit coordinates; absent fields are None. */
  datatype PanchangaInput = PanchangaInput(
    date: string,
    city: Option<string>,
    latitude: Option<real>,
    longitude: Option<real>,
    timezone: Option<real>)

  /** `if (input.city)`: a city counts as given only when present and not the empty string. */
  predicate CityGiven(input: PanchangaInput) {
    input.city.Some? && input.city.value != ""
  }

  /** The place: the city branch first, then the three coordinates. */
  function ResolvePlace(env: Env, cities: map<string, Place>, input: PanchangaInput): (r: Result<Place, PanchangaError>)
    ensures CityGiven(input) ==>
      var name := env.titleCase(input.city.value);
      && (r.Failure? <==> name !in cities)
      && (r.Failure? ==> r.error == CityNotFound(input.city.value))
      && (r.Success? ==> r.value == cities[name])
    ensures !CityGiven(input) ==>
      && (r.Failure? <==> input.latitude.None? || input.longitude.None? || input.timezone.None?)
      && (r.Failure? ==> r.error == MissingGeoParameters)
      && (r.Success? ==> r.value == Place(input.latitude.value, input.longitude.value, input.timezone.value))
  {
    if CityGiven(input) then
      var name := env.titleCase(input.city.value);
      if name in cities then Success(cities[name]) else Failure(CityNotFound(input.city.value))
    else if input.latitude.Some? && input.longitude.Some? && input.timezone.Some? then
      Success(Place(input.latitude.value, input.longitude.value, input.timezone.value))
    else
      Failure(MissingGeoParameters)
  }

  /** A given city decides the place alone: the coordinates given beside it are ignored. */
  lemma CityTakesPrecedence(env: Env, cities: map<string, Place>, input: PanchangaInput,
                            latitude: Option<real>, longitude: Option<real>, timezone: Option<real>)
    requires CityGiven(input)
    ensures ResolvePlace(env, cities, input)
      == ResolvePlace(env, cities, input.(latitude := latitude, longitude := longitude, timezone := timezone))
  {
  }

  /**
   * parseInputDate: the native parse, else a split on "/" read as D/M/Y.
   * The inner None is the Invalid Date that Date.UTC of non-numeric parts
   * yields.
   */
  function ParseInputDate(env: Env, dateStr: string): (r: Result<Option<Instant>, PanchangaError>)
    ensures env.parseDate(dateStr).Some? ==> r == Success(env.parseDate(dateStr))
    ensures env.parseDate(dateStr).None? ==> (r.Failure? <==> Count(dateStr, '/') != 2)
    ensures r.Failure? ==> r.error == InvalidDateFormat
  {
    var native := env.parseDate(dateStr);
    if native.Some? then Success(native)
    else
      var parts := Split(dateStr, '/');
      SplitLength(dateStr, '/');
      if |parts| == 3 then Success(env.utcFromParts(parts[0], parts[1], parts[2]))
      else Failure(InvalidDateFormat)
  }

  /** A string the native parser rejects, made of three slash-free fields, is read as day, month and year in that order. */
  lemma DayMonthYearFallback(env: Env, d: string, m: string, y: string)
    requires '/' !in d && '/' !in m && '/' !in y
    requires env.parseDate(d + "/" + m + "/" + y).None?
    ensures ParseInputDate(env, d + "/" + m + "/" + y) == Success(env.utcFromParts(d, m, y))
  {
    var parts := [d, m, y];
    assert Join(parts[1..], '/') == m + "/" + y by {
      assert parts[1..][1..] == [y];
    }
    assert Join(parts, '/') == d + "/" + m + "/" + y;
    SplitJoin(parts, '/');
  }

  /**
   * Date.UTC reads a year from 0 to 99 as 1900 plus that year.  Year 1900+y
   * begins 693960 days after year y, and 693961 for year 0, which is a leap
   * year where 1900 is not; otherwise the two years agree on leap days.
   */
  lemma CenturyShift(y: nat)
    requires y <= 99
    ensures YearStart(1900 + y) - YearStart(y) == if y == 0 then 693961 else 693960
    ensures y != 0 ==> (IsLeapYear(y) <==> IsLeapYear(1900 + y))
    ensures IsLeapYear(0) && !IsLeapYear(1900)
  {
    if y != 0 {
      assert (y + 3) / 4 + 475 == (1900 + y + 3) / 4;
      assert (y + 99) / 100 == 1 && (1900 + y + 99) / 100 == 20;
      assert (y + 399) / 400 == 1 && (1900 + y + 399) / 400 == 5;
    }
  }

  /**
   * Date.UTC of a date's own UTC year, month and day.  Outside years 0 to 99
   * that is the start of its UTC day; inside them it is the same month and
   * day 1900 years later, with 0000-02-29 and 0000-03-01 both on 1900-03-01.
   */
  function UtcMidnight(t: Instant): (r: Instant)
    ensures r % DayMs == 0
    ensures !(YearStart(0) <= t / DayMs < YearStart(100)) ==> r <= t < r + DayMs
    ensures YearStart(0) <= t / DayMs < YearStart(100) ==> YearStart(1900) <= r / DayMs < YearStart(2000)
  {
    var day := t / DayMs;
    var shifted :=
      if YearStart(0) <= day < YearStart(0) + 60 then day + 693961
      else if YearStart(0) + 60 <= day < YearStart(100) then day + 693960
      else day;
    shifted * DayMs
  }

  /** An instant in year y (0 to 99) and day d of that year lands on day d of year 1900+y, one day earlier after February of year 0. */
  lemma UtcMidnightEarlyYears(t: Instant, y: nat)
    requires y <= 99 && YearStart(y) <= t / DayMs < YearStart(y + 1)
    ensures var d := t / DayMs - YearStart(y);
      UtcMidnight(t) / DayMs == YearStart(1900 + y) + (if y == 0 && d >= 60 then d - 1 else d)
  {
    CenturyShift(y);
    YearStartStep(0);
    if y != 0 {
      YearStartsAscend(1, y);
    }
    YearStartsAscend(y + 1, 100);
  }

  /** 0050-03-15T12:00Z, day 73 of a common year, has its midnight on 1950-03-15. */
  lemma TwoDigitYearExample()
    ensures UtcMidnight((YearStart(50) + 73) * DayMs + DayMs / 2) == (YearStart(1950) + 73) * DayMs
  {
    assert ((YearStart(50) + 73) * DayMs + DayMs / 2) / DayMs == YearStart(50) + 73;
  }

  /** The instant of local midnight: UTC midnight minus the offset, with the Date constructor truncating. */
  function ReferenceUt(date: Instant, timezone: real): (r: Instant)
    ensures var exact := UtcMidnight(date) as real - timezone * 3600000.0;
      && (exact >= 0.0 ==> r as real <= exact < r as real + 1.0)
      && (exact < 0.0 ==> r as real - 1.0 < exact <= r as real)
  {
    Trunc(UtcMidnight(date) as real - timezone * 3600000.0)
  }

  /** A timezone in whole quarter hours moves midnight exactly. */
  lemma ReferenceUtQuarterHours(date: Instant, quarters: int)
    ensures ReferenceUt(date, quarters as real / 4.0) == UtcMidnight(date) - quarters * 900000
  {
    assert UtcMidnight(date) as real - quarters as real / 4.0 * 3600000.0 == (UtcMidnight(date) - quarters * 900000) as real;
  }

  /** The index.ts tithi: the end is the next time the elongation reaches index * 12, searched over two days. */
  datatype SearchedTithi = SearchedTithi(index: int, endTime: Option<Instant>)

  function ComputeTithiBySearch(env: Env, sunrise: Instant, obs: Observer): (r: SearchedTithi)
    ensures 1 <= r.index <= 30
    ensures Elongation(env, sunrise, obs) == 0.0 ==> r.index == 30
    ensures var phase := Elongation(env, sunrise, obs);
      phase > 0.0 ==> (r.index - 1) as real * 12.0 < phase <= r.index as real * 12.0
    ensures r.endTime == env.searchMoonPhase(r.index as real * 12.0, sunrise, 2.0)
  {
    var index := TithiIndex(Elongation(env, sunrise, obs));
    SearchedTithi(index, env.searchMoonPhase(index as real * 12.0, sunrise, 2.0))
  }

  /** The index.ts masa: both new moons are searched for, forward from sunrise and backward from a month before. */
  function ComputeMasaBySearch(env: Env, sunrise: Instant, obs: Observer): (r: Result<MasaResult, PanchangaError>)
    ensures var next := env.searchMoonPhase(0.0, sunrise, 2.0);
      var last := env.searchMoonPhase(0.0, AddDays(sunrise, -SynodicMonth), -2.0);
      && (r.Failure? <==> next.None? || last.None?)
      && (r.Failure? ==> r.error == NewMoonNotFound)
      && (r.Success? ==> r.value == MasaFromNewMoons(env, obs, last.value, next.value))
  {
    var nextNewMoon := env.searchMoonPhase(0.0, sunrise, 2.0);
    var estimatedPrev := AddDays(sunrise, -SynodicMonth);
    var lastNewMoon := env.searchMoonPhase(0.0, estimatedPrev, -2.0);
    if lastNewMoon.None? || nextNewMoon.None? then Failure(NewMoonNotFound)
    else Success(MasaFromNewMoons(env, obs, lastNewMoon.value, nextNewMoon.value))
  }

  /** The index.ts vaara: the UTC weekday of sunrise shifted by the place's offset. */
  function ComputeVaaraAt(sunrise: Instant, timezone: real): (r: int)
    ensures 0 <= r <= 6
  {
    WeekDay(Trunc(sunrise as real + timezone * 3600000.0))
  }

  /** Shifting by the place's offset agrees with a host whose own offset is that many hours. */
  lemma VaaraOffsetsAgree(env: Env, sunrise: Instant, hours: int)
    requires env.hostOffset(sunrise) == hours * 3600000
    ensures ComputeVaaraAt(sunrise, hours as real) == ComputeVaara(env, sunrise)
  {
    assert sunrise as real + hours as real * 3600000.0 == (sunrise + hours * 3600000) as real;
  }

  /** The name tables, indexed as the source indexes its arrays. */
  datatype Names = Names(
    tithis: map<int, string>,
    nakshatras: map<int, string>,
    vaaras: map<int, string>,
    yogas: map<int, string>,
    karanas: map<int, string>,
    masas: map<int, string>,
    samvats: map<int, string>,
    ritus: map<int, string>)

  /** `table[index] || "<element> <index>"`: a missing or empty name falls back to the element and the index. */
  function Label(table: map<int, string>, index: int, element: string): (r: string)
    ensures index in table && table[index] != "" ==> r == table[index]
    ensures !(index in table && table[index] != "") ==> r == element + " " + IntToString(index)
  {
    if index in table && table[index] != "" then table[index] else element + " " + IntToString(index)
  }

  /** The fallback label ends with the index in decimal, which reads back as the index. */
  lemma FallbackNamesIndex(table: map<int, string>, index: nat, element: string)
    requires !(index in table && table[index] != "")
    ensures var r := Label(table, index, element);
      r[..|element| + 1] == element + " "
      && AllDigits(r[|element| + 1..]) && DigitsValue(r[|element| + 1..]) == index
  {
    var r := Label(table, index, element);
    assert r[|element| + 1..] == NatToString(index);
    NatToStringRoundTrip(index);
  }

  predicate StartsWith(s: string, prefix: string) {
    |prefix| <= |s| && s[..|prefix|] == prefix
  }

  const Adhika: string := "Adhika "

  /** No month is itself named with the leap prefix. */
  predicate NoAdhikaNames(names: Names) {
    forall k :: k in names.masas ==> !StartsWith(names.masas[k], Adhika)
  }

  /** The month label: "Adhika " before the month's name in a leap month. */
  function MasaLabel(names: Names, m: MasaResult): (r: string)
    ensures m.isLeap ==> StartsWith(r, Adhika)
    ensures !m.isLeap ==> r == Label(names.masas, m.masa, "Māsa")
    ensures |r| >= |Label(names.masas, m.masa, "Māsa")| && r[|r| - |Label(names.masas, m.masa, "Māsa")|..] == Label(names.masas, m.masa, "Māsa")
  {
    var name := Label(names.masas, m.masa, "Māsa");
    var r := (if m.isLeap then Adhika else "") + name;
    assert r[|r| - |name|..] == name;
    assert m.isLeap ==> r[..|Adhika|] == Adhika;
    r
  }

  /** The label starts with "Adhika " exactly in a leap month, as long as no month is itself named so. */
  lemma MasaLabelMarksLeap(names: Names, m: MasaResult)
    requires NoAdhikaNames(names)
    ensures StartsWith(MasaLabel(names, m), Adhika) <==> m.isLeap
  {
    var base := Label(names.masas, m.masa, "Māsa");
    FallbackIsNotAdhika(m.masa);
    assert !StartsWith(base, Adhika);
    if m.isLeap {
      assert (Adhika + base)[..|Adhika|] == Adhika;
    }
  }

  lemma FallbackIsNotAdhika(index: int)
    ensures !StartsWith("Māsa " + IntToString(index), Adhika)
  {
    assert ("Māsa " + IntToString(index))[0] == 'M';
  }

  /** The ahargana label: Math.floor(ahargana).toString(). */
  function AharganaLabel(ahargana: real): (s: string)
    ensures ahargana >= 0.0 ==> AllDigits(s) && DigitsValue(s) == ahargana.Floor
    ensures ahargana < 0.0 ==> |s| >= 2 && s[0] == '-' && AllDigits(s[1..]) && DigitsValue(s[1..]) == -ahargana.Floor
  {
    var n := ahargana.Floor;
    NatToStringRoundTrip(if n >= 0 then n else -n);
    assert n < 0 ==> IntToString(n)[1..] == NatToString(-n);
    IntToString(n)
  }

  /** Everything calculatePanchanga computes before it formats. */
  datatype Elements = Elements(
    place: Place,
    sun: SunTimes,
    tithi: SearchedTithi,
    nakshatra: NakshatraResult,
    yoga: YogaResult,
    karana: int,
    vaara: int,
    masa: MasaResult,
    ritu: int,
    ahargana: real,
    elapsed: ElapsedYear,
    samvatsara: int,
    duration: DayDuration)

  /**
   * The response.  The source's ISO and local-clock strings print each
   * instant plus the place's offset; the model keeps the unshifted instants.
   * An absent tithi end is undefined.
   */
  datatype Response = Response(
    tithi: string, tithiEnd: Option<Instant>,
    nakshatra: string, nakshatraEnd: Instant,
    yoga: string, yogaEnd: Instant,
    karana: string,
    vaara: string,
    masa: string,
    ritu: string,
    ahargana: string,
    kali: int, saka: int,
    samvatsara: string,
    sunrise: Instant, sunset: Instant,
    dayDuration: string)

  /** The elements at the sunrise of a place and date, in the order the source computes them. */
  function ElementsAt(env: Env, place: Place, sun: SunTimes): (r: Result<Elements, PanchangaError>)
    ensures var obs := Observer(place.latitude, place.longitude, 0.0);
      r.Failure? <==>
        NakshatraOf(env, sun.sunrise, obs).Failure? || YogaOf(env, sun.sunrise, obs).Failure?
        || ComputeMasaBySearch(env, sun.sunrise, obs).Failure?
    ensures var obs := Observer(place.latitude, place.longitude, 0.0);
      NakshatraOf(env, sun.sunrise, obs).Failure? || YogaOf(env, sun.sunrise, obs).Failure? ==> r == Failure(InvalidTime)
    ensures var obs := Observer(place.latitude, place.longitude, 0.0);
      (NakshatraOf(env, sun.sunrise, obs).Success? && YogaOf(env, sun.sunrise, obs).Success?
       && ComputeMasaBySearch(env, sun.sunrise, obs).Failure?) ==> r == Failure(NewMoonNotFound)
    ensures r.Failure? ==> r.error == InvalidTime || r.error == NewMoonNotFound
    ensures r.Success? ==>
      var e := r.value;
      && e.place == place && e.sun == sun
      && 1 <= e.tithi.index <= 30 && 1 <= e.nakshatra.index <= 27 && 1 <= e.yoga.index <= 27
      && 1 <= e.karana <= 60 && 0 <= e.vaara <= 6 && 1 <= e.masa.masa <= 12 && 0 <= e.ritu <= 5
      && e.elapsed.saka == e.elapsed.kali - 3179
      && (e.elapsed.kali >= 0 ==> 0 <= e.samvatsara <= 59)
    ensures r.Success? ==>
      var e := r.value;
      var obs := Observer(place.latitude, place.longitude, 0.0);
      var jd := JulianDay(sun.sunrise);
      && e.tithi == ComputeTithiBySearch(env, sun.sunrise, obs)
      && e.nakshatra == NakshatraOf(env, sun.sunrise, obs).value
      && e.yoga == YogaOf(env, sun.sunrise, obs).value
      && e.karana == ComputeKarana(env, sun.sunrise, obs)
      && e.vaara == ComputeVaaraAt(sun.sunrise, place.timezone)
      && e.masa == ComputeMasaBySearch(env, sun.sunrise, obs).value
      && e.ritu == Ritu(e.masa.masa)
      && e.ahargana == Ahargana(jd)
      && e.elapsed == ElapsedYearOf(jd, e.masa.masa)
      && e.samvatsara == Samvatsara(jd, e.masa.masa)
      && e.duration == ComputeDayDuration(sun.sunrise, sun.sunset)
  {
    var obs := Observer(place.latitude, place.longitude, 0.0);
    var sunrise := sun.sunrise;
    var tithi := ComputeTithiBySearch(env, sunrise, obs);
    var nak := NakshatraOf(env, sunrise, obs);
    var yoga := YogaOf(env, sunrise, obs);
    var masa := ComputeMasaBySearch(env, sunrise, obs);
    if nak.Failure? then Failure(nak.error)
    else if yoga.Failure? then Failure(yoga.error)
    else if masa.Failure? then Failure(masa.error)
    else
      var jd := JulianDay(sunrise);
      Success(Elements(
        place, sun, tithi, nak.value, yoga.value,
        ComputeKarana(env, sunrise, obs),
        ComputeVaaraAt(sunrise, place.timezone),
        masa.value,
        Ritu(masa.value.masa),
        Ahargana(jd),
        ElapsedYearOf(jd, masa.value.masa),
        Samvatsara(jd, masa.value.masa),
        ComputeDayDuration(sunrise, sun.sunset)))
  }

  /** The whole computation up to formatting: place, date, local midnight, sun times, then the elements. */
  function ElementsOf(env: Env, cities: map<string, Place>, input: PanchangaInput): (r: Result<Elements, PanchangaError>)
    ensures ResolvePlace(env, cities, input).Failure? ==> r == Failure(ResolvePlace(env, cities, input).error)
    ensures ResolvePlace(env, cities, input).Success? && ParseInputDate(env, input.date).Failure? ==> r == Failure(InvalidDateFormat)
    ensures ResolvePlace(env, cities, input).Success? && ParseInputDate(env, input.date) == Success(None) ==> r == Failure(InvalidTime)
    ensures var place := ResolvePlace(env, cities, input);
      var date := ParseInputDate(env, input.date);
      place.Success? && date.Success? && date.value.Some? && !ValidLatitude(place.value.latitude)
      ==> r == Failure(LatitudeOutOfRange)
    ensures var place := ResolvePlace(env, cities, input);
      var date := ParseInputDate(env, input.date);
      place.Success? && date.Success? && date.value.Some? && ValidLatitude(place.value.latitude)
      && CalculateSunTimes(env, ReferenceUt(date.value.value, place.value.timezone),
           Observer(place.value.latitude, place.value.longitude, 0.0)).Failure?
      ==> r == Failure(SunTimesNotFound)
    ensures var place := ResolvePlace(env, cities, input);
      var date := ParseInputDate(env, input.date);
      place.Success? && date.Success? && date.value.Some? && ValidLatitude(place.value.latitude) ==>
        var sun := CalculateSunTimes(env, ReferenceUt(date.value.value, place.value.timezone),
          Observer(place.value.latitude, place.value.longitude, 0.0));
        sun.Success? ==> r == ElementsAt(env, place.value, sun.value)
    ensures r.Success? ==>
      var place := r.value.place;
      var date := ParseInputDate(env, input.date);
      && ResolvePlace(env, cities, input) == Success(place)
      && date.Success? && date.value.Some? && ValidLatitude(place.latitude)
      && CalculateSunTimes(env, ReferenceUt(date.value.value, place.timezone), Observer(place.latitude, place.longitude, 0.0))
         == Success(r.value.sun)
      && ElementsAt(env, place, r.value.sun) == r
  {
    var place := ResolvePlace(env, cities, input);
    if place.Failure? then Failure(place.error)
    else
      var date := ParseInputDate(env, input.date);
      if date.Failure? then Failure(date.error)
      else if date.value.None? then Failure(InvalidTime)
      else if !ValidLatitude(place.value.latitude) then Failure(LatitudeOutOfRange)
      else
        var ut := ReferenceUt(date.value.value, place.value.timezone);
        var obs := Observer(place.value.latitude, place.value.longitude, 0.0);
        var sun := CalculateSunTimes(env, ut, obs);
        if sun.Failure? then Failure(sun.error)
        else ElementsAt(env, place.value, sun.value)
  }

  /** The response built from the elements: every label from its table or by fallback. */
  function Render(names: Names, e: Elements): (r: Response)
    ensures r.tithi == Label(names.tithis, e.tithi.index, "Tithi")
    ensures r.nakshatra == Label(names.nakshatras, e.nakshatra.index, "Nakṣatra")
    ensures r.yoga == Label(names.yogas, e.yoga.index, "Yoga")
    ensures r.karana == Label(names.karanas, e.karana, "Karaṇa")
    ensures r.vaara == Label(names.vaaras, e.vaara, "Vaara")
    ensures r.ritu == Label(names.ritus, e.ritu, "Ṛtu")
    ensures r.samvatsara == Label(names.samvats, e.samvatsara, "Samvatsara")
    ensures r.masa == MasaLabel(names, e.masa)
    ensures NoAdhikaNames(names) ==> (StartsWith(r.masa, Adhika) <==> e.masa.isLeap)
    ensures r.ahargana == AharganaLabel(e.ahargana)
    ensures e.ahargana >= 0.0 ==> AllDigits(r.ahargana) && DigitsValue(r.ahargana) == e.ahargana.Floor
    ensures r.kali == e.elapsed.kali && r.saka == e.elapsed.saka
    ensures r.tithiEnd == e.tithi.endTime && r.nakshatraEnd == e.nakshatra.endTime && r.yogaEnd == e.yoga.endTime
    ensures r.sunrise == e.sun.sunrise && r.sunset == e.sun.sunset && r.dayDuration == e.duration.formatted
  {
    assert NoAdhikaNames(names) ==> (StartsWith(MasaLabel(names, e.masa), Adhika) <==> e.masa.isLeap) by {
      if NoAdhikaNames(names) {
        MasaLabelMarksLeap(names, e.masa);
      }
    }
    Response(
      Label(names.tithis, e.tithi.index, "Tithi"), e.tithi.endTime,
      Label(names.nakshatras, e.nakshatra.index, "Nakṣatra"), e.nakshatra.endTime,
      Label(names.yogas, e.yoga.index, "Yoga"), e.yoga.endTime,
      Label(names.karanas, e.karana, "Karaṇa"),
      Label(names.vaaras, e.vaara, "Vaara"),
      MasaLabel(names, e.masa),
      Label(names.ritus, e.ritu, "Ṛtu"),
      AharganaLabel(e.ahargana),
      e.elapsed.kali, e.elapsed.saka,
      Label(names.samvats, e.samvatsara, "Samvatsara"),
      e.sun.sunrise, e.sun.sunset,
      e.duration.formatted)
  }

  /** calculatePanchanga: the elements, rendered; a failure on the way is the response's failure. */
  function PanchangaOf(env: Env, cities: map<string, Place>, names: Names, input: PanchangaInput): (r: Result<Response, PanchangaError>)
    ensures r.Failure? <==> ElementsOf(env, cities, input).Failure?
    ensures r.Failure? ==> r.error == ElementsOf(env, cities, input).error
    ensures r.Success? ==> r.value == Render(names, ElementsOf(env, cities, input).value)
  {
    var e := ElementsOf(env, cities, input);
    if e.Failure? then Failure(e.error) else Success(Render(names, e.value))
  }

  /** The place step of calculatePanchanga: `place` assigned in whichever branch applies. */
  method DeterminePlace(env: Env, cities: map<string, Place>, input: PanchangaInput)
    returns (r: Result<Place, PanchangaError>)
    ensures r == ResolvePlace(env, cities, input)
  {
    var place: Place;
    if CityGiven(input) {
      var cityName := env.titleCase(input.city.value);
      if cityName in cities {
        place := cities[cityName];
      } else {
        return Failure(CityNotFound(input.city.value));
      }
    } else if input.latitude.Some? && input.longitude.Some? && input.timezone.Some? {
      place := Place(input.latitude.value, input.longitude.value, input.timezone.value);
    } else {
      return Failure(MissingGeoParameters);
    }
    r := Success(place);
  }

  /** The date step: the native parse, replaced by the D/M/Y reading when it fails. */
  method ParseDate(env: Env, dateStr: string) returns (r: Result<Option<Instant>, PanchangaError>)
    ensures r == ParseInputDate(env, dateStr)
  {
    var inputDate := env.parseDate(dateStr);
    if inputDate.None? {
      var parts := Split(dateStr, '/');
      if |parts| == 3 {
        inputDate := env.utcFromParts(parts[0], parts[1], parts[2]);
      } else {
        return Failure(InvalidDateFormat);
      }
    }
    r := Success(inputDate);
  }

  method CalculatePanchanga(env: Env, cities: map<string, Place>, names: Names, input: PanchangaInput)
    returns (r: Result<Response, PanchangaError>)
    ensures r == PanchangaOf(env, cities, names, input)
  {
    var place := DeterminePlace(env, cities, input);
    if place.Failure? {
      return Failure(place.error);
    }
    var inputDate := ParseDate(env, input.date);
    if inputDate.Failure? {
      return Failure(inputDate.error);
    }
    if inputDate.value.None? {
      return Failure(InvalidTime);
    }

    var localMidnight := UtcMidnight(inputDate.value.value);
    var utTime := Trunc(localMidnight as real - place.value.timezone * 3600000.0);
    if !ValidLatitude(place.value.latitude) {
      return Failure(LatitudeOutOfRange);
    }
    var observer := Observer(place.value.latitude, place.value.longitude, 0.0);
    assert utTime == ReferenceUt(inputDate.value.value, place.value.timezone);

    var sunriseTime := env.searchRiseSet(Sun, observer, 1, utTime, 2.0);
    var sunsetTime := env.searchRiseSet(Sun, observer, -1, utTime, 2.0);
    if sunriseTime.None? || sunsetTime.None? {
      return Failure(SunTimesNotFound);
    }
    var sun := SunTimes(sunriseTime.value, sunsetTime.value);
    assert CalculateSunTimes(env, utTime, observer) == Success(sun);

    var elements := ElementsAt(env, place.value, sun);
    assert ElementsOf(env, cities, input) == elements;
    if elements.Failure? {
      return Failure(elements.error);
    }
    r := Success(Render(names, elements.value));
  }

  /** An unknown city is reported before anything else is looked at. */
  lemma UnknownCityFails(env: Env, cities: map<string, Place>, names: Names, input: PanchangaInput)
    requires CityGiven(input) && env.titleCase(input.city.value) !in cities
    ensures PanchangaOf(env, cities, names, input) == Failure(CityNotFound(input.city.value))
  {
  }

  /** Without a city, a missing coordinate or timezone is reported before the date is read. */
  lemma MissingCoordinatesFail(env: Env, cities: map<string, Place>, names: Names, input: PanchangaInput)
    requires !CityGiven(input)
    requires input.latitude.None? || input.longitude.None? || input.timezone.None?
    ensures PanchangaOf(env, cities, names, input) == Failure(MissingGeoParameters)
  {
  }

  /** With a place, a date that neither parses nor holds exactly two slashes is rejected as a format error. */
  lemma BadDateFails(env: Env, cities: map<string, Place>, names: Names, input: PanchangaInput)
    requires ResolvePlace(env, cities, input).Success?
    requires env.parseDate(input.date).None? && Count(input.date, '/') != 2
    ensures PanchangaOf(env, cities, names, input) == Failure(InvalidDateFormat)
  {
  }

  /** With a place and a date, a latitude outside [-90, 90] stops the computation where the Observer is built. */
  lemma BadLatitudeFails(env: Env, cities: map<string, Place>, names: Names, input: PanchangaInput)
    requires ResolvePlace(env, cities, input).Success?
    requires ParseInputDate(env, input.date).Success? && ParseInputDate(env, input.date).value.Some?
    requires !ValidLatitude(ResolvePlace(env, cities, input).value.latitude)
    ensures PanchangaOf(env, cities, names, input) == Failure(LatitudeOutOfRange)
  {
  }

  /**
   * When everything before the month succeeds, a new-moon search that finds
   * nothing makes calculatePanchanga fail with the new-moon error.
   */
  lemma NewMoonMissingFails(env: Env, cities: map<string, Place>, names: Names, input: PanchangaInput, place: Place, date: Instant, sun: SunTimes)
    requires ResolvePlace(env, cities, input) == Success(place)
    requires ParseInputDate(env, input.date) == Success(Some(date)) && ValidLatitude(place.latitude)
    requires CalculateSunTimes(env, ReferenceUt(date, place.timezone), Observer(place.latitude, place.longitude, 0.0)) == Success(sun)
    requires NakshatraOf(env, sun.sunrise, Observer(place.latitude, place.longitude, 0.0)).Success?
    requires YogaOf(env, sun.sunrise, Observer(place.latitude, place.longitude, 0.0)).Success?
    requires ComputeMasaBySearch(env, sun.sunrise, Observer(place.latitude, place.longitude, 0.0)).Failure?
    ensures PanchangaOf(env, cities, names, input) == Failure(NewMoonNotFound)
  {
  }

  /** A successful response labels every element from its table or by fallback, and marks leap months. */
  lemma ResponseLabels(env: Env, cities: map<string, Place>, names: Names, input: PanchangaInput)
    requires PanchangaOf(env, cities, names, input).Success?
    requires NoAdhikaNames(names)
    ensures var e := ElementsOf(env, cities, input).value;
      var resp := PanchangaOf(env, cities, names, input).value;
      && 1 <= e.tithi.index <= 30 && resp.tithi == Label(names.tithis, e.tithi.index, "Tithi")
      && 1 <= e.nakshatra.index <= 27 && resp.nakshatra == Label(names.nakshatras, e.nakshatra.index, "Nakṣatra")
      && 1 <= e.yoga.index <= 27 && resp.yoga == Label(names.yogas, e.yoga.index, "Yoga")
      && 1 <= e.karana <= 60 && resp.karana == Label(names.karanas, e.karana, "Karaṇa")
      && 0 <= e.vaara <= 6 && resp.vaara == Label(names.vaaras, e.vaara, "Vaara")
      && 1 <= e.masa.masa <= 12 && (StartsWith(resp.masa, Adhika) <==> e.masa.isLeap)
      && 0 <= e.ritu <= 5 && resp.ritu == Label(names.ritus, e.ritu, "Ṛtu")
      && (e.elapsed.kali >= 0 ==> 0 <= e.samvatsara <= 59)
      && resp.samvatsara == Label(names.samvats, e.samvatsara, "Samvatsara")
      && resp.masa == MasaLabel(names, e.masa)
      && resp.ahargana == AharganaLabel(e.ahargana)
      && resp.saka == resp.kali - 3179
  {
    var e := ElementsOf(env, cities, input);
    assert e.Success?;
    var resp := Render(names, e.value);
    assert PanchangaOf(env, cities, names, input).value == resp;
  }
}
