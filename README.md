# Pañcāṅga calendar core, modelled in Dafny

This project models the calendar arithmetic of `panchanga-ts`. That library computes the five limbs of the Hindu almanac for a place and a civil date. The limbs are tithi (lunar day), nakshatra (lunar mansion), yoga, karana (half-tithi) and vāra (weekday). It also computes the lunar month (māsa) with its adhika (leap) flag, the season (ṛtu), the day count since the Kali epoch (ahargaṇa), the Kali and Śaka years, the samvatsara, and the length of daylight.

The ephemeris is not modelled. Every astronomical, host and helper function the core calls is a field of the value `Foreign.Env`:
- the ecliptic longitude of a body;
- the rise/set and moon-phase searches, which return `Option`;
- `getAngleDifference`;
- the host's local offset;
- native date parsing;
- `Date.UTC` of the D/M/Y parts;
- the title-casing of city names.

Each operation takes that value as a parameter, so every result states exactly which outside answers it depends on.

JavaScript numbers are modelled as exact reals, and time values as integer milliseconds. Where the source rounds, the rounding is written out:
- the truncating `%` is `Angles.Rem360` and `Angles.TruncRem`;
- `Math.ceil` is `Angles.Ceil`;
- `Math.round` is `Time.RoundHalfUp`;
- `setUTCSeconds` truncates the new seconds field, `getUTCSeconds() + days * 86400`, toward zero. `Angles.AddDays` models exactly that. So a fractional shift is rounded from the start of the current minute, not from the instant itself.
- The `Date` constructor drops fractions of a millisecond, which is `Angles.Trunc` inside `Panchanga.ReferenceUt`.
- `getUTCFullYear` is computed from the proleptic Gregorian calendar of `Date` (`Angles.UtcYear`), the same calendar that `Panchanga.UtcMidnight` uses.
- `Date.UTC` reads a year from 0 to 99 as 1900 plus that year. So local midnight of a date in those years falls in the twentieth century (`Panchanga.UtcMidnight`).

A non-finite JavaScript number is `None`. This happens in `inverseLagrange` when a denominator is zero. When such a value reaches the `AstroTime` constructor, that constructor throws; the model returns `Failure(InvalidTime)`.

Files, one module each:
- `wrappers.dfy`: `Option` and `Result`.
- `foreign.dfy`: `Env`, `Body`, `Observer` and `Instant`.
- `text.dfy`: `toString`, `padStart(2, "0")`, and `split`/`join` on one character, each with its inverse.
- `angles.dfy`, `interpolation.dfy`: the helpers of `src/utils/helpers.ts`.
- `tithi.dfy`, `karana.dfy`, `nakshatra.dfy`, `yoga.dfy`, `masa.dfy`, `year.dfy`, `time.dfy`: the engines of `src/calculations`.
- `errors.dfy`: the failures and their messages.
- `panchanga.dfy`: `calculatePanchanga` of `src/index.ts`, with the engine copies of that file that behave differently from `src/calculations`.

The loops of the source are methods, each proved equal to a specification function:
- the nested loops of `inverseLagrange`;
- the sampling loop of `interpolateTime`;
- the relative-motion loop of `computeTithi`;
- the step-by-step assignments of `place` and `inputDate` in `calculatePanchanga`.

The properties are proved about those specification functions.

Three engines exist both in `src/calculations` and in `src/index.ts`, and the two copies behave differently:
- Month. `src/calculations/masa.ts` takes the previous new moon as a fixed 29.53 days before sunrise. Only its forward search, over 29.53 days, can fail (`Masa.MasaOf`). `src/index.ts` searches both ways, each over 2 days (`Panchanga.ComputeMasaBySearch`). So `calculatePanchanga` fails with the new-moon error whenever no new moon falls within 2 days after sunrise. It also fails when none falls within 2 days before the instant 29.53 days earlier.
- Tithi. The end time is interpolated in `src/calculations/tithi.ts` (`Tithi.TithiOf`). `src/index.ts` searches for the phase index * 12 instead (`Panchanga.ComputeTithiBySearch`).
- Vāra. `src/calculations/time.ts` reads the weekday on the host's clock (`Time.ComputeVaara`). `src/index.ts` reads it after adding the place's offset (`Panchanga.ComputeVaaraAt`).

The day length is formatted whatever the sign of sunset minus sunrise.

## Model

| member | source | states |
|---|---|---|
| `Text.NatToStringRoundTrip` | src/calculations/time.ts:24-30 | the decimal digits `toString` writes for a non-negative integer denote that integer |
| `Text.PaddedRoundTrip` | src/calculations/time.ts:24-30 | `padStart(2, "0")` of an integer's digits keeps them all digits and keeps the value |
| `Text.SplitLength` | src/index.ts:448-449 | `split` on one character yields exactly one more part than there are separators |
| `Text.JoinSplit` | src/index.ts:448 | joining the parts of a split with the separator gives the original string back |
| `Text.SplitJoin` | src/index.ts:448-450 | splitting a join of separator-free parts gives the parts back |
| `Angles.Trunc` | src/utils/helpers.ts:62 | rounding toward zero: down for a non-negative value, up for a negative one, by less than 1 |
| `Angles.Ceil` | src/calculations/tithi.ts:21 | `Math.ceil`: the least integer not below the value |
| `Angles.TruncRem` | src/calculations/year.ts:19-21 | JavaScript `%` on integers: the same as the Euclidean remainder for a non-negative dividend, in (-m, 0] for a negative one, and always differing from the dividend by a multiple of m |
| `Angles.Rem360` | src/utils/helpers.ts:14-16 | `a % 360` lies strictly between -360 and 360, takes the sign of a (non-negative for a >= 0, non-positive for a < 0), and differs from a by whole turns |
| `Angles.Mod360` | src/utils/helpers.ts:14-16 | `mod360(a)` lies in [0, 360) and `a - mod360(a)` is an integer multiple of 360 |
| `Angles.Mod360Unique` | src/utils/helpers.ts:14-16 | `mod360(a)` is the only value in [0, 360) congruent to a modulo 360 |
| `Angles.Mod360Normalised` | src/utils/helpers.ts:14-16 | an angle already in [0, 360) is returned unchanged |
| `Angles.Mod360Idempotent` | src/utils/helpers.ts:14-16 | `mod360(mod360(a)) == mod360(a)` |
| `Angles.UtcSeconds` | src/utils/helpers.ts:62 | `getUTCSeconds`: the seconds field lies in [0, 59] and differs from the whole seconds of the time value by whole minutes |
| `Angles.AddDays` | src/utils/helpers.ts:60-64 | the shift is a whole number of seconds, keeping the milliseconds. It is days * 86400000 ms rounded toward zero, as counted from the start of the minute: down while the new seconds field is non-negative (always for days >= 0), up otherwise |
| `Angles.AddDaysHalfSecondBack` | src/utils/helpers.ts:62 | half a second back from 00:00:30 lands on 00:00:29, because the new field 29.5 is truncated |
| `Angles.AddDaysExact` | src/utils/helpers.ts:60-64 | quarter days, including the sampling offsets 0, 0.25, 0.5, 0.75 and 1, are added exactly |
| `Angles.JulianDay` | src/utils/helpers.ts:10-12 | the Julian day is at least 2440587.5 exactly for time values from the Unix epoch on |
| `Angles.JulianDayEpochAndRate` | src/utils/helpers.ts:10-12 | time value 0 is Julian day 2440587.5 and each 86400000 ms adds exactly 1 |
| `Angles.Ayanamsa` | src/utils/helpers.ts:122-125 | the ayanamsa is at least 24.07 degrees exactly from the year 2000 on |
| `Angles.AyanamsaAnchorAndRate` | src/utils/helpers.ts:122-125 | the ayanamsa is 24.07 degrees in 2000 and grows by 0.014 per year |
| `Angles.TropicalLongitude` | src/utils/helpers.ts:101-119 | the tropical longitude lies in [0, 360) and is congruent to the ecliptic longitude |
| `Angles.YearStartStep` | src/utils/helpers.ts:123 | the first day of each year: 365 days after the previous year's, 366 after a Gregorian leap year; 1970 starts on day 0 |
| `Angles.YearStartsAscend` | src/utils/helpers.ts:123 | a later year starts no earlier |
| `Angles.YearStartNear` | src/utils/helpers.ts:123 | year y starts within about a day and a half of 365.2425 * (y - 1970) days |
| `Angles.UtcYear` | src/utils/helpers.ts:123 | `getUTCFullYear`: the year whose first day is at or before the instant's UTC day, and whose successor's first day is after it |
| `Angles.UtcYearUnique` | src/utils/helpers.ts:123 | any year that holds the instant's day is `UtcYear`, so the year is determined |
| `Angles.SiderealLongitude` | src/utils/helpers.ts:128-136 | the sidereal longitude lies in [0, 360) and is congruent to tropical minus the ayanamsa of the instant's UTC year |
| `Angles.Elongation` | src/calculations/tithi.ts:16-18 | the phase `mod360(moonTrop - sunTrop)` lies in [0, 360) and is congruent to the difference |
| `Interpolation.DenomZero` | src/utils/helpers.ts:69-76 | a denominator of `inverseLagrange` is zero exactly when another node repeats node i |
| `Interpolation.DenomsNonZero` | src/utils/helpers.ts:66-80 | all denominators are non-zero exactly when the y values are pairwise distinct |
| `Interpolation.TermFactors` | src/utils/helpers.ts:69-76 | the inner loop builds the product of (target - y[j]) and the product of (y[i] - y[j]) over all j != i |
| `Interpolation.InverseLagrange` | src/utils/helpers.ts:66-80 | the nested loops return the Lagrange sum, finite exactly when the y values are pairwise distinct |
| `Interpolation.NumerVanishes` | src/utils/helpers.ts:69-76 | at target y[k], every numerator but term k's has the factor zero |
| `Interpolation.NumerMatchesDenom` | src/utils/helpers.ts:69-76 | at target y[k], term k's numerator equals its denominator |
| `Interpolation.PartialSumAtNode` | src/utils/helpers.ts:66-80 | at target y[k], the sum of the first m terms is x[k] if k < m, else 0 |
| `Interpolation.InverseLagrangeReproducesNodes` | src/utils/helpers.ts:66-80 | with distinct y, `inverseLagrange(x, y, y[k]) == x[k]` |
| `Interpolation.Samples` | src/utils/helpers.ts:89-95 | one sample per offset, each normalised into [0, 360) |
| `Interpolation.SampleAt` | src/utils/helpers.ts:89-95 | sample i is `mod360(f(addDays(start, offsets[i])))`, so samples come in offset order |
| `Interpolation.InterpolateTime` | src/utils/helpers.ts:82-98 | the sampling loop and interpolation give the start shifted by the interpolated offset, defined exactly when the samples are distinct |
| `Interpolation.InterpolatedAtSample` | src/utils/helpers.ts:82-98 | with distinct samples, a target equal to sample k yields the instant at offset k |
| `Errors.Message` | src/index.ts:429-476 | the text of each failure the repository raises itself (the two the astronomy library raises carry its text); a city message is `City '…' not found in database.` with exactly the given city between the quotes |
| `Errors.MessageInjective` | src/index.ts:429-476 | distinct failures have distinct messages |
| `Tithi.TithiIndex` | src/calculations/tithi.ts:21-22 | the index lies in [1, 30], phase 0 gives 30, and a positive phase lies in ((i-1)*12, i*12] |
| `Tithi.DegreesLeftRange` | src/calculations/tithi.ts:21-23 | the degrees left lie in [0, 12) for a positive phase and are 360 at phase 0 |
| `Tithi.TomorrowIndex` | src/calculations/tithi.ts:56-59 | tomorrow's index is not remapped: it lies in [0, 30] and is 0 exactly at phase 0 |
| `Tithi.SkipMeasureRange` | src/calculations/tithi.ts:60 | `(tomorrow - today + 30) % 30` lies in [0, 29] and is the forward distance modulo 30 |
| `Tithi.RelativeMotions` | src/calculations/tithi.ts:26-40 | one relative motion per offset |
| `Tithi.SampleRelativeMotions` | src/calculations/tithi.ts:26-40 | the loop pushes the relative motion at each offset in offset order, 4 entries for the 4 offsets |
| `Tithi.TithiOf` | src/calculations/tithi.ts:11-76 | index in [1, 30] brackets the phase, and is 30 at phase 0; the end time is interpolated at the degrees left; leapTithi exists exactly when the skip measure exceeds 1, has index today + 1 and target degreesLeft + 12. It fails with InvalidTime exactly when an interpolation it uses is non-finite |
| `Tithi.ComputeTithi` | src/calculations/tithi.ts:11-76 | the method returns `Tithi.TithiOf` |
| `Tithi.LeapIndexWraps` | src/calculations/tithi.ts:62 | the leap index today + 1 is the cyclic successor today % 30 + 1 except when today is 30 |
| `Tithi.EndAtSample` | src/calculations/tithi.ts:43-45 | with distinct motions, a target equal to the k-th motion ends at sunrise plus (k + 1) quarter days |
| `Karana.KaranaIndex` | src/calculations/karana.ts:13-14 | the index lies in [1, 60], phase 0 gives 60, and a positive phase lies in ((i-1)*6, i*6] |
| `Karana.ComputeKarana` | src/calculations/karana.ts:6-20 | the karana at sunrise lies in [1, 60], brackets the elongation, and is 60 at elongation 0 |
| `Karana.KaranaHalvesTithi` | src/calculations/karana.ts:12-14 | `ceil(karana / 2)` lies in [1, 30] and equals the tithi index of the same phase |
| `Nakshatra.ArcIndex` | src/calculations/nakshatra.ts:10-11 | the index lies in [1, 27], angle 0 gives 27, and a positive angle lies in ((i-1)*360/27, i*360/27]; yoga.ts:12-13 computes the yoga index the same way from the sidereal sum |
| `Nakshatra.ArcEndBounds` | src/calculations/nakshatra.ts:12 | the target `index * (360 / 27)` lies in (0, 360] and, for a positive angle, less than 360/27 ahead of it; yoga.ts:14 uses the same target |
| `Nakshatra.NakshatraOf` | src/calculations/nakshatra.ts:5-25 | the index lies in [1, 27], brackets the Moon's sidereal longitude and is 27 at longitude 0; the end is interpolated toward the target over the default five offsets; failure exactly when the samples repeat |
| `Nakshatra.FirstSampleIsSunriseLongitude` | src/calculations/nakshatra.ts:13-18 | the function sampled is the longitude the index came from: its sample at offset 0 is that longitude |
| `Yoga.YogaTotal` | src/calculations/yoga.ts:11 | the total lies in [0, 360) and is congruent to the sum of the longitudes |
| `Yoga.YogaSymmetric` | src/calculations/yoga.ts:11-12 | exchanging the Sun's and the Moon's longitudes gives the same index |
| `Yoga.YogaOf` | src/calculations/yoga.ts:5-31 | index in [1, 27] with the target less than one arc ahead of the total, and 27 at total 0; the end is interpolated over the default offsets; failure exactly when the samples repeat |
| `Yoga.FirstSampleIsTotal` | src/calculations/yoga.ts:19-23 | the sampled function at offset 0 equals the total the index came from |
| `Masa.Raasi` | src/calculations/masa.ts:15-20 | the sign lies in [1, 12], longitude 0 gives 12, and a positive longitude lies in ((r-1)*30, r*30]; the fallback to 12 of the next sign is the same remap |
| `Masa.MasaOfRaasi` | src/calculations/masa.ts:17-18 | the month is raasi % 12 + 1 and lies in [1, 12] |
| `Masa.MasaFromNewMoons` | src/calculations/masa.ts:14-22 | the month lies in [1, 12], follows the Sun's sign at the last new moon, and isLeap holds exactly when both signs are equal |
| `Masa.MasaOf` | src/calculations/masa.ts:5-23 | fails with the new-moon error exactly when the forward search finds nothing; otherwise the month of the fixed -29.53 day instant and the found new moon |
| `Masa.Ritu` | src/calculations/masa.ts:25-27 | the season of a month in [1, 12] lies in [0, 5] |
| `Masa.RituPairs` | src/calculations/masa.ts:25-27 | months 2k-1 and 2k share season k-1 |
| `Year.Ahargana` | src/calculations/year.ts:1-3 | the day count is non-negative exactly from the Kali epoch, Julian day 588465.5, on |
| `Year.AharganaEpochAndShift` | src/calculations/year.ts:1-3 | the count is 0 at Julian day 588465.5, moves one for one with the Julian day, and is 1871481 on Julian day 2459946.5 |
| `Year.ElapsedYearOf` | src/calculations/year.ts:5-14 | kali is the floor of the day count over 365.25636: kali*Y <= days < (kali+1)*Y; saka = kali - 3179 |
| `Year.KaliMonotone` | src/calculations/year.ts:9-11 | for a fixed month, kali does not decrease as the Julian day grows |
| `Year.CycleKali` | src/calculations/year.ts:18-20 | from 4009 on, the year is (kali - 14) % 60 in [0, 59]; below, it is unchanged |
| `Year.CycleKaliPeriodic` | src/calculations/year.ts:18-20 | past the threshold, the reduced year repeats every 60 years |
| `Year.Samvatsara` | src/calculations/year.ts:16-23 | for kali >= 0 the samvatsara lies in [0, 59] |
| `Time.RoundHalfUp` | src/calculations/time.ts:23 | `Math.round` gives the integer within half a unit, halves rounded up |
| `Time.DurationHours` | src/calculations/time.ts:20-22 | duration * 3600000 is sunset - sunrise in ms |
| `Time.TotalSeconds` | src/calculations/time.ts:22-23 | the whole seconds lie within half a second of the difference |
| `Time.SplitSeconds` | src/calculations/time.ts:24-30 | for totalSec >= 0: hh*3600 + mm*60 + ss == totalSec with mm, ss in [0, 59] |
| `Time.FormatHms` | src/calculations/time.ts:24-31 | for hh >= 0 and mm, ss in [0, 59]: three ":"-separated digit fields reading back as hh, mm and ss, the first at least 2 wide and the others exactly 2 |
| `Time.ParseJoined` | src/calculations/time.ts:31 | three digit fields joined by ":" read back as the seconds they denote |
| `Time.FormatHmsRoundTrip` | src/calculations/time.ts:24-31 | the `hh:mm:ss` string, each field padded to 2, reads back as the fields' seconds |
| `Time.ComputeDayDuration` | src/calculations/time.ts:16-32 | duration in hours is the difference. For a non-negative total the text is `hh:mm:ss`: hh at least 2 digits, mm and ss exactly 2 digits and at most 59, together the rounded total seconds |
| `Time.DayDurationExample` | src/__tests__/calculations/time.test.ts:34-46 | 06:30 to 18:00 gives 11.5 hours and "11:30:00" |
| `Time.CalculateSunTimes` | src/calculations/time.ts:34-43 | fails with the sunrise/sunset error exactly when either search returns nothing, else returns both found instants |
| `Time.WeekDay` | src/index.ts:327 | the UTC weekday lies in [0, 6] |
| `Time.WeekDayAdvances` | src/index.ts:327 | one day later is the next weekday, Saturday wrapping to Sunday |
| `Time.WeekDayAnchors` | src/__tests__/calculations/time.test.ts:19-28 | the epoch was a Thursday (4) and 1 January 2023 a Sunday (0) |
| `Time.ComputeVaara` | src/calculations/time.ts:5-14 | the weekday index lies in [0, 6] |
| `Panchanga.ResolvePlace` | src/index.ts:412-443 | with a non-empty city: the table entry of its title-cased name, else the city-not-found error naming the given city; without one: the three coordinates, else the missing-parameters error exactly when one is absent |
| `Panchanga.CityTakesPrecedence` | src/index.ts:414-443 | when a city is given, the coordinates beside it do not change the outcome |
| `Panchanga.ParseInputDate` | src/utils/helpers.ts:138-150 | a native parse is kept; otherwise the date-format error is raised exactly when the string does not hold exactly two slashes |
| `Panchanga.DayMonthYearFallback` | src/index.ts:446-455 | a rejected string of three slash-free fields d/m/y is read as day d, month m, year y |
| `Panchanga.CenturyShift` | src/index.ts:458-464 | year 1900+y begins 693960 days after year y (693961 for year 0), and the two agree on leap days except year 0 |
| `Panchanga.UtcMidnight` | src/index.ts:458-464 | a multiple of 86400000; outside years 0-99 the start of the UTC day of the date, inside them a day in 1900-1999, as `Date.UTC` reads two-digit years |
| `Panchanga.UtcMidnightEarlyYears` | src/index.ts:458-464 | day d of a year y in 0-99 becomes day d of year 1900+y, one day earlier from March of year 0 on |
| `Panchanga.TwoDigitYearExample` | src/index.ts:458-464 | 0050-03-15T12:00Z has its midnight at 1950-03-15T00:00Z |
| `Panchanga.ReferenceUtQuarterHours` | src/index.ts:466-469 | an offset of whole quarter hours moves midnight by exactly that many 900000 ms |
| `Panchanga.ReferenceUt` | src/index.ts:466-469 | local midnight minus the offset, rounded toward zero to the millisecond |
| `Panchanga.ComputeTithiBySearch` | src/index.ts:237-254 | the index lies in [1, 30], brackets the phase and is 30 at phase 0; the end is the phase search for index * 12 within 2 days, possibly absent |
| `Panchanga.ComputeMasaBySearch` | src/index.ts:336-355 | fails exactly when the forward or the backward new-moon search finds nothing; otherwise the month from the two found new moons |
| `Panchanga.ComputeVaaraAt` | src/index.ts:322-334 | the weekday of sunrise shifted by the place's offset lies in [0, 6] |
| `Panchanga.VaaraOffsetsAgree` | src/index.ts:322-334 | with a whole-hour offset equal to the host's, the two vaara versions agree |
| `Panchanga.Label` | src/index.ts:496-560 | a present, non-empty table name is used; otherwise "<element> <index>" |
| `Panchanga.FallbackNamesIndex` | src/index.ts:496-560 | the fallback label is the element, a space and digits that read back as the index |
| `Panchanga.FallbackIsNotAdhika` | src/index.ts:539 | the synthetic month label never starts with "Adhika " |
| `Panchanga.MasaLabel` | src/index.ts:536-539 | a leap month's label starts with "Adhika "; every label ends with the month's table or fallback name, which is all of it otherwise |
| `Panchanga.MasaLabelMarksLeap` | src/index.ts:536-539 | the month label starts with "Adhika " exactly in a leap month, when no table name starts so |
| `Panchanga.AharganaLabel` | src/index.ts:549 | the label is the digits of the floor of the count, with a minus sign when it is negative |
| `Panchanga.ElementsAt` | src/index.ts:479-491 | fails exactly when the nakshatra, yoga or two-way month computation fails; a nakshatra or yoga failure comes first, as InvalidTime, and a month failure after both succeed is NewMoonNotFound. Every index is in range: tithi 1-30, nakshatra and yoga 1-27, karana 1-60, vaara 0-6, masa 1-12, ritu 0-5, and samvatsara 0-59 once kali >= 0. saka = kali - 3179. Each element is its engine's result at sunrise: the tithi by search, the weekday after the place's offset, the two-way month, the ritu, ahargana and years of that month, and the day length |
| `Panchanga.ElementsOf` | src/index.ts:405-491 | a place failure is reported first, then a date-format failure. An Invalid Date gives InvalidTime, then a latitude outside [-90, 90] gives LatitudeOutOfRange (the `Observer` constructor), then a failed sun search gives SunTimesNotFound; after that, the result is `ElementsAt` at the sunrise found. A success has a resolved place, a parsed date, sun times found from the reference instant, and the elements at that sunrise |
| `Panchanga.Render` | src/index.ts:494-580 | each label is the table name or fallback of its index; the month label is `Panchanga.MasaLabel` of the month, starting with "Adhika " exactly in a leap month when no table name does; the ahargana label is `Panchanga.AharganaLabel`, the digits of its floor with a minus sign when negative; years and instants pass through |
| `Panchanga.PanchangaOf` | src/index.ts:405-580 | fails exactly when the elements fail, with their error; otherwise the rendered elements |
| `Panchanga.DeterminePlace` | src/index.ts:412-443 | the branch-by-branch assignment of place equals the resolved place |
| `Panchanga.ParseDate` | src/index.ts:445-455 | the reassignment of inputDate equals the parsed date |
| `Panchanga.CalculatePanchanga` | src/index.ts:405-580 | the method returns `Panchanga.PanchangaOf` |
| `Panchanga.UnknownCityFails` | src/index.ts:414-430 | an unknown given city fails with its name before anything else is read |
| `Panchanga.MissingCoordinatesFail` | src/index.ts:431-443 | without a city, a missing coordinate or timezone fails before the date is read |
| `Panchanga.BadDateFails` | src/index.ts:446-455 | with a place, an unparseable date without exactly two slashes fails with the date-format error |
| `Panchanga.BadLatitudeFails` | src/index.ts:466-470 | with a place and a date, a latitude outside [-90, 90] fails with LatitudeOutOfRange |
| `Panchanga.NewMoonMissingFails` | src/index.ts:337-345 | when the place, date, sun times, nakshatra and yoga succeed, a failed new-moon search makes the whole computation fail with NewMoonNotFound |
| `Panchanga.ResponseLabels` | src/index.ts:494-580 | every element index is in range and labelled by its table or fallback, samvatsara included; the month label is `MasaLabel` and marks leap months; the ahargana label is `AharganaLabel`; saka = kali - 3179 |

## Left out

- The astronomy library (`Equator`, `Ecliptic`, `Vector`, `SearchRiseSet`, `SearchMoonPhase`) is not part of this model. These functions are fields of `Foreign.Env`, and nothing is assumed of them. Of its argument checks, only the latitude check of the `Observer` constructor is modelled (`LatitudeOutOfRange`); its check that each coordinate is a finite number has no counterpart, because reals are finite.
- `getAngleDifference` is not part of this model. `src/calculations/tithi.ts` imports it, but `src/utils/helpers.ts` does not define it, so it is a field of `Foreign.Env`.
- IEEE-754 rounding is not modelled: reals are exact. For a tiny negative angle such as -1e-14, the source's `(a % 360) + 360` rounds to 360.0, so `mod360` returns 0. The model returns a value just below 360. At that angle the model's index and degrees left can differ from the source's: for the tithi, degrees left is about 0 in the model against 360 in the source. `Math.round` ties also follow exact arithmetic.
- A non-finite interpolation result is `None`. In the source, the `AstroTime` constructor then throws, so `Failure(InvalidTime)` stands for that throw. Its message is that library's and is not modelled.
- Time values outside the `Date` range of ±8.64e15 ms are not treated as invalid.
- Named IANA timezones are not modelled, nor is the `Intl.DateTimeFormat` branch of `adjustTimeByTimezone`. Timezones are numeric hour offsets.
- `toISOString` is not modelled. The response keeps the unshifted instants. The source's start and end strings print each instant plus the place's offset (`adjustTimeByTimezone`) with a "Z" suffix.
- `formatTimeFromDate` is not modelled, because it reads the host's local clock. This covers the sunrise and sunset clock strings and the `time` field of vāra.
- `Time.ComputeVaara`: only the index of `src/calculations/time.ts` is modelled, not its `time` string.
- The name tables and the city table are maps that the caller supplies. Their data is not part of this model. The title-casing regular expression is the field `Foreign.Env.titleCase`.
- Lookups of object-prototype keys (a city named `constructor`) are not modelled.
- The fixed `description` strings of every result are not modelled.
- `async`/`Promise` and `console.warn` are not modelled; nothing runs concurrently.
- Facts about real ephemeris data are not stated. These include end times falling after sunrise or within a day, and the ordering of the leap end time.
- The `observer` parameter of `interpolateTime` is unused by the source and does not appear in the model.
- Moon-phase targets are passed to the search as written, with no reduction. At tithi 30 the `src/index.ts` tithi asks for 360 degrees.
- `src/models/types.ts` declares `TithiResult` without the `leapTithi` field that `src/calculations/tithi.ts` sets. The model's record carries it.
