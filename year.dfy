/**
 * src/calculations/year.ts: the ahargana (days since the Kali epoch), the
 * elapsed Kali and Saka years, and the samvatsara, the year's place in the
 * 60-year cycle.
 */
module Year {
  import opened Angles

  /** The Julian day of the Kali epoch. */
  const KaliEpoch: real := 588465.5

  /** computeAhargana. */
  function Ahargana(julianDay: real): (r: real)
    ensures r >= 0.0 <==> julianDay >= KaliEpoch
  {
    julianDay - KaliEpoch
  }

  /** The count is zero at the epoch and moves one for one with the Julian day. */
  lemma AharganaEpochAndShift(julianDay: real, days: real)
    ensures Ahargana(KaliEpoch) == 0.0
    ensures Ahargana(julianDay + days) == Ahargana(julianDay) + days
    ensures Ahargana(2459946.5) == 1871481.0
  {
  }

  const SiderealYear: real := 365.25636

  datatype ElapsedYear = ElapsedYear(kali: int, saka: int)

  /** The amount of days computeElapsedYear divides into sidereal years. */
  function KaliDays(julianDay: real, masa: int): real {
    Ahargana(julianDay) + (4 - masa) as real * 30.0
  }

  /** computeElapsedYear: kali = Math.floor(days / year), saka = kali - 3179. */
  function ElapsedYearOf(julianDay: real, masa: int): (r: ElapsedYear)
    ensures r.kali as real * SiderealYear <= KaliDays(julianDay, masa) < (r.kali + 1) as real * SiderealYear
    ensures r.saka == r.kali - 3179
  {
    var kali := (KaliDays(julianDay, masa) / SiderealYear).Floor;
    ElapsedYear(kali, kali - 3179)
  }

  /** For a fixed month, a later day never has a smaller Kali year. */
  lemma KaliMonotone(jd1: real, jd2: real, masa: int)
    requires jd1 <= jd2
    ensures ElapsedYearOf(jd1, masa).kali <= ElapsedYearOf(jd2, masa).kali
  {
  }

  /** From Kali year 4009 on, the year is first reduced to (kali - 14) % 60. */
  function CycleKali(kali: int): (r: int)
    ensures kali >= 4009 ==> 0 <= r <= 59 && r == (kali - 14) % 60
    ensures kali < 4009 ==> r == kali
  {
    if kali >= 4009 then TruncRem(kali - 14, 60) else kali
  }

  /** Past the threshold the reduced year repeats every 60 years. */
  lemma CycleKaliPeriodic(kali: int)
    requires kali >= 4009
    ensures CycleKali(kali + 60) == CycleKali(kali)
  {
  }

  /** computeSamvatsara: (kali + 27 + Math.floor((kali * 211 - 108) / 18000)) % 60 on the reduced year. */
  function Samvatsara(julianDay: real, masa: int): (r: int)
    ensures ElapsedYearOf(julianDay, masa).kali >= 0 ==> 0 <= r <= 59
  {
    var kali := CycleKali(ElapsedYearOf(julianDay, masa).kali);
    var correction := ((kali * 211 - 108) as real / 18000.0).Floor;
    assert kali >= 0 ==> correction >= -1;
    TruncRem(kali + 27 + correction, 60)
  }
}
