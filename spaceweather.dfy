/** The propagation engine of spaceweather.py: critical frequency, D-layer absorption,
    the per-band rule table, best bands, the overall tier, the aurora and X-ray
    descriptors, and the derivation steps of `fetch_space_weather_data` once the NOAA
    payloads have been fetched and decoded. */
module SpaceWeather {
  import opened Common
  import opened Text

  // Indicator prefixes exactly as the source text of spaceweather.py spells them
  // (the emoji there are stored double-encoded); they are opaque to the model.
  const GREEN := "\U{F0}\U{178}\U{178}\U{A2}"
  const YELLOW := "\U{F0}\U{178}\U{178}\U{A1}"
  const ORANGE := "\U{F0}\U{178}\U{178}\U{A0}"
  const RED := "\U{F0}\U{178}\U{201D}\U{B4}"
  const WHITE := "\U{E2}\U{161}\U{AA}"

  // ---------------------------------------------------------------------------
  // Critical frequency: estimate_fof2_from_sfi
  // ---------------------------------------------------------------------------

  /** `max(sfi, 50)`: readings below 50 are raised to 50. */
  function FluxFloor(sfi: real): real {
    if sfi >= 50.0 then sfi else 50.0
  }

  /** `7.0 * sqrt(max(sfi, 50) / 100)` stated by what it is: the non-negative
      number whose square is `0.49 * max(sfi, 50)`. */
  ghost predicate IsCriticalFrequency(sfi: real, fof2: real) {
    fof2 >= 0.0 && fof2 * fof2 == 0.49 * FluxFloor(sfi)
  }

  lemma SquareMonotone(a: real, b: real)
    requires 0.0 <= a && 0.0 <= b
    ensures a * a <= b * b ==> a <= b
    ensures a * a < b * b ==> a < b
  {
    var aa, ab, bb := a * a, a * b, b * b;
    if a > b {
      assert aa > ab by { assert a * a - a * b == a * (a - b); }
      assert ab >= bb by { assert a * b - b * b == b * (a - b); }
    } else if a == b {
      assert aa == bb;
    }
  }

  /** The estimate is a function of the flux: two roots of the same square coincide. */
  lemma CriticalFrequencyUnique(sfi: real, f: real, g: real)
    requires IsCriticalFrequency(sfi, f) && IsCriticalFrequency(sfi, g)
    ensures f == g
  {
    SquareMonotone(f, g);
    SquareMonotone(g, f);
  }

  /** Any flux at or below 50 gives the estimate for 50. */
  lemma CriticalFrequencyFloor(sfi: real, f: real)
    requires sfi <= 50.0
    ensures IsCriticalFrequency(sfi, f) <==> IsCriticalFrequency(50.0, f)
  {
  }

  /** The estimate never decreases as the flux grows. */
  lemma CriticalFrequencyMonotone(sfi1: real, sfi2: real, f1: real, f2: real)
    requires sfi1 <= sfi2
    requires IsCriticalFrequency(sfi1, f1) && IsCriticalFrequency(sfi2, f2)
    ensures f1 <= f2
  {
    SquareMonotone(f1, f2);
  }

  /** The floor gives 7 * sqrt(0.5) = 4.9497...: every estimate exceeds 4.949, and
      fluxes at or below 50 stay under 4.95. A flux of 100 gives exactly 7 MHz. */
  lemma CriticalFrequencyRange(sfi: real, f: real)
    requires IsCriticalFrequency(sfi, f)
    ensures f > 4.949
    ensures sfi <= 50.0 ==> f < 4.95
    ensures sfi == 100.0 ==> f == 7.0
  {
    SquareMonotone(4.949, f);
    if sfi <= 50.0 {
      SquareMonotone(f, 4.95);
    }
    if sfi == 100.0 {
      CriticalFrequencyUnique(sfi, f, 7.0);
    }
  }

  /** `max(sfi, 50)` for the integer flux the fetch routine stores. */
  function IntFluxFloor(sfi: int): int {
    if sfi >= 50 then sfi else 50
  }

  /** Searches upward from `n` for the integer nearest to the square root of `t`. */
  function NearestRootFrom(t: nat, n: nat): (r: nat)
    requires n >= 1 && n * (n - 1) < t
    ensures r * (r - 1) < t <= r * (r + 1)
    decreases t - n
  {
    if t <= n * (n + 1) then n
    else
      assert n * (n + 1) >= n + 1;
      NearestRootFrom(t, n + 1)
  }

  /** Ten times `round(estimate_fof2_from_sfi(sfi), 1)` for an integer flux: the
      integer nearest to `sqrt(49 * max(sfi, 50))`. No tie is possible because
      `49 * max(sfi, 50)` is an integer. */
  function Fof2Tenths(sfi: int): (n: nat)
    ensures n * (n - 1) < 49 * IntFluxFloor(sfi) <= n * (n + 1)
  {
    NearestRootFrom(49 * IntFluxFloor(sfi), 1)
  }

  /** The foF2 value the fetch routine stores: the estimate rounded to one decimal. */
  function RoundedFof2(sfi: int): real {
    Fof2Tenths(sfi) as real / 10.0
  }

  lemma ProductMonotone(a: int, b: int, c: int, d: int)
    requires 0 <= a <= c && 0 <= b <= d
    ensures a * b <= c * d
  {
    assert (c - a) * b >= 0;
    assert c * (d - b) >= 0;
  }

  /** The bracketing in Fof2Tenths's contract pins down a single integer. */
  lemma NearestRootUnique(t: int, n: nat, m: nat)
    requires n * (n - 1) < t <= n * (n + 1)
    requires m * (m - 1) < t <= m * (m + 1)
    ensures n == m
  {
    if n < m {
      ProductMonotone(n, n + 1, m - 1, m);
    } else if m < n {
      ProductMonotone(m, m + 1, n - 1, n);
    }
  }

  lemma RealProduct(n: int)
    ensures (n * (n - 1)) as real == (n as real) * (n as real) - n as real
    ensures (n * (n + 1)) as real == (n as real) * (n as real) + n as real
  {
    assert n * (n - 1) == n * n - n;
    assert n * (n + 1) == n * n + n;
    assert (n * n) as real == (n as real) * (n as real);
  }

  /** An integer bracketing `n(n-1) < t <= n(n+1)` puts `n` within one half of the
      square root of `t`. */
  lemma Bracket(n: nat, t: int, x: real)
    requires n * (n - 1) < t <= n * (n + 1)
    requires x >= 0.0 && x * x == t as real
    ensures n as real - 0.5 < x < n as real + 0.5
  {
    RealProduct(n);
    var nr := n as real;
    var sq := nr * nr;
    var lo, hi := nr - 0.5, nr + 0.5;
    assert lo * lo == sq - nr + 0.25;
    assert hi * hi == sq + nr + 0.25;
    assert (n * (n - 1) + 1) as real <= t as real;
    SquareMonotone(x, hi);
    if lo >= 0.0 {
      SquareMonotone(lo, x);
    }
  }

  /** The rounded value is within half a tenth of the exact estimate: it is
      `round(estimate, 1)`. */
  lemma Fof2TenthsRoundsEstimate(sfi: int, f: real)
    requires IsCriticalFrequency(sfi as real, f)
    ensures Fof2Tenths(sfi) as real - 0.5 < 10.0 * f < Fof2Tenths(sfi) as real + 0.5
  {
    var t := 49 * IntFluxFloor(sfi);
    var ten := 10.0 * f;
    var ff := f * f;
    assert ten * ten == 100.0 * ff;
    assert FluxFloor(sfi as real) == IntFluxFloor(sfi) as real;
    Bracket(Fof2Tenths(sfi), t, ten);
  }

  /** The values the fetch routine stores for typical fluxes. */
  lemma RoundedFof2Examples()
    ensures RoundedFof2(100) == 7.0
    ensures RoundedFof2(0) == 4.9 && RoundedFof2(50) == 4.9
    ensures RoundedFof2(150) == 8.6
  {
    NearestRootUnique(4900, Fof2Tenths(100), 70);
    NearestRootUnique(2450, Fof2Tenths(0), 49);
    NearestRootUnique(2450, Fof2Tenths(50), 49);
    NearestRootUnique(7350, Fof2Tenths(150), 86);
  }

  // ---------------------------------------------------------------------------
  // D-layer absorption: calculate_d_layer_absorption
  // ---------------------------------------------------------------------------

  datatype DayNight = Day | Night
  datatype AbsorptionLevel = Low | Moderate | High | VeryHigh
  datatype Absorption = Absorption(factor: real, period: DayNight, level: AbsorptionLevel)

  /** `abs(utc_hour - 12)` */
  function HourAngle(utcHour: int): nat {
    if utcHour >= 12 then utcHour - 12 else 12 - utcHour
  }

  /** Absorption before the flux scaling: flat 0.05 at night, linear from 0.3 at the
      edge of the day to 0.7 at noon. */
  function BaseAbsorption(utcHour: int): real {
    var angle := HourAngle(utcHour);
    if angle > 6 then 0.05 else 0.3 + 0.4 * (1.0 - angle as real / 6.0)
  }

  /** `min(solar_flux / 150, 2.0)` */
  function SfiFactor(solarFlux: real): real {
    var ratio := solarFlux / 150.0;
    if ratio <= 2.0 then ratio else 2.0
  }

  function LevelOf(factor: real): AbsorptionLevel {
    if factor < 0.2 then Low
    else if factor < 0.4 then Moderate
    else if factor < 0.6 then High
    else VeryHigh
  }

  function DLayerAbsorption(utcHour: int, solarFlux: real, kIndex: real): (r: Absorption)
    ensures r.factor <= 1.0
    ensures solarFlux >= 0.0 ==> 0.0 <= r.factor
    ensures r.period == Day <==> HourAngle(utcHour) <= 6
    ensures r.level == LevelOf(r.factor)
  {
    var period := if HourAngle(utcHour) > 6 then Night else Day;
    var base := BaseAbsorption(utcHour);
    var sfiFactor := SfiFactor(solarFlux);
    var scaled := base * sfiFactor;
    assert solarFlux >= 0.0 ==> scaled >= 0.0 by {
      if solarFlux >= 0.0 {
        assert base > 0.0 && sfiFactor >= 0.0;
      }
    }
    var factor := StormClamp(scaled, kIndex);
    Absorption(factor, period, LevelOf(factor))
  }

  /** A geomagnetic storm (K >= 5) adds 0.2 to the scaled absorption; the result is
      capped at 1. */
  function StormClamp(scaled: real, kIndex: real): real {
    var stormed := if kIndex >= 5.0 then scaled + 0.2 else scaled;
    if stormed <= 1.0 then stormed else 1.0
  }

  function LevelName(level: AbsorptionLevel): string {
    match level
    case Low => "Low"
    case Moderate => "Moderate"
    case High => "High"
    case VeryHigh => "Very High"
  }

  function LevelEmoji(level: AbsorptionLevel): string {
    match level
    case Low => GREEN
    case Moderate => YELLOW
    case High => ORANGE
    case VeryHigh => RED
  }

  function PeriodName(period: DayNight): string {
    match period
    case Day => "Day"
    case Night => "Night"
  }

  /** The description string returned beside the factor, e.g. "<red> Very High (Day)". */
  function AbsorptionDescription(a: Absorption): string {
    LevelEmoji(a.level) + " " + LevelName(a.level) + " (" + PeriodName(a.period) + ")"
  }

  /** The unscaled profile: 0.7 at noon, 0.3 at both edges of the day window, 0.05 just
      outside it (the jump at the edge is part of the model). */
  lemma BaseAbsorptionProfile()
    ensures BaseAbsorption(12) == 0.7
    ensures BaseAbsorption(6) == 0.3 && BaseAbsorption(18) == 0.3
    ensures BaseAbsorption(5) == 0.05 && BaseAbsorption(19) == 0.05
    ensures forall h :: 0 <= h <= 23 ==> 0.05 <= BaseAbsorption(h) <= 0.7
  {
  }

  /** The flux factor saturates: any flux at or above 300 acts as 300. */
  lemma AbsorptionFluxCap(utcHour: int, solarFlux: real, kIndex: real)
    requires solarFlux >= 300.0
    ensures DLayerAbsorption(utcHour, solarFlux, kIndex) == DLayerAbsorption(utcHour, 300.0, kIndex)
  {
  }

  /** A storm (K >= 5) adds exactly 0.2 before the clamp, so the stormy factor is the
      calm one plus 0.2, capped at 1; below 5 the K-index has no effect. */
  lemma AbsorptionStormSurcharge(utcHour: int, solarFlux: real, calmK: real, stormK: real)
    requires calmK < 5.0 <= stormK
    ensures DLayerAbsorption(utcHour, solarFlux, stormK).factor
         == (var calm := DLayerAbsorption(utcHour, solarFlux, calmK).factor;
             if calm + 0.2 <= 1.0 then calm + 0.2 else 1.0)
    ensures forall k :: k < 5.0 ==> DLayerAbsorption(utcHour, solarFlux, k) == DLayerAbsorption(utcHour, solarFlux, calmK)
  {
  }

  function LevelRank(level: AbsorptionLevel): nat {
    match level
    case Low => 0
    case Moderate => 1
    case High => 2
    case VeryHigh => 3
  }

  /** For a fixed hour the factor, and with it the level, never decreases as the flux
      or the K-index grows. */
  lemma AbsorptionMonotone(utcHour: int, flux1: real, flux2: real, k1: real, k2: real)
    requires 0.0 <= flux1 <= flux2 && k1 <= k2
    ensures DLayerAbsorption(utcHour, flux1, k1).factor <= DLayerAbsorption(utcHour, flux2, k2).factor
    ensures LevelRank(DLayerAbsorption(utcHour, flux1, k1).level) <= LevelRank(DLayerAbsorption(utcHour, flux2, k2).level)
  {
    var x1, x2 := BaseScalingMonotone(utcHour, flux1, flux2);
    StormClampMonotone(x1, x2, k1, k2);
    LevelOfMonotone(StormClamp(x1, k1), StormClamp(x2, k2));
  }

  /** The storm surcharge and the cap keep the order of their inputs. */
  lemma StormClampMonotone(x1: real, x2: real, k1: real, k2: real)
    requires x1 <= x2 && k1 <= k2
    ensures StormClamp(x1, k1) <= StormClamp(x2, k2)
  {
  }

  /** A larger factor never falls into a lower level. */
  lemma LevelOfMonotone(f1: real, f2: real)
    requires f1 <= f2
    ensures LevelRank(LevelOf(f1)) <= LevelRank(LevelOf(f2))
  {
  }

  /** Scaling the base absorption keeps the order of the fluxes. The base is one of
      eight constants, so each case is linear. */
  lemma BaseScalingMonotone(utcHour: int, flux1: real, flux2: real) returns (x1: real, x2: real)
    requires flux1 <= flux2
    ensures x1 == BaseAbsorption(utcHour) * SfiFactor(flux1)
    ensures x2 == BaseAbsorption(utcHour) * SfiFactor(flux2)
    ensures x1 <= x2
  {
    x1, x2 := BaseAbsorption(utcHour) * SfiFactor(flux1), BaseAbsorption(utcHour) * SfiFactor(flux2);
    var s1, s2 := SfiFactor(flux1), SfiFactor(flux2);
    assert s1 <= s2;
    var angle := HourAngle(utcHour);
    if angle > 6 {
      assert BaseAbsorption(utcHour) == 0.05;
    } else if angle == 0 {
      assert BaseAbsorption(utcHour) == 0.7;
    } else if angle == 1 {
      assert BaseAbsorption(utcHour) == 0.3 + 0.4 * (5.0 / 6.0);
    } else if angle == 2 {
      assert BaseAbsorption(utcHour) == 0.3 + 0.4 * (4.0 / 6.0);
    } else if angle == 3 {
      assert BaseAbsorption(utcHour) == 0.5;
    } else if angle == 4 {
      assert BaseAbsorption(utcHour) == 0.3 + 0.4 * (2.0 / 6.0);
    } else if angle == 5 {
      assert BaseAbsorption(utcHour) == 0.3 + 0.4 * (1.0 / 6.0);
    } else {
      assert BaseAbsorption(utcHour) == 0.3;
    }
  }

  lemma AbsorptionExamples()
    ensures DLayerAbsorption(12, 150.0, 0.0) == Absorption(0.7, Day, VeryHigh)
    ensures AbsorptionDescription(DLayerAbsorption(12, 150.0, 0.0)) == RED + " Very High (Day)"
    ensures DLayerAbsorption(0, 70.0, 0.0) == Absorption(7.0 / 300.0, Night, Low)
    ensures AbsorptionDescription(DLayerAbsorption(0, 70.0, 0.0)) == GREEN + " Low (Night)"
  {
  }

  // ---------------------------------------------------------------------------
  // Day and night windows of the three routines
  // ---------------------------------------------------------------------------

  /** `is_night` of calculate_band_conditions. */
  predicate IsNightForBands(utcHour: int) {
    utcHour < 6 || utcHour > 18
  }

  /** `is_day` of get_best_bands_now. */
  predicate IsDayForBestBands(utcHour: int) {
    6 <= utcHour <= 18
  }

  /** On a clock hour the three day/night tests agree: the absorption estimator's
      `|h - 12| <= 6`, the band table's `not (h < 6 or h > 18)` and the best-bands
      `6 <= h <= 18`. */
  lemma DayNightTestsAgree(utcHour: int)
    requires 0 <= utcHour <= 23
    ensures (DLayerAbsorption(utcHour, 0.0, 0.0).period == Day) == IsDayForBestBands(utcHour)
    ensures IsNightForBands(utcHour) == !IsDayForBestBands(utcHour)
    ensures forall flux, k :: (DLayerAbsorption(utcHour, flux, k).period == Day) == IsDayForBestBands(utcHour)
  {
  }

  // ---------------------------------------------------------------------------
  // Band conditions: calculate_band_conditions
  // ---------------------------------------------------------------------------

  datatype Quality = Closed | Poor | Fair | Good
  datatype Band = Band(name: string, freq: real, desc: string)
  datatype BandStatus = BandStatus(emoji: string, quality: Quality, desc: string)

  /** The ten bands, in the order of the source's table. */
  const BANDS: seq<Band> := [
    Band("160m", 1.9, "Regional/DX at night"),
    Band("80m", 3.6, "Reliable day/night"),
    Band("40m", 7.1, "Most reliable"),
    Band("30m", 10.1, "CW/digital DX"),
    Band("20m", 14.2, "Premier DX"),
    Band("17m", 18.1, "Underused gem"),
    Band("15m", 21.2, "Solar-dependent"),
    Band("12m", 24.9, "Solar-dependent"),
    Band("10m", 28.5, "Magic band"),
    Band("6m", 50.1, "VHF magic")
  ]

  const BAND_NAMES: set<string> := {"160m", "80m", "40m", "30m", "20m", "17m", "15m", "12m", "10m", "6m"}
  const LOW_BANDS: set<string> := {"160m", "80m"}
  const HIGH_BANDS: set<string> := {"15m", "12m", "10m", "6m"}

  /** The rule table, first match wins. */
  function ClassifyBand(band: Band, fof2: real, muf: real, absorption: real, kIndex: real, utcHour: int): Quality {
    if band.freq > muf then Quality.Closed
    else if band.freq > fof2 * 2.5 then Quality.Fair
    else if band.name in LOW_BANDS then (if IsNightForBands(utcHour) then Quality.Good else Quality.Fair)
    else if band.name in HIGH_BANDS then
      (if fof2 > 7.0 && kIndex < 4.0 then Quality.Good else if fof2 > 5.0 then Quality.Fair else Quality.Poor)
    else if kIndex < 4.0 && absorption < 0.5 then Quality.Good
    else Quality.Fair
  }

  function QualityEmoji(q: Quality): string {
    match q
    case Closed => RED
    case Poor => RED
    case Fair => YELLOW
    case Good => GREEN
  }

  function QualityName(q: Quality): string {
    match q
    case Closed => "Closed"
    case Poor => "Poor"
    case Fair => "Fair"
    case Good => "Good"
  }

  function StatusOf(band: Band, fof2: real, muf: real, absorption: real, kIndex: real, utcHour: int): BandStatus {
    var q := ClassifyBand(band, fof2, muf, absorption, kIndex, utcHour);
    BandStatus(QualityEmoji(q), q, band.desc)
  }

  /** The status of every band under one set of readings. */
  function StatusFn(fof2: real, muf: real, absorption: real, kIndex: real, utcHour: int): Band -> BandStatus {
    band => StatusOf(band, fof2, muf, absorption, kIndex, utcHour)
  }

  /** The dictionary the loop builds after visiting `bands` in order, storing
      `status(band)` under each band's name. */
  function ConditionsOf(bands: seq<Band>, status: Band -> BandStatus): map<string, BandStatus>
    decreases |bands|
  {
    if |bands| == 0 then map[]
    else
      var last := bands[|bands| - 1];
      ConditionsOf(bands[..|bands| - 1], status)[last.name := status(last)]
  }

  function BandConditions(fof2: real, muf: real, absorption: real, kIndex: real, utcHour: int): map<string, BandStatus> {
    ConditionsOf(BANDS, StatusFn(fof2, muf, absorption, kIndex, utcHour))
  }

  predicate DistinctNames(bands: seq<Band>) {
    forall i, j :: 0 <= i < j < |bands| ==> bands[i].name != bands[j].name
  }

  /** The keys of the dictionary are the names of the visited bands. */
  lemma {:induction false} ConditionsOfKeys(bands: seq<Band>, status: Band -> BandStatus)
    ensures ConditionsOf(bands, status).Keys == set i | 0 <= i < |bands| :: bands[i].name
  {
    if |bands| > 0 {
      var init, last := bands[..|bands| - 1], bands[|bands| - 1];
      ConditionsOfKeys(init, status);
      var names := set i | 0 <= i < |bands| :: bands[i].name;
      var initNames := set i | 0 <= i < |init| :: init[i].name;
      forall n | n in names
        ensures n in initNames + {last.name}
      {
        var i :| 0 <= i < |bands| && bands[i].name == n;
        if i < |init| {
          assert init[i].name == n;
        }
      }
      forall n | n in initNames + {last.name}
        ensures n in names
      {
        if n != last.name {
          var i :| 0 <= i < |init| && init[i].name == n;
          assert bands[i].name == n;
        } else {
          assert bands[|bands| - 1].name == n;
        }
      }
    }
  }

  /** With distinct names no band overwrites another, so each band's entry is its own
      status. */
  lemma {:induction false} ConditionsOfValues(bands: seq<Band>, status: Band -> BandStatus)
    requires DistinctNames(bands)
    ensures forall i :: 0 <= i < |bands| ==>
      bands[i].name in ConditionsOf(bands, status) && ConditionsOf(bands, status)[bands[i].name] == status(bands[i])
  {
    if |bands| > 0 {
      var init, last := bands[..|bands| - 1], bands[|bands| - 1];
      assert forall i :: 0 <= i < |init| ==> init[i] == bands[i];
      ConditionsOfValues(init, status);
      forall i | 0 <= i < |init|
        ensures bands[i].name != last.name
      {
      }
    }
  }

  lemma BandNamesDistinct()
    ensures DistinctNames(BANDS)
  {
  }

  lemma BandNamesOfTable()
    ensures (set i | 0 <= i < |BANDS| :: BANDS[i].name) == BAND_NAMES
  {
    var names := set i | 0 <= i < |BANDS| :: BANDS[i].name;
    assert BANDS[0].name in names && BANDS[1].name in names && BANDS[2].name in names;
    assert BANDS[3].name in names && BANDS[4].name in names && BANDS[5].name in names;
    assert BANDS[6].name in names && BANDS[7].name in names && BANDS[8].name in names;
    assert BANDS[9].name in names;
  }

  /** The result has exactly the ten band keys, each holding its table description and
      the rule table's verdict. */
  lemma BandConditionsTable(fof2: real, muf: real, absorption: real, kIndex: real, utcHour: int)
    ensures BandConditions(fof2, muf, absorption, kIndex, utcHour).Keys == BAND_NAMES
    ensures forall i :: 0 <= i < |BANDS| ==>
      BandConditions(fof2, muf, absorption, kIndex, utcHour)[BANDS[i].name] == StatusOf(BANDS[i], fof2, muf, absorption, kIndex, utcHour)
  {
    BandNamesDistinct();
    ConditionsOfKeys(BANDS, StatusFn(fof2, muf, absorption, kIndex, utcHour));
    ConditionsOfValues(BANDS, StatusFn(fof2, muf, absorption, kIndex, utcHour));
    BandNamesOfTable();
  }

  /** The imperative loop of the source: visit the table in order, decide each band by
      the first rule that applies, store its status. */
  method CalculateBandConditions(fof2: real, muf: real, absorption: real, kIndex: real, utcHour: int)
    returns (conditions: map<string, BandStatus>)
    ensures conditions == BandConditions(fof2, muf, absorption, kIndex, utcHour)
    ensures conditions.Keys == BAND_NAMES
    ensures forall i :: 0 <= i < |BANDS| ==> conditions[BANDS[i].name] == StatusOf(BANDS[i], fof2, muf, absorption, kIndex, utcHour)
  {
    conditions := map[];
    var isNight := utcHour < 6 || utcHour > 18;
    var i := 0;
    while i < |BANDS|
      invariant 0 <= i <= |BANDS|
      invariant conditions == ConditionsOf(BANDS[..i], StatusFn(fof2, muf, absorption, kIndex, utcHour))
    {
      var band := BANDS[i];
      var quality;
      if band.freq > muf {
        quality := Quality.Closed;
      } else if band.freq > fof2 * 2.5 {
        quality := Quality.Fair;
      } else if band.name in LOW_BANDS {
        quality := if isNight then Quality.Good else Quality.Fair;
      } else if band.name in HIGH_BANDS {
        if fof2 > 7.0 && kIndex < 4.0 {
          quality := Quality.Good;
        } else if fof2 > 5.0 {
          quality := Quality.Fair;
        } else {
          quality := Quality.Poor;
        }
      } else if kIndex < 4.0 && absorption < 0.5 {
        quality := Quality.Good;
      } else {
        quality := Quality.Fair;
      }
      assert StatusFn(fof2, muf, absorption, kIndex, utcHour)(band) == BandStatus(QualityEmoji(quality), quality, band.desc);
      conditions := conditions[band.name := BandStatus(QualityEmoji(quality), quality, band.desc)];
      assert BANDS[..i + 1][..i] == BANDS[..i];
      i := i + 1;
    }
    assert BANDS[..i] == BANDS;
    BandConditionsTable(fof2, muf, absorption, kIndex, utcHour);
  }

  /** Rule 1 is the only source of Closed: a band is Closed exactly when its
      frequency is above the MUF. */
  lemma ClosedIffAboveMuf(band: Band, fof2: real, muf: real, absorption: real, kIndex: real, utcHour: int)
    ensures ClassifyBand(band, fof2, muf, absorption, kIndex, utcHour) == Quality.Closed <==> band.freq > muf
  {
  }

  /** A band that is open but above 2.5 x foF2 is Fair whatever the other inputs. */
  lemma FairAboveCriticalMultiple(band: Band, fof2: real, muf: real, absorption: real, kIndex: real, utcHour: int)
    requires band.freq <= muf && band.freq > fof2 * 2.5
    ensures ClassifyBand(band, fof2, muf, absorption, kIndex, utcHour) == Quality.Fair
  {
  }

  /** Poor only arises for 15m/12m/10m/6m, and only when foF2 <= 5.0. */
  lemma PoorOnlyForHighBands(band: Band, fof2: real, muf: real, absorption: real, kIndex: real, utcHour: int)
    requires ClassifyBand(band, fof2, muf, absorption, kIndex, utcHour) == Quality.Poor
    ensures band.name in HIGH_BANDS && fof2 <= 5.0
  {
  }

  /** Past rules 1 and 2, 160m and 80m are Good exactly at night. */
  lemma LowBandsGoodIffNight(band: Band, fof2: real, muf: real, absorption: real, kIndex: real, utcHour: int)
    requires band.name in LOW_BANDS && band.freq <= muf && band.freq <= fof2 * 2.5
    ensures ClassifyBand(band, fof2, muf, absorption, kIndex, utcHour) == (if IsNightForBands(utcHour) then Quality.Good else Quality.Fair)
  {
  }

  /** Past rules 1 and 2, 40m/30m/20m/17m are Good exactly when K < 4 and the
      absorption is below 0.5, and Fair otherwise. */
  lemma MidBandsRule(i: nat, fof2: real, muf: real, absorption: real, kIndex: real, utcHour: int)
    requires 2 <= i <= 5
    requires BANDS[i].freq <= muf && BANDS[i].freq <= fof2 * 2.5
    ensures ClassifyBand(BANDS[i], fof2, muf, absorption, kIndex, utcHour) == (if kIndex < 4.0 && absorption < 0.5 then Quality.Good else Quality.Fair)
  {
  }

  /** foF2 = 7, MUF = 28, absorption 0.3, K = 2 at noon: 10m is Closed (28.5 > 28),
      20m is Good (14.2 <= 17.5, mid band, K < 4, absorption < 0.5). */
  lemma BandConditionsExample()
    ensures var conditions := BandConditions(7.0, 28.0, 0.3, 2.0, 12);
      && "10m" in conditions && conditions["10m"].quality == Quality.Closed
      && "20m" in conditions && conditions["20m"].quality == Quality.Good
      && conditions["20m"].desc == "Premier DX"
  {
    BandConditionsTable(7.0, 28.0, 0.3, 2.0, 12);
    assert BANDS[8].name == "10m" && BANDS[4].name == "20m";
  }

  // ---------------------------------------------------------------------------
  // Best bands now and the overall tier
  // ---------------------------------------------------------------------------

  function BestBandsNow(utcHour: int, fof2: real): string {
    if IsDayForBestBands(utcHour) then
      if fof2 > 8.0 then "20m, 17m, 15m, 12m"
      else if fof2 > 6.0 then "40m, 30m, 20m, 17m"
      else "40m, 30m, 20m"
    else
      if fof2 > 7.0 then "80m, 40m, 30m, 20m"
      else "80m, 40m, 30m"
  }

  /** The same recommendation as a list of band names. */
  function BestBandList(utcHour: int, fof2: real): seq<string> {
    if IsDayForBestBands(utcHour) then
      if fof2 > 8.0 then ["20m", "17m", "15m", "12m"]
      else if fof2 > 6.0 then ["40m", "30m", "20m", "17m"]
      else ["40m", "30m", "20m"]
    else
      if fof2 > 7.0 then ["80m", "40m", "30m", "20m"]
      else ["80m", "40m", "30m"]
  }

  function BandIndex(name: string): int {
    if name == "160m" then 0 else if name == "80m" then 1 else if name == "40m" then 2
    else if name == "30m" then 3 else if name == "20m" then 4 else if name == "17m" then 5
    else if name == "15m" then 6 else if name == "12m" then 7 else if name == "10m" then 8
    else if name == "6m" then 9 else -1
  }

  lemma JoinThree(sep: string, a: string, b: string, c: string)
    ensures Join(sep, [a, b, c]) == a + sep + b + sep + c
  {
    assert [b, c][1..] == [c];
    assert Join(sep, [b, c]) == b + sep + c;
    assert [a, b, c][1..] == [b, c];
    assert Join(sep, [a, b, c]) == a + sep + (b + sep + c);
  }

  lemma JoinFour(sep: string, a: string, b: string, c: string, d: string)
    ensures Join(sep, [a, b, c, d]) == a + sep + b + sep + c + sep + d
  {
    assert [a, b, c, d][1..] == [b, c, d];
    JoinThree(sep, b, c, d);
  }

  /** The recommendation string is the band list joined by ", ". */
  lemma BestBandsText(utcHour: int, fof2: real)
    ensures BestBandsNow(utcHour, fof2) == Join(", ", BestBandList(utcHour, fof2))
  {
    if IsDayForBestBands(utcHour) {
      if fof2 > 8.0 {
        HighDayBandsText();
      } else if fof2 > 6.0 {
        MidDayBandsText();
      } else {
        LowDayBandsText();
      }
    } else if fof2 > 7.0 {
      HighNightBandsText();
    } else {
      LowNightBandsText();
    }
  }

  // The five recommendation strings, each the join of its band list.

  lemma HighDayBandsText()
    ensures Join(", ", ["20m", "17m", "15m", "12m"]) == "20m, 17m, 15m, 12m"
  {
    JoinFour(", ", "20m", "17m", "15m", "12m");
    assert "20m" + ", " + "17m" + ", " + "15m" + ", " + "12m" == "20m, 17m, 15m, 12m";
  }

  lemma MidDayBandsText()
    ensures Join(", ", ["40m", "30m", "20m", "17m"]) == "40m, 30m, 20m, 17m"
  {
    JoinFour(", ", "40m", "30m", "20m", "17m");
    assert "40m" + ", " + "30m" + ", " + "20m" + ", " + "17m" == "40m, 30m, 20m, 17m";
  }

  lemma LowDayBandsText()
    ensures Join(", ", ["40m", "30m", "20m"]) == "40m, 30m, 20m"
  {
    JoinThree(", ", "40m", "30m", "20m");
    assert "40m" + ", " + "30m" + ", " + "20m" == "40m, 30m, 20m";
  }

  lemma HighNightBandsText()
    ensures Join(", ", ["80m", "40m", "30m", "20m"]) == "80m, 40m, 30m, 20m"
  {
    JoinFour(", ", "80m", "40m", "30m", "20m");
    assert "80m" + ", " + "40m" + ", " + "30m" + ", " + "20m" == "80m, 40m, 30m, 20m";
  }

  lemma LowNightBandsText()
    ensures Join(", ", ["80m", "40m", "30m"]) == "80m, 40m, 30m"
  {
    JoinThree(", ", "80m", "40m", "30m");
    assert "80m" + ", " + "40m" + ", " + "30m" == "80m, 40m, 30m";
  }

  /** The recommendation names three or four of the ten bands, in table order; at
      night it always starts with 80m, by day it never includes 80m. */
  lemma BestBandsAreBands(utcHour: int, fof2: real)
    ensures var names := BestBandList(utcHour, fof2);
      && 3 <= |names| <= 4
      && (forall i :: 0 <= i < |names| ==> names[i] in BAND_NAMES)
      && (forall i, j :: 0 <= i < j < |names| ==> BandIndex(names[i]) < BandIndex(names[j]))
      && (IsDayForBestBands(utcHour) <==> "80m" !in names)
  {
    BandIndexValues();
    var names := BestBandList(utcHour, fof2);
    if IsDayForBestBands(utcHour) {
      if fof2 > 8.0 {
        assert names == ["20m", "17m", "15m", "12m"];
      } else if fof2 > 6.0 {
        assert names == ["40m", "30m", "20m", "17m"];
      } else {
        assert names == ["40m", "30m", "20m"];
      }
    } else if fof2 > 7.0 {
      assert names == ["80m", "40m", "30m", "20m"];
    } else {
      assert names == ["80m", "40m", "30m"];
    }
  }

  /** The table positions of the bands the recommendation can name. */
  lemma BandIndexValues()
    ensures BandIndex("80m") == 1 && BandIndex("40m") == 2 && BandIndex("30m") == 3
    ensures BandIndex("20m") == 4 && BandIndex("17m") == 5 && BandIndex("15m") == 6
    ensures BandIndex("12m") == 7
  {
  }

  lemma BestBandsExamples()
    ensures BestBandsNow(14, 9.0) == "20m, 17m, 15m, 12m"
    ensures BestBandsNow(2, 5.0) == "80m, 40m, 30m"
  {
  }

  datatype Tier = Excellent | Good | Fair | Poor | VeryPoor

  /** The overall tier, first match wins. */
  function PropagationTier(sfi: real, kIndex: real): Tier {
    if sfi > 150.0 && kIndex < 3.0 then Tier.Excellent
    else if sfi > 120.0 && kIndex < 4.0 then Tier.Good
    else if sfi > 90.0 && kIndex < 5.0 then Tier.Fair
    else if sfi > 70.0 then Tier.Poor
    else Tier.VeryPoor
  }

  function TierLabel(t: Tier): string {
    match t
    case Excellent => GREEN + " Excellent"
    case Good => GREEN + " Good"
    case Fair => YELLOW + " Fair"
    case Poor => ORANGE + " Poor"
    case VeryPoor => RED + " Very Poor"
  }

  /** Very Poor is exactly a flux of at most 70; Excellent is exactly flux > 150 with
      K < 3; a quiet field (K < 3) never lowers the tier below what the flux alone
      earns. */
  lemma PropagationTierBands(sfi: real, kIndex: real)
    ensures PropagationTier(sfi, kIndex) == Tier.VeryPoor <==> sfi <= 70.0
    ensures PropagationTier(sfi, kIndex) == Tier.Excellent <==> sfi > 150.0 && kIndex < 3.0
    ensures kIndex < 3.0 && sfi > 120.0 ==> PropagationTier(sfi, kIndex) in {Tier.Excellent, Tier.Good}
    ensures kIndex >= 5.0 && sfi > 70.0 ==> PropagationTier(sfi, kIndex) == Tier.Poor
  {
  }

  lemma PropagationTierExamples()
    ensures PropagationTier(160.0, 2.0) == Tier.Excellent
    ensures PropagationTier(100.0, 4.0) == Tier.Fair
    ensures PropagationTier(60.0, 1.0) == Tier.VeryPoor
  {
  }

  // ---------------------------------------------------------------------------
  // Aurora and X-ray descriptors
  // ---------------------------------------------------------------------------

  /** get_aurora_description: first match on K or on the power. */
  function AuroraDescription(auroraPower: real, kIndex: real): string {
    if kIndex >= 7.0 || auroraPower >= 100.0 then RED + " Strong - Visible at lower latitudes"
    else if kIndex >= 5.0 || auroraPower >= 50.0 then YELLOW + " Moderate - Good aurora at high latitudes"
    else if kIndex >= 4.0 || auroraPower >= 20.0 then GREEN + " Minor - Possible aurora near poles"
    else WHITE + " Quiet - No significant aurora"
  }

  /** Either input alone can raise the description; Quiet needs both low. */
  lemma AuroraDescriptionTiers(auroraPower: real, kIndex: real)
    ensures kIndex >= 7.0 || auroraPower >= 100.0 ==> AuroraDescription(auroraPower, kIndex) == RED + " Strong - Visible at lower latitudes"
    ensures AuroraDescription(auroraPower, kIndex) == WHITE + " Quiet - No significant aurora" <==> kIndex < 4.0 && auroraPower < 20.0
  {
    var quiet := WHITE + " Quiet - No significant aurora";
    assert |quiet| != |RED + " Strong - Visible at lower latitudes"|;
    assert |quiet| != |YELLOW + " Moderate - Good aurora at high latitudes"|;
    assert |quiet| != |GREEN + " Minor - Possible aurora near poles"|;
  }

  /** get_xray_impact_description: "N/A" passes through, otherwise the first letter
      decides and an empty class counts as 'A'. */
  function XrayImpactDescription(xrayClass: string): string {
    if xrayClass == "N/A" then "N/A"
    else
      var letter := if |xrayClass| > 0 then xrayClass[0] else 'A';
      if letter == 'X' then RED + " Major flare - Radio blackouts likely"
      else if letter == 'M' then YELLOW + " Medium flare - Minor radio disruption"
      else if letter == 'C' then GREEN + " Small flare - Minimal impact"
      else WHITE + " Quiet - Background levels"
  }

  lemma XrayImpactByLetter(a: string, b: string)
    requires a != "N/A" && b != "N/A" && |a| > 0 && |b| > 0 && a[0] == b[0]
    ensures XrayImpactDescription(a) == XrayImpactDescription(b)
    ensures XrayImpactDescription("") == XrayImpactDescription("A")
  {
  }

  datatype XrayClass = XrayClass(letter: char, magnitude: real)

  /** The letter from the decade breakpoints and the magnitude relative to the
      breakpoint's lower bound. */
  function ClassifyXray(flux: real): XrayClass
    requires flux > 0.0
  {
    if flux >= 0.0001 then XrayClass('X', flux / 0.0001)
    else if flux >= 0.00001 then XrayClass('M', flux / 0.00001)
    else if flux >= 0.000001 then XrayClass('C', flux / 0.000001)
    else if flux >= 0.0000001 then XrayClass('B', flux / 0.0000001)
    else XrayClass('A', flux / 0.00000001)
  }

  /** `f"{letter}{magnitude:.1f}"` */
  function XrayClassText(c: XrayClass): string {
    [c.letter] + FormatTenths(c.magnitude)
  }

  function LetterRank(letter: char): nat {
    if letter == 'A' then 0 else if letter == 'B' then 1 else if letter == 'C' then 2
    else if letter == 'M' then 3 else 4
  }

  /** Magnitudes lie in [1, 10) for B, C and M, are at least 1 for X and in (0, 10)
      for A; a larger flux never gets a lower letter. */
  lemma XrayClassBounds(flux: real, other: real)
    requires 0.0 < flux <= other
    ensures ClassifyXray(flux).letter in "ABCMX"
    ensures ClassifyXray(flux).letter in "BCM" ==> 1.0 <= ClassifyXray(flux).magnitude < 10.0
    ensures ClassifyXray(flux).letter == 'X' ==> ClassifyXray(flux).magnitude >= 1.0
    ensures ClassifyXray(flux).letter == 'A' ==> 0.0 < ClassifyXray(flux).magnitude < 10.0
    ensures LetterRank(ClassifyXray(flux).letter) <= LetterRank(ClassifyXray(other).letter)
    ensures XrayClassText(ClassifyXray(flux))[0] == ClassifyXray(flux).letter
  {
  }

  // ---------------------------------------------------------------------------
  // fetch_space_weather_data, after the payloads have been decoded
  // ---------------------------------------------------------------------------

  /** An entry of the F10.7 cm flux feed: its `reporting_schedule` and its `flux`. */
  datatype FluxReport = FluxReport(schedule: Option<string>, flux: Option<real>)
  /** An entry of the planetary K-index feed: its `kp_index`. */
  datatype KReport = KReport(kp: Option<real>)
  /** An entry of the GOES X-ray feed: its `flux`. */
  datatype XrayReport = XrayReport(flux: Option<real>)
  /** The R/S/G values of the NOAA scales feed, as they print. */
  datatype Scales = Scales(r: string, s: string, g: string)

  /** The decoded payloads; `None` is a request that failed or did not answer 200. */
  datatype Feeds = Feeds(
    solarFlux: Option<seq<FluxReport>>,
    kIndex: Option<seq<KReport>>,
    scales: Option<Scales>,
    xray: Option<seq<XrayReport>>,
    auroraPower: Option<real>)

  /** The `data` dictionary; `None` is a key that is absent or holds "N/A". */
  datatype SpaceWeatherData = SpaceWeatherData(
    timestamp: string,
    solarFlux: Option<int>,
    kIndex: Option<int>,
    aIndex: Option<int>,
    rScale: string,
    sScale: string,
    gScale: string,
    auroraPower: Option<real>,
    xrayClass: string,
    xrayFlux: Option<real>,
    dRegionAbsorption: string,
    propagationConditions: string,
    fof2: Option<real>,
    absorptionFactor: Option<real>,
    mufDx: Option<real>,
    bandConditions: Option<map<string, BandStatus>>,
    bestBandsNow: Option<string>)

  function IsNoon(report: FluxReport): bool {
    report.schedule == Some("Noon")
  }

  /** Index of the most recent "Noon" report. */
  function LastNoon(reports: seq<FluxReport>): (r: Option<nat>)
    ensures r.Some? ==> r.value < |reports| && IsNoon(reports[r.value])
    ensures r.Some? ==> forall j :: r.value < j < |reports| ==> !IsNoon(reports[j])
    ensures r.None? ==> forall j :: 0 <= j < |reports| ==> !IsNoon(reports[j])
    decreases |reports|
  {
    if |reports| == 0 then None
    else if IsNoon(reports[|reports| - 1]) then Some(|reports| - 1)
    else LastNoon(reports[..|reports| - 1])
  }

  /** `int(entry.get('flux', 0))` */
  function ReportedFlux(report: FluxReport): int {
    Trunc(report.flux.GetOr(0.0))
  }

  /** The latest Noon report's flux, else the last entry's, else nothing. */
  function SelectedSolarFlux(reports: seq<FluxReport>): Option<int> {
    match LastNoon(reports)
    case Some(i) => Some(ReportedFlux(reports[i]))
    case None => if |reports| == 0 then None else Some(ReportedFlux(reports[|reports| - 1]))
  }

  /** The reversed scan that stops at the first "Noon" entry, then the fall-back to
      the last entry. */
  method LatestSolarFlux(reports: seq<FluxReport>) returns (flux: Option<int>)
    ensures flux == SelectedSolarFlux(reports)
  {
    var i := |reports|;
    while i > 0 && !IsNoon(reports[i - 1])
      invariant 0 <= i <= |reports|
      invariant forall j :: i <= j < |reports| ==> !IsNoon(reports[j])
    {
      i := i - 1;
    }
    if i > 0 {
      flux := Some(ReportedFlux(reports[i - 1]));
      assert LastNoon(reports) == Some(i - 1);
    } else if |reports| > 0 {
      flux := Some(ReportedFlux(reports[|reports| - 1]));
    } else {
      flux := None;
    }
  }

  /** The selected flux is the most recent Noon report when there is one, the last
      report otherwise, and absent only for an empty feed. */
  lemma SolarFluxSelection(reports: seq<FluxReport>)
    ensures SelectedSolarFlux(reports).None? <==> |reports| == 0
    ensures forall i :: 0 <= i < |reports| && IsNoon(reports[i]) && (forall j :: i < j < |reports| ==> !IsNoon(reports[j]))
              ==> SelectedSolarFlux(reports) == Some(ReportedFlux(reports[i]))
    ensures ((forall j :: 0 <= j < |reports| ==> !IsNoon(reports[j])) && |reports| > 0)
              ==> SelectedSolarFlux(reports) == Some(ReportedFlux(reports[|reports| - 1]))
  {
    forall i | 0 <= i < |reports| && IsNoon(reports[i]) && (forall j :: i < j < |reports| ==> !IsNoon(reports[j]))
      ensures SelectedSolarFlux(reports) == Some(ReportedFlux(reports[i]))
    {
      var n := LastNoon(reports);
      assert n.Some?;
      assert n.value == i;
    }
  }

  /** `int((k ** 2) * 3.3)`: the truncation of a non-negative product. */
  function AIndex(k: int): int {
    (33 * k * k) / 10
  }

  /** The A-index is the floor of 3.3 K^2 (K = 3 gives 29); for K in 1..9 that
      product is never a whole number, so truncation cannot land on an exact tie. */
  lemma AIndexFloor(k: int)
    ensures 10 * AIndex(k) <= 33 * k * k < 10 * AIndex(k) + 10
    ensures 1 <= k <= 9 ==> 10 * AIndex(k) < 33 * k * k
    ensures AIndex(3) == 29 && AIndex(0) == 0 && AIndex(9) == 267
  {
  }

  /** The K value the derived metrics use: the reported K, else 2.0. */
  function KValue(kIndex: Option<int>): real {
    if kIndex.Some? then kIndex.value as real else 2.0
  }

  /** The X-ray class string and flux from the last entry of the feed. */
  function XrayReading(feed: Option<seq<XrayReport>>): (string, Option<real>) {
    if feed.Some? && |feed.value| > 0 then
      var flux := feed.value[|feed.value| - 1].flux;
      if flux.Some? && flux.value > 0.0 then (XrayClassText(ClassifyXray(flux.value)), flux)
      else ("N/A", None)
    else ("N/A", None)
  }

  /** What the derivation block stores for a numeric flux `sfi`, with K value `k`. */
  ghost predicate HasDerivedMetrics(data: SpaceWeatherData, sfi: int, k: real, utcHour: int) {
    var fof2 := RoundedFof2(sfi);
    var absorption := DLayerAbsorption(utcHour, sfi as real, k);
    && data.fof2 == Some(fof2)
    && data.dRegionAbsorption == AbsorptionDescription(absorption)
    && data.absorptionFactor == Some(absorption.factor)
    && data.mufDx == Some(fof2 * 4.0)
    && data.propagationConditions == TierLabel(PropagationTier(sfi as real, k))
    && data.bandConditions == Some(BandConditions(fof2, fof2 * 4.0, absorption.factor, k, utcHour))
    && data.bestBandsNow == Some(BestBandsNow(utcHour, fof2))
  }

  /** Nothing is derived without a numeric flux. */
  ghost predicate HasNoDerivedMetrics(data: SpaceWeatherData) {
    && data.fof2.None? && data.absorptionFactor.None? && data.mufDx.None?
    && data.bandConditions.None? && data.bestBandsNow.None?
    && data.dRegionAbsorption == "N/A" && data.propagationConditions == "N/A"
  }

  /** The fields read straight from the feeds agree between two snapshots. */
  predicate SameReadings(a: SpaceWeatherData, b: SpaceWeatherData) {
    && a.timestamp == b.timestamp && a.solarFlux == b.solarFlux && a.kIndex == b.kIndex
    && a.aIndex == b.aIndex && a.rScale == b.rScale && a.sScale == b.sScale && a.gScale == b.gScale
    && a.auroraPower == b.auroraPower && a.xrayClass == b.xrayClass && a.xrayFlux == b.xrayFlux
  }

  /** The readings part of fetch_space_weather_data: each feed fills its fields, and a
      failed or empty feed leaves them at "N/A". */
  method ReadFeeds(feeds: Feeds, timestamp: string) returns (data: SpaceWeatherData)
    ensures data.timestamp == timestamp
    ensures data.solarFlux == (if feeds.solarFlux.Some? then SelectedSolarFlux(feeds.solarFlux.value) else None)
    ensures data.kIndex == (if feeds.kIndex.Some? && |feeds.kIndex.value| > 0
                            then Some(Trunc(feeds.kIndex.value[|feeds.kIndex.value| - 1].kp.GetOr(0.0))) else None)
    ensures data.aIndex == (if data.kIndex.Some? then Some(AIndex(data.kIndex.value)) else None)
    ensures feeds.scales.Some? ==> data.rScale == feeds.scales.value.r && data.sScale == feeds.scales.value.s && data.gScale == feeds.scales.value.g
    ensures feeds.scales.None? ==> data.rScale == "N/A" && data.sScale == "N/A" && data.gScale == "N/A"
    ensures (data.xrayClass, data.xrayFlux) == XrayReading(feeds.xray)
    ensures data.auroraPower == feeds.auroraPower
    ensures HasNoDerivedMetrics(data)
  {
    data := SpaceWeatherData(timestamp, None, None, None, "N/A", "N/A", "N/A", None, "N/A", None,
                             "N/A", "N/A", None, None, None, None, None);

    if feeds.solarFlux.Some? && |feeds.solarFlux.value| > 0 {
      var flux := LatestSolarFlux(feeds.solarFlux.value);
      data := data.(solarFlux := flux);
    }

    if feeds.kIndex.Some? && |feeds.kIndex.value| > 0 {
      var kData := feeds.kIndex.value;
      data := data.(kIndex := Some(Trunc(kData[|kData| - 1].kp.GetOr(0.0))));
    }

    if data.kIndex.Some? {
      data := data.(aIndex := Some(AIndex(data.kIndex.value)));
    }

    if feeds.scales.Some? {
      data := data.(rScale := feeds.scales.value.r, sScale := feeds.scales.value.s, gScale := feeds.scales.value.g);
    }

    if feeds.xray.Some? && |feeds.xray.value| > 0 {
      var latest := feeds.xray.value[|feeds.xray.value| - 1];
      var flux := latest.flux;
      if flux.Some? && flux.value > 0.0 {
        data := data.(xrayFlux := flux, xrayClass := XrayClassText(ClassifyXray(flux.value)));
      }
    }

    data := data.(auroraPower := feeds.auroraPower);
  }

  /** The derivation block of fetch_space_weather_data, run when the flux is numeric;
      the K value defaults to 2.0 when the K-index is missing. */
  method DeriveMetrics(data: SpaceWeatherData, utcHour: int) returns (derived: SpaceWeatherData)
    requires data.solarFlux.Some?
    ensures SameReadings(derived, data)
    ensures HasDerivedMetrics(derived, data.solarFlux.value, KValue(data.kIndex), utcHour)
  {
    derived := data;
    var sfi := data.solarFlux.value;
    var fof2 := RoundedFof2(sfi);
    derived := derived.(fof2 := Some(fof2));

    var kVal := if data.kIndex.Some? then data.kIndex.value as real else 2.0;
    var absorption := DLayerAbsorption(utcHour, sfi as real, kVal);
    derived := derived.(dRegionAbsorption := AbsorptionDescription(absorption), absorptionFactor := Some(absorption.factor));

    var mufDx := fof2 * 4.0;
    derived := derived.(mufDx := Some(mufDx));

    var tier;
    if sfi as real > 150.0 && kVal < 3.0 {
      tier := Tier.Excellent;
    } else if sfi as real > 120.0 && kVal < 4.0 {
      tier := Tier.Good;
    } else if sfi as real > 90.0 && kVal < 5.0 {
      tier := Tier.Fair;
    } else if sfi as real > 70.0 {
      tier := Tier.Poor;
    } else {
      tier := Tier.VeryPoor;
    }
    derived := derived.(propagationConditions := TierLabel(tier));

    var bands := CalculateBandConditions(fof2, mufDx, absorption.factor, kVal, utcHour);
    derived := derived.(bandConditions := Some(bands));
    derived := derived.(bestBandsNow := Some(BestBandsNow(utcHour, fof2)));
  }

  /** fetch_space_weather_data from the point where each payload has been decoded.
      The clock is read once, as `utcHour`. */
  method FetchSpaceWeatherData(feeds: Feeds, utcHour: int, timestamp: string) returns (data: SpaceWeatherData)
    ensures data.timestamp == timestamp
    ensures data.solarFlux == (if feeds.solarFlux.Some? then SelectedSolarFlux(feeds.solarFlux.value) else None)
    ensures data.kIndex == (if feeds.kIndex.Some? && |feeds.kIndex.value| > 0
                            then Some(Trunc(feeds.kIndex.value[|feeds.kIndex.value| - 1].kp.GetOr(0.0))) else None)
    ensures data.aIndex == (if data.kIndex.Some? then Some(AIndex(data.kIndex.value)) else None)
    ensures feeds.scales.Some? ==> data.rScale == feeds.scales.value.r && data.sScale == feeds.scales.value.s && data.gScale == feeds.scales.value.g
    ensures feeds.scales.None? ==> data.rScale == "N/A" && data.sScale == "N/A" && data.gScale == "N/A"
    ensures (data.xrayClass, data.xrayFlux) == XrayReading(feeds.xray)
    ensures data.auroraPower == feeds.auroraPower
    ensures data.solarFlux.None? ==> HasNoDerivedMetrics(data)
    ensures data.solarFlux.Some? ==> HasDerivedMetrics(data, data.solarFlux.value, KValue(data.kIndex), utcHour)
  {
    data := ReadFeeds(feeds, timestamp);
    if data.solarFlux.Some? {
      data := DeriveMetrics(data, utcHour);
    }
  }
}
