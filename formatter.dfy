/** Post assembly (formatter.py): the five-post thread built from the space-weather
    dictionary, the per-post classifiers, the character-limit guard and the post
    statistics. */
module Formatter {
  import opened Common
  import opened Text
  import SpaceWeather

  type SpaceWeatherData = SpaceWeather.SpaceWeatherData

  const DRAP_IMAGE_URL := "https://services.swpc.noaa.gov/images/animations/d-rap/global/d-rap/latest.png"
  const AURORA_IMAGE_URL := "https://services.swpc.noaa.gov/images/animations/ovation/north/latest.jpg"
  /** The image slot value that asks the poster to render the X-ray chart. */
  const CHART_MARKER := "GENERATE_CHART"
  const HASHTAGS := "#SolarStormScout #HamRadio"

  const SUN := "\U{2600}\U{FE0F}"
  const BAR_CHART := "\U{1F4CA}"
  const RADIO := "\U{1F4FB}"
  const RADIOACTIVE := "\U{2622}\U{FE0F}"
  const MAGNET := "\U{1F9F2}"
  const TARGET := "\U{1F3AF}"
  const RED_CIRCLE := "\U{1F534}"
  const YELLOW_CIRCLE := "\U{1F7E1}"
  const GREEN_CIRCLE := "\U{1F7E2}"
  const WHITE_CIRCLE := "\U{26AA}"
  const ANTENNA := "\U{1F4E1}"
  const ALARM_CLOCK := "\U{23F0}"
  const LIGHT_BULB := "\U{1F4A1}"
  const MILKY_WAY := "\U{1F30C}"

  /** A post of the thread: its text, its image slot and the image's alt text. */
  datatype Post = Post(text: string, imageUrl: Option<string>, altText: string)

  /** The UTC wall-clock time the absorption and X-ray posts print. */
  datatype UtcTime = UtcTime(hour: nat, minute: nat)

  /** `now.strftime('%H:%M')` */
  function ClockText(now: UtcTime): string {
    TwoDigits(now.hour) + ":" + TwoDigits(now.minute)
  }

  /** The per-post character budget: 300 for "bluesky", 500 for anything else. */
  function CharLimit(platform: string): (limit: nat)
    ensures limit == 300 <==> platform == "bluesky"
    ensures limit == 500 <==> platform != "bluesky"
  {
    if platform == "bluesky" then 300 else 500
  }

  function OverflowMessage(length: nat, limit: int): string {
    "Post formatting error: " + IntToString(length) + " > " + IntToString(limit) + " chars"
  }

  /** ensure_char_limit: the text comes back unchanged when it fits, otherwise the
      ValueError's message. */
  function EnsureCharLimit(text: string, limit: int): (r: Result<string>)
    ensures r.Ok? <==> |text| <= limit
    ensures r.Ok? ==> r.value == text
    ensures r.Err? ==> r.error == OverflowMessage(|text|, limit)
  {
    if |text| > limit then Err(OverflowMessage(|text|, limit)) else Ok(text)
  }

  /** How a present number prints; an absent one prints as "N/A". */
  function IntText(v: Option<int>): string {
    match v
    case Some(n) => IntToString(n)
    case None => "N/A"
  }

  function RealText(v: Option<real>): string {
    match v
    case Some(x) => FloatText(x)
    case None => "N/A"
  }

  // ---------------------------------------------------------------------------
  // Post 1: solar indices
  // ---------------------------------------------------------------------------

  /** `f"{int(absorption * 100)}%"` for a float factor; the integer default 0 of a
      missing factor is not a float, so it shows "N/A". */
  function AbsorptionPercent(factor: Option<real>): (r: string)
    ensures factor.None? <==> r == "N/A"
  {
    match factor
    case Some(a) =>
      var pct := IntToString(Trunc(a * 100.0)) + "%";
      assert pct[|pct| - 1] == '%';
      pct
    case None => "N/A"
  }

  /** The text of post 1: numbered 1 of 5, opening with the solar flux (or "N/A"),
      and closing with the hashtags. */
  function SolarIndicesText(data: SpaceWeatherData): (r: string)
    ensures StartsWith(r, SUN + " SOLAR INDICES (1/5)\n\nSFI: " + IntText(data.solarFlux) + "\n")
    ensures EndsWith(r, "\n\n" + HASHTAGS)
  {
    var head := SUN + " SOLAR INDICES (1/5)\n\nSFI: " + IntText(data.solarFlux) + "\n";
    var middle := "A-index: " + IntText(data.aIndex)
      + "\nK-index: " + IntText(data.kIndex)
      + "\nfoF2: " + RealText(data.fof2) + " MHz"
      + "\nMUF (DX): " + RealText(data.mufDx) + " MHz"
      + "\nD-Layer: " + AbsorptionPercent(data.absorptionFactor)
      + "\n\n" + BAR_CHART + " NOAA Scales\n"
      + RADIO + "R" + data.rScale + " Radio Blackout\n"
      + RADIOACTIVE + "S" + data.sScale + " Radiation Storm\n"
      + MAGNET + "G" + data.gScale + " Geomagnetic Storm";
    var tail := "\n\n" + HASHTAGS;
    Framed(head, middle, tail);
    head + middle + tail
  }

  // ---------------------------------------------------------------------------
  // Post 2: band conditions
  // ---------------------------------------------------------------------------

  /** The fixed order in which the band lines are listed. */
  const BAND_ORDER: seq<string> := ["160m", "80m", "40m", "30m", "20m", "17m", "15m", "12m", "10m", "6m"]

  /** `f"{band_name}: {b['emoji']} {b['quality']}"` */
  function BandLine(name: string, status: SpaceWeather.BandStatus): string {
    name + ": " + status.emoji + " " + SpaceWeather.QualityName(status.quality)
  }

  /** The lines for `names`, in order, skipping the bands the dictionary lacks. */
  function BandLinesOf(names: seq<string>, bands: map<string, SpaceWeather.BandStatus>): seq<string>
    decreases |names|
  {
    if |names| == 0 then []
    else
      var last := names[|names| - 1];
      BandLinesOf(names[..|names| - 1], bands) + (if last in bands then [BandLine(last, bands[last])] else [])
  }

  /** The loop of format_band_conditions_post that appends one line per present band. */
  method CollectBandLines(bands: map<string, SpaceWeather.BandStatus>) returns (lines: seq<string>)
    ensures lines == BandLinesOf(BAND_ORDER, bands)
  {
    lines := [];
    var i := 0;
    while i < |BAND_ORDER|
      invariant 0 <= i <= |BAND_ORDER|
      invariant lines == BandLinesOf(BAND_ORDER[..i], bands)
    {
      var name := BAND_ORDER[i];
      if name in bands {
        lines := lines + [BandLine(name, bands[name])];
      }
      assert BAND_ORDER[..i + 1][..i] == BAND_ORDER[..i];
      i := i + 1;
    }
    assert BAND_ORDER[..i] == BAND_ORDER;
  }

  /** Never more lines than names; an empty dictionary gives no lines. */
  lemma {:induction false} BandLinesBounded(names: seq<string>, bands: map<string, SpaceWeather.BandStatus>)
    ensures |BandLinesOf(names, bands)| <= |names|
    ensures bands == map[] ==> BandLinesOf(names, bands) == []
    decreases |names|
  {
    if |names| > 0 {
      BandLinesBounded(names[..|names| - 1], bands);
    }
  }

  /** When every name is present, the lines are exactly one per name, in order. */
  lemma {:induction false} BandLinesAllPresent(names: seq<string>, bands: map<string, SpaceWeather.BandStatus>)
    requires forall i :: 0 <= i < |names| ==> names[i] in bands
    ensures |BandLinesOf(names, bands)| == |names|
    ensures forall i :: 0 <= i < |names| ==> BandLinesOf(names, bands)[i] == BandLine(names[i], bands[names[i]])
    decreases |names|
  {
    if |names| > 0 {
      BandLinesAllPresent(names[..|names| - 1], bands);
    }
  }

  /** The order of the post is the order of the engine's table, so a dictionary from
      SpaceWeather.BandConditions yields all ten lines, 160m first and 6m last. */
  lemma BandPostListsEveryBand(fof2: real, muf: real, absorption: real, kIndex: real, utcHour: int)
    ensures var bands := SpaceWeather.BandConditions(fof2, muf, absorption, kIndex, utcHour);
      && (forall i :: 0 <= i < 10 ==> SpaceWeather.BANDS[i].name in bands)
      && |BandLinesOf(BAND_ORDER, bands)| == 10
      && forall i :: 0 <= i < 10 ==>
           BandLinesOf(BAND_ORDER, bands)[i] == BandLine(SpaceWeather.BANDS[i].name, bands[SpaceWeather.BANDS[i].name])
  {
    var bands := SpaceWeather.BandConditions(fof2, muf, absorption, kIndex, utcHour);
    SpaceWeather.BandConditionsTable(fof2, muf, absorption, kIndex, utcHour);
    assert forall i :: 0 <= i < 10 ==> BAND_ORDER[i] == SpaceWeather.BANDS[i].name;
    BandLinesAllPresent(BAND_ORDER, bands);
  }

  function BandConditionsText(data: SpaceWeatherData): string {
    var bands := data.bandConditions.GetOr(map[]);
    var bandsText := Join("\n", BandLinesOf(BAND_ORDER, bands));
    RADIO + " BAND CONDITIONS (2/5)\n\n" + bandsText
    + "\n\n" + TARGET + " Best Now: " + data.bestBandsNow.GetOr("N/A")
    + "\n\nBased on MUF=" + RealText(data.mufDx) + "MHz\n\n"
    + HASHTAGS
  }

  /** format_band_conditions_post: the line loop, the join and the guard. */
  method FormatBandConditionsPost(data: SpaceWeatherData, limit: int) returns (r: Result<string>)
    ensures r == EnsureCharLimit(BandConditionsText(data), limit)
  {
    var bands := data.bandConditions.GetOr(map[]);
    var lines := CollectBandLines(bands);
    var bandsText := Join("\n", lines);
    var post := RADIO + " BAND CONDITIONS (2/5)\n\n" + bandsText
      + "\n\n" + TARGET + " Best Now: " + data.bestBandsNow.GetOr("N/A")
      + "\n\nBased on MUF=" + RealText(data.mufDx) + "MHz\n\n"
      + HASHTAGS;
    r := EnsureCharLimit(post, limit);
  }

  // ---------------------------------------------------------------------------
  // Post 3: D-region absorption
  // ---------------------------------------------------------------------------

  function TimeNote(hour: int): string {
    if 10 <= hour <= 16 then "Peak daytime"
    else if hour < 6 || hour > 20 then "Low nighttime"
    else "Transitional"
  }

  /** `'High' in s or 'Very High' in s`, then `'Moderate' in s`. */
  function BandRecommendation(absorption: string): string {
    if Contains(absorption, "High") || Contains(absorption, "Very High") then "Try 80m/40m"
    else if Contains(absorption, "Moderate") then "Mid bands OK"
    else "All bands good"
  }

  /** The colour key of post 3: the compact variant exactly for the 300-character
      limit. */
  function AbsorptionHelper(limit: int): (r: string)
    ensures limit == 300 <==> |r| < 100
  {
    if limit == 300 then
      RED_CIRCLE + "High=HF bad " + YELLOW_CIRCLE + "Med " + GREEN_CIRCLE + "Low=HF good\nTry 40m/80m high absorption"
    else
      "Real-time HF absorption from solar X-rays\n" + RED_CIRCLE + "Red=High (HF challenging) " + YELLOW_CIRCLE
      + "Yellow=Moderate " + GREEN_CIRCLE + "Green/Blue=Low (HF good)\nHigher absorption = lower frequencies work better"
  }

  /** The text of post 3: numbered 3 of 5, opening with the absorption text, and
      closing with the platform's colour key and the hashtags. */
  function AbsorptionText(data: SpaceWeatherData, limit: int, now: UtcTime): (r: string)
    ensures StartsWith(r, ANTENNA + " D-REGION ABSORPTION (3/5)\n" + data.dRegionAbsorption + "\n")
    ensures EndsWith(r, "\n\n" + AbsorptionHelper(limit) + "\n\n" + HASHTAGS)
  {
    var head := ANTENNA + " D-REGION ABSORPTION (3/5)\n" + data.dRegionAbsorption + "\n";
    var tail := "\n\n" + AbsorptionHelper(limit) + "\n\n" + HASHTAGS;
    var middle := "\n" + ALARM_CLOCK + " " + TimeNote(now.hour) + " - " + ClockText(now) + "Z"
             + "\n" + LIGHT_BULB + " " + BandRecommendation(data.dRegionAbsorption);
    Framed(head, middle, tail);
    head + middle + tail
  }

  /** The three time windows partition the day: 10..16 peak, before 6 or after 20
      low, the rest (6..9 and 17..20) transitional. */
  lemma TimeNoteWindows(hour: int)
    requires 0 <= hour <= 23
    ensures TimeNote(hour) == "Peak daytime" <==> 10 <= hour <= 16
    ensures TimeNote(hour) == "Low nighttime" <==> hour < 6 || hour > 20
    ensures TimeNote(hour) == "Transitional" <==> (6 <= hour <= 9 || 17 <= hour <= 20)
  {
  }

  /** The "Very High" test is subsumed by the "High" test; a text with neither
      "High" nor "Moderate" (such as "N/A") gets "All bands good". */
  lemma BandRecommendationRules(absorption: string)
    ensures BandRecommendation(absorption) == "Try 80m/40m" <==> Contains(absorption, "High")
    ensures BandRecommendation(absorption) == "Mid bands OK" <==> !Contains(absorption, "High") && Contains(absorption, "Moderate")
    ensures BandRecommendation("N/A") == "All bands good"
  {
    if Contains(absorption, "Very High") {
      assert "Very " + "High" == "Very High";
      ContainsTail(absorption, "Very ", "High");
    }
    NotContainsWithoutFirstChar("N/A", "High");
    NotContainsWithoutFirstChar("N/A", "Very High");
    NotContainsWithoutFirstChar("N/A", "Moderate");
  }

  /** High and Very High descriptions contain "High". */
  lemma RecommendationWhenHigh(a: SpaceWeather.Absorption)
    requires a.level == SpaceWeather.High || a.level == SpaceWeather.VeryHigh
    ensures BandRecommendation(SpaceWeather.AbsorptionDescription(a)) == "Try 80m/40m"
  {
    var emoji := SpaceWeather.LevelEmoji(a.level);
    var tail := " (" + SpaceWeather.PeriodName(a.period) + ")";
    if a.level == SpaceWeather.High {
      assert SpaceWeather.AbsorptionDescription(a) == emoji + " " + "High" + tail;
      ContainsMiddle(emoji + " ", "High", tail);
    } else {
      assert SpaceWeather.AbsorptionDescription(a) == emoji + " Very " + "High" + tail;
      ContainsMiddle(emoji + " Very ", "High", tail);
    }
  }

  /** A Moderate description contains "Moderate" and no "High". */
  lemma RecommendationWhenModerate(a: SpaceWeather.Absorption)
    requires a.level == SpaceWeather.Moderate
    ensures BandRecommendation(SpaceWeather.AbsorptionDescription(a)) == "Mid bands OK"
  {
    var emoji := SpaceWeather.LevelEmoji(a.level);
    var tail := " (" + SpaceWeather.PeriodName(a.period) + ")";
    var text := SpaceWeather.AbsorptionDescription(a);
    assert text == emoji + " " + "Moderate" + tail;
    NotContainsWithoutFirstChar(text, "High");
    NotContainsWithoutFirstChar(text, "Very High");
    ContainsMiddle(emoji + " ", "Moderate", tail);
  }

  /** A Low description contains none of the keywords. */
  lemma RecommendationWhenLow(a: SpaceWeather.Absorption)
    requires a.level == SpaceWeather.Low
    ensures BandRecommendation(SpaceWeather.AbsorptionDescription(a)) == "All bands good"
  {
    var text := SpaceWeather.AbsorptionDescription(a);
    assert text == SpaceWeather.LevelEmoji(a.level) + " " + "Low" + " (" + SpaceWeather.PeriodName(a.period) + ")";
    NotContainsWithoutFirstChar(text, "High");
    NotContainsWithoutFirstChar(text, "Very High");
    NotContainsWithoutFirstChar(text, "Moderate");
  }

  /** Applied to the engine's own absorption description, the recommendation follows
      the level: High and Very High give "Try 80m/40m", Moderate "Mid bands OK", Low
      "All bands good". */
  lemma BandRecommendationForLevel(a: SpaceWeather.Absorption)
    ensures var rec := BandRecommendation(SpaceWeather.AbsorptionDescription(a));
      && (rec == "Try 80m/40m" <==> a.level in {SpaceWeather.High, SpaceWeather.VeryHigh})
      && (rec == "Mid bands OK" <==> a.level == SpaceWeather.Moderate)
      && (rec == "All bands good" <==> a.level == SpaceWeather.Low)
  {
    match a.level
    case High => RecommendationWhenHigh(a);
    case VeryHigh => RecommendationWhenHigh(a);
    case Moderate => RecommendationWhenModerate(a);
    case Low => RecommendationWhenLow(a);
  }

  // ---------------------------------------------------------------------------
  // Post 4: aurora
  // ---------------------------------------------------------------------------

  /** The tier line, the visibility line and the radio line of the aurora post. */
  datatype AuroraLines = AuroraLines(desc: string, visibility: string, radio: string)

  function AuroraPostLines(power: Option<real>, kIndex: Option<int>): AuroraLines {
    if power.Some? && kIndex.Some? then
      var k := kIndex.value as real;
      var p := power.value;
      if k >= 7.0 || p >= 100.0 then AuroraLines(RED_CIRCLE + " STRONG", "Mid-lat visible", "VHF aurora scatter!")
      else if k >= 5.0 || p >= 50.0 then AuroraLines(YELLOW_CIRCLE + " MODERATE", "High-lat good", "2m/6m auroral-E")
      else if k >= 4.0 || p >= 20.0 then AuroraLines(GREEN_CIRCLE + " MINOR", "Polar regions", "VHF enhanced")
      else AuroraLines(WHITE_CIRCLE + " QUIET", "Minimal", "Normal VHF")
    else AuroraLines("N/A", "Data N/A", "")
  }

  /** `f"{aurora_power} GW"` for a number, the raw "N/A" otherwise. */
  function PowerText(power: Option<real>): (r: string)
    ensures power.None? <==> r == "N/A"
    ensures power.Some? ==> EndsWith(r, " GW")
  {
    match power
    case Some(p) => FloatText(p) + " GW"
    case None => "N/A"
  }

  /** The colour key of post 4: the compact variant exactly for the 300-character
      limit. */
  function AuroraHelper(limit: int): (r: string)
    ensures limit == 300 <==> |r| < 100
  {
    if limit == 300 then
      GREEN_CIRCLE + "2m/6m scatter " + YELLOW_CIRCLE + "Enhanced " + RED_CIRCLE + "Intense\nPoint N, SSB/CW, K\U{2265}4 best"
    else
      GREEN_CIRCLE + "Green=2m/6m scatter possible " + YELLOW_CIRCLE + "Yellow=Enhanced " + RED_CIRCLE
      + "Red=Intense aurora\nPoint antennas north, use SSB/CW modes. Best during K\U{2265}4 activity."
  }

  /** The text of post 4: numbered 4 of 5, opening with the activity tier, and
      closing with the platform's colour key and the hashtags. */
  function AuroraText(data: SpaceWeatherData, limit: int): (r: string)
    ensures StartsWith(r, MILKY_WAY + " AURORA FORECAST (4/5)\n" + AuroraPostLines(data.auroraPower, data.kIndex).desc + "\n")
    ensures EndsWith(r, "\n\n" + AuroraHelper(limit) + "\n\n" + HASHTAGS)
  {
    var lines := AuroraPostLines(data.auroraPower, data.kIndex);
    var head := MILKY_WAY + " AURORA FORECAST (4/5)\n" + lines.desc + "\n";
    var tail := "\n\n" + AuroraHelper(limit) + "\n\n" + HASHTAGS;
    var middle := "\nPower: " + PowerText(data.auroraPower)
             + "\nK-index: " + IntText(data.kIndex)
             + "\n" + lines.visibility
             + "\n\n" + RADIO + " " + lines.radio;
    Framed(head, middle, tail);
    head + middle + tail
  }

  /** The tier is "N/A" unless both readings are numeric; otherwise it is first-match on
      the thresholds, and the same thresholds as the engine's aurora description, so
      the post says STRONG exactly when the engine says Strong and QUIET exactly when
      it says Quiet. */
  lemma AuroraPostTiers(power: Option<real>, kIndex: Option<int>)
    ensures AuroraPostLines(power, kIndex).desc == "N/A" <==> power.None? || kIndex.None?
    ensures power.Some? && kIndex.Some? ==>
      ((AuroraPostLines(power, kIndex).desc == RED_CIRCLE + " STRONG")
       <==> (SpaceWeather.AuroraDescription(power.value, kIndex.value as real) == SpaceWeather.RED + " Strong - Visible at lower latitudes"))
    ensures power.Some? && kIndex.Some? ==>
      ((AuroraPostLines(power, kIndex).desc == WHITE_CIRCLE + " QUIET")
       <==> (SpaceWeather.AuroraDescription(power.value, kIndex.value as real) == SpaceWeather.WHITE + " Quiet - No significant aurora"))
  {
    if power.Some? && kIndex.Some? {
      SpaceWeather.AuroraDescriptionTiers(power.value, kIndex.value as real);
      var strong := SpaceWeather.RED + " Strong - Visible at lower latitudes";
      assert |strong| != |SpaceWeather.YELLOW + " Moderate - Good aurora at high latitudes"|;
      assert |strong| != |SpaceWeather.GREEN + " Minor - Possible aurora near poles"|;
      assert |strong| != |SpaceWeather.WHITE + " Quiet - No significant aurora"|;
      assert (WHITE_CIRCLE + " QUIET")[2] == 'Q' && (GREEN_CIRCLE + " MINOR")[2] == 'M';
      assert (YELLOW_CIRCLE + " MODERATE")[2] == 'M' && (RED_CIRCLE + " STRONG")[2] == 'S';
    }
  }

  // ---------------------------------------------------------------------------
  // Post 5: X-ray flux
  // ---------------------------------------------------------------------------

  /** The impact line and the advice line of the X-ray post. */
  function XrayPostLines(xrayClass: string): (string, string) {
    if xrayClass == "N/A" then ("Data N/A", "")
    else
      var letter := if |xrayClass| > 0 then xrayClass[0] else 'A';
      if letter == 'X' then (RED_CIRCLE + " MAJOR FLARE", "HF blackouts likely!")
      else if letter == 'M' then (YELLOW_CIRCLE + " MEDIUM FLARE", "Minor HF disruption")
      else if letter == 'C' then (GREEN_CIRCLE + " SMALL FLARE", "Minimal impact")
      else (WHITE_CIRCLE + " QUIET", "Background levels")
  }

  /** The flare-class key of post 5: the compact variant exactly for the
      300-character limit. */
  function XrayHelper(limit: int): (r: string)
    ensures limit == 300 <==> |r| < 100
  {
    if limit == 300 then
      "X=Major/HF blackout M=Med/regional C=Minor B=Weak\nRed=long \U{3BB} Cyan=short \U{3BB}"
    else
      "Flare Classes: X=Major (HF blackouts) M=Medium (regional HF degradation) C=Minor (slight absorption) B=Weak (normal)\n"
      + "Red line=0.1-0.8nm Cyan=0.05-0.4nm. Spikes=flares causing radio blackouts. Higher flux=worse HF."
  }

  /** The text of post 5: numbered 5 of 5, opening with the current class, and
      closing with the platform's flare key, the time stamp and the hashtags. */
  function XrayText(data: SpaceWeatherData, limit: int, now: UtcTime): (r: string)
    ensures StartsWith(r, SUN + " X-RAY FLUX (5/5)\nPast 6hr\n\nCurrent: " + data.xrayClass + "\n")
    ensures EndsWith(r, "\n\n" + XrayHelper(limit) + "\n\nNOAA SWPC " + ClockText(now) + "Z\n\n" + HASHTAGS)
  {
    var lines := XrayPostLines(data.xrayClass);
    var head := SUN + " X-RAY FLUX (5/5)\nPast 6hr\n\nCurrent: " + data.xrayClass + "\n";
    var tail := "\n\n" + XrayHelper(limit) + "\n\nNOAA SWPC " + ClockText(now) + "Z\n\n" + HASHTAGS;
    var middle := lines.0 + "\n\n" + lines.1;
    Framed(head, middle, tail);
    head + middle + tail
  }

  /** The impact depends only on the first character, an empty class counts as 'A',
      and for a measured flux the impact follows the engine's letter. */
  lemma XrayPostImpact(a: string, b: string, flux: real)
    requires a != "N/A" && b != "N/A" && |a| > 0 && |b| > 0 && a[0] == b[0]
    requires flux > 0.0
    ensures XrayPostLines(a) == XrayPostLines(b)
    ensures XrayPostLines("") == XrayPostLines("A")
    ensures XrayPostLines(SpaceWeather.XrayClassText(SpaceWeather.ClassifyXray(flux))).0
      == (if flux >= 0.0001 then RED_CIRCLE + " MAJOR FLARE"
          else if flux >= 0.00001 then YELLOW_CIRCLE + " MEDIUM FLARE"
          else if flux >= 0.000001 then GREEN_CIRCLE + " SMALL FLARE"
          else WHITE_CIRCLE + " QUIET")
  {
    var text := SpaceWeather.XrayClassText(SpaceWeather.ClassifyXray(flux));
    assert text[0] == SpaceWeather.ClassifyXray(flux).letter;
    assert text != "N/A";
  }

  // ---------------------------------------------------------------------------
  // The thread
  // ---------------------------------------------------------------------------

  const DRAP_ALT_TEXT := "D-Region Absorption Prediction map showing HF radio wave absorption"
  const AURORA_ALT_TEXT := "Aurora oval forecast showing auroral activity in northern hemisphere"
  const CHART_ALT_TEXT := "GOES Solar X-Ray Flux chart for past 6 hours"

  /** The five posts in thread order, given their texts: indices and bands as text
      only, then absorption with the D-RAP map, aurora with the oval and X-ray with
      the chart marker. */
  function Thread(t1: string, t2: string, t3: string, t4: string, t5: string): (posts: seq<Post>)
    ensures |posts| == 5
  {
    [ Post(t1, None, ""),
      Post(t2, None, ""),
      Post(t3, Some(DRAP_IMAGE_URL), DRAP_ALT_TEXT),
      Post(t4, Some(AURORA_IMAGE_URL), AURORA_ALT_TEXT),
      Post(t5, Some(CHART_MARKER), CHART_ALT_TEXT) ]
  }

  /** The thread before the length guard, for one data snapshot, limit and clock. */
  function ThreadLayout(data: SpaceWeatherData, limit: int, now: UtcTime): (posts: seq<Post>)
    ensures |posts| == 5
  {
    Thread(SolarIndicesText(data), BandConditionsText(data), AbsorptionText(data, limit, now),
           AuroraText(data, limit), XrayText(data, limit, now))
  }

  /** Each post carries its own text in thread order; the first two posts are text
      only and the last three carry, in order, the D-RAP map, the aurora oval and the
      chart marker, each with its alt text. */
  lemma ThreadSlots(t1: string, t2: string, t3: string, t4: string, t5: string)
    ensures var posts := Thread(t1, t2, t3, t4, t5);
      && posts[0].text == t1 && posts[1].text == t2 && posts[2].text == t3
      && posts[3].text == t4 && posts[4].text == t5
      && posts[0].imageUrl.None? && posts[1].imageUrl.None?
      && posts[2].imageUrl == Some(DRAP_IMAGE_URL) && posts[2].altText == DRAP_ALT_TEXT
      && posts[3].imageUrl == Some(AURORA_IMAGE_URL) && posts[3].altText == AURORA_ALT_TEXT
      && posts[4].imageUrl == Some(CHART_MARKER) && posts[4].altText == CHART_ALT_TEXT
  {
  }

  /** The length guard applied to the five posts in order: the first post over the
      limit raises, otherwise the posts come back as they are. */
  function GuardThread(posts: seq<Post>, limit: int): Result<seq<Post>>
    requires |posts| == 5
  {
    if |posts[0].text| > limit then Err(OverflowMessage(|posts[0].text|, limit))
    else if |posts[1].text| > limit then Err(OverflowMessage(|posts[1].text|, limit))
    else if |posts[2].text| > limit then Err(OverflowMessage(|posts[2].text|, limit))
    else if |posts[3].text| > limit then Err(OverflowMessage(|posts[3].text|, limit))
    else if |posts[4].text| > limit then Err(OverflowMessage(|posts[4].text|, limit))
    else Ok(posts)
  }

  /** The thread succeeds exactly when every post fits, and then holds the posts
      unchanged; a failure reports the first post that does not fit. */
  lemma GuardThreadOutcome(posts: seq<Post>, limit: int)
    requires |posts| == 5
    ensures GuardThread(posts, limit).Ok? <==> forall i :: 0 <= i < 5 ==> |posts[i].text| <= limit
    ensures GuardThread(posts, limit).Ok? ==> GuardThread(posts, limit).value == posts
    ensures GuardThread(posts, limit).Err? ==>
      exists i :: (0 <= i < 5 && |posts[i].text| > limit
                   && GuardThread(posts, limit).error == OverflowMessage(|posts[i].text|, limit)
                   && forall j :: 0 <= j < i ==> |posts[j].text| <= limit)
  {
    if GuardThread(posts, limit).Err? {
      var first := if |posts[0].text| > limit then 0
        else if |posts[1].text| > limit then 1
        else if |posts[2].text| > limit then 2
        else if |posts[3].text| > limit then 3
        else 4;
      assert |posts[first].text| > limit;
      assert GuardThread(posts, limit).error == OverflowMessage(|posts[first].text|, limit);
      assert forall j :: 0 <= j < first ==> |posts[j].text| <= limit;
    }
  }

  /** The guarded appends of format_thread_posts over already formatted texts: each
      post goes through ensure_char_limit before it joins the thread. */
  method AssembleThread(t1: string, t2: string, t3: string, t4: string, t5: string, limit: int)
    returns (result: Result<seq<Post>>)
    ensures result == GuardThread(Thread(t1, t2, t3, t4, t5), limit)
  {
    var posts: seq<Post> := [];
    var post1 := EnsureCharLimit(t1, limit);
    if post1.Err? {
      return Err(post1.error);
    }
    posts := posts + [Post(post1.value, None, "")];

    var post2 := EnsureCharLimit(t2, limit);
    if post2.Err? {
      return Err(post2.error);
    }
    posts := posts + [Post(post2.value, None, "")];

    var post3 := EnsureCharLimit(t3, limit);
    if post3.Err? {
      return Err(post3.error);
    }
    posts := posts + [Post(post3.value, Some(DRAP_IMAGE_URL), DRAP_ALT_TEXT)];

    var post4 := EnsureCharLimit(t4, limit);
    if post4.Err? {
      return Err(post4.error);
    }
    posts := posts + [Post(post4.value, Some(AURORA_IMAGE_URL), AURORA_ALT_TEXT)];

    var post5 := EnsureCharLimit(t5, limit);
    if post5.Err? {
      return Err(post5.error);
    }
    posts := posts + [Post(post5.value, Some(CHART_MARKER), CHART_ALT_TEXT)];

    ThreadSlots(t1, t2, t3, t4, t5);
    assert posts == Thread(t1, t2, t3, t4, t5);
    result := Ok(posts);
  }

  /** format_thread_posts: the platform's limit, the five post texts (the absorption
      and X-ray posts read the clock; both get `now`), then the guarded appends. */
  method FormatThreadPosts(data: SpaceWeatherData, platform: string, now: UtcTime) returns (result: Result<seq<Post>>)
    ensures result == GuardThread(ThreadLayout(data, CharLimit(platform), now), CharLimit(platform))
  {
    var limit := if platform == "bluesky" then 300 else 500;
    var t1 := SolarIndicesText(data);
    var t2 := BandConditionsText(data);
    var t3 := AbsorptionText(data, limit, now);
    var t4 := AuroraText(data, limit);
    var t5 := XrayText(data, limit, now);
    result := AssembleThread(t1, t2, t3, t4, t5, limit);
  }

  // ---------------------------------------------------------------------------
  // Post statistics
  // ---------------------------------------------------------------------------

  datatype PostStat = PostStat(number: nat, length: nat, remaining: int, hasImage: bool)
  datatype PostStats = PostStats(platform: string, limit: nat, count: nat, posts: seq<PostStat>)

  /** The entry get_post_stats records for the post at index `i`. */
  function StatOf(i: nat, post: Post, limit: int): PostStat {
    PostStat(i + 1, |post.text|, limit - |post.text|, post.imageUrl.Some?)
  }

  /** get_post_stats: one entry per post, in order. */
  method GetPostStats(posts: seq<Post>, platform: string) returns (stats: PostStats)
    ensures stats.platform == platform && stats.limit == CharLimit(platform) && stats.count == |posts|
    ensures |stats.posts| == |posts|
    ensures forall i :: 0 <= i < |posts| ==> stats.posts[i] == StatOf(i, posts[i], CharLimit(platform))
  {
    var limit := if platform == "bluesky" then 300 else 500;
    stats := PostStats(platform, limit, |posts|, []);
    var i := 0;
    while i < |posts|
      invariant 0 <= i <= |posts|
      invariant stats.platform == platform && stats.limit == limit && stats.count == |posts|
      invariant |stats.posts| == i
      invariant forall j :: 0 <= j < i ==> stats.posts[j] == StatOf(j, posts[j], limit)
    {
      var text := posts[i].text;
      stats := stats.(posts := stats.posts + [PostStat(i + 1, |text|, limit - |text|, posts[i].imageUrl.Some?)]);
      i := i + 1;
    }
  }

  /** On a thread that passed the guard, every post has room to spare. */
  lemma GuardedStats(posts: seq<Post>, limit: int)
    requires |posts| == 5 && GuardThread(posts, limit).Ok?
    ensures forall i :: 0 <= i < 5 ==> StatOf(i, posts[i], limit).remaining >= 0
  {
    GuardThreadOutcome(posts, limit);
  }
}
