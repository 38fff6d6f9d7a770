/** The data side of the GOES X-ray flux chart: which NOAA file a period names,
    how the JSON entries are grouped per timestamp into the short (0.05-0.4 nm) and
    long (0.1-0.8 nm) channels, and the sorted, aligned series the chart draws.
    Drawing and PNG encoding are not modelled. */
module ChartRenderer {
  import opened Common
  import opened Text

  // ---------------------------------------------------------------------------
  // Period lookup
  // ---------------------------------------------------------------------------

  const GOES_JSON_PREFIX := "https://services.swpc.noaa.gov/json/goes/primary/xrays-"

  /** The period map lookup, keyed by the lower-cased period, with "6-hour" for
      any period the map does not know. */
  function PeriodFile(period: string): (file: string)
    ensures file == "6-hour" || file == "1-day" || file == "3-day" || file == "7-day"
  {
    var key := Lower(period);
    if key == "6h" then "6-hour"
    else if key == "1d" then "1-day"
    else if key == "3d" then "3-day"
    else if key == "7d" then "7-day"
    else "6-hour"
  }

  /** The period key the map holds for a file name. */
  function PeriodKey(file: string): string {
    if file == "1-day" then "1d"
    else if file == "3-day" then "3d"
    else if file == "7-day" then "7d"
    else "6h"
  }

  /** The lookup ignores case: a period and its lower-cased form name the same file. */
  lemma PeriodFileIgnoresCase(period: string)
    ensures PeriodFile(Lower(period)) == PeriodFile(period)
  {
    LowerIdempotent(period);
  }

  /** Each of the four files is named by its own key, and only a known key (in any
      case) names a file other than the default. */
  lemma PeriodFileKeys(period: string)
    ensures forall file :: file in {"6-hour", "1-day", "3-day", "7-day"} ==> PeriodFile(PeriodKey(file)) == file
    ensures PeriodFile(period) != "6-hour" ==> Lower(period) == PeriodKey(PeriodFile(period))
    ensures Lower(period) !in {"1d", "3d", "7d"} ==> PeriodFile(period) == "6-hour"
  {
    assert Lower("6h") == "6h";
    assert Lower("1d") == "1d";
    assert Lower("3d") == "3d";
    assert Lower("7d") == "7d";
  }

  /** Upper-case periods name the same files as lower-case ones. */
  lemma PeriodFileUpperCase()
    ensures PeriodFile("1D") == "1-day" && PeriodFile("7D") == "7-day" && PeriodFile("12h") == "6-hour"
  {
    assert Lower("1D") == "1d";
    assert Lower("7D") == "7d";
    assert Lower("12h") == "12h";
  }

  /** The JSON file the chart fetches for a period. */
  function XrayJsonUrl(period: string): (url: string)
    ensures StartsWith(url, GOES_JSON_PREFIX)
    ensures Contains(url, PeriodFile(period))
  {
    ContainsMiddle(GOES_JSON_PREFIX, PeriodFile(period), ".json");
    GOES_JSON_PREFIX + PeriodFile(period) + ".json"
  }

  // ---------------------------------------------------------------------------
  // Bucketing the entries
  // ---------------------------------------------------------------------------

  /** One JSON entry after parsing. `time` is None when its time tag is missing or
      not an ISO timestamp, and `flux` is None when its flux is a string that is not
      a number: each raises ValueError, which skips the entry. A missing flux reads
      as 0 and a missing energy as "". The three flags mark a JSON null in that
      field, whose operation raises AttributeError or TypeError instead (see
      Escapes). Times are instants in seconds. */
  datatype XrayEntry = XrayEntry(time: Option<int>, flux: Option<real>, energy: string,
                                 nullTime: bool, nullFlux: bool, nullEnergy: bool)

  /** The two channels recorded for one timestamp. */
  datatype Reading = Reading(short: Option<real>, long: Option<real>)

  const SHORT_BAND := "0.05-0.4"
  const LONG_BAND := "0.1-0.8"

  /** The entry raises an exception the per-entry handler (ValueError, KeyError)
      does not catch, in the order the loop body evaluates: a null time tag has no
      .replace (AttributeError); once the time parses, float(None) raises TypeError;
      once the flux is positive, `in` on a null energy raises TypeError. */
  predicate Escapes(e: XrayEntry) {
    e.nullTime || (e.time.Some? && (e.nullFlux || (e.flux.Some? && e.flux.value > 0.0 && e.nullEnergy)))
  }

  /** Some entry raises past the per-entry handler. */
  predicate AnyEscapes(entries: seq<XrayEntry>) {
    exists i :: 0 <= i < |entries| && Escapes(entries[i])
  }

  /** An entry that survives parsing and carries a positive flux. */
  predicate Usable(e: XrayEntry) {
    !e.nullTime && e.time.Some? && !e.nullFlux && e.flux.Some? && e.flux.value > 0.0 && !e.nullEnergy
  }

  /** The effect of one entry on the dictionary: unusable entries change nothing; a
      usable one creates its timestamp with both channels empty if needed, then sets
      the short channel when its energy names 0.05-0.4, else the long channel when
      it names 0.1-0.8. */
  function Record(buckets: map<int, Reading>, e: XrayEntry): map<int, Reading> {
    if !Usable(e) then buckets
    else
      var t := e.time.value;
      var r := if t in buckets then buckets[t] else Reading(None, None);
      if Contains(e.energy, SHORT_BAND) then buckets[t := r.(short := e.flux)]
      else if Contains(e.energy, LONG_BAND) then buckets[t := r.(long := e.flux)]
      else buckets[t := r]
  }

  /** The dictionary after the entries, in order. */
  function Bucket(entries: seq<XrayEntry>): map<int, Reading>
    decreases |entries|
  {
    if |entries| == 0 then map[]
    else Record(Bucket(entries[..|entries| - 1]), entries[|entries| - 1])
  }

  /** One entry touches at most its own timestamp: an unusable entry changes
      nothing, a usable one adds its timestamp, routes its flux to the channel its
      energy names and leaves the other channel and every other timestamp alone. */
  lemma RecordEffect(buckets: map<int, Reading>, e: XrayEntry)
    ensures !Usable(e) ==> Record(buckets, e) == buckets
    ensures Usable(e) ==> Record(buckets, e).Keys == buckets.Keys + {e.time.value}
    ensures forall t :: t in buckets && (!Usable(e) || t != e.time.value) ==> Record(buckets, e)[t] == buckets[t]
    ensures Usable(e) ==>
      var t := e.time.value;
      var before := if t in buckets then buckets[t] else Reading(None, None);
      var after := Record(buckets, e)[t];
      if Contains(e.energy, SHORT_BAND) then after.short == e.flux && after.long == before.long
      else if Contains(e.energy, LONG_BAND) then after.long == e.flux && after.short == before.short
      else after == before
  {
  }

  /** The timestamps of the usable entries. */
  function UsableTimes(entries: seq<XrayEntry>): set<int> {
    set i | 0 <= i < |entries| && Usable(entries[i]) :: entries[i].time.value
  }

  /** The dictionary holds exactly the timestamps of the usable entries: a
      non-positive or unparsable entry never creates a key. */
  lemma {:induction false} BucketKeys(entries: seq<XrayEntry>)
    ensures Bucket(entries).Keys == UsableTimes(entries)
    decreases |entries|
  {
    if |entries| > 0 {
      var n := |entries| - 1;
      BucketKeys(entries[..n]);
      RecordEffect(Bucket(entries[..n]), entries[n]);
      assert forall i :: 0 <= i < n ==> entries[..n][i] == entries[i];
      if Usable(entries[n]) {
        assert UsableTimes(entries) == UsableTimes(entries[..n]) + {entries[n].time.value};
      } else {
        assert UsableTimes(entries) == UsableTimes(entries[..n]);
      }
    }
  }

  /** Every flux recorded in the dictionary is positive. */
  lemma {:induction false} BucketPositive(entries: seq<XrayEntry>)
    ensures forall t :: t in Bucket(entries) ==>
              (Bucket(entries)[t].short.Some? ==> Bucket(entries)[t].short.value > 0.0)
              && (Bucket(entries)[t].long.Some? ==> Bucket(entries)[t].long.value > 0.0)
    decreases |entries|
  {
    if |entries| > 0 {
      BucketPositive(entries[..|entries| - 1]);
    }
  }

  /** The last usable entry for a timestamp and channel wins: if entry i sets the
      short channel of its timestamp and no later entry sets that channel of the
      same timestamp, the dictionary holds entry i's flux. */
  lemma {:induction false} LastShortWins(entries: seq<XrayEntry>, i: nat)
    requires i < |entries| && Usable(entries[i]) && Contains(entries[i].energy, SHORT_BAND)
    requires forall j :: i < j < |entries| && Usable(entries[j]) && entries[j].time == entries[i].time ==>
               !Contains(entries[j].energy, SHORT_BAND)
    ensures entries[i].time.value in Bucket(entries)
    ensures Bucket(entries)[entries[i].time.value].short == entries[i].flux
    decreases |entries|
  {
    var n := |entries| - 1;
    if i < n {
      LastShortWins(entries[..n], i);
    }
    RecordEffect(Bucket(entries[..n]), entries[n]);
  }

  /** The dictionary's keys in insertion order: each usable entry's timestamp the
      first time it appears. */
  function KeyOrder(entries: seq<XrayEntry>): seq<int>
    decreases |entries|
  {
    if |entries| == 0 then []
    else
      var before := KeyOrder(entries[..|entries| - 1]);
      var e := entries[|entries| - 1];
      if Usable(e) && e.time.value !in before then before + [e.time.value] else before
  }

  predicate Distinct(ts: seq<int>) {
    forall i, j :: 0 <= i < j < |ts| ==> ts[i] != ts[j]
  }

  /** The insertion order lists every key of the dictionary exactly once. */
  lemma {:induction false} KeyOrderListsKeys(entries: seq<XrayEntry>)
    ensures Distinct(KeyOrder(entries))
    ensures forall t :: t in KeyOrder(entries) <==> t in Bucket(entries)
    decreases |entries|
  {
    if |entries| > 0 {
      var n := |entries| - 1;
      KeyOrderListsKeys(entries[..n]);
      RecordEffect(Bucket(entries[..n]), entries[n]);
    }
  }

  /** The dict-building loop of plot_xray_flux; `keys` is the dictionary's key list.
      `escaped` reports an entry that raised past the per-entry handler, which ends
      the loop; otherwise the loop ran over every entry. */
  method BucketEntries(entries: seq<XrayEntry>) returns (escaped: bool, keys: seq<int>, buckets: map<int, Reading>)
    ensures escaped <==> AnyEscapes(entries)
    ensures !escaped ==> buckets == Bucket(entries) && keys == KeyOrder(entries)
  {
    buckets := map[];
    keys := [];
    var i := 0;
    while i < |entries|
      invariant 0 <= i <= |entries|
      invariant forall j :: 0 <= j < i ==> !Escapes(entries[j])
      invariant buckets == Bucket(entries[..i])
      invariant keys == KeyOrder(entries[..i])
    {
      KeyOrderListsKeys(entries[..i]);
      var e := entries[i];
      if Escapes(e) {
        return true, keys, buckets;
      }
      if e.time.Some? && e.flux.Some? {
        var t := e.time.value;
        var flux := e.flux.value;
        if flux > 0.0 {
          if t !in buckets {
            buckets := buckets[t := Reading(None, None)];
            keys := keys + [t];
          }
          if Contains(e.energy, SHORT_BAND) {
            buckets := buckets[t := buckets[t].(short := Some(flux))];
          } else if Contains(e.energy, LONG_BAND) {
            buckets := buckets[t := buckets[t].(long := Some(flux))];
          }
        }
      }
      assert entries[..i + 1][..i] == entries[..i];
      i := i + 1;
    }
    assert entries[..i] == entries;
    escaped := false;
  }

  // ---------------------------------------------------------------------------
  // Sorted, aligned series
  // ---------------------------------------------------------------------------

  predicate StrictlyAscending(ts: seq<int>) {
    forall i, j :: 0 <= i < j < |ts| ==> ts[i] < ts[j]
  }

  /** sorted() over the dictionary's keys, as an insertion sort: the same
      timestamps in strictly ascending order. */
  method SortedTimestamps(keys: seq<int>) returns (ts: seq<int>)
    requires Distinct(keys)
    ensures StrictlyAscending(ts)
    ensures |ts| == |keys|
    ensures forall t :: t in keys <==> t in ts
    ensures forall m :: 0 <= m < |ts| ==> ts[m] in keys
  {
    ts := [];
    var i := 0;
    while i < |keys|
      invariant 0 <= i <= |keys|
      invariant StrictlyAscending(ts)
      invariant |ts| == i
      invariant forall t :: t in keys[..i] <==> t in ts
    {
      var k := keys[i];
      assert k !in keys[..i];
      var j := 0;
      while j < |ts| && ts[j] < k
        invariant 0 <= j <= |ts|
        invariant forall m :: 0 <= m < j ==> ts[m] < k
      {
        j := j + 1;
      }
      assert forall m :: j <= m < |ts| ==> k < ts[m];
      ts := ts[..j] + [k] + ts[j..];
      assert keys[..i + 1] == keys[..i] + [k];
      i := i + 1;
    }
    assert keys[..i] == keys;
  }

  /** The series the chart draws: the period's file name, the timestamps, and the
      short and long flux per timestamp (None where a channel was never set), and
      the index of the timestamp the class labels are written at. */
  datatype Series = Series(periodFile: string, timestamps: seq<int>, fluxShort: seq<Option<real>>,
                           fluxLong: seq<Option<real>>, labelIndex: nat)

  /** What the GOES request gives: an HTTP status with the parsed entries, or an
      exception before any status (network error, timeout, malformed JSON). */
  datatype GoesResponse = Response(status: int, entries: seq<XrayEntry>) | RequestFailed

  /** The data steps of plot_xray_flux: None on a non-200 status, a failed request,
      an empty payload, an entry that raises past the per-entry handler (the outer
      handler then returns None), or a payload without a usable entry; otherwise the
      series sorted by timestamp with both channels aligned to it. */
  method XraySeries(period: string, response: GoesResponse) returns (series: Option<Series>)
    ensures series.Some? <==> response.Response? && response.status == 200 && !AnyEscapes(response.entries)
                              && UsableTimes(response.entries) != {}
    ensures series.Some? ==>
      var s := series.value;
      var buckets := Bucket(response.entries);
      && s.periodFile == PeriodFile(period)
      && StrictlyAscending(s.timestamps)
      && (forall t :: t in buckets <==> t in s.timestamps)
      && |s.fluxShort| == |s.timestamps| && |s.fluxLong| == |s.timestamps|
      && (forall i :: 0 <= i < |s.timestamps| ==>
            s.fluxShort[i] == buckets[s.timestamps[i]].short && s.fluxLong[i] == buckets[s.timestamps[i]].long)
      && s.labelIndex == |s.timestamps| / 20 && s.labelIndex < |s.timestamps|
  {
    var periodFile := PeriodFile(period);
    if response.RequestFailed? || response.status != 200 {
      return None;
    }
    var entries := response.entries;
    if |entries| == 0 {
      assert UsableTimes(entries) == {};
      return None;
    }
    var escaped, keys, buckets := BucketEntries(entries);
    if escaped {
      return None;
    }
    BucketKeys(entries);
    KeyOrderListsKeys(entries);
    assert forall t :: t in keys ==> t in buckets;
    var timestamps := SortedTimestamps(keys);
    forall m | 0 <= m < |timestamps|
      ensures timestamps[m] in buckets
    {
      assert timestamps[m] in keys;
    }
    var fluxShort := [];
    var fluxLong := [];
    var i := 0;
    while i < |timestamps|
      invariant 0 <= i <= |timestamps|
      invariant |fluxShort| == i && |fluxLong| == i
      invariant forall m :: 0 <= m < |timestamps| ==> timestamps[m] in buckets
      invariant forall j :: 0 <= j < i ==>
                  fluxShort[j] == buckets[timestamps[j]].short && fluxLong[j] == buckets[timestamps[j]].long
    {
      fluxShort := fluxShort + [buckets[timestamps[i]].short];
      fluxLong := fluxLong + [buckets[timestamps[i]].long];
      i := i + 1;
    }
    if |timestamps| == 0 {
      assert forall t :: t in buckets ==> t in timestamps;
      assert UsableTimes(entries) == {};
      return None;
    }
    assert timestamps[0] in UsableTimes(entries);
    series := Some(Series(periodFile, timestamps, fluxShort, fluxLong, |timestamps| / 20));
  }
}
