/** The regime tables and constants of the pipeline's configuration
    (`config/settings.py`). Dictionaries keyed by regime name are `map`s;
    the threshold dictionary, whose iteration order matters to the regime
    detector, is a sequence of bands in declaration order. */
module Settings {

  import opened Wrappers

  /** One entry of the Fear & Greed threshold table: the regime name and
      its half-open interval `[lo, hi)`. */
  datatype Band = Band(name: string, lo: real, hi: real)

  const RegimeThresholds: seq<Band> := [
    Band("extreme_fear", 0.0, 25.0),
    Band("fear", 25.0, 45.0),
    Band("neutral", 45.0, 55.0),
    Band("greed", 55.0, 75.0),
    Band("extreme_greed", 75.0, 100.0)
  ]

  const PositionMultipliers: map<string, real> := map[
    "extreme_fear" := 1.5, "fear" := 1.2, "neutral" := 1.0, "greed" := 0.8, "extreme_greed" := 0.5]

  const FilterPercentiles: map<string, int> := map[
    "extreme_fear" := 90, "fear" := 93, "neutral" := 95, "greed" := 97, "extreme_greed" := 99]

  const ExpectedWinRates: map<string, real> := map[
    "extreme_fear" := 0.80, "fear" := 0.70, "neutral" := 0.60, "greed" := 0.62, "extreme_greed" := 0.55]

  const StopLossMultipliers: map<string, real> := map[
    "low_vol" := 1.5, "normal" := 2.5, "high_vol" := 3.0]

  const CacheDuration: int := 900
  const MaxCandidates: nat := 30
  const ExplorationRatio: real := 0.15
  const MinDollarVolume: real := 5000000.0
  const MinPrice: real := 5.0

  /** A regime name every regime-keyed table has an entry for. */
  predicate KnownRegime(name: string)
  {
    name in PositionMultipliers && name in FilterPercentiles && name in ExpectedWinRates
  }

  /** The first band, in table order, whose interval contains `v`. */
  function FirstBand(bands: seq<Band>, v: real): (r: Option<string>)
    ensures r.Some? ==> exists i :: 0 <= i < |bands| && bands[i].name == r.value && bands[i].lo <= v < bands[i].hi
    ensures r.None? ==> forall i :: 0 <= i < |bands| ==> !(bands[i].lo <= v < bands[i].hi)
  {
    if |bands| == 0 then None
    else if bands[0].lo <= v < bands[0].hi then Some(bands[0].name)
    else
      var r := FirstBand(bands[1..], v);
      assert forall i :: 1 <= i < |bands| ==> bands[i] == bands[1..][i - 1];
      r
  }

  /** The threshold table splits `[0, 100)` into adjacent bands: each band
      starts where the previous one ended, and every band name is a key of
      every regime-keyed table. */
  lemma ThresholdTableWellFormed()
    ensures RegimeThresholds[0].lo == 0.0 && RegimeThresholds[|RegimeThresholds| - 1].hi == 100.0
    ensures forall i :: 0 <= i < |RegimeThresholds| - 1 ==> RegimeThresholds[i].hi == RegimeThresholds[i + 1].lo
    ensures forall i :: 0 <= i < |RegimeThresholds| ==> RegimeThresholds[i].lo < RegimeThresholds[i].hi
    ensures forall i :: 0 <= i < |RegimeThresholds| ==> KnownRegime(RegimeThresholds[i].name)
  {
  }

  /** The more fearful the regime, the larger the position multiplier and
      the lower the filter percentile (more stocks kept). */
  lemma TablesOrderedByFear()
    ensures forall i, j :: 0 <= i < j < |RegimeThresholds| ==>
      PositionMultipliers[RegimeThresholds[i].name] > PositionMultipliers[RegimeThresholds[j].name]
    ensures forall i, j :: 0 <= i < j < |RegimeThresholds| ==>
      FilterPercentiles[RegimeThresholds[i].name] < FilterPercentiles[RegimeThresholds[j].name]
  {
  }

  /** Every value in `[0, 100)` lies in some band of the threshold table. */
  lemma ThresholdTableCovers(v: real)
    ensures 0.0 <= v < 100.0 ==> exists i :: 0 <= i < |RegimeThresholds| && RegimeThresholds[i].lo <= v < RegimeThresholds[i].hi
  {
    var t := RegimeThresholds;
    if v < 0.0 || v >= 100.0 { }
    else if v < 25.0 { assert t[0].lo <= v < t[0].hi; }
    else if v < 45.0 { assert t[1].lo <= v < t[1].hi; }
    else if v < 55.0 { assert t[2].lo <= v < t[2].hi; }
    else if v < 75.0 { assert t[3].lo <= v < t[3].hi; }
    else { assert t[4].lo <= v < t[4].hi; }
  }
}
