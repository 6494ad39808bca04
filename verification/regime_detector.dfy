/** Regime interpretation (`src/regime/detector.py`): the Fear & Greed
    index and the VIX level are turned into a trading regime, looked up in
    the configuration tables. Fetching the index and the VIX is left out;
    both values are parameters. */
module RegimeDetector {

  import opened Wrappers
  import opened Settings
  import Text

  /** A Fear & Greed reading: the 0-100 value and its label. */
  datatype FearGreed = FearGreed(value: real, text: string)

  /** The regime dictionary `_interpret_regime` returns. */
  datatype RegimeInfo = RegimeInfo(
    regime: string,
    positionMultiplier: real,
    filterPercentile: int,
    expectedWinRate: real,
    strategy: string,
    volatilityRegime: string)

  /** The reading substituted when the index cannot be fetched, derived
      from the VIX alone. */
  function VixFallback(vix: real): (r: FearGreed)
    ensures 0.0 <= r.value < 100.0
    ensures r == FearGreed(65.0, "Greed") <==> vix < 15.0
    ensures r == FearGreed(50.0, "Neutral") <==> 15.0 <= vix < 20.0
    ensures r == FearGreed(35.0, "Fear") <==> 20.0 <= vix < 30.0
    ensures r == FearGreed(15.0, "Extreme Fear") <==> vix >= 30.0
  {
    if vix < 15.0 then FearGreed(65.0, "Greed")
    else if vix < 20.0 then FearGreed(50.0, "Neutral")
    else if vix < 30.0 then FearGreed(35.0, "Fear")
    else FearGreed(15.0, "Extreme Fear")
  }

  /** A higher VIX never yields a greedier fallback reading. */
  lemma VixFallbackAntitone(v1: real, v2: real)
    requires v1 <= v2
    ensures VixFallback(v1).value >= VixFallback(v2).value
  {
  }

  /** The regime name of a Fear & Greed value: the first threshold band that
      contains it, or "neutral" when none does. */
  function RegimeName(v: real): (r: string)
    ensures KnownRegime(r)
    ensures 0.0 <= v < 100.0 ==>
      exists i :: 0 <= i < |RegimeThresholds| && RegimeThresholds[i].name == r && RegimeThresholds[i].lo <= v < RegimeThresholds[i].hi
    ensures !(0.0 <= v < 100.0) ==> r == "neutral"
  {
    ThresholdTableWellFormed();
    ThresholdTableCovers(v);
    var b := FirstBand(RegimeThresholds, v);
    if b.Some? then b.value else "neutral"
  }

  /** The fallback reading's label, written the way regime names are
      (lower case, words joined by `_`), is the regime its value falls in. */
  lemma VixFallbackLabelMatchesRegime(vix: real)
    ensures Text.Lower(Text.ReplaceChar(VixFallback(vix).text, ' ', '_')) == RegimeName(VixFallback(vix).value)
  {
    var r := VixFallback(vix);
    var name := Text.Lower(Text.ReplaceChar(r.text, ' ', '_'));
    if vix < 15.0 {
      assert name == "greed";
    } else if vix < 20.0 {
      assert name == "neutral";
    } else if vix < 30.0 {
      assert name == "fear";
    } else {
      assert name == "extreme_fear";
    }
  }

  /** `_interpret_regime`: the regime of the Fear & Greed value, its table
      entries, the strategy family, and the VIX override. */
  function Interpret(fearGreed: real, vix: real): (r: RegimeInfo)
    ensures r.regime == RegimeName(fearGreed)
    ensures r.positionMultiplier == PositionMultipliers[r.regime]
    ensures r.filterPercentile == FilterPercentiles[r.regime]
    ensures vix > 30.0 ==> r.strategy == "mean_reversion" && r.volatilityRegime == "high"
    ensures vix > 30.0 ==> r.expectedWinRate >= 0.80 && r.expectedWinRate >= ExpectedWinRates[r.regime]
    ensures vix > 30.0 ==> r.expectedWinRate == 0.80 || r.expectedWinRate == ExpectedWinRates[r.regime]
    ensures vix <= 30.0 ==> r.expectedWinRate == ExpectedWinRates[r.regime]
    ensures r.strategy == "mean_reversion" <==> vix > 30.0 || r.regime in {"extreme_fear", "fear"}
    ensures r.strategy == "momentum" <==> vix <= 30.0 && r.regime in {"greed", "extreme_greed"}
    ensures r.strategy == "mixed" <==> vix <= 30.0 && r.regime !in {"extreme_fear", "fear", "greed", "extreme_greed"}
    ensures r.volatilityRegime == (if vix > 30.0 then "high" else if vix < 15.0 then "low" else "normal")
  {
    var name := RegimeName(fearGreed);
    var base := ExpectedWinRates[name];
    var strategy :=
      if name in ["extreme_fear", "fear"] then "mean_reversion"
      else if name in ["greed", "extreme_greed"] then "momentum"
      else "mixed";
    if vix > 30.0 then
      RegimeInfo(name, PositionMultipliers[name], FilterPercentiles[name],
                 if 0.80 >= base then 0.80 else base, "mean_reversion", "high")
    else
      RegimeInfo(name, PositionMultipliers[name], FilterPercentiles[name], base, strategy,
                 if vix < 15.0 then "low" else "normal")
  }
}
