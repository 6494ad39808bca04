/** The pattern classifier (`src/patterns/classifier.py`): a deterministic
    map from a candidate's technical metrics and the market regime to a
    four-part pattern identifier `strategy_regime_volume_technical`, plus a
    classification confidence. The classification thresholds come from the
    configuration and are parameters here. */
module PatternClassifier {

  import opened Wrappers
  import opened Text
  import PatternStore

  datatype RsiThresholds = RsiThresholds(oversold: real, overbought: real)
  datatype VolumeThresholds = VolumeThresholds(low: real, high: real, explosive: real)
  datatype FearGreedThresholds = FearGreedThresholds(extremeFear: real, fear: real, neutral: real, greed: real)
  datatype Thresholds = Thresholds(rsi: RsiThresholds, volume: VolumeThresholds, fearGreed: FearGreedThresholds)

  /** The configured cut points are ascending. */
  predicate Ordered(th: Thresholds)
  {
    && th.rsi.oversold <= th.rsi.overbought
    && th.volume.low <= th.volume.high <= th.volume.explosive
    && th.fearGreed.extremeFear <= th.fearGreed.fear <= th.fearGreed.neutral <= th.fearGreed.greed
  }

  /** A candidate's metrics; a missing key is `None`. */
  datatype Metrics = Metrics(rsi: Option<real>, volumeRatio: Option<real>, priceVsSma20: Option<real>, rsiChange: Option<real>)

  /** The `regime` entry of the regime data: a text, or some value without
      a `lower` method. */
  datatype RegimeField = RegimeText(text: string) | NotText

  datatype RegimeData = RegimeData(regime: Option<RegimeField>, fearGreedValue: Option<real>)

  // Defaults for missing metrics.
  function Rsi(m: Metrics): real { m.rsi.GetOr(50.0) }
  function VolumeRatio(m: Metrics): real { m.volumeRatio.GetOr(1.0) }
  function PriceVsSma20(m: Metrics): real { m.priceVsSma20.GetOr(1.0) }
  function RsiChange(m: Metrics): real { m.rsiChange.GetOr(0.0) }

  datatype Strategy = MeanReversion | Momentum | Breakout | Bounce
  datatype Regime = ExtremeFear | Fear | NeutralRegime | Greed | ExtremeGreed
  datatype Volume = LowVolume | NormalVolume | HighVolume | ExplosiveVolume
  datatype Setup = Oversold | NeutralSetup | Overbought

  /** The four components of one classification. */
  datatype Class = Class(strategy: Strategy, regime: Regime, volume: Volume, setup: Setup)

  // ------------------------------------------------------------------
  // Component names and the pattern identifier
  // ------------------------------------------------------------------

  /** The `_`-separated words of each component's name. */
  function StrategyWords(s: Strategy): (r: seq<string>)
    ensures 1 <= |r| <= 2
  {
    match s
    case MeanReversion => ["mean", "reversion"]
    case Momentum => ["momentum"]
    case Breakout => ["breakout"]
    case Bounce => ["bounce"]
  }

  function RegimeWords(r: Regime): (w: seq<string>)
    ensures 1 <= |w| <= 2
  {
    match r
    case ExtremeFear => ["extreme", "fear"]
    case Fear => ["fear"]
    case NeutralRegime => ["neutral"]
    case Greed => ["greed"]
    case ExtremeGreed => ["extreme", "greed"]
  }

  function VolumeName(v: Volume): string
  {
    match v
    case LowVolume => "low"
    case NormalVolume => "normal"
    case HighVolume => "high"
    case ExplosiveVolume => "explosive"
  }

  function SetupName(t: Setup): string
  {
    match t
    case Oversold => "oversold"
    case NeutralSetup => "neutral"
    case Overbought => "overbought"
  }

  function StrategyName(s: Strategy): string { Join(StrategyWords(s), "_") }

  function RegimeName(r: Regime): string { Join(RegimeWords(r), "_") }

  /** The components record stored with the pattern. */
  function ComponentsOf(c: Class): PatternStore.Components
  {
    PatternStore.Components(StrategyName(c.strategy), RegimeName(c.regime), VolumeName(c.volume), SetupName(c.setup))
  }

  /** `f"{strategy}_{regime}_{volume}_{technical}"` */
  function PatternId(c: Class): (id: string)
    ensures id == Join(Words(c), "_")
  {
    IdIsJoinOfWords(c);
    StrategyName(c.strategy) + "_" + RegimeName(c.regime) + "_" + VolumeName(c.volume) + "_" + SetupName(c.setup)
  }

  /** Every word of the identifier, in order. */
  function Words(c: Class): (w: seq<string>)
    ensures forall i :: 0 <= i < |w| ==> '_' !in w[i]
  {
    StrategyWords(c.strategy) + RegimeWords(c.regime) + [VolumeName(c.volume), SetupName(c.setup)]
  }

  lemma IdIsJoinOfWords(c: Class)
    ensures StrategyName(c.strategy) + "_" + RegimeName(c.regime) + "_" + VolumeName(c.volume) + "_" + SetupName(c.setup)
         == Join(Words(c), "_")
  {
    JoinFourParts(StrategyWords(c.strategy), RegimeWords(c.regime), VolumeName(c.volume), SetupName(c.setup));
  }

  /** Joining the strategy words, the regime words and the two last names
      with underscores, piece by piece. */
  lemma JoinFourParts(s: seq<string>, r: seq<string>, v: string, t: string)
    requires |s| >= 1 && |r| >= 1
    ensures Join(s, "_") + "_" + Join(r, "_") + "_" + v + "_" + t == Join(s + r + [v, t], "_")
  {
    var tail := [v, t];
    assert Join(tail, "_") == v + "_" + t by {
      assert tail[1..] == [t];
    }
    JoinConcat(r, tail, "_");
    JoinConcat(s, r + tail, "_");
    assert s + r + [v, t] == s + (r + tail);
    Regroup(Join(s, "_"), Join(r, "_"), v, t);
  }

  lemma Regroup(a: string, b: string, v: string, t: string)
    ensures a + "_" + b + "_" + v + "_" + t == a + "_" + (b + "_" + (v + "_" + t))
  {
  }

  // Decoding, word by word.

  function DecodeStrategy(ws: seq<string>): Option<(Strategy, nat)>
  {
    if |ws| >= 2 && ws[0] == "mean" && ws[1] == "reversion" then Some((MeanReversion, 2))
    else if |ws| >= 1 && ws[0] == "momentum" then Some((Momentum, 1))
    else if |ws| >= 1 && ws[0] == "breakout" then Some((Breakout, 1))
    else if |ws| >= 1 && ws[0] == "bounce" then Some((Bounce, 1))
    else None
  }

  function DecodeRegime(ws: seq<string>): Option<(Regime, nat)>
  {
    if |ws| >= 2 && ws[0] == "extreme" && ws[1] == "fear" then Some((ExtremeFear, 2))
    else if |ws| >= 2 && ws[0] == "extreme" && ws[1] == "greed" then Some((ExtremeGreed, 2))
    else if |ws| >= 1 && ws[0] == "fear" then Some((Fear, 1))
    else if |ws| >= 1 && ws[0] == "neutral" then Some((NeutralRegime, 1))
    else if |ws| >= 1 && ws[0] == "greed" then Some((Greed, 1))
    else None
  }

  function DecodeVolume(w: string): Option<Volume>
  {
    if w == "low" then Some(LowVolume)
    else if w == "normal" then Some(NormalVolume)
    else if w == "high" then Some(HighVolume)
    else if w == "explosive" then Some(ExplosiveVolume)
    else None
  }

  function DecodeSetup(w: string): Option<Setup>
  {
    if w == "oversold" then Some(Oversold)
    else if w == "neutral" then Some(NeutralSetup)
    else if w == "overbought" then Some(Overbought)
    else None
  }

  function DecodeWords(ws: seq<string>): Option<Class>
  {
    match DecodeStrategy(ws)
    case None => None
    case Some((s, k)) =>
      if k > |ws| then None
      else
        match DecodeRegime(ws[k..])
        case None => None
        case Some((r, j)) =>
          if k + j + 2 != |ws| then None
          else
            var v := DecodeVolume(ws[k + j]);
            var t := DecodeSetup(ws[k + j + 1]);
            if v.None? || t.None? then None
            else Some(Class(s, r, v.value, t.value))
  }

  /** Reads the components back from a pattern identifier. */
  function Decode(id: string): Option<Class>
  {
    DecodeWords(Split(id, '_'))
  }

  lemma DecodeStrategyWords(s: Strategy, rest: seq<string>)
    ensures DecodeStrategy(StrategyWords(s) + rest) == Some((s, |StrategyWords(s)|))
  {
  }

  lemma DecodeRegimeWords(r: Regime, rest: seq<string>)
    ensures DecodeRegime(RegimeWords(r) + rest) == Some((r, |RegimeWords(r)|))
  {
  }

  lemma DecodeVolumeName(v: Volume)
    ensures DecodeVolume(VolumeName(v)) == Some(v)
  {
  }

  lemma DecodeSetupName(t: Setup)
    ensures DecodeSetup(SetupName(t)) == Some(t)
  {
  }

  /** The identifier determines the classification: decoding it gives back
      the four components it was built from. */
  lemma DecodePatternId(c: Class)
    ensures Decode(PatternId(c)) == Some(c)
  {
    var ws := Words(c);
    JoinSplit(ws, '_');
    var sw := StrategyWords(c.strategy);
    var rw := RegimeWords(c.regime);
    var tail := [VolumeName(c.volume), SetupName(c.setup)];
    assert ws == sw + (rw + tail);
    DecodeStrategyWords(c.strategy, rw + tail);
    assert ws[|sw|..] == rw + tail;
    DecodeRegimeWords(c.regime, tail);
    assert ws[|sw| + |rw|] == VolumeName(c.volume);
    assert ws[|sw| + |rw| + 1] == SetupName(c.setup);
    DecodeVolumeName(c.volume);
    DecodeSetupName(c.setup);
  }

  /** Distinct classifications have distinct identifiers. */
  lemma PatternIdInjective(c1: Class, c2: Class)
    ensures PatternId(c1) == PatternId(c2) ==> c1 == c2
  {
    DecodePatternId(c1);
    DecodePatternId(c2);
  }

  // ------------------------------------------------------------------
  // The four component classifiers
  // ------------------------------------------------------------------

  /** The four setups `_classify_strategy` tests, in its order. */
  predicate OversoldBelowAverage(th: Thresholds, m: Metrics)
  {
    Rsi(m) < th.rsi.oversold && PriceVsSma20(m) < 0.98
  }

  predicate OverboughtOnVolume(th: Thresholds, m: Metrics)
  {
    Rsi(m) > th.rsi.overbought && VolumeRatio(m) > th.volume.high
  }

  predicate CrossingOnVolume(th: Thresholds, m: Metrics)
  {
    0.99 < PriceVsSma20(m) < 1.02 && VolumeRatio(m) > th.volume.high
  }

  predicate Recovering(m: Metrics)
  {
    30.0 < Rsi(m) < 50.0 && RsiChange(m) > 5.0
  }

  /** `_classify_strategy`: the first setup that holds decides; mean
      reversion is also the default. */
  function ClassifyStrategy(th: Thresholds, m: Metrics): (s: Strategy)
    ensures s == Momentum <==> !OversoldBelowAverage(th, m) && OverboughtOnVolume(th, m)
    ensures s == Breakout <==> !OversoldBelowAverage(th, m) && !OverboughtOnVolume(th, m) && CrossingOnVolume(th, m)
    ensures s == Bounce <==>
      !OversoldBelowAverage(th, m) && !OverboughtOnVolume(th, m) && !CrossingOnVolume(th, m) && Recovering(m)
    ensures s == MeanReversion <==>
      OversoldBelowAverage(th, m) || (!OverboughtOnVolume(th, m) && !CrossingOnVolume(th, m) && !Recovering(m))
  {
    var rsi := Rsi(m);
    var vol := VolumeRatio(m);
    var price := PriceVsSma20(m);
    if rsi < th.rsi.oversold && price < 0.98 then MeanReversion
    else if rsi > th.rsi.overbought && vol > th.volume.high then Momentum
    else if 0.99 < price < 1.02 && vol > th.volume.high then Breakout
    else if 30.0 < rsi < 50.0 && RsiChange(m) > 5.0 then Bounce
    else MeanReversion
  }

  /** `_classify_regime` for a regime text: matched on the lower-cased text. */
  function RegimeFromText(text: string): (r: Regime)
    ensures r == ExtremeFear <==> Contains(Lower(text), "extreme fear")
    ensures r == Fear <==> !Contains(Lower(text), "extreme fear") && Contains(Lower(text), "fear")
    ensures r == ExtremeGreed <==> !Contains(Lower(text), "fear") && Contains(Lower(text), "greed") && Contains(Lower(text), "extreme")
    ensures r == Greed <==> !Contains(Lower(text), "fear") && Contains(Lower(text), "greed") && !Contains(Lower(text), "extreme")
  {
    var t := Lower(text);
    if Contains(t, "extreme fear") then
      ExtremeFearMentionsFear(t);
      ExtremeFear
    else if Contains(t, "fear") then Fear
    else if Contains(t, "greed") && Contains(t, "extreme") then ExtremeGreed
    else if Contains(t, "greed") then Greed
    else NeutralRegime
  }

  lemma ExtremeFearMentionsFear(t: string)
    requires Contains(t, "extreme fear")
    ensures Contains(t, "fear")
    decreases |t|
  {
    if StartsWith(t, "extreme fear") {
      assert t[8..12] == "fear";
      ContainsAt(t, "fear", 8);
    } else {
      ExtremeFearMentionsFear(t[1..]);
    }
  }

  /** `_classify_regime` from the Fear & Greed value: `<=` against four
      cut points. */
  function RegimeFromValue(th: FearGreedThresholds, v: real): (r: Regime)
    ensures r == ExtremeFear <==> v <= th.extremeFear
    ensures r == Fear <==> th.extremeFear < v <= th.fear
    ensures r == NeutralRegime <==> v > th.extremeFear && th.fear < v <= th.neutral
    ensures r == Greed <==> v > th.extremeFear && v > th.fear && th.neutral < v <= th.greed
    ensures r == ExtremeGreed <==> v > th.greed && v > th.neutral && v > th.fear && v > th.extremeFear
  {
    if v <= th.extremeFear then ExtremeFear
    else if v <= th.fear then Fear
    else if v <= th.neutral then NeutralRegime
    else if v <= th.greed then Greed
    else ExtremeGreed
  }

  /** `_classify_regime`: the regime text when present, else the value
      (default 50). A regime entry that is not text raises. */
  function ClassifyRegime(th: FearGreedThresholds, rd: RegimeData): (r: Result<Regime, string>)
    ensures r.Raised? <==> rd.regime == Some(NotText)
    ensures rd.regime.None? ==> r == Ok(RegimeFromValue(th, rd.fearGreedValue.GetOr(50.0)))
  {
    match rd.regime
    case Some(NotText) => Raised("AttributeError")
    case Some(RegimeText(text)) => Ok(RegimeFromText(text))
    case None => Ok(RegimeFromValue(th, rd.fearGreedValue.GetOr(50.0)))
  }

  /** `_classify_volume`: strict `<` against three cut points. */
  function ClassifyVolume(th: VolumeThresholds, m: Metrics): (v: Volume)
    ensures v == LowVolume <==> VolumeRatio(m) < th.low
    ensures v == NormalVolume <==> th.low <= VolumeRatio(m) < th.high
    ensures v == HighVolume <==> VolumeRatio(m) >= th.low && th.high <= VolumeRatio(m) < th.explosive
    ensures v == ExplosiveVolume <==> VolumeRatio(m) >= th.low && VolumeRatio(m) >= th.high && VolumeRatio(m) >= th.explosive
  {
    var x := VolumeRatio(m);
    if x < th.low then LowVolume
    else if x < th.high then NormalVolume
    else if x < th.explosive then HighVolume
    else ExplosiveVolume
  }

  /** `_classify_technical` */
  function ClassifySetup(th: RsiThresholds, m: Metrics): (t: Setup)
    ensures t == Oversold <==> Rsi(m) < th.oversold
    ensures t == Overbought <==> Rsi(m) >= th.oversold && Rsi(m) > th.overbought
    ensures t == NeutralSetup <==> th.oversold <= Rsi(m) && Rsi(m) <= th.overbought
  {
    var rsi := Rsi(m);
    if rsi < th.oversold then Oversold
    else if rsi > th.overbought then Overbought
    else NeutralSetup
  }

  // Ranks, to state that the buckets are monotone.

  function RegimeRank(r: Regime): nat
  {
    match r
    case ExtremeFear => 0
    case Fear => 1
    case NeutralRegime => 2
    case Greed => 3
    case ExtremeGreed => 4
  }

  function VolumeRank(v: Volume): nat
  {
    match v
    case LowVolume => 0
    case NormalVolume => 1
    case HighVolume => 2
    case ExplosiveVolume => 3
  }

  function SetupRank(t: Setup): nat
  {
    match t
    case Oversold => 0
    case NeutralSetup => 1
    case Overbought => 2
  }

  /** With ascending cut points, a larger value never falls in a lower bucket. */
  lemma BucketsMonotone(th: Thresholds, m1: Metrics, m2: Metrics, v1: real, v2: real)
    requires Ordered(th)
    ensures VolumeRatio(m1) <= VolumeRatio(m2) ==> VolumeRank(ClassifyVolume(th.volume, m1)) <= VolumeRank(ClassifyVolume(th.volume, m2))
    ensures Rsi(m1) <= Rsi(m2) ==> SetupRank(ClassifySetup(th.rsi, m1)) <= SetupRank(ClassifySetup(th.rsi, m2))
    ensures v1 <= v2 ==> RegimeRank(RegimeFromValue(th.fearGreed, v1)) <= RegimeRank(RegimeFromValue(th.fearGreed, v2))
  {
  }

  /** The strategy agrees with the other components: a momentum entry is
      overbought on high volume, a breakout has high volume, and the
      oversold mean-reversion rule leaves an oversold setup. */
  lemma StrategyAgreesWithComponents(th: Thresholds, m: Metrics)
    requires Ordered(th)
    ensures ClassifyStrategy(th, m) == Momentum ==> ClassifySetup(th.rsi, m) == Overbought
    ensures ClassifyStrategy(th, m) in {Momentum, Breakout} ==> VolumeRank(ClassifyVolume(th.volume, m)) >= 2
    ensures Rsi(m) < th.rsi.oversold ==> ClassifySetup(th.rsi, m) == Oversold && ClassifyStrategy(th, m) != Momentum
  {
  }

  lemma ExtremeGreedLacksExtremeFear(s: string)
    requires s == "extreme greed" || s == "extreme_greed"
    ensures !Contains(s, "extreme fear")
  {
    forall k | 0 <= k <= |s|
      ensures !StartsWith(s[k..], "extreme fear")
    {
      if k == 0 {
        assert s[8] != "extreme fear"[8];
      } else if k == 1 {
        assert s[1] != "extreme fear"[0];
      }
    }
    NotContains(s, "extreme fear");
  }

  /** The regime names the detector prints. */
  function DisplayName(r: Regime): string
  {
    match r
    case ExtremeFear => "Extreme Fear"
    case Fear => "Fear"
    case NeutralRegime => "Neutral"
    case Greed => "Greed"
    case ExtremeGreed => "Extreme Greed"
  }

  /** Each printed regime name reads back as the same regime. */
  lemma DisplayNameReadsBack(r: Regime)
    ensures RegimeFromText(DisplayName(r)) == r
  {
    match r
    case ExtremeFear => ExtremeFearReadsBack();
    case Fear => FearReadsBack();
    case NeutralRegime => NeutralReadsBack();
    case Greed => GreedReadsBack();
    case ExtremeGreed => ExtremeGreedReadsBack();
  }

  lemma ExtremeFearReadsBack()
    ensures RegimeFromText("Extreme Fear") == ExtremeFear
  {
    var t := Lower("Extreme Fear");
    assert t == "extreme fear";
    ContainsAt(t, "extreme fear", 0);
  }

  lemma FearReadsBack()
    ensures RegimeFromText("Fear") == Fear
  {
    var t := Lower("Fear");
    assert t == "fear";
    ContainsTooShort(t, "extreme fear");
    ContainsAt(t, "fear", 0);
  }

  lemma NeutralReadsBack()
    ensures RegimeFromText("Neutral") == NeutralRegime
  {
    var t := Lower("Neutral");
    assert t == "neutral";
    ContainsTooShort(t, "extreme fear");
    NeutralLacksFearAndGreed();
  }

  lemma GreedReadsBack()
    ensures RegimeFromText("Greed") == Greed
  {
    var t := Lower("Greed");
    assert t == "greed";
    ContainsTooShort(t, "extreme fear");
    ContainsTooShort(t, "extreme");
    GreedLacksFear(t);
    ContainsAt(t, "greed", 0);
  }

  lemma ExtremeGreedReadsBack()
    ensures RegimeFromText("Extreme Greed") == ExtremeGreed
  {
    assert Lower("Extreme Greed") == "extreme greed";
    ExtremeGreedFacts("extreme greed");
  }

  /** The substring facts `_classify_regime` looks at, for both spellings
      of extreme greed. */
  lemma ExtremeGreedFacts(t: string)
    requires t == "extreme greed" || t == "extreme_greed"
    ensures !Contains(t, "extreme fear") && !Contains(t, "fear")
    ensures Contains(t, "greed") && Contains(t, "extreme")
  {
    ExtremeGreedLacksExtremeFear(t);
    GreedLacksFear(t);
    EndsInGreedStartsExtreme(t);
  }

  lemma EndsInGreedStartsExtreme(t: string)
    requires t == "extreme greed" || t == "extreme_greed"
    ensures Contains(t, "greed") && Contains(t, "extreme")
  {
    assert t == t[..8] + "greed" + [];
    ContainsAt("greed", "greed", 0);
    ContainsInConcat(t[..8], "greed", [], "greed");
    assert t == "extreme" + t[7..];
    ContainsPrefix("extreme", t[7..]);
  }

  lemma NeutralLacksFearAndGreed()
    ensures !Contains("neutral", "fear") && !Contains("neutral", "greed")
  {
    var s := "neutral";
    forall k | 0 <= k <= |s|
      ensures !StartsWith(s[k..], "fear") && !StartsWith(s[k..], "greed")
    {
      var u := s[k..];
      if k < 3 {
        assert u[..4][0] == s[k] != 'f';
        assert u[..5][0] == s[k] != 'g';
      } else if k == 3 {
        assert u[..4][0] == s[k] != 'f';
      } else {
        assert |u| < 4;
      }
    }
    NotContains(s, "fear");
    NotContains(s, "greed");
  }

  lemma GreedLacksFear(s: string)
    requires s == "greed" || s == "extreme greed" || s == "extreme_greed"
    ensures !Contains(s, "fear")
  {
    forall k | 0 <= k <= |s|
      ensures !StartsWith(s[k..], "fear")
    {
      if k + 4 <= |s| {
        assert s[k] != 'f';
      }
    }
    NotContains(s, "fear");
  }

  /** The identifier's own regime spelling with an underscore does not
      contain "extreme fear", so `extreme_fear` reads back as plain fear. */
  lemma UnderscoreExtremeFearReadsAsFear()
    ensures RegimeFromText(RegimeName(ExtremeFear)) == Fear
  {
    assert RegimeName(ExtremeFear) == "extreme_fear";
    assert Lower("extreme_fear") == "extreme_fear";
    UnderscoreExtremeFearFacts("extreme_fear");
  }

  lemma UnderscoreExtremeFearFacts(t: string)
    requires t == "extreme_fear"
    ensures !Contains(t, "extreme fear") && Contains(t, "fear")
  {
    forall k | 0 <= k <= |t|
      ensures !StartsWith(t[k..], "extreme fear")
    {
      if k == 0 {
        assert t[7] != "extreme fear"[7];
      }
    }
    NotContains(t, "extreme fear");
    assert t == "extreme_" + "fear" + [];
    ContainsAt("fear", "fear", 0);
    ContainsInConcat("extreme_", "fear", [], "fear");
  }

  /** `extreme_greed`, by contrast, reads back as itself. */
  lemma UnderscoreExtremeGreedReadsBack()
    ensures RegimeFromText(RegimeName(ExtremeGreed)) == ExtremeGreed
  {
    assert RegimeName(ExtremeGreed) == "extreme_greed";
    assert Lower("extreme_greed") == "extreme_greed";
    ExtremeGreedFacts("extreme_greed");
  }

  // ------------------------------------------------------------------
  // Confidence
  // ------------------------------------------------------------------

  predicate NearRsiBoundary(rsi: real) { 25.0 < rsi < 35.0 || 65.0 < rsi < 75.0 }
  predicate NearVolumeBoundary(v: real) { 0.65 < v < 0.75 || 1.45 < v < 1.55 }
  predicate ExtremeRsi(rsi: real) { rsi < 20.0 || rsi > 80.0 }
  predicate ExtremeVolume(v: real) { v > 3.0 }

  /** `_calculate_confidence`: 0.8 for each reading near a threshold, 1.2
      for each extreme reading, capped at 1. */
  function Confidence(m: Metrics): (c: real)
    ensures 0.64 <= c <= 1.0
    ensures !NearRsiBoundary(Rsi(m)) && !NearVolumeBoundary(VolumeRatio(m)) ==> c == 1.0
    ensures NearRsiBoundary(Rsi(m)) && NearVolumeBoundary(VolumeRatio(m)) ==> c == 0.64
    ensures NearRsiBoundary(Rsi(m)) && !NearVolumeBoundary(VolumeRatio(m)) ==>
      c == if ExtremeVolume(VolumeRatio(m)) then 0.96 else 0.8
    ensures !NearRsiBoundary(Rsi(m)) && NearVolumeBoundary(VolumeRatio(m)) ==>
      c == if ExtremeRsi(Rsi(m)) then 0.96 else 0.8
  {
    var rsi := Rsi(m);
    var vol := VolumeRatio(m);
    var a := if NearRsiBoundary(rsi) then 0.8 else 1.0;
    var b := if NearVolumeBoundary(vol) then a * 0.8 else a;
    var d := if ExtremeRsi(rsi) then b * 1.2 else b;
    var e := if ExtremeVolume(vol) then d * 1.2 else d;
    if e < 1.0 then e else 1.0
  }

  /** A reading near a threshold never raises the confidence and an extreme
      one never lowers it: moving the RSI from a plain value to a near one
      lowers it, and to an extreme one leaves it at its cap. */
  lemma ConfidenceOrdersReadings(m: Metrics, near: Metrics, extreme: Metrics)
    requires VolumeRatio(near) == VolumeRatio(m) && VolumeRatio(extreme) == VolumeRatio(m)
    requires !NearRsiBoundary(Rsi(m)) && !ExtremeRsi(Rsi(m))
    requires NearRsiBoundary(Rsi(near)) && ExtremeRsi(Rsi(extreme))
    ensures Confidence(near) < Confidence(m) <= Confidence(extreme)
    ensures Confidence(extreme) == (if NearVolumeBoundary(VolumeRatio(m)) then 0.96 else 1.0)
  {
  }

  // ------------------------------------------------------------------
  // classify_trade
  // ------------------------------------------------------------------

  datatype Classification = Classification(
    patternId: string,
    components: Option<PatternStore.Components>,
    stats: Option<PatternStore.Pattern>,
    confidence: Option<real>)

  /** What an exception turns the answer into. */
  const Unknown := Classification("unknown", None, None, None)

  /** The four components, or the exception the regime raises. */
  function Classify(th: Thresholds, m: Metrics, rd: RegimeData): (r: Result<Class, string>)
    ensures r.Raised? <==> rd.regime == Some(NotText)
    ensures r.Ok? ==> (r.value.strategy == ClassifyStrategy(th, m) && r.value.volume == ClassifyVolume(th.volume, m)
                   && r.value.setup == ClassifySetup(th.rsi, m) && Ok(r.value.regime) == ClassifyRegime(th.fearGreed, rd))
  {
    var regime := ClassifyRegime(th.fearGreed, rd);
    if regime.Raised? then Raised(regime.error)
    else Ok(Class(ClassifyStrategy(th, m), regime.value, ClassifyVolume(th.volume, m), ClassifySetup(th.rsi, m)))
  }

  /** A row the classifier could have created: its identifier decodes and
      its stored components are the decoded ones. */
  predicate WellClassified(p: PatternStore.Pattern)
  {
    var c := Decode(p.id);
    c.Some? && p.components == ComponentsOf(c.value)
  }

  predicate AllWellClassified(t: seq<PatternStore.Pattern>)
  {
    forall i :: 0 <= i < |t| ==> WellClassified(t[i])
  }

  /** `classify_trade`: classifies, creates the row if it is new, and
      returns its identifier, components, current row and confidence. An
      exception leaves the table alone and answers `unknown`. */
  function ClassifyTrade(th: Thresholds, m: Metrics, rd: RegimeData, t: seq<PatternStore.Pattern>, today: int)
    : (r: (seq<PatternStore.Pattern>, Classification))
    ensures Classify(th, m, rd).Raised? ==> r == (t, Unknown)
    ensures Classify(th, m, rd).Ok? ==>
      var c := Classify(th, m, rd).value;
      && r.1.patternId == PatternId(c)
      && Decode(r.1.patternId) == Some(c)
      && r.1.components == Some(ComponentsOf(c))
      && PatternStore.HasId(r.0, r.1.patternId)
      && r.1.stats.Some? && r.1.stats.value.id == r.1.patternId && r.1.stats.value in r.0
      && r.1.confidence == Some(Confidence(m))
      && (PatternStore.HasId(t, r.1.patternId) ==> r.0 == t)
      && (!PatternStore.HasId(t, r.1.patternId) ==> r.0 == t + [PatternStore.Fresh(PatternId(c), ComponentsOf(c), today)])
    ensures PatternStore.UniqueIds(t) ==> PatternStore.UniqueIds(r.0)
  {
    var c := Classify(th, m, rd);
    if c.Raised? then (t, Unknown)
    else
      var id := PatternId(c.value);
      var comps := ComponentsOf(c.value);
      DecodePatternId(c.value);
      var t' := PatternStore.Create(t, id, comps, today);
      var stats := PatternStore.GetStats(t', id);
      assert stats.Some?;
      (t', Classification(id, Some(comps), stats, Some(Confidence(m))))
  }

  /** Classification keeps every row well classified, and then the row it
      answers with stores exactly the components it reports. */
  lemma ClassifyTradeKeepsRowsClassified(th: Thresholds, m: Metrics, rd: RegimeData, t: seq<PatternStore.Pattern>, today: int)
    requires AllWellClassified(t)
    ensures AllWellClassified(ClassifyTrade(th, m, rd, t, today).0)
    ensures ClassifyTrade(th, m, rd, t, today).1.stats.Some? ==>
              ClassifyTrade(th, m, rd, t, today).1.components == Some(ClassifyTrade(th, m, rd, t, today).1.stats.value.components)
  {
    var c := Classify(th, m, rd);
    if c.Ok? {
      DecodePatternId(c.value);
      var r := ClassifyTrade(th, m, rd, t, today);
      assert WellClassified(r.1.stats.value);
    }
  }
}
