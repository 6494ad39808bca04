/** The memory bridge (`src/patterns/memory_bridge.py`): turns pattern
    statistics and closed trades into (situation, recommendation) pairs for
    the agents' memories. Reports made only of numbers formatted with
    Python format specifications are kept as records of the values they
    show; the report naming the pattern is rendered as text. */
module MemoryBridge {

  import opened Wrappers
  import opened Text
  import PatternStore

  /** The pattern dictionary the bridge reads; a missing key is `None`. */
  datatype PatternData = PatternData(
    patternId: string,
    strategy: string,
    volume: string,
    technical: string,
    regime: Option<string>,
    winRate: Option<real>,
    recentWinRate: Option<real>,
    expectancy: Option<real>,
    confidence: Option<string>,
    totalTrades: Option<int>)

  function ConfidenceName(c: PatternStore.Confidence): string
  {
    match c
    case Low => "low"
    case Medium => "medium"
    case High => "high"
  }

  /** The dictionary `get_pattern_stats` returns for a row. */
  function FromPattern(p: PatternStore.Pattern): (d: PatternData)
    ensures d.patternId == p.id && d.winRate == Some(p.winRate)
  {
    PatternData(p.id, p.components.strategy, p.components.volume, p.components.technical,
                Some(p.components.regime), Some(p.winRate), Some(p.recentWinRate), Some(p.expectancy),
                Some(ConfidenceName(p.confidence)), Some(p.totalTrades))
  }

  // ------------------------------------------------------------------
  // Recommendations
  // ------------------------------------------------------------------

  datatype PatternTier = StrongBuy | ModerateBuy | WeakAvoid | NeutralTier

  /** A pattern recommendation: its tier and the figures its text states. */
  datatype PatternAdvice = PatternAdvice(tier: PatternTier, totalTrades: int, winRate: real, recentWinRate: real, expectancy: real)

  /** `_build_pattern_recommendation`, with the defaults: win rate 0, the
      recent win rate equal to the win rate, confidence `low`, no trades. */
  function PatternRecommendation(d: PatternData): (a: PatternAdvice)
    ensures a.winRate == d.winRate.GetOr(0.0) && a.recentWinRate == d.recentWinRate.GetOr(a.winRate)
    ensures a.totalTrades == d.totalTrades.GetOr(0) && a.expectancy == d.expectancy.GetOr(0.0)
    ensures a.tier == StrongBuy <==> a.winRate > 0.65 && d.confidence.GetOr("low") == "high"
    ensures a.tier == ModerateBuy <==> a.winRate > 0.55 && !(a.winRate > 0.65 && d.confidence.GetOr("low") == "high")
    ensures a.tier == WeakAvoid <==> a.winRate < 0.45
    ensures a.tier == NeutralTier <==> 0.45 <= a.winRate <= 0.55
  {
    var win := d.winRate.GetOr(0.0);
    var recent := d.recentWinRate.GetOr(win);
    var tier :=
      if win > 0.65 && d.confidence.GetOr("low") == "high" then StrongBuy
      else if win > 0.55 then ModerateBuy
      else if win < 0.45 then WeakAvoid
      else NeutralTier;
    PatternAdvice(tier, d.totalTrades.GetOr(0), win, recent, d.expectancy.GetOr(0.0))
  }

  function PatternTierRank(t: PatternTier): nat
  {
    match t
    case WeakAvoid => 0
    case NeutralTier => 1
    case ModerateBuy => 2
    case StrongBuy => 3
  }

  /** At the same confidence, a higher win rate never gets a weaker tier. */
  lemma PatternTierMonotone(d1: PatternData, d2: PatternData)
    requires d1.confidence == d2.confidence
    requires d1.winRate.GetOr(0.0) <= d2.winRate.GetOr(0.0)
    ensures PatternTierRank(PatternRecommendation(d1).tier) <= PatternTierRank(PatternRecommendation(d2).tier)
  {
  }

  /** A pattern with no statistics at all is rated weak. */
  lemma EmptyPatternIsWeak(d: PatternData)
    requires d.winRate.None?
    ensures PatternRecommendation(d).tier == WeakAvoid
  {
  }

  datatype TradeTier = Successful | Winning | LosingTrade | SmallLoss

  /** A trade recommendation: its tier and the names its text states. */
  datatype TradeAdvice = TradeAdvice(tier: TradeTier, symbol: string, patternId: string, exitReason: string, pnl: real)

  /** A closed position as the bridge reads it; a missing key is `None`. */
  datatype PositionData = PositionData(
    symbol: Option<string>,
    patternId: Option<string>,
    pnlPercent: Option<real>,
    exitReason: Option<string>,
    rsiAtEntry: Option<real>,
    volumeRatioAtEntry: Option<real>,
    atr: Option<real>,
    vixAtEntry: Option<real>,
    fearGreedAtEntry: Option<real>)

  function TradeTierFor(pnl: real): (t: TradeTier)
    ensures t == Successful <==> pnl > 3.0
    ensures t == Winning <==> 0.0 < pnl <= 3.0
    ensures t == LosingTrade <==> pnl < -2.0
  {
    if pnl > 3.0 then Successful
    else if pnl > 0.0 then Winning
    else if pnl < -2.0 then LosingTrade
    else SmallLoss
  }

  /** `_build_trade_recommendation`, with the defaults: no return, symbol
      `UNKNOWN`, pattern and exit reason `unknown`. */
  function TradeRecommendation(pos: PositionData): (a: TradeAdvice)
    ensures a.pnl == pos.pnlPercent.GetOr(0.0) && a.tier == TradeTierFor(a.pnl)
    ensures a.symbol == pos.symbol.GetOr("UNKNOWN") && a.patternId == pos.patternId.GetOr("unknown")
    ensures a.exitReason == pos.exitReason.GetOr("unknown")
  {
    var pnl := pos.pnlPercent.GetOr(0.0);
    TradeAdvice(TradeTierFor(pnl), pos.symbol.GetOr("UNKNOWN"), pos.patternId.GetOr("unknown"), pos.exitReason.GetOr("unknown"), pnl)
  }

  function TradeTierRank(t: TradeTier): nat
  {
    match t
    case LosingTrade => 0
    case SmallLoss => 1
    case Winning => 2
    case Successful => 3
  }

  /** A larger return never gets a worse tier; a position without a
      recorded return counts as a small loss. */
  lemma TradeTierMonotone(a: real, b: real, pos: PositionData)
    requires a <= b
    ensures TradeTierRank(TradeTierFor(a)) <= TradeTierRank(TradeTierFor(b))
    ensures pos.pnlPercent.None? ==> TradeRecommendation(pos).tier == SmallLoss
  {
  }

  // ------------------------------------------------------------------
  // Memories
  // ------------------------------------------------------------------

  /** The metrics the market report shows. */
  datatype Metrics = Metrics(rsi: Option<real>, volumeRatio: Option<real>, atr: Option<real>, priceVsSma20: Option<real>)

  /** A pattern memory's situation: the market report (company and
      metrics), the sentiment report (regime), the news report as text and
      the statistics report. */
  datatype PatternSituation = PatternSituation(
    company: string,
    metrics: Metrics,
    regimeTitle: string,
    news: string,
    statistics: PatternAdvice)

  datatype PatternMemory = PatternMemory(situation: PatternSituation, advice: PatternAdvice)

  const Placeholder: string := "[ANALYZING STOCK]"

  /** `s.replace('_', ' ').title()`: underscores become spaces and every
      word starts with a capital. */
  function TitleWords(s: string): (r: string)
    ensures |r| == |s|
    ensures forall i :: 0 <= i < |s| && s[i] == '_' ==> r[i] == ' '
    ensures forall i :: 0 <= i < |s| && s[i] != '_' ==> LowerChar(r[i]) == LowerChar(s[i])
    ensures |s| > 0 && IsCased(s[0]) ==> IsUpperCase(r[0])
    ensures forall i :: 0 < i < |s| && IsCased(s[i]) && !IsCased(s[i - 1]) ==> IsUpperCase(r[i])
    ensures forall i :: 0 < i < |s| && IsCased(s[i - 1]) ==> !IsUpperCase(r[i])
  {
    var spaced := ReplaceChar(s, '_', ' ');
    var r := Title(spaced);
    forall i | 0 <= i < |s|
      ensures s[i] == '_' ==> r[i] == ' '
      ensures IsCased(spaced[i]) <==> IsCased(s[i])
    {
      if s[i] == '_' {
        assert LowerChar(r[i]) == ' ';
      }
    }
    r
  }

  /** The news report, exactly as rendered. */
  function NewsReport(d: PatternData): string
  {
    "Market Context:\nPattern Classification: " + d.patternId
    + "\nStrategy Type: " + ReplaceChar(d.strategy, '_', ' ')
    + "\nVolume Profile: " + d.volume
    + "\nTechnical Setup: " + d.technical
    + "\nPattern Confidence: " + d.confidence.GetOr("medium")
  }

  /** `create_pattern_memory` */
  function CreatePatternMemory(d: PatternData, m: Metrics, symbol: string): (r: PatternMemory)
    ensures r.situation.company == symbol
    ensures r.situation.news == NewsReport(d)
    ensures r.advice == PatternRecommendation(d) && r.situation.statistics == r.advice
  {
    var advice := PatternRecommendation(d);
    PatternMemory(PatternSituation(symbol, m, TitleWords(d.regime.GetOr("neutral")), NewsReport(d), advice), advice)
  }

  /** The pattern memory names its pattern. */
  lemma PatternMemoryNamesPattern(d: PatternData, m: Metrics, symbol: string)
    ensures Contains(CreatePatternMemory(d, m, symbol).situation.news, d.patternId)
  {
    var pre := "Market Context:\nPattern Classification: ";
    var post := NewsReport(d)[|pre| + |d.patternId|..];
    assert NewsReport(d) == pre + d.patternId + post;
    ContainsAt(d.patternId, d.patternId, 0);
    ContainsInConcat(pre, d.patternId, post, d.patternId);
  }

  /** A trade memory's situation: the traded symbol, the entry metrics and
      the outcome. */
  datatype TradeSituation = TradeSituation(symbol: string, patternId: string, entry: Metrics, pnl: real)

  datatype TradeMemory = TradeMemory(situation: TradeSituation, advice: TradeAdvice)

  /** The entry metrics a closed position carries. */
  function EntryMetrics(pos: PositionData): Metrics
  {
    Metrics(pos.rsiAtEntry, Some(pos.volumeRatioAtEntry.GetOr(1.0)), pos.atr, None)
  }

  /** `create_trade_memory`: reading the symbol raises when it is missing. */
  function CreateTradeMemory(pos: PositionData, d: PatternData): (r: Result<TradeMemory, string>)
    ensures r.Ok? <==> pos.symbol.Some?
    ensures r.Ok? ==> r.value.situation.symbol == pos.symbol.value && r.value.advice == TradeRecommendation(pos)
  {
    if pos.symbol.None? then Raised("KeyError: symbol")
    else
      Ok(TradeMemory(TradeSituation(pos.symbol.value, pos.patternId.GetOr("unknown"), EntryMetrics(pos), pos.pnlPercent.GetOr(0.0)),
                     TradeRecommendation(pos)))
  }

  /** One entry of the pair list `create_hybrid_memories` returns. */
  datatype Memory = TradeLesson(trade: TradeMemory) | PatternLesson(pattern: PatternMemory)

  /** `create_hybrid_memories`: the trade memory, then the pattern memory
      built for the traded symbol rather than the placeholder. */
  function CreateHybridMemories(pos: PositionData, d: PatternData): (r: Result<seq<Memory>, string>)
    ensures r.Ok? <==> pos.symbol.Some?
    ensures r.Ok? ==> |r.value| == 2 && r.value[0].TradeLesson? && r.value[1].PatternLesson?
    ensures r.Ok? ==> r.value[0].trade.situation.symbol == r.value[1].pattern.situation.company == pos.symbol.value
    ensures r.Ok? ==> r.value[1].pattern.situation.company != Placeholder || pos.symbol.value == Placeholder
  {
    var trade := CreateTradeMemory(pos, d);
    if trade.Raised? then Raised(trade.error)
    else
      Ok([TradeLesson(trade.value), PatternLesson(CreatePatternMemory(d, EntryMetrics(pos), pos.symbol.value))])
  }

  /** The pattern memory of a closed position names the pattern too. */
  lemma HybridMemoriesNamePattern(pos: PositionData, d: PatternData)
    requires pos.symbol.Some?
    ensures Contains(CreateHybridMemories(pos, d).value[1].pattern.situation.news, d.patternId)
  {
    PatternMemoryNamesPattern(d, EntryMetrics(pos), pos.symbol.value);
  }
}
