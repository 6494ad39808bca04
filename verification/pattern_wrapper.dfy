/** The pattern-enhanced wrapper (`src/integrations/pattern_wrapper.py`):
    composes the classifier, tracker, injector and analyzer around the
    agents' analysis of one stock. The store, tracker, injector and
    analyzer share one database; `Shared` states that the two copies the
    model carries are the same. The agents' own analysis is a parameter. */
module PatternWrapper {

  import opened Wrappers
  import PatternStore
  import PatternClassifier
  import PatternTracker
  import MemoryInjector
  import PatternAnalyzer

  // ------------------------------------------------------------------
  // Memory systems
  // ------------------------------------------------------------------

  /** The five memories the wrapper looks for, in the order it looks. */
  const KnownMemories: seq<string> := [MemoryInjector.TraderMemory, MemoryInjector.BullMemory,
    MemoryInjector.BearMemory, MemoryInjector.RiskMemory, MemoryInjector.JudgeMemory]

  function MemoryRank(name: string): nat
  {
    if name == MemoryInjector.TraderMemory then 0
    else if name == MemoryInjector.BullMemory then 1
    else if name == MemoryInjector.BearMemory then 2
    else if name == MemoryInjector.RiskMemory then 3
    else 4
  }

  function IfPresent(attrs: set<string>, name: string): seq<string>
  {
    if name in attrs then [name] else []
  }

  /** `_extract_memory_systems`. `graph` holds the names of the graph's
      attributes, or is `None` when reading the graph raises. The result
      names the known memories the graph has, each once, in lookup order. */
  function ExtractMemorySystems(graph: Option<set<string>>): (names: seq<string>)
    ensures graph.None? ==> names == []
    ensures forall n :: n in names <==> graph.Some? && n in graph.value && n in KnownMemories
    ensures forall i, j :: 0 <= i < j < |names| ==> MemoryRank(names[i]) < MemoryRank(names[j])
  {
    match graph
    case None => []
    case Some(attrs) =>
      IfPresent(attrs, MemoryInjector.TraderMemory) + IfPresent(attrs, MemoryInjector.BullMemory)
      + IfPresent(attrs, MemoryInjector.BearMemory) + IfPresent(attrs, MemoryInjector.RiskMemory)
      + IfPresent(attrs, MemoryInjector.JudgeMemory)
  }

  /** Lookup order never repeats a name. */
  lemma ExtractedMemoriesAreDistinct(graph: Option<set<string>>)
    ensures var names := ExtractMemorySystems(graph);
      |names| <= 5 && forall i, j :: 0 <= i < j < |names| ==> names[i] != names[j]
  {
  }

  // ------------------------------------------------------------------
  // The composed system
  // ------------------------------------------------------------------

  datatype System = System(th: PatternClassifier.Thresholds, tr: PatternTracker.Tracker, an: PatternAnalyzer.Analyzer)

  /** Every component reads and writes one database. */
  predicate Shared(s: System)
  {
    s.tr.db == s.an.inj.db
  }

  /** The cache only holds contexts of patterns that existed. */
  predicate CacheKnown(tr: PatternTracker.Tracker)
  {
    forall k :: k in tr.cache ==> tr.cache[k].context.Known?
  }

  /** A database write seen by every component. */
  function WithDb(s: System, db: PatternStore.Db): (r: System)
    ensures Shared(r) && r.tr.db == db
    ensures r.tr.cache == s.tr.cache && r.an.lastRegime == s.an.lastRegime
  {
    s.(tr := s.tr.(db := db), an := s.an.(inj := s.an.inj.(db := db)))
  }

  /** The wrapper's constructor: channels for the memories found, each
      `healthy` or not, an empty history and cache, no regime seen. */
  function Init(th: PatternClassifier.Thresholds, db: PatternStore.Db, graph: Option<set<string>>, healthy: set<string>, now: int): (s: System)
    ensures Shared(s) && CacheKnown(s.tr) && PatternTracker.Coherent(s.tr)
    ensures MemoryInjector.Names(s.an.inj.channels) == ExtractMemorySystems(graph)
    ensures s.an.lastRegime.None? && s.an.inj.history == []
  {
    var names := ExtractMemorySystems(graph);
    var chs := seq(|names|, i requires 0 <= i < |names| => MemoryInjector.Channel(names[i], names[i] in healthy, []));
    System(th, PatternTracker.Tracker(db, map[], now), PatternAnalyzer.Analyzer(MemoryInjector.Injector(chs, [], db), None, None))
  }

  // ------------------------------------------------------------------
  // analyze_with_patterns
  // ------------------------------------------------------------------

  /** The stock metrics: those the classifier reads, and the close. */
  datatype StockMetrics = StockMetrics(metrics: PatternClassifier.Metrics, close: real)

  /** What the agents' analysis answers. */
  datatype AgentResult = AgentResult(decision: Option<string>, conviction: Option<real>)

  /** The agents' result with the pattern fields added. */
  datatype Analysis = Analysis(
    result: AgentResult,
    patternId: string,
    context: PatternTracker.Context,
    components: Option<PatternStore.Components>)

  /** The history row written for a `BUY`. */
  function BuyEntry(batchId: string, symbol: string, m: StockMetrics, r: AgentResult, today: int): PatternTracker.EntryData
  {
    PatternTracker.EntryData(batchId, Some(symbol), today, m.close, r.decision, Some(r.conviction.GetOr(50.0)), None)
  }

  /** `analyze_with_patterns`: classify (creating the row if new), read the
      context, and when the pattern is known call the memory injection,
      which raises because the bridge lacks the formatter it calls.
      Otherwise the agents' result gets the pattern fields, and a `BUY`
      is tracked as an entry; `stored` is whether that insert succeeds. */
  function AnalyzeWithPatterns(s: System, batchId: string, symbol: string, m: StockMetrics,
                               rd: PatternClassifier.RegimeData, agents: AgentResult,
                               now: int, today: int, stored: bool): (r: (System, Result<Analysis, string>))
    ensures Shared(s) ==> Shared(r.0)
    ensures var cls := PatternClassifier.ClassifyTrade(s.th, m.metrics, rd, s.tr.db.patterns, today).1;
      r.1.Ok? ==> r.1.value.patternId == cls.patternId && r.1.value.components == cls.components && r.1.value.result == agents
    ensures r.1.Ok? ==> r.0.tr.db.patterns == PatternClassifier.ClassifyTrade(s.th, m.metrics, rd, s.tr.db.patterns, today).0
    ensures r.1.Ok? ==> |r.0.tr.db.trades| == |s.tr.db.trades| + (if agents.decision == Some("BUY") && stored then 1 else 0)
    ensures r.1.Raised? ==> r.0.tr.db.trades == s.tr.db.trades
  {
    var cls := PatternClassifier.ClassifyTrade(s.th, m.metrics, rd, s.tr.db.patterns, today);
    var s1 := WithDb(s, s.tr.db.(patterns := cls.0));
    var id := cls.1.patternId;
    var ctx := PatternTracker.GetContext(s1.tr, id, now);
    var s2 := s1.(tr := ctx.0);
    if ctx.1.Known? && PatternStore.GetStats(s2.tr.db.patterns, id).Some? then
      (s2, Raised("AttributeError: format_pattern_for_tradingagents"))
    else
      var analysis := Analysis(agents, id, ctx.1, cls.1.components);
      if agents.decision == Some("BUY") then
        var entry := PatternTracker.TrackEntry(s2.tr, id, BuyEntry(batchId, symbol, m, agents, today), stored);
        (WithDb(s2.(tr := entry.0), entry.0.db), Ok(analysis))
      else (s2, Ok(analysis))
  }

  /** Whenever classification succeeds the pattern exists by the time its
      context is read, so the call always reaches the missing formatter:
      only a trade whose classification failed gets the agents' answer. */
  lemma AnalyzeRaisesForClassifiedTrades(s: System, batchId: string, symbol: string, m: StockMetrics,
                                         rd: PatternClassifier.RegimeData, agents: AgentResult,
                                         now: int, today: int, stored: bool)
    requires CacheKnown(s.tr)
    requires PatternClassifier.Classify(s.th, m.metrics, rd).Ok?
    ensures AnalyzeWithPatterns(s, batchId, symbol, m, rd, agents, now, today, stored).1.Raised?
  {
    var cls := PatternClassifier.ClassifyTrade(s.th, m.metrics, rd, s.tr.db.patterns, today);
    var s1 := WithDb(s, s.tr.db.(patterns := cls.0));
    var id := cls.1.patternId;
    assert PatternStore.HasId(s1.tr.db.patterns, id);
    var ctx := PatternTracker.GetContext(s1.tr, id, now);
    assert ctx.1.Known?;
  }

  /** Only a `BUY` is tracked: any other decision leaves the trade history
      alone. */
  lemma OnlyBuysAreTracked(s: System, batchId: string, symbol: string, m: StockMetrics,
                           rd: PatternClassifier.RegimeData, agents: AgentResult,
                           now: int, today: int, stored: bool)
    requires agents.decision != Some("BUY")
    ensures AnalyzeWithPatterns(s, batchId, symbol, m, rd, agents, now, today, stored).0.tr.db.trades == s.tr.db.trades
  {
  }

  // ------------------------------------------------------------------
  // close_position_with_pattern
  // ------------------------------------------------------------------

  /** The closed position the wrapper reads; a missing key is `None`. */
  datatype ClosedPosition = ClosedPosition(
    patternId: Option<string>,
    batchId: Option<string>,
    symbol: Option<string>,
    exitDate: Option<int>,
    exitPrice: Option<real>,
    exitReason: Option<string>,
    holdingDays: Option<int>,
    pnlPercent: Option<real>,
    maxGainPercent: Option<real>,
    maxDrawdownPercent: Option<real>)

  datatype CloseResult = NotTracked | Tracked(id: string, analysis: PatternAnalyzer.ClosedAnalysis)

  /** The keys the wrapper reads by indexing. */
  predicate HasExitKeys(pos: ClosedPosition)
  {
    pos.batchId.Some? && pos.symbol.Some? && pos.exitDate.Some? && pos.exitPrice.Some?
    && pos.exitReason.Some? && pos.holdingDays.Some? && pos.pnlPercent.Some?
  }

  function ExitOf(pos: ClosedPosition): PatternTracker.ExitData
  {
    PatternTracker.ExitData(pos.batchId, pos.symbol, pos.pnlPercent, pos.holdingDays, pos.exitDate,
                            pos.exitPrice, Some(pos.exitReason), Some(pos.maxGainPercent), Some(pos.maxDrawdownPercent))
  }

  /** The wrapper always passes the gain and drawdown keys, so a position
      that lacks them has NULL written for them, not the tracker's 0. */
  lemma MissingGainIsWrittenNull(pos: ClosedPosition)
    ensures pos.maxGainPercent.None? ==> PatternTracker.ExitRow(ExitOf(pos)).maxGainPercent.None?
    ensures pos.maxDrawdownPercent.None? ==> PatternTracker.ExitRow(ExitOf(pos)).maxDrawdownPercent.None?
    ensures PatternTracker.ExitRow(ExitOf(pos)).exitReason == pos.exitReason
  {
  }

  /** `close_position_with_pattern`: without a pattern id nothing happens;
      otherwise the exit is tracked and the close analysed for an
      immediate lesson. A missing exit key raises before anything
      happens. */
  function CloseWithPattern(s: System, pos: ClosedPosition, today: int): (r: (System, Result<CloseResult, string>))
    ensures r.1 == Ok(NotTracked) <==> pos.patternId.None? || pos.patternId.value == ""
    ensures r.1 == Ok(NotTracked) ==> r.0 == s
    ensures r.1.Raised? <==> pos.patternId.Some? && pos.patternId.value != "" && !HasExitKeys(pos)
    ensures r.1.Raised? ==> r.0 == s
    ensures r.1.Ok? && r.1.value.Tracked? ==> r.1.value.id == pos.patternId.value
    ensures Shared(s) ==> Shared(r.0)
    ensures r.0.an.lastRegime == s.an.lastRegime
  {
    if pos.patternId.None? || pos.patternId.value == "" then (s, Ok(NotTracked))
    else if !HasExitKeys(pos) then (s, Raised("KeyError"))
    else
      var id := pos.patternId.value;
      var exit := PatternTracker.TrackExit(s.tr, id, ExitOf(pos), today);
      var s1 := WithDb(s.(tr := exit.0), exit.0.db);
      var closed := PatternAnalyzer.AnalyzeClosed(s1.an, PatternAnalyzer.ClosedPosition(pos.patternId, pos.pnlPercent, pos.holdingDays, pos.exitReason));
      assert closed.1.Ok?;
      var s2 := WithDb(s1.(an := closed.0), closed.0.inj.db);
      (s2, Ok(Tracked(id, closed.1.value)))
  }

  /** A tracked close keeps the tracker's cache coherent: the exit drops
      the pattern's entry, and the lesson it may inject only adds to the
      lesson log. */
  lemma CloseKeepsCacheCoherent(s: System, pos: ClosedPosition, today: int)
    requires Shared(s) && PatternTracker.Coherent(s.tr)
    ensures PatternTracker.Coherent(CloseWithPattern(s, pos, today).0.tr)
  {
    if pos.patternId.Some? && pos.patternId.value != "" && HasExitKeys(pos) {
      var id := pos.patternId.value;
      var exit := PatternTracker.TrackExit(s.tr, id, ExitOf(pos), today);
      PatternTracker.TrackExitKeepsCoherent(s.tr, id, ExitOf(pos), today);
      var s1 := WithDb(s.(tr := exit.0), exit.0.db);
      var closed := PatternAnalyzer.AnalyzeClosed(s1.an, PatternAnalyzer.ClosedPosition(pos.patternId, pos.pnlPercent, pos.holdingDays, pos.exitReason));
      assert closed.0.inj.db.patterns == s1.an.inj.db.patterns;
    }
  }

  // ------------------------------------------------------------------
  // run_pattern_learning
  // ------------------------------------------------------------------

  datatype Learning = WeeklyRun(weekly: PatternAnalyzer.Weekly) | DailyRun(daily: PatternAnalyzer.Daily) | InvalidFrequency

  /** `run_pattern_learning`: "weekly" runs the weekly analysis, "daily" the
      daily check, anything else answers an error and changes nothing. */
  function RunLearning(s: System, frequency: string, now: int, cutoff: int, currentRegime: Option<string>): (r: (System, Result<Learning, string>))
    ensures frequency == "weekly" ==> r.1.Ok? && r.1.value.WeeklyRun? && r.1.value.weekly == PatternAnalyzer.RunWeekly(s.an, now, cutoff, currentRegime).1
    ensures frequency == "daily" ==> (r.1.Ok? <==> PatternAnalyzer.DailyCheck(s.an).1.Ok?)
    ensures frequency == "daily" && r.1.Ok? ==> r.1.value == DailyRun(PatternAnalyzer.DailyCheck(s.an).1.value)
    ensures r.1 == Ok(InvalidFrequency) <==> frequency != "weekly" && frequency != "daily"
    ensures r.1 == Ok(InvalidFrequency) ==> r.0 == s
    ensures frequency != "weekly" ==> r.0.an.lastRegime == s.an.lastRegime && r.0.an.lastWeekly == s.an.lastWeekly
    ensures Shared(s) ==> Shared(r.0)
  {
    if frequency == "weekly" then
      var w := PatternAnalyzer.RunWeekly(s.an, now, cutoff, currentRegime);
      (WithDb(s.(an := w.0), w.0.inj.db), Ok(WeeklyRun(w.1)))
    else if frequency == "daily" then
      var d := PatternAnalyzer.DailyCheck(s.an);
      var s1 := WithDb(s.(an := d.0), d.0.inj.db);
      (s1, if d.1.Raised? then Raised(d.1.error) else Ok(DailyRun(d.1.value)))
    else (s, Ok(InvalidFrequency))
  }
}
