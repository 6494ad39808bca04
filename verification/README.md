# ODIN pattern learning, in Dafny

A model of the ODIN trading pipeline's pattern-learning engine, with proofs
about the model. It also covers the pipeline stages that feed the engine and
consume its output. ODIN filters the S&P 500 by market regime and asks the
TradingAgents LLM agents for a decision on each candidate. It builds a
portfolio from the BUYs and tracks the positions.

The pattern engine does three things:
- It classifies every trade into a four-part pattern
  `strategy_regime_volume_technical`.
- It keeps running statistics per pattern: win rate, a recent 20-trade window,
  expectancy and confidence.
- It feeds what it learns back into the agents' memories as lessons.

Each Python source file becomes one Dafny module:

| module | file |
|---|---|
| `PatternStore` | `src/patterns/database.py` — the pattern table, trade history and learning log |
| `PatternClassifier` | `src/patterns/classifier.py` |
| `PatternTracker` | `src/patterns/tracker.py` — entry/exit bookkeeping and the context cache |
| `MemoryBridge` | `src/patterns/memory_bridge.py` |
| `MemoryInjector` | `src/patterns/memory_injector.py` |
| `PatternAnalyzer` | `src/patterns/analyzer.py` |
| `PatternWrapper` | `src/integrations/pattern_wrapper.py` |
| `BatchProcessor` | `src/batch/tradingagents_batch_processor.py` |
| `PortfolioConstructor` | `src/portfolio/constructor.py` |
| `PositionTracker` | `src/portfolio/tracker.py` |
| `Observer` | `src/feedback/observer.py` |
| `DataFetcher` | `src/data/fetcher.py` |
| `StockFilter` | `src/filtering/filter.py` |
| `RegimeDetector` | `src/regime/detector.py` |
| `Settings` | `config/settings.py` |
| `ContextProvider` | `src/tradingagents/context_provider.py` |
| `MockBroker` | `src/brokers/base/mock_broker.py` |
| `OrderExecutor` | `src/brokers/ibkr_order_executor.py` (and its copy `src/ibkr/ibkr_order_executor.py`) |
| `BrokerUtils` | `src/brokers/ibkr/utils.py` and the market-hours check of `src/batch/overnight_processor.py` |
| `Migration` | `src/migrations/apply_migration.py` |

`Wrappers` holds `Option` and `Result`. `Ok` is a value and `Raised` is a
Python exception that escapes. `Seqs`, `Text` and `Numbers` model the Python
built-ins the code relies on: `str.split`, `strip`, `lower` and `int()`
truncation. Python's `round` is modelled in one place only, the stop price of
`OrderExecutor` (`OrderExecutor.RoundHalfEven`); the portfolio constructor's
rounding is left out.

Modelling choices:
- Database tables are sequences in insertion (rowid) order. Dictionaries are
  sequences of pairs in insertion order. SQL `NULL`, and a missing dictionary
  key read with `.get`, are `None`.
- Python floats are exact reals.
- Every input from outside is a parameter: the clock, market quotes, LLM
  answers, broker answers, random draws, whether a memory channel's
  `add_situations` raises, and whether a file can be read.
- Each operation is a pure function that returns the new state together with
  its result.
- Lesson texts are records of what they say, not strings. The one exception
  is the memory bridge's pattern report. It is rendered as text, to prove that
  it names its pattern.

The model follows the code as written, with five exceptions. Each one is
listed under "## Findings" with its input, and each has a member that keeps
the code as written and a proof of where it goes wrong:
- The tracker's context cache is meant to live five minutes (the `# 5
  minutes` comment at src/patterns/tracker.py:28). The code compares
  `timedelta.seconds`, which wraps every day. `PatternTracker.GetContext`,
  `PatternTracker.Clean` and `PatternAnalyzer.Recommendations`, which reads
  the cache, use the total elapsed time (finding 1).
- A regime transition reports the new regime as its origin too.
  `PatternAnalyzer.RunWeekly` reports the remembered regime (finding 2).
- A batch whose selection is empty divides by zero when its percentages are
  normalised. `PortfolioConstructor.ConstructPortfolio` returns an empty
  portfolio instead (finding 3).
- The feedback step of the portfolio tracker calls `json.dumps` without
  importing `json`. `PositionTracker.AnalyzeFeedback` saves the feedback
  (finding 4).
- The position tracker subtracts the stored entry date from today's date.
  The pipeline's connection (src/data/database.py:41) is opened without
  `detect_types`, so SQLite hands that date back as text, and the
  subtraction raises `TypeError`. `update_positions` catches the error, so
  no open position is ever exited or measured, and `_exit_position` always
  raises. `PositionTracker.UpdateOne`, `PositionTracker.ExitPosition` and
  `PositionTracker.UpdatePositions` read the date back as a date
  (finding 5).

Rows of the table below that describe a corrected member say "corrected (see
Findings)". `analyze_with_patterns` reaches a memory call the bridge does not
define, so it raises whenever the classified pattern exists; the model keeps
that, and `PatternWrapper.AnalyzeRaisesForClassifiedTrades` states it.

## Model

| member | source | states |
|---|---|---|
| PatternStore.Fresh | src/patterns/database.py:41-57 | a newly inserted row carries the identifier and the four components, has no trades and is active |
| PatternStore.Create | src/patterns/database.py:33-61 | `INSERT OR IGNORE`: afterwards the identifier is present; an existing identifier leaves the table exactly as it was, a new one appends one fresh row; unique identifiers stay unique |
| PatternStore.GetStats | src/patterns/database.py:63-103 | the row with that identifier, or `None` exactly when no row has it |
| PatternStore.ConfidenceFor | src/patterns/database.py:156-162 | the tier is high exactly from 50 trades and low exactly below 20 |
| PatternStore.PushWindow | src/patterns/database.py:142-146 | the rolling window ends with the new return, holds 1 to 20 entries, and is the old window plus the return while that is short |
| PatternStore.PushWindowTracksHistory | src/patterns/database.py:142-146 | pushing onto the last 20 returns of a history gives the last 20 returns of the extended history |
| PatternStore.WinFraction | src/patterns/database.py:149-150 | the recent win rate is a fraction in [0, 1] |
| PatternStore.ApplyTrade | src/patterns/database.py:120-189 | one closed trade adds one trade and exactly one win (return > 0) or one loss (return <= 0), updates only the average of its side, and leaves identifier, components, activity and first-seen date alone |
| PatternStore.FreshSummarisesNothing | src/patterns/database.py:43-46 | a fresh row is the exact summary of an empty trade history |
| PatternStore.ApplyTradeSummarises | src/patterns/database.py:120-154 | folding a trade into a row that summarises a history gives the summary of the history extended by that trade (counts, averages, window, derived rates) |
| PatternStore.ApplyTradeCounts | src/patterns/database.py:121-123 | the win and loss counts after a trade are the counts of positive and non-positive returns in the extended history |
| PatternStore.ApplyTradeAverages | src/patterns/database.py:126-136 | the average win and average loss after a trade are the means of the positive returns and of the absolute non-positive returns of the extended history |
| PatternStore.ApplyTradeWindow | src/patterns/database.py:142-151 | the window after a trade is the last 20 returns of the extended history |
| PatternStore.ApplyTradeDerived | src/patterns/database.py:139-162 | win rate, expectancy, recent rates, momentum and confidence written back agree with the counts and averages in the same row |
| PatternStore.AvgLossAfterLoss | src/patterns/database.py:132-134 | after a loss the average loss is the old loss total plus the absolute return, over the new loss count |
| PatternStore.SummaryBounds | src/patterns/database.py:139-154 | for a row summarising its history, wins and losses add up to the trades, the rates are fractions, the momentum lies in [-1, 1] and the window is no longer than 20 or the trade count |
| PatternStore.CountComplement | src/patterns/database.py:122-123 | every return counts as exactly one of a win or a loss |
| PatternStore.UpdatePerformance | src/patterns/database.py:105-201 | success exactly when the identifier exists; an unknown identifier changes nothing; otherwise the row with that identifier is replaced by the trade applied to it and every other row is unchanged |
| PatternStore.UpdatePerformanceKeepsOthers | src/patterns/database.py:165-189 | after an update every other identifier looks up the same row as before |
| PatternStore.TopCandidates | src/patterns/database.py:209-214 | the same rows, with the same multiplicities, as the active rows of the table with enough trades, ordered by expectancy, highest first |
| PatternStore.TopPatterns | src/patterns/database.py:207-217 | the first `limit` (or all) of the active rows with at least `min_trades` trades: that many rows, each drawn from them at most as often as it occurs, every row a member, expectancy non-increasing |
| PatternStore.AnswersMembers | src/patterns/database.py:207-259 | a query answer that is the filtered table reordered holds exactly the rows that pass the filter |
| PatternStore.TopPatternsLeaveOutNoBetter | src/patterns/database.py:207-217 | a qualifying row left out means the limit was reached and its expectancy is at most that of every row returned |
| PatternStore.BreakingPatterns | src/patterns/database.py:219-233 | the same rows, with the same multiplicities, as the active rows with enough trades, recent win rate under the threshold and win rate above 0.50, the most negative recent-minus-overall delta first |
| PatternStore.RegimePatterns | src/patterns/database.py:235-244 | the same rows, with the same multiplicities, as the active rows whose regime equals the name lower-cased with spaces replaced by underscores, expectancy non-increasing |
| PatternStore.HotPatterns | src/patterns/database.py:246-259 | the same rows, with the same multiplicities, as the active rows with at least 10 trades whose recent win rate exceeds the win rate plus the minimum improvement, the largest improvement first |
| PatternStore.DeactivateStale | src/patterns/database.py:435-451 | only the activity flag changes, a row ends active exactly when it was active and not stale, and the returned count plus the active rows left equals the active rows before |
| PatternStore.DeactivateStaleIdempotent | src/patterns/database.py:435-451 | a second deactivation with the same cutoff switches nothing off and changes nothing |
| PatternStore.NoStaleNoChange | src/patterns/database.py:437-442 | with no active stale row the table is unchanged and the count is 0 |
| PatternStore.SummaryStats | src/patterns/database.py:417-433 | the averages are NULL exactly when no row is active; otherwise the trade total and the average win rate and expectancy are those of the active rows; the high-confidence, improving (momentum > 0.1) and declining (momentum < -0.1) counts are the numbers of active rows meeting each test |
| PatternStore.ActiveTotals | src/patterns/database.py:420-429 | the running totals over the active rows equal the totals over the filtered table, which is what SQL `SUM` over `WHERE is_active = 1` adds up |
| PatternStore.ImprovingDecliningDisjoint | src/patterns/database.py:426-427 | no row is counted both improving (momentum > 0.1) and declining (momentum < -0.1) |
| PatternStore.SummaryCountsEveryActivePattern | src/patterns/database.py:421 | with unique identifiers the distinct-identifier count is the number of active rows |
| PatternStore.SummaryWinRateIsFraction | src/patterns/database.py:423 | when every win rate is a fraction, so is the average win rate |
| PatternStore.RecordTrade | src/patterns/database.py:265-305 | the entry is appended to the trade history; patterns and the learning log are unchanged |
| PatternStore.RecordTradeExit | src/patterns/database.py:307-338 | every history row of that batch and symbol gets the exit, every other row is unchanged |
| PatternStore.RecordLearningEvent | src/patterns/database.py:344-369 | exactly one row is appended to the learning log; nothing else changes |
| PatternTracker.DescribeMomentum | src/patterns/tracker.py:179-190 | strongly improving exactly above 0.15, improving exactly in (0.05, 0.15], stable exactly in [-0.05, 0.05], declining exactly in [-0.15, -0.05), strongly declining exactly below -0.15 |
| PatternTracker.DescribeMomentumMonotone | src/patterns/tracker.py:179-190 | a higher momentum score never gets a lower label |
| PatternTracker.Recommend | src/patterns/tracker.py:159-177 | first match wins, each advice stated as an if-and-only-if: low confidence exactly at the low tier; then hot exactly when hot, cold exactly below a 0.35 recent win rate; then profitable above 0.02 expectancy, losing below -0.01, neutral in between |
| PatternTracker.LowConfidenceUntilTwentyTrades | src/patterns/tracker.py:162-163 | with the tier derived from the trade count, the advice is low confidence exactly below 20 trades |
| PatternTracker.ContextOf | src/patterns/tracker.py:139-151 | the context of a row carries its statistics and at most its last five window entries |
| PatternTracker.FreshContext | src/patterns/tracker.py:129-151 | the context is "unknown" exactly when the pattern has no row |
| PatternTracker.AlertFor | src/patterns/tracker.py:192-204 | breakdown exactly at 20 trades or more with recent win rate under 0.30; otherwise hot exactly at 10 trades or more with recent win rate above 0.80 |
| PatternTracker.BreakdownIsCold | src/patterns/tracker.py:159-204 | a breakdown alert on an established pattern comes with the cold-pattern advice |
| PatternTracker.HotAlertIsHot | src/patterns/tracker.py:159-204 | a hot alert on an established, improving pattern comes with the hot-pattern advice |
| PatternTracker.TimedeltaSeconds | src/patterns/tracker.py:126 | `timedelta.seconds` lies in [0, 86400) and equals the elapsed seconds only within a day |
| PatternTracker.CacheFreshAsWrittenServesDayOldEntry | src/patterns/tracker.py:124-127 | the cache test as written agrees with the intended one within a day, but serves an entry cached 86410 seconds ago |
| PatternTracker.CleanDueAsWrittenSkipsAfterADay | src/patterns/tracker.py:279-284 | 86460 seconds after the last clear, the test as written does not clear the cache; the intended one does |
| PatternTracker.Invalidate | src/patterns/tracker.py:274-277 | exactly that key leaves the cache; all other entries and the table stay |
| PatternTracker.Clean | src/patterns/tracker.py:279-284 | corrected (see Findings): more than an hour of total elapsed time after the last clear the cache is emptied and the clock reset; otherwise nothing changes |
| PatternTracker.GetContext | src/patterns/tracker.py:113-157 | corrected (see Findings): a cached context younger than five minutes of total elapsed time is answered as is; otherwise the context is the one the table gives; only that key can be added to the cache |
| PatternTracker.GetContextAnswersTable | src/patterns/tracker.py:113-157 | with a coherent cache the answer is always what the table says, and the cache stays coherent |
| PatternTracker.EntryRow | src/patterns/tracker.py:44-57 | the history row carries the pattern, the given symbol and no exit, with decision defaulting to BUY and position size to 5.0 |
| PatternTracker.TrackEntry | src/patterns/tracker.py:31-69 | statistics never change; success exactly when the insert succeeded and the symbol is present; the cache entry is dropped only on success |
| PatternTracker.TrackEntryKeepsCoherent | src/patterns/tracker.py:31-69 | entry tracking keeps every cached context equal to what the table says |
| PatternTracker.ExitRow | src/patterns/tracker.py:84-96 | the exit written carries the return; a missing reason is written "unknown" and a missing gain or drawdown 0, while a key present with `None` is written as NULL |
| PatternTracker.TrackExit | src/patterns/tracker.py:71-111 | success exactly when batch, symbol, return and holding period are present and the pattern exists; on success the statistics get the trade applied and the cache entry is dropped; on failure statistics and cache are unchanged |
| PatternTracker.TrackExitKeepsCoherent | src/patterns/tracker.py:71-111 | exit tracking keeps the cache coherent |
| PatternTracker.Groups | src/patterns/tracker.py:242-255 | one group per strategy type of the regime's patterns, in order of first appearance, each with that type's totals |
| PatternTracker.ScanPicksFirstBest | src/patterns/tracker.py:257-272 | the scan ends on the first strategy group of largest mean expectancy above the bar, or keeps what it had when no group beats it |
| PatternTracker.BestStrategyIsFirstMaximum | src/patterns/tracker.py:235-272 | an error exactly when the regime has no patterns; otherwise `None` only when no mean beats -999, else the first strategy of highest mean expectancy |
| PatternClassifier.PatternId | src/patterns/classifier.py:57 | the identifier is the component words joined with `_` |
| PatternClassifier.IdIsJoinOfWords | src/patterns/classifier.py:57 | the joined words spell `strategy_regime_volume_technical` |
| PatternClassifier.DecodePatternId | src/patterns/classifier.py:57-64 | decoding an identifier gives back the four components it was built from |
| PatternClassifier.PatternIdInjective | src/patterns/classifier.py:57-64 | distinct classifications never share an identifier |
| PatternClassifier.ClassifyStrategy | src/patterns/classifier.py:88-116 | first match wins, each strategy as an if-and-only-if: mean reversion exactly when RSI is oversold below 98% of SMA20 or no later test holds; otherwise momentum exactly on overbought RSI with high volume, breakout exactly on a price in (0.99, 1.02) of SMA20 with high volume, bounce exactly on RSI in (30, 50) rising by more than 5 |
| PatternClassifier.RegimeFromText | src/patterns/classifier.py:125-138 | on the lower-cased text: extreme fear exactly when it contains "extreme fear", fear when it contains only "fear", extreme greed or greed by "greed" with or without "extreme", otherwise neutral |
| PatternClassifier.RegimeFromValue | src/patterns/classifier.py:141-152 | each regime as an if-and-only-if: extreme fear up to the first cut point, then fear, neutral and greed each up to the next cut point with `<=` once the earlier tests fail, extreme greed above all four |
| PatternClassifier.ClassifyRegime | src/patterns/classifier.py:118-152 | the text decides when present, else the value with default 50; a regime entry that is not text raises |
| PatternClassifier.ClassifyVolume | src/patterns/classifier.py:154-169 | each bucket as an if-and-only-if: low below the low cut, normal from it to below the high cut, high from that to below the explosive cut, explosive from there up, first match winning |
| PatternClassifier.ClassifySetup | src/patterns/classifier.py:171-184 | oversold below the low cut, overbought above the high cut, neutral otherwise |
| PatternClassifier.BucketsMonotone | src/patterns/classifier.py:141-184 | with ascending cut points a larger volume, RSI or fear-greed value never lands in a lower bucket |
| PatternClassifier.StrategyAgreesWithComponents | src/patterns/classifier.py:94-184 | a momentum entry has an overbought setup, momentum and breakout have high or explosive volume, and oversold RSI never gives momentum |
| PatternClassifier.DisplayNameReadsBack | src/patterns/classifier.py:125-138 | every display spelling of a regime ("Extreme Fear", …, "Extreme Greed") reads back as that regime |
| PatternClassifier.UnderscoreExtremeFearReadsAsFear | src/patterns/classifier.py:127-132 | the identifier spelling `extreme_fear` reads back as plain fear |
| PatternClassifier.UnderscoreExtremeGreedReadsBack | src/patterns/classifier.py:133-134 | the identifier spelling `extreme_greed` reads back as extreme greed |
| PatternClassifier.Confidence | src/patterns/classifier.py:186-210 | the confidence lies in [0.64, 1.0]; it is 1 when neither reading is near a threshold and 0.64 when both are; with exactly one near reading it is 0.8, or 0.96 when the other reading is extreme |
| PatternClassifier.ConfidenceOrdersReadings | src/patterns/classifier.py:196-210 | with the volume fixed, a near RSI gives strictly less confidence than a plain one, and an extreme RSI no less; an extreme RSI gives 0.96 beside a near volume and 1 otherwise |
| PatternClassifier.Classify | src/patterns/classifier.py:50-64 | the four components are those of the four classifiers, or the exception the regime raises |
| PatternClassifier.ClassifyTrade | src/patterns/classifier.py:38-86 | on an exception the table is unchanged and the answer is `unknown`; otherwise the row is created if new and the answer carries the identifier, the components, the stored row and the confidence; unique identifiers stay unique |
| PatternClassifier.ClassifyTradeKeepsRowsClassified | src/patterns/classifier.py:67-77 | every row stays well classified, and the row answered stores exactly the components reported |
| MemoryBridge.FromPattern | src/patterns/database.py:97-102 | the statistics dictionary of a row carries its identifier and rates |
| MemoryBridge.TitleWords | src/patterns/memory_bridge.py:38-43 | `replace('_', ' ').title()`: same length, underscores become spaces, every other character keeps its letter, and a cased character is upper case exactly when it starts a run of cased characters |
| MemoryBridge.PatternRecommendation | src/patterns/memory_bridge.py:144-174 | defaults as in the source (win rate 0, recent rate = win rate, confidence low, 0 trades); each tier as an if-and-only-if: strong above a 0.65 win rate at high confidence, else moderate above 0.55, weak below 0.45, neutral in [0.45, 0.55] |
| MemoryBridge.PatternTierMonotone | src/patterns/memory_bridge.py:152-174 | at equal confidence a higher win rate never gets a weaker tier |
| MemoryBridge.EmptyPatternIsWeak | src/patterns/memory_bridge.py:147-151 | a pattern with no statistics falls to the weak tier |
| MemoryBridge.TradeTierFor | src/patterns/memory_bridge.py:184-207 | successful exactly above +3%, winning in (0, 3], a losing lesson exactly below -2%, a small loss otherwise |
| MemoryBridge.TradeRecommendation | src/patterns/memory_bridge.py:176-207 | the defaults (return 0, symbol UNKNOWN, pattern and exit reason unknown) and the tier of the return |
| MemoryBridge.TradeTierMonotone | src/patterns/memory_bridge.py:184-207 | a larger return never gets a worse tier; a missing return counts as a small loss |
| MemoryBridge.CreatePatternMemory | src/patterns/memory_bridge.py:19-63 | the situation names the symbol and carries the news report and statistics; the advice is the pattern recommendation |
| MemoryBridge.PatternMemoryNamesPattern | src/patterns/memory_bridge.py:44-49 | the pattern memory's news report contains the pattern identifier |
| MemoryBridge.CreateTradeMemory | src/patterns/memory_bridge.py:66-108 | succeeds exactly when the position has a symbol, with the trade recommendation as advice |
| MemoryBridge.CreateHybridMemories | src/patterns/memory_bridge.py:111-142 | exactly two memories, the trade one first, both for the traded symbol rather than the placeholder; a missing symbol raises |
| MemoryBridge.HybridMemoriesNamePattern | src/patterns/memory_bridge.py:135-139 | the pattern memory of a closed position names the pattern |
| MemoryInjector.SituationOf | src/patterns/memory_injector.py:53-76 | the situation names the pattern, its regime written with underscores as spaces in title case, its strategy with underscores as spaces, and its volume and setup |
| MemoryInjector.AdviceFor | src/patterns/memory_injector.py:78-130 | the strength is limited data, moderate or high exactly at low, medium or high confidence; first match wins, each tier as an if-and-only-if: highly successful (win rate > 0.65, recent > 0.70), then positive edge (win rate > 0.55, momentum > 0.05), underperforming (win rate < 0.40 or recent < 0.35), deteriorating (momentum < -0.15), neutral otherwise |
| MemoryInjector.AdviceAgreesWithTable | src/patterns/memory_injector.py:88-123 | for a row derived from its trades the lesson warns of limited data exactly below 20 trades, and a deteriorating pattern is one the summary counts as declining |
| MemoryInjector.RecordInjection | src/patterns/memory_injector.py:331-335 | the id is appended and only the latest `_max_history` ids are kept; the last entry is the id |
| MemoryInjector.Prepare | src/patterns/memory_injector.py:152-183 | the chosen patterns are a subsequence of the batch; ids already in the history, including ids recorded earlier in the same batch, are skipped |
| MemoryInjector.PrepareRoutes | src/patterns/memory_injector.py:160-180 | every chosen pattern goes to the trader, and to bull and judge exactly above a 0.60 win rate, to bear and risk manager exactly below 0.45 |
| MemoryInjector.PrepareHistory | src/patterns/memory_injector.py:331-335 | the history after a batch is the old history followed by the chosen ids, cut to the latest `_max_history` |
| MemoryInjector.PrepareSkipsRecentIds | src/patterns/memory_injector.py:153-183 | no chosen id repeats an id the history still remembers when it is checked, nor one chosen fewer than `_max_history` places earlier |
| MemoryInjector.FreshBatchInjectsEachIdOnce | src/patterns/memory_injector.py:152-183 | starting from an empty history, a batch no longer than the history bound injects each id at most once |
| MemoryInjector.ChannelIndex | src/patterns/memory_injector.py:188 | the position of the named memory, or `None` exactly when no memory has that name |
| MemoryInjector.DeliverNamed | src/patterns/memory_injector.py:188-191 | one delivery succeeds exactly when the batch is empty, the name is absent or that memory is healthy; on success the first memory of that name gains exactly the batch, appended after its entries, and every other memory is unchanged; on failure nothing changes |
| MemoryInjector.DeliverRoutes | src/patterns/memory_injector.py:186-213 | the five deliveries succeed exactly when each of them does; the count is the number of entries added; on success each memory holds its old entries followed by every batch addressed to it, in the order of the deliveries |
| MemoryInjector.InjectPatternBatch | src/patterns/memory_injector.py:132-221 | the history advances before delivery; on success the count is the entries added and each memory holds its old entries followed by the batches routed to it; a learning event listing the whole batch is logged exactly when the count is positive; a failing memory raises |
| MemoryInjector.BatchDeliversByRole | src/patterns/memory_injector.py:153-213 | on success each memory gains exactly its role's lessons from the patterns not injected recently, in pattern order: the trader every pattern, bull and judge those above 0.60, bear and risk manager those below 0.45, other memories nothing |
| MemoryInjector.BatchCountWithAllChannels | src/patterns/memory_injector.py:186-213 | with all five memories present, the count is one per chosen pattern plus two more for each bullish or bearish one |
| MemoryInjector.DeliverEach | src/patterns/memory_injector.py:261-267 | healthy memories take the lesson, failing ones are left as they were, and the names of those that took it are reported in order |
| MemoryInjector.InjectOutcome | src/patterns/memory_injector.py:223-280 | a missing return raises with nothing changed; otherwise the result is true exactly when some memory is healthy, and an `immediate_outcome` event lists the memories that took it |
| MemoryInjector.HealthyCount | src/patterns/memory_injector.py:280 | the count of healthy memories is positive exactly when some memory is healthy |
| MemoryInjector.InjectRegimeTransition | src/patterns/memory_injector.py:282-325 | every healthy memory takes the one lesson; the event lists the breaking then the emerging patterns and every memory name |
| MemoryInjector.ClosedFrameFor | src/patterns/memory_injector.py:449-469 | each framing as an if-and-only-if: bull exactly on a gain for a "bull" memory, bear exactly on a loss for a "bear" memory, risk exactly on a move beyond 3 points for a "risk" memory that neither of those took, the plain lesson otherwise; a flat trade gets the plain lesson |
| MemoryInjector.InjectClosedPosition | src/patterns/memory_injector.py:428-484 | a missing symbol raises with nothing changed; otherwise every healthy memory takes the trade and the pattern memory, the count is twice the healthy memories, and a `position_closed` event is logged |
| MemoryInjector.DeliverEachTwice | src/patterns/memory_injector.py:446-472 | over two rounds each healthy memory takes both lessons in order |
| PatternAnalyzer.AddNew | src/patterns/analyzer.py:234-253 | one loop keeps what was listed before and appends only patterns of its own list, with its tag |
| PatternAnalyzer.AddNewUniqueAndCovers | src/patterns/analyzer.py:231-253 | no id is appended twice, and every id of the list and of what came before ends up listed |
| PatternAnalyzer.AddNewIsUnseen | src/patterns/analyzer.py:234-253 | for a list without repeated ids, one loop appends exactly the patterns whose ids were not seen, in list order |
| PatternAnalyzer.Prioritize | src/patterns/analyzer.py:223-257 | every entry is a breaking pattern tagged critical, a hot one tagged high, or one of the first five top ones tagged normal, and the tags never go back up in priority |
| PatternAnalyzer.PrioritizeCoversEachIdOnce | src/patterns/analyzer.py:231-253 | every id of the breaking, hot and first five top patterns appears exactly once |
| PatternAnalyzer.PrioritizeIsConcatenation | src/patterns/analyzer.py:223-257 | for lists without repeated ids the result is all breaking patterns, then the hot ones not yet listed, then the first five top ones not yet listed |
| PatternAnalyzer.StrongIds | src/patterns/analyzer.py:290-299 | one id per active pattern of that regime with a win rate above 0.60: as many ids as such rows, each id belonging to one of them, and every such row's id listed |
| PatternAnalyzer.StrongIdsBestFirst | src/patterns/database.py:235-244 | the ids are those of a rearrangement of the strong rows of the regime sorted by expectancy, highest first |
| PatternAnalyzer.TopFiveStrongAreBest | src/patterns/analyzer.py:290-306 | a strong pattern of the regime left out of the first five ids means there are five, each naming a strong pattern of the regime with at least its expectancy |
| PatternAnalyzer.RegimeStepAsWritten | src/patterns/analyzer.py:259-319 | as written: the remembered regime becomes the current one, and a transition is reported exactly when a remembered regime differs from it |
| PatternAnalyzer.AsWrittenReportsNoChange | src/patterns/analyzer.py:309-312 | as written, every reported transition has `from_regime` equal to `to_regime` |
| PatternAnalyzer.AsWrittenFearToGreed | src/patterns/analyzer.py:309-312 | after "fear", the regime "greed" is reported as coming from "greed" |
| PatternAnalyzer.RegimeStep | src/patterns/analyzer.py:259-319 | corrected (see Findings): a transition reports the remembered regime as its origin and injects one lesson naming at most five breaking and five emerging patterns; without a transition the injector is unchanged |
| PatternAnalyzer.RegimeStepReportsChange | src/patterns/analyzer.py:281-319 | a reported transition always changes the regime, and the same regime twice in a row never fires |
| PatternAnalyzer.SummaryParts | src/patterns/analyzer.py:321-344 | at most three parts, and none exactly when all three lists are empty (the "No significant patterns found" case) |
| PatternAnalyzer.RunWeekly | src/patterns/analyzer.py:35-101 | corrected (see Findings): the findings count the top and breaking patterns; an exception skips the summary, the deactivation and the timestamp; on success no stale pattern remains; nothing to learn means nothing injected |
| PatternAnalyzer.CriticalOnes | src/patterns/analyzer.py:119-121 | the same rows, with the same multiplicities, as the active patterns with at least 10 trades, win rate above 0.50 and recent win rate below 0.25, the most negative recent-minus-overall delta first |
| PatternAnalyzer.HotOnes | src/patterns/analyzer.py:139-141 | the same rows, with the same multiplicities, as the active patterns with at least 10 trades, recent win rate above 0.80 and above the win rate plus 0.20, the largest improvement first |
| PatternAnalyzer.InjectEach | src/patterns/analyzer.py:121-136 | when no injection raises, the actions name every critical pattern in order |
| PatternAnalyzer.DailyAlerts | src/patterns/analyzer.py:112-151 | one alert per critical pattern, then one per exceptionally hot pattern |
| PatternAnalyzer.DailyCheck | src/patterns/analyzer.py:103-151 | on success the alerts are the daily alerts and the actions name the critical patterns; the analyzer's own state is unchanged |
| PatternAnalyzer.DailyAlertsAreGenuine | src/patterns/analyzer.py:119-149 | every alert of the daily check is about a real row of the table |
| PatternAnalyzer.Surprise | src/patterns/analyzer.py:179-219 | an unexpected failure exactly for a win rate above 0.70 and no gain; an unexpected success exactly for a win rate below 0.30 and a gain above 3 |
| PatternAnalyzer.AnalyzeClosed | src/patterns/analyzer.py:153-221 | without a pattern id an error result and nothing changes; a missing return raises; an unknown pattern gives not-found; the result carries the position's id and return; a surprising outcome injects exactly the outcome built from the position and the pattern's strategy and regime, and otherwise nothing changes |
| PatternAnalyzer.MiddlingPatternsTeachNothing | src/patterns/analyzer.py:182-219 | a pattern with a win rate between 0.30 and 0.70 never triggers a lesson |
| PatternAnalyzer.AdviceOf | src/patterns/analyzer.py:360-379 | an unknown pattern gets win rate 0, expectancy 0 and low confidence |
| PatternAnalyzer.Recommendations | src/patterns/analyzer.py:346-381 | corrected (see Findings), through the cache test it reads: succeeds exactly when every candidate has a symbol; the keys are exactly the candidates' symbols |
| PatternAnalyzer.AddCandidate | src/patterns/analyzer.py:358-379 | one pass of the loop succeeds exactly when the candidate has a symbol; it adds that symbol to the keys and leaves every other symbol's advice alone |
| PatternAnalyzer.AddCandidateFollowsTable | src/patterns/analyzer.py:362-379 | with a coherent cache the candidate's advice is the table's: no pattern without an id, else the pattern's statistics, and the cache stays coherent |
| PatternAnalyzer.TableRecommendations | src/patterns/analyzer.py:356-381 | the recommendations read straight from the table without the cache; every candidate's symbol is a key |
| PatternAnalyzer.TableRecommendationsLastWins | src/patterns/analyzer.py:356-381 | in the cache-free recommendations every symbol maps to the advice of the last candidate carrying it |
| PatternAnalyzer.RecommendationsFollowTable | src/patterns/analyzer.py:356-381 | with a coherent cache the recommendations equal the ones read straight from the table, candidate by candidate, and the cache stays coherent |
| PatternAnalyzer.RecommendationsLastWins | src/patterns/analyzer.py:356-381 | with a coherent cache every symbol maps to the table's advice for the last candidate carrying it |
| BatchProcessor.SafeSerialize | src/batch/tradingagents_batch_processor.py:24-34 | never raises: JSON when the object serialises, else the JSON string of its text form, which is printable ASCII and decodes back to that text, else `{}` |
| BatchProcessor.EscapeChar | src/batch/tradingagents_batch_processor.py:30 | `json.dumps` with `ensure_ascii`: a character is kept as itself exactly when it is printable ASCII other than `"` and `\`; every other character becomes a printable escape (`\n`, `\t`, `\uXXXX`, a surrogate pair beyond U+FFFF) |
| BatchProcessor.Escape | src/batch/tradingagents_batch_processor.py:30 | the escaped text is printable ASCII and never shorter than the text |
| BatchProcessor.UnescapeEscape | src/batch/tradingagents_batch_processor.py:29-31 | the JSON string fallback is lossless: unescaping the escaped text gives the text back |
| BatchProcessor.MatchAt | src/batch/tradingagents_batch_processor.py:192-194 | a match at a position has its keyword there (any case) and captures a non-empty group; for the conviction pattern the group is all digits |
| BatchProcessor.FirstSomeIsLeftmost | src/batch/tradingagents_batch_processor.py:192-200 | the scan finds an entry exactly when one is present, and it finds the leftmost one |
| BatchProcessor.Search | src/batch/tradingagents_batch_processor.py:192-195 | a conviction found by `re.search` is a non-empty run of digits |
| BatchProcessor.SearchFindsLeftmost | src/batch/tradingagents_batch_processor.py:192-200 | `re.search` finds a match exactly when one starts somewhere, and returns the group of the leftmost one |
| BatchProcessor.SearchAtStart | src/batch/tradingagents_batch_processor.py:192-200 | a match at the very start of the text is the one returned |
| BatchProcessor.ParseFloat | src/batch/tradingagents_batch_processor.py:207 | `float` of a run of digits is its decimal value |
| BatchProcessor.ParseDecision | src/batch/tradingagents_batch_processor.py:182-187 | BUY exactly when the upper-cased text contains BUY; SELL exactly when it contains SELL but not BUY; HOLD otherwise |
| BatchProcessor.DecisionIgnoresCase | src/batch/tradingagents_batch_processor.py:184-187 | lower-casing the text never changes the decision |
| BatchProcessor.Conviction | src/batch/tradingagents_batch_processor.py:189-195 | the conviction is never negative, and 50 when no `conviction:` with digits appears |
| BatchProcessor.ConvictionRoundTrip | src/batch/tradingagents_batch_processor.py:192-195 | the text `Conviction: n` reads back as n for every natural n |
| BatchProcessor.ExtractPrice | src/batch/tradingagents_batch_processor.py:198-210 | no match, a captured `N/A`, `NA`, `NONE` or `NULL` in any case, or a capture `float` rejects all give the default; otherwise the parsed value, so a run of digits gives its decimal value |
| BatchProcessor.DigitsAreAvailable | src/batch/tradingagents_batch_processor.py:204-206 | a non-empty run of digits is never one of the not-available words |
| BatchProcessor.EntryPriceRoundTrip | src/batch/tradingagents_batch_processor.py:198-220 | the text `Entry: n` reads back as the entry price n for every natural n |
| BatchProcessor.NotAvailableStopIsDefault | src/batch/tradingagents_batch_processor.py:204-206 | `Stop: N/A` gives the default stop |
| BatchProcessor.Derive | src/batch/tradingagents_batch_processor.py:234-238 | with a positive risk the ratio times the risk is the reward, else the ratio is 1; with a positive entry the expected return times the entry is target minus entry, else 0.05 |
| BatchProcessor.DefaultPricesGiveEvenOdds | src/batch/tradingagents_batch_processor.py:222-238 | with the default stop (-5%) and target (+5%), risk equals reward, the ratio is 1 and the expected return is 5% |
| BatchProcessor.Coerce | src/batch/tradingagents_batch_processor.py:160-175 | a string or non-dict answer becomes a dict with a decision and an empty trader analysis |
| BatchProcessor.DecisionText | src/batch/tradingagents_batch_processor.py:177-180 | a non-empty decision is the decision text |
| BatchProcessor.ParseResult | src/batch/tradingagents_batch_processor.py:154-262 | the decision and conviction come from the decision text; prices missing from it default to the stock's price (100 without one), entry times 0.95 and entry times 1.05; the metrics are derived from the three prices; the risk score is 50 |
| BatchProcessor.TextAnswerIsItsOwnDecision | src/batch/tradingagents_batch_processor.py:160-180 | a string answer is parsed as its own decision text, and the debate history decodes back to it |
| BatchProcessor.BareVerdictIsSkipped | src/batch/tradingagents_batch_processor.py:89-93 | a bare string answer has no `decision` key and is skipped |
| BatchProcessor.AnalyseAll | src/batch/tradingagents_batch_processor.py:74-108 | every candidate is either parsed or counted as failed, and the parsed ones are exactly the usable answers |
| BatchProcessor.AnalysesComeFromAnswers | src/batch/tradingagents_batch_processor.py:89-103 | every parsed row is the parse of a usable answer for its own candidate |
| BatchProcessor.ProcessBatch | src/batch/tradingagents_batch_processor.py:53-152 | the nothing-analysed report exactly when no answer was usable, and then the constructor is not consulted; a constructor exception raises out of the batch; otherwise the counts and the constructor's selections are reported |
| BatchProcessor.BuySignalsCountBuys | src/batch/tradingagents_batch_processor.py:147 | the BUY count is the number of parsed rows whose decision is BUY |
| PatternWrapper.ExtractMemorySystems | src/integrations/pattern_wrapper.py:52-75 | exactly the known memories the graph has, in lookup order, each once; nothing when reading the graph fails |
| PatternWrapper.ExtractedMemoriesAreDistinct | src/integrations/pattern_wrapper.py:58-71 | no memory name is extracted twice |
| PatternWrapper.Init | src/integrations/pattern_wrapper.py:27-50 | the classifier, tracker and analyzer share one database; the injector has one channel per extracted memory, an empty history, and no regime seen |
| PatternWrapper.WithDb | src/integrations/pattern_wrapper.py:35-48 | a database write is seen by every component, and nothing else changes |
| PatternWrapper.AnalyzeWithPatterns | src/integrations/pattern_wrapper.py:77-131 | on success the table is the classifier's, and exactly one trade is added for a stored BUY; a raise adds no trade; the components keep sharing one database |
| PatternWrapper.AnalyzeRaisesForClassifiedTrades | src/integrations/pattern_wrapper.py:90-101 | once classification succeeds the pattern exists when its statistics are read, so the call always reaches the injection that raises |
| PatternWrapper.OnlyBuysAreTracked | src/integrations/pattern_wrapper.py:115-129 | a decision other than BUY leaves the trade history unchanged |
| PatternWrapper.CloseWithPattern | src/integrations/pattern_wrapper.py:133-170 | not tracked exactly when there is no pattern id, and then nothing changes; a missing exit key raises before anything changes; a tracked close names the position's pattern |
| PatternWrapper.MissingGainIsWrittenNull | src/integrations/pattern_wrapper.py:147-157 | the wrapper always passes the gain, drawdown and reason keys, so a position lacking gain or drawdown has NULL written for them, and its reason is written as it is |
| PatternWrapper.CloseKeepsCacheCoherent | src/integrations/pattern_wrapper.py:159-162 | a tracked close keeps the tracker's cache coherent with the table |
| PatternWrapper.RunLearning | src/integrations/pattern_wrapper.py:172-188 | "weekly" runs the weekly analysis, "daily" the daily check; any other frequency is exactly the invalid-frequency answer and changes nothing |
| PortfolioConstructor.CapSectors | src/portfolio/constructor.py:169-179 | the sector loop keeps only rows of its input |
| PortfolioConstructor.CapSectorsKeepsTwo | src/portfolio/constructor.py:169-179 | each sector keeps two rows, or all it has when it has fewer, counting rows already kept |
| PortfolioConstructor.QuantitativeFilter | src/portfolio/constructor.py:154-192 | every row kept is a liquid candidate (volume ratio at least 1), with a conviction of at least 65 when there were more than ten; the result is in descending risk-adjusted score |
| PortfolioConstructor.FilterCapsSectors | src/portfolio/constructor.py:169-179 | at most two rows of any sector survive, and exactly two of a sector with at least two eligible rows |
| PortfolioConstructor.LlmSelection | src/portfolio/constructor.py:236-264 | selected and excluded rows together are exactly the candidates; on a parse failure the first `max_positions` rows and the rest; otherwise selected rows are exactly those whose symbol the model named |
| PortfolioConstructor.Clamp | src/portfolio/constructor.py:348 | a weight always lies in [0.15, 0.35], and one already inside is unchanged |
| PortfolioConstructor.PositionFor | src/portfolio/constructor.py:343-352 | a clamped weight, the percentage as weight times 100 (at least 15), the dollars as capital times weight, and whole shares as dollars over the entry price, truncated |
| PortfolioConstructor.Normalise | src/portfolio/constructor.py:354-359 | a zero total of percentages divides by zero; otherwise only the percentages change |
| PortfolioConstructor.NormaliseSumsTo100 | src/portfolio/constructor.py:354-359 | a non-zero total is normalised to exactly 100 |
| PortfolioConstructor.SizePositionsAsWritten | src/portfolio/constructor.py:328-361 | as written: on success every selected row is priced and sized from its conviction share, with only the percentage rescaled |
| PortfolioConstructor.EmptySelectionRaisesAsWritten | src/portfolio/constructor.py:341-359 | as written, an empty selection has a percentage total of 0 and the normalisation divides by zero |
| PortfolioConstructor.SizePositions | src/portfolio/constructor.py:328-361 | corrected (see Findings): an empty selection is sized to nothing; any other selection is sized as written |
| PortfolioConstructor.SizedKeepsCandidates | src/portfolio/constructor.py:343-352 | sizing keeps the selected rows and their order |
| PortfolioConstructor.SizedPercentagesSumTo100 | src/portfolio/constructor.py:354-359 | the percentages of a sized non-empty selection sum to exactly 100 |
| PortfolioConstructor.SharesFitAllotment | src/portfolio/constructor.py:351-352 | the whole shares never cost more than the dollars allotted, and one more share would |
| PortfolioConstructor.Pick | src/portfolio/constructor.py:78-105 | every selected row is a BUY of the batch; with at most `max_positions` BUYs all of them are selected and the rest excluded |
| PortfolioConstructor.ConstructPortfolio | src/portfolio/constructor.py:50-122 | corrected (see Findings): an empty batch gives empty lists, and so does a batch whose selection is empty; every selection is a BUY of the batch; with few BUYs the selections are exactly the BUYs, sized, and the exclusions exactly the other rows |
| PortfolioConstructor.ConstructPortfolioAsWritten | src/portfolio/constructor.py:50-122 | as written: an empty batch gives empty lists; a non-empty batch whose selection is empty raises; otherwise it agrees with the corrected construction |
| PortfolioConstructor.NoBuyExcludesAll | src/portfolio/constructor.py:78-88 | corrected (see Findings): a batch without a BUY selects nothing and excludes every row, whatever `max_positions` is |
| PortfolioConstructor.NoBuyRaisesAsWritten | src/portfolio/constructor.py:84-88 | as written, a non-empty batch without a BUY raises, where the corrected construction succeeds |
| PortfolioConstructor.ListsNeverGrow | src/portfolio/constructor.py:89-105 | whenever construction succeeds, the two lists together never hold more rows than the batch |
| PortfolioConstructor.PickNeverGrows | src/portfolio/constructor.py:78-105 | the selection and the exclusions together never hold more rows than the batch, whichever branch is taken |
| DataFetcher.QualityScore | src/data/fetcher.py:233-249 | the score lies in [0, 1]; it is 1 exactly when all three conditions hold and 0 exactly when none does |
| DataFetcher.QualityScoreDecodes | src/data/fetcher.py:237-247 | equal scores mean the same number of 0.33 conditions and the same price-above-average answer |
| DataFetcher.QualityScoreMonotone | src/data/fetcher.py:237-247 | meeting more conditions never lowers the score |
| DataFetcher.Normalize | src/data/fetcher.py:43-44 | same length, no '.' left, every other character unchanged |
| DataFetcher.NormalizeIdempotent | src/data/fetcher.py:43-44 | normalising twice is normalising once |
| DataFetcher.FirstAnswer | src/data/fetcher.py:34-56 | an answer exactly when some source answers, and it is the first one |
| DataFetcher.GetUniverse | src/data/fetcher.py:23-59 | a usable cache is served unchanged; otherwise the first answering source, normalised (no '.') and cached; otherwise the fallback list, not cached |
| DataFetcher.FetchedListIsReused | src/data/fetcher.py:27-31 | a fetched non-empty list is served again, unchanged, within a day of fetching |
| DataFetcher.Batches | src/data/fetcher.py:85-96 | ceil(n / 50) batches, each non-empty and at most 50 long |
| DataFetcher.BatchesCoverInOrder | src/data/fetcher.py:93-94 | the batches concatenated are the ticker list |
| DataFetcher.BatchIsSlice | src/data/fetcher.py:93-94 | batch k is the slice from 50k, up to 50 long |
| StockFilter.HardConstraints | src/filtering/filter.py:64-74 | exactly the rows above both minimums: each such row as often as it occurs in the input, every other row never, so as many rows as pass the test |
| StockFilter.MinimumsAreStrict | src/filtering/filter.py:70-71 | a row exactly at either minimum is dropped |
| StockFilter.Clip | src/filtering/filter.py:86-108 | `clip` lands in its range and leaves values inside it unchanged |
| StockFilter.Score | src/filtering/filter.py:76-110 | for a quality in [0, 1] the score lies in [0, 1]; the neutral formula also needs an RSI in [0, 100] |
| StockFilter.ScoreFollowsRegime | src/filtering/filter.py:83-102 | in fear a lower RSI never scores lower, and in greed a higher one never does |
| StockFilter.NeutralPrefersMidRsi | src/filtering/filter.py:104-110 | in a neutral regime an RSI of 50 scores best |
| StockFilter.AboveAverageBonus | src/filtering/filter.py:99-102 | in greed, being above the 20-day average is worth exactly 0.2 over the same row at its average |
| StockFilter.RegimeScoring | src/filtering/filter.py:76-112 | every row with its score, sorted best first; a permutation of the scored rows |
| StockFilter.Label | src/filtering/filter.py:139-144 | top score exactly for rows at or above the threshold, exploration otherwise |
| StockFilter.ExploreCount | src/filtering/filter.py:131-133 | exploration adds at most `int(max_stocks * 0.15)` rows and no more than remain below the threshold |
| StockFilter.SelectCandidates | src/filtering/filter.py:114-146 | for a draw that samples the exploration count of distinct rows from those below the threshold: an empty frame is returned as is; a regime without a percentile raises; otherwise `min(max_stocks, |rows at or above the threshold| + |draw|)` rows, best first, drawn from the scored rows, labelled top score exactly at or above the threshold, exploration rows from the draw, and a row at or above the threshold is left out only when the selection is full of rows scoring at least as well |
| StockFilter.SelectedRowsComeFromInput | src/filtering/filter.py:126-137 | every selected row is one of the scored rows, and every exploration row comes from the draw and scores below the threshold |
| StockFilter.PoolIsFromFrame | src/filtering/filter.py:126-134 | the rows at or above the threshold plus the exploration sample are drawn from the scored rows, none more often than it occurs there |
| StockFilter.Finalists | src/filtering/filter.py:136-144 | `nlargest`: `min(max_stocks, |pool|)` rows of the pool, best first, a row left out only when the result is full of rows scoring at least as well, each labelled top score exactly at or above the threshold |
| StockFilter.RunFullFilter | src/filtering/filter.py:32-62 | no stocks give an empty frame; it raises exactly when some stock passes the hard constraints and the regime has no percentile; at most `max_stocks` rows |
| StockFilter.ScoredRowsAreTradeable | src/filtering/filter.py:32-62 | every scored row is one of the stocks, passed the hard constraints, and carries its regime score |
| StockFilter.SelectedRowsAreTradeable | src/filtering/filter.py:32-62 | every row the full filter keeps, exploration rows included, is one of the stocks, passed the hard constraints, and carries its regime score |
| MockBroker.Lookup | src/brokers/base/mock_broker.py:96 | `symbol in self.positions` holds exactly when some entry has that key |
| MockBroker.Put | src/brokers/base/mock_broker.py:97-105 | after `d[s] = h` the key reads `h` and every other key reads as before; a new key goes at the end, an existing one stays in place; keys stay distinct |
| MockBroker.Remove | src/brokers/base/mock_broker.py:111-112 | after `del d[s]` every other key reads as before, the key is gone, and exactly one entry is dropped when it was present |
| MockBroker.InitialBroker | src/brokers/base/mock_broker.py:12-45 | the given cash, no orders, and 100 AAPL, 50 MSFT and 25 NVDA, each valued at its market price with its unrealised gain against its cost |
| MockBroker.OrderIdsDiffer | src/brokers/base/mock_broker.py:82 | different order numbers never give the same `MOCK_n` id |
| MockBroker.PlaceOrder | src/brokers/base/mock_broker.py:78-115 | the order is filled and appended; a BUY debits cash and adds the shares, opening a position at the fill price when none is held; a SELL credits cash and deletes a position that reaches exactly zero; other actions only record the order; no other symbol changes |
| MockBroker.OrdersStayNumbered | src/brokers/base/mock_broker.py:81-92 | orders keep the ids `MOCK_1` .. `MOCK_n` in order |
| MockBroker.NumberedIdsAreUnique | src/brokers/base/mock_broker.py:82 | no two recorded orders share an id |
| MockBroker.PortfolioSummary | src/brokers/base/mock_broker.py:47-76 | the report raises exactly when some position has a zero `position * avg_cost`; otherwise net liquidation is cash plus market value, buying power four times cash |
| MockBroker.NewBuyKeepsNetLiquidation | src/brokers/base/mock_broker.py:98-106 | buying an unheld symbol moves its cost from cash to market value: net liquidation is unchanged and there is one more position |
| MockBroker.UnheldSellCreditsCash | src/brokers/base/mock_broker.py:108-113 | selling an unheld symbol credits the proceeds and opens no position |
| MockBroker.OversellGoesShort | src/brokers/base/mock_broker.py:109-112 | selling more than is held leaves a negative position rather than deleting it |
| OrderExecutor.PositionSize | src/brokers/ibkr_order_executor.py:134-173 | a zero ATR or price raises; otherwise the smaller of the risk-based and value-based share counts, bumped to one share when that is zero and one share fits |
| OrderExecutor.PositionSizeBounds | src/brokers/ibkr_order_executor.py:150-171 | never more shares than the maximum position value buys; more than the risk budget only for the single-share bump; at least one share exactly when one fits and the risk budget is not negative |
| OrderExecutor.RoundHalfEven | src/brokers/ibkr_order_executor.py:196 | `round` lands within half a unit of its argument |
| OrderExecutor.StopMultiplier | src/brokers/ibkr_order_executor.py:181-186 | 1.5 below a VIX of 15, 2.5 below 30, 3.0 from 30 up |
| OrderExecutor.RawStop | src/brokers/ibkr_order_executor.py:188-194 | never more than 10% below entry, and exactly the ATR distance below it when that is within 10% |
| OrderExecutor.StopLossPrice | src/brokers/ibkr_order_executor.py:175-196 | the stop rounded to cents, so within half a cent of the unrounded stop and never more than 10% (plus half a cent) below entry |
| OrderExecutor.StopBelowEntry | src/brokers/ibkr_order_executor.py:188-196 | a non-negative ATR puts the stop at or below the entry |
| OrderExecutor.NewExecutor | src/brokers/ibkr_order_executor.py:49-82 | orders enabled, no orders tracked, and the whole-percent limits converted to fractions |
| OrderExecutor.ValidateOrder | src/brokers/ibkr_order_executor.py:198-233 | the checks in order, the first failing one giving its message; a zero account value raises once the first three pass; valid exactly when every check passes |
| OrderExecutor.EnableLiveTrading | src/brokers/ibkr_order_executor.py:359-374 | succeeds exactly for the confirmation code; only on the live port does it switch orders on |
| OrderExecutor.DisableOrders | src/brokers/ibkr_order_executor.py:376-379 | switches orders off and nothing else |
| OrderExecutor.LivePortAlwaysRejected | src/brokers/ibkr_order_executor.py:228-230 | on the live port, even after enabling live trading, no order validates |
| OrderExecutor.DisabledRejectsAll | src/brokers/ibkr_order_executor.py:205-206 | after the emergency stop every order is rejected as disabled |
| OrderExecutor.Without | src/brokers/ibkr_order_executor.py:121 | popping an order removes exactly that entry and keeps ids distinct |
| OrderExecutor.OnOrderStatus | src/brokers/ibkr_order_executor.py:110-127 | a pending order takes the new status; Filled moves it to executed, Cancelled and ApiCancelled to failed; events for ids not pending change nothing |
| OrderExecutor.StatusEventConservesOrders | src/brokers/ibkr_order_executor.py:116-127 | a status event never creates or loses an order and keeps pending ids distinct |
| OrderExecutor.TerminalIsFinal | src/brokers/ibkr_order_executor.py:116-127 | once an order has left the pending list, further events for it change nothing |
| OrderExecutor.CancelOrder | src/brokers/ibkr_order_executor.py:333-344 | true exactly when the id is pending and the broker accepts; the order stays pending until its status event |
| OrderExecutor.ExecutionSummary | src/brokers/ibkr_order_executor.py:346-357 | the total is executed plus failed plus pending; the success rate is the executed share in percent, 0 without orders |
| OrderExecutor.FillCountsAsSuccess | src/brokers/ibkr_order_executor.py:117-128 | a fill of a pending order adds one executed order and keeps the total |
| BrokerUtils.IsMarketOpen | src/brokers/ibkr/utils.py:11-23 | closed at the weekend; on a weekday open exactly from 9:30 to 16:00, both included |
| BrokerUtils.IsMarketClosed | src/batch/overnight_processor.py:131-148 | closed at the weekend; on a weekday closed exactly before 9:30 or after 16:00 |
| BrokerUtils.ClosedIsNotOpen | src/batch/overnight_processor.py:131-148 | the overnight check is exactly the negation of the utility check at every instant |
| BrokerUtils.CloseIsInclusive | src/brokers/ibkr/utils.py:14-23 | 16:00 exactly is still open; one microsecond later it is closed |
| BrokerUtils.PositionSize | src/brokers/ibkr/utils.py:38-58 | a zero stop distance or entry raises; otherwise the smaller of the truncated risk-based and affordable share counts |
| BrokerUtils.PositionFitsAccount | src/brokers/ibkr/utils.py:52-58 | for positive inputs the position costs at most 95% of the account and risks at most the risk budget |
| ContextProvider.OdinContext | src/tradingagents/context_provider.py:68-108 | the database source, the queried regimes and candidates, no positions |
| ContextProvider.FallbackContext | src/tradingagents/context_provider.py:192-203 | the fallback source, no positions, the default position count |
| ContextProvider.OpenPositions | src/tradingagents/context_provider.py:122-133 | only positions holding shares are forwarded |
| ContextProvider.ForwardsExactlyOpen | src/tradingagents/context_provider.py:123-124 | a broker position is forwarded exactly when its share count is not zero |
| ContextProvider.IbkrContext | src/tradingagents/context_provider.py:113-152 | no broker data gives no context; otherwise the broker source with the open positions and the summary's figures |
| ContextProvider.CheckRegimeAlignment | src/tradingagents/context_provider.py:184-190 | mean reversion exactly in fear or extreme fear; conservative exactly below five positions |
| ContextProvider.WinnersAndLosersDisjoint | src/tradingagents/context_provider.py:173-174 | no position is both a winner and a loser |
| ContextProvider.AnalyzePositions | src/tradingagents/context_provider.py:171-182 | counts of winners and losers, and the win rate as their percentage, between 0 and 100, 0 without positions |
| ContextProvider.MergeContexts | src/tradingagents/context_provider.py:154-169 | the broker context with the database's regimes and candidates; a regime analysis exactly when there are positions and regimes, against the latest regime |
| ContextProvider.PortfolioContext | src/tradingagents/context_provider.py:53-66 | a database failure gives the fallback; the merged context only when the broker is enabled, connected and answers; otherwise the database context |
| ContextProvider.ContextPositionsHoldShares | src/tradingagents/context_provider.py:53-133 | whatever happens, every position in the context holds shares |
| Migration.ReportFor | src/migrations/apply_migration.py:37-48 | committed exactly without an error; ignored exactly for an operational error mentioning a duplicate column in any case; failed exactly for another exception |
| Migration.Prepare | src/migrations/apply_migration.py:32-36 | a piece runs exactly when, stripped, it is non-empty and not a comment, and it runs stripped |
| Migration.RunStepsArePrepared | src/migrations/apply_migration.py:34-48 | every executed step is a prepared piece with the report its error earns |
| Migration.RunStepsInOrder | src/migrations/apply_migration.py:34 | the steps keep the file's order |
| Migration.RunCoversPrepared | src/migrations/apply_migration.py:34-48 | every prepared piece is executed |
| Migration.ApplyMigration | src/migrations/apply_migration.py:13-55 | a missing file returns false without running anything; true exactly when the file exists and is read, and then the run is the run of its pieces |
| Migration.ErrorsDoNotStopTheRun | src/migrations/apply_migration.py:37-48 | the same statements run in the same order whatever the database raises |
| Migration.JoinedStatementsRunAsWritten | src/migrations/apply_migration.py:32-38 | plain statements joined with ';' run exactly as written, in order |
| Migration.CommentHidesStatement | src/migrations/apply_migration.py:36 | a piece whose first line is a comment is skipped with the statement below it |
| Observer.FindToday | src/feedback/observer.py:133-136 | a row is found exactly when the symbol has one for today, and it is such a row |
| Observer.NewObservation | src/feedback/observer.py:151-168 | a row for the symbol today with the filter columns, missing ones as False, 0 and "unknown", and no later stage recorded |
| Observer.UpdateObservation | src/feedback/observer.py:170-208 | each later stage writes only its own columns; any other stage, the filter stage included, leaves the row as it is |
| Observer.UpdateKeepsIdentity | src/feedback/observer.py:170-208 | a stage update never moves a row to another symbol or day, never closes it, and never touches the filter columns |
| Observer.RecordDecision | src/feedback/observer.py:121-149 | an existing row for today is updated in place; otherwise only the filter stage adds a row |
| Observer.RecordKeepsRows | src/feedback/observer.py:121-168 | the existing rows stay for the same symbols and days, and the symbol has a row for today exactly when it had one or the stage was the filter |
| Observer.ObserveCandidates | src/feedback/observer.py:459-479 | recording the candidates never removes a row |
| Observer.CandidatesAreObserved | src/feedback/observer.py:466-479 | after the filter stage every candidate has a row for today |
| Observer.OutcomeOf | src/feedback/observer.py:219-230 | the bands above 5, above 2, above -2, above -5 and the rest, each exactly |
| Observer.OutcomeMonotone | src/feedback/observer.py:219-230 | a better return never falls in a worse band |
| Observer.WasCorrect | src/feedback/observer.py:239-246 | right exactly for a BUY over 2%, a SELL under -2% or a HOLD within 2% either way |
| Observer.CorrectMatchesBand | src/feedback/observer.py:219-246 | a correct BUY is a win or big win, a correct SELL a loss or big loss, a correct HOLD flat |
| Observer.LatestOpen | src/feedback/observer.py:233-237 | a decision row exactly when the symbol has an open row, and it is one with the latest entry date |
| Observer.UpdateOutcome | src/feedback/observer.py:210-276 | every open row of the symbol gets the exit, its band and the correctness of the latest decision; other rows are unchanged; without an exit date or price nothing changes |
| Observer.OutcomeClosesSymbol | src/feedback/observer.py:249-270 | an outcome closes every open row of the symbol, so a second outcome changes nothing |
| Observer.RecordMissed | src/feedback/observer.py:278-296 | one row is appended; it would have been profitable exactly for a potential gain over 3% |
| Observer.RangeOf | src/feedback/observer.py:372-378 | the conviction buckets 80 and up, 60 to 80, 40 to 60 and below 40, each exactly |
| Observer.BucketsPartitionGraded | src/feedback/observer.py:371-387 | every graded observation falls in exactly one conviction bucket |
| Observer.ObservationReport | src/feedback/observer.py:298-320 | the total counts the observations in the window; fewer than ten give the insufficient-data report; the bucket counts never exceed the total |
| PositionTracker.ExitTargets | src/portfolio/tracker.py:147-160 | the analysis row's stop and target, or stop 0 and no reachable target without one |
| PositionTracker.ExitCheck | src/portfolio/tracker.py:110-125 | stop loss exactly at or below the stop; target exactly above the stop and at or above the target; time limit exactly otherwise after ten days; nothing without exit checks |
| PositionTracker.MissingTargetsOnlyTimeOut | src/portfolio/tracker.py:117-125 | without an analysis row only the time limit closes a position at a positive price |
| PositionTracker.CategoryOf | src/portfolio/tracker.py:185-191 | winner exactly above +3%, loser exactly below -2%, neutral in between |
| PositionTracker.ExitPosition | src/portfolio/tracker.py:162-213 | corrected (see Findings): a zero entry price raises; otherwise only the exit is recorded, with the days held since entry, the percentage and dollar P&L and its category |
| PositionTracker.UpdateMetrics | src/portfolio/tracker.py:215-241 | the running maximum gain and drawdown, a missing one read as 0, and the days held; nothing else changes |
| PositionTracker.UpdateAll | src/portfolio/tracker.py:215-241 | after at least one update both extremes are recorded; no update changes nothing |
| PositionTracker.GainIsRunningMaximum | src/portfolio/tracker.py:232 | after a run of updates the maximum gain is the largest of 0, the old value and every observed return, and is one of them |
| PositionTracker.UpdateOne | src/portfolio/tracker.py:99-145 | corrected (see Findings): a closed position, a failed quote or a zero entry price leaves the position unchanged; otherwise it exits for the reason the exit rule gives at the quote, or its metrics are updated with the days held; the identity never changes |
| PositionTracker.UpdatePositions | src/portfolio/tracker.py:82-145 | corrected (see Findings): every position is updated on its own quote and targets |
| PositionTracker.ReadEntryDate | src/portfolio/tracker.py:93 | the entry date comes back from the query as the text of the day written at entry |
| PositionTracker.DaysSince | src/portfolio/tracker.py:107 | the subtraction gives the days between for a date and raises exactly for text |
| PositionTracker.UpdateOneAsWritten | src/portfolio/tracker.py:99-145 | as written: the subtraction at line 107 raises, the `except` at line 144 catches it, and the position is left exactly as it was |
| PositionTracker.UpdatePositionsAsWritten | src/portfolio/tracker.py:82-145 | as written: no position ever changes |
| PositionTracker.ExitPositionAsWritten | src/portfolio/tracker.py:177-181 | as written: a found row always raises at the subtraction, before anything is written |
| PositionTracker.AsWrittenStopLossStaysOpen | src/portfolio/tracker.py:107-145 | an open position bought at 100 with a stop at 95 and quoted at 90 exits with a stop loss in the corrected update, and stays open as written; a direct exit succeeds corrected and raises as written |
| PositionTracker.ClosedStaysClosed | src/portfolio/tracker.py:88-91 | a closed position is never touched again |
| PositionTracker.SelectedExcludedPartition | src/portfolio/tracker.py:269-270 | selected and excluded rows split the closed positions |
| PositionTracker.Best | src/portfolio/tracker.py:292 | `nlargest(1)` is a row with the highest return |
| PositionTracker.Worst | src/portfolio/tracker.py:301 | `nsmallest(1)` is a row with the lowest return |
| PositionTracker.FeedbackOf | src/portfolio/tracker.py:268-306 | the counts are the numbers of selected and excluded rows; each average return times its count is the group's total return, and each win rate times its count is the group's number of winners, both 0 for an empty group; the edge is the difference of averages only with both groups present; a best missed trade exactly with excluded rows, a row of them with the highest return; a worst selection exactly with selected rows, a row of them with the lowest return |
| PositionTracker.MeanScales | src/portfolio/tracker.py:278 | the pandas mean of the returns times their number is their total |
| PositionTracker.WinRateScales | src/portfolio/tracker.py:279 | the mean of the winner test times the count is the number of winners |
| PositionTracker.FeedbackFiguresBracketed | src/portfolio/tracker.py:272-306 | each group's average return lies between its worst and best row, so the worst selection is no better than the selected average and the best miss no worse than the excluded average; the win rates are fractions |
| PositionTracker.AnalyzeFeedbackAsWritten | src/portfolio/tracker.py:243-311 | as written: no closed position gives the message |
| PositionTracker.FeedbackRaisesAsWritten | src/portfolio/tracker.py:309-326 | as written, any closed position makes the save call `json.dumps`, and `json` is never imported, so the call raises |
| PositionTracker.AnalyzeFeedback | src/portfolio/tracker.py:243-311 | corrected (see Findings): the message exactly when nothing closed in the window, else the report |
| RegimeDetector.VixFallback | src/regime/detector.py:98-111 | a reading in [0, 100); each reading as an if-and-only-if: Greed (65) below a VIX of 15, Neutral (50) in [15, 20), Fear (35) in [20, 30), Extreme Fear (15) from 30 |
| RegimeDetector.VixFallbackAntitone | src/regime/detector.py:104-111 | a higher VIX never gives a greedier reading |
| RegimeDetector.RegimeName | src/regime/detector.py:118-126 | a known regime: the first band containing the value, or neutral when none does |
| RegimeDetector.VixFallbackLabelMatchesRegime | src/regime/detector.py:98-126 | the fallback's label, spelled as a regime name, is the regime its value falls in |
| RegimeDetector.Interpret | src/regime/detector.py:113-156 | the regime of the value and its table entries; the strategy is mean reversion exactly above a VIX of 30 or in a fear regime, momentum exactly in a greed regime at a VIX up to 30, mixed otherwise; the expected win rate is the larger of 0.80 and the table's above a VIX of 30, the table's otherwise; volatility high above 30, low below 15, normal between |
| Settings.FirstBand | src/regime/detector.py:120-123 | a band name only for a band containing the value, the first such; none exactly when no band contains it |
| Settings.ThresholdTableWellFormed | config/settings.py:7-13 | the bands run from 0 to 100, each starting where the previous one ends, and each is a known regime |
| Settings.TablesOrderedByFear | config/settings.py:16-31 | the more fearful the regime, the larger the position multiplier and the lower the filter percentile |
| Settings.ThresholdTableCovers | config/settings.py:7-13 | every value in [0, 100) lies in some band |
| Numbers.Trunc | src/portfolio/constructor.py:351 | `int(x)` truncates toward zero: within one unit of x, on the side of zero |
| Text.Strip | src/migrations/apply_migration.py:35 | `strip()` removes exactly the leading and trailing whitespace: the result is a slice of the text, everything before and after it is whitespace, and it neither starts nor ends with whitespace |
| Text.StripEmptyIffBlank | src/migrations/apply_migration.py:35-36 | a statement strips to nothing exactly when it is all whitespace, which is when the migration skips it |
| Text.Split | src/migrations/apply_migration.py:32 | `split(';')` gives at least one piece, none containing the separator |
| Text.SplitJoin | src/migrations/apply_migration.py:32 | joining the pieces with the separator gives the text back |
| Text.JoinSplit | src/migrations/apply_migration.py:32 | splitting separator-free pieces joined with the separator gives the pieces back |

## Left out

- `classify_batch`, `get_pattern_distribution` and `validate_classification` (src/patterns/classifier.py:212-309): reporting loops over the single-trade classification, which is modelled.
- `get_pattern_report` (src/patterns/tracker.py:206-233): a read-only report over the pattern table.
- `get_recent_lessons` and `detect_regime_transition` (src/patterns/database.py:371-411): a plain query, and a pandas computation over the regime history.
- `inject_tradingagents_compatible_memories` (src/patterns/memory_injector.py:356-426): it calls `format_pattern_for_tradingagents`, which the bridge does not define, so it always raises. It is modelled only as that raise, inside `PatternWrapper.AnalyzeWithPatterns`.
- `inject_pattern_batch_with_context` (src/patterns/memory_injector.py:486-539): a loop over the single injection, which is modelled.
- `initialize_pattern_memories` (src/integrations/pattern_wrapper.py:196-226): a module-level setup script that prints what it finds.
- `enter_positions` and `_track_excluded_positions` (src/portfolio/tracker.py:24-80): plain inserts with no logic beyond the row they write.
- `close_position_with_pattern_learning` (src/portfolio/tracker.py:331 on): it reads `self.conn`, which the class never sets, so it raises before doing any work.
- PositionTracker.UpdateOne: a zero entry price gives an infinite return through numpy in the code; the model leaves the position unchanged, because reals have no infinity.
- PortfolioConstructor.PositionFor: Python's `round` of the percentage and the dollar amount is not modelled; the figures are exact reals.
- PortfolioConstructor.Normalise: the same rounding is left out, so the normalised percentages sum to exactly 100.
- The LLM prompt and `llm.invoke` in src/portfolio/constructor.py: the model's answer is a parameter. `_fetch_analysis_results` and `_save_selections` are queries and inserts.
- `fetch_all_sp500` beyond its batching, and `calculate_metrics`, `_calculate_rsi` and `_calculate_atr` (src/data/fetcher.py): network access and pandas rolling windows.
- `save_filter_results` and `get_filter_stats` (src/filtering/filter.py): database writes and a report. The score percentile and the random exploration sample are parameters, not computed.
- `_save_analysis_result` (src/batch/tradingagents_batch_processor.py): an insert. The batch id, the clock and the timestamps are inputs.
- `get_current_regime`, `_get_fear_greed_cached` and `_get_vix` (src/regime/detector.py): network calls with a 900-second cache; the index values are inputs.
- `connect`, `place_market_order`, the stop orders, the dry run, `place_order_sync`, `get_order_status` and `get_pending_orders` (src/brokers/ibkr_order_executor.py): broker network calls. The two copies of the executor differ only in the characters of printed messages, so they are modelled once.
- The observer's report aggregates other than the conviction counts, `print_observation_summary` and `create_observation_tables` (src/feedback/observer.py): formatting and DDL.
- MockBroker: its random prices are parameters. A BUY into a symbol already held leaves `market_value` stale, as the code does.
- `verify_migration` (src/migrations/apply_migration.py): a read-only listing of the tables.
- Message prose in lessons and reports is modelled as what the message says (its tier and figures), not its wording.
- Text.LowerChar, Text.UpperChar and Text.Title map only the ASCII letters, where Python's `lower`, `upper` and `title` follow Unicode case mappings; the texts they read (regime names, decisions, identifiers, memory names) are ASCII in the code's own use. Whitespace for `strip` is Python's full set.
- PatternClassifier.ClassifyTrade: a metric key present with the value `None` (say `rsi_2`) makes the comparisons raise `TypeError`, which `classify_trade` catches and answers `unknown`; the model reads such a key as missing and uses its default.
- BatchProcessor.MatchAt, BatchProcessor.Search, BatchProcessor.ParseFloat: digits are the ASCII digits and the keyword match folds ASCII case only. Python's `\d`, `re.IGNORECASE` and `float()` also accept other Unicode decimal digits and case foldings, so a reply written with those is read differently; LLM replies in the code's use are ASCII.
- PatternTracker.EntryRow: a missing symbol, which SQL stores as NULL, is written as the empty string. An exit recorded under the empty symbol would match such a row, where SQL's `symbol = ''` does not match NULL.
- MemoryBridge.PatternRecommendation: a key present with the value `None` (say `win_rate`) reaches a comparison or a `:.1%` format and raises `TypeError` in the code; the model has no such value and uses the `.get` default.
- MemoryBridge.TradeRecommendation: likewise, a `pnl_percent` present as `None` raises at its comparison in the code, and a `symbol` present as `None` is printed as `None`; the model uses the defaults.
- PatternAnalyzer.AnalyzeClosed: a `pnl_percent` present as `None` passes the index at analyzer.py:169 and raises `TypeError` at the comparison on line 180, after the not-found answer for an unknown pattern; the model reads it as missing, which raises `KeyError` before the lookup.
- Observer.UpdateObservation, Observer.NewObservation: a stage value present as `None` is written as NULL in the code; the model writes the `.get` default.
- Observer.UpdateOutcome: a `pnl_percent` present as `None` makes the band comparison raise inside the `try`, so the code logs and changes nothing; the model reads it as 0. An exit date or price present as `None` is written as NULL in the code; the model reads it as missing, which raises and changes nothing.
- BatchProcessor.Unescape accepts only the lower-case hex digits `json.dumps` writes; `json.loads` also accepts upper case. This only narrows the decoder used to state the round trip.
- The `DEFAULT_*` and `PATTERN_*` settings the code imports are not defined in config/settings.py; they are parameters of the model.

## Findings

| source | as written | input that shows it | evidently intended | confidence | as-written member | corrected member |
|---|---|---|---|---|---|---|
| src/patterns/tracker.py:126 | the cache age and the clean-up interval are read with `timedelta.seconds`, which drops whole days (the clean-up test at line 282 likewise) | an entry cached at t=0 and read at t=86410 is served as fresh; a clean-up due at 86460 s is skipped | compare the total elapsed seconds | not executed | PatternTracker.CacheFreshAsWrittenServesDayOldEntry, PatternTracker.CleanDueAsWrittenSkipsAfterADay | PatternTracker.GetContext, PatternTracker.Clean |
| src/patterns/analyzer.py:309-312 | `from_regime` is read after the remembered regime has been overwritten with the current one | "fear" followed by "greed" is reported as greed to greed | report the previous regime as the origin | not executed | PatternAnalyzer.AsWrittenFearToGreed | PatternAnalyzer.RegimeStepReportsChange |
| src/portfolio/constructor.py:355-359 | the percentages are divided by their total without a zero check | a non-empty batch with no BUY (line 85 sets `selections = []`), or one whose answer selects no BUY, gives an empty selection, a total of 0 and a division by zero | return an empty portfolio | not executed | PortfolioConstructor.EmptySelectionRaisesAsWritten, PortfolioConstructor.ConstructPortfolioAsWritten, PortfolioConstructor.NoBuyRaisesAsWritten | PortfolioConstructor.SizedPercentagesSumTo100, PortfolioConstructor.ConstructPortfolio, PortfolioConstructor.NoBuyExcludesAll |
| src/portfolio/tracker.py:326 | `_save_feedback_analysis`, called at line 309, serialises with `json.dumps`, but `json` is never imported (imports at lines 6-11) | any closed position in the lookback window raises `NameError` | import `json` and save the feedback | not executed | PositionTracker.FeedbackRaisesAsWritten | PositionTracker.AnalyzeFeedback |
| src/portfolio/tracker.py:107 | `datetime.now().date() - pos['entry_date']` subtracts the entry date as the query returns it, which is SQLite's text because the connection (src/data/database.py:41) is opened without `detect_types`; the `TypeError` is caught at line 144, and `_exit_position` raises the same way at line 181 | an open position bought at 100 with its stop at 95 and quoted at 90 stays open with no metrics, where the exit rule calls for a stop-loss exit | read the entry date back as a date and count the days held | not executed | PositionTracker.UpdateOneAsWritten, PositionTracker.ExitPositionAsWritten, PositionTracker.AsWrittenStopLossStaysOpen | PositionTracker.UpdateOne, PositionTracker.ExitPosition, PositionTracker.UpdatePositions |
