/** The pattern tracker (`src/patterns/tracker.py`): entry and exit
    bookkeeping on top of the pattern database, the per-pattern context
    handed to the decision makers, and a context cache. The clock is a
    parameter counting whole seconds. */
module PatternTracker {

  import opened Wrappers
  import opened Seqs
  import opened PatternStore

  // ------------------------------------------------------------------
  // Context of one pattern
  // ------------------------------------------------------------------

  datatype MomentumLabel = StronglyImproving | Improving | Stable | Declining | StronglyDeclining

  /** The recommendation tiers; each stands for one sentence of advice. */
  datatype Advice = LowConfidence | HotPattern | ColdPattern | Profitable | Losing | NeutralPattern

  datatype Context =
    | Unknown(id: string)
    | Known(
        id: string,
        totalTrades: nat,
        winRate: real,
        recentWinRate: real,
        expectancy: real,
        confidence: Confidence,
        momentum: MomentumLabel,
        recentTrades: seq<real>,
        advice: Advice)

  /** `_describe_momentum` */
  function DescribeMomentum(score: real): (l: MomentumLabel)
    ensures l == StronglyImproving <==> score > 0.15
    ensures l == Improving <==> 0.05 < score <= 0.15
    ensures l == Stable <==> -0.05 <= score <= 0.05
    ensures l == Declining <==> -0.15 <= score < -0.05
    ensures l == StronglyDeclining <==> score < -0.15
  {
    if score > 0.15 then StronglyImproving
    else if score > 0.05 then Improving
    else if score < -0.15 then StronglyDeclining
    else if score < -0.05 then Declining
    else Stable
  }

  function MomentumRank(l: MomentumLabel): nat
  {
    match l
    case StronglyDeclining => 0
    case Declining => 1
    case Stable => 2
    case Improving => 3
    case StronglyImproving => 4
  }

  /** A higher score never gets a lower label. */
  lemma DescribeMomentumMonotone(a: real, b: real)
    requires a <= b
    ensures MomentumRank(DescribeMomentum(a)) <= MomentumRank(DescribeMomentum(b))
  {
  }

  /** A pattern winning most of its recent trades with rising momentum. */
  predicate Hot(p: Pattern)
  {
    p.recentWinRate > 0.70 && p.momentum > 0.1
  }

  /** `_generate_recommendation`: first match wins. */
  function Recommend(p: Pattern): (a: Advice)
    ensures a == LowConfidence <==> p.confidence == Low
    ensures a == HotPattern <==> p.confidence != Low && Hot(p)
    ensures a == ColdPattern <==> p.confidence != Low && p.recentWinRate < 0.35
    ensures a == Profitable <==> p.confidence != Low && !Hot(p) && p.recentWinRate >= 0.35 && p.expectancy > 0.02
    ensures a == Losing <==> p.confidence != Low && !Hot(p) && p.recentWinRate >= 0.35 && p.expectancy < -0.01
    ensures a == NeutralPattern <==>
      p.confidence != Low && !Hot(p) && p.recentWinRate >= 0.35 && -0.01 <= p.expectancy <= 0.02
  {
    if p.confidence == Low then LowConfidence
    else if Hot(p) then HotPattern
    else if p.recentWinRate < 0.35 then ColdPattern
    else if p.expectancy > 0.02 then Profitable
    else if p.expectancy < -0.01 then Losing
    else NeutralPattern
  }

  /** With the confidence tier derived from the trade count, a pattern is
      reported as low confidence exactly while it has fewer than 20 trades. */
  lemma LowConfidenceUntilTwentyTrades(p: Pattern)
    requires DerivedMatch(p)
    ensures Recommend(p) == LowConfidence <==> p.totalTrades < 20
  {
  }

  /** The context built from a row: its statistics, the momentum label, at
      most the last five window entries and the advice. */
  function ContextOf(p: Pattern): (c: Context)
    ensures c.Known? && c.id == p.id && c.totalTrades == p.totalTrades
    ensures |c.recentTrades| <= 5 && c.recentTrades == Last(p.recentTrades, 5)
  {
    Known(p.id, p.totalTrades, p.winRate, p.recentWinRate, p.expectancy, p.confidence,
          DescribeMomentum(p.momentum), Last(p.recentTrades, 5), Recommend(p))
  }

  /** The context `get_pattern_context` computes from the table. */
  function FreshContext(t: seq<Pattern>, id: string): (c: Context)
    ensures c.Unknown? <==> !HasId(t, id)
    ensures c.id == id
  {
    match GetStats(t, id)
    case None => Unknown(id)
    case Some(p) => ContextOf(p)
  }

  // ------------------------------------------------------------------
  // Alerts
  // ------------------------------------------------------------------

  datatype Alert = NoAlert | Breakdown | HotAlert

  /** `_check_pattern_alerts`: breakdown takes precedence over emergence. */
  function AlertFor(p: Pattern): (a: Alert)
    ensures a == Breakdown <==> p.totalTrades >= 20 && p.recentWinRate < 0.30
    ensures a == HotAlert <==> !(p.totalTrades >= 20 && p.recentWinRate < 0.30) && p.totalTrades >= 10 && p.recentWinRate > 0.80
  {
    if p.totalTrades >= 20 && p.recentWinRate < 0.30 then Breakdown
    else if p.totalTrades >= 10 && p.recentWinRate > 0.80 then HotAlert
    else NoAlert
  }

  /** A breakdown alert and the advice agree: the pattern is reported cold. */
  lemma BreakdownIsCold(p: Pattern)
    requires DerivedMatch(p)
    requires AlertFor(p) == Breakdown
    ensures Recommend(p) == ColdPattern
  {
  }

  /** A hot alert on an established pattern that is improving is reported hot. */
  lemma HotAlertIsHot(p: Pattern)
    requires DerivedMatch(p)
    requires AlertFor(p) == HotAlert && p.totalTrades >= 20 && p.momentum > 0.1
    ensures Recommend(p) == HotPattern
  {
  }

  // ------------------------------------------------------------------
  // Cache
  // ------------------------------------------------------------------

  const CacheTimeout: int := 300
  const CleanInterval: int := 3600

  /** Python's `timedelta.seconds` of a whole-second difference: the
      seconds part only, the days dropped. */
  function TimedeltaSeconds(elapsed: int): (s: int)
    ensures 0 <= s < 86400
    ensures 0 <= elapsed < 86400 ==> s == elapsed
  {
    elapsed % 86400
  }

  /** The freshness test as written: `.seconds < 300`. */
  predicate CacheFreshAsWritten(elapsed: int)
  {
    TimedeltaSeconds(elapsed) < CacheTimeout
  }

  /** The freshness test as intended: less than 300 seconds in total. */
  predicate CacheFresh(elapsed: int)
  {
    elapsed < CacheTimeout
  }

  /** The two tests agree within a day, and the written one serves an entry
      cached a day and ten seconds ago. */
  lemma CacheFreshAsWrittenServesDayOldEntry()
    ensures forall e :: 0 <= e < 86400 ==> (CacheFreshAsWritten(e) <==> CacheFresh(e))
    ensures CacheFreshAsWritten(86410) && !CacheFresh(86410)
  {
  }

  /** The clean-up test as written: `.seconds > 3600`. */
  predicate CleanDueAsWritten(elapsed: int)
  {
    TimedeltaSeconds(elapsed) > CleanInterval
  }

  predicate CleanDue(elapsed: int)
  {
    elapsed > CleanInterval
  }

  /** A day and a minute after the last clear the written test does not
      clear; the intended one does. */
  lemma CleanDueAsWrittenSkipsAfterADay()
    ensures !CleanDueAsWritten(86460) && CleanDue(86460)
  {
  }

  datatype CacheEntry = CacheEntry(context: Context, stamp: int)

  datatype Tracker = Tracker(db: Db, cache: map<string, CacheEntry>, lastClear: int)

  /** `_invalidate_cache`: removes exactly that key. */
  function Invalidate(tr: Tracker, id: string): (r: Tracker)
    ensures id !in r.cache
    ensures forall k :: k in tr.cache && k != id ==> k in r.cache && r.cache[k] == tr.cache[k]
    ensures forall k :: k in r.cache ==> k in tr.cache
    ensures r.db == tr.db && r.lastClear == tr.lastClear
  {
    tr.(cache := tr.cache - {id})
  }

  /** `_clean_cache`, with the intended elapsed-time test. */
  function Clean(tr: Tracker, now: int): (r: Tracker)
    ensures r.db == tr.db
    ensures CleanDue(now - tr.lastClear) ==> r.cache == map[] && r.lastClear == now
    ensures !CleanDue(now - tr.lastClear) ==> r == tr
  {
    if CleanDue(now - tr.lastClear) then tr.(cache := map[], lastClear := now) else tr
  }

  /** `get_pattern_context`: a fresh cached context, else the one computed
      from the table, which is cached when the pattern exists. */
  function GetContext(tr: Tracker, id: string, now: int): (r: (Tracker, Context))
    ensures r.0.db == tr.db
    ensures id in tr.cache && CacheFresh(now - tr.cache[id].stamp) ==> r == (tr, tr.cache[id].context)
    ensures !(id in tr.cache && CacheFresh(now - tr.cache[id].stamp)) ==> r.1 == FreshContext(tr.db.patterns, id)
    ensures forall k :: k in r.0.cache ==> k in tr.cache || (k == id && r.0.cache[k] == CacheEntry(r.1, now))
  {
    if id in tr.cache && CacheFresh(now - tr.cache[id].stamp) then (tr, tr.cache[id].context)
    else
      match GetStats(tr.db.patterns, id)
      case None => (tr, Unknown(id))
      case Some(p) =>
        var c := ContextOf(p);
        (Clean(tr.(cache := tr.cache[id := CacheEntry(c, now)]), now), c)
  }

  /** Every cached context is the one the table gives now. */
  ghost predicate Coherent(tr: Tracker)
  {
    forall k :: k in tr.cache ==> tr.cache[k].context == FreshContext(tr.db.patterns, k)
  }

  /** With a coherent cache, asking for a context always answers what the
      table says, and the cache stays coherent. */
  lemma GetContextAnswersTable(tr: Tracker, id: string, now: int)
    requires Coherent(tr)
    ensures GetContext(tr, id, now).1 == FreshContext(tr.db.patterns, id)
    ensures Coherent(GetContext(tr, id, now).0)
  {
  }

  // ------------------------------------------------------------------
  // Entry and exit
  // ------------------------------------------------------------------

  /** The entry fields the tracker reads; a missing key is `None`. */
  datatype EntryData = EntryData(
    batchId: string,
    symbol: Option<string>,
    entryDate: int,
    entryPrice: real,
    decision: Option<string>,
    conviction: Option<real>,
    positionSizePct: Option<real>)

  /** The history row `track_entry` writes, with its defaults. A missing
      symbol, which SQL stores as NULL, is written as the empty string. */
  function EntryRow(id: string, e: EntryData): (r: TradeRecord)
    ensures r.patternId == id && r.exit.None?
    ensures e.symbol.Some? ==> r.symbol == e.symbol.value
    ensures r.decision == e.decision.GetOr("BUY") && r.positionSizePct == e.positionSizePct.GetOr(5.0)
  {
    TradeRecord(id, e.batchId, e.symbol.GetOr(""), e.entryDate, e.entryPrice,
                e.decision.GetOr("BUY"), e.conviction.GetOr(50.0), e.positionSizePct.GetOr(5.0), None)
  }

  /** `track_entry`. `stored` is whether the history insert succeeded.
      After a successful insert, logging `entry_data['symbol']` raises
      when the symbol is missing, so the call then reports failure with
      the row written and the cache left alone. Statistics never change. */
  function TrackEntry(tr: Tracker, id: string, e: EntryData, stored: bool): (r: (Tracker, bool))
    ensures r.0.db.patterns == tr.db.patterns && r.0.lastClear == tr.lastClear
    ensures r.1 <==> stored && e.symbol.Some?
    ensures !stored ==> r.0 == tr
    ensures stored ==> r.0.db == RecordTrade(tr.db, EntryRow(id, e))
    ensures r.1 ==> r.0.cache == tr.cache - {id}
    ensures !r.1 ==> r.0.cache == tr.cache
  {
    if !stored then (tr, false)
    else
      var tr1 := tr.(db := RecordTrade(tr.db, EntryRow(id, e)));
      if e.symbol.None? then (tr1, false)
      else (Invalidate(tr1, id), true)
  }

  /** Entry tracking keeps the cache coherent: it never changes statistics. */
  lemma TrackEntryKeepsCoherent(tr: Tracker, id: string, e: EntryData, stored: bool)
    requires Coherent(tr)
    ensures Coherent(TrackEntry(tr, id, e, stored).0)
  {
  }

  /** The exit fields the tracker reads; a missing key is `None`. For the
      three keys read with a default, `None` is a missing key and
      `Some(None)` a key present with the value `None`. */
  datatype ExitData = ExitData(
    batchId: Option<string>,
    symbol: Option<string>,
    pnlPercent: Option<real>,
    holdingDays: Option<int>,
    exitDate: Option<int>,
    exitPrice: Option<real>,
    exitReason: Option<Option<string>>,
    maxGainPercent: Option<Option<real>>,
    maxDrawdownPercent: Option<Option<real>>)

  /** The exit written onto the history rows: a missing reason becomes
      "unknown" and a missing gain or drawdown 0, while a key present with
      `None` is written as NULL. */
  function ExitRow(x: ExitData): (r: ExitRecord)
    ensures r.exitDate == x.exitDate && r.exitPrice == x.exitPrice
    ensures r.holdingDays == x.holdingDays && r.pnlPercent == x.pnlPercent
    ensures x.exitReason.None? ==> r.exitReason == Some("unknown")
    ensures x.exitReason.Some? ==> r.exitReason == x.exitReason.value
    ensures x.maxGainPercent.None? ==> r.maxGainPercent == Some(0.0)
    ensures x.maxGainPercent.Some? ==> r.maxGainPercent == x.maxGainPercent.value
    ensures x.maxDrawdownPercent.None? ==> r.maxDrawdownPercent == Some(0.0)
    ensures x.maxDrawdownPercent.Some? ==> r.maxDrawdownPercent == x.maxDrawdownPercent.value
  {
    ExitRecord(x.exitDate, x.exitPrice, DictGet(x.exitReason, "unknown"), x.holdingDays, x.pnlPercent,
               DictGet(x.maxGainPercent, 0.0), DictGet(x.maxDrawdownPercent, 0.0))
  }

  /** `track_exit`: writes the exit onto the history, then applies the
      trade to the pattern's statistics; only when that succeeds is the
      pattern's cache entry dropped and the alert check run. A missing
      batch or symbol raises before anything is written; a missing return
      or holding period raises after the history is written. */
  function TrackExit(tr: Tracker, id: string, x: ExitData, today: int): (r: (Tracker, bool, Alert))
    ensures r.0.lastClear == tr.lastClear
    ensures r.1 <==> x.batchId.Some? && x.symbol.Some? && x.pnlPercent.Some? && x.holdingDays.Some? && HasId(tr.db.patterns, id)
    ensures (x.batchId.None? || x.symbol.None?) ==> r.0 == tr
    ensures !r.1 ==> r.0.db.patterns == tr.db.patterns && r.0.cache == tr.cache && r.2 == NoAlert
    ensures r.1 ==> (r.0.db.patterns == UpdatePerformance(tr.db.patterns, id, x.pnlPercent.value, today).0
                 && r.0.cache == tr.cache - {id}
                 && r.2 == AlertFor(GetStats(r.0.db.patterns, id).value))
  {
    if x.batchId.None? || x.symbol.None? then (tr, false, NoAlert)
    else
      var db1 := RecordTradeExit(tr.db, x.batchId.value, x.symbol.value, ExitRow(x));
      var tr1 := tr.(db := db1);
      if x.pnlPercent.None? || x.holdingDays.None? then (tr1, false, NoAlert)
      else
        var u := UpdatePerformance(db1.patterns, id, x.pnlPercent.value, today);
        if !u.1 then (tr1, false, NoAlert)
        else
          var tr2 := Invalidate(tr1.(db := db1.(patterns := u.0)), id);
          var found := GetStats(u.0, id);
          FindSameIds(db1.patterns, u.0, id);
          (tr2, true, AlertFor(found.value))
  }

  /** Exit tracking keeps the cache coherent: the one pattern whose
      statistics change has its cached context dropped. */
  lemma TrackExitKeepsCoherent(tr: Tracker, id: string, x: ExitData, today: int)
    requires Coherent(tr)
    ensures Coherent(TrackExit(tr, id, x, today).0)
  {
    var r := TrackExit(tr, id, x, today);
    if r.1 {
      forall k | k in r.0.cache
        ensures r.0.cache[k].context == FreshContext(r.0.db.patterns, k)
      {
        UpdatePerformanceKeepsOthers(tr.db.patterns, id, x.pnlPercent.value, today, k);
      }
    }
  }

  // ------------------------------------------------------------------
  // Best strategy for a regime
  // ------------------------------------------------------------------

  datatype StrategyStats = StrategyStats(strategy: string, avgExpectancy: real, avgWinRate: real, count: nat)

  function OfStrategy(s: string): Pattern -> bool
  {
    (p: Pattern) => p.components.strategy == s
  }

  /** The strategy types of `ps`, in order of first appearance. */
  function StrategyNames(ps: seq<Pattern>): seq<string>
  {
    Distinct(seq(|ps|, i requires 0 <= i < |ps| => ps[i].components.strategy))
  }

  /** The group of one strategy type, with its mean expectancy and win rate. */
  function GroupStats(ps: seq<Pattern>, s: string): (g: StrategyStats)
    ensures g.strategy == s
  {
    var grp := Filter(ps, OfStrategy(s));
    StrategyStats(s, AvgOf(Sum(Expectancies(grp)), |grp|), AvgOf(Sum(WinRates(grp)), |grp|), |grp|)
  }

  /** The `strategies` dictionary: one group per strategy type, in order of
      first appearance. */
  function Groups(ps: seq<Pattern>): (gs: seq<StrategyStats>)
    ensures var names := StrategyNames(ps);
      |gs| == |names| && forall j :: 0 <= j < |names| ==> gs[j] == GroupStats(ps, names[j])
  {
    var names := StrategyNames(ps);
    seq(|names|, j requires 0 <= j < |names| => GroupStats(ps, names[j]))
  }

  /** The mean expectancy of each group. */
  function Means(gs: seq<StrategyStats>): (e: seq<real>)
    ensures |e| == |gs| && forall j :: 0 <= j < |gs| ==> e[j] == gs[j].avgExpectancy
  {
    seq(|gs|, j requires 0 <= j < |gs| => gs[j].avgExpectancy)
  }

  /** The loop over the groups from position `i` on: a strictly better
      mean replaces the best so far. */
  function Scan(gs: seq<StrategyStats>, i: nat, bestExp: real, best: Option<StrategyStats>): Option<StrategyStats>
    requires i <= |gs|
    decreases |gs| - i
  {
    if i == |gs| then best
    else if gs[i].avgExpectancy > bestExp then Scan(gs, i + 1, gs[i].avgExpectancy, Some(gs[i]))
    else Scan(gs, i + 1, bestExp, best)
  }

  /** The means from `i` on are at most `bar`. */
  predicate AllAtMost(e: seq<real>, i: nat, bar: real)
    requires i <= |e|
  {
    forall j :: i <= j < |e| ==> e[j] <= bar
  }

  /** Mean `k` is the first of the largest from `i` on. */
  predicate FirstBestFrom(e: seq<real>, i: nat, k: nat)
    requires i <= k < |e|
  {
    && AllAtMost(e, i, e[k])
    && forall j :: i <= j < k ==> e[j] < e[k]
  }

  /** The scan ends on the first group of largest mean expectancy above the
      starting bar, or keeps what it started with when none beats it. */
  lemma {:induction false} ScanPicksFirstBest(gs: seq<StrategyStats>, i: nat, bestExp: real, best: Option<StrategyStats>)
    requires i <= |gs|
    ensures var r := Scan(gs, i, bestExp, best);
      var e := Means(gs);
      || (r == best && AllAtMost(e, i, bestExp))
      || (exists k :: i <= k < |gs| && r == Some(gs[k]) && e[k] > bestExp && FirstBestFrom(e, i, k))
    decreases |gs| - i
  {
    var e := Means(gs);
    if i < |gs| {
      var a := e[i];
      var r := Scan(gs, i, bestExp, best);
      if a > bestExp {
        assert r == Scan(gs, i + 1, a, Some(gs[i]));
        ScanPicksFirstBest(gs, i + 1, a, Some(gs[i]));
        if r == Some(gs[i]) && AllAtMost(e, i + 1, a) {
          FirstBestHere(e, i);
        } else {
          var k :| i + 1 <= k < |gs| && r == Some(gs[k]) && e[k] > a && FirstBestFrom(e, i + 1, k);
          FirstBestExtend(e, i, k);
        }
      } else {
        assert r == Scan(gs, i + 1, bestExp, best);
        ScanPicksFirstBest(gs, i + 1, bestExp, best);
        if r == best && AllAtMost(e, i + 1, bestExp) {
          assert AllAtMost(e, i, bestExp);
        } else {
          var k :| i + 1 <= k < |gs| && r == Some(gs[k]) && e[k] > bestExp && FirstBestFrom(e, i + 1, k);
          FirstBestExtend(e, i, k);
        }
      }
    }
  }

  lemma FirstBestHere(e: seq<real>, i: nat)
    requires i < |e| && AllAtMost(e, i + 1, e[i])
    ensures FirstBestFrom(e, i, i)
  {
  }

  lemma FirstBestExtend(e: seq<real>, i: nat, k: nat)
    requires i < k < |e| && FirstBestFrom(e, i + 1, k) && e[i] < e[k]
    ensures FirstBestFrom(e, i, k)
  {
  }

  /** `_find_best_strategy_for_regime`: an error when the regime has no
      patterns; otherwise the first strategy type of highest mean
      expectancy, or `None` when no mean beats the starting bar of -999. */
  function BestStrategy(t: seq<Pattern>, regime: string): Result<Option<StrategyStats>, string>
  {
    var ps := RegimePatterns(t, regime);
    if |ps| == 0 then Raised("No patterns for this regime")
    else Ok(Scan(Groups(ps), 0, -999.0, None))
  }

  /** What the best strategy answer means, for every table. */
  lemma BestStrategyIsFirstMaximum(t: seq<Pattern>, regime: string)
    ensures var ps := RegimePatterns(t, regime);
      var names := StrategyNames(ps);
      var e := Means(Groups(ps));
      var r := BestStrategy(t, regime);
      && (r.Raised? <==> |ps| == 0)
      && (r.Ok? && r.value.None? ==> AllAtMost(e, 0, -999.0))
      && (r.Ok? && r.value.Some? ==>
            exists k :: 0 <= k < |names| && r.value.value == GroupStats(ps, names[k]) && FirstBestFrom(e, 0, k))
  {
    var ps := RegimePatterns(t, regime);
    if |ps| > 0 {
      var gs := Groups(ps);
      var e := Means(gs);
      var r := Scan(gs, 0, -999.0, None);
      assert BestStrategy(t, regime) == Ok(r);
      ScanPicksFirstBest(gs, 0, -999.0, None);
      if r.Some? {
        var k :| 0 <= k < |gs| && r == Some(gs[k]) && e[k] > -999.0 && FirstBestFrom(e, 0, k);
        assert r.value == GroupStats(ps, StrategyNames(ps)[k]);
      }
    }
  }
}
