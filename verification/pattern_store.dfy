/** The pattern database (`src/patterns/database.py`): one row per trading
    pattern with its running statistics, the per-trade history and the log
    of injected lessons. Dates are day numbers; SQLite is left out, each
    table is a sequence of rows in insertion order. */
module PatternStore {

  import opened Wrappers
  import opened Seqs
  import Text

  datatype Confidence = Low | Medium | High

  /** The four classification components stored with a pattern. */
  datatype Components = Components(strategy: string, regime: string, volume: string, technical: string)

  /** One row of the pattern table. */
  datatype Pattern = Pattern(
    id: string,
    components: Components,
    totalTrades: nat,
    winningTrades: nat,
    losingTrades: nat,
    winRate: real,
    avgWin: real,
    avgLoss: real,
    expectancy: real,
    recentTrades: seq<real>,
    recentWinRate: real,
    recentAvgReturn: real,
    momentum: real,
    confidence: Confidence,
    active: bool,
    firstSeen: int,
    lastTraded: Option<int>)

  /** One row of the per-trade history: the entry, and the exit once known. */
  datatype TradeRecord = TradeRecord(
    patternId: string,
    batchId: string,
    symbol: string,
    entryDate: int,
    entryPrice: real,
    decision: string,
    conviction: real,
    positionSizePct: real,
    exit: Option<ExitRecord>)

  datatype ExitRecord = ExitRecord(
    exitDate: Option<int>,
    exitPrice: Option<real>,
    exitReason: Option<string>,
    holdingDays: Option<int>,
    pnlPercent: Option<real>,
    maxGainPercent: Option<real>,
    maxDrawdownPercent: Option<real>)

  /** One row of the learning log: what kind of lesson, which patterns it
      concerned and which memory systems it was addressed to. */
  datatype LearningEvent = LearningEvent(kind: string, patterns: seq<string>, channels: seq<string>)

  datatype Db = Db(patterns: seq<Pattern>, trades: seq<TradeRecord>, lessons: seq<LearningEvent>)

  /** Number of trades kept in a pattern's rolling window. */
  const Window: nat := 20

  /** No two rows of the pattern table share an identifier (the identifier is the key). */
  predicate UniqueIds(t: seq<Pattern>)
  {
    forall i, j :: 0 <= i < j < |t| ==> t[i].id != t[j].id
  }

  predicate HasId(t: seq<Pattern>, id: string)
  {
    exists i :: 0 <= i < |t| && t[i].id == id
  }

  // ------------------------------------------------------------------
  // Creation and lookup
  // ------------------------------------------------------------------

  /** A row as first inserted: no trades yet, active, seen today. */
  function Fresh(id: string, c: Components, today: int): (p: Pattern)
    ensures p.id == id && p.components == c && p.totalTrades == 0 && p.active
  {
    Pattern(id, c, 0, 0, 0, 0.0, 0.0, 0.0, 0.0, [], 0.0, 0.0, 0.0, Low, true, today, None)
  }

  /** Index of the row with identifier `id`, if any. */
  function Find(t: seq<Pattern>, id: string): (r: Option<nat>)
    ensures r.Some? ==> r.value < |t| && t[r.value].id == id
    ensures r.None? <==> !HasId(t, id)
  {
    if |t| == 0 then None
    else if t[|t| - 1].id == id then Some(|t| - 1)
    else
      var r := Find(t[..|t| - 1], id);
      assert forall i :: 0 <= i < |t| - 1 ==> t[..|t| - 1][i] == t[i];
      r
  }

  /** `get_pattern_stats`: the row with identifier `id`, or `None`. */
  function GetStats(t: seq<Pattern>, id: string): (r: Option<Pattern>)
    ensures r.Some? ==> r.value in t && r.value.id == id
    ensures r.None? <==> !HasId(t, id)
  {
    var i := Find(t, id);
    if i.Some? then Some(t[i.value]) else None
  }

  /** `create_pattern`: `INSERT OR IGNORE` of a fresh row. An existing row
      with the same identifier is left exactly as it was. */
  function Create(t: seq<Pattern>, id: string, c: Components, today: int): (r: seq<Pattern>)
    ensures HasId(r, id)
    ensures HasId(t, id) ==> r == t
    ensures !HasId(t, id) ==> r == t + [Fresh(id, c, today)]
    ensures UniqueIds(t) ==> UniqueIds(r)
  {
    if Find(t, id).Some? then t
    else
      var r := t + [Fresh(id, c, today)];
      assert r[|t|].id == id;
      r
  }

  // ------------------------------------------------------------------
  // Statistics of one closed trade
  // ------------------------------------------------------------------

  /** A trade counts as a win when its return is strictly positive; a zero
      return is a loss. */
  predicate IsWin(x: real)
  {
    x > 0.0
  }

  predicate IsLoss(x: real)
  {
    x <= 0.0
  }

  function ConfidenceFor(total: int): (c: Confidence)
    ensures c == High <==> total >= 50
    ensures c == Low <==> total < 20
  {
    if total >= 50 then High else if total >= 20 then Medium else Low
  }

  /** The rolling window after one more trade: the trade is appended and
      only the latest `Window` trades are kept. */
  function PushWindow(w: seq<real>, pnl: real): (r: seq<real>)
    ensures 1 <= |r| <= Window
    ensures r[|r| - 1] == pnl
    ensures |w| < Window ==> r == w + [pnl]
  {
    Last(w + [pnl], Window)
  }

  /** Fraction of trades in `w` that are wins, 0 for an empty window. */
  function WinFraction(w: seq<real>): (r: real)
    ensures 0.0 <= r <= 1.0
  {
    if |w| == 0 then 0.0
    else
      var c := Count(w, IsWin);
      FractionBounds(c as real, |w| as real);
      c as real / |w| as real
  }

  lemma FractionBounds(a: real, b: real)
    requires 0.0 <= a <= b && b > 0.0
    ensures 0.0 <= a / b <= 1.0
  {
    assert a / b * b == a;
  }

  function Mean(w: seq<real>): real
  {
    if |w| == 0 then 0.0 else Sum(w) / |w| as real
  }

  /** The mean of `n` values whose mean was `avg`, after one more value `x`. */
  function NextMean(avg: real, n: nat, x: real): real
  {
    (avg * n as real + x) / (n + 1) as real
  }

  /** The mean of `n` values totalling `total`, 0 when there are none. */
  function AvgOf(total: real, n: nat): real
  {
    if n == 0 then 0.0 else total / n as real
  }

  function ExpectancyOf(winRate: real, avgWin: real, avgLoss: real): real
  {
    winRate * avgWin - (1.0 - winRate) * avgLoss
  }

  /** Total of the winning returns in a history. */
  function WinTotal(h: seq<real>): real
  {
    if |h| == 0 then 0.0
    else WinTotal(h[..|h| - 1]) + (if IsWin(h[|h| - 1]) then h[|h| - 1] else 0.0)
  }

  /** Total of the absolute values of the losing returns in a history. */
  function LossTotal(h: seq<real>): real
  {
    if |h| == 0 then 0.0
    else LossTotal(h[..|h| - 1]) + (if IsLoss(h[|h| - 1]) then -h[|h| - 1] else 0.0)
  }

  /** The row after one closed trade with return `pnl` (in percent), as
      `update_pattern_performance` writes it. The activity flag, the
      components and the first-seen date are not touched. */
  function ApplyTrade(p: Pattern, pnl: real, today: int): (q: Pattern)
    ensures q.id == p.id && q.components == p.components
    ensures q.active == p.active && q.firstSeen == p.firstSeen
    ensures q.totalTrades == p.totalTrades + 1
    ensures IsWin(pnl) ==> q.winningTrades == p.winningTrades + 1 && q.losingTrades == p.losingTrades
    ensures !IsWin(pnl) ==> q.winningTrades == p.winningTrades && q.losingTrades == p.losingTrades + 1
    ensures !IsWin(pnl) ==> q.avgWin == p.avgWin
    ensures IsWin(pnl) ==> q.avgLoss == p.avgLoss
    ensures q.lastTraded == Some(today)
    ensures q.confidence == ConfidenceFor(q.totalTrades)
    ensures 1 <= |q.recentTrades| <= Window && q.recentTrades[|q.recentTrades| - 1] == pnl
    ensures 0.0 <= q.recentWinRate <= 1.0
    ensures q.momentum == q.recentWinRate - q.winRate
  {
    var total := p.totalTrades + 1;
    var win := IsWin(pnl);
    var wins := p.winningTrades + (if win then 1 else 0);
    var losses := p.losingTrades + (if win then 0 else 1);
    var avgWin := if win then NextMean(p.avgWin, p.winningTrades, pnl) else p.avgWin;
    var avgLoss := if win then p.avgLoss else NextMean(p.avgLoss, p.losingTrades, -pnl);
    var winRate := wins as real / total as real;
    var recent := PushWindow(p.recentTrades, pnl);
    var recentWinRate := WinFraction(recent);
    p.(totalTrades := total, winningTrades := wins, losingTrades := losses,
       winRate := winRate, avgWin := avgWin, avgLoss := avgLoss,
       expectancy := ExpectancyOf(winRate, avgWin, avgLoss),
       recentTrades := recent, recentWinRate := recentWinRate,
       recentAvgReturn := Mean(recent), momentum := recentWinRate - winRate,
       confidence := ConfidenceFor(total), lastTraded := Some(today))
  }

  /** The trade counters are those of the closed-trade history `h`. */
  ghost predicate CountsMatch(p: Pattern, h: seq<real>)
  {
    p.totalTrades == |h| && p.winningTrades == Count(h, IsWin) && p.losingTrades == Count(h, IsLoss)
  }

  /** The average win and loss are the means of the winning returns and of
      the absolute losing returns of `h`. */
  ghost predicate AveragesMatch(p: Pattern, h: seq<real>)
  {
    p.avgWin == AvgOf(WinTotal(h), p.winningTrades) && p.avgLoss == AvgOf(LossTotal(h), p.losingTrades)
  }

  /** The rolling window holds the last `Window` trades of `h`. */
  ghost predicate WindowMatches(p: Pattern, h: seq<real>)
  {
    p.recentTrades == Last(h, Window)
  }

  /** The derived columns agree with the counters, averages and window
      they are computed from. */
  ghost predicate DerivedMatch(p: Pattern)
  {
    && p.winRate == (if p.totalTrades == 0 then 0.0 else p.winningTrades as real / p.totalTrades as real)
    && p.expectancy == ExpectancyOf(p.winRate, p.avgWin, p.avgLoss)
    && p.recentWinRate == WinFraction(p.recentTrades)
    && p.recentAvgReturn == Mean(p.recentTrades)
    && p.momentum == p.recentWinRate - p.winRate
    && p.confidence == ConfidenceFor(p.totalTrades)
  }

  /** The row's statistics are exactly those of the closed-trade history
      `h` (oldest first): counts, win rate, average win and loss, the rolling
      window of the last `Window` trades and everything derived from them. */
  ghost predicate Summarises(p: Pattern, h: seq<real>)
  {
    CountsMatch(p, h) && AveragesMatch(p, h) && WindowMatches(p, h) && DerivedMatch(p)
  }

  lemma FreshSummarisesNothing(id: string, c: Components, today: int)
    ensures Summarises(Fresh(id, c, today), [])
  {
  }

  /** Pushing onto the window of a history gives the window of the longer history. */
  lemma {:induction false} PushWindowTracksHistory(h: seq<real>, pnl: real)
    ensures PushWindow(Last(h, Window), pnl) == Last(h + [pnl], Window)
  {
    var w := Last(h, Window);
    var r := PushWindow(w, pnl);
    var e := Last(h + [pnl], Window);
    assert |r| == |e|;
    forall i | 0 <= i < |r|
      ensures r[i] == e[i]
    {
      if i < |r| - 1 {
        assert r[i] == (w + [pnl])[|w| + 1 - |r| + i];
      }
    }
  }

  lemma WinTotalAppend(h: seq<real>, x: real)
    ensures WinTotal(h + [x]) == WinTotal(h) + (if IsWin(x) then x else 0.0)
  {
    assert (h + [x])[..|h|] == h;
  }

  lemma LossTotalAppend(h: seq<real>, x: real)
    ensures LossTotal(h + [x]) == LossTotal(h) + (if IsLoss(x) then -x else 0.0)
  {
    assert (h + [x])[..|h|] == h;
  }

  /** Folding one more trade into a row keeps it an exact summary of its
      trade history extended by that trade. */
  lemma {:induction false} ApplyTradeSummarises(p: Pattern, h: seq<real>, pnl: real, today: int)
    requires Summarises(p, h)
    ensures Summarises(ApplyTrade(p, pnl, today), h + [pnl])
  {
    ApplyTradeCounts(p, h, pnl, today);
    ApplyTradeAverages(p, h, pnl, today);
    ApplyTradeWindow(p, h, pnl, today);
    ApplyTradeDerived(p, pnl, today);
  }

  lemma ApplyTradeCounts(p: Pattern, h: seq<real>, pnl: real, today: int)
    requires CountsMatch(p, h)
    ensures CountsMatch(ApplyTrade(p, pnl, today), h + [pnl])
  {
    CountAppend(h, [pnl], IsWin);
    CountAppend(h, [pnl], IsLoss);
    assert Count([pnl], IsWin) == (if IsWin(pnl) then 1 else 0);
    assert Count([pnl], IsLoss) == (if IsLoss(pnl) then 1 else 0);
  }

  lemma ApplyTradeAverages(p: Pattern, h: seq<real>, pnl: real, today: int)
    requires CountsMatch(p, h) && AveragesMatch(p, h)
    ensures AveragesMatch(ApplyTrade(p, pnl, today), h + [pnl])
  {
    var q := ApplyTrade(p, pnl, today);
    var h' := h + [pnl];
    WinTotalAppend(h, pnl);
    LossTotalAppend(h, pnl);
    if IsWin(pnl) {
      NoWinsNoTotal(h);
      NextMeanOfAvg(WinTotal(h), p.winningTrades, pnl);
      assert q.avgWin == NextMean(p.avgWin, p.winningTrades, pnl);
      assert q.avgWin == AvgOf(WinTotal(h) + pnl, p.winningTrades + 1);
      assert q.avgLoss == p.avgLoss && q.losingTrades == p.losingTrades;
      assert LossTotal(h') == LossTotal(h);
    } else {
      NoLossesNoTotal(h);
      AvgLossAfterLoss(p, LossTotal(h), pnl, today);
      assert LossTotal(h') == LossTotal(h) - pnl;
      assert q.avgWin == p.avgWin && q.winningTrades == p.winningTrades;
      assert WinTotal(h') == WinTotal(h);
    }
  }

  lemma ApplyTradeWindow(p: Pattern, h: seq<real>, pnl: real, today: int)
    requires WindowMatches(p, h)
    ensures WindowMatches(ApplyTrade(p, pnl, today), h + [pnl])
  {
    PushWindowTracksHistory(h, pnl);
  }

  /** Whatever the row held before, the row written back after a trade is
      internally consistent. */
  lemma ApplyTradeDerived(p: Pattern, pnl: real, today: int)
    ensures DerivedMatch(ApplyTrade(p, pnl, today))
  {
  }

  lemma AvgLossAfterLoss(p: Pattern, total: real, pnl: real, today: int)
    requires !IsWin(pnl)
    requires p.avgLoss == AvgOf(total, p.losingTrades)
    requires p.losingTrades == 0 ==> total == 0.0
    ensures ApplyTrade(p, pnl, today).avgLoss == AvgOf(total - pnl, p.losingTrades + 1)
  {
    NextMeanOfAvg(total, p.losingTrades, -pnl);
    assert total + -pnl == total - pnl;
  }

  lemma NextMeanOfAvg(t: real, n: nat, x: real)
    requires n == 0 ==> t == 0.0
    ensures NextMean(AvgOf(t, n), n, x) == AvgOf(t + x, n + 1)
  {
    var a := AvgOf(t, n);
    if n > 0 {
      assert t / n as real * n as real == t;
      assert a * n as real == t;
    }
    assert a * n as real + x == t + x;
  }

  lemma {:induction false} NoWinsNoTotal(h: seq<real>)
    ensures Count(h, IsWin) == 0 ==> WinTotal(h) == 0.0
  {
    if |h| > 0 {
      var init := h[..|h| - 1];
      assert h == init + [h[|h| - 1]];
      CountAppend(init, [h[|h| - 1]], IsWin);
      NoWinsNoTotal(init);
    }
  }

  lemma {:induction false} NoLossesNoTotal(h: seq<real>)
    ensures Count(h, IsLoss) == 0 ==> LossTotal(h) == 0.0
  {
    if |h| > 0 {
      var init := h[..|h| - 1];
      assert h == init + [h[|h| - 1]];
      CountAppend(init, [h[|h| - 1]], IsLoss);
      NoLossesNoTotal(init);
    }
  }

  /** Consequences of a row summarising its history: its rates are
      fractions, and wins and losses together account for every trade. */
  lemma SummaryBounds(p: Pattern, h: seq<real>)
    requires Summarises(p, h)
    ensures p.winningTrades + p.losingTrades == p.totalTrades
    ensures 0.0 <= p.winRate <= 1.0 && 0.0 <= p.recentWinRate <= 1.0
    ensures -1.0 <= p.momentum <= 1.0
    ensures |p.recentTrades| <= Window && |p.recentTrades| <= p.totalTrades
  {
    CountComplement(h);
    if p.totalTrades > 0 {
      FractionBounds(p.winningTrades as real, p.totalTrades as real);
    }
  }

  lemma {:induction false} CountComplement(h: seq<real>)
    ensures Count(h, IsWin) + Count(h, IsLoss) == |h|
  {
    if |h| > 0 {
      CountComplement(h[1..]);
    }
  }

  /** `update_pattern_performance`: applies a closed trade to the row with
      identifier `pnlFor`. An unknown identifier changes nothing and reports
      failure; otherwise only that row changes. */
  function UpdatePerformance(t: seq<Pattern>, id: string, pnl: real, today: int): (r: (seq<Pattern>, bool))
    ensures r.1 <==> HasId(t, id)
    ensures !r.1 ==> r.0 == t
    ensures |r.0| == |t|
    ensures forall i :: 0 <= i < |t| && t[i].id != id ==> r.0[i] == t[i]
    ensures forall i :: 0 <= i < |t| ==> r.0[i].id == t[i].id
    ensures UniqueIds(t) && r.1 ==> exists i :: 0 <= i < |t| && t[i].id == id && r.0[i] == ApplyTrade(t[i], pnl, today)
  {
    var i := Find(t, id);
    if i.None? then (t, false)
    else (t[i.value := ApplyTrade(t[i.value], pnl, today)], true)
  }

  /** Lookup depends only on the identifiers, position by position. */
  lemma {:induction false} FindSameIds(t: seq<Pattern>, u: seq<Pattern>, id: string)
    requires |t| == |u| && forall i :: 0 <= i < |t| ==> t[i].id == u[i].id
    ensures Find(t, id) == Find(u, id)
  {
    if |t| > 0 && t[|t| - 1].id != id {
      FindSameIds(t[..|t| - 1], u[..|u| - 1], id);
    }
  }

  /** An update leaves what every other identifier looks up unchanged. */
  lemma UpdatePerformanceKeepsOthers(t: seq<Pattern>, id: string, pnl: real, today: int, other: string)
    requires other != id
    ensures GetStats(UpdatePerformance(t, id, pnl, today).0, other) == GetStats(t, other)
  {
    FindSameIds(t, UpdatePerformance(t, id, pnl, today).0, other);
  }

  // ------------------------------------------------------------------
  // Analysis queries
  // ------------------------------------------------------------------

  function ExpectancyKey(p: Pattern): real { p.expectancy }

  function DeclineKey(p: Pattern): real { p.winRate - p.recentWinRate }

  function ImprovementKey(p: Pattern): real { p.recentWinRate - p.winRate }

  predicate TopEligible(p: Pattern, minTrades: int)
  {
    p.active && p.totalTrades >= minTrades
  }

  /** The `WHERE` clauses of the four queries, as tests on a row. */
  function Eligible(minTrades: int): Pattern -> bool
  {
    (p: Pattern) => TopEligible(p, minTrades)
  }

  function BreakingTest(threshold: real, minTrades: int): Pattern -> bool
  {
    (p: Pattern) => p.totalTrades >= minTrades && p.recentWinRate < threshold && p.winRate > 0.50 && p.active
  }

  function RegimeTest(key: string): Pattern -> bool
  {
    (p: Pattern) => p.components.regime == key && p.active
  }

  function HotTest(minImprovement: real): Pattern -> bool
  {
    (p: Pattern) => p.totalTrades >= 10 && p.recentWinRate > p.winRate + minImprovement && p.active
  }

  /** A query answer: the rows its `WHERE` clause selects, each as often as
      in the table, in the order of its `ORDER BY ... DESC` (ties in any
      order, as in SQL). */
  predicate Answers(r: seq<Pattern>, t: seq<Pattern>, test: Pattern -> bool, key: Pattern -> real)
  {
    multiset(r) == multiset(Filter(t, test)) && SortedDesc(r, key)
  }

  /** Sorting keeps exactly the members of what it sorts. */
  lemma AnswersMembers(r: seq<Pattern>, t: seq<Pattern>, test: Pattern -> bool, key: Pattern -> real)
    requires Answers(r, t, test, key)
    ensures forall y :: y in r <==> y in t && test(y)
  {
    forall y
      ensures y in r <==> y in t && test(y)
    {
      assert y in r <==> y in multiset(r);
      var f := Filter(t, test);
      assert y in f <==> y in multiset(f);
      if y in t && test(y) {
        var i :| 0 <= i < |t| && t[i] == y;
      }
    }
  }

  /** The rows `get_top_patterns` ranks, before its `LIMIT`. */
  function TopCandidates(t: seq<Pattern>, minTrades: int): (r: seq<Pattern>)
    ensures Answers(r, t, Eligible(minTrades), ExpectancyKey)
    ensures forall y :: y in r <==> y in t && TopEligible(y, minTrades)
  {
    var r := SortDesc(Filter(t, Eligible(minTrades)), ExpectancyKey);
    AnswersMembers(r, t, Eligible(minTrades), ExpectancyKey);
    r
  }

  /** `get_top_patterns`: active rows with at least `minTrades` trades, best
      expectancy first, at most `limit` of them. */
  function TopPatterns(t: seq<Pattern>, limit: nat, minTrades: int): (r: seq<Pattern>)
    ensures var n := |Filter(t, Eligible(minTrades))|; |r| == if limit < n then limit else n
    ensures multiset(r) <= multiset(Filter(t, Eligible(minTrades)))
    ensures forall i :: 0 <= i < |r| ==> r[i] in t && r[i].active && r[i].totalTrades >= minTrades
    ensures SortedDesc(r, ExpectancyKey)
  {
    var s := TopCandidates(t, minTrades);
    TakeIsSubMultiset(s, limit);
    TakeKeepsOrder(s, ExpectancyKey, limit);
    var r := Take(s, limit);
    forall i | 0 <= i < |r|
      ensures r[i] in t && r[i].active && r[i].totalTrades >= minTrades
    {
      assert r[i] == s[i] && s[i] in s;
    }
    r
  }

  /** The top patterns are the best ones: a qualifying row left out means
      the limit was reached, and its expectancy is no higher than any row
      returned. */
  lemma TopPatternsLeaveOutNoBetter(t: seq<Pattern>, limit: nat, minTrades: int, y: Pattern)
    requires y in t && y.active && y.totalTrades >= minTrades
    requires y !in TopPatterns(t, limit, minTrades)
    ensures |TopPatterns(t, limit, minTrades)| == limit
    ensures forall i :: 0 <= i < |TopPatterns(t, limit, minTrades)| ==>
      TopPatterns(t, limit, minTrades)[i].expectancy >= y.expectancy
  {
    var s := TopCandidates(t, minTrades);
    assert y in s;
    PrefixOfSortedIsTop(s, ExpectancyKey, limit, y);
  }

  /** `get_breaking_patterns`: active rows with at least `minTrades`
      trades, a recent win rate under `threshold` and an overall win rate
      above one half; the steepest decline first. */
  function BreakingPatterns(t: seq<Pattern>, threshold: real, minTrades: int): (r: seq<Pattern>)
    ensures Answers(r, t, BreakingTest(threshold, minTrades), DeclineKey)
    ensures forall y :: y in r <==>
      y in t && y.active && y.totalTrades >= minTrades && y.recentWinRate < threshold && y.winRate > 0.50
    ensures forall i, j :: 0 <= i < j < |r| ==>
      r[i].recentWinRate - r[i].winRate <= r[j].recentWinRate - r[j].winRate
  {
    var r := SortDesc(Filter(t, BreakingTest(threshold, minTrades)), DeclineKey);
    AnswersMembers(r, t, BreakingTest(threshold, minTrades), DeclineKey);
    r
  }

  /** The stored spelling of a regime name: lower case, spaces as `_`. */
  function RegimeKey(regime: string): string
  {
    Text.ReplaceChar(Text.Lower(regime), ' ', '_')
  }

  /** `get_regime_patterns`: active rows whose regime matches the
      normalised name, best expectancy first. */
  function RegimePatterns(t: seq<Pattern>, regime: string): (r: seq<Pattern>)
    ensures Answers(r, t, RegimeTest(RegimeKey(regime)), ExpectancyKey)
    ensures forall y :: y in r <==> y in t && y.active && y.components.regime == RegimeKey(regime)
    ensures forall i, j :: 0 <= i < j < |r| ==> r[i].expectancy >= r[j].expectancy
  {
    var r := SortDesc(Filter(t, RegimeTest(RegimeKey(regime))), ExpectancyKey);
    AnswersMembers(r, t, RegimeTest(RegimeKey(regime)), ExpectancyKey);
    r
  }

  /** `get_hot_patterns`: active rows with at least 10 trades whose recent
      win rate beats the overall one by more than `minImprovement`; the
      largest improvement first. */
  function HotPatterns(t: seq<Pattern>, minImprovement: real): (r: seq<Pattern>)
    ensures Answers(r, t, HotTest(minImprovement), ImprovementKey)
    ensures forall y :: y in r <==>
      y in t && y.active && y.totalTrades >= 10 && y.recentWinRate > y.winRate + minImprovement
    ensures forall i, j :: 0 <= i < j < |r| ==>
      r[i].recentWinRate - r[i].winRate >= r[j].recentWinRate - r[j].winRate
  {
    var r := SortDesc(Filter(t, HotTest(minImprovement)), ImprovementKey);
    AnswersMembers(r, t, HotTest(minImprovement), ImprovementKey);
    r
  }

  // ------------------------------------------------------------------
  // Maintenance and reporting
  // ------------------------------------------------------------------

  predicate IsActive(p: Pattern) { p.active }

  function ActiveCount(t: seq<Pattern>): nat
  {
    Count(t, IsActive)
  }

  /** A row that `deactivate_stale_patterns` switches off: active, and last
      traded before the cutoff day. A row never traded is never stale. */
  predicate Stale(p: Pattern, cutoff: int)
  {
    p.active && p.lastTraded.Some? && p.lastTraded.value < cutoff
  }

  /** `deactivate_stale_patterns`: switches off every stale row and reports
      how many rows it switched off; nothing but the activity flag changes. */
  function DeactivateStale(t: seq<Pattern>, cutoff: int): (r: (seq<Pattern>, nat))
    ensures |r.0| == |t|
    ensures forall i :: 0 <= i < |t| ==> r.0[i].active == (t[i].active && !Stale(t[i], cutoff))
    ensures forall i :: 0 <= i < |t| ==> r.0[i].(active := t[i].active) == t[i]
    ensures r.1 + ActiveCount(r.0) == ActiveCount(t)
  {
    if |t| == 0 then ([], 0)
    else
      var rest := DeactivateStale(t[1..], cutoff);
      var stale := Stale(t[0], cutoff);
      var head := if stale then t[0].(active := false) else t[0];
      var r := [head] + rest.0;
      assert r[1..] == rest.0;
      (r, (if stale then 1 else 0) + rest.1)
  }

  /** After a deactivation no row is stale for the same cutoff, so running
      it again switches nothing off. */
  lemma {:induction false} DeactivateStaleIdempotent(t: seq<Pattern>, cutoff: int)
    ensures DeactivateStale(DeactivateStale(t, cutoff).0, cutoff).1 == 0
    ensures DeactivateStale(DeactivateStale(t, cutoff).0, cutoff).0 == DeactivateStale(t, cutoff).0
  {
    var once := DeactivateStale(t, cutoff).0;
    var twice := DeactivateStale(once, cutoff);
    assert forall i :: 0 <= i < |once| ==> !Stale(once[i], cutoff);
    NoStaleNoChange(once, cutoff);
  }

  lemma {:induction false} NoStaleNoChange(t: seq<Pattern>, cutoff: int)
    requires forall i :: 0 <= i < |t| ==> !Stale(t[i], cutoff)
    ensures DeactivateStale(t, cutoff) == (t, 0)
  {
    if |t| > 0 {
      NoStaleNoChange(t[1..], cutoff);
      assert t == [t[0]] + t[1..];
    }
  }

  /** The aggregates of `get_pattern_summary_stats` over the active rows.
      SQL's `SUM` and `AVG` of no rows are `NULL`, modelled as `None`. */
  datatype Summary = Summary(
    totalPatterns: nat,
    totalTrades: Option<int>,
    avgWinRate: Option<real>,
    avgExpectancy: Option<real>,
    highConfidence: nat,
    improving: nat,
    declining: nat)

  function Ids(t: seq<Pattern>): (r: seq<string>)
    ensures |r| == |t| && forall i :: 0 <= i < |t| ==> r[i] == t[i].id
  {
    seq(|t|, i requires 0 <= i < |t| => t[i].id)
  }

  function WinRates(t: seq<Pattern>): (r: seq<real>)
    ensures |r| == |t| && forall i :: 0 <= i < |t| ==> r[i] == t[i].winRate
  {
    seq(|t|, i requires 0 <= i < |t| => t[i].winRate)
  }

  function Expectancies(t: seq<Pattern>): seq<real>
  {
    seq(|t|, i requires 0 <= i < |t| => t[i].expectancy)
  }

  function TradeTotal(t: seq<Pattern>): int
  {
    if |t| == 0 then 0 else t[0].totalTrades + TradeTotal(t[1..])
  }

  predicate IsHighConfidence(p: Pattern) { p.confidence == High }

  predicate IsImproving(p: Pattern) { p.momentum > 0.1 }

  predicate IsDeclining(p: Pattern) { p.momentum < -0.1 }

  /** The `CASE WHEN` columns of the summary, counted over the whole table:
      a row counts when it is active and meets the condition. */
  predicate ActiveHigh(p: Pattern) { p.active && p.confidence == High }

  predicate ActiveImproving(p: Pattern) { p.active && p.momentum > 0.1 }

  predicate ActiveDeclining(p: Pattern) { p.active && p.momentum < -0.1 }

  /** `SUM(...) WHERE is_active = 1`, row by row over the whole table. */
  function ActiveTradeTotal(t: seq<Pattern>): int
  {
    if |t| == 0 then 0 else (if t[0].active then t[0].totalTrades else 0) + ActiveTradeTotal(t[1..])
  }

  function ActiveWinRateTotal(t: seq<Pattern>): real
  {
    if |t| == 0 then 0.0 else (if t[0].active then t[0].winRate else 0.0) + ActiveWinRateTotal(t[1..])
  }

  function ActiveExpectancyTotal(t: seq<Pattern>): real
  {
    if |t| == 0 then 0.0 else (if t[0].active then t[0].expectancy else 0.0) + ActiveExpectancyTotal(t[1..])
  }

  /** `get_pattern_summary_stats`: counts and averages over active rows.
      With no active row the sums and averages are SQL `NULL` and the
      counts are zero. */
  function SummaryStats(t: seq<Pattern>): (r: Summary)
    ensures r.avgWinRate.None? <==> ActiveCount(t) == 0
    ensures r.avgWinRate.None? <==> r.totalTrades.None?
    ensures r.avgExpectancy.None? <==> ActiveCount(t) == 0
    ensures ActiveCount(t) > 0 ==> r.totalTrades == Some(ActiveTradeTotal(t))
    ensures ActiveCount(t) > 0 ==> r.avgWinRate == Some(ActiveWinRateTotal(t) / ActiveCount(t) as real)
    ensures ActiveCount(t) > 0 ==> r.avgExpectancy == Some(ActiveExpectancyTotal(t) / ActiveCount(t) as real)
    ensures r.totalPatterns <= ActiveCount(t)
    ensures r.highConfidence == Count(t, ActiveHigh)
    ensures r.improving == Count(t, ActiveImproving)
    ensures r.declining == Count(t, ActiveDeclining)
    ensures r.improving + r.declining <= ActiveCount(t)
  {
    var a := Filter(t, IsActive);
    CountIsFilterLength(t, IsActive);
    ImprovingDecliningDisjoint(a);
    ActiveTotals(t);
    CountOfFilter(t, IsActive, IsHighConfidence, ActiveHigh);
    CountOfFilter(t, IsActive, IsImproving, ActiveImproving);
    CountOfFilter(t, IsActive, IsDeclining, ActiveDeclining);
    if |a| == 0 then Summary(0, None, None, None, 0, 0, 0)
    else
      Summary(|Distinct(Ids(a))|,
              Some(TradeTotal(a)),
              Some(Sum(WinRates(a)) / |a| as real),
              Some(Sum(Expectancies(a)) / |a| as real),
              Count(a, IsHighConfidence),
              Count(a, IsImproving),
              Count(a, IsDeclining))
  }

  /** Summing over the active rows equals the row-by-row sums that skip
      inactive rows. */
  lemma ActiveTotals(t: seq<Pattern>)
    ensures TradeTotal(Filter(t, IsActive)) == ActiveTradeTotal(t)
    ensures Sum(WinRates(Filter(t, IsActive))) == ActiveWinRateTotal(t)
    ensures Sum(Expectancies(Filter(t, IsActive))) == ActiveExpectancyTotal(t)
  {
    ActiveTradeTotalIsFiltered(t);
    ActiveWinRateTotalIsFiltered(t);
    ActiveExpectancyTotalIsFiltered(t);
  }

  lemma {:induction false} ActiveTradeTotalIsFiltered(t: seq<Pattern>)
    ensures TradeTotal(Filter(t, IsActive)) == ActiveTradeTotal(t)
  {
    if |t| > 0 {
      ActiveTradeTotalIsFiltered(t[1..]);
      var rest := Filter(t[1..], IsActive);
      if t[0].active {
        assert Filter(t, IsActive) == [t[0]] + rest;
        assert ([t[0]] + rest)[1..] == rest;
      } else {
        assert Filter(t, IsActive) == rest;
      }
    }
  }

  lemma {:induction false} ActiveWinRateTotalIsFiltered(t: seq<Pattern>)
    ensures Sum(WinRates(Filter(t, IsActive))) == ActiveWinRateTotal(t)
  {
    if |t| > 0 {
      ActiveWinRateTotalIsFiltered(t[1..]);
      var rest := Filter(t[1..], IsActive);
      if t[0].active {
        assert Filter(t, IsActive) == [t[0]] + rest;
        WinRatesCons(t[0], rest);
        SumCons(t[0].winRate, WinRates(rest));
      } else {
        assert Filter(t, IsActive) == rest;
      }
    }
  }

  lemma {:induction false} ActiveExpectancyTotalIsFiltered(t: seq<Pattern>)
    ensures Sum(Expectancies(Filter(t, IsActive))) == ActiveExpectancyTotal(t)
  {
    if |t| > 0 {
      ActiveExpectancyTotalIsFiltered(t[1..]);
      var rest := Filter(t[1..], IsActive);
      if t[0].active {
        assert Filter(t, IsActive) == [t[0]] + rest;
        ExpectanciesCons(t[0], rest);
        SumCons(t[0].expectancy, Expectancies(rest));
      } else {
        assert Filter(t, IsActive) == rest;
      }
    }
  }

  lemma WinRatesCons(x: Pattern, rest: seq<Pattern>)
    ensures WinRates([x] + rest) == [x.winRate] + WinRates(rest)
  {
  }

  lemma ExpectanciesCons(x: Pattern, rest: seq<Pattern>)
    ensures Expectancies([x] + rest) == [x.expectancy] + Expectancies(rest)
  {
    assert forall i :: 0 <= i < |rest| ==> Expectancies([x] + rest)[i + 1] == Expectancies(rest)[i];
  }

  lemma {:induction false} ImprovingDecliningDisjoint(a: seq<Pattern>)
    ensures Count(a, IsImproving) + Count(a, IsDeclining) <= |a|
  {
    if |a| > 0 {
      ImprovingDecliningDisjoint(a[1..]);
    }
  }

  /** With unique identifiers, the distinct-identifier count is the number
      of active rows. */
  lemma SummaryCountsEveryActivePattern(t: seq<Pattern>)
    requires UniqueIds(t)
    ensures SummaryStats(t).totalPatterns == ActiveCount(t)
  {
    var a := Filter(t, IsActive);
    CountIsFilterLength(t, IsActive);
    FilterKeepsUniqueIds(t);
    if |a| > 0 {
      DistinctUnique(Ids(a));
    }
  }

  /** When every win rate is a fraction, so is their average. */
  lemma SummaryWinRateIsFraction(t: seq<Pattern>)
    requires forall i :: 0 <= i < |t| ==> 0.0 <= t[i].winRate <= 1.0
    ensures SummaryStats(t).avgWinRate.Some? ==> 0.0 <= SummaryStats(t).avgWinRate.value <= 1.0
  {
    var a := Filter(t, IsActive);
    if |a| > 0 {
      var w := WinRates(a);
      SumBetween(w);
      FractionBounds(Sum(w), |a| as real);
    }
  }

  lemma {:induction false} FilterKeepsUniqueIds(t: seq<Pattern>)
    requires UniqueIds(t)
    ensures UniqueIds(Filter(t, IsActive))
  {
    if |t| > 0 {
      FilterKeepsUniqueIds(t[1..]);
      var rest := Filter(t[1..], IsActive);
      assert forall i :: 0 <= i < |rest| ==> rest[i] in t[1..];
    }
  }

  lemma {:induction false} DistinctUnique(s: seq<string>)
    requires forall i, j :: 0 <= i < j < |s| ==> s[i] != s[j]
    ensures Distinct(s) == s
  {
    if |s| > 0 {
      var init := s[..|s| - 1];
      DistinctUnique(init);
      assert s[|s| - 1] !in init;
      assert s == init + [s[|s| - 1]];
    }
  }

  lemma {:induction false} SumBetween(s: seq<real>)
    requires forall i :: 0 <= i < |s| ==> 0.0 <= s[i] <= 1.0
    ensures 0.0 <= Sum(s) <= |s| as real
  {
    if |s| > 0 {
      SumBetween(s[..|s| - 1]);
    }
  }

  // ------------------------------------------------------------------
  // Trade history and learning log
  // ------------------------------------------------------------------

  /** `record_pattern_trade`: appends the entry to the trade history. */
  function RecordTrade(db: Db, entry: TradeRecord): (r: Db)
    ensures r.patterns == db.patterns && r.lessons == db.lessons
    ensures |r.trades| == |db.trades| + 1 && r.trades[..|db.trades|] == db.trades
    ensures r.trades[|db.trades|] == entry
  {
    db.(trades := db.trades + [entry])
  }

  /** `update_pattern_trade_exit`: writes the exit onto every history row
      of the batch and symbol (open or not); other rows are untouched. */
  function RecordTradeExit(db: Db, batchId: string, symbol: string, exit: ExitRecord): (r: Db)
    ensures r.patterns == db.patterns && r.lessons == db.lessons
    ensures |r.trades| == |db.trades|
    ensures forall i :: 0 <= i < |db.trades| ==>
      r.trades[i] == if db.trades[i].batchId == batchId && db.trades[i].symbol == symbol
                     then db.trades[i].(exit := Some(exit)) else db.trades[i]
  {
    db.(trades := seq(|db.trades|, i requires 0 <= i < |db.trades| =>
      if db.trades[i].batchId == batchId && db.trades[i].symbol == symbol
      then db.trades[i].(exit := Some(exit)) else db.trades[i]))
  }

  /** `record_learning_event`: appends one row to the learning log. */
  function RecordLearningEvent(db: Db, e: LearningEvent): (r: Db)
    ensures r.patterns == db.patterns && r.trades == db.trades
    ensures r.lessons == db.lessons + [e]
  {
    db.(lessons := db.lessons + [e])
  }
}
