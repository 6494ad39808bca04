/** The three-layer stock filter (`src/filtering/filter.py`): hard
    tradeability constraints, regime-dependent scoring and the final
    candidate selection. A data frame is a sequence of rows; the score
    percentile and the random exploration draw are parameters. */
module StockFilter {

  import opened Numbers
  import opened Wrappers
  import opened Seqs
  import Settings

  /** The columns the filter reads. */
  datatype Row = Row(symbol: string, price: real, dollarVolume: real, rsi: real, volumeRatio: real, quality: real, sma20: real)

  // ------------------------------------------------------------------
  // Layer 1: hard constraints
  // ------------------------------------------------------------------

  predicate Tradeable(r: Row)
  {
    r.dollarVolume > Settings.MinDollarVolume && r.price > Settings.MinPrice
  }

  /** `apply_hard_constraints`: keeps every copy of each row above both
      minimums, strictly, and no other row. */
  function HardConstraints(rows: seq<Row>): (r: seq<Row>)
    ensures forall x :: x in r <==> x in rows && Tradeable(x)
    ensures forall x :: multiset(r)[x] == if Tradeable(x) then multiset(rows)[x] else 0
    ensures |r| == Count(rows, Tradeable)
  {
    forall x
      ensures multiset(Filter(rows, Tradeable))[x] == if Tradeable(x) then multiset(rows)[x] else 0
    {
      FilterMultiplicity(rows, Tradeable, x);
    }
    CountIsFilterLength(rows, Tradeable);
    Filter(rows, Tradeable)
  }

  /** A row exactly at either minimum is dropped. */
  lemma MinimumsAreStrict(x: Row)
    requires x.dollarVolume == Settings.MinDollarVolume || x.price == Settings.MinPrice
    ensures x !in HardConstraints([x])
  {
  }

  // ------------------------------------------------------------------
  // Layer 2: regime scoring
  // ------------------------------------------------------------------

  function Clip(x: real, lo: real, hi: real): (r: real)
    requires lo <= hi
    ensures lo <= r <= hi
    ensures lo <= x <= hi ==> r == x
  {
    if x < lo then lo else if x > hi then hi else x
  }


  predicate FearRegime(regime: string) { regime == "extreme_fear" || regime == "fear" }
  predicate GreedRegime(regime: string) { regime == "greed" || regime == "extreme_greed" }

  /** Mean-reversion score: lower RSI, quality and a volume spike. */
  function MeanReversionScore(x: Row): real
  {
    0.5 * (30.0 - Clip(x.rsi, 0.0, 30.0)) / 30.0 + 0.3 * x.quality + 0.2 * Clip(x.volumeRatio, 0.0, 3.0) / 3.0
  }

  /** Momentum score: higher RSI, volume confirmation and quality; with a
      20-day average column, blended 0.8/0.2 with being above it. */
  function MomentumScore(x: Row, hasSma20: bool): real
  {
    var base := 0.4 * (Clip(x.rsi, 50.0, 100.0) - 50.0) / 50.0 + 0.3 * Clip(x.volumeRatio, 0.0, 2.0) / 2.0 + 0.3 * x.quality;
    if hasSma20 then base * 0.8 + (if x.price > x.sma20 then 1.0 else 0.0) * 0.2 else base
  }

  /** Balanced score: quality, volume and an RSI near 50. */
  function NeutralScore(x: Row): real
  {
    0.33 * x.quality + 0.33 * Clip(x.volumeRatio, 0.0, 2.0) / 2.0 + 0.34 * (50.0 - Abs(x.rsi - 50.0)) / 50.0
  }

  /** The score of one row in a regime. For a quality in [0, 1] it lies in
      [0, 1]; the neutral formula also needs an RSI in [0, 100]. */
  function Score(regime: string, x: Row, hasSma20: bool): (r: real)
    ensures 0.0 <= x.quality <= 1.0 && (FearRegime(regime) || GreedRegime(regime) || 0.0 <= x.rsi <= 100.0) ==> 0.0 <= r <= 1.0
  {
    if FearRegime(regime) then MeanReversionScore(x)
    else if GreedRegime(regime) then MomentumScore(x, hasSma20)
    else NeutralScore(x)
  }

  /** In fear a lower RSI never scores lower; in greed a higher one never
      does; with everything else equal. */
  lemma ScoreFollowsRegime(regime: string, x: Row, y: Row, hasSma20: bool)
    requires y == x.(rsi := y.rsi)
    ensures FearRegime(regime) && y.rsi <= x.rsi ==> Score(regime, y, hasSma20) >= Score(regime, x, hasSma20)
    ensures GreedRegime(regime) && y.rsi >= x.rsi ==> Score(regime, y, hasSma20) >= Score(regime, x, hasSma20)
  {
  }

  /** Without a fear or greed regime, an RSI of 50 scores best. */
  lemma NeutralPrefersMidRsi(regime: string, x: Row, hasSma20: bool)
    requires !FearRegime(regime) && !GreedRegime(regime)
    ensures Score(regime, x.(rsi := 50.0), hasSma20) >= Score(regime, x, hasSma20)
  {
  }

  /** In greed with the average column, being above the average is worth
      exactly 0.2. */
  lemma AboveAverageBonus(regime: string, x: Row)
    requires GreedRegime(regime) && x.price > x.sma20
    ensures Score(regime, x, true) == MomentumScore(x.(sma20 := x.price), true) + 0.2
  {
  }

  datatype Scored = Scored(row: Row, score: real)

  function ScoreKey(s: Scored): real { s.score }

  function ScoreAll(regime: string, rows: seq<Row>, hasSma20: bool): (r: seq<Scored>)
    ensures |r| == |rows| && forall i :: 0 <= i < |rows| ==> r[i] == Scored(rows[i], Score(regime, rows[i], hasSma20))
  {
    seq(|rows|, i requires 0 <= i < |rows| => Scored(rows[i], Score(regime, rows[i], hasSma20)))
  }

  /** `apply_regime_scoring`: every row with its score, best first. */
  function RegimeScoring(regime: string, rows: seq<Row>, hasSma20: bool): (r: seq<Scored>)
    ensures SortedDesc(r, ScoreKey)
    ensures multiset(r) == multiset(ScoreAll(regime, rows, hasSma20))
  {
    SortDesc(ScoreAll(regime, rows, hasSma20), ScoreKey)
  }

  // ------------------------------------------------------------------
  // Layer 3: selection
  // ------------------------------------------------------------------

  datatype Reason = TopScore | Exploration

  datatype Selected = Selected(item: Scored, reason: Reason)

  function Label(s: seq<Scored>, threshold: real): (r: seq<Selected>)
    ensures |r| == |s| && forall i :: 0 <= i < |s| ==> r[i].item == s[i]
    ensures forall i :: 0 <= i < |s| ==> (r[i].reason == TopScore <==> s[i].score >= threshold)
  {
    seq(|s|, i requires 0 <= i < |s| => Selected(s[i], if s[i].score >= threshold then TopScore else Exploration))
  }

  function AtLeast(threshold: real): Scored -> bool { (s: Scored) => s.score >= threshold }
  function Below(threshold: real): Scored -> bool { (s: Scored) => s.score < threshold }

  /** How many rows exploration adds: `int(max_stocks * 0.15)`, at most
      the rows below the threshold. */
  function ExploreCount(maxStocks: nat, remaining: nat): (n: nat)
    ensures n <= remaining && n as real <= maxStocks as real * Settings.ExplorationRatio
  {
    var n := (maxStocks as real * Settings.ExplorationRatio).Floor;
    if n < remaining then n else remaining
  }

  /** What `DataFrame.sample(n)` may return: `n` rows of `from`, none
      drawn more often than it occurs. */
  predicate IsSample(draw: seq<Scored>, from: seq<Scored>, n: nat)
  {
    |draw| == n && multiset(draw) <= multiset(from)
  }

  /** The random draw `select_candidates` makes from the rows below the
      threshold. */
  predicate IsExplorationDraw(draw: seq<Scored>, scored: seq<Scored>, threshold: real, maxStocks: nat)
  {
    var remaining := Filter(scored, Below(threshold));
    IsSample(draw, remaining, ExploreCount(maxStocks, |remaining|))
  }

  function Items(sel: seq<Selected>): (r: seq<Scored>)
    ensures |r| == |sel| && forall i :: 0 <= i < |sel| ==> r[i] == sel[i].item
  {
    seq(|sel|, i requires 0 <= i < |sel| => sel[i].item)
  }

  /** `select_candidates`. `threshold` is the regime's score percentile and
      `draw` the random sample of the rows below it. An empty frame is
      returned as is; a regime without a percentile raises. Otherwise the
      best `maxStocks` of the rows at or above the threshold and the draw,
      best first, each labelled by which side of the threshold it is on. */
  function SelectCandidates(scored: seq<Scored>, regime: string, threshold: real, draw: seq<Scored>, maxStocks: nat)
    : (r: Result<seq<Selected>, string>)
    requires IsExplorationDraw(draw, scored, threshold, maxStocks)
    ensures |scored| == 0 ==> r == Ok([])
    ensures r.Raised? <==> |scored| > 0 && regime !in Settings.FilterPercentiles
    ensures r.Ok? && |scored| > 0 ==>
      var k := Count(scored, AtLeast(threshold)) + |draw|; |r.value| == if maxStocks <= k then maxStocks else k
    ensures r.Ok? ==> forall i :: 0 <= i < |r.value| ==> (r.value[i].reason == TopScore <==> r.value[i].item.score >= threshold)
    ensures r.Ok? ==> SortedDesc(Items(r.value), ScoreKey)
    ensures r.Ok? ==> multiset(Items(r.value)) <= multiset(scored)
    ensures r.Ok? ==> forall i :: 0 <= i < |r.value| && r.value[i].reason == Exploration ==> r.value[i].item in draw
    ensures r.Ok? ==> forall y :: y in scored && y.score >= threshold && y !in Items(r.value) ==>
      |r.value| == maxStocks && forall i :: 0 <= i < |r.value| ==> r.value[i].item.score >= y.score
  {
    if |scored| == 0 then Ok([])
    else if regime !in Settings.FilterPercentiles then Raised("KeyError: " + regime)
    else Ok(Select(scored, threshold, draw, maxStocks))
  }

  /** The selection once the percentile is known. */
  function Select(scored: seq<Scored>, threshold: real, draw: seq<Scored>, maxStocks: nat): (r: seq<Selected>)
    requires IsExplorationDraw(draw, scored, threshold, maxStocks)
    ensures var k := Count(scored, AtLeast(threshold)) + |draw|; |r| == if maxStocks <= k then maxStocks else k
    ensures forall i :: 0 <= i < |r| ==> (r[i].reason == TopScore <==> r[i].item.score >= threshold)
    ensures SortedDesc(Items(r), ScoreKey)
    ensures multiset(Items(r)) <= multiset(scored)
    ensures forall i :: 0 <= i < |r| && r[i].reason == Exploration ==> r[i].item in draw
    ensures forall y :: y in scored && y.score >= threshold && y !in Items(r) ==>
      |r| == maxStocks && forall i :: 0 <= i < |r| ==> r[i].item.score >= y.score
  {
    var pool := Pool(scored, threshold, draw);
    PoolSize(scored, threshold, draw, maxStocks);
    CountIsFilterLength(scored, AtLeast(threshold));
    PoolIsFromFrame(scored, threshold, draw, maxStocks);
    PoolMembers(scored, threshold, draw);
    var r := Finalists(pool, threshold, maxStocks);
    ExplorationIsDrawn(r, pool, draw, threshold);
    r
  }

  /** A selected row labelled exploration is one of the draw. */
  lemma ExplorationIsDrawn(r: seq<Selected>, pool: seq<Scored>, draw: seq<Scored>, threshold: real)
    requires multiset(Items(r)) <= multiset(pool)
    requires forall i :: 0 <= i < |r| ==> (r[i].reason == TopScore <==> r[i].item.score >= threshold)
    requires forall x :: x in pool && x.score < threshold ==> x in draw
    ensures forall i :: 0 <= i < |r| && r[i].reason == Exploration ==> r[i].item in draw
  {
    forall i | 0 <= i < |r| && r[i].reason == Exploration
      ensures r[i].item in draw
    {
      assert Items(r)[i] == r[i].item;
      assert r[i].item in multiset(Items(r));
    }
  }

  /** The pool below the threshold is the draw; at or above it, every
      scored row is in the pool. */
  lemma PoolMembers(scored: seq<Scored>, threshold: real, draw: seq<Scored>)
    ensures forall x :: x in Pool(scored, threshold, draw) && x.score < threshold ==> x in draw
    ensures forall y :: y in scored && y.score >= threshold ==> y in Pool(scored, threshold, draw)
  {
    var candidates := Filter(scored, AtLeast(threshold));
    forall y | y in scored && y.score >= threshold
      ensures y in candidates
    {
      var k :| 0 <= k < |scored| && scored[k] == y;
      assert AtLeast(threshold)(scored[k]);
    }
    forall x | x in candidates
      ensures x.score >= threshold
    {
      var k :| 0 <= k < |candidates| && candidates[k] == x;
    }
  }

  /** The rows at or above the threshold, followed by the exploration draw
      when some rows fall below it. */
  function Pool(scored: seq<Scored>, threshold: real, draw: seq<Scored>): seq<Scored>
  {
    var candidates := Filter(scored, AtLeast(threshold));
    var remaining := Filter(scored, Below(threshold));
    if |remaining| > 0 then candidates + draw else candidates
  }

  lemma PoolSize(scored: seq<Scored>, threshold: real, draw: seq<Scored>, maxStocks: nat)
    requires |draw| == ExploreCount(maxStocks, |Filter(scored, Below(threshold))|)
    ensures |Pool(scored, threshold, draw)| == |Filter(scored, AtLeast(threshold))| + |draw|
  {
    if |Filter(scored, Below(threshold))| == 0 {
      assert |draw| == 0;
    }
  }

  /** The best `maxStocks` rows of the pool, best first, labelled: a
      pool row left out means the selection is full of rows scoring at
      least as well. */
  function Finalists(pool: seq<Scored>, threshold: real, maxStocks: nat): (r: seq<Selected>)
    ensures |r| == if maxStocks <= |pool| then maxStocks else |pool|
    ensures multiset(Items(r)) <= multiset(pool)
    ensures SortedDesc(Items(r), ScoreKey)
    ensures forall y :: y in pool && y !in Items(r) ==>
      |r| == maxStocks && forall i :: 0 <= i < |r| ==> r[i].item.score >= y.score
    ensures forall i :: 0 <= i < |r| ==> (r[i].reason == TopScore <==> r[i].item.score >= threshold)
  {
    var sorted := SortDesc(pool, ScoreKey);
    var best := Take(sorted, maxStocks);
    TakeKeepsOrder(sorted, ScoreKey, maxStocks);
    TakeIsSubMultiset(sorted, maxStocks);
    BestOfPool(pool, sorted, best, maxStocks);
    var r := Label(best, threshold);
    assert Items(r) == best;
    r
  }

  lemma BestOfPool(pool: seq<Scored>, sorted: seq<Scored>, best: seq<Scored>, maxStocks: nat)
    requires sorted == SortDesc(pool, ScoreKey) && best == Take(sorted, maxStocks)
    ensures forall y :: y in pool && y !in best ==>
      |best| == maxStocks && forall i :: 0 <= i < |best| ==> best[i].score >= y.score
  {
    forall y | y in pool && y !in best
      ensures |best| == maxStocks && forall i :: 0 <= i < |best| ==> best[i].score >= y.score
    {
      SortDescMembers(pool, ScoreKey, y);
      PrefixOfSortedIsTop(sorted, ScoreKey, maxStocks, y);
    }
  }

  /** The pool holds each scored row at most as often as the frame does:
      the draw comes from the rows below the threshold, the candidates from
      the rest. */
  lemma PoolIsFromFrame(scored: seq<Scored>, threshold: real, draw: seq<Scored>, maxStocks: nat)
    requires IsExplorationDraw(draw, scored, threshold, maxStocks)
    ensures multiset(Pool(scored, threshold, draw)) <= multiset(scored)
  {
    var candidates := Filter(scored, AtLeast(threshold));
    var remaining := Filter(scored, Below(threshold));
    FilterSplit(scored, AtLeast(threshold));
    FilterSameTest(scored, Negate(AtLeast(threshold)), Below(threshold));
    assert multiset(candidates) + multiset(remaining) == multiset(scored);
    if |remaining| > 0 {
      assert multiset(candidates + draw) == multiset(candidates) + multiset(draw);
    }
  }

  /** Every selected row comes from the frame, no more often than it
      occurs there; a row labelled exploration is one of the draw and
      below the threshold. */
  lemma SelectedRowsComeFromInput(scored: seq<Scored>, regime: string, threshold: real, draw: seq<Scored>, maxStocks: nat)
    requires IsExplorationDraw(draw, scored, threshold, maxStocks)
    requires SelectCandidates(scored, regime, threshold, draw, maxStocks).Ok?
    ensures var sel := SelectCandidates(scored, regime, threshold, draw, maxStocks).value;
      forall i :: 0 <= i < |sel| ==> sel[i].item in scored
    ensures var sel := SelectCandidates(scored, regime, threshold, draw, maxStocks).value;
      forall i :: 0 <= i < |sel| && sel[i].reason == Exploration ==> sel[i].item in draw && sel[i].item.score < threshold
  {
    var sel := SelectCandidates(scored, regime, threshold, draw, maxStocks).value;
    forall i | 0 <= i < |sel|
      ensures sel[i].item in scored
    {
      assert Items(sel)[i] == sel[i].item;
      assert sel[i].item in multiset(Items(sel));
    }
  }

  // ------------------------------------------------------------------
  // The full filter
  // ------------------------------------------------------------------

  /** `run_full_filter`: the three layers in turn on the latest metrics.
      No stocks give an empty frame; the regime's percentile is looked up
      only when some stock survives the hard constraints. */
  function RunFullFilter(stocks: seq<Row>, regime: string, hasSma20: bool, threshold: real, draw: seq<Scored>, maxStocks: nat)
    : (r: Result<seq<Selected>, string>)
    requires IsExplorationDraw(draw, RegimeScoring(regime, HardConstraints(stocks), hasSma20), threshold, maxStocks)
    ensures |stocks| == 0 ==> r == Ok([])
    ensures r.Raised? <==> |HardConstraints(stocks)| > 0 && regime !in Settings.FilterPercentiles
    ensures r.Ok? ==> |r.value| <= maxStocks
  {
    SelectCandidates(RegimeScoring(regime, HardConstraints(stocks), hasSma20), regime, threshold, draw, maxStocks)
  }

  /** Every scored row passed the hard constraints and carries its regime
      score. */
  lemma ScoredRowsAreTradeable(stocks: seq<Row>, regime: string, hasSma20: bool)
    ensures forall x :: x in RegimeScoring(regime, HardConstraints(stocks), hasSma20) ==>
      x.row in stocks && Tradeable(x.row) && x.score == Score(regime, x.row, hasSma20)
  {
    var layer1 := HardConstraints(stocks);
    var all := ScoreAll(regime, layer1, hasSma20);
    var layer2 := RegimeScoring(regime, layer1, hasSma20);
    forall x | x in layer2
      ensures x.row in stocks && Tradeable(x.row) && x.score == Score(regime, x.row, hasSma20)
    {
      assert x in multiset(layer2);
      assert x in multiset(all);
      var k :| 0 <= k < |all| && all[k] == x;
      assert layer1[k] in layer1;
    }
  }

  /** Every row the full filter selects, for its score or by exploration,
      passed the hard constraints and carries its regime score. */
  lemma SelectedRowsAreTradeable(stocks: seq<Row>, regime: string, hasSma20: bool, threshold: real, draw: seq<Scored>, maxStocks: nat)
    requires IsExplorationDraw(draw, RegimeScoring(regime, HardConstraints(stocks), hasSma20), threshold, maxStocks)
    requires RunFullFilter(stocks, regime, hasSma20, threshold, draw, maxStocks).Ok?
    ensures var sel := RunFullFilter(stocks, regime, hasSma20, threshold, draw, maxStocks).value;
      forall i :: 0 <= i < |sel| ==>
        sel[i].item.row in stocks && Tradeable(sel[i].item.row) && sel[i].item.score == Score(regime, sel[i].item.row, hasSma20)
  {
    SelectedRowsComeFromInput(RegimeScoring(regime, HardConstraints(stocks), hasSma20), regime, threshold, draw, maxStocks);
    ScoredRowsAreTradeable(stocks, regime, hasSma20);
  }
}
