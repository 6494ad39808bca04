/** The portfolio context handed to the trading agents
    (`src/tradingagents/context_provider.py`): the ODIN database context,
    the broker context with its position filter, their merge with the
    regime analysis, and the fallback. Query results, broker answers and
    the configured defaults are inputs. */
module ContextProvider {

  import opened Wrappers

  /** One row of `regime_history`. */
  datatype RegimeRow = RegimeRow(regime: string, fearGreedValue: int, vix: real)

  /** A position as the broker reports it. */
  datatype BrokerPosition = BrokerPosition(symbol: string, position: int, marketValue: real, averageCost: real,
                                           unrealizedPnl: real, unrealizedPnlPct: Option<real>)

  /** A position as the context forwards it, tagged `IBKR_LIVE`. */
  datatype ContextPosition = ContextPosition(symbol: string, shares: int, marketValue: real, averageCost: real,
                                             unrealizedPnl: real, unrealizedPnlPct: real)

  datatype BrokerSummary = BrokerSummary(totalPositions: int, totalCash: real, portfolioValue: real, netLiquidation: real)

  datatype Alignment = Alignment(currentRegime: string, strategy: string, positionCount: string)

  datatype RegimeAnalysis = RegimeAnalysis(totalPositions: nat, winners: nat, losers: nat, winRate: real, alignment: Alignment)

  datatype Context = Context(
    dataSource: string, positions: seq<ContextPosition>, totalPositions: int,
    cash: real, portfolioValue: real, netLiquidation: Option<real>,
    recentRegimes: seq<RegimeRow>, recentCandidates: seq<string>,
    regimeAnalysis: Option<RegimeAnalysis>)

  /** The configured defaults the database and fallback contexts carry. */
  datatype Defaults = Defaults(cash: real, portfolioValue: real, positions: int)

  /** `_get_odin_context`: the last regimes and selected candidates (empty
      when their query fails) with default money figures and no
      positions. */
  function OdinContext(regimes: seq<RegimeRow>, candidates: seq<string>, d: Defaults): (c: Context)
    ensures c.dataSource == "ODIN_DB" && c.positions == [] && c.totalPositions == 0
    ensures c.recentRegimes == regimes && c.recentCandidates == candidates && c.regimeAnalysis.None?
  {
    Context("ODIN_DB", [], 0, d.cash, d.portfolioValue, None, regimes, candidates, None)
  }

  /** `_get_fallback_context`. */
  function FallbackContext(d: Defaults): (c: Context)
    ensures c.dataSource == "FALLBACK" && c.positions == [] && c.totalPositions == d.positions
    ensures c.recentRegimes == [] && c.regimeAnalysis.None?
  {
    Context("FALLBACK", [], d.positions, d.cash, d.portfolioValue, None, [], [], None)
  }

  function Forward(p: BrokerPosition): ContextPosition
  {
    ContextPosition(p.symbol, p.position, p.marketValue, p.averageCost, p.unrealizedPnl, p.unrealizedPnlPct.GetOr(0.0))
  }

  /** The broker positions with a non-zero share count, in order. */
  function OpenPositions(ps: seq<BrokerPosition>): (r: seq<ContextPosition>)
    ensures |r| <= |ps|
    ensures forall i :: 0 <= i < |r| ==> r[i].shares != 0
  {
    if |ps| == 0 then []
    else (if ps[0].position != 0 then [Forward(ps[0])] else []) + OpenPositions(ps[1..])
  }

  /** A broker position is forwarded exactly when it holds shares. */
  lemma {:induction false} ForwardsExactlyOpen(ps: seq<BrokerPosition>, p: BrokerPosition)
    requires p in ps
    ensures Forward(p) in OpenPositions(ps) <==> p.position != 0
  {
    if ps[0] != p {
      ForwardsExactlyOpen(ps[1..], p);
    }
    if p.position == 0 {
      assert Forward(p).shares == 0;
    }
  }

  /** `_get_ibkr_context`: no broker data, or a failure fetching it, gives
      no context. */
  function IbkrContext(data: Option<(seq<BrokerPosition>, BrokerSummary)>): (r: Option<Context>)
    ensures data.None? <==> r.None?
    ensures r.Some? ==> (r.value.dataSource == "IBKR" && r.value.positions == OpenPositions(data.value.0)
      && r.value.totalPositions == data.value.1.totalPositions && r.value.netLiquidation == Some(data.value.1.netLiquidation)
      && r.value.regimeAnalysis.None?)
  {
    match data
    case None => None
    case Some((ps, s)) =>
      Some(Context("IBKR", OpenPositions(ps), s.totalPositions, s.totalCash, s.portfolioValue, Some(s.netLiquidation), [], [], None))
  }

  predicate FearRegime(regime: string) { regime in {"extreme_fear", "fear"} }

  /** `_check_regime_alignment`: mean reversion in fear, momentum
      otherwise; fewer than five positions is conservative. */
  function CheckRegimeAlignment(positions: seq<ContextPosition>, regime: string): (a: Alignment)
    ensures a.currentRegime == regime
    ensures a.strategy == "mean_reversion" <==> FearRegime(regime)
    ensures a.strategy == "momentum" <==> !FearRegime(regime)
    ensures a.positionCount == "conservative" <==> |positions| < 5
    ensures a.positionCount == "aggressive" <==> |positions| >= 5
  {
    Alignment(regime, if FearRegime(regime) then "mean_reversion" else "momentum",
      if |positions| < 5 then "conservative" else "aggressive")
  }

  function Winners(ps: seq<ContextPosition>): nat
  {
    if |ps| == 0 then 0 else (if ps[0].unrealizedPnl > 0.0 then 1 else 0) + Winners(ps[1..])
  }

  function Losers(ps: seq<ContextPosition>): nat
  {
    if |ps| == 0 then 0 else (if ps[0].unrealizedPnl < 0.0 then 1 else 0) + Losers(ps[1..])
  }

  /** Flat positions are neither winners nor losers. */
  lemma {:induction false} WinnersAndLosersDisjoint(ps: seq<ContextPosition>)
    ensures Winners(ps) + Losers(ps) <= |ps|
  {
    if |ps| > 0 {
      WinnersAndLosersDisjoint(ps[1..]);
    }
  }

  /** `_analyze_positions_vs_regime`: winners, losers and the win rate in
      percent, zero without positions. */
  function AnalyzePositions(ps: seq<ContextPosition>, regime: string): (a: RegimeAnalysis)
    ensures a.totalPositions == |ps| && a.winners == Winners(ps) && a.losers == Losers(ps)
    ensures a.winners + a.losers <= a.totalPositions
    ensures 0.0 <= a.winRate <= 100.0
    ensures |ps| == 0 ==> a.winRate == 0.0
    ensures |ps| > 0 ==> a.winRate * |ps| as real == a.winners as real * 100.0
    ensures a.alignment == CheckRegimeAlignment(ps, regime)
  {
    WinnersAndLosersDisjoint(ps);
    var w := Winners(ps);
    var rate := if |ps| > 0 then RateOf(w, |ps|) else 0.0;
    RegimeAnalysis(|ps|, w, Losers(ps), rate, CheckRegimeAlignment(ps, regime))
  }

  /** `winners / total * 100`. */
  function RateOf(w: nat, n: nat): (q: real)
    requires 0 < n && w <= n
    ensures 0.0 <= q <= 100.0 && q * n as real == w as real * 100.0
  {
    var f := w as real / n as real;
    assert f * n as real == w as real;
    assert f <= 1.0 by {
      if f > 1.0 {
        assert f * n as real > 1.0 * n as real;
      }
    }
    f * 100.0
  }

  /** `_merge_contexts`: the broker context with the database's regimes and
      candidates; the regime analysis, against the latest regime, only when
      there are both positions and regimes. A broker context never carries
      an analysis of its own. */
  function MergeContexts(odin: Context, ibkr: Context): (m: Context)
    ensures m == ibkr.(dataSource := "IBKR + ODIN", recentRegimes := odin.recentRegimes,
                       recentCandidates := odin.recentCandidates, regimeAnalysis := m.regimeAnalysis)
    ensures m.regimeAnalysis.Some? <==> |ibkr.positions| > 0 && |odin.recentRegimes| > 0
    ensures m.regimeAnalysis.Some? ==> m.regimeAnalysis.value == AnalyzePositions(ibkr.positions, odin.recentRegimes[0].regime)
  {
    var m := ibkr.(dataSource := "IBKR + ODIN", recentRegimes := odin.recentRegimes, recentCandidates := odin.recentCandidates,
                   regimeAnalysis := None);
    if |m.positions| > 0 && |odin.recentRegimes| > 0 then
      m.(regimeAnalysis := Some(AnalyzePositions(m.positions, odin.recentRegimes[0].regime)))
    else m
  }

  /** `get_portfolio_context`: `odin` is `None` when building the database
      context fails. The broker context is used only when the broker is
      enabled, connected and answers; any failure falls back. */
  function PortfolioContext(useIbkr: bool, connected: bool, odin: Option<Context>,
                            broker: Option<(seq<BrokerPosition>, BrokerSummary)>, d: Defaults): (c: Context)
    ensures odin.None? ==> c == FallbackContext(d)
    ensures odin.Some? && useIbkr && connected && broker.Some? ==> c == MergeContexts(odin.value, IbkrContext(broker).value)
    ensures odin.Some? && !(useIbkr && connected && broker.Some?) ==> c == odin.value
  {
    match odin
    case None => FallbackContext(d)
    case Some(o) =>
      if useIbkr && connected then
        match IbkrContext(broker)
        case Some(i) => MergeContexts(o, i)
        case None => o
      else o
  }

  /** Whatever happens, every position in the context holds shares. */
  lemma ContextPositionsHoldShares(useIbkr: bool, connected: bool, regimes: seq<RegimeRow>, candidates: seq<string>,
                                   broker: Option<(seq<BrokerPosition>, BrokerSummary)>, d: Defaults, ok: bool)
    ensures var c := PortfolioContext(useIbkr, connected, if ok then Some(OdinContext(regimes, candidates, d)) else None, broker, d);
      forall i :: 0 <= i < |c.positions| ==> c.positions[i].shares != 0
  {
  }
}
