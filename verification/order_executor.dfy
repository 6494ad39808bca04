/** The IBKR order executor (`src/brokers/ibkr_order_executor.py`, and its
    copy `src/ibkr/ibkr_order_executor.py`, which differs only in printed
    text): position sizing, the stop-loss price, order validation, the
    pending/executed/failed bookkeeping driven by status events, and the
    live-trading switch. The broker connection itself is left out. */
module OrderExecutor {

  import opened Numbers
  import opened Wrappers
  import Seqs

  /** `calculate_position_size`: risk 1% of the account, scaled by the
      regime, against a 2.5 ATR stop; cap at the maximum position value;
      buy one share when the result is zero but one share fits. A zero ATR
      or price divides by zero. */
  function PositionSize(maxPositionPct: real, regimeMultiplier: real, accountValue: real, price: real, atr: real)
    : (r: Result<int, string>)
    ensures r.Raised? <==> atr == 0.0 || price == 0.0
    ensures r.Ok? ==> var byRisk := Trunc(accountValue * 0.01 * regimeMultiplier / (atr * 2.5));
      var maxValue := accountValue * maxPositionPct;
      var byValue := Trunc(maxValue / price);
      var m := if byRisk <= byValue then byRisk else byValue;
      r.value == (if m == 0 && price <= maxValue then 1 else m)
  {
    if atr == 0.0 || price == 0.0 then Raised("ZeroDivisionError")
    else
      var byRisk := Trunc(accountValue * 0.01 * regimeMultiplier / (atr * 2.5));
      var maxValue := accountValue * maxPositionPct;
      var byValue := Trunc(maxValue / price);
      var shares := if byRisk <= byValue then byRisk else byValue;
      Ok(if shares == 0 && price <= maxValue then 1 else shares)
  }

  /** With a positive price the size never exceeds the shares the maximum
      position value buys, never exceeds the risk budget unless it is the
      single-share bump, and is at least one exactly when one share fits
      and the risk budget is not negative. */
  lemma PositionSizeBounds(maxPositionPct: real, regimeMultiplier: real, accountValue: real, price: real, atr: real)
    requires price > 0.0 && atr > 0.0
    ensures var r := PositionSize(maxPositionPct, regimeMultiplier, accountValue, price, atr).value;
      var maxValue := accountValue * maxPositionPct;
      var byRisk := Trunc(accountValue * 0.01 * regimeMultiplier / (atr * 2.5));
      r <= Trunc(maxValue / price)
      && (r <= byRisk || r == 1)
      && (byRisk >= 0 ==> (r >= 1 <==> price <= maxValue))
  {
    var maxValue := accountValue * maxPositionPct;
    if price <= maxValue {
      assert maxValue / price >= 1.0;
    } else {
      assert maxValue / price < 1.0;
    }
  }

  /** Round half to even at an integer, as Python's `round` does on an
      exact value. */
  function RoundHalfEven(x: real): (n: int)
    ensures x - 0.5 <= n as real <= x + 0.5
  {
    var f := x.Floor;
    var frac := x - f as real;
    if frac > 0.5 then f + 1
    else if frac < 0.5 then f
    else if f % 2 == 0 then f else f + 1
  }

  function StopMultiplier(vix: real): (m: real)
    ensures vix < 15.0 ==> m == 1.5
    ensures 15.0 <= vix < 30.0 ==> m == 2.5
    ensures vix >= 30.0 ==> m == 3.0
  {
    if vix < 15.0 then 1.5 else if vix < 30.0 then 2.5 else 3.0
  }

  /** The stop before rounding: entry less the volatility-scaled ATR
      distance, but never more than 10% below entry. */
  function RawStop(entry: real, atr: real, vix: real): (s: real)
    ensures s >= entry - entry * 0.10
    ensures atr * StopMultiplier(vix) <= entry * 0.10 ==> s == entry - atr * StopMultiplier(vix)
  {
    var distance := atr * StopMultiplier(vix);
    var maxLoss := entry * 0.10;
    if distance > maxLoss then entry - maxLoss else entry - distance
  }

  /** `calculate_stop_loss_price`: the stop rounded to cents. */
  function StopLossPrice(entry: real, atr: real, vix: real): (r: real)
    ensures RawStop(entry, atr, vix) - 0.005 <= r <= RawStop(entry, atr, vix) + 0.005
    ensures r >= entry * 0.9 - 0.005
  {
    RoundHalfEven(RawStop(entry, atr, vix) * 100.0) as real / 100.0
  }

  /** A non-negative ATR puts the stop at or below the entry. */
  lemma StopBelowEntry(entry: real, atr: real, vix: real)
    requires atr >= 0.0 && entry >= 0.0
    ensures RawStop(entry, atr, vix) <= entry
    ensures StopLossPrice(entry, atr, vix) <= entry + 0.005
  {
  }

  // ------------------------------------------------------------------
  // Executor state
  // ------------------------------------------------------------------

  const PaperPort: int := 4002
  const LivePort: int := 4001
  const ConfirmationCode: string := "ENABLE_LIVE_TRADING_ODIN"

  datatype Action = Buy | Sell

  function ActionValue(a: Action): string
  {
    match a
    case Buy => "BUY"
    case Sell => "SELL"
  }

  datatype Pending = Pending(orderId: int, symbol: string, action: string, shares: int, status: string)

  datatype Executor = Executor(
    port: int, maxPositionPct: real, maxExposurePct: real, ordersEnabled: bool,
    pending: seq<Pending>, executed: seq<Pending>, failed: seq<Pending>)

  /** A new executor; the percentages come in as whole percents. */
  function NewExecutor(port: int, maxPositionSizePct: real, maxTotalExposurePct: real): (e: Executor)
    ensures e.ordersEnabled && e.pending == [] && e.executed == [] && e.failed == []
    ensures e.maxPositionPct * 100.0 == maxPositionSizePct && e.maxExposurePct * 100.0 == maxTotalExposurePct
  {
    Executor(port, maxPositionSizePct / 100.0, maxTotalExposurePct / 100.0, true, [], [], [])
  }

  predicate IsPaper(e: Executor) { e.port == PaperPort }

  /** Pending order ids are unique, as dict keys are. */
  predicate DistinctIds(p: seq<Pending>)
  {
    forall i, j :: 0 <= i < j < |p| ==> p[i].orderId != p[j].orderId
  }

  function Find(p: seq<Pending>, id: int): (r: Option<nat>)
    ensures r.None? <==> forall i :: 0 <= i < |p| ==> p[i].orderId != id
    ensures r.Some? ==> r.value < |p| && p[r.value].orderId == id
  {
    if |p| == 0 then None
    else if p[0].orderId == id then Some(0)
    else
      var r := Find(p[1..], id);
      assert forall i :: 1 <= i < |p| ==> p[i] == p[1..][i - 1];
      if r.Some? then Some(r.value + 1) else None
  }

  /** A broker position as `validate_order` reads it. */
  datatype Held = Held(symbol: string, marketValue: real)

  function GrossExposure(ps: seq<Held>): (r: real)
    ensures r >= 0.0
  {
    if |ps| == 0 then 0.0 else Abs(ps[0].marketValue) + GrossExposure(ps[1..])
  }

  predicate Holds(ps: seq<Held>, symbol: string)
  {
    exists i :: 0 <= i < |ps| && ps[i].symbol == symbol
  }

  predicate PendingFor(e: Executor, symbol: string, a: Action)
  {
    exists i :: 0 <= i < |e.pending| && e.pending[i].symbol == symbol && e.pending[i].action == ActionValue(a)
  }

  /** `validate_order`: the checks in order, the first failing one giving
      the message. The exposure ratio divides by the account value, so a
      zero account raises once the first three checks pass. */
  function ValidateOrder(e: Executor, symbol: string, a: Action, shares: int, accountValue: real, ps: seq<Held>)
    : (r: Result<(bool, string), string>)
    ensures r.Raised? <==> e.ordersEnabled && shares > 0 && !(Holds(ps, symbol) && a == Buy) && accountValue == 0.0
    ensures r.Ok? ==> (r.value.0 <==>
      e.ordersEnabled && shares > 0 && !(Holds(ps, symbol) && a == Buy)
      && GrossExposure(ps) / accountValue <= e.maxExposurePct
      && !PendingFor(e, symbol, a) && IsPaper(e))
    ensures r.Ok? && !e.ordersEnabled ==> r.value == (false, "Order execution disabled")
    ensures r.Ok? && e.ordersEnabled && shares <= 0 ==> r.value == (false, "Invalid share quantity")
  {
    if !e.ordersEnabled then Ok((false, "Order execution disabled"))
    else if shares <= 0 then Ok((false, "Invalid share quantity"))
    else if Holds(ps, symbol) && a == Buy then Ok((false, "Already have position in " + symbol))
    else if accountValue == 0.0 then Raised("ZeroDivisionError")
    else if GrossExposure(ps) / accountValue > e.maxExposurePct then Ok((false, "Total exposure exceeds limit"))
    else if PendingFor(e, symbol, a) then Ok((false, "Pending order already exists for " + symbol))
    else if !IsPaper(e) then Ok((false, "Live trading not enabled - safety check"))
    else Ok((true, "Order validated"))
  }

  /** `enable_live_trading`: the exact code is required; on the live port
      it switches orders on, on any other port it only reports success. */
  function EnableLiveTrading(e: Executor, code: string): (r: (Executor, bool))
    ensures r.1 <==> code == ConfirmationCode
    ensures r.0 == (if r.1 && e.port == LivePort then e.(ordersEnabled := true) else e)
  {
    if code != ConfirmationCode then (e, false)
    else if e.port == LivePort then (e.(ordersEnabled := true), true)
    else (e, true)
  }

  /** `disable_orders`: the emergency stop. */
  function DisableOrders(e: Executor): (r: Executor)
    ensures !r.ordersEnabled && r == e.(ordersEnabled := false)
  {
    e.(ordersEnabled := false)
  }

  /** Enabling live trading does not get an order through on the live
      port: validation still fails there. */
  lemma LivePortAlwaysRejected(e: Executor, code: string, symbol: string, a: Action, shares: int, accountValue: real, ps: seq<Held>)
    requires e.port == LivePort
    ensures var e2 := EnableLiveTrading(e, code).0;
      var v := ValidateOrder(e2, symbol, a, shares, accountValue, ps);
      v.Ok? ==> !v.value.0
  {
  }

  /** After the emergency stop no order validates. */
  lemma DisabledRejectsAll(e: Executor, symbol: string, a: Action, shares: int, accountValue: real, ps: seq<Held>)
    ensures ValidateOrder(DisableOrders(e), symbol, a, shares, accountValue, ps) == Ok((false, "Order execution disabled"))
  {
  }

  // ------------------------------------------------------------------
  // Order status events
  // ------------------------------------------------------------------

  predicate Terminal(status: string) { status in {"Filled", "Cancelled", "ApiCancelled"} }

  function Without(p: seq<Pending>, i: nat): (r: seq<Pending>)
    requires i < |p|
    ensures |r| == |p| - 1
    ensures DistinctIds(p) ==> DistinctIds(r) && forall k :: 0 <= k < |r| ==> r[k].orderId != p[i].orderId
    ensures forall k :: 0 <= k < |r| ==> r[k] in p
  {
    var r := p[..i] + p[i + 1..];
    assert forall k :: 0 <= k < |r| ==> r[k] == if k < i then p[k] else p[k + 1];
    r
  }

  /** `_on_order_status`: a pending order takes the new status; Filled
      moves it to the executed list, Cancelled and ApiCancelled to the
      failed list. Events for ids that are not pending are ignored. */
  function OnOrderStatus(e: Executor, id: int, status: string): (r: Executor)
    ensures Find(e.pending, id).None? ==> r == e
    ensures r.port == e.port && r.ordersEnabled == e.ordersEnabled
    ensures Find(e.pending, id).Some? ==> var i := Find(e.pending, id).value; var o := e.pending[i].(status := status);
      if status == "Filled" then r.pending == Without(e.pending, i) && r.executed == e.executed + [o] && r.failed == e.failed
      else if Terminal(status) then r.pending == Without(e.pending, i) && r.executed == e.executed && r.failed == e.failed + [o]
      else r.pending == e.pending[i := o] && r.executed == e.executed && r.failed == e.failed
  {
    match Find(e.pending, id)
    case None => e
    case Some(i) =>
      var o := e.pending[i].(status := status);
      if status == "Filled" then e.(pending := Without(e.pending, i), executed := e.executed + [o])
      else if Terminal(status) then e.(pending := Without(e.pending, i), failed := e.failed + [o])
      else e.(pending := e.pending[i := o])
  }

  function Total(e: Executor): nat { |e.executed| + |e.failed| + |e.pending| }

  /** A status event never creates or loses an order, keeps pending ids
      unique, and once an order has left the pending list further events
      for it change nothing. */
  lemma StatusEventConservesOrders(e: Executor, id: int, status: string)
    requires DistinctIds(e.pending)
    ensures var r := OnOrderStatus(e, id, status);
      Total(r) == Total(e) && DistinctIds(r.pending)
      && (Terminal(status) ==> Find(r.pending, id).None?)
  {
    match Find(e.pending, id)
    case None =>
    case Some(i) =>
      var o := e.pending[i].(status := status);
      if !Terminal(status) {
        assert forall k :: 0 <= k < |e.pending| ==> e.pending[i := o][k].orderId == e.pending[k].orderId;
      }
  }

  lemma TerminalIsFinal(e: Executor, id: int, status: string, later: string)
    requires DistinctIds(e.pending) && Terminal(status)
    ensures var r := OnOrderStatus(e, id, status);
      OnOrderStatus(r, id, later) == r
  {
    StatusEventConservesOrders(e, id, status);
  }

  /** `cancel_order`: true when the id is pending and the broker accepts the
      request, false otherwise; the order stays pending until the status
      event arrives. */
  function CancelOrder(e: Executor, id: int, brokerRaises: bool): (r: (Executor, bool))
    ensures r.0 == e
    ensures r.1 <==> Find(e.pending, id).Some? && !brokerRaises
  {
    (e, Find(e.pending, id).Some? && !brokerRaises)
  }

  datatype Summary = Summary(totalOrders: nat, executed: nat, failed: nat, pending: nat, successRate: real)

  /** `get_execution_summary`. */
  function ExecutionSummary(e: Executor): (s: Summary)
    ensures s.totalOrders == s.executed + s.failed + s.pending
    ensures s.executed == |e.executed| && s.failed == |e.failed| && s.pending == |e.pending|
    ensures 0.0 <= s.successRate <= 100.0
    ensures s.totalOrders == 0 ==> s.successRate == 0.0
    ensures s.totalOrders > 0 ==> s.successRate * s.totalOrders as real == s.executed as real * 100.0
  {
    var total := |e.executed| + |e.failed| + |e.pending|;
    Summary(total, |e.executed|, |e.failed|, |e.pending|,
      if total > 0 then |e.executed| as real / total as real * 100.0 else 0.0)
  }

  /** A fill raises the success rate's numerator and keeps the total. */
  lemma FillCountsAsSuccess(e: Executor, id: int)
    requires DistinctIds(e.pending) && Find(e.pending, id).Some?
    ensures var r := OnOrderStatus(e, id, "Filled");
      ExecutionSummary(r).executed == ExecutionSummary(e).executed + 1
      && ExecutionSummary(r).totalOrders == ExecutionSummary(e).totalOrders
  {
    StatusEventConservesOrders(e, id, "Filled");
  }
}
