/** The mock broker (`src/brokers/base/mock_broker.py`): cash, a position
    table keyed by symbol in insertion order, and an order list; orders
    fill at once. The random fill price and the random drift of the test
    positions are parameters. */
module MockBroker {

  import opened Wrappers
  import opened Text
  import Seqs

  datatype Holding = Holding(position: int, avgCost: real, marketPrice: real, marketValue: real, unrealizedPnl: real)

  /** The positions dict: symbol and holding, in insertion order. */
  type Positions = seq<(string, Holding)>

  datatype Order = Order(orderId: string, symbol: string, action: string, quantity: int, orderType: string, status: string, fillPrice: real)

  datatype Broker = Broker(cash: real, positions: Positions, orders: seq<Order>)

  /** Dict keys are unique. */
  predicate DistinctKeys(ps: Positions)
  {
    forall i, j :: 0 <= i < j < |ps| ==> ps[i].0 != ps[j].0
  }

  function Lookup(ps: Positions, s: string): (r: Option<Holding>)
    ensures r.Some? <==> exists i :: 0 <= i < |ps| && ps[i].0 == s
  {
    if |ps| == 0 then None
    else if ps[0].0 == s then Some(ps[0].1)
    else
      var r := Lookup(ps[1..], s);
      assert forall i :: 1 <= i < |ps| ==> ps[i] == ps[1..][i - 1];
      r
  }

  lemma DistinctTail(ps: Positions)
    ensures DistinctKeys(ps) && |ps| > 0 ==> DistinctKeys(ps[1..]) && Lookup(ps[1..], ps[0].0).None?
  {
    if DistinctKeys(ps) && |ps| > 0 {
      assert forall i :: 0 <= i < |ps[1..]| ==> ps[1..][i] == ps[i + 1];
    }
  }

  lemma DistinctCons(x: (string, Holding), rest: Positions)
    ensures DistinctKeys(rest) && Lookup(rest, x.0).None? ==> DistinctKeys([x] + rest)
  {
    if DistinctKeys(rest) && Lookup(rest, x.0).None? {
      assert forall i :: 0 <= i < |rest| ==> ([x] + rest)[i + 1] == rest[i];
    }
  }

  lemma LookupCons(x: (string, Holding), rest: Positions)
    ensures forall t :: Lookup([x] + rest, t) == if t == x.0 then Some(x.1) else Lookup(rest, t)
  {
    assert ([x] + rest)[1..] == rest;
  }

  /** `d[s] = h`: in place when present, at the end otherwise. */
  function Put(ps: Positions, s: string, h: Holding): (r: Positions)
    ensures forall t :: Lookup(r, t) == if t == s then Some(h) else Lookup(ps, t)
    ensures Lookup(ps, s).None? ==> r == ps + [(s, h)]
    ensures Lookup(ps, s).Some? ==> |r| == |ps|
    ensures DistinctKeys(ps) ==> DistinctKeys(r)
  {
    if |ps| == 0 then
      LookupCons((s, h), []);
      [(s, h)]
    else
      assert ps == [ps[0]] + ps[1..];
      LookupCons(ps[0], ps[1..]);
      if ps[0].0 == s then
        LookupCons((s, h), ps[1..]);
        DistinctTail(ps);
        DistinctCons((s, h), ps[1..]);
        [(s, h)] + ps[1..]
      else
        var rest := Put(ps[1..], s, h);
        LookupCons(ps[0], rest);
        DistinctTail(ps);
        DistinctCons(ps[0], rest);
        assert Lookup(ps[1..], s).None? ==> [ps[0]] + rest == ps + [(s, h)];
        [ps[0]] + rest
  }

  /** `del d[s]`. */
  function Remove(ps: Positions, s: string): (r: Positions)
    ensures forall t :: t != s ==> Lookup(r, t) == Lookup(ps, t)
    ensures DistinctKeys(ps) ==> Lookup(r, s).None? && DistinctKeys(r)
    ensures |r| == if Lookup(ps, s).Some? then |ps| - 1 else |ps|
  {
    if |ps| == 0 then []
    else if ps[0].0 == s then ps[1..]
    else
      var rest := Remove(ps[1..], s);
      assert forall i :: 1 <= i < |ps| ==> ps[i] == ps[1..][i - 1];
      var r := [ps[0]] + rest;
      assert forall t :: Lookup(r, t) == if t == ps[0].0 then Some(ps[0].1) else Lookup(rest, t);
      DistinctTail(ps);
      DistinctCons(ps[0], rest);
      r
  }

  /** Net shares held: the position, or 0 without an entry. */
  function Shares(ps: Positions, s: string): int
  {
    match Lookup(ps, s)
    case Some(h) => h.position
    case None => 0
  }

  /** `_init_test_positions`: AAPL, MSFT and NVDA with their costs, valued
      at the given market prices. */
  function InitialBroker(cash: real, aapl: real, msft: real, nvda: real): (b: Broker)
    ensures b.cash == cash && |b.orders| == 0 && DistinctKeys(b.positions) && |b.positions| == 3
    ensures Shares(b.positions, "AAPL") == 100 && Shares(b.positions, "MSFT") == 50 && Shares(b.positions, "NVDA") == 25
    ensures forall i :: 0 <= i < 3 ==> var h := b.positions[i].1;
      h.marketValue == h.position as real * h.marketPrice
      && h.unrealizedPnl == h.marketValue - h.position as real * h.avgCost
  {
    var ps := [
      ("AAPL", Holding(100, 145.0, aapl, 100.0 * aapl, 100.0 * aapl - 100.0 * 145.0)),
      ("MSFT", Holding(50, 380.0, msft, 50.0 * msft, 50.0 * msft - 50.0 * 380.0)),
      ("NVDA", Holding(25, 450.0, nvda, 25.0 * nvda, 25.0 * nvda - 25.0 * 450.0))];
    assert ps[1..][1..] == [ps[2]];
    assert Lookup(ps, "NVDA") == Lookup(ps[1..], "NVDA") == Lookup(ps[1..][1..], "NVDA") == Some(ps[2].1);
    assert Lookup(ps, "MSFT") == Lookup(ps[1..], "MSFT") == Some(ps[1].1);
    Broker(cash, ps, [])
  }

  function OrderId(n: nat): string { "MOCK_" + NatToString(n) }

  /** Two different order numbers never give the same id. */
  lemma OrderIdsDiffer(m: nat, n: nat)
    requires m != n
    ensures OrderId(m) != OrderId(n)
  {
    if OrderId(m) == OrderId(n) {
      assert NatToString(m) == OrderId(m)[5..];
      assert NatToString(n) == OrderId(n)[5..];
      ParseNatToString(m);
      ParseNatToString(n);
    }
  }

  /** `place_order` at fill price `fill`: every order is filled and kept.
      A BUY debits cash and adds to the position, opening one at the fill
      price if needed; a SELL credits cash, held or not, and deletes a
      position that reaches exactly zero. Other actions only record the
      order. */
  function PlaceOrder(b: Broker, symbol: string, action: string, quantity: int, orderType: string, fill: real)
    : (r: (Broker, Order))
    requires DistinctKeys(b.positions)
    ensures r.1 == Order(OrderId(|b.orders| + 1), symbol, action, quantity, orderType, "FILLED", fill)
    ensures r.0.orders == b.orders + [r.1]
    ensures DistinctKeys(r.0.positions)
    ensures forall t :: t != symbol ==> Lookup(r.0.positions, t) == Lookup(b.positions, t)
    ensures action == "BUY" ==> (r.0.cash == b.cash - quantity as real * fill
      && Shares(r.0.positions, symbol) == Shares(b.positions, symbol) + quantity
      && Lookup(r.0.positions, symbol).Some?)
    ensures action == "BUY" && Lookup(b.positions, symbol).None? ==>
      Lookup(r.0.positions, symbol) == Some(Holding(quantity, fill, fill, quantity as real * fill, 0.0))
    ensures action == "SELL" ==> r.0.cash == b.cash + quantity as real * fill
    ensures action == "SELL" && Lookup(b.positions, symbol).None? ==> Lookup(r.0.positions, symbol).None?
    ensures action == "SELL" && Lookup(b.positions, symbol).Some? ==>
      (Lookup(r.0.positions, symbol).None? <==> Shares(b.positions, symbol) == quantity)
      && (Lookup(r.0.positions, symbol).Some? ==> Shares(r.0.positions, symbol) == Shares(b.positions, symbol) - quantity)
    ensures action != "BUY" && action != "SELL" ==> r.0.cash == b.cash && r.0.positions == b.positions
  {
    var order := Order(OrderId(|b.orders| + 1), symbol, action, quantity, orderType, "FILLED", fill);
    var orders := b.orders + [order];
    var cost := quantity as real * fill;
    if action == "BUY" then
      var h := match Lookup(b.positions, symbol)
        case Some(h) => h.(position := h.position + quantity)
        case None => Holding(quantity, fill, fill, cost, 0.0);
      (Broker(b.cash - cost, Put(b.positions, symbol, h), orders), order)
    else if action == "SELL" then
      var ps := match Lookup(b.positions, symbol)
        case Some(h) =>
          if h.position - quantity == 0 then Remove(b.positions, symbol)
          else Put(b.positions, symbol, h.(position := h.position - quantity))
        case None => b.positions;
      (Broker(b.cash + cost, ps, orders), order)
    else (b.(orders := orders), order)
  }

  /** After n orders from a fresh broker the ids are MOCK_1 .. MOCK_n. */
  predicate IdsInSequence(orders: seq<Order>)
  {
    forall i :: 0 <= i < |orders| ==> orders[i].orderId == OrderId(i + 1)
  }

  lemma OrdersStayNumbered(b: Broker, symbol: string, action: string, quantity: int, orderType: string, fill: real)
    requires DistinctKeys(b.positions) && IdsInSequence(b.orders)
    ensures IdsInSequence(PlaceOrder(b, symbol, action, quantity, orderType, fill).0.orders)
  {
  }

  /** With ids in sequence no two orders share an id. */
  lemma NumberedIdsAreUnique(orders: seq<Order>, i: nat, j: nat)
    requires IdsInSequence(orders) && i < j < |orders|
    ensures orders[i].orderId != orders[j].orderId
  {
    OrderIdsDiffer(i + 1, j + 1);
  }

  // ------------------------------------------------------------------
  // Portfolio data
  // ------------------------------------------------------------------

  datatype Summary = Summary(totalCash: real, portfolioValue: real, netLiquidation: real, totalPositions: nat,
                             totalUnrealizedPnl: real, buyingPower: real)

  function MarketValue(ps: Positions): real
  {
    if |ps| == 0 then 0.0 else MarketValue(ps[..|ps| - 1]) + ps[|ps| - 1].1.marketValue
  }

  function UnrealizedPnl(ps: Positions): real
  {
    if |ps| == 0 then 0.0 else UnrealizedPnl(ps[..|ps| - 1]) + ps[|ps| - 1].1.unrealizedPnl
  }

  /** The `summary` of `get_portfolio_data`; the per-position rows divide
      by `position * avg_cost` and raise when it is zero. */
  function PortfolioSummary(b: Broker): (r: Result<Summary, string>)
    ensures r.Raised? <==> exists i :: 0 <= i < |b.positions| && b.positions[i].1.position as real * b.positions[i].1.avgCost == 0.0
    ensures r.Ok? ==> (r.value.netLiquidation == b.cash + r.value.portfolioValue
      && r.value.portfolioValue == MarketValue(b.positions)
      && r.value.totalPositions == |b.positions| && r.value.buyingPower == 4.0 * b.cash)
  {
    if exists i :: 0 <= i < |b.positions| && b.positions[i].1.position as real * b.positions[i].1.avgCost == 0.0
    then Raised("ZeroDivisionError")
    else
      var value := MarketValue(b.positions);
      Ok(Summary(b.cash, value, b.cash + value, |b.positions|, UnrealizedPnl(b.positions), 4.0 * b.cash))
  }

  /** Buying a symbol not yet held at its fill price moves the cost from
      cash into market value: net liquidation stays, one more position. */
  lemma NewBuyKeepsNetLiquidation(b: Broker, symbol: string, quantity: int, orderType: string, fill: real)
    requires DistinctKeys(b.positions) && Lookup(b.positions, symbol).None?
    ensures var b2 := PlaceOrder(b, symbol, "BUY", quantity, orderType, fill).0;
      b2.cash + MarketValue(b2.positions) == b.cash + MarketValue(b.positions)
      && |b2.positions| == |b.positions| + 1
  {
    var h := Holding(quantity, fill, fill, quantity as real * fill, 0.0);
    var ps := Put(b.positions, symbol, h);
    assert PlaceOrder(b, symbol, "BUY", quantity, orderType, fill).0.positions == ps;
    assert ps == b.positions + [(symbol, h)];
    assert ps[..|b.positions|] == b.positions;
    assert MarketValue(ps) == MarketValue(b.positions) + h.marketValue;
  }

  /** Selling a symbol not held credits its proceeds and opens no short
      position: net liquidation rises by the proceeds. */
  lemma UnheldSellCreditsCash(b: Broker, symbol: string, quantity: int, orderType: string, fill: real)
    requires DistinctKeys(b.positions) && Lookup(b.positions, symbol).None?
    ensures var b2 := PlaceOrder(b, symbol, "SELL", quantity, orderType, fill).0;
      b2.cash + MarketValue(b2.positions) == b.cash + MarketValue(b.positions) + quantity as real * fill
      && b2.positions == b.positions
  {
  }

  /** Selling more than is held leaves a short position instead of
      deleting the entry. */
  lemma OversellGoesShort(b: Broker, symbol: string, quantity: int, orderType: string, fill: real)
    requires DistinctKeys(b.positions) && Lookup(b.positions, symbol).Some?
    requires quantity > Shares(b.positions, symbol)
    ensures Shares(PlaceOrder(b, symbol, "SELL", quantity, orderType, fill).0.positions, symbol) < 0
  {
  }
}
