/** The IBKR helpers (`src/brokers/ibkr/utils.py`) and the overnight
    processor's market-hours check (`src/batch/overnight_processor.py`).
    The clock is an input: a weekday, Monday = 0, and the time of day in
    microseconds, the resolution of Python's `datetime.time`. */
module BrokerUtils {

  import opened Numbers
  import opened Wrappers

  datatype Clock = Clock(weekday: nat, micros: nat)

  /** A clock reading `datetime.now()` can give. */
  predicate ValidClock(c: Clock)
  {
    c.weekday < 7 && c.micros < 24 * 3600 * 1000000
  }

  function Micros(h: nat, m: nat): nat { (h * 3600 + m * 60) * 1000000 }

  const MarketOpen: nat := Micros(9, 30)
  const MarketClose: nat := Micros(16, 0)

  predicate Weekend(c: Clock) { c.weekday >= 5 }

  /** `is_market_open`: a weekday between 9:30 and 16:00, both ends
      included. */
  function IsMarketOpen(c: Clock): (r: bool)
    requires ValidClock(c)
    ensures Weekend(c) ==> !r
    ensures !Weekend(c) ==> (r <==> MarketOpen <= c.micros <= MarketClose)
  {
    if c.weekday >= 5 then false
    else MarketOpen <= c.micros && c.micros <= MarketClose
  }

  /** `OvernightBatchProcessor.is_market_closed`: the weekend, or before
      9:30, or after 16:00. */
  function IsMarketClosed(c: Clock): (r: bool)
    requires ValidClock(c)
    ensures Weekend(c) ==> r
    ensures !Weekend(c) ==> (r <==> c.micros < MarketOpen || c.micros > MarketClose)
  {
    if c.weekday >= 5 then true
    else c.micros < MarketOpen || c.micros > MarketClose
  }

  /** The two checks agree at every instant, the opening and closing
      minutes included. */
  lemma ClosedIsNotOpen(c: Clock)
    requires ValidClock(c)
    ensures IsMarketClosed(c) <==> !IsMarketOpen(c)
  {
  }

  /** Exactly 16:00 still counts as open; one microsecond later it is
      closed. */
  lemma CloseIsInclusive(weekday: nat)
    requires weekday < 5
    ensures IsMarketOpen(Clock(weekday, MarketClose))
    ensures !IsMarketOpen(Clock(weekday, MarketClose + 1))
  {
  }

  /** `calculate_position_size`: the risk budget over the stop distance,
      capped by what 95% of the account buys; a zero distance or entry
      price divides by zero. */
  function PositionSize(accountValue: real, riskPct: real, stopDistance: real, entry: real): (r: Result<int, string>)
    ensures r.Raised? <==> stopDistance == 0.0 || entry == 0.0
    ensures r.Ok? ==> (r.value <= Trunc(accountValue * riskPct / stopDistance)
      && r.value <= Trunc(accountValue * 0.95 / entry))
    ensures r.Ok? ==> (r.value == Trunc(accountValue * riskPct / stopDistance)
      || r.value == Trunc(accountValue * 0.95 / entry))
  {
    if stopDistance == 0.0 || entry == 0.0 then Raised("ZeroDivisionError")
    else
      var shares := Trunc(accountValue * riskPct / stopDistance);
      var affordable := Trunc(accountValue * 0.95 / entry);
      Ok(if shares <= affordable then shares else affordable)
  }

  /** For positive inputs the position costs at most 95% of the account
      and risks at most the risk budget. */
  lemma PositionFitsAccount(accountValue: real, riskPct: real, stopDistance: real, entry: real)
    requires accountValue > 0.0 && riskPct >= 0.0 && stopDistance > 0.0 && entry > 0.0
    ensures var n := PositionSize(accountValue, riskPct, stopDistance, entry).value;
      n >= 0 && n as real * entry <= accountValue * 0.95 && n as real * stopDistance <= accountValue * riskPct
  {
    var n := PositionSize(accountValue, riskPct, stopDistance, entry).value;
    var affordable := Trunc(accountValue * 0.95 / entry);
    var shares := Trunc(accountValue * riskPct / stopDistance);
    assert n as real <= accountValue * 0.95 / entry;
    assert n as real <= accountValue * riskPct / stopDistance;
    MulBelow(n as real, accountValue * 0.95, entry);
    MulBelow(n as real, accountValue * riskPct, stopDistance);
  }

  lemma MulBelow(n: real, a: real, d: real)
    requires d > 0.0 && n <= a / d
    ensures n * d <= a
  {
    assert n * d <= (a / d) * d;
  }
}
