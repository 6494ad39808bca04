/** The position tracker (`src/portfolio/tracker.py`): exit rules for open
    positions, the exit record with its P&L and category, the running
    maximum gain and drawdown, and the selected-versus-excluded feedback
    report. Prices come in as parameters. Dates are day numbers, read back
    as dates; the code as written reads the entry date back as SQLite's
    text instead, which `UpdateOneAsWritten` and `ExitPositionAsWritten`
    keep. */
module PositionTracker {

  import opened Numbers
  import opened Wrappers

  datatype ExitReason = StopLoss | Target | TimeLimit

  datatype Category = Winner | Loser | Neutral

  datatype ExitRecord = ExitRecord(
    exitDate: int, exitPrice: real, reason: ExitReason, holdingDays: int,
    pnlDollars: real, pnlPercent: real, category: Category)

  /** One row of the tracking table. */
  datatype Tracked = Tracked(
    batchId: string, symbol: string, entryDate: int, entryPrice: real, shares: Option<int>,
    wasSelected: bool, conviction: real,
    maxGain: Option<real>, maxDrawdown: Option<real>, holdingDays: Option<int>,
    exit: Option<ExitRecord>)

  /** The stop and target from the original analysis; `None` for the
      target stands for the `float('inf')` default. */
  datatype Targets = Targets(stopLoss: real, targetPrice: Option<real>)

  /** `_get_exit_targets`: the analysis row's stop and target, or stop 0 and
      no target when the row is missing. */
  function ExitTargets(analysis: Option<(real, real)>): (t: Targets)
    ensures analysis.None? ==> t == Targets(0.0, None)
    ensures analysis.Some? ==> t == Targets(analysis.value.0, Some(analysis.value.1))
  {
    match analysis
    case Some((stop, target)) => Targets(stop, Some(target))
    case None => Targets(0.0, None)
  }

  /** The exit rule of `update_positions`: stop first, then target, then
      ten days held. */
  function ExitCheck(price: real, t: Targets, heldDays: int, checkExits: bool): (r: Option<ExitReason>)
    ensures r == Some(StopLoss) <==> checkExits && price <= t.stopLoss
    ensures r == Some(Target) <==> checkExits && price > t.stopLoss && t.targetPrice.Some? && price >= t.targetPrice.value
    ensures r == Some(TimeLimit) <==>
      checkExits && price > t.stopLoss && (t.targetPrice.None? || price < t.targetPrice.value) && heldDays >= 10
  {
    if !checkExits then None
    else if price <= t.stopLoss then Some(StopLoss)
    else if t.targetPrice.Some? && price >= t.targetPrice.value then Some(Target)
    else if heldDays >= 10 then Some(TimeLimit)
    else None
  }

  /** Without an analysis row only the time limit can close a position at a
      positive price. */
  lemma MissingTargetsOnlyTimeOut(price: real, heldDays: int)
    requires price > 0.0
    ensures ExitCheck(price, ExitTargets(None), heldDays, true) == (if heldDays >= 10 then Some(TimeLimit) else None)
  {
  }

  /** Winner above +3%, loser below -2%, neutral in between. */
  function CategoryOf(pnlPercent: real): (c: Category)
    ensures c == Winner <==> pnlPercent > 3.0
    ensures c == Loser <==> pnlPercent < -2.0
    ensures c == Neutral <==> -2.0 <= pnlPercent <= 3.0
  {
    if pnlPercent > 3.0 then Winner else if pnlPercent < -2.0 then Loser else Neutral
  }

  /** `_exit_position`: P&L in percent of the entry price, in dollars with
      missing shares counted as none; a zero entry price divides by zero. */
  function ExitPosition(p: Tracked, exitPrice: real, reason: ExitReason, today: int): (r: Result<Tracked, string>)
    ensures p.entryPrice == 0.0 <==> r.Raised?
    ensures r.Ok? ==> r.value == p.(exit := r.value.exit) && r.value.exit.Some?
    ensures r.Ok? ==> var x := r.value.exit.value;
      x.pnlPercent * p.entryPrice == (exitPrice - p.entryPrice) * 100.0
      && x.pnlDollars == (exitPrice - p.entryPrice) * p.shares.GetOr(0) as real
      && x.category == CategoryOf(x.pnlPercent) && x.holdingDays == today - p.entryDate
      && x.exitPrice == exitPrice && x.reason == reason && x.exitDate == today
  {
    if p.entryPrice == 0.0 then Raised("ZeroDivisionError")
    else
      var pnlPercent := (exitPrice - p.entryPrice) / p.entryPrice * 100.0;
      var pnlDollars := (exitPrice - p.entryPrice) * p.shares.GetOr(0) as real;
      Ok(p.(exit := Some(ExitRecord(today, exitPrice, reason, today - p.entryDate, pnlDollars, pnlPercent, CategoryOf(pnlPercent)))))
  }

  /** `_update_position_metrics`: the running extremes, a missing one
      read as 0, and the days held. */
  function UpdateMetrics(p: Tracked, pnlPercent: real, heldDays: int): (r: Tracked)
    ensures r == p.(maxGain := r.maxGain, maxDrawdown := r.maxDrawdown, holdingDays := Some(heldDays))
    ensures r.maxGain.Some? && r.maxGain.value >= pnlPercent && r.maxGain.value >= p.maxGain.GetOr(0.0)
    ensures r.maxDrawdown.Some? && r.maxDrawdown.value <= pnlPercent && r.maxDrawdown.value <= p.maxDrawdown.GetOr(0.0)
  {
    p.(maxGain := Some(MaxReal(p.maxGain.GetOr(0.0), pnlPercent)),
       maxDrawdown := Some(MinReal(p.maxDrawdown.GetOr(0.0), pnlPercent)),
       holdingDays := Some(heldDays))
  }

  /** Successive metric updates, one per observed P&L. */
  function UpdateAll(p: Tracked, pnls: seq<real>, heldDays: int): (r: Tracked)
    ensures |pnls| > 0 ==> r.maxGain.Some? && r.maxDrawdown.Some?
    ensures |pnls| == 0 ==> r == p
    decreases |pnls|
  {
    if |pnls| == 0 then p else UpdateAll(UpdateMetrics(p, pnls[0], heldDays), pnls[1..], heldDays)
  }

  /** After a run of updates the maximum gain is the largest of 0, the old
      value and every observed P&L, and it was one of them. */
  lemma {:induction false} GainIsRunningMaximum(p: Tracked, pnls: seq<real>, heldDays: int)
    requires |pnls| > 0
    decreases |pnls|
    ensures var g := UpdateAll(p, pnls, heldDays).maxGain.value;
      g >= p.maxGain.GetOr(0.0) && (forall i :: 0 <= i < |pnls| ==> g >= pnls[i])
      && (g == p.maxGain.GetOr(0.0) || exists i :: 0 <= i < |pnls| && g == pnls[i])
  {
    var q := UpdateMetrics(p, pnls[0], heldDays);
    if |pnls| > 1 {
      GainIsRunningMaximum(q, pnls[1..], heldDays);
      var g := UpdateAll(p, pnls, heldDays).maxGain.value;
      assert forall i :: 1 <= i < |pnls| ==> pnls[i] == pnls[1..][i - 1];
      if g != q.maxGain.GetOr(0.0) {
        var i :| 0 <= i < |pnls[1..]| && g == pnls[1..][i];
        assert g == pnls[i + 1];
      }
    }
  }

  /** What `update_positions` learned about one open position: the quote,
      or `None` when fetching it raised. */
  function UpdateOne(p: Tracked, quote: Option<real>, targets: Targets, today: int, checkExits: bool): (r: Tracked)
    ensures p.exit.Some? || quote.None? || p.entryPrice == 0.0 ==> r == p
    ensures r.symbol == p.symbol && r.batchId == p.batchId && r.entryPrice == p.entryPrice
    ensures p.exit.None? && quote.Some? && p.entryPrice != 0.0 ==>
      match ExitCheck(quote.value, targets, today - p.entryDate, checkExits)
      case Some(reason) => r.exit.Some? && r.exit.value.reason == reason && r.exit.value.exitPrice == quote.value
      case None => r.exit.None? && r.holdingDays == Some(today - p.entryDate)
  {
    if p.exit.Some? || quote.None? || p.entryPrice == 0.0 then p
    else
      var price := quote.value;
      var held := today - p.entryDate;
      match ExitCheck(price, targets, held, checkExits)
      case Some(reason) => ExitPosition(p, price, reason, today).value
      case None => UpdateMetrics(p, (price - p.entryPrice) / p.entryPrice * 100.0, held)
  }

  /** `update_positions`: every open position, one quote and target pair
      each; closed positions are not touched. */
  function UpdatePositions(ps: seq<Tracked>, quotes: seq<Option<real>>, targets: seq<Targets>, today: int, checkExits: bool)
    : (r: seq<Tracked>)
    requires |quotes| == |ps| && |targets| == |ps|
    ensures |r| == |ps|
    ensures forall i :: 0 <= i < |ps| ==> r[i] == UpdateOne(ps[i], quotes[i], targets[i], today, checkExits)
  {
    seq(|ps|, i requires 0 <= i < |ps| => UpdateOne(ps[i], quotes[i], targets[i], today, checkExits))
  }

  /** A closed position stays closed with its exit record, and an update
      never reopens one. */
  lemma ClosedStaysClosed(ps: seq<Tracked>, quotes: seq<Option<real>>, targets: seq<Targets>, today: int, checkExits: bool, i: nat)
    requires |quotes| == |ps| && |targets| == |ps| && i < |ps| && ps[i].exit.Some?
    ensures UpdatePositions(ps, quotes, targets, today, checkExits)[i] == ps[i]
  {
  }

  // ------------------------------------------------------------------
  // The entry date as the code reads it back
  // ------------------------------------------------------------------

  /** A `DATE` column as a query hands it back: a `date`, or the ISO text
      SQLite stored for the given day. */
  datatype DbDate = AsDate(day: int) | AsText(day: int)

  /** The pipeline's connection is opened without `detect_types`, so the
      `date` written at entry comes back as its text. */
  function ReadEntryDate(p: Tracked): (v: DbDate)
    ensures v.AsText? && v.day == p.entryDate
  {
    AsText(p.entryDate)
  }

  /** `(datetime.now().date() - entry_date).days`: the days between for a
      `date`; a `date` minus a `str` raises `TypeError`. */
  function DaysSince(today: int, v: DbDate): (r: Result<int, string>)
    ensures r.Ok? <==> v.AsDate?
    ensures r.Ok? ==> r.value == today - v.day
  {
    match v
    case AsDate(d) => Ok(today - d)
    case AsText(_) => Raised("TypeError: unsupported operand type(s) for -: 'datetime.date' and 'str'")
  }

  /** `update_positions` for one open position as written: the days held
      are computed from the entry date read back as text, which raises;
      the `except` logs the error and the row is left as it was. */
  function UpdateOneAsWritten(p: Tracked, quote: Option<real>, targets: Targets, today: int, checkExits: bool): (r: Tracked)
    ensures r == p
  {
    if p.exit.Some? || quote.None? then p
    else if DaysSince(today, ReadEntryDate(p)).Raised? then p
    else UpdateOne(p, quote, targets, today, checkExits)
  }

  /** `update_positions` as written: no open position ever changes. */
  function UpdatePositionsAsWritten(ps: seq<Tracked>, quotes: seq<Option<real>>, targets: seq<Targets>, today: int, checkExits: bool)
    : (r: seq<Tracked>)
    requires |quotes| == |ps| && |targets| == |ps|
    ensures r == ps
  {
    seq(|ps|, i requires 0 <= i < |ps| => UpdateOneAsWritten(ps[i], quotes[i], targets[i], today, checkExits))
  }

  /** `_exit_position` as written: once the row is found, the days held
      are computed from its text date, which raises before anything is
      written. */
  function ExitPositionAsWritten(p: Tracked, exitPrice: real, reason: ExitReason, today: int): (r: Result<Tracked, string>)
    ensures r.Raised?
  {
    var held := DaysSince(today, ReadEntryDate(p));
    if held.Raised? then Raised(held.error) else ExitPosition(p, exitPrice, reason, today)
  }

  /** An open position bought at 100 with its stop at 95, quoted at 90:
      the exit rule calls for a stop-loss exit, which the corrected update
      makes; as written the row stays open, and a direct exit raises. */
  lemma AsWrittenStopLossStaysOpen()
    ensures var p := Tracked("b1", "XYZ", 10, 100.0, Some(10), true, 70.0, None, None, None, None);
      var t := Targets(95.0, Some(110.0));
      && ExitCheck(90.0, t, 2, true) == Some(StopLoss)
      && UpdateOne(p, Some(90.0), t, 12, true).exit.Some?
      && UpdateOne(p, Some(90.0), t, 12, true).exit.value.reason == StopLoss
      && UpdateOneAsWritten(p, Some(90.0), t, 12, true).exit.None?
      && ExitPosition(p, 90.0, StopLoss, 12).Ok?
      && ExitPositionAsWritten(p, 90.0, StopLoss, 12).Raised?
  {
  }

  // ------------------------------------------------------------------
  // analyze_feedback
  // ------------------------------------------------------------------

  /** A closed position as the feedback query reads it. */
  datatype Closed = Closed(symbol: string, wasSelected: bool, conviction: real, pnlPercent: real, category: Category)

  function Mean(s: seq<real>): real
  {
    if |s| == 0 then 0.0 else Total(s) / |s| as real
  }

  function Total(s: seq<real>): real
  {
    if |s| == 0 then 0.0 else s[0] + Total(s[1..])
  }

  function Selected(rows: seq<Closed>): (r: seq<Closed>)
    ensures forall x :: x in r <==> x in rows && x.wasSelected
    ensures |r| <= |rows|
  {
    if |rows| == 0 then []
    else (if rows[0].wasSelected then [rows[0]] else []) + Selected(rows[1..])
  }

  function Excluded(rows: seq<Closed>): (r: seq<Closed>)
    ensures forall x :: x in r <==> x in rows && !x.wasSelected
    ensures |r| <= |rows|
  {
    if |rows| == 0 then []
    else (if rows[0].wasSelected then [] else [rows[0]]) + Excluded(rows[1..])
  }

  lemma {:induction false} SelectedExcludedPartition(rows: seq<Closed>)
    ensures |Selected(rows)| + |Excluded(rows)| == |rows|
  {
    if |rows| > 0 {
      SelectedExcludedPartition(rows[1..]);
    }
  }

  function Returns(rows: seq<Closed>): (r: seq<real>)
    ensures |r| == |rows| && forall i :: 0 <= i < |rows| ==> r[i] == rows[i].pnlPercent
  {
    seq(|rows|, i requires 0 <= i < |rows| => rows[i].pnlPercent)
  }

  function Winners(rows: seq<Closed>): nat
  {
    if |rows| == 0 then 0 else (if rows[0].category == Winner then 1 else 0) + Winners(rows[1..])
  }

  function WinRate(rows: seq<Closed>): real
  {
    if |rows| == 0 then 0.0 else Winners(rows) as real / |rows| as real
  }

  /** `avg` is the mean return of `rows`: times their number it is their
      total return. */
  predicate AverageOf(avg: real, rows: seq<Closed>)
  {
    avg * |rows| as real == Total(Returns(rows))
  }

  /** `rate` is the share of winners among `rows`. */
  predicate WinRateOf(rate: real, rows: seq<Closed>)
  {
    rate * |rows| as real == Winners(rows) as real
  }

  lemma MeanScales(rows: seq<Closed>)
    ensures AverageOf(Mean(Returns(rows)), rows)
  {
    if |rows| > 0 {
      var n := |rows| as real;
      assert Total(Returns(rows)) / n * n == Total(Returns(rows));
    }
  }

  lemma WinRateScales(rows: seq<Closed>)
    ensures WinRateOf(WinRate(rows), rows)
  {
    if |rows| > 0 {
      var n := |rows| as real;
      assert Winners(rows) as real / n * n == Winners(rows) as real;
    }
  }

  /** `nlargest(1)`: the first row with the highest return. */
  function Best(rows: seq<Closed>): (r: Closed)
    requires |rows| > 0
    ensures r in rows && forall x :: x in rows ==> x.pnlPercent <= r.pnlPercent
  {
    if |rows| == 1 then rows[0]
    else
      var rest := Best(rows[1..]);
      if rest.pnlPercent > rows[0].pnlPercent then rest else rows[0]
  }

  /** `nsmallest(1)`: the first row with the lowest return. */
  function Worst(rows: seq<Closed>): (r: Closed)
    requires |rows| > 0
    ensures r in rows && forall x :: x in rows ==> x.pnlPercent >= r.pnlPercent
  {
    if |rows| == 1 then rows[0]
    else
      var rest := Worst(rows[1..]);
      if rest.pnlPercent < rows[0].pnlPercent then rest else rows[0]
  }

  datatype Feedback =
    | NoClosedPositions
    | Feedback(
        periodDays: int, totalPositions: nat,
        selectedCount: nat, selectedAvgReturn: real, selectedWinRate: real,
        excludedCount: nat, excludedAvgReturn: real, excludedWinRate: real,
        selectionEdge: real, bestMissed: Option<Closed>, worstSelected: Option<Closed>)

  /** The report dict `analyze_feedback` builds from the closed positions. */
  function FeedbackOf(rows: seq<Closed>, lookbackDays: int): (f: Feedback)
    requires |rows| > 0
    ensures f.Feedback? && f.totalPositions == |rows| && f.selectedCount + f.excludedCount == |rows|
    ensures f.selectedCount == 0 || f.excludedCount == 0 ==> f.selectionEdge == 0.0
    ensures f.selectedCount > 0 && f.excludedCount > 0 ==> f.selectionEdge == f.selectedAvgReturn - f.excludedAvgReturn
    ensures f.bestMissed.Some? <==> f.excludedCount > 0
    ensures f.bestMissed.Some? ==> !f.bestMissed.value.wasSelected && forall x :: x in rows && !x.wasSelected ==> x.pnlPercent <= f.bestMissed.value.pnlPercent
    ensures f.worstSelected.Some? <==> f.selectedCount > 0
    ensures f.worstSelected.Some? ==> f.worstSelected.value.wasSelected && forall x :: x in rows && x.wasSelected ==> x.pnlPercent >= f.worstSelected.value.pnlPercent
    ensures f.selectedCount == |Selected(rows)| && f.excludedCount == |Excluded(rows)|
    ensures AverageOf(f.selectedAvgReturn, Selected(rows)) && AverageOf(f.excludedAvgReturn, Excluded(rows))
    ensures f.selectedCount == 0 ==> f.selectedAvgReturn == 0.0 && f.selectedWinRate == 0.0
    ensures f.excludedCount == 0 ==> f.excludedAvgReturn == 0.0 && f.excludedWinRate == 0.0
    ensures WinRateOf(f.selectedWinRate, Selected(rows)) && WinRateOf(f.excludedWinRate, Excluded(rows))
    ensures f.bestMissed.Some? ==> f.bestMissed.value in rows
    ensures f.worstSelected.Some? ==> f.worstSelected.value in rows
  {
    var sel := Selected(rows);
    var exc := Excluded(rows);
    SelectedExcludedPartition(rows);
    var selAvg := Mean(Returns(sel));
    var excAvg := Mean(Returns(exc));
    MeanScales(sel);
    MeanScales(exc);
    WinRateScales(sel);
    WinRateScales(exc);
    Feedback(lookbackDays, |rows|,
      |sel|, selAvg, WinRate(sel),
      |exc|, excAvg, WinRate(exc),
      if |sel| > 0 && |exc| > 0 then selAvg - excAvg else 0.0,
      if |exc| > 0 then Some(Best(exc)) else None,
      if |sel| > 0 then Some(Worst(sel)) else None)
  }

  lemma {:induction false} TotalAtLeast(rows: seq<Closed>, lo: real)
    requires forall x :: x in rows ==> x.pnlPercent >= lo
    ensures Total(Returns(rows)) >= |rows| as real * lo
    decreases |rows|
  {
    if |rows| > 0 {
      TotalAtLeast(rows[1..], lo);
      assert Returns(rows)[1..] == Returns(rows[1..]);
    }
  }

  lemma {:induction false} TotalAtMost(rows: seq<Closed>, hi: real)
    requires forall x :: x in rows ==> x.pnlPercent <= hi
    ensures Total(Returns(rows)) <= |rows| as real * hi
    decreases |rows|
  {
    if |rows| > 0 {
      TotalAtMost(rows[1..], hi);
      assert Returns(rows)[1..] == Returns(rows[1..]);
    }
  }

  lemma {:induction false} WinnersAtMost(rows: seq<Closed>)
    ensures Winners(rows) <= |rows|
    decreases |rows|
  {
    if |rows| > 0 {
      WinnersAtMost(rows[1..]);
    }
  }

  /** A mean return is bounded by any bound on every return. */
  lemma AverageBounded(avg: real, rows: seq<Closed>, lo: real, hi: real)
    requires |rows| > 0 && AverageOf(avg, rows)
    requires forall x :: x in rows ==> lo <= x.pnlPercent <= hi
    ensures lo <= avg <= hi
  {
    var n := |rows| as real;
    TotalAtLeast(rows, lo);
    TotalAtMost(rows, hi);
    SignOfFactor(avg - lo, n);
    SignOfFactor(hi - avg, n);
  }

  /** A product with a positive factor has the sign of the other one. */
  lemma SignOfFactor(x: real, n: real)
    requires n > 0.0
    ensures x >= 0.0 <==> x * n >= 0.0
  {
  }

  /** A win rate is a fraction. */
  lemma WinRateIsFraction(rate: real, rows: seq<Closed>)
    requires |rows| > 0 && WinRateOf(rate, rows)
    ensures 0.0 <= rate <= 1.0
  {
    var n := |rows| as real;
    WinnersAtMost(rows);
    SignOfFactor(rate, n);
    SignOfFactor(1.0 - rate, n);
  }

  /** The report's figures are those of the rows: each average return lies
      between the worst and best return of its side, the worst selection
      and the best miss included, and the win rates are fractions. */
  lemma FeedbackFiguresBracketed(rows: seq<Closed>, lookbackDays: int)
    requires |rows| > 0
    ensures var f := FeedbackOf(rows, lookbackDays);
      && (f.worstSelected.Some? ==> f.worstSelected.value.pnlPercent <= f.selectedAvgReturn <= Best(Selected(rows)).pnlPercent)
      && (f.bestMissed.Some? ==> Worst(Excluded(rows)).pnlPercent <= f.excludedAvgReturn <= f.bestMissed.value.pnlPercent)
      && 0.0 <= f.selectedWinRate <= 1.0 && 0.0 <= f.excludedWinRate <= 1.0
  {
    var f := FeedbackOf(rows, lookbackDays);
    var sel := Selected(rows);
    var exc := Excluded(rows);
    if |sel| > 0 {
      AverageBounded(f.selectedAvgReturn, sel, Worst(sel).pnlPercent, Best(sel).pnlPercent);
      WinRateIsFraction(f.selectedWinRate, sel);
    }
    if |exc| > 0 {
      AverageBounded(f.excludedAvgReturn, exc, Worst(exc).pnlPercent, Best(exc).pnlPercent);
      WinRateIsFraction(f.excludedWinRate, exc);
    }
  }

  /** `analyze_feedback` as written: with any closed position it saves the
      report through `json.dumps`, but the module never imports `json`, so
      the call raises `NameError`. */
  function AnalyzeFeedbackAsWritten(rows: seq<Closed>, lookbackDays: int): (r: Result<Feedback, string>)
    ensures |rows| == 0 ==> r == Ok(NoClosedPositions)
  {
    if |rows| == 0 then Ok(NoClosedPositions)
    else Raised("NameError: name 'json' is not defined")
  }

  lemma FeedbackRaisesAsWritten(rows: seq<Closed>, lookbackDays: int)
    requires |rows| > 0
    ensures AnalyzeFeedbackAsWritten(rows, lookbackDays).Raised?
  {
  }

  /** `analyze_feedback` with the report returned: a message when nothing
      closed in the window, the report otherwise. */
  function AnalyzeFeedback(rows: seq<Closed>, lookbackDays: int): (r: Feedback)
    ensures r.NoClosedPositions? <==> |rows| == 0
    ensures r.Feedback? ==> r.totalPositions == r.selectedCount + r.excludedCount
  {
    if |rows| == 0 then NoClosedPositions else FeedbackOf(rows, lookbackDays)
  }
}
