/** The feedback observer (`src/feedback/observer.py`): one observation row
    per symbol and day, filled in stage by stage as the pipeline runs, closed
    with an outcome when the position exits; missed opportunities; and the
    observation report's guard and conviction buckets. The SQLite tables
    are sequences of rows and dates are day numbers. */
module Observer {

  import opened Wrappers
  import Seqs

  /** `outcome_category`. */
  datatype Outcome = BigWin | Win | Flat | Loss | BigLoss

  /** The exit columns, written together by `update_position_outcome`. */
  datatype ExitInfo = ExitInfo(
    exitDate: int, exitPrice: real, holdingDays: int, pnlPercent: real, pnlDollars: real,
    exitReason: string, category: Outcome, wasCorrect: bool)

  /** A row of `observations`; `None` is SQL NULL. */
  datatype Observation = Observation(
    date: int, symbol: string, batchId: string,
    passedFilter: bool, filterScore: real, filterLayer: string, rsi: real, volumeRatio: real,
    analyzed: bool, decision: Option<string>, conviction: Option<real>,
    selected: Option<bool>,
    executed: bool, entryDate: Option<int>, entryPrice: Option<real>, regime: Option<string>,
    exit: Option<ExitInfo>)

  /** The `data` dict a stage passes in; `None` is a missing key. */
  datatype StageData = StageData(
    passed: Option<bool>, score: Option<real>, layer: Option<string>, rsi2: Option<real>, volumeRatio: Option<real>,
    decision: Option<string>, conviction: Option<real>, selected: Option<bool>,
    entryPrice: Option<real>, regime: Option<string>)

  // ------------------------------------------------------------------
  // Recording pipeline decisions
  // ------------------------------------------------------------------

  predicate IsToday(o: Observation, symbol: string, today: int)
  {
    o.symbol == symbol && o.date == today
  }

  predicate HasToday(t: seq<Observation>, symbol: string, today: int)
  {
    exists i :: 0 <= i < |t| && IsToday(t[i], symbol, today)
  }

  /** The row the existence query finds: the first of the symbol's rows
      for today. */
  function FindToday(t: seq<Observation>, symbol: string, today: int): (r: Option<nat>)
    ensures r.None? <==> !HasToday(t, symbol, today)
    ensures r.Some? ==> (r.value < |t| && IsToday(t[r.value], symbol, today)
      && forall j :: 0 <= j < r.value ==> !IsToday(t[j], symbol, today))
  {
    if |t| == 0 then None
    else if IsToday(t[0], symbol, today) then Some(0)
    else
      var r := FindToday(t[1..], symbol, today);
      assert forall j :: 1 <= j < |t| ==> t[j] == t[1..][j - 1];
      if r.Some? then Some(r.value + 1) else None
  }

  /** `_create_observation`: only the filter stage inserts a row. */
  function NewObservation(batchId: string, symbol: string, d: StageData, today: int): (o: Observation)
    ensures IsToday(o, symbol, today) && o.batchId == batchId
    ensures o.passedFilter == d.passed.GetOr(false) && o.filterScore == d.score.GetOr(0.0)
    ensures o.filterLayer == d.layer.GetOr("unknown")
    ensures !o.analyzed && !o.executed && o.decision.None? && o.selected.None? && o.exit.None?
  {
    Observation(today, symbol, batchId,
      d.passed.GetOr(false), d.score.GetOr(0.0), d.layer.GetOr("unknown"), d.rsi2.GetOr(0.0), d.volumeRatio.GetOr(0.0),
      false, None, None, None, false, None, None, None, None)
  }

  /** `_update_observation`: each later stage writes its own columns and
      nothing else; any other stage, the filter stage included, leaves the
      row as it is. */
  function UpdateObservation(o: Observation, stage: string, d: StageData, today: int): (r: Observation)
    ensures stage == "tradingagents" ==>
      r == o.(analyzed := true, decision := Some(d.decision.GetOr("HOLD")), conviction := Some(d.conviction.GetOr(50.0)))
    ensures stage == "portfolio_constructor" ==> r == o.(selected := Some(d.selected.GetOr(false)))
    ensures stage == "execution" ==>
      r == o.(executed := true, entryDate := Some(today), entryPrice := Some(d.entryPrice.GetOr(0.0)),
              regime := Some(d.regime.GetOr("unknown")))
    ensures stage !in {"tradingagents", "portfolio_constructor", "execution"} ==> r == o
  {
    if stage == "tradingagents" then
      o.(analyzed := true, decision := Some(d.decision.GetOr("HOLD")), conviction := Some(d.conviction.GetOr(50.0)))
    else if stage == "portfolio_constructor" then
      o.(selected := Some(d.selected.GetOr(false)))
    else if stage == "execution" then
      o.(executed := true, entryDate := Some(today), entryPrice := Some(d.entryPrice.GetOr(0.0)),
         regime := Some(d.regime.GetOr("unknown")))
    else o
  }

  /** A stage update never moves a row to another symbol or day, never
      closes it and never touches the filter columns. */
  lemma UpdateKeepsIdentity(o: Observation, stage: string, d: StageData, today: int)
    ensures var r := UpdateObservation(o, stage, d, today);
      r.symbol == o.symbol && r.date == o.date && r.batchId == o.batchId && r.exit == o.exit
      && r.passedFilter == o.passedFilter && r.filterScore == o.filterScore && r.filterLayer == o.filterLayer
  {
  }

  /** `record_pipeline_decision`: today's row for the symbol is updated if
      there is one; otherwise the stage may create one. */
  function RecordDecision(t: seq<Observation>, batchId: string, symbol: string, stage: string, d: StageData, today: int)
    : (r: seq<Observation>)
    ensures HasToday(t, symbol, today) ==> |r| == |t|
    ensures HasToday(t, symbol, today) ==> var i := FindToday(t, symbol, today).value;
      r[i] == UpdateObservation(t[i], stage, d, today) && forall j :: 0 <= j < |t| && j != i ==> r[j] == t[j]
    ensures !HasToday(t, symbol, today) && stage == "filter" ==> r == t + [NewObservation(batchId, symbol, d, today)]
    ensures !HasToday(t, symbol, today) && stage != "filter" ==> r == t
  {
    match FindToday(t, symbol, today)
    case Some(i) => t[i := UpdateObservation(t[i], stage, d, today)]
    case None => if stage == "filter" then t + [NewObservation(batchId, symbol, d, today)] else t
  }

  /** After any stage, the rows that were there are still there for the
      same symbols and days, and the recorded symbol has a row for today
      exactly when it had one or the stage was the filter. */
  lemma RecordKeepsRows(t: seq<Observation>, batchId: string, symbol: string, stage: string, d: StageData, today: int)
    ensures var r := RecordDecision(t, batchId, symbol, stage, d, today);
      |r| >= |t| && (forall j :: 0 <= j < |t| ==> r[j].symbol == t[j].symbol && r[j].date == t[j].date)
      && (HasToday(r, symbol, today) <==> HasToday(t, symbol, today) || stage == "filter")
  {
    var r := RecordDecision(t, batchId, symbol, stage, d, today);
    if HasToday(t, symbol, today) {
      var i := FindToday(t, symbol, today).value;
      UpdateKeepsIdentity(t[i], stage, d, today);
      assert IsToday(r[i], symbol, today);
    } else if stage == "filter" {
      assert IsToday(r[|t|], symbol, today);
    }
  }

  /** `integrate_observer_with_pipeline`: the filter stage for each
      candidate, passed, in layer "final". */
  function ObserveCandidates(t: seq<Observation>, batchId: string, symbols: seq<string>, data: seq<StageData>, today: int)
    : (r: seq<Observation>)
    requires |data| == |symbols|
    ensures |r| >= |t|
    decreases |symbols|
  {
    if |symbols| == 0 then t
    else
      var d := data[0].(passed := Some(true), layer := Some("final"));
      RecordKeepsRows(t, batchId, symbols[0], "filter", d, today);
      ObserveCandidates(RecordDecision(t, batchId, symbols[0], "filter", d, today), batchId, symbols[1..], data[1..], today)
  }

  /** After the candidates are observed, every candidate and every symbol
      that already had a row has a row for today. */
  lemma {:induction false} CandidatesAreObserved(t: seq<Observation>, batchId: string, symbols: seq<string>, data: seq<StageData>, today: int, s: string)
    requires |data| == |symbols|
    requires s in symbols || HasToday(t, s, today)
    ensures HasToday(ObserveCandidates(t, batchId, symbols, data, today), s, today)
    decreases |symbols|
  {
    if |symbols| > 0 {
      var d := data[0].(passed := Some(true), layer := Some("final"));
      var t1 := RecordDecision(t, batchId, symbols[0], "filter", d, today);
      RecordKeepsRows(t, batchId, symbols[0], "filter", d, today);
      if HasToday(t, s, today) {
        var j :| 0 <= j < |t| && IsToday(t[j], s, today);
        assert IsToday(t1[j], s, today);
      }
      assert s == symbols[0] || s in symbols[1..] || HasToday(t1, s, today);
      CandidatesAreObserved(t1, batchId, symbols[1..], data[1..], today, s);
    }
  }

  // ------------------------------------------------------------------
  // Outcomes
  // ------------------------------------------------------------------

  /** The outcome bands: above 5, above 2, above -2, above -5, the rest. */
  function OutcomeOf(pnl: real): (c: Outcome)
    ensures c == BigWin <==> pnl > 5.0
    ensures c == Win <==> 2.0 < pnl <= 5.0
    ensures c == Flat <==> -2.0 < pnl <= 2.0
    ensures c == Loss <==> -5.0 < pnl <= -2.0
    ensures c == BigLoss <==> pnl <= -5.0
  {
    if pnl > 5.0 then BigWin
    else if pnl > 2.0 then Win
    else if pnl > -2.0 then Flat
    else if pnl > -5.0 then Loss
    else BigLoss
  }

  function Rank(c: Outcome): nat
  {
    match c
    case BigLoss => 0
    case Loss => 1
    case Flat => 2
    case Win => 3
    case BigWin => 4
  }

  /** A better return never falls in a worse band. */
  lemma OutcomeMonotone(a: real, b: real)
    requires a <= b
    ensures Rank(OutcomeOf(a)) <= Rank(OutcomeOf(b))
  {
  }

  /** Was the agent's decision right: a BUY that gained over 2%, a SELL
      that avoided a loss over 2%, a HOLD that moved less than 2% either
      way. No decision is never right. */
  function WasCorrect(decision: Option<string>, pnl: real): (b: bool)
    ensures b <==>
      (decision == Some("BUY") && pnl > 2.0) || (decision == Some("SELL") && pnl < -2.0)
      || (decision == Some("HOLD") && -2.0 < pnl < 2.0)
  {
    match decision
    case None => false
    case Some(d) =>
      if d == "BUY" then pnl > 2.0
      else if d == "SELL" then pnl < -2.0
      else if d == "HOLD" then (if pnl < 0.0 then -pnl else pnl) < 2.0
      else false
  }

  /** A correct BUY is a win or a big win; a correct SELL a loss or a big
      loss; a correct HOLD is flat. */
  lemma CorrectMatchesBand(decision: Option<string>, pnl: real)
    requires WasCorrect(decision, pnl)
    ensures decision == Some("BUY") ==> OutcomeOf(pnl) in {Win, BigWin}
    ensures decision == Some("SELL") ==> OutcomeOf(pnl) in {Loss, BigLoss}
    ensures decision == Some("HOLD") ==> OutcomeOf(pnl) == Flat
  {
  }

  predicate IsOpen(o: Observation, symbol: string)
  {
    o.symbol == symbol && o.exit.None?
  }

  /** `ORDER BY entry_date DESC` with NULL sorting lowest. */
  predicate Later(a: Option<int>, b: Option<int>)
  {
    a.Some? && (b.None? || a.value > b.value)
  }

  /** The open row the decision is read from: one with the latest entry
      date, the earliest such row on ties. */
  function LatestOpen(t: seq<Observation>, symbol: string): (r: Option<nat>)
    ensures r.None? <==> forall j :: 0 <= j < |t| ==> !IsOpen(t[j], symbol)
    ensures r.Some? ==> (r.value < |t| && IsOpen(t[r.value], symbol)
      && forall j :: 0 <= j < |t| && IsOpen(t[j], symbol) ==> !Later(t[j].entryDate, t[r.value].entryDate))
  {
    if |t| == 0 then None
    else
      var prev := LatestOpen(t[..|t| - 1], symbol);
      assert forall j :: 0 <= j < |t| - 1 ==> t[j] == t[..|t| - 1][j];
      if IsOpen(t[|t| - 1], symbol) && (prev.None? || Later(t[|t| - 1].entryDate, t[prev.value].entryDate))
      then Some(|t| - 1)
      else prev
  }

  /** The `exit_data` dict; `None` is a missing key. */
  datatype ExitData = ExitData(
    exitDate: Option<int>, exitPrice: Option<real>, holdingDays: Option<int>,
    pnlPercent: Option<real>, pnlDollars: Option<real>, exitReason: Option<string>)

  /** `update_position_outcome`: every open row of the symbol gets the
      same exit, its band and whether the latest open row's decision was
      right. Without an exit date or price the lookup raises, the error is
      logged and nothing changes. */
  function UpdateOutcome(t: seq<Observation>, symbol: string, x: ExitData): (r: seq<Observation>)
    ensures |r| == |t|
    ensures x.exitDate.None? || x.exitPrice.None? ==> r == t
    ensures forall j :: 0 <= j < |t| && !IsOpen(t[j], symbol) ==> r[j] == t[j]
    ensures x.exitDate.Some? && x.exitPrice.Some? ==> forall j :: 0 <= j < |t| && IsOpen(t[j], symbol) ==>
      r[j] == t[j].(exit := r[j].exit) && r[j].exit.Some?
      && r[j].exit.value.category == OutcomeOf(x.pnlPercent.GetOr(0.0))
      && r[j].exit.value.pnlPercent == x.pnlPercent.GetOr(0.0)
      && r[j].exit.value.wasCorrect ==
           WasCorrect(match LatestOpen(t, symbol) case Some(i) => t[i].decision case None => None, x.pnlPercent.GetOr(0.0))
  {
    if x.exitDate.None? || x.exitPrice.None? then t
    else
      var pnl := x.pnlPercent.GetOr(0.0);
      var decision := match LatestOpen(t, symbol) case Some(i) => t[i].decision case None => None;
      var info := ExitInfo(x.exitDate.value, x.exitPrice.value, x.holdingDays.GetOr(0), pnl, x.pnlDollars.GetOr(0.0),
                           x.exitReason.GetOr("unknown"), OutcomeOf(pnl), WasCorrect(decision, pnl));
      seq(|t|, j requires 0 <= j < |t| => if IsOpen(t[j], symbol) then t[j].(exit := Some(info)) else t[j])
  }

  /** A recorded outcome closes every open row of the symbol, so a second
      outcome for it changes nothing. */
  lemma OutcomeClosesSymbol(t: seq<Observation>, symbol: string, x: ExitData, y: ExitData)
    requires x.exitDate.Some? && x.exitPrice.Some?
    ensures forall j :: 0 <= j < |t| ==> !IsOpen(UpdateOutcome(t, symbol, x)[j], symbol)
    ensures UpdateOutcome(UpdateOutcome(t, symbol, x), symbol, y) == UpdateOutcome(t, symbol, x)
  {
    var r := UpdateOutcome(t, symbol, x);
    assert forall j :: 0 <= j < |t| ==> !IsOpen(r[j], symbol);
    var r2 := UpdateOutcome(r, symbol, y);
    assert forall j :: 0 <= j < |r| ==> r2[j] == r[j];
  }

  // ------------------------------------------------------------------
  // Missed opportunities
  // ------------------------------------------------------------------

  datatype Missed = Missed(date: int, symbol: string, reason: string, potentialGain: real, filterScore: real, profitable: bool)

  /** `record_missed_opportunity`: a gain over 3% counts as one that would
      have been profitable; a missing gain or score reads as 0. */
  function RecordMissed(t: seq<Missed>, symbol: string, reason: string, gain: Option<real>, score: Option<real>, today: int)
    : (r: seq<Missed>)
    ensures |r| == |t| + 1 && r[..|t|] == t
    ensures r[|t|].symbol == symbol && r[|t|].reason == reason && r[|t|].date == today
    ensures r[|t|].profitable <==> gain.Some? && gain.value > 3.0
  {
    t + [Missed(today, symbol, reason, gain.GetOr(0.0), score.GetOr(0.0), gain.GetOr(0.0) > 3.0)]
  }

  // ------------------------------------------------------------------
  // Observation report
  // ------------------------------------------------------------------

  datatype ConvictionRange = VeryHigh | High | Medium | Low

  /** The report's conviction buckets: 80 and up, 60 to 80, 40 to 60,
      below 40. */
  function RangeOf(c: real): (r: ConvictionRange)
    ensures r == VeryHigh <==> c >= 80.0
    ensures r == High <==> 60.0 <= c < 80.0
    ensures r == Medium <==> 40.0 <= c < 60.0
    ensures r == Low <==> c < 40.0
  {
    if c >= 80.0 then VeryHigh else if c >= 60.0 then High else if c >= 40.0 then Medium else Low
  }

  /** An observation inside the window: the date strictly after the
      cutoff day. */
  predicate InWindow(o: Observation, cutoff: int) { o.date > cutoff }

  /** A row the conviction query groups: in the window, with a conviction
      and a closed outcome. */
  predicate Graded(o: Observation, cutoff: int)
  {
    InWindow(o, cutoff) && o.conviction.Some? && o.exit.Some?
  }

  datatype Buckets = Buckets(veryHigh: nat, high: nat, medium: nat, low: nat)

  function Add(b: Buckets, r: ConvictionRange): Buckets
  {
    match r
    case VeryHigh => b.(veryHigh := b.veryHigh + 1)
    case High => b.(high := b.high + 1)
    case Medium => b.(medium := b.medium + 1)
    case Low => b.(low := b.low + 1)
  }

  function Size(b: Buckets): nat { b.veryHigh + b.high + b.medium + b.low }

  lemma AddGrowsSize(b: Buckets, r: ConvictionRange)
    ensures Size(Add(b, r)) == Size(b) + 1
  {
  }

  /** The `count` column of the conviction query, per range. */
  function ConvictionCounts(t: seq<Observation>, cutoff: int): Buckets
  {
    if |t| == 0 then Buckets(0, 0, 0, 0)
    else
      var rest := ConvictionCounts(t[1..], cutoff);
      if Graded(t[0], cutoff) then Add(rest, RangeOf(t[0].conviction.value)) else rest
  }

  /** Every graded observation falls in exactly one bucket. */
  lemma {:induction false} BucketsPartitionGraded(t: seq<Observation>, cutoff: int)
    ensures Size(ConvictionCounts(t, cutoff)) == Seqs.Count(t, (o: Observation) => Graded(o, cutoff))
  {
    if |t| > 0 {
      var p := (o: Observation) => Graded(o, cutoff);
      BucketsPartitionGraded(t[1..], cutoff);
      assert Seqs.Count(t, p) == (if p(t[0]) then 1 else 0) + Seqs.Count(t[1..], p);
      if Graded(t[0], cutoff) {
        AddGrowsSize(ConvictionCounts(t[1..], cutoff), RangeOf(t[0].conviction.value));
      }
    }
  }

  datatype Report =
    | Insufficient(periodDays: int, total: nat)
    | Observed(periodDays: int, total: nat, conviction: Buckets)

  /** `generate_observation_report`, its guard and conviction grouping:
      fewer than ten observations in the window give the
      insufficient-data message. */
  function ObservationReport(t: seq<Observation>, today: int, lookbackDays: int): (r: Report)
    ensures r.total == Seqs.Count(t, (o: Observation) => InWindow(o, today - lookbackDays)) && r.periodDays == lookbackDays
    ensures r.Insufficient? <==> r.total < 10
    ensures r.Observed? ==> Size(r.conviction) <= r.total
  {
    var cutoff := today - lookbackDays;
    var total := Seqs.Count(t, (o: Observation) => InWindow(o, cutoff));
    if total < 10 then Insufficient(lookbackDays, total)
    else
      BucketsPartitionGraded(t, cutoff);
      GradedAreInWindow(t, cutoff);
      Observed(lookbackDays, total, ConvictionCounts(t, cutoff))
  }

  lemma {:induction false} GradedAreInWindow(t: seq<Observation>, cutoff: int)
    ensures Seqs.Count(t, (o: Observation) => Graded(o, cutoff)) <= Seqs.Count(t, (o: Observation) => InWindow(o, cutoff))
  {
    if |t| > 0 {
      GradedAreInWindow(t[1..], cutoff);
    }
  }
}
