/** The portfolio constructor (`src/portfolio/constructor.py`): splitting a
    batch into BUY and other rows, the quantitative pre-filter, the
    language-model selection with its fallback, and conviction-weighted
    position sizing. The model's answer and the available capital are
    parameters; rounding to one or two decimals is left out. */
module PortfolioConstructor {

  import opened Numbers
  import opened Wrappers
  import opened Seqs

  /** One analysis row of the batch, as the constructor reads it back. */
  datatype Candidate = Candidate(
    symbol: string, decision: string, conviction: real, entryPrice: real,
    riskRewardRatio: real, riskScore: nat, volumeRatio: real, sector: string)

  predicate IsBuy(c: Candidate) { c.decision == "BUY" }
  predicate NotBuy(c: Candidate) { c.decision != "BUY" }


  // ------------------------------------------------------------------
  // Quantitative filters
  // ------------------------------------------------------------------

  predicate HighConviction(c: Candidate) { c.conviction >= 65.0 }
  predicate Liquid(c: Candidate) { c.volumeRatio >= 1.0 }

  function ConvictionKey(c: Candidate): real { c.conviction }

  /** Conviction times reward/risk over risk score plus one. */
  function RiskAdjusted(c: Candidate): real
  {
    c.conviction * c.riskRewardRatio / (c.riskScore as real + 1.0)
  }

  /** How many rows of `s` belong to `sector`. */
  function SectorCount(s: seq<Candidate>, sector: string): (n: nat)
    ensures n <= |s|
  {
    if |s| == 0 then 0 else (if s[0].sector == sector then 1 else 0) + SectorCount(s[1..], sector)
  }

  function Used(counts: map<string, nat>, sector: string): nat
  {
    if sector in counts then counts[sector] else 0
  }

  /** The sector loop: a row is kept while fewer than two rows of its sector
      have been kept; `counts` holds the rows kept so far. */
  function CapSectors(s: seq<Candidate>, counts: map<string, nat>): (r: seq<Candidate>)
    ensures |r| <= |s|
    ensures forall x :: x in r ==> x in s
  {
    if |s| == 0 then []
    else
      var n := Used(counts, s[0].sector);
      if n < 2 then [s[0]] + CapSectors(s[1..], counts[s[0].sector := n + 1])
      else CapSectors(s[1..], counts)
  }

  /** Each sector keeps two rows, or all it has when it has fewer. */
  lemma {:induction false} CapSectorsKeepsTwo(s: seq<Candidate>, counts: map<string, nat>, sector: string)
    requires forall k :: k in counts ==> counts[k] <= 2
    ensures SectorCount(CapSectors(s, counts), sector) == Min(2 - Used(counts, sector), SectorCount(s, sector))
  {
    if |s| > 0 {
      var n := Used(counts, s[0].sector);
      if n < 2 {
        var counts' := counts[s[0].sector := n + 1];
        CapSectorsKeepsTwo(s[1..], counts', sector);
        var rest := CapSectors(s[1..], counts');
        assert ([s[0]] + rest)[1..] == rest;
        assert SectorCount([s[0]] + rest, sector) == (if s[0].sector == sector then 1 else 0) + SectorCount(rest, sector);
        assert Used(counts', sector) == if s[0].sector == sector then n + 1 else Used(counts, sector);
      } else {
        CapSectorsKeepsTwo(s[1..], counts, sector);
        assert s[0].sector == sector ==> Used(counts, sector) == 2;
      }
    }
  }

  /** `_apply_quantitative_filters`: with more than ten rows, conviction of
      at least 65; volume ratio at least 1; at most two rows per sector in
      descending conviction; then best risk-adjusted score first. */
  function QuantitativeFilter(cands: seq<Candidate>): (r: seq<Candidate>)
    ensures SortedDesc(r, RiskAdjusted)
    ensures forall x :: x in r ==> x in cands && Liquid(x) && (|cands| > 10 ==> HighConviction(x))
  {
    var strong := if |cands| > 10 then Filter(cands, HighConviction) else cands;
    var liquid := Filter(strong, Liquid);
    var capped := CapSectors(SortDesc(liquid, ConvictionKey), map[]);
    forall x | x in capped ensures x in liquid {
      SortDescMembers(liquid, ConvictionKey, x);
    }
    var r := SortDesc(capped, RiskAdjusted);
    forall x | x in r ensures x in capped {
      SortDescMembers(capped, RiskAdjusted, x);
    }
    r
  }

  /** The filter keeps at most two rows of any sector, and exactly two of a
      sector that has at least two liquid rows passing the conviction cut. */
  lemma FilterCapsSectors(cands: seq<Candidate>, sector: string)
    ensures var strong := if |cands| > 10 then Filter(cands, HighConviction) else cands;
      multiset(QuantitativeFilter(cands)) == multiset(CapSectors(SortDesc(Filter(strong, Liquid), ConvictionKey), map[]))
    ensures var strong := if |cands| > 10 then Filter(cands, HighConviction) else cands;
      SectorCount(CapSectors(SortDesc(Filter(strong, Liquid), ConvictionKey), map[]), sector)
      == Min(2, SectorCount(SortDesc(Filter(strong, Liquid), ConvictionKey), sector))
  {
    var strong := if |cands| > 10 then Filter(cands, HighConviction) else cands;
    CapSectorsKeepsTwo(SortDesc(Filter(strong, Liquid), ConvictionKey), map[], sector);
  }

  // ------------------------------------------------------------------
  // Selection by the language model
  // ------------------------------------------------------------------

  function Chosen(symbols: seq<string>): Candidate -> bool { (c: Candidate) => c.symbol in symbols }
  function NotChosen(symbols: seq<string>): Candidate -> bool { Negate(Chosen(symbols)) }

  lemma ChosenPartition(s: seq<Candidate>, symbols: seq<string>)
    ensures multiset(Filter(s, Chosen(symbols))) + multiset(Filter(s, NotChosen(symbols))) == multiset(s)
  {
    FilterSplit(s, Chosen(symbols));
  }

  /** `_llm_selection`: the symbols the model chose (`None` when its answer
      does not parse), split from the rest in the candidates' order; on a
      parse failure the first `maxPositions` rows. */
  function LlmSelection(cands: seq<Candidate>, maxPositions: nat, answer: Option<seq<string>>)
    : (r: (seq<Candidate>, seq<Candidate>))
    ensures multiset(r.0) + multiset(r.1) == multiset(cands)
    ensures answer.None? ==> r.0 + r.1 == cands && |r.0| == Min(maxPositions, |cands|)
    ensures answer.Some? ==> (forall x :: x in r.0 ==> x.symbol in answer.value) && (forall x :: x in r.1 ==> x.symbol !in answer.value)
  {
    match answer
    case None =>
      var k := Min(maxPositions, |cands|);
      assert cands[..k] + cands[k..] == cands;
      (cands[..k], cands[k..])
    case Some(symbols) =>
      ChosenPartition(cands, symbols);
      (Filter(cands, Chosen(symbols)), Filter(cands, NotChosen(symbols)))
  }

  // ------------------------------------------------------------------
  // Position sizing
  // ------------------------------------------------------------------

  datatype Position = Position(candidate: Candidate, weight: real, pct: real, dollars: real, shares: int)

  function Clamp(x: real): (r: real)
    ensures 0.15 <= r <= 0.35
    ensures 0.15 <= x <= 0.35 ==> r == x
  {
    if x < 0.15 then 0.15 else if x > 0.35 then 0.35 else x
  }

  function Convictions(s: seq<Candidate>): (r: seq<real>)
    ensures |r| == |s| && forall i :: 0 <= i < |s| ==> r[i] == s[i].conviction
  {
    seq(|s|, i requires 0 <= i < |s| => s[i].conviction)
  }

  function Pcts(ps: seq<Position>): (r: seq<real>)
    ensures |r| == |ps| && forall i :: 0 <= i < |ps| ==> r[i] == ps[i].pct
  {
    seq(|ps|, i requires 0 <= i < |ps| => ps[i].pct)
  }

  function Scaled(s: seq<real>, f: real): (r: seq<real>)
    ensures |r| == |s| && forall i :: 0 <= i < |s| ==> r[i] == s[i] * f
  {
    seq(|s|, i requires 0 <= i < |s| => s[i] * f)
  }

  lemma {:induction false} SumScaled(s: seq<real>, f: real)
    ensures Sum(Scaled(s, f)) == Sum(s) * f
  {
    if |s| > 0 {
      var s' := s[..|s| - 1];
      SumScaled(s', f);
      var r := Scaled(s, f);
      assert r[..|s| - 1] == Scaled(s', f) by {
        forall i | 0 <= i < |s'| ensures r[..|s| - 1][i] == Scaled(s', f)[i] {
          assert s'[i] == s[i];
        }
      }
    }
  }

  lemma {:induction false} SumAtLeast(s: seq<real>, lo: real)
    requires forall i :: 0 <= i < |s| ==> s[i] >= lo
    ensures Sum(s) >= lo * |s| as real
  {
    if |s| > 0 {
      SumAtLeast(s[..|s| - 1], lo);
    }
  }

  predicate AllPriced(sel: seq<Candidate>)
  {
    forall i :: 0 <= i < |sel| ==> sel[i].entryPrice != 0.0
  }

  /** One row of the first loop: weight = conviction share clamped to
      [15%, 35%], dollars = capital times weight, whole shares = dollars over
      entry price, truncated. */
  function PositionFor(c: Candidate, total: real, capital: real): (p: Position)
    requires total != 0.0 && c.entryPrice != 0.0
    ensures p.candidate == c && 0.15 <= p.weight <= 0.35 && p.pct == p.weight * 100.0 && p.pct >= 15.0
    ensures p.dollars == capital * p.weight
    ensures p.shares == Trunc(p.dollars / c.entryPrice)
  {
    var w := Clamp(c.conviction / total);
    Position(c, w, w * 100.0, capital * w, Trunc(capital * w / c.entryPrice))
  }

  function Size(sel: seq<Candidate>, total: real, capital: real): (r: seq<Position>)
    requires total != 0.0 && AllPriced(sel)
    ensures |r| == |sel| && forall i :: 0 <= i < |sel| ==> r[i] == PositionFor(sel[i], total, capital)
  {
    seq(|sel|, i requires 0 <= i < |sel| => PositionFor(sel[i], total, capital))
  }

  function Rescale(ps: seq<Position>, f: real): (r: seq<Position>)
    ensures |r| == |ps| && forall i :: 0 <= i < |ps| ==> r[i] == ps[i].(pct := ps[i].pct * f)
  {
    seq(|ps|, i requires 0 <= i < |ps| => ps[i].(pct := ps[i].pct * f))
  }

  /** The normalisation step: scale every percentage by 100 over their
      total unless that total is already 100; a zero total divides by zero.
      Nothing but the percentages changes. */
  function Normalise(ps: seq<Position>): (r: Result<seq<Position>, string>)
    ensures r.Raised? <==> Sum(Pcts(ps)) == 0.0
    ensures r.Ok? ==> |r.value| == |ps| && forall i :: 0 <= i < |ps| ==> r.value[i] == ps[i].(pct := r.value[i].pct)
  {
    var totalPct := Sum(Pcts(ps));
    if totalPct == 100.0 then Ok(ps)
    else if totalPct == 0.0 then Raised("ZeroDivisionError")
    else Ok(Rescale(ps, 100.0 / totalPct))
  }

  lemma RescaledPcts(ps: seq<Position>, f: real)
    ensures Pcts(Rescale(ps, f)) == Scaled(Pcts(ps), f)
  {
    assert forall i :: 0 <= i < |ps| ==> Pcts(Rescale(ps, f))[i] == Scaled(Pcts(ps), f)[i];
  }

  /** A non-zero total is normalised to exactly 100. */
  lemma NormaliseSumsTo100(ps: seq<Position>)
    requires Sum(Pcts(ps)) != 0.0
    ensures Sum(Pcts(Normalise(ps).value)) == 100.0
  {
    var totalPct := Sum(Pcts(ps));
    if totalPct != 100.0 {
      var f := 100.0 / totalPct;
      RescaledPcts(ps, f);
      SumScaled(Pcts(ps), f);
      assert totalPct * f == 100.0;
    }
  }

  /** `_calculate_position_sizes` as written: a zero conviction total or a
      zero entry price divides by zero, and so does the normalisation of an
      empty selection, whose percentages sum to 0. */
  function SizePositionsAsWritten(sel: seq<Candidate>, capital: real): (r: Result<seq<Position>, string>)
    ensures r.Ok? ==> AllPriced(sel) && |r.value| == |sel|
    ensures r.Ok? && |sel| > 0 ==> Sum(Convictions(sel)) != 0.0
    ensures r.Ok? ==> forall i :: 0 <= i < |sel| ==> r.value[i] == PositionFor(sel[i], Sum(Convictions(sel)), capital).(pct := r.value[i].pct)
  {
    var total := Sum(Convictions(sel));
    if |sel| > 0 && total == 0.0 then Raised("ZeroDivisionError")
    else if !AllPriced(sel) then Raised("ZeroDivisionError")
    else if |sel| == 0 then Normalise([])
    else Normalise(Size(sel, total, capital))
  }

  /** As written, sizing an empty selection raises. */
  lemma EmptySelectionRaisesAsWritten(capital: real)
    ensures SizePositionsAsWritten([], capital).Raised?
  {
    assert Pcts([]) == [];
  }

  /** Position sizing with an empty selection sized to nothing; otherwise as
      written. */
  function SizePositions(sel: seq<Candidate>, capital: real): (r: Result<seq<Position>, string>)
    ensures |sel| == 0 ==> r == Ok([])
    ensures |sel| > 0 ==> r == SizePositionsAsWritten(sel, capital)
  {
    if |sel| == 0 then Ok([]) else SizePositionsAsWritten(sel, capital)
  }

  lemma SizedKeepsCandidates(sel: seq<Candidate>, capital: real)
    requires SizePositions(sel, capital).Ok?
    ensures Candidates(SizePositions(sel, capital).value) == sel
  {
    var ps := SizePositions(sel, capital).value;
    assert forall i :: 0 <= i < |sel| ==> ps[i].candidate == sel[i];
  }

  /** After normalisation the percentages of a non-empty selection sum to
      exactly 100. */
  lemma SizedPercentagesSumTo100(sel: seq<Candidate>, capital: real)
    requires SizePositions(sel, capital).Ok? && |sel| > 0
    ensures Sum(Pcts(SizePositions(sel, capital).value)) == 100.0
  {
    var sized := Size(sel, Sum(Convictions(sel)), capital);
    assert Sum(Pcts(sized)) != 0.0 by {
      SumAtLeast(Pcts(sized), 15.0);
    }
    NormaliseSumsTo100(sized);
  }

  lemma MulMono(a: real, b: real, c: real)
    requires a <= b && c > 0.0
    ensures a * c <= b * c
  {
  }

  lemma MulStrict(a: real, b: real, c: real)
    requires a < b && c > 0.0
    ensures a * c < b * c
  {
  }

  lemma PositionSharesFit(c: Candidate, total: real, capital: real)
    requires total != 0.0 && c.entryPrice > 0.0 && capital >= 0.0
    ensures var p := PositionFor(c, total, capital);
      0 <= p.shares && p.shares as real * c.entryPrice <= p.dollars < (p.shares as real + 1.0) * c.entryPrice
  {
    var p := PositionFor(c, total, capital);
    MulMono(0.0, capital, p.weight);
    TruncFits(p.dollars, c.entryPrice);
  }

  /** Truncating `d / e` gives the most whole units of price `e` that `d`
      pays for. */
  lemma TruncFits(d: real, e: real)
    requires d >= 0.0 && e > 0.0
    ensures var n := Trunc(d / e);
      0 <= n && n as real * e <= d < (n as real + 1.0) * e
  {
    var q := d / e;
    assert q * e == d;
    if q < 0.0 {
      MulStrict(q, 0.0, e);
    }
    assert q >= 0.0;
    var n := Trunc(q);
    assert n as real <= q < n as real + 1.0;
    MulMono(n as real, q, e);
    MulStrict(q, n as real + 1.0, e);
    assert d < (n as real + 1.0) * e;
    assert n == Trunc(d / e);
  }

  /** Whole shares never cost more than the dollars allotted, and one more
      share would. */
  lemma SharesFitAllotment(sel: seq<Candidate>, capital: real, i: nat)
    requires SizePositions(sel, capital).Ok? && i < |sel|
    requires capital >= 0.0 && sel[i].entryPrice > 0.0
    ensures var p := SizePositions(sel, capital).value[i];
      0 <= p.shares && p.shares as real * sel[i].entryPrice <= p.dollars < (p.shares as real + 1.0) * sel[i].entryPrice
  {
    var ps := SizePositions(sel, capital).value;
    SizedFits(sel, ps, Sum(Convictions(sel)), capital, i);
  }

  lemma SizedFits(sel: seq<Candidate>, ps: seq<Position>, total: real, capital: real, i: nat)
    requires i < |sel| && i < |ps| && total != 0.0 && AllPriced(sel)
    requires capital >= 0.0 && sel[i].entryPrice > 0.0
    requires ps[i] == PositionFor(sel[i], total, capital).(pct := ps[i].pct)
    ensures 0 <= ps[i].shares && ps[i].shares as real * sel[i].entryPrice <= ps[i].dollars < (ps[i].shares as real + 1.0) * sel[i].entryPrice
  {
    PositionSharesFit(sel[i], total, capital);
  }

  // ------------------------------------------------------------------
  // construct_portfolio
  // ------------------------------------------------------------------

  datatype Portfolio = Portfolio(selections: seq<Position>, excluded: seq<Candidate>)

  function Candidates(ps: seq<Position>): (r: seq<Candidate>)
    ensures |r| == |ps| && forall i :: 0 <= i < |ps| ==> r[i] == ps[i].candidate
  {
    seq(|ps|, i requires 0 <= i < |ps| => ps[i].candidate)
  }

  /** The rows picked before sizing, and the rows excluded. */
  function Pick(cands: seq<Candidate>, maxPositions: nat, answer: Option<seq<string>>): (r: (seq<Candidate>, seq<Candidate>))
    ensures forall x :: x in r.0 ==> x in cands && IsBuy(x)
    ensures |Filter(cands, IsBuy)| <= maxPositions ==> r == (Filter(cands, IsBuy), Filter(cands, NotBuy))
  {
    var buys := Filter(cands, IsBuy);
    var others := Filter(cands, NotBuy);
    if |buys| <= maxPositions then (buys, others)
    else
      var filtered := QuantitativeFilter(buys);
      var split := LlmSelection(filtered, maxPositions, answer);
      assert forall x :: x in split.0 ==> x in filtered by {
        forall x | x in split.0 ensures x in filtered {
          assert x in multiset(split.0);
        }
      }
      (split.0, split.1 + others)
  }

  /** `construct_portfolio` over the rows of one batch (already in
      descending conviction), with `capital` the available cash when the
      portfolio context gives one. */
  function ConstructPortfolio(cands: seq<Candidate>, maxPositions: nat, answer: Option<seq<string>>, capital: Option<real>)
    : (r: Result<Portfolio, string>)
    ensures |cands| == 0 ==> r == Ok(Portfolio([], []))
    ensures r.Ok? ==> forall x :: x in Candidates(r.value.selections) ==> x in cands && IsBuy(x)
    ensures r.Ok? && |Filter(cands, IsBuy)| <= maxPositions ==>
      Candidates(r.value.selections) == Filter(cands, IsBuy) && r.value.excluded == Filter(cands, NotBuy)
  {
    if |cands| == 0 then Ok(Portfolio([], []))
    else
      var (sel, excluded) := Pick(cands, maxPositions, answer);
      match SizePositions(sel, capital.GetOr(100000.0))
      case Raised(e) => Raised(e)
      case Ok(ps) =>
        SizedKeepsCandidates(sel, capital.GetOr(100000.0));
        Ok(Portfolio(ps, excluded))
  }

  /** `construct_portfolio` as written: the selection goes to the sizing
      step even when it is empty, which then divides by zero. It agrees
      with the corrected version whenever something is selected. */
  function ConstructPortfolioAsWritten(cands: seq<Candidate>, maxPositions: nat, answer: Option<seq<string>>, capital: Option<real>)
    : (r: Result<Portfolio, string>)
    ensures |cands| == 0 ==> r == Ok(Portfolio([], []))
    ensures |cands| > 0 && |Pick(cands, maxPositions, answer).0| == 0 ==> r.Raised?
    ensures |Pick(cands, maxPositions, answer).0| > 0 ==> r == ConstructPortfolio(cands, maxPositions, answer, capital)
  {
    if |cands| == 0 then Ok(Portfolio([], []))
    else
      var (sel, excluded) := Pick(cands, maxPositions, answer);
      EmptySelectionRaisesAsWritten(capital.GetOr(100000.0));
      match SizePositionsAsWritten(sel, capital.GetOr(100000.0))
      case Raised(e) => Raised(e)
      case Ok(ps) => Ok(Portfolio(ps, excluded))
  }

  /** As written, a non-empty batch without a single BUY raises instead of
      returning an empty portfolio. */
  lemma NoBuyRaisesAsWritten(cands: seq<Candidate>, maxPositions: nat, answer: Option<seq<string>>, capital: Option<real>)
    requires |cands| > 0
    requires forall i :: 0 <= i < |cands| ==> !IsBuy(cands[i])
    ensures ConstructPortfolioAsWritten(cands, maxPositions, answer, capital).Raised?
    ensures ConstructPortfolio(cands, maxPositions, answer, capital).Ok?
  {
    FilterNone(cands, IsBuy);
  }

  lemma {:induction false} FilterNone(s: seq<Candidate>, p: Candidate -> bool)
    requires forall i :: 0 <= i < |s| ==> !p(s[i])
    ensures Filter(s, p) == []
  {
    if |s| > 0 {
      FilterNone(s[1..], p);
    }
  }

  lemma {:induction false} BuyPartition(s: seq<Candidate>)
    ensures |Filter(s, IsBuy)| + |Filter(s, NotBuy)| == |s|
  {
    if |s| > 0 {
      BuyPartition(s[1..]);
      assert s == [s[0]] + s[1..];
    }
  }

  /** A batch with no BUY and at least one row selects nothing and
      excludes every row. */
  lemma NoBuyExcludesAll(cands: seq<Candidate>, maxPositions: nat, answer: Option<seq<string>>, capital: Option<real>)
    requires forall i :: 0 <= i < |cands| ==> !IsBuy(cands[i])
    ensures ConstructPortfolio(cands, maxPositions, answer, capital) == Ok(Portfolio([], cands))
  {
    FilterNone(cands, IsBuy);
    FilterAll(cands, NotBuy);
    if |cands| > 0 {
      assert Pick(cands, maxPositions, answer) == ([], cands);
      assert SizePositions([], capital.GetOr(100000.0)) == Ok([]);
    }
  }

  lemma {:induction false} FilterAll(s: seq<Candidate>, p: Candidate -> bool)
    requires forall i :: 0 <= i < |s| ==> p(s[i])
    ensures Filter(s, p) == s
  {
    if |s| > 0 {
      FilterAll(s[1..], p);
      assert s == [s[0]] + s[1..];
    }
  }

  /** Rows dropped by the quantitative filter appear in neither list: the
      two lists together never hold more rows than the batch. */
  lemma ListsNeverGrow(cands: seq<Candidate>, maxPositions: nat, answer: Option<seq<string>>, capital: Option<real>)
    ensures var r := ConstructPortfolio(cands, maxPositions, answer, capital);
      r.Ok? ==> |r.value.selections| + |r.value.excluded| <= |cands|
  {
    if |cands| > 0 {
      PickNeverGrows(cands, maxPositions, answer);
      var (sel, excluded) := Pick(cands, maxPositions, answer);
      var sized := SizePositions(sel, capital.GetOr(100000.0));
      assert sized.Ok? ==> |sized.value| == |sel|;
    }
  }

  /** The selection and the exclusions together hold at most the batch. */
  lemma PickNeverGrows(cands: seq<Candidate>, maxPositions: nat, answer: Option<seq<string>>)
    ensures var r := Pick(cands, maxPositions, answer);
      |r.0| + |r.1| <= |cands|
  {
    BuyPartition(cands);
    var buys := Filter(cands, IsBuy);
    if |buys| > maxPositions {
      var filtered := QuantitativeFilter(buys);
      var split := LlmSelection(filtered, maxPositions, answer);
      assert |split.0| + |split.1| == |filtered| by {
        assert |multiset(split.0) + multiset(split.1)| == |multiset(filtered)|;
      }
      assert |filtered| <= |buys| by {
        var capped := CapSectors(SortDesc(Filter(if |buys| > 10 then Filter(buys, HighConviction) else buys, Liquid), ConvictionKey), map[]);
        assert |filtered| == |capped|;
      }
    }
  }
}
