/** The pattern analyzer (`src/patterns/analyzer.py`): the weekly and daily
    analyses over the pattern table, the reaction to a closed position, the
    regime-transition watch and the per-candidate recommendations. The
    analyzer's database, injector and tracker share one table, held here by
    the injector. */
module PatternAnalyzer {

  import opened Wrappers
  import opened Seqs
  import PatternStore
  import PatternTracker
  import MemoryInjector

  type Pattern = PatternStore.Pattern

  // ------------------------------------------------------------------
  // Prioritising patterns to learn from
  // ------------------------------------------------------------------

  datatype Priority = Critical | High | Normal

  function PriorityRank(p: Priority): nat
  {
    match p
    case Critical => 0
    case High => 1
    case Normal => 2
  }

  datatype Prioritized = Prioritized(pattern: Pattern, priority: Priority)

  function PIds(r: seq<Prioritized>): (ids: seq<string>)
    ensures |ids| == |r| && forall i :: 0 <= i < |r| ==> ids[i] == r[i].pattern.id
  {
    seq(|r|, i requires 0 <= i < |r| => r[i].pattern.id)
  }

  function PatternsOf(r: seq<Prioritized>): (ps: seq<Pattern>)
    ensures |ps| == |r| && forall i :: 0 <= i < |r| ==> ps[i] == r[i].pattern
  {
    seq(|r|, i requires 0 <= i < |r| => r[i].pattern)
  }

  /** `ps` tagged with `tag`, in order. */
  function Tag(ps: seq<Pattern>, tag: Priority): (r: seq<Prioritized>)
    ensures |r| == |ps| && forall i :: 0 <= i < |ps| ==> r[i] == Prioritized(ps[i], tag)
  {
    seq(|ps|, i requires 0 <= i < |ps| => Prioritized(ps[i], tag))
  }

  predicate UniqueP(r: seq<Prioritized>)
  {
    forall i, j :: 0 <= i < j < |r| ==> r[i].pattern.id != r[j].pattern.id
  }

  predicate DistinctIds(ps: seq<Pattern>)
  {
    forall i, j :: 0 <= i < j < |ps| ==> ps[i].id != ps[j].id
  }

  /** One loop of `_prioritize_patterns`: each pattern whose id has not
      been seen yet is appended with `tag`. */
  function AddNew(acc: seq<Prioritized>, ps: seq<Pattern>, tag: Priority): (r: seq<Prioritized>)
    ensures |acc| <= |r| && r[..|acc|] == acc
    ensures forall i :: |acc| <= i < |r| ==> r[i].priority == tag && r[i].pattern in ps
    decreases |ps|
  {
    if |ps| == 0 then acc
    else if ps[0].id in PIds(acc) then AddNew(acc, ps[1..], tag)
    else
      var r := AddNew(acc + [Prioritized(ps[0], tag)], ps[1..], tag);
      assert r[..|acc|] == (acc + [Prioritized(ps[0], tag)])[..|acc|];
      r
  }

  /** No id is added twice, and every id of `ps` ends up in the result. */
  lemma {:induction false} AddNewUniqueAndCovers(acc: seq<Prioritized>, ps: seq<Pattern>, tag: Priority)
    requires UniqueP(acc)
    ensures UniqueP(AddNew(acc, ps, tag))
    ensures forall i :: 0 <= i < |ps| ==> ps[i].id in PIds(AddNew(acc, ps, tag))
    ensures forall i :: 0 <= i < |acc| ==> acc[i].pattern.id in PIds(AddNew(acc, ps, tag))
    decreases |ps|
  {
    if |ps| > 0 {
      if ps[0].id in PIds(acc) {
        AddNewUniqueAndCovers(acc, ps[1..], tag);
        var r := AddNew(acc, ps, tag);
        assert forall i :: 0 < i < |ps| ==> ps[i] == ps[1..][i - 1];
        assert exists k :: 0 <= k < |acc| && acc[k].pattern.id == ps[0].id;
      } else {
        var acc' := acc + [Prioritized(ps[0], tag)];
        assert PIds(acc') == PIds(acc) + [ps[0].id];
        AddNewUniqueAndCovers(acc', ps[1..], tag);
        assert forall i :: 0 < i < |ps| ==> ps[i] == ps[1..][i - 1];
        assert acc'[|acc|].pattern.id == ps[0].id;
      }
    }
  }

  /** The patterns of `ps` whose ids are not among `ids`, in order: the
      reference for what one loop adds. */
  function Unseen(ids: seq<string>, ps: seq<Pattern>): (r: seq<Pattern>)
    ensures |r| <= |ps|
  {
    if |ps| == 0 then []
    else (if ps[0].id !in ids then [ps[0]] else []) + Unseen(ids, ps[1..])
  }

  lemma {:induction false} UnseenNone(ps: seq<Pattern>)
    ensures Unseen([], ps) == ps
  {
    if |ps| > 0 {
      UnseenNone(ps[1..]);
      assert ps == [ps[0]] + ps[1..];
    }
  }

  /** Seeing one more id changes nothing for a list that lacks it. */
  lemma {:induction false} UnseenExtend(ids: seq<string>, id: string, ps: seq<Pattern>)
    requires forall i :: 0 <= i < |ps| ==> ps[i].id != id
    ensures Unseen(ids + [id], ps) == Unseen(ids, ps)
  {
    if |ps| > 0 {
      UnseenExtend(ids, id, ps[1..]);
      assert ps[0].id in ids + [id] <==> ps[0].id in ids;
    }
  }

  lemma TagCons(p: Pattern, ps: seq<Pattern>, tag: Priority)
    ensures Tag([p] + ps, tag) == [Prioritized(p, tag)] + Tag(ps, tag)
  {
    var a := Tag([p] + ps, tag);
    var b := [Prioritized(p, tag)] + Tag(ps, tag);
    forall i | 0 <= i < |a|
      ensures a[i] == b[i]
    {
      if i > 0 {
        assert ([p] + ps)[i] == ps[i - 1];
      }
    }
  }

  /** One loop adds exactly the unseen patterns of `ps`, in order. */
  ghost predicate AddsUnseen(acc: seq<Prioritized>, ps: seq<Pattern>, tag: Priority)
  {
    AddNew(acc, ps, tag) == acc + Tag(Unseen(PIds(acc), ps), tag)
  }

  /** The appending step of `AddNewIsUnseen`. */
  lemma AddNewUnseenStep(acc: seq<Prioritized>, ps: seq<Pattern>, tag: Priority)
    requires |ps| > 0 && ps[0].id !in PIds(acc)
    requires forall i :: 1 <= i < |ps| ==> ps[i].id != ps[0].id
    requires AddsUnseen(acc + [Prioritized(ps[0], tag)], ps[1..], tag)
    ensures AddsUnseen(acc, ps, tag)
  {
    var acc' := acc + [Prioritized(ps[0], tag)];
    var rest := Unseen(PIds(acc), ps[1..]);
    calc {
      AddNew(acc, ps, tag);
      AddNew(acc', ps[1..], tag);
      acc' + Tag(Unseen(PIds(acc'), ps[1..]), tag);
      { assert PIds(acc') == PIds(acc) + [ps[0].id];
        UnseenExtend(PIds(acc), ps[0].id, ps[1..]); }
      acc' + Tag(rest, tag);
      acc + ([Prioritized(ps[0], tag)] + Tag(rest, tag));
      { TagCons(ps[0], rest, tag); }
      acc + Tag([ps[0]] + rest, tag);
      { assert Unseen(PIds(acc), ps) == [ps[0]] + rest; }
      acc + Tag(Unseen(PIds(acc), ps), tag);
    }
  }

  /** For a list without repeated ids, one loop appends exactly the
      patterns whose ids were not seen before, in list order. */
  lemma {:induction false} AddNewIsUnseen(acc: seq<Prioritized>, ps: seq<Pattern>, tag: Priority)
    requires DistinctIds(ps)
    ensures AddsUnseen(acc, ps, tag)
    decreases |ps|
  {
    if |ps| > 0 {
      assert DistinctIds(ps[1..]);
      if ps[0].id in PIds(acc) {
        AddNewIsUnseen(acc, ps[1..], tag);
        assert AddNew(acc, ps, tag) == AddNew(acc, ps[1..], tag);
      } else {
        AddNewIsUnseen(acc + [Prioritized(ps[0], tag)], ps[1..], tag);
        AddNewUnseenStep(acc, ps, tag);
      }
    }
  }

  /** `_prioritize_patterns`: breaking patterns tagged critical, then hot
      ones tagged high, then the first five top ones tagged normal, each id
      once, at its first appearance. */
  function Prioritize(top: seq<Pattern>, breaking: seq<Pattern>, hot: seq<Pattern>): (r: seq<Prioritized>)
    ensures forall i :: 0 <= i < |r| ==>
      (r[i].priority == Critical && r[i].pattern in breaking)
      || (r[i].priority == High && r[i].pattern in hot)
      || (r[i].priority == Normal && r[i].pattern in Take(top, 5))
    ensures forall i, j :: 0 <= i < j < |r| ==> PriorityRank(r[i].priority) <= PriorityRank(r[j].priority)
  {
    var a := AddNew([], breaking, Critical);
    var b := AddNew(a, hot, High);
    var c := AddNew(b, Take(top, 5), Normal);
    assert forall i :: 0 <= i < |a| ==> c[i] == b[i] == a[i];
    assert forall i :: |a| <= i < |b| ==> c[i] == b[i];
    c
  }

  /** Every id of the three inputs appears exactly once. */
  lemma PrioritizeCoversEachIdOnce(top: seq<Pattern>, breaking: seq<Pattern>, hot: seq<Pattern>)
    ensures UniqueP(Prioritize(top, breaking, hot))
    ensures var ids := PIds(Prioritize(top, breaking, hot));
      && (forall i :: 0 <= i < |breaking| ==> breaking[i].id in ids)
      && (forall i :: 0 <= i < |hot| ==> hot[i].id in ids)
      && (forall i :: 0 <= i < |Take(top, 5)| ==> Take(top, 5)[i].id in ids)
  {
    var a := AddNew([], breaking, Critical);
    var b := AddNew(a, hot, High);
    AddNewUniqueAndCovers([], breaking, Critical);
    AddNewUniqueAndCovers(a, hot, High);
    AddNewUniqueAndCovers(b, Take(top, 5), Normal);
  }

  /** For lists without repeated ids (as the table queries return), the
      prioritised list is all the breaking patterns, then the hot ones not
      breaking, then those of the first five top ones not yet listed. */
  lemma PrioritizeIsConcatenation(top: seq<Pattern>, breaking: seq<Pattern>, hot: seq<Pattern>)
    requires DistinctIds(top) && DistinctIds(breaking) && DistinctIds(hot)
    ensures var a := Tag(breaking, Critical);
      var b := a + Tag(Unseen(PIds(a), hot), High);
      Prioritize(top, breaking, hot) == b + Tag(Unseen(PIds(b), Take(top, 5)), Normal)
  {
    var a := AddNew([], breaking, Critical);
    AddNewIsUnseen([], breaking, Critical);
    UnseenNone(breaking);
    assert a == Tag(breaking, Critical);
    var b := AddNew(a, hot, High);
    AddNewIsUnseen(a, hot, High);
    assert DistinctIds(Take(top, 5));
    AddNewIsUnseen(b, Take(top, 5), Normal);
  }

  // ------------------------------------------------------------------
  // Regime transitions (`_analyze_regime_transitions`)
  // ------------------------------------------------------------------

  datatype Transition = Transition(fromRegime: string, toRegime: string, atRisk: nat, emerging: nat)

  datatype Analyzer = Analyzer(inj: MemoryInjector.Injector, lastRegime: Option<string>, lastWeekly: Option<int>)

  /** A pattern counted as strong in a regime: active, stored under the
      regime's normalised name, and winning more than 60% of its trades. */
  predicate StrongIn(p: Pattern, key: string)
  {
    p.components.regime == key && p.active && p.winRate > 0.60
  }

  function StrongTest(key: string): Pattern -> bool
  {
    (p: Pattern) => StrongIn(p, key)
  }

  function AboveSixty(): Pattern -> bool
  {
    (p: Pattern) => p.winRate > 0.60
  }

  /** The ids of the patterns of a regime with a win rate above 60%: one
      per strong row of the table, and every strong row's id. */
  function StrongIds(t: seq<Pattern>, regime: string): (r: seq<string>)
    ensures |r| == Count(t, StrongTest(PatternStore.RegimeKey(regime)))
    ensures forall i :: 0 <= i < |r| ==>
      exists p :: p in t && StrongIn(p, PatternStore.RegimeKey(regime)) && p.id == r[i]
    ensures forall p :: p in t && StrongIn(p, PatternStore.RegimeKey(regime)) ==> p.id in r
  {
    var key := PatternStore.RegimeKey(regime);
    var strong := Filter(PatternStore.RegimePatterns(t, regime), AboveSixty());
    StrongRows(t, regime);
    StrongIdFacts(t, key, strong);
    PatternStore.Ids(strong)
  }

  /** The ids are those of the regime's strong rows in the order of the
      query, best expectancy first. */
  lemma StrongIdsBestFirst(t: seq<Pattern>, regime: string)
    ensures exists rows ::
              && StrongIds(t, regime) == PatternStore.Ids(rows)
              && SortedDesc(rows, PatternStore.ExpectancyKey)
              && multiset(rows) == multiset(Filter(t, StrongTest(PatternStore.RegimeKey(regime))))
  {
    var strong := Filter(PatternStore.RegimePatterns(t, regime), AboveSixty());
    StrongRows(t, regime);
    FilterKeepsOrder(PatternStore.RegimePatterns(t, regime), PatternStore.ExpectancyKey, AboveSixty());
    assert StrongIds(t, regime) == PatternStore.Ids(strong);
  }

  /** The five ids a regime transition names are the five best: a strong
      row of the regime whose id is not among them means five were taken,
      each the id of a strong row at least as profitable. */
  lemma TopFiveStrongAreBest(t: seq<Pattern>, regime: string, y: Pattern)
    requires y in t && StrongIn(y, PatternStore.RegimeKey(regime))
    requires y.id !in Take(StrongIds(t, regime), 5)
    ensures |Take(StrongIds(t, regime), 5)| == 5
    ensures forall i :: 0 <= i < 5 ==>
      exists p :: p in t && StrongIn(p, PatternStore.RegimeKey(regime)) && p.id == StrongIds(t, regime)[i] && p.expectancy >= y.expectancy
  {
    var key := PatternStore.RegimeKey(regime);
    var strong := Filter(PatternStore.RegimePatterns(t, regime), AboveSixty());
    StrongRows(t, regime);
    FilterKeepsOrder(PatternStore.RegimePatterns(t, regime), PatternStore.ExpectancyKey, AboveSixty());
    var ids := PatternStore.Ids(strong);
    assert StrongIds(t, regime) == ids;
    assert y in Filter(t, StrongTest(key));
    assert y in strong;
    var top := Take(strong, 5);
    assert y !in top;
    PrefixOfSortedIsTop(strong, PatternStore.ExpectancyKey, 5, y);
    forall i | 0 <= i < 5
      ensures exists p :: p in t && StrongIn(p, key) && p.id == ids[i] && p.expectancy >= y.expectancy
    {
      assert top[i] == strong[i] && strong[i] in strong;
      assert strong[i] in Filter(t, StrongTest(key));
      assert StrongTest(key)(strong[i]);
    }
  }

  /** The strong rows of a regime's query answer are the table's strong
      rows of that regime. */
  lemma StrongRows(t: seq<Pattern>, regime: string)
    ensures var strong := Filter(PatternStore.RegimePatterns(t, regime), AboveSixty());
      var f := Filter(t, StrongTest(PatternStore.RegimeKey(regime)));
      multiset(strong) == multiset(f) && |strong| == |f| && forall p :: p in strong <==> p in f
  {
    var key := PatternStore.RegimeKey(regime);
    var rp := PatternStore.RegimePatterns(t, regime);
    var strong := Filter(rp, AboveSixty());
    var f := Filter(t, StrongTest(key));
    FilterSameMultiset(rp, Filter(t, PatternStore.RegimeTest(key)), AboveSixty());
    FilterFilter(t, PatternStore.RegimeTest(key), AboveSixty(), StrongTest(key));
    assert |multiset(strong)| == |multiset(f)|;
    forall p
      ensures p in strong <==> p in f
    {
      assert p in strong <==> p in multiset(strong);
      assert p in f <==> p in multiset(f);
    }
  }

  lemma StrongIdFacts(t: seq<Pattern>, key: string, strong: seq<Pattern>)
    requires forall p :: p in strong <==> p in Filter(t, StrongTest(key))
    requires |strong| == |Filter(t, StrongTest(key))|
    ensures |PatternStore.Ids(strong)| == Count(t, StrongTest(key))
    ensures forall i :: 0 <= i < |strong| ==>
      exists p :: p in t && StrongIn(p, key) && p.id == PatternStore.Ids(strong)[i]
    ensures forall p :: p in t && StrongIn(p, key) ==> p.id in PatternStore.Ids(strong)
  {
    var ids := PatternStore.Ids(strong);
    var f := Filter(t, StrongTest(key));
    CountIsFilterLength(t, StrongTest(key));
    forall i | 0 <= i < |strong|
      ensures exists p :: p in t && StrongIn(p, key) && p.id == PatternStore.Ids(strong)[i]
    {
      assert strong[i] in f;
      var j :| 0 <= j < |f| && f[j] == strong[i];
      assert StrongTest(key)(f[j]);
      var w := f[j];
      assert w in t && StrongIn(w, key) && w.id == PatternStore.Ids(strong)[i];
    }
    assert forall i :: 0 <= i < |strong| ==>
      exists p :: p in t && StrongIn(p, key) && p.id == PatternStore.Ids(strong)[i];
    forall q | q in t && StrongIn(q, key)
      ensures q.id in ids
    {
      var k :| 0 <= k < |t| && t[k] == q;
      assert StrongTest(key)(t[k]);
      assert q in f;
      var i :| 0 <= i < |strong| && strong[i] == q;
      assert ids[i] == q.id;
    }
  }

  /** Whether a transition fires: a remembered regime (a non-empty name)
      that differs from the current one. */
  predicate Fires(last: Option<string>, current: string)
  {
    last.Some? && |last.value| > 0 && current != last.value
  }

  /** The step as written: the reported `from_regime` is read after the
      remembered regime has been overwritten with the current one. */
  function RegimeStepAsWritten(an: Analyzer, current: Option<string>): (r: (Analyzer, Option<Transition>))
    ensures current.None? ==> r == (an, None)
    ensures current.Some? ==> r.0.lastRegime == current
    ensures r.1.Some? <==> current.Some? && Fires(an.lastRegime, current.value)
  {
    if current.None? then (an, None)
    else
      var c := current.value;
      if Fires(an.lastRegime, c) then
        var last := an.lastRegime.value;
        var t := an.inj.db.patterns;
        var breaking := StrongIds(t, last);
        var emerging := StrongIds(t, c);
        var inj := MemoryInjector.InjectRegimeTransition(an.inj, last, c, Take(breaking, 5), Take(emerging, 5));
        var an1 := an.(inj := inj, lastRegime := Some(c));
        (an1, Some(Transition(an1.lastRegime.value, c, |breaking|, |emerging|)))
      else (an.(lastRegime := Some(c)), None)
  }

  /** As written, every reported transition goes from a regime to itself:
      after "fear" the regime "greed" is reported as greed to greed. */
  lemma AsWrittenReportsNoChange(an: Analyzer, current: Option<string>)
    requires current.Some? && Fires(an.lastRegime, current.value)
    ensures RegimeStepAsWritten(an, current).1.value.fromRegime == RegimeStepAsWritten(an, current).1.value.toRegime
  {
  }

  lemma AsWrittenFearToGreed(an: Analyzer)
    requires an.lastRegime == Some("fear")
    ensures RegimeStepAsWritten(an, Some("greed")).1.Some?
    ensures RegimeStepAsWritten(an, Some("greed")).1.value.fromRegime == "greed"
  {
    assert "greed" != "fear";
  }

  /** The step with the remembered regime reported as the origin. A
      transition injects one lesson naming at most five breaking and five
      emerging patterns. Without recent trades nothing changes. */
  function RegimeStep(an: Analyzer, current: Option<string>): (r: (Analyzer, Option<Transition>))
    ensures current.None? ==> r == (an, None)
    ensures current.Some? ==> r.0.lastRegime == current
    ensures r.1.Some? <==> current.Some? && Fires(an.lastRegime, current.value)
    ensures r.1.Some? ==> r.1.value.fromRegime == an.lastRegime.value && r.1.value.toRegime == current.value
    ensures r.1.Some? ==> r.0.inj == MemoryInjector.InjectRegimeTransition(an.inj, an.lastRegime.value, current.value,
      Take(StrongIds(an.inj.db.patterns, an.lastRegime.value), 5), Take(StrongIds(an.inj.db.patterns, current.value), 5))
    ensures r.1.None? ==> r.0.inj == an.inj
    ensures r.0.lastWeekly == an.lastWeekly
  {
    if current.None? then (an, None)
    else
      var c := current.value;
      if Fires(an.lastRegime, c) then
        var last := an.lastRegime.value;
        var t := an.inj.db.patterns;
        var breaking := StrongIds(t, last);
        var emerging := StrongIds(t, c);
        var inj := MemoryInjector.InjectRegimeTransition(an.inj, last, c, Take(breaking, 5), Take(emerging, 5));
        (an.(inj := inj, lastRegime := Some(c)), Some(Transition(last, c, |breaking|, |emerging|)))
      else (an.(lastRegime := Some(c)), None)
  }

  /** The corrected step reports a real change, and the same regime seen
      twice in a row never fires. */
  lemma RegimeStepReportsChange(an: Analyzer, c: string)
    ensures RegimeStep(an, Some(c)).1.Some? ==> RegimeStep(an, Some(c)).1.value.fromRegime != c
    ensures RegimeStep(RegimeStep(an, Some(c)).0, Some(c)).1.None?
  {
  }

  // ------------------------------------------------------------------
  // Weekly analysis
  // ------------------------------------------------------------------

  /** One part of `_generate_analysis_summary`, with the figure it shows. */
  datatype SummaryPart = BestPattern(id: string, winRate: real) | WorstBreakdown(id: string, recentWinRate: real) | Hottest(id: string, momentum: real)

  /** The parts joined by ". "; no part reads "No significant patterns
      found". */
  function SummaryParts(top: seq<Pattern>, breaking: seq<Pattern>, hot: seq<Pattern>): (r: seq<SummaryPart>)
    ensures |r| == 0 <==> |top| == 0 && |breaking| == 0 && |hot| == 0
    ensures |r| <= 3
  {
    (if |top| > 0 then [BestPattern(top[0].id, top[0].winRate)] else [])
    + (if |breaking| > 0 then [WorstBreakdown(breaking[0].id, breaking[0].recentWinRate)] else [])
    + (if |hot| > 0 then [Hottest(hot[0].id, hot[0].momentum)] else [])
  }

  datatype Findings = Findings(top: nat, breaking: nat, hot: nat, transition: Option<Transition>)

  datatype Weekly = Weekly(
    analyzed: nat,
    injected: nat,
    findings: Findings,
    summary: Option<seq<SummaryPart>>,
    deactivated: Option<nat>,
    error: Option<string>)

  /** The queries of `run_weekly_analysis`. */
  function WeeklyTop(t: seq<Pattern>): seq<Pattern> { PatternStore.TopPatterns(t, 10, 20) }
  function WeeklyBreaking(t: seq<Pattern>): seq<Pattern> { PatternStore.BreakingPatterns(t, 0.40, 20) }
  function WeeklyHot(t: seq<Pattern>): seq<Pattern> { PatternStore.HotPatterns(t, 0.10) }

  /** `run_weekly_analysis`. The clock (`now`), the stale cutoff day and the
      regime most traded in the last week are parameters. The only failure
      modelled is a memory channel raising during the batch injection; it
      is reported in `error` and the later steps are skipped. */
  function RunWeekly(an: Analyzer, now: int, cutoff: int, currentRegime: Option<string>): (r: (Analyzer, Weekly))
    ensures var t := an.inj.db.patterns;
      r.1.analyzed == |Prioritize(WeeklyTop(t), WeeklyBreaking(t), WeeklyHot(t))|
    ensures r.1.findings.top == |WeeklyTop(an.inj.db.patterns)| && r.1.findings.breaking == |WeeklyBreaking(an.inj.db.patterns)|
    ensures r.1.error.Some? ==> r.1.summary.None? && r.1.deactivated.None? && r.0.lastWeekly == an.lastWeekly && r.0.lastRegime == an.lastRegime
    ensures r.1.error.None? ==> r.0.lastWeekly == Some(now) && r.1.summary.Some? && r.1.deactivated.Some?
    ensures r.1.error.None? ==> forall i :: 0 <= i < |r.0.inj.db.patterns| ==> !PatternStore.Stale(r.0.inj.db.patterns[i], cutoff)
    ensures r.1.analyzed == 0 ==> r.1.injected == 0 && r.1.error.None?
  {
    var t := an.inj.db.patterns;
    var top := WeeklyTop(t);
    var breaking := WeeklyBreaking(t);
    var hot := WeeklyHot(t);
    var prio := Prioritize(top, breaking, hot);
    var injected :=
      if |prio| > 0 then MemoryInjector.InjectPatternBatch(an.inj, PatternsOf(prio), "weekly_analysis")
      else (an.inj, Ok(0));
    var findings := Findings(|top|, |breaking|, |hot|, None);
    if injected.1.Raised? then
      (an.(inj := injected.0), Weekly(|prio|, 0, findings, None, None, Some(injected.1.error)))
    else
      var step := RegimeStep(an.(inj := injected.0), currentRegime);
      var an2 := step.0;
      var deactivated := PatternStore.DeactivateStale(an2.inj.db.patterns, cutoff);
      var db3 := an2.inj.db.(patterns := deactivated.0);
      var an3 := an2.(inj := an2.inj.(db := db3), lastWeekly := Some(now));
      (an3, Weekly(|prio|, injected.1.value, findings.(transition := step.1), Some(SummaryParts(top, breaking, hot)), Some(deactivated.1), None))
  }

  // ------------------------------------------------------------------
  // Daily check
  // ------------------------------------------------------------------

  datatype DailyAlert = CriticalBreakdown(id: string, recentWinRate: real) | HotPatternAlert(id: string, recentWinRate: real)

  datatype Daily = Daily(alerts: seq<DailyAlert>, actions: seq<string>)

  /** A breaking pattern the daily check calls critical: recent win rate
      under 25%. */
  predicate IsCritical(p: Pattern)
  {
    p.totalTrades >= 10 && p.recentWinRate < 0.25 && p.winRate > 0.50 && p.active
  }

  /** A hot pattern the daily check calls exceptional: recent win rate
      above 80%. */
  predicate IsExceptional(p: Pattern)
  {
    p.totalTrades >= 10 && p.recentWinRate > p.winRate + 0.20 && p.active && p.recentWinRate > 0.80
  }

  function Below25(): Pattern -> bool { (p: Pattern) => p.recentWinRate < 0.25 }

  function Above80(): Pattern -> bool { (p: Pattern) => p.recentWinRate > 0.80 }

  /** The patterns the daily check raises a critical alert for: every
      critical row of the table, steepest decline first. */
  function CriticalOnes(t: seq<Pattern>): (r: seq<Pattern>)
    ensures multiset(r) == multiset(Filter(t, IsCritical))
    ensures SortedDesc(r, PatternStore.DeclineKey)
    ensures forall p :: p in r <==> p in t && IsCritical(p)
  {
    var b := PatternStore.BreakingPatterns(t, 0.30, 10);
    FilterSameMultiset(b, Filter(t, PatternStore.BreakingTest(0.30, 10)), Below25());
    FilterFilter(t, PatternStore.BreakingTest(0.30, 10), Below25(), IsCritical);
    FilterKeepsOrder(b, PatternStore.DeclineKey, Below25());
    Filter(b, Below25())
  }

  /** The patterns the daily check reports as exceptionally hot: every
      exceptional row of the table, largest improvement first. */
  function HotOnes(t: seq<Pattern>): (r: seq<Pattern>)
    ensures multiset(r) == multiset(Filter(t, IsExceptional))
    ensures SortedDesc(r, PatternStore.ImprovementKey)
    ensures forall p :: p in r <==> p in t && IsExceptional(p)
  {
    var h := PatternStore.HotPatterns(t, 0.20);
    FilterSameMultiset(h, Filter(t, PatternStore.HotTest(0.20)), Above80());
    FilterFilter(t, PatternStore.HotTest(0.20), Above80(), IsExceptional);
    FilterKeepsOrder(h, PatternStore.ImprovementKey, Above80());
    Filter(h, Above80())
  }

  /** One `critical_alert` batch injection per pattern, in order; a
      failing channel raises out of the whole check. */
  function InjectEach(inj: MemoryInjector.Injector, ps: seq<Pattern>): (r: (MemoryInjector.Injector, Result<seq<string>, string>))
    ensures r.1.Ok? ==> r.1.value == PatternStore.Ids(ps)
    decreases |ps|
  {
    if |ps| == 0 then (inj, Ok([]))
    else
      IdsCons(ps);
      var first := InjectCritical(inj, ps[0]);
      if first.1.Raised? then (first.0, Raised(first.1.error))
      else
        var rest := InjectEach(first.0, ps[1..]);
        (rest.0, if rest.1.Raised? then rest.1 else Ok([ps[0].id] + rest.1.value))
  }

  function InjectCritical(inj: MemoryInjector.Injector, p: Pattern): (MemoryInjector.Injector, Result<nat, string>)
  {
    MemoryInjector.InjectPatternBatch(inj, [p], "critical_alert")
  }

  lemma IdsCons(ps: seq<Pattern>)
    requires |ps| > 0
    ensures PatternStore.Ids(ps) == [ps[0].id] + PatternStore.Ids(ps[1..])
  {
  }

  function CriticalAlerts(ps: seq<Pattern>): (r: seq<DailyAlert>)
    ensures |r| == |ps| && forall i :: 0 <= i < |ps| ==> r[i] == CriticalBreakdown(ps[i].id, ps[i].recentWinRate)
  {
    seq(|ps|, i requires 0 <= i < |ps| => CriticalBreakdown(ps[i].id, ps[i].recentWinRate))
  }

  function HotAlerts(ps: seq<Pattern>): (r: seq<DailyAlert>)
    ensures |r| == |ps| && forall i :: 0 <= i < |ps| ==> r[i] == HotPatternAlert(ps[i].id, ps[i].recentWinRate)
  {
    seq(|ps|, i requires 0 <= i < |ps| => HotPatternAlert(ps[i].id, ps[i].recentWinRate))
  }

  /** The alerts of the daily check: critical ones first, then those for
      exceptionally hot patterns. */
  function DailyAlerts(t: seq<Pattern>): (r: seq<DailyAlert>)
    ensures |r| == |CriticalOnes(t)| + |HotOnes(t)|
  {
    CriticalAlerts(CriticalOnes(t)) + HotAlerts(HotOnes(t))
  }

  /** `run_daily_check`: each critical pattern is injected as its own
      alert batch, in order; a failing channel raises out of the check. */
  function DailyCheck(an: Analyzer): (r: (Analyzer, Result<Daily, string>))
    ensures r.0.lastRegime == an.lastRegime && r.0.lastWeekly == an.lastWeekly
    ensures r.1.Ok? ==> r.1.value.alerts == DailyAlerts(an.inj.db.patterns)
    ensures r.1.Ok? ==> r.1.value.actions == PatternStore.Ids(CriticalOnes(an.inj.db.patterns))
  {
    var t := an.inj.db.patterns;
    var critical := CriticalOnes(t);
    var injected := InjectEach(an.inj, critical);
    if injected.1.Raised? then (an.(inj := injected.0), Raised(injected.1.error))
    else
      (an.(inj := injected.0), Ok(Daily(DailyAlerts(t), injected.1.value)))
  }

  /** Alert `a` is about row `p`: a critical one about an active row with
      at least ten trades, over half of them won, and a recent win rate
      under 25%; a hot one about an active row whose recent win rate is
      above 80% and beats its overall rate by over 20 points. */
  predicate Genuine(p: Pattern, a: DailyAlert)
  {
    p.id == a.id && p.recentWinRate == a.recentWinRate && p.active &&
    match a
    case CriticalBreakdown(_, _) => p.totalTrades >= 10 && p.winRate > 0.50 && p.recentWinRate < 0.25
    case HotPatternAlert(_, _) => p.recentWinRate > 0.80 && p.recentWinRate > p.winRate + 0.20
  }

  lemma CriticalAlertsGenuine(t: seq<Pattern>, ps: seq<Pattern>)
    requires forall p :: p in ps ==> p in t && IsCritical(p)
    ensures forall a :: a in CriticalAlerts(ps) ==> exists p :: p in t && Genuine(p, a)
  {
    forall a | a in CriticalAlerts(ps)
      ensures exists p :: p in t && Genuine(p, a)
    {
      var i :| 0 <= i < |ps| && a == CriticalAlerts(ps)[i];
      assert ps[i] in ps;
      assert Genuine(ps[i], a);
    }
  }

  lemma HotAlertsGenuine(t: seq<Pattern>, ps: seq<Pattern>)
    requires forall p :: p in ps ==> p in t && IsExceptional(p)
    ensures forall a :: a in HotAlerts(ps) ==> exists p :: p in t && Genuine(p, a)
  {
    forall a | a in HotAlerts(ps)
      ensures exists p :: p in t && Genuine(p, a)
    {
      var i :| 0 <= i < |ps| && a == HotAlerts(ps)[i];
      assert ps[i] in ps;
      assert Genuine(ps[i], a);
    }
  }

  /** Every alert of the daily check is about a real row of the table. */
  lemma DailyAlertsAreGenuine(t: seq<Pattern>)
    ensures forall a :: a in DailyAlerts(t) ==> exists p :: p in t && Genuine(p, a)
  {
    CriticalAlertsGenuine(t, CriticalOnes(t));
    HotAlertsGenuine(t, HotOnes(t));
  }

  // ------------------------------------------------------------------
  // Closed positions
  // ------------------------------------------------------------------

  /** The closed position fields the analyzer reads; a missing key is `None`. */
  datatype ClosedPosition = ClosedPosition(
    patternId: Option<string>,
    pnlPercent: Option<real>,
    holdingDays: Option<int>,
    exitReason: Option<string>)

  datatype LessonKind = UnexpectedFailure | UnexpectedSuccess

  datatype ClosedAnalysis =
    | NoPatternId
    | PatternNotFound(id: string)
    | Analysed(id: string, pnl: real, lesson: Option<LessonKind>)

  /** Which surprise, if any, a result is for a pattern with win rate `win`. */
  function Surprise(win: real, pnl: real): (k: Option<LessonKind>)
    ensures k == Some(UnexpectedFailure) <==> win > 0.70 && pnl <= 0.0
    ensures k == Some(UnexpectedSuccess) <==> win < 0.30 && pnl > 3.0
  {
    if win > 0.70 && !(pnl > 0.0) then Some(UnexpectedFailure)
    else if win < 0.30 && pnl > 0.0 && pnl > 3.0 then Some(UnexpectedSuccess)
    else None
  }

  /** `analyze_closed_position`: without a pattern id, or for an unknown
      pattern, an error result; reading a missing return raises; a
      surprising outcome injects an immediate lesson. */
  function AnalyzeClosed(an: Analyzer, pos: ClosedPosition): (r: (Analyzer, Result<ClosedAnalysis, string>))
    ensures pos.patternId.None? || pos.patternId.value == "" ==> r == (an, Ok(NoPatternId))
    ensures r.1.Raised? <==> pos.patternId.Some? && pos.patternId.value != "" && pos.pnlPercent.None?
    ensures r.1.Ok? && r.1.value.Analysed? ==>
      PatternStore.HasId(an.inj.db.patterns, r.1.value.id)
      && r.1.value.lesson == Surprise(PatternStore.GetStats(an.inj.db.patterns, r.1.value.id).value.winRate, r.1.value.pnl)
    ensures r.1.Ok? && r.1.value.PatternNotFound? ==> !PatternStore.HasId(an.inj.db.patterns, r.1.value.id)
    ensures r.1.Ok? && !r.1.value.NoPatternId? ==> r.1.value.id == pos.patternId.value
    ensures r.1.Ok? && r.1.value.Analysed? ==> r.1.value.pnl == pos.pnlPercent.value
    ensures r.1.Ok? && r.1.value.Analysed? && r.1.value.lesson.Some? ==>
      var stats := PatternStore.GetStats(an.inj.db.patterns, r.1.value.id).value;
      var outcome := MemoryInjector.Outcome(Some(r.1.value.pnl), pos.exitReason, Some(stats.components.strategy),
                                            Some(stats.components.regime), pos.holdingDays);
      r.0 == an.(inj := MemoryInjector.InjectOutcome(an.inj, r.1.value.id, outcome).0)
    ensures !(r.1.Ok? && r.1.value.Analysed? && r.1.value.lesson.Some?) ==> r.0 == an
  {
    if pos.patternId.None? || pos.patternId.value == "" then (an, Ok(NoPatternId))
    else if pos.pnlPercent.None? then (an, Raised("KeyError: pnl_percent"))
    else
      var id := pos.patternId.value;
      var pnl := pos.pnlPercent.value;
      match PatternStore.GetStats(an.inj.db.patterns, id)
      case None => (an, Ok(PatternNotFound(id)))
      case Some(stats) =>
        var lesson := Surprise(stats.winRate, pnl);
        if lesson.None? then (an, Ok(Analysed(id, pnl, None)))
        else
          var outcome := MemoryInjector.Outcome(Some(pnl), pos.exitReason, Some(stats.components.strategy),
                                                Some(stats.components.regime), pos.holdingDays);
          var injected := MemoryInjector.InjectOutcome(an.inj, id, outcome);
          (an.(inj := injected.0), Ok(Analysed(id, pnl, lesson)))
  }

  /** An expected outcome teaches nothing: a pattern with a win rate
      between 30% and 70% never triggers a lesson. */
  lemma MiddlingPatternsTeachNothing(an: Analyzer, pos: ClosedPosition)
    requires AnalyzeClosed(an, pos).1.Ok? && AnalyzeClosed(an, pos).1.value.Analysed?
    requires var s := PatternStore.GetStats(an.inj.db.patterns, AnalyzeClosed(an, pos).1.value.id).value;
      0.30 <= s.winRate <= 0.70
    ensures AnalyzeClosed(an, pos).1.value.lesson.None? && AnalyzeClosed(an, pos).0 == an
  {
  }

  // ------------------------------------------------------------------
  // Recommendations for candidates
  // ------------------------------------------------------------------

  /** The text a candidate's recommendation carries. */
  datatype Advice = Advised(advice: PatternTracker.Advice) | NoHistory

  datatype CandidateAdvice =
    | NoPattern
    | PatternAdvice(id: string, winRate: real, expectancy: real, confidence: PatternStore.Confidence, advice: Advice)

  datatype Candidate = Candidate(symbol: Option<string>, patternId: Option<string>)

  /** The recommendation built from a tracker context; an unknown pattern
      gets the defaults 0, 0 and low confidence. */
  function AdviceOf(id: string, c: PatternTracker.Context): (a: CandidateAdvice)
    ensures a.PatternAdvice? && a.id == id
    ensures c.Unknown? ==> a.winRate == 0.0 && a.expectancy == 0.0 && a.confidence == PatternStore.Low && a.advice == NoHistory
  {
    match c
    case Unknown(_) => PatternAdvice(id, 0.0, 0.0, PatternStore.Low, NoHistory)
    case Known(_, _, win, _, exp, conf, _, _, advice) => PatternAdvice(id, win, exp, conf, Advised(advice))
  }

  /** `get_pattern_recommendations`: one entry per symbol, a later candidate
      with the same symbol replacing an earlier one; reading a missing
      symbol raises. The tracker's cache is threaded through. */
  function Recommendations(tr: PatternTracker.Tracker, cands: seq<Candidate>, now: int): (r: (PatternTracker.Tracker, Result<map<string, CandidateAdvice>, string>))
    ensures r.1.Ok? <==> forall i :: 0 <= i < |cands| ==> cands[i].symbol.Some?
    ensures r.0.db == tr.db
    ensures r.1.Ok? ==> forall i :: 0 <= i < |cands| ==> cands[i].symbol.value in r.1.value
    ensures r.1.Ok? ==> forall s :: s in r.1.value ==> exists i :: 0 <= i < |cands| && cands[i].symbol == Some(s)
    decreases |cands|
  {
    if |cands| == 0 then (tr, Ok(map[]))
    else AddCandidate(Recommendations(tr, cands[..|cands| - 1], now), cands[|cands| - 1], now)
  }

  /** One pass of the loop of `get_pattern_recommendations`. */
  function AddCandidate(front: (PatternTracker.Tracker, Result<map<string, CandidateAdvice>, string>), c: Candidate, now: int)
    : (r: (PatternTracker.Tracker, Result<map<string, CandidateAdvice>, string>))
    ensures r.1.Ok? <==> front.1.Ok? && c.symbol.Some?
    ensures r.0.db == front.0.db
    ensures r.1.Ok? ==> r.1.value.Keys == front.1.value.Keys + {c.symbol.value}
    ensures r.1.Ok? ==> forall s :: s in front.1.value && s != c.symbol.value ==> r.1.value[s] == front.1.value[s]
  {
    if front.1.Raised? then front
    else if c.symbol.None? then (front.0, Raised("KeyError: symbol"))
    else if c.patternId.None? || c.patternId.value == "" then
      (front.0, Ok(front.1.value[c.symbol.value := NoPattern]))
    else
      var ctx := PatternTracker.GetContext(front.0, c.patternId.value, now);
      (ctx.0, Ok(front.1.value[c.symbol.value := AdviceOf(c.patternId.value, ctx.1)]))
  }

  /** With a coherent cache, the candidate's advice is what the table
      says, and the cache stays coherent. */
  lemma AddCandidateFollowsTable(front: (PatternTracker.Tracker, Result<map<string, CandidateAdvice>, string>), c: Candidate, now: int)
    requires PatternTracker.Coherent(front.0) && front.1.Ok? && c.symbol.Some?
    ensures AddCandidate(front, c, now).1.value == front.1.value[c.symbol.value := TableAdvice(front.0.db.patterns, c)]
    ensures PatternTracker.Coherent(AddCandidate(front, c, now).0)
  {
    if !(c.patternId.None? || c.patternId.value == "") {
      PatternTracker.GetContextAnswersTable(front.0, c.patternId.value, now);
    }
  }

  /** The advice the table gives for one candidate: none without a
      pattern id, else the pattern's statistics read from the table. */
  function TableAdvice(t: seq<Pattern>, c: Candidate): CandidateAdvice
  {
    if c.patternId.None? || c.patternId.value == "" then NoPattern
    else AdviceOf(c.patternId.value, PatternTracker.FreshContext(t, c.patternId.value))
  }

  /** No later candidate has the symbol of candidate `i`. */
  predicate LastWithSymbol(cands: seq<Candidate>, i: nat)
    requires i < |cands|
  {
    forall j :: i < j < |cands| ==> cands[j].symbol != cands[i].symbol
  }

  /** Writing the advice of one more candidate keeps every symbol mapped
      to the advice of its last candidate. */
  lemma LastCandidateWins(init: seq<Candidate>, c: Candidate, m: map<string, CandidateAdvice>, t: seq<Pattern>)
    requires c.symbol.Some? && forall i :: 0 <= i < |init| ==> init[i].symbol.Some? && init[i].symbol.value in m
    requires forall i :: 0 <= i < |init| && LastWithSymbol(init, i) ==> m[init[i].symbol.value] == TableAdvice(t, init[i])
    ensures var cands := init + [c];
      var m' := m[c.symbol.value := TableAdvice(t, c)];
      forall i :: 0 <= i < |cands| && LastWithSymbol(cands, i) ==> m'[cands[i].symbol.value] == TableAdvice(t, cands[i])
  {
    var cands := init + [c];
    forall i | 0 <= i < |init| && LastWithSymbol(cands, i)
      ensures LastWithSymbol(init, i) && init[i].symbol != c.symbol
    {
      assert cands[|init|] == c;
      forall j | i < j < |init|
        ensures init[j].symbol != init[i].symbol
      {
        assert cands[j] == init[j] && cands[i] == init[i];
      }
    }
  }

  /** The recommendations read straight from the table, with no cache:
      each candidate in turn writes its advice under its symbol. */
  function TableRecommendations(t: seq<Pattern>, cands: seq<Candidate>): (m: map<string, CandidateAdvice>)
    requires forall i :: 0 <= i < |cands| ==> cands[i].symbol.Some?
    ensures forall i :: 0 <= i < |cands| ==> cands[i].symbol.value in m
    decreases |cands|
  {
    if |cands| == 0 then map[]
    else
      var c := cands[|cands| - 1];
      TableRecommendations(t, cands[..|cands| - 1])[c.symbol.value := TableAdvice(t, c)]
  }

  /** Every symbol is mapped to the advice of its last candidate. */
  lemma {:induction false} TableRecommendationsLastWins(t: seq<Pattern>, cands: seq<Candidate>)
    requires forall i :: 0 <= i < |cands| ==> cands[i].symbol.Some?
    ensures forall i :: 0 <= i < |cands| && LastWithSymbol(cands, i) ==>
      TableRecommendations(t, cands)[cands[i].symbol.value] == TableAdvice(t, cands[i])
    decreases |cands|
  {
    if |cands| > 0 {
      var init := cands[..|cands| - 1];
      var c := cands[|cands| - 1];
      TableRecommendationsLastWins(t, init);
      LastCandidateWins(init, c, TableRecommendations(t, init), t);
      assert init + [c] == cands;
    }
  }

  /** With a coherent cache, the recommendations are the ones read
      straight from the table, and the cache stays coherent. */
  lemma {:induction false} RecommendationsFollowTable(tr: PatternTracker.Tracker, cands: seq<Candidate>, now: int)
    requires PatternTracker.Coherent(tr)
    requires Recommendations(tr, cands, now).1.Ok?
    ensures Recommendations(tr, cands, now).1.value == TableRecommendations(tr.db.patterns, cands)
    ensures PatternTracker.Coherent(Recommendations(tr, cands, now).0)
    decreases |cands|
  {
    if |cands| > 0 {
      var init := cands[..|cands| - 1];
      RecommendationsFollowTable(tr, init, now);
      AddCandidateFollowsTable(Recommendations(tr, init, now), cands[|cands| - 1], now);
    }
  }

  /** So, as the loop of `get_pattern_recommendations` leaves it, every
      symbol maps to the advice the table gives for its last candidate. */
  lemma RecommendationsLastWins(tr: PatternTracker.Tracker, cands: seq<Candidate>, now: int)
    requires PatternTracker.Coherent(tr)
    requires Recommendations(tr, cands, now).1.Ok?
    ensures forall i :: 0 <= i < |cands| && LastWithSymbol(cands, i) ==>
      Recommendations(tr, cands, now).1.value[cands[i].symbol.value] == TableAdvice(tr.db.patterns, cands[i])
  {
    RecommendationsFollowTable(tr, cands, now);
    TableRecommendationsLastWins(tr.db.patterns, cands);
  }
}
