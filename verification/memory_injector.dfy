/** The pattern memory injector (`src/patterns/memory_injector.py`): turns
    pattern statistics and trade outcomes into lessons and appends them to
    the agents' memories. The memories are a list of named channels in
    the order of the dictionary that holds them; `healthy` says whether a
    channel's `add_situations` succeeds. Lessons are kept as records of
    what their text says. */
module MemoryInjector {

  import opened Wrappers
  import opened Seqs
  import opened Text
  import PatternStore
  import MemoryBridge

  /** Number of injected pattern ids remembered to avoid repeats. */
  const MaxHistory: nat := 100

  const TraderMemory: string := "trader_memory"
  const BullMemory: string := "bull_memory"
  const BearMemory: string := "bear_memory"
  const RiskMemory: string := "risk_manager_memory"
  const JudgeMemory: string := "invest_judge_memory"

  // ------------------------------------------------------------------
  // Lessons
  // ------------------------------------------------------------------

  /** The prefix a lesson carries for the amount of data behind it. */
  datatype Strength = LimitedData | HighConfidence | ModerateConfidence

  datatype Tier = HighlySuccessful | PositiveEdge | Underperforming | Deteriorating | NeutralPerformance

  /** A pattern lesson: its strength, tier and the figures its text states. */
  datatype Advice = Advice(strength: Strength, tier: Tier, totalTrades: nat, winRate: real, recentWinRate: real, expectancy: real)

  /** What a pattern lesson's situation describes. */
  datatype Situation = Situation(patternId: string, regime: string, strategy: string, volume: string, technical: string)

  /** How a batch lesson is framed for one kind of agent. */
  datatype Frame = Plain | Bullish | Favorable | BearishWarning | HighRisk

  /** The situation of a lesson about one closed trade. */
  datatype OutcomeSituation = OutcomeSituation(patternId: string, strategy: string, regime: string, holdingDays: Option<int>)

  /** How a closed-position lesson is framed for one channel. */
  datatype ClosedFrame = BullishWin | BearishValidation | RiskEvent | Standard

  /** One (situation, recommendation) pair appended to a memory. */
  datatype Entry =
    | PatternEntry(situation: Situation, frame: Frame, advice: Advice)
    | OutcomeEntry(outcome: OutcomeSituation, tier: MemoryBridge.TradeTier, pnl: real, exitReason: Option<string>)
    | TransitionEntry(fromRegime: string, toRegime: string, avoid: seq<string>, favor: seq<string>)
    | ClosedEntry(closedFrame: ClosedFrame, memory: MemoryBridge.Memory)

  datatype Channel = Channel(name: string, healthy: bool, entries: seq<Entry>)

  datatype Injector = Injector(channels: seq<Channel>, history: seq<string>, db: PatternStore.Db)

  /** `_build_situation_description` */
  function SituationOf(p: PatternStore.Pattern): (s: Situation)
    ensures s.patternId == p.id && s.volume == p.components.volume && s.technical == p.components.technical
    ensures s.regime == MemoryBridge.TitleWords(p.components.regime)
    ensures |s.strategy| == |p.components.strategy|
    ensures forall i :: 0 <= i < |s.strategy| ==>
      s.strategy[i] == if p.components.strategy[i] == '_' then ' ' else p.components.strategy[i]
  {
    Situation(p.id, MemoryBridge.TitleWords(p.components.regime), ReplaceChar(p.components.strategy, '_', ' '),
              p.components.volume, p.components.technical)
  }

  /** The conditions `_build_recommendation` tests, in its order. */
  predicate Excelling(p: PatternStore.Pattern) { p.winRate > 0.65 && p.recentWinRate > 0.70 }

  predicate Edge(p: PatternStore.Pattern) { p.winRate > 0.55 && p.momentum > 0.05 }

  predicate Lagging(p: PatternStore.Pattern) { p.winRate < 0.40 || p.recentWinRate < 0.35 }

  /** `_build_recommendation`: the first tier whose condition holds. */
  function AdviceFor(p: PatternStore.Pattern): (a: Advice)
    ensures a.totalTrades == p.totalTrades && a.expectancy == p.expectancy
    ensures a.winRate == p.winRate && a.recentWinRate == p.recentWinRate
    ensures a.strength == LimitedData <==> p.confidence == PatternStore.Low
    ensures a.strength == HighConfidence <==> p.confidence == PatternStore.High
    ensures a.strength == ModerateConfidence <==> p.confidence == PatternStore.Medium
    ensures a.tier == HighlySuccessful <==> Excelling(p)
    ensures a.tier == PositiveEdge <==> !Excelling(p) && Edge(p)
    ensures a.tier == Underperforming <==> !Excelling(p) && !Edge(p) && Lagging(p)
    ensures a.tier == Deteriorating <==> !Excelling(p) && !Edge(p) && !Lagging(p) && p.momentum < -0.15
    ensures a.tier == NeutralPerformance <==> !Excelling(p) && !Edge(p) && !Lagging(p) && p.momentum >= -0.15
  {
    var strength :=
      match p.confidence
      case Low => LimitedData
      case High => HighConfidence
      case Medium => ModerateConfidence;
    var tier :=
      if Excelling(p) then HighlySuccessful
      else if Edge(p) then PositiveEdge
      else if Lagging(p) then Underperforming
      else if p.momentum < -0.15 then Deteriorating
      else NeutralPerformance;
    Advice(strength, tier, p.totalTrades, p.winRate, p.recentWinRate, p.expectancy)
  }

  /** For a row whose statistics are derived from its trades, the lesson
      warns of limited data exactly below twenty trades, and a
      deteriorating pattern is one the summary counts as declining. */
  lemma AdviceAgreesWithTable(p: PatternStore.Pattern)
    requires PatternStore.DerivedMatch(p)
    ensures AdviceFor(p).strength == LimitedData <==> p.totalTrades < 20
    ensures AdviceFor(p).tier == Deteriorating ==> PatternStore.IsDeclining(p) && p.recentWinRate < p.winRate - 0.15
  {
  }

  // ------------------------------------------------------------------
  // Injection history
  // ------------------------------------------------------------------

  /** `_record_injection`: append, then keep the latest `MaxHistory` ids. */
  function RecordInjection(h: seq<string>, id: string): (r: seq<string>)
    ensures r == Last(h + [id], MaxHistory)
    ensures 0 < |r| <= MaxHistory && r[|r| - 1] == id
  {
    var h1 := h + [id];
    if |h1| > MaxHistory then h1[|h1| - MaxHistory..] else h1
  }

  // ------------------------------------------------------------------
  // Batch injection
  // ------------------------------------------------------------------

  predicate IsBullish(p: PatternStore.Pattern) { p.winRate > 0.60 }

  predicate IsBearish(p: PatternStore.Pattern) { p.winRate < 0.45 }

  function EntryOf(p: PatternStore.Pattern, f: Frame): Entry
  {
    PatternEntry(SituationOf(p), f, AdviceFor(p))
  }

  /** The lessons of `ps`, in order, all with frame `f`. */
  function Framed(ps: seq<PatternStore.Pattern>, f: Frame): (r: seq<Entry>)
    ensures |r| == |ps| && forall i :: 0 <= i < |ps| ==> r[i] == EntryOf(ps[i], f)
  {
    seq(|ps|, i requires 0 <= i < |ps| => EntryOf(ps[i], f))
  }

  lemma FramedCons(p: PatternStore.Pattern, ps: seq<PatternStore.Pattern>, f: Frame)
    ensures Framed([p] + ps, f) == [EntryOf(p, f)] + Framed(ps, f)
  {
    var a := Framed([p] + ps, f);
    var b := [EntryOf(p, f)] + Framed(ps, f);
    forall i | 0 <= i < |a|
      ensures a[i] == b[i]
    {
      if i > 0 {
        assert ([p] + ps)[i] == ps[i - 1];
      }
    }
  }

  lemma FilterCons(p: PatternStore.Pattern, ps: seq<PatternStore.Pattern>, q: PatternStore.Pattern -> bool)
    ensures Filter([p] + ps, q) == (if q(p) then [p] else []) + Filter(ps, q)
  {
    assert ([p] + ps)[1..] == ps;
  }

  /** The patterns of a batch that are not skipped, the advanced history
      and the lessons prepared for each kind of agent. */
  datatype Prepared = Prepared(
    history: seq<string>,
    chosen: seq<PatternStore.Pattern>,
    trader: seq<Entry>,
    bull: seq<Entry>,
    bear: seq<Entry>,
    risk: seq<Entry>,
    judge: seq<Entry>)

  /** The loop of `inject_pattern_batch`: a pattern whose id is in the
      history (including ids recorded earlier in the same batch) is skipped;
      every other pattern is recorded and goes to the trader, and also to
      the bull and the judge above a 60% win rate, or to the bear and the
      risk manager below 45%. */
  function Prepare(h: seq<string>, ps: seq<PatternStore.Pattern>): (r: Prepared)
    ensures |r.chosen| <= |ps|
    ensures forall i :: 0 <= i < |r.chosen| ==> r.chosen[i] in ps
    decreases |ps|
  {
    if |ps| == 0 then Prepared(h, [], [], [], [], [], [])
    else if ps[0].id in h then Prepare(h, ps[1..])
    else Admit(ps[0], Prepare(RecordInjection(h, ps[0].id), ps[1..]))
  }

  /** One pattern that is not skipped, in front of the lessons prepared
      for the rest of the batch. */
  function Admit(p: PatternStore.Pattern, rest: Prepared): Prepared
  {
    Prepared(
      rest.history,
      [p] + rest.chosen,
      [EntryOf(p, Plain)] + rest.trader,
      (if IsBullish(p) then [EntryOf(p, Bullish)] else []) + rest.bull,
      (if IsBearish(p) then [EntryOf(p, BearishWarning)] else []) + rest.bear,
      (if IsBearish(p) then [EntryOf(p, HighRisk)] else []) + rest.risk,
      (if IsBullish(p) then [EntryOf(p, Favorable)] else []) + rest.judge)
  }

  /** Every chosen pattern reaches the trader; exactly the bullish ones
      reach the bull and the judge, and exactly the bearish ones the bear
      and the risk manager, in batch order. */
  ghost predicate RoutedByWinRate(r: Prepared)
  {
    && r.trader == Framed(r.chosen, Plain)
    && r.bull == Framed(Filter(r.chosen, IsBullish), Bullish)
    && r.judge == Framed(Filter(r.chosen, IsBullish), Favorable)
    && r.bear == Framed(Filter(r.chosen, IsBearish), BearishWarning)
    && r.risk == Framed(Filter(r.chosen, IsBearish), HighRisk)
  }

  lemma AdmitRoutes(p: PatternStore.Pattern, rest: Prepared)
    requires RoutedByWinRate(rest)
    ensures RoutedByWinRate(Admit(p, rest))
  {
    var c := rest.chosen;
    FramedCons(p, c, Plain);
    AdmitFiltered(p, c, IsBullish, Bullish, rest.bull);
    AdmitFiltered(p, c, IsBullish, Favorable, rest.judge);
    AdmitFiltered(p, c, IsBearish, BearishWarning, rest.bear);
    AdmitFiltered(p, c, IsBearish, HighRisk, rest.risk);
  }

  lemma AdmitFiltered(p: PatternStore.Pattern, c: seq<PatternStore.Pattern>, q: PatternStore.Pattern -> bool, f: Frame, lessons: seq<Entry>)
    requires lessons == Framed(Filter(c, q), f)
    ensures (if q(p) then [EntryOf(p, f)] else []) + lessons == Framed(Filter([p] + c, q), f)
  {
    FilterCons(p, c, q);
    FramedCons(p, Filter(c, q), f);
  }

  lemma {:induction false} PrepareRoutes(h: seq<string>, ps: seq<PatternStore.Pattern>)
    ensures RoutedByWinRate(Prepare(h, ps))
    decreases |ps|
  {
    if |ps| == 0 {
    } else if ps[0].id in h {
      PrepareRoutes(h, ps[1..]);
    } else {
      var rest := Prepare(RecordInjection(h, ps[0].id), ps[1..]);
      PrepareRoutes(RecordInjection(h, ps[0].id), ps[1..]);
      assert Prepare(h, ps) == Admit(ps[0], rest);
      AdmitRoutes(ps[0], rest);
    }
  }

  /** The history after a batch is the old one followed by the chosen
      ids, cut to the latest `MaxHistory`. */
  lemma {:induction false} PrepareHistory(h: seq<string>, ps: seq<PatternStore.Pattern>)
    requires |h| <= MaxHistory
    ensures Prepare(h, ps).history == Last(h + PatternStore.Ids(Prepare(h, ps).chosen), MaxHistory)
    decreases |ps|
  {
    if |ps| == 0 {
      assert h + PatternStore.Ids([]) == h;
    } else if ps[0].id in h {
      PrepareHistory(h, ps[1..]);
    } else {
      var p := ps[0];
      var h1 := RecordInjection(h, p.id);
      PrepareHistory(h1, ps[1..]);
      var r' := Prepare(h1, ps[1..]);
      assert Prepare(h, ps) == Admit(p, r');
      HistoryStep(h, p, r'.chosen);
    }
  }

  lemma HistoryStep(h: seq<string>, p: PatternStore.Pattern, c: seq<PatternStore.Pattern>)
    ensures Last(RecordInjection(h, p.id) + PatternStore.Ids(c), MaxHistory) == Last(h + PatternStore.Ids([p] + c), MaxHistory)
  {
    var ic := PatternStore.Ids(c);
    LastOfLast(h + [p.id], ic, MaxHistory);
    assert PatternStore.Ids([p] + c) == [p.id] + ic;
    calc {
      Last(RecordInjection(h, p.id) + ic, MaxHistory);
      Last(Last(h + [p.id], MaxHistory) + ic, MaxHistory);
      Last((h + [p.id]) + ic, MaxHistory);
      { assert (h + [p.id]) + ic == h + ([p.id] + ic); }
      Last(h + ([p.id] + ic), MaxHistory);
      Last(h + PatternStore.Ids([p] + c), MaxHistory);
    }
  }

  /** No pattern is injected twice within `MaxHistory` injections: a
      chosen id differs from every history entry still remembered when it
      is checked, and from every id chosen less than `MaxHistory` places
      before it. */
  ghost predicate NoRecentRepeat(h: seq<string>, c: seq<PatternStore.Pattern>)
  {
    && (forall i, d :: 0 <= i < |c| && 0 <= d < |h| && |h| - d + i <= MaxHistory ==> c[i].id != h[d])
    && (forall i, j :: 0 <= i < j < |c| && j - i <= MaxHistory ==> c[i].id != c[j].id)
  }

  lemma AdmitKeepsNoRecentRepeat(h: seq<string>, p: PatternStore.Pattern, c': seq<PatternStore.Pattern>)
    requires |h| <= MaxHistory && p.id !in h
    requires NoRecentRepeat(RecordInjection(h, p.id), c')
    ensures NoRecentRepeat(h, [p] + c')
  {
    var x := p.id;
    var h1 := RecordInjection(h, x);
    var c := [p] + c';
    var shift := |h| + 1 - |h1|;
    assert shift == 0 || shift == 1;
    assert forall i, d :: 0 <= i < |c| && 0 <= d < |h| && |h| - d + i <= MaxHistory ==> c[i].id != h[d] by {
      forall i, d | 0 <= i < |c| && 0 <= d < |h| && |h| - d + i <= MaxHistory
        ensures c[i].id != h[d]
      {
        if i > 0 {
          var d1 := d - shift;
          assert 0 <= d1 < |h1| && |h1| - d1 + (i - 1) <= MaxHistory;
          assert h1[d1] == (h + [x])[shift + d1] == h[d];
          assert c[i] == c'[i - 1];
        }
      }
    }
    assert forall i, j :: 0 <= i < j < |c| && j - i <= MaxHistory ==> c[i].id != c[j].id by {
      forall i, j | 0 <= i < j < |c| && j - i <= MaxHistory
        ensures c[i].id != c[j].id
      {
        if i == 0 {
          assert h1[|h1| - 1] == x;
          assert c[j] == c'[j - 1];
        } else {
          assert c[i] == c'[i - 1] && c[j] == c'[j - 1];
        }
      }
    }
  }

  lemma {:induction false} PrepareSkipsRecentIds(h: seq<string>, ps: seq<PatternStore.Pattern>)
    requires |h| <= MaxHistory
    ensures NoRecentRepeat(h, Prepare(h, ps).chosen)
    decreases |ps|
  {
    if |ps| == 0 {
    } else if ps[0].id in h {
      assert Prepare(h, ps) == Prepare(h, ps[1..]);
      PrepareSkipsRecentIds(h, ps[1..]);
    } else {
      var h1 := RecordInjection(h, ps[0].id);
      PrepareSkipsRecentIds(h1, ps[1..]);
      assert Prepare(h, ps) == Admit(ps[0], Prepare(h1, ps[1..]));
      AdmitKeepsNoRecentRepeat(h, ps[0], Prepare(h1, ps[1..]).chosen);
    }
  }

  /** With an empty history, a batch of at most `MaxHistory` patterns
      injects each id at most once. */
  lemma FreshBatchInjectsEachIdOnce(ps: seq<PatternStore.Pattern>)
    requires |ps| <= MaxHistory
    ensures var c := Prepare([], ps).chosen;
      forall i, j :: 0 <= i < j < |c| ==> c[i].id != c[j].id
  {
    PrepareSkipsRecentIds([], ps);
    var c := Prepare([], ps).chosen;
  }

  // ------------------------------------------------------------------
  // Channels
  // ------------------------------------------------------------------

  function Names(chs: seq<Channel>): (r: seq<string>)
    ensures |r| == |chs| && forall i :: 0 <= i < |chs| ==> r[i] == chs[i].name
  {
    seq(|chs|, i requires 0 <= i < |chs| => chs[i].name)
  }

  /** The position of the channel called `name` (`name in self.memories`). */
  function ChannelIndex(names: seq<string>, name: string): (r: Option<nat>)
    ensures r.Some? ==> r.value < |names| && names[r.value] == name
    ensures r.None? <==> name !in names
  {
    if |names| == 0 then None
    else if names[0] == name then Some(0)
    else
      var rest := ChannelIndex(names[1..], name);
      assert names == [names[0]] + names[1..];
      if rest.None? then None else Some(rest.value + 1)
  }

  /** Same channels, in the same order, each as healthy as before. */
  predicate SameShape(a: seq<Channel>, b: seq<Channel>)
  {
    Names(a) == Names(b) && forall i :: 0 <= i < |a| ==> a[i].healthy == b[i].healthy
  }

  /** Number of lessons held by all channels together. */
  function TotalEntries(chs: seq<Channel>): nat
  {
    if |chs| == 0 then 0 else TotalEntries(chs[..|chs| - 1]) + |chs[|chs| - 1].entries|
  }

  lemma {:induction false} TotalEntriesUpdate(chs: seq<Channel>, k: nat, c: Channel)
    requires k < |chs|
    ensures TotalEntries(chs[k := c]) + |chs[k].entries| == TotalEntries(chs) + |c.entries|
    decreases |chs|
  {
    var n := |chs| - 1;
    var u := chs[k := c];
    assert u[..n] == if k < n then chs[..n][k := c] else chs[..n];
    if k < n {
      TotalEntriesUpdate(chs[..n], k, c);
    }
  }

  function Append(c: Channel, batch: seq<Entry>): Channel
  {
    c.(entries := c.entries + batch)
  }

  /** The lessons channel `i` takes when `batch` goes to the memory called
      `name`: the whole batch when `i` is where the lookup
      `name in self.memories` lands, nothing otherwise. */
  function Received(chs: seq<Channel>, i: nat, name: string, batch: seq<Entry>): seq<Entry>
  {
    if ChannelIndex(Names(chs), name) == Some(i) then batch else []
  }

  /** One `if batch and name in self.memories: add_situations(batch)` of
      `inject_pattern_batch`; a failing channel raises. */
  function DeliverNamed(chs: seq<Channel>, name: string, batch: seq<Entry>): (r: (seq<Channel>, Result<nat, string>))
    ensures SameShape(chs, r.0)
    ensures r.1.Ok? <==> RouteOk(chs, name, batch)
    ensures r.1.Ok? ==> TotalEntries(r.0) == TotalEntries(chs) + r.1.value
    ensures r.1.Ok? ==> r.1.value == RoutedSize(chs, name, batch)
    ensures forall i :: 0 <= i < |chs| && chs[i].name != name ==> r.0[i] == chs[i]
    ensures r.1.Ok? ==> forall i :: 0 <= i < |chs| ==> r.0[i] == Append(chs[i], Received(chs, i, name, batch))
    ensures r.1.Raised? ==> r.0 == chs
  {
    var k := ChannelIndex(Names(chs), name);
    if |batch| == 0 || k.None? then (chs, Ok(0))
    else if chs[k.value].healthy then
      TotalEntriesUpdate(chs, k.value, Append(chs[k.value], batch));
      (chs[k.value := Append(chs[k.value], batch)], Ok(|batch|))
    else (chs, Raised("add_situations failed for " + name))
  }

  /** The delivery succeeds: nothing to deliver, no such channel, or a
      healthy one. */
  predicate RouteOk(chs: seq<Channel>, name: string, batch: seq<Entry>)
  {
    var k := ChannelIndex(Names(chs), name);
    |batch| == 0 || k.None? || chs[k.value].healthy
  }

  /** Number of lessons that reach the channel called `name`. */
  function RoutedSize(chs: seq<Channel>, name: string, batch: seq<Entry>): nat
  {
    if name in Names(chs) then |batch| else 0
  }

  datatype Route = Route(name: string, batch: seq<Entry>)

  /** Every batch the routes address to `name`, in route order. */
  function RoutedTo(routes: seq<Route>, name: string): seq<Entry>
    decreases |routes|
  {
    if |routes| == 0 then []
    else (if routes[0].name == name then routes[0].batch else []) + RoutedTo(routes[1..], name)
  }

  /** Channel `i` is the one a lookup of its own name finds (the names of
      a dictionary's keys never repeat, so every channel is). */
  predicate FirstNamed(chs: seq<Channel>, i: nat)
    requires i < |chs|
  {
    ChannelIndex(Names(chs), chs[i].name) == Some(i)
  }

  /** What channel `i` holds once every route has been delivered: its old
      lessons followed by every batch addressed to its name. */
  function Routed(chs: seq<Channel>, i: nat, routes: seq<Route>): Channel
    requires i < |chs|
  {
    Append(chs[i], if FirstNamed(chs, i) then RoutedTo(routes, chs[i].name) else [])
  }

  /** The five deliveries in order, stopping at the first failure. */
  function DeliverRoutes(chs: seq<Channel>, routes: seq<Route>): (r: (seq<Channel>, Result<nat, string>))
    ensures SameShape(chs, r.0)
    ensures r.1.Ok? <==> forall k :: 0 <= k < |routes| ==> RouteOk(chs, routes[k].name, routes[k].batch)
    ensures r.1.Ok? ==> TotalEntries(r.0) == TotalEntries(chs) + r.1.value
    ensures r.1.Ok? ==> r.1.value == RoutesSize(chs, routes)
    ensures r.1.Ok? ==> forall i :: 0 <= i < |chs| ==> r.0[i] == Routed(chs, i, routes)
    decreases |routes|
  {
    if |routes| == 0 then
      assert forall i :: 0 <= i < |chs| ==> chs[i] == Routed(chs, i, routes) by {
        forall i | 0 <= i < |chs| ensures chs[i] == Routed(chs, i, routes) {
          assert chs[i].entries + [] == chs[i].entries;
        }
      }
      (chs, Ok(0))
    else
      var first := DeliverNamed(chs, routes[0].name, routes[0].batch);
      if first.1.Raised? then first
      else
        var rest := DeliverRoutes(first.0, routes[1..]);
        RoutesOkShape(chs, first.0, routes);
        RoutesSizeShape(chs, first.0, routes[1..]);
        if rest.1.Raised? then rest
        else
          DeliverStep(chs, first.0, rest.0, routes);
          (rest.0, Ok(first.1.value + rest.1.value))
  }

  /** One delivery followed by the remaining ones adds, to each channel,
      the batches of all routes addressed to it. */
  lemma DeliverStep(chs: seq<Channel>, mid: seq<Channel>, out: seq<Channel>, routes: seq<Route>)
    requires |routes| > 0 && SameShape(chs, mid) && SameShape(mid, out)
    requires forall i :: 0 <= i < |chs| ==> mid[i] == Append(chs[i], Received(chs, i, routes[0].name, routes[0].batch))
    requires forall i :: 0 <= i < |mid| ==> out[i] == Routed(mid, i, routes[1..])
    ensures forall i :: 0 <= i < |chs| ==> out[i] == Routed(chs, i, routes)
  {
    forall i | 0 <= i < |chs|
      ensures out[i] == Routed(chs, i, routes)
    {
      DeliverStepAt(chs, mid[i], out[i], routes, i, mid);
    }
  }

  /** The same, for one channel. */
  lemma DeliverStepAt(chs: seq<Channel>, m: Channel, o: Channel, routes: seq<Route>, i: nat, mid: seq<Channel>)
    requires |routes| > 0 && i < |chs| && SameShape(chs, mid) && mid[i] == m
    requires m == Append(chs[i], Received(chs, i, routes[0].name, routes[0].batch))
    requires o == Routed(mid, i, routes[1..])
    ensures o == Routed(chs, i, routes)
  {
    var n := chs[i].name;
    assert Names(chs)[i] == n && Names(mid)[i] == m.name;
    assert FirstNamed(mid, i) == FirstNamed(chs, i);
    var here := Received(chs, i, routes[0].name, routes[0].batch);
    var later := if FirstNamed(chs, i) then RoutedTo(routes[1..], n) else [];
    assert here == if FirstNamed(chs, i) && routes[0].name == n then routes[0].batch else [];
    assert (chs[i].entries + here) + later == chs[i].entries + (here + later);
  }

  lemma RoutesOkShape(a: seq<Channel>, b: seq<Channel>, routes: seq<Route>)
    requires SameShape(a, b) && |routes| > 0
    ensures forall k :: 0 <= k < |routes| ==> RouteOk(a, routes[k].name, routes[k].batch) == RouteOk(b, routes[k].name, routes[k].batch)
    ensures forall k :: 0 <= k < |routes| - 1 ==> routes[1..][k] == routes[k + 1]
  {
  }

  /** Number of lessons the routes deliver when every channel accepts. */
  function RoutesSize(chs: seq<Channel>, routes: seq<Route>): nat
    decreases |routes|
  {
    if |routes| == 0 then 0 else RoutedSize(chs, routes[0].name, routes[0].batch) + RoutesSize(chs, routes[1..])
  }

  lemma {:induction false} RoutesSizeShape(a: seq<Channel>, b: seq<Channel>, routes: seq<Route>)
    requires Names(a) == Names(b)
    ensures RoutesSize(a, routes) == RoutesSize(b, routes)
    decreases |routes|
  {
    if |routes| > 0 {
      RoutesSizeShape(a, b, routes[1..]);
    }
  }

  function BatchRoutes(pr: Prepared): seq<Route>
  {
    [Route(TraderMemory, pr.trader), Route(BullMemory, pr.bull), Route(BearMemory, pr.bear),
     Route(RiskMemory, pr.risk), Route(JudgeMemory, pr.judge)]
  }

  /** `inject_pattern_batch`: the history advances before delivery; the
      count is the number of lessons appended; a learning event listing
      every pattern of the batch, skipped ones included, is logged when
      the count is positive. A failing channel raises after the channels
      before it have been written. */
  function InjectPatternBatch(inj: Injector, ps: seq<PatternStore.Pattern>, kind: string): (r: (Injector, Result<nat, string>))
    ensures r.0.history == Prepare(inj.history, ps).history
    ensures SameShape(inj.channels, r.0.channels)
    ensures r.1.Ok? <==> forall k :: 0 <= k < 5 ==>
      RouteOk(inj.channels, BatchRoutes(Prepare(inj.history, ps))[k].name, BatchRoutes(Prepare(inj.history, ps))[k].batch)
    ensures r.1.Ok? ==> TotalEntries(r.0.channels) == TotalEntries(inj.channels) + r.1.value
    ensures r.1.Ok? && r.1.value > 0 ==>
      r.0.db == PatternStore.RecordLearningEvent(inj.db, PatternStore.LearningEvent(kind, PatternStore.Ids(ps), Names(inj.channels)))
    ensures !(r.1.Ok? && r.1.value > 0) ==> r.0.db == inj.db
    ensures r.1.Ok? ==> forall i :: 0 <= i < |inj.channels| ==>
      r.0.channels[i] == Routed(inj.channels, i, BatchRoutes(Prepare(inj.history, ps)))
  {
    var pr := Prepare(inj.history, ps);
    var delivered := DeliverRoutes(inj.channels, BatchRoutes(pr));
    var inj1 := inj.(channels := delivered.0, history := pr.history);
    if delivered.1.Ok? && delivered.1.value > 0 then
      (inj1.(db := PatternStore.RecordLearningEvent(inj.db, PatternStore.LearningEvent(kind, PatternStore.Ids(ps), Names(inj.channels)))),
       delivered.1)
    else (inj1, delivered.1)
  }

  /** When all five agent memories exist, the count is one lesson per
      chosen pattern for the trader plus two per pattern for the bull and
      judge or the bear and risk manager. */
  lemma BatchCountWithAllChannels(inj: Injector, ps: seq<PatternStore.Pattern>, kind: string)
    requires forall n :: n in [TraderMemory, BullMemory, BearMemory, RiskMemory, JudgeMemory] ==> n in Names(inj.channels)
    requires InjectPatternBatch(inj, ps, kind).1.Ok?
    ensures var c := Prepare(inj.history, ps).chosen;
      InjectPatternBatch(inj, ps, kind).1.value == |c| + 2 * |Filter(c, IsBullish)| + 2 * |Filter(c, IsBearish)|
  {
    var pr := Prepare(inj.history, ps);
    PrepareRoutes(inj.history, ps);
    assert InjectPatternBatch(inj, ps, kind).1 == DeliverRoutes(inj.channels, BatchRoutes(pr)).1;
    BatchRoutesSize(inj.channels, pr);
  }

  /** The lessons a successful batch adds to the memory called `name`:
      one plain lesson per chosen pattern for the trader, the bullish ones
      for the bull and the judge, the bearish ones for the bear and the
      risk manager, in batch order; nothing for any other memory. */
  function BatchLessons(chosen: seq<PatternStore.Pattern>, name: string): seq<Entry>
  {
    if name == TraderMemory then Framed(chosen, Plain)
    else if name == BullMemory then Framed(Filter(chosen, IsBullish), Bullish)
    else if name == BearMemory then Framed(Filter(chosen, IsBearish), BearishWarning)
    else if name == RiskMemory then Framed(Filter(chosen, IsBearish), HighRisk)
    else if name == JudgeMemory then Framed(Filter(chosen, IsBullish), Favorable)
    else []
  }

  /** Each memory of a successful batch holds its old lessons followed by
      exactly the lessons meant for its kind of agent. */
  lemma BatchDeliversByRole(inj: Injector, ps: seq<PatternStore.Pattern>, kind: string, i: nat)
    requires i < |inj.channels| && FirstNamed(inj.channels, i)
    requires InjectPatternBatch(inj, ps, kind).1.Ok?
    ensures InjectPatternBatch(inj, ps, kind).0.channels[i].entries ==
      inj.channels[i].entries + BatchLessons(Prepare(inj.history, ps).chosen, inj.channels[i].name)
  {
    var pr := Prepare(inj.history, ps);
    PrepareRoutes(inj.history, ps);
    BatchRoutedTo(pr, inj.channels[i].name);
  }

  lemma BatchRoutedTo(pr: Prepared, name: string)
    requires RoutedByWinRate(pr)
    ensures RoutedTo(BatchRoutes(pr), name) == BatchLessons(pr.chosen, name)
  {
    var routes := BatchRoutes(pr);
    var r1 := routes[1..];
    var r2 := r1[1..];
    var r3 := r2[1..];
    var r4 := r3[1..];
    assert r4 == [Route(JudgeMemory, pr.judge)] && r4[1..] == [];
    var none: seq<Entry> := [];
    var j := if name == JudgeMemory then pr.judge else none;
    assert RoutedTo(r4, name) == j + none;
    var k := (if name == RiskMemory then pr.risk else none) + j;
    assert RoutedTo(r3, name) == k;
    var l := (if name == BearMemory then pr.bear else none) + k;
    assert RoutedTo(r2, name) == l;
    var m := (if name == BullMemory then pr.bull else none) + l;
    assert RoutedTo(r1, name) == m;
    assert RoutedTo(routes, name) == (if name == TraderMemory then pr.trader else none) + m;
  }

  lemma BatchRoutesSize(chs: seq<Channel>, pr: Prepared)
    requires forall n :: n in [TraderMemory, BullMemory, BearMemory, RiskMemory, JudgeMemory] ==> n in Names(chs)
    ensures RoutesSize(chs, BatchRoutes(pr)) == |pr.trader| + |pr.bull| + |pr.bear| + |pr.risk| + |pr.judge|
  {
    var routes := BatchRoutes(pr);
    assert TraderMemory in Names(chs) && BullMemory in Names(chs) && BearMemory in Names(chs);
    assert RiskMemory in Names(chs) && JudgeMemory in Names(chs);
    var r1 := routes[1..];
    var r2 := r1[1..];
    var r3 := r2[1..];
    var r4 := r3[1..];
    assert r4 == [Route(JudgeMemory, pr.judge)] && r4[1..] == [];
    assert RoutesSize(chs, r4) == |pr.judge|;
    assert RoutesSize(chs, r3) == |pr.risk| + |pr.judge|;
    assert RoutesSize(chs, r2) == |pr.bear| + |pr.risk| + |pr.judge|;
    assert RoutesSize(chs, r1) == |pr.bull| + |pr.bear| + |pr.risk| + |pr.judge|;
  }

  // ------------------------------------------------------------------
  // Lessons sent to every channel
  // ------------------------------------------------------------------

  predicate Healthy(c: Channel) { c.healthy }

  /** Offer each channel its lessons, swallowing failures: healthy
      channels take them, and their names are reported in order. */
  function DeliverEach(chs: seq<Channel>, batchFor: string -> seq<Entry>): (r: (seq<Channel>, seq<string>))
    ensures |r.0| == |chs|
    ensures forall i :: 0 <= i < |chs| ==> r.0[i] == if chs[i].healthy then Append(chs[i], batchFor(chs[i].name)) else chs[i]
    ensures r.1 == Names(Filter(chs, Healthy))
  {
    if |chs| == 0 then ([], [])
    else
      var rest := DeliverEach(chs[1..], batchFor);
      var c := chs[0];
      assert chs == [c] + chs[1..];
      assert Names([c] + Filter(chs[1..], Healthy)) == [c.name] + Names(Filter(chs[1..], Healthy));
      if c.healthy then ([Append(c, batchFor(c.name))] + rest.0, [c.name] + rest.1)
      else ([c] + rest.0, rest.1)
  }

  /** The outcome dictionary of `inject_single_pattern_outcome`. */
  datatype Outcome = Outcome(
    pnlPercent: Option<real>,
    exitReason: Option<string>,
    strategy: Option<string>,
    regime: Option<string>,
    holdingDays: Option<int>)

  /** `inject_single_pattern_outcome`: reading the return raises when it
      is missing. Otherwise every channel is offered the lesson, failures
      are swallowed, an `immediate_outcome` event lists the channels that
      took it, and the result says whether any did. The injection history
      is not touched. */
  function InjectOutcome(inj: Injector, patternId: string, o: Outcome): (r: (Injector, Result<bool, string>))
    ensures r.1.Raised? <==> o.pnlPercent.None?
    ensures r.1.Raised? ==> r.0 == inj
    ensures r.0.history == inj.history && |r.0.channels| == |inj.channels|
    ensures r.1.Ok? ==> (r.1.value <==> exists i :: 0 <= i < |inj.channels| && inj.channels[i].healthy)
    ensures r.1.Ok? ==> forall i :: 0 <= i < |inj.channels| ==>
      |r.0.channels[i].entries| == |inj.channels[i].entries| + (if inj.channels[i].healthy then 1 else 0)
    ensures r.1.Ok? ==> r.0.db == PatternStore.RecordLearningEvent(inj.db,
      PatternStore.LearningEvent("immediate_outcome", [patternId], Names(Filter(inj.channels, Healthy))))
  {
    if o.pnlPercent.None? then (inj, Raised("KeyError: pnl_percent"))
    else
      var pnl := o.pnlPercent.value;
      var reason := if o.exitReason.Some? && |o.exitReason.value| > 0 then o.exitReason else None;
      var entry := OutcomeEntry(OutcomeSituation(patternId, o.strategy.GetOr("position"), o.regime.GetOr("current"), o.holdingDays),
                                MemoryBridge.TradeTierFor(pnl), pnl, reason);
      var d := DeliverEach(inj.channels, _ => [entry]);
      CountIsFilterLength(inj.channels, Healthy);
      HealthyCount(inj.channels);
      (inj.(channels := d.0, db := PatternStore.RecordLearningEvent(inj.db,
         PatternStore.LearningEvent("immediate_outcome", [patternId], d.1))),
       Ok(|d.1| > 0))
  }

  lemma {:induction false} HealthyCount(chs: seq<Channel>)
    ensures Count(chs, Healthy) > 0 <==> exists i :: 0 <= i < |chs| && chs[i].healthy
  {
    if |chs| > 0 {
      HealthyCount(chs[1..]);
      if chs[0].healthy {
      } else {
        assert forall i :: 1 <= i < |chs| ==> chs[i] == chs[1..][i - 1];
        assert (exists i :: 0 <= i < |chs| && chs[i].healthy) ==> (exists i :: 0 <= i < |chs[1..]| && chs[1..][i].healthy);
      }
    }
  }

  /** `inject_regime_transition_lessons`: every channel is offered one
      lesson naming at most three breaking and three emerging patterns;
      the event lists all of them and every channel name. */
  function InjectRegimeTransition(inj: Injector, fromRegime: string, toRegime: string, breaking: seq<string>, emerging: seq<string>): (r: Injector)
    ensures r.history == inj.history && |r.channels| == |inj.channels|
    ensures forall i :: 0 <= i < |inj.channels| ==>
      (r.channels[i].entries ==
       inj.channels[i].entries + (if inj.channels[i].healthy then [TransitionEntry(fromRegime, toRegime, Take(breaking, 3), Take(emerging, 3))] else []))
    ensures r.db == PatternStore.RecordLearningEvent(inj.db,
      PatternStore.LearningEvent("regime_transition", breaking + emerging, Names(inj.channels)))
  {
    var entry := TransitionEntry(fromRegime, toRegime, Take(breaking, 3), Take(emerging, 3));
    var d := DeliverEach(inj.channels, _ => [entry]);
    inj.(channels := d.0, db := PatternStore.RecordLearningEvent(inj.db,
      PatternStore.LearningEvent("regime_transition", breaking + emerging, Names(inj.channels))))
  }

  // ------------------------------------------------------------------
  // Closed positions
  // ------------------------------------------------------------------

  /** The framings tested for a closed position, in order: bull channels
      on a gain, bear channels on a loss, risk channels on a move above 3. */
  predicate BullWin(name: string, pnl: real) { Contains(Lower(name), "bull") && pnl > 0.0 }

  predicate BearLoss(name: string, pnl: real) { Contains(Lower(name), "bear") && pnl < 0.0 }

  predicate RiskMove(name: string, pnl: real) { Contains(Lower(name), "risk") && (pnl > 3.0 || pnl < -3.0) }

  /** The framing the channel called `name` gets for a closed position;
      the first that applies wins, and the rest get the plain lesson. */
  function ClosedFrameFor(name: string, pnl: real): (f: ClosedFrame)
    ensures f == BullishWin <==> BullWin(name, pnl)
    ensures f == BearishValidation <==> BearLoss(name, pnl)
    ensures f == RiskEvent <==> !BullWin(name, pnl) && !BearLoss(name, pnl) && RiskMove(name, pnl)
    ensures f == Standard <==> !BullWin(name, pnl) && !BearLoss(name, pnl) && !RiskMove(name, pnl)
    ensures pnl == 0.0 ==> f == Standard
  {
    if BullWin(name, pnl) then BullishWin
    else if BearLoss(name, pnl) then BearishValidation
    else if Contains(Lower(name), "risk") && (if pnl < 0.0 then -pnl else pnl) > 3.0 then RiskEvent
    else Standard
  }

  function ClosedEntryFor(m: MemoryBridge.Memory, pnl: real): string -> seq<Entry>
  {
    name => [ClosedEntry(ClosedFrameFor(name, pnl), m)]
  }

  /** What the channel called `name` takes for a closed position: the
      trade memory, then the pattern memory, both framed for it. */
  function ClosedLessons(ms: seq<MemoryBridge.Memory>, pnl: real, name: string): seq<Entry>
    requires |ms| == 2
  {
    [ClosedEntry(ClosedFrameFor(name, pnl), ms[0]), ClosedEntry(ClosedFrameFor(name, pnl), ms[1])]
  }

  /** `inject_closed_position_memories`: reading the symbol raises when it
      is missing. Otherwise each healthy channel takes the trade memory and
      then the pattern memory, each framed for it; the count is the number
      of lessons taken; a `position_closed` event names the pattern. */
  function InjectClosedPosition(inj: Injector, pos: MemoryBridge.PositionData, d: MemoryBridge.PatternData): (r: (Injector, Result<nat, string>))
    ensures r.1.Raised? <==> pos.symbol.None?
    ensures r.1.Raised? ==> r.0 == inj
    ensures r.0.history == inj.history && |r.0.channels| == |inj.channels|
    ensures r.1.Ok? ==> r.1.value == 2 * Count(inj.channels, Healthy)
    ensures r.1.Ok? ==> forall i :: 0 <= i < |inj.channels| ==>
      r.0.channels[i] == if inj.channels[i].healthy
        then Append(inj.channels[i], ClosedLessons(MemoryBridge.CreateHybridMemories(pos, d).value, pos.pnlPercent.GetOr(0.0), inj.channels[i].name))
        else inj.channels[i]
    ensures r.1.Ok? ==> r.0.db == PatternStore.RecordLearningEvent(inj.db,
      PatternStore.LearningEvent("position_closed", [pos.patternId.GetOr("unknown")], Names(inj.channels)))
  {
    var memories := MemoryBridge.CreateHybridMemories(pos, d);
    if memories.Raised? then (inj, Raised(memories.error))
    else
      var pnl := pos.pnlPercent.GetOr(0.0);
      var f0 := ClosedEntryFor(memories.value[0], pnl);
      var f1 := ClosedEntryFor(memories.value[1], pnl);
      var first := DeliverEach(inj.channels, f0);
      var second := DeliverEach(first.0, f1);
      DeliverEachTwice(inj.channels, f0, f1);
      ClosedLessonsSplit(inj.channels, memories.value, pnl);
      (inj.(channels := second.0, db := PatternStore.RecordLearningEvent(inj.db,
         PatternStore.LearningEvent("position_closed", [pos.patternId.GetOr("unknown")], Names(inj.channels)))),
       Ok(|first.1| + |second.1|))
  }

  lemma ClosedLessonsSplit(chs: seq<Channel>, ms: seq<MemoryBridge.Memory>, pnl: real)
    requires |ms| == 2
    ensures forall i :: 0 <= i < |chs| ==>
      Append(Append(chs[i], ClosedEntryFor(ms[0], pnl)(chs[i].name)), ClosedEntryFor(ms[1], pnl)(chs[i].name))
      == Append(chs[i], ClosedLessons(ms, pnl, chs[i].name))
  {
  }

  /** Two rounds of `DeliverEach`: healthy channels take both batches in
      order, and twice as many lessons are taken as there are healthy
      channels. */
  lemma DeliverEachTwice(chs: seq<Channel>, f0: string -> seq<Entry>, f1: string -> seq<Entry>)
    ensures var first := DeliverEach(chs, f0);
      var second := DeliverEach(first.0, f1);
      && |first.1| + |second.1| == 2 * Count(chs, Healthy)
      && forall i :: 0 <= i < |chs| ==>
        second.0[i] == if chs[i].healthy then Append(Append(chs[i], f0(chs[i].name)), f1(chs[i].name)) else chs[i]
  {
    var first := DeliverEach(chs, f0);
    assert forall i :: 0 <= i < |chs| ==> first.0[i].healthy == chs[i].healthy && first.0[i].name == chs[i].name;
    CountIsFilterLength(chs, Healthy);
    CountSameHealth(chs, first.0);
    CountIsFilterLength(first.0, Healthy);
  }

  lemma {:induction false} CountSameHealth(a: seq<Channel>, b: seq<Channel>)
    requires |a| == |b| && forall i :: 0 <= i < |a| ==> a[i].healthy == b[i].healthy
    ensures Count(a, Healthy) == Count(b, Healthy)
  {
    if |a| > 0 {
      CountSameHealth(a[1..], b[1..]);
    }
  }
}
