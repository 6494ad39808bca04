/** The universe fetcher (`src/data/fetcher.py`): the ticker list with its
    day-long cache, Yahoo-style ticker normalisation, the download batches
    and the quality score. Downloads and the indicator arithmetic are left
    out; the outcome of each source is a parameter. */
module DataFetcher {

  import opened Numbers
  import opened Wrappers
  import opened Text

  // ------------------------------------------------------------------
  // Quality score
  // ------------------------------------------------------------------

  /** The metrics the score reads. */
  datatype QualityInputs = QualityInputs(volumeRatio: real, rsi: real, price: real, sma20: real)

  predicate SteadyVolume(m: QualityInputs) { 0.5 < m.volumeRatio < 2.0 }
  predicate NotOversold(m: QualityInputs) { m.rsi > 30.0 }
  predicate AboveAverage(m: QualityInputs) { m.price > m.sma20 }

  /** `_calculate_quality_score`: 0.33 for steady volume, 0.33 for an RSI
      above 30 and 0.34 for a price above its 20-day average. */
  function QualityScore(m: QualityInputs): (r: real)
    ensures 0.0 <= r <= 1.0
    ensures r == 1.0 <==> SteadyVolume(m) && NotOversold(m) && AboveAverage(m)
    ensures r == 0.0 <==> !SteadyVolume(m) && !NotOversold(m) && !AboveAverage(m)
  {
    (if SteadyVolume(m) then 0.33 else 0.0)
    + (if NotOversold(m) then 0.33 else 0.0)
    + (if AboveAverage(m) then 0.34 else 0.0)
  }

  function Met(b: bool): nat { if b then 1 else 0 }

  /** The score tells how many of the two 0.33 conditions hold and
      whether the price is above its average. */
  lemma QualityScoreDecodes(a: QualityInputs, b: QualityInputs)
    requires QualityScore(a) == QualityScore(b)
    ensures Met(SteadyVolume(a)) + Met(NotOversold(a)) == Met(SteadyVolume(b)) + Met(NotOversold(b))
    ensures AboveAverage(a) <==> AboveAverage(b)
  {
  }

  /** Meeting more conditions never lowers the score. */
  lemma QualityScoreMonotone(a: QualityInputs, b: QualityInputs)
    requires SteadyVolume(a) ==> SteadyVolume(b)
    requires NotOversold(a) ==> NotOversold(b)
    requires AboveAverage(a) ==> AboveAverage(b)
    ensures QualityScore(a) <= QualityScore(b)
  {
  }

  // ------------------------------------------------------------------
  // Tickers
  // ------------------------------------------------------------------

  /** Yahoo's spelling: every '.' becomes '-' (`BRK.B` to `BRK-B`). */
  function Normalize(t: string): (r: string)
    ensures |r| == |t| && '.' !in r
    ensures forall i :: 0 <= i < |t| && t[i] != '.' ==> r[i] == t[i]
  {
    var r := ReplaceChar(t, '.', '-');
    assert forall i :: 0 <= i < |r| ==> r[i] != '.';
    r
  }

  /** Normalising twice changes nothing more. */
  lemma NormalizeIdempotent(t: string)
    ensures Normalize(Normalize(t)) == Normalize(t)
  {
  }

  function NormalizeAll(ts: seq<string>): (r: seq<string>)
    ensures |r| == |ts| && forall i :: 0 <= i < |ts| ==> r[i] == Normalize(ts[i])
  {
    seq(|ts|, i requires 0 <= i < |ts| => Normalize(ts[i]))
  }

  /** The hardcoded list used when no source answers. */
  const Fallback: seq<string> := [
    "AAPL", "MSFT", "NVDA", "AMZN", "META", "GOOGL", "GOOG",
    "BRK-B", "LLY", "AVGO", "JPM", "TSLA", "UNH", "XOM",
    "V", "PG", "MA", "JNJ", "HD", "COST", "ABBV", "WMT",
    "CVX", "MRK", "KO", "PEP", "NFLX", "ADBE", "CRM", "CSCO",
    "ACN", "TMO", "ABT", "LIN", "DIS", "VZ", "INTC", "WFC",
    "INTU", "TXN", "AMGN", "PM", "IBM", "SPGI", "NOW", "UNP",
    "QCOM", "NKE", "HON", "RTX", "NEE", "BMY", "ORCL", "COP"]

  /** Seconds a fetched list stays usable. */
  const CacheDuration: real := 86400.0

  /** The cached list and the time it was fetched (`None` before any
      fetch). */
  datatype Universe = Universe(cache: seq<string>, cacheTime: Option<real>)

  /** The cache is used when it holds tickers, its time is set (Python
      truthiness: not zero) and it is younger than a day. */
  predicate CacheUsable(u: Universe, now: real)
  {
    |u.cache| > 0 && u.cacheTime.Some? && u.cacheTime.value != 0.0 && now - u.cacheTime.value < CacheDuration
  }

  /** The first source that answers, if any. */
  function FirstAnswer(sources: seq<Option<seq<string>>>): (r: Option<seq<string>>)
    ensures r.Some? <==> exists i :: 0 <= i < |sources| && sources[i].Some?
    ensures r.Some? ==> exists i :: 0 <= i < |sources| && sources[i] == r && (forall j :: 0 <= j < i ==> sources[j].None?)
  {
    if |sources| == 0 then None
    else if sources[0].Some? then sources[0]
    else
      var r := FirstAnswer(sources[1..]);
      assert forall i :: 1 <= i < |sources| ==> sources[i] == sources[1..][i - 1];
      if r.Some? then
        var i :| 0 <= i < |sources[1..]| && sources[1..][i] == r && forall j :: 0 <= j < i ==> sources[1..][j].None?;
        assert sources[i + 1] == r;
        r
      else r
  }

  /** `get_universe`: the cached list while usable; otherwise the first
      source that answers, normalised and cached at `now`; otherwise the
      fallback list, which is not cached. */
  function GetUniverse(u: Universe, now: real, sources: seq<Option<seq<string>>>): (r: (Universe, seq<string>))
    ensures CacheUsable(u, now) ==> r == (u, u.cache)
    ensures !CacheUsable(u, now) && FirstAnswer(sources).Some? ==>
      r.1 == NormalizeAll(FirstAnswer(sources).value) && r.0 == Universe(r.1, Some(now))
    ensures !CacheUsable(u, now) && FirstAnswer(sources).None? ==> r == (u, Fallback)
    ensures !CacheUsable(u, now) && FirstAnswer(sources).Some? ==> forall i :: 0 <= i < |r.1| ==> '.' !in r.1[i]
  {
    if CacheUsable(u, now) then (u, u.cache)
    else
      match FirstAnswer(sources)
      case Some(raw) =>
        var ts := NormalizeAll(raw);
        (Universe(ts, Some(now)), ts)
      case None => (u, Fallback)
  }

  /** A fetched non-empty list is served again, unchanged, for a day after
      it was fetched. */
  lemma FetchedListIsReused(u: Universe, t0: real, t1: real, sources: seq<Option<seq<string>>>, later: seq<Option<seq<string>>>)
    requires !CacheUsable(u, t0) && FirstAnswer(sources).Some? && |FirstAnswer(sources).value| > 0
    requires t0 != 0.0 && t0 <= t1 < t0 + CacheDuration
    ensures var first := GetUniverse(u, t0, sources);
      GetUniverse(first.0, t1, later) == (first.0, first.1)
  {
  }

  // ------------------------------------------------------------------
  // Download batches
  // ------------------------------------------------------------------

  const BatchSize: nat := 50


  /** `fetch_all_sp500`'s slices `tickers[i:i + 50]` for i = 0, 50, .... */
  function Batches<T>(s: seq<T>): (r: seq<seq<T>>)
    ensures |r| == (|s| + BatchSize - 1) / BatchSize
    ensures forall k :: 0 <= k < |r| ==> 0 < |r[k]| <= BatchSize
    decreases |s|
  {
    if |s| == 0 then []
    else [s[..Min(BatchSize, |s|)]] + Batches(s[Min(BatchSize, |s|)..])
  }

  function Flatten<T>(ss: seq<seq<T>>): seq<T>
  {
    if |ss| == 0 then [] else ss[0] + Flatten(ss[1..])
  }

  /** Together the batches are the list, in order, each ticker once. */
  lemma {:induction false} BatchesCoverInOrder<T>(s: seq<T>)
    ensures Flatten(Batches(s)) == s
    decreases |s|
  {
    if |s| > 0 {
      var n := Min(BatchSize, |s|);
      BatchesCoverInOrder(s[n..]);
      assert Batches(s)[1..] == Batches(s[n..]);
      assert s == s[..n] + s[n..];
    }
  }

  /** Batch k is the slice from 50k, up to 50 long. */
  lemma {:induction false} BatchIsSlice<T>(s: seq<T>, k: nat)
    requires k < |Batches(s)|
    ensures 50 * k < |s|
    ensures Batches(s)[k] == s[50 * k .. Min(50 * k + 50, |s|)]
    decreases |s|
  {
    var n := Min(BatchSize, |s|);
    if k > 0 {
      assert Batches(s)[k] == Batches(s[n..])[k - 1];
      BatchIsSlice(s[n..], k - 1);
      assert n == 50;
      assert s[n..][50 * (k - 1) .. Min(50 * (k - 1) + 50, |s| - n)] == s[50 * k .. Min(50 * k + 50, |s|)];
    }
  }
}
