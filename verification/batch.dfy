/** The TradingAgents batch processor
    (`src/batch/tradingagents_batch_processor.py`): turning one agent
    answer into an analysis row (decision, conviction, prices and derived
    metrics), the JSON fallback chain of `safe_serialize`, and the shape of
    the batch result. The agent calls, the database and the portfolio
    constructor's answer are parameters. */
module BatchProcessor {

  import opened Wrappers
  import opened Text
  import opened Seqs

  // ------------------------------------------------------------------
  // safe_serialize
  // ------------------------------------------------------------------

  /** The lower-case hexadecimal digit of `d`. */
  function HexDigit(d: nat): (c: char)
    requires d < 16
    ensures '0' <= c <= '9' || 'a' <= c <= 'f'
  {
    if d < 10 then ('0' as int + d) as char else ('a' as int + d - 10) as char
  }

  /** The value of a lower-case hexadecimal digit. */
  function HexValue(c: char): (v: Option<nat>)
    ensures v.Some? ==> v.value < 16
  {
    if '0' <= c <= '9' then Some(c as int - '0' as int)
    else if 'a' <= c <= 'f' then Some(c as int - 'a' as int + 10)
    else None
  }

  lemma HexDigitValue(d: nat)
    requires d < 16
    ensures HexValue(HexDigit(d)) == Some(d)
  {
  }

  /** Four lower-case hexadecimal digits, as `'{0:04x}'.format(n)`. */
  function Hex4(n: nat): (r: string)
    requires n < 0x10000
    ensures |r| == 4
    ensures forall i :: 0 <= i < 4 ==> '0' <= r[i] <= '9' || 'a' <= r[i] <= 'f'
  {
    var m := n / 16;
    var m2 := m / 16;
    [HexDigit(m2 / 16), HexDigit(m2 % 16), HexDigit(m % 16), HexDigit(n % 16)]
  }

  /** The number four hexadecimal digits spell. */
  function Hex4Value(h: string): (v: Option<nat>)
    requires |h| == 4
    ensures v.Some? ==> v.value < 0x10000
  {
    match (HexValue(h[0]), HexValue(h[1]), HexValue(h[2]), HexValue(h[3]))
    case (Some(d), Some(c), Some(b), Some(a)) => Some(4096 * d + 256 * c + 16 * b + a)
    case _ => None
  }

  lemma Hex4RoundTrip(n: nat)
    requires n < 0x10000
    ensures Hex4Value(Hex4(n)) == Some(n)
  {
    var m := n / 16;
    var m2 := m / 16;
    assert n == 16 * m + n % 16 && m == 16 * m2 + m % 16 && m2 == 16 * (m2 / 16) + m2 % 16;
    HexDigitValue(m2 / 16);
    HexDigitValue(m2 % 16);
    HexDigitValue(m % 16);
    HexDigitValue(n % 16);
  }

  /** `\uXXXX` */
  function UnicodeEscape(n: nat): (r: string)
    requires n < 0x10000
    ensures |r| == 6 && r[0] == '\\' && r[1] == 'u' && r[2..] == Hex4(n)
    ensures forall i :: 0 <= i < |r| ==> ' ' <= r[i] <= '~'
  {
    "\\u" + Hex4(n)
  }

  /** A printable ASCII character, which `json.dumps` writes as is unless
      it is a quote or a backslash. */
  predicate Printable(c: char) { ' ' <= c <= '~' }

  /** How `json.dumps` (with its default `ensure_ascii`) writes one
      character of a string: a two-character escape for the quote, the
      backslash and five control characters, the character itself when it
      is printable ASCII, `\uXXXX` otherwise, and a surrogate pair of them
      beyond the Basic Multilingual Plane. */
  function EscapeChar(c: char): (r: string)
    ensures forall i :: 0 <= i < |r| ==> Printable(r[i])
    ensures |r| == 1 <==> Printable(c) && c != '"' && c != '\\'
    ensures |r| == 1 ==> r[0] == c
  {
    if c == '"' then "\\\""
    else if c == '\\' then "\\\\"
    else if c == '\n' then "\\n"
    else if c == '\r' then "\\r"
    else if c == '\t' then "\\t"
    else if c as int == 8 then "\\b"
    else if c as int == 12 then "\\f"
    else if Printable(c) then [c]
    else if c as int < 0x10000 then UnicodeEscape(c as int)
    else
      var n := c as int - 0x10000;
      UnicodeEscape(0xD800 + n / 1024) + UnicodeEscape(0xDC00 + n % 1024)
  }

  /** The escaped text of a string; pure printable ASCII. */
  function Escape(s: string): (r: string)
    ensures |r| >= |s|
    ensures forall i :: 0 <= i < |r| ==> Printable(r[i])
  {
    if |s| == 0 then []
    else EscapeChar(s[0]) + Escape(s[1..])
  }

  /** The character a two-character escape stands for. */
  function ShortUnescape(e: char): Option<char>
  {
    if e == '"' then Some('"')
    else if e == '\\' then Some('\\')
    else if e == '/' then Some('/')
    else if e == 'n' then Some('\n')
    else if e == 'r' then Some('\r')
    else if e == 't' then Some('\t')
    else if e == 'b' then Some(8 as char)
    else if e == 'f' then Some(12 as char)
    else None
  }

  function Prepend(c: char, rest: Option<string>): Option<string>
  {
    match rest
    case Some(t) => Some([c] + t)
    case None => None
  }

  /** Reads the body of a JSON string back, as `json.loads` does; `None`
      for a stray quote, a raw control character, an unknown escape or a
      lone surrogate. */
  function Unescape(s: string): Option<string>
    decreases |s|
  {
    if |s| == 0 then Some([])
    else if s[0] == '\\' then
      if |s| >= 2 && ShortUnescape(s[1]).Some? then Prepend(ShortUnescape(s[1]).value, Unescape(s[2..]))
      else if |s| >= 6 && s[1] == 'u' && Hex4Value(s[2..6]).Some? then
        var v := Hex4Value(s[2..6]).value;
        if v < 0xD800 || 0xE000 <= v then Prepend(v as char, Unescape(s[6..]))
        else if v < 0xDC00 && |s| >= 12 && s[6] == '\\' && s[7] == 'u' && Hex4Value(s[8..12]).Some?
                && 0xDC00 <= Hex4Value(s[8..12]).value < 0xE000 then
          var w := Hex4Value(s[8..12]).value;
          Prepend((0x10000 + (v - 0xD800) * 1024 + (w - 0xDC00)) as char, Unescape(s[12..]))
        else None
      else None
    else if s[0] == '"' || s[0] < ' ' then None
    else Prepend(s[0], Unescape(s[1..]))
  }

  /** Unescaping reads one escaped character back and goes on with the
      rest. */
  lemma UnescapeChar(c: char, rest: string)
    ensures Unescape(EscapeChar(c) + rest) == Prepend(c, Unescape(rest))
  {
    if c == '"' || c == '\\' || c == '\n' || c == '\r' || c == '\t' || c as int == 8 || c as int == 12 {
      UnescapeShort(c, rest);
    } else if Printable(c) {
      var s := EscapeChar(c) + rest;
      assert s[1..] == rest;
    } else if c as int < 0x10000 {
      UnescapeBmp(c, rest);
    } else {
      UnescapeAstral(c, rest);
    }
  }

  lemma UnescapeShort(c: char, rest: string)
    requires c == '"' || c == '\\' || c == '\n' || c == '\r' || c == '\t' || c as int == 8 || c as int == 12
    ensures Unescape(EscapeChar(c) + rest) == Prepend(c, Unescape(rest))
  {
    var s := EscapeChar(c) + rest;
    assert |EscapeChar(c)| == 2 && s[0] == '\\' && s[2..] == rest;
    assert ShortUnescape(s[1]) == Some(c);
  }

  lemma UnescapeBmp(c: char, rest: string)
    requires !Printable(c) && c as int < 0x10000
    requires !(c == '\n' || c == '\r' || c == '\t' || c as int == 8 || c as int == 12)
    ensures Unescape(EscapeChar(c) + rest) == Prepend(c, Unescape(rest))
  {
    var e := UnicodeEscape(c as int);
    var s := e + rest;
    assert EscapeChar(c) == e;
    assert s[2..6] == Hex4(c as int) && s[6..] == rest;
    Hex4RoundTrip(c as int);
  }

  lemma UnescapeAstral(c: char, rest: string)
    requires c as int >= 0x10000
    ensures Unescape(EscapeChar(c) + rest) == Prepend(c, Unescape(rest))
  {
    var n := c as int - 0x10000;
    var q, m := n / 1024, n % 1024;
    assert n == 1024 * q + m;
    EscapeAstral(c);
    UnescapeSurrogates(c, 0xD800 + q, 0xDC00 + m, rest);
  }

  /** Beyond the Basic Multilingual Plane a character is written as a
      surrogate pair. */
  lemma EscapeAstral(c: char)
    requires c as int >= 0x10000
    ensures var n := c as int - 0x10000;
      EscapeChar(c) == UnicodeEscape(0xD800 + n / 1024) + UnicodeEscape(0xDC00 + n % 1024)
  {
    assert c != '"' && c != '\\' && !Printable(c) && c as int != 8 && c as int != 12;
  }

  /** A high and a low surrogate escape read back as the character they
      encode. */
  lemma UnescapeSurrogates(c: char, hi: nat, lo: nat, rest: string)
    requires 0xD800 <= hi < 0xDC00 && 0xDC00 <= lo < 0xE000
    requires c as int == 0x10000 + (hi - 0xD800) * 1024 + (lo - 0xDC00)
    ensures Unescape(UnicodeEscape(hi) + UnicodeEscape(lo) + rest) == Prepend(c, Unescape(rest))
  {
    var a, b := UnicodeEscape(hi), UnicodeEscape(lo);
    var s := a + b + rest;
    assert s[2..6] == a[2..] && s[8..12] == b[2..] && s[12..] == rest;
    assert s[0] == a[0] && s[1] == a[1] && s[6] == b[0] && s[7] == b[1];
    Hex4RoundTrip(hi);
    Hex4RoundTrip(lo);
    UnescapePair(s, c, hi, lo);
  }

  /** The decoding step for a surrogate pair. */
  lemma UnescapePair(s: string, c: char, hi: nat, lo: nat)
    requires |s| >= 12 && s[0] == '\\' && s[1] == 'u' && s[6] == '\\' && s[7] == 'u'
    requires Hex4Value(s[2..6]) == Some(hi) && Hex4Value(s[8..12]) == Some(lo)
    requires 0xD800 <= hi < 0xDC00 && 0xDC00 <= lo < 0xE000
    requires c as int == 0x10000 + (hi - 0xD800) * 1024 + (lo - 0xDC00)
    ensures Unescape(s) == Prepend(c, Unescape(s[12..]))
  {
    assert ShortUnescape(s[1]).None?;
  }

  /** `json.loads(json.dumps(s)) == s` for the body of the string. */
  lemma {:induction false} UnescapeEscape(s: string)
    ensures Unescape(Escape(s)) == Some(s)
  {
    if |s| > 0 {
      UnescapeEscape(s[1..]);
      UnescapeChar(s[0], Escape(s[1..]));
      assert s == [s[0]] + s[1..];
    }
  }

  /** `json.dumps` of a string: printable ASCII between quotes. */
  function JsonString(s: string): (r: string)
    ensures |r| >= 2 && r[0] == '"' && r[|r| - 1] == '"'
    ensures forall i :: 0 <= i < |r| ==> Printable(r[i])
  {
    ['"'] + Escape(s) + ['"']
  }

  function DecodeJsonString(j: string): Option<string>
  {
    if |j| >= 2 && j[0] == '"' && j[|j| - 1] == '"' then Unescape(j[1..|j| - 1]) else None
  }

  /** What `json.dumps` makes of an object: its JSON text, or a failure,
      with the object's `str()` form when that exists. */
  datatype Serialization = Dumps(json: string) | NotJson(str: Option<string>)

  /** `safe_serialize`: JSON, else the JSON string of `str(obj)`, else `{}`.
      It never raises, and the string fallback is printable ASCII that
      decodes back to `str(obj)`. */
  function SafeSerialize(v: Serialization): (r: string)
    ensures v.Dumps? ==> r == v.json
    ensures v.NotJson? && v.str.Some? ==> DecodeJsonString(r) == v.str
    ensures v.NotJson? && v.str.Some? ==> forall i :: 0 <= i < |r| ==> Printable(r[i])
    ensures v.NotJson? && v.str.None? ==> r == "{}"
  {
    match v
    case Dumps(j) => j
    case NotJson(Some(s)) =>
      var r := JsonString(s);
      assert r[1..|r| - 1] == Escape(s);
      UnescapeEscape(s);
      r
    case NotJson(None) => "{}"
  }

  // ------------------------------------------------------------------
  // The regular expressions of `_parse_tradingagents_result`
  // ------------------------------------------------------------------

  /** `[:\s]` */
  predicate Sep(c: char) { c == ':' || IsSpace(c) }

  datatype CharClass = Digits | DigitsOrDot

  predicate InClass(c: char, k: CharClass)
  {
    match k
    case Digits => IsDigit(c)
    case DigitsOrDot => IsDigit(c) || c == '.'
  }

  /** Length of the longest run of separators from `j` (a greedy `[:\s]*`). */
  function SepRun(t: string, j: nat): (n: nat)
    requires j <= |t|
    ensures j + n <= |t|
    ensures forall m :: j <= m < j + n ==> Sep(t[m])
    ensures j + n == |t| || !Sep(t[j + n])
    decreases |t| - j
  {
    if j < |t| && Sep(t[j]) then 1 + SepRun(t, j + 1) else 0
  }

  /** Length of the longest run of class `k` from `j`. */
  function ClassRun(t: string, j: nat, k: CharClass): (n: nat)
    requires j <= |t|
    ensures j + n <= |t|
    ensures forall m :: j <= m < j + n ==> InClass(t[m], k)
    ensures j + n == |t| || !InClass(t[j + n], k)
    decreases |t| - j
  {
    if j < |t| && InClass(t[j], k) then 1 + ClassRun(t, j + 1, k) else 0
  }

  /** `kw` (lower-case) occurs at `i`, ignoring case. */
  predicate KeywordAt(t: string, i: nat, kw: string)
  {
    i + |kw| <= |t| && Lower(t[i..i + |kw|]) == kw
  }

  /** `conviction[:\s]+(\d+)` and `<kw>[:\s]+\$?([\d.]+|N/?A)`, both
      case-insensitive. */
  datatype Pattern = ConvictionPattern | PricePattern(keyword: string)

  function Keyword(p: Pattern): string
  {
    match p
    case ConvictionPattern => "conviction"
    case PricePattern(kw) => kw
  }

  /** `N/A` or `NA`, any case, at `k`: the length matched, or 0. */
  function NotAvailableAt(t: string, k: nat): (n: nat)
    ensures n == 0 || n == 2 || n == 3
    ensures n > 0 ==> k + n <= |t|
  {
    if k + 3 <= |t| && Upper(t[k..k + 3]) == "N/A" then 3
    else if k + 2 <= |t| && Upper(t[k..k + 2]) == "NA" then 2
    else 0
  }

  /** The group the pattern captures when a match starts at `i`. */
  function MatchAt(t: string, i: nat, p: Pattern): (r: Option<string>)
    requires i <= |t|
    ensures r.Some? ==> |r.value| > 0 && KeywordAt(t, i, Keyword(p))
    ensures r.Some? && p.ConvictionPattern? ==> AllDigits(r.value)
  {
    var kw := Keyword(p);
    if !KeywordAt(t, i, kw) then None
    else
      var j := i + |kw|;
      var s := SepRun(t, j);
      if s == 0 then None
      else
        var k := j + s;
        match p
        case ConvictionPattern =>
          var d := ClassRun(t, k, Digits);
          if d == 0 then None else Some(t[k..k + d])
        case PricePattern(_) =>
          var k' := if k < |t| && t[k] == '$' then k + 1 else k;
          var d := ClassRun(t, k', DigitsOrDot);
          if d > 0 then Some(t[k'..k' + d])
          else
            var na := NotAvailableAt(t, k');
            if na > 0 then Some(t[k'..k' + na]) else None
  }

  /** The first present entry at or after `i`. */
  function FirstSome<T>(s: seq<Option<T>>, i: nat): Option<T>
    requires i <= |s|
    decreases |s| - i
  {
    if i == |s| then None else if s[i].Some? then s[i] else FirstSome(s, i + 1)
  }

  /** `FirstSome` finds an entry iff one is present, and it is the leftmost. */
  lemma {:induction false} FirstSomeIsLeftmost<T>(s: seq<Option<T>>, i: nat)
    requires i <= |s|
    ensures FirstSome(s, i).Some? <==> exists k :: i <= k < |s| && s[k].Some?
    ensures FirstSome(s, i).Some? ==> exists k :: i <= k < |s| && s[k] == FirstSome(s, i) && (forall m :: i <= m < k ==> s[m].None?)
    decreases |s| - i
  {
    if i < |s| && s[i].None? {
      FirstSomeIsLeftmost(s, i + 1);
      if FirstSome(s, i).Some? {
        var k :| i + 1 <= k < |s| && s[k] == FirstSome(s, i) && (forall m :: i + 1 <= m < k ==> s[m].None?);
        assert forall m :: i <= m < k ==> s[m].None?;
      }
    }
  }

  /** The outcome of a match attempt at every start position. */
  function Attempts(t: string, p: Pattern): (r: seq<Option<string>>)
    ensures |r| == |t| + 1 && forall k :: 0 <= k <= |t| ==> r[k] == MatchAt(t, k, p)
  {
    seq(|t| + 1, k requires 0 <= k <= |t| => MatchAt(t, k, p))
  }

  /** `re.search`: the group of the leftmost match. */
  function Search(t: string, p: Pattern): (r: Option<string>)
    ensures r.Some? ==> |r.value| > 0
    ensures r.Some? && p.ConvictionPattern? ==> AllDigits(r.value)
  {
    var r := FirstSome(Attempts(t, p), 0);
    FirstSomeIsLeftmost(Attempts(t, p), 0);
    r
  }

  /** The search finds a match iff one starts somewhere, and what it finds
      is the group of the leftmost one. */
  lemma SearchFindsLeftmost(t: string, p: Pattern)
    ensures Search(t, p).Some? <==> exists k :: 0 <= k <= |t| && MatchAt(t, k, p).Some?
    ensures Search(t, p).Some? ==>
      exists k :: 0 <= k <= |t| && MatchAt(t, k, p) == Search(t, p) && (forall m :: 0 <= m < k ==> MatchAt(t, m, p).None?)
  {
    FirstSomeIsLeftmost(Attempts(t, p), 0);
  }

  /** A match at the very start is the one the search returns. */
  lemma SearchAtStart(t: string, p: Pattern)
    requires MatchAt(t, 0, p).Some?
    ensures Search(t, p) == MatchAt(t, 0, p)
  {
    assert Attempts(t, p)[0] == MatchAt(t, 0, p);
  }

  /** A digit group after the keyword and its separators. */
  lemma DigitsMatchAt(t: string, p: Pattern, i: nat, k: nat, d: nat)
    requires KeywordAt(t, i, Keyword(p)) && k == i + |Keyword(p)| + SepRun(t, i + |Keyword(p)|) && k > i + |Keyword(p)|
    requires p.ConvictionPattern? ==> ClassRun(t, k, Digits) == d
    requires p.PricePattern? ==> (k == |t| || t[k] != '$') && ClassRun(t, k, DigitsOrDot) == d
    requires d > 0
    ensures MatchAt(t, i, p) == Some(t[k..k + d])
  {
  }

  // ------------------------------------------------------------------
  // Numbers
  // ------------------------------------------------------------------

  function Pow10(n: nat): (r: nat)
    ensures r >= 1
  {
    if n == 0 then 1 else 10 * Pow10(n - 1)
  }

  /** Index of the first `c` in `s`. */
  function CharIndex(s: string, c: char): (k: nat)
    requires c in s
    ensures k < |s| && s[k] == c && c !in s[..k]
  {
    if s[0] == c then 0
    else
      var k := 1 + CharIndex(s[1..], c);
      assert s[..k] == [s[0]] + s[1..][..k - 1];
      k
  }

  /** `float(s)` for a run of digits and dots: `None` where Python raises
      (no digit, or two dots). */
  function ParseFloat(s: string): (r: Option<real>)
    ensures AllDigits(s) && |s| > 0 ==> r == Some(ParseNat(s) as real)
  {
    if exists m :: 0 <= m < |s| && !IsDigit(s[m]) && s[m] != '.' then None
    else if '.' !in s then
      assert AllDigits(s);
      if |s| == 0 then None else Some(ParseNat(s) as real)
    else
      var k := CharIndex(s, '.');
      var a := s[..k];
      var b := s[k + 1..];
      if '.' in b || |a| + |b| == 0 then None
      else
        assert AllDigits(a) && AllDigits(b);
        Some(ParseNat(a) as real + ParseNat(b) as real / Pow10(|b|) as real)
  }

  // ------------------------------------------------------------------
  // Parsing one answer
  // ------------------------------------------------------------------

  datatype Decision = Buy | Sell | Hold

  /** BUY if the upper-cased text mentions BUY, else SELL if it mentions
      SELL, else HOLD. */
  function ParseDecision(text: string): (d: Decision)
    ensures d == Buy <==> Contains(Upper(text), "BUY")
    ensures d == Sell <==> !Contains(Upper(text), "BUY") && Contains(Upper(text), "SELL")
  {
    if Contains(Upper(text), "BUY") then Buy
    else if Contains(Upper(text), "SELL") then Sell
    else Hold
  }

  lemma UpperLower(t: string)
    ensures Upper(Lower(t)) == Upper(t)
  {
    assert forall i :: 0 <= i < |t| ==> UpperChar(LowerChar(t[i])) == UpperChar(t[i]);
  }

  /** The decision does not depend on the case of the text. */
  lemma DecisionIgnoresCase(t: string)
    ensures ParseDecision(Lower(t)) == ParseDecision(t)
  {
    UpperLower(t);
  }

  /** The conviction after the first `conviction:` with digits, else 50. */
  function Conviction(text: string): (c: real)
    ensures c >= 0.0
    ensures Search(text, ConvictionPattern).None? ==> c == 50.0
  {
    match Search(text, ConvictionPattern)
    case Some(g) => ParseNat(g) as real
    case None => 50.0
  }

  /** `safe_extract_price`: the number after `<kw>:`, or `default` when
      there is no match, the value is N/A (or NA, NONE, NULL) or it does
      not parse. */
  function ExtractPrice(text: string, kw: string, default: real): (r: real)
    ensures Search(text, PricePattern(kw)).None? ==> r == default
    ensures var m := Search(text, PricePattern(kw));
      m.Some? && NotAvailable(m.value) ==> r == default
    ensures var m := Search(text, PricePattern(kw));
      m.Some? && !NotAvailable(m.value) && ParseFloat(m.value).None? ==> r == default
    ensures var m := Search(text, PricePattern(kw));
      m.Some? && !NotAvailable(m.value) && ParseFloat(m.value).Some? ==> r == ParseFloat(m.value).value
    ensures var m := Search(text, PricePattern(kw));
      m.Some? && AllDigits(m.value) ==> r == ParseNat(m.value) as real
  {
    match Search(text, PricePattern(kw))
    case None => default
    case Some(g) =>
      DigitsAreAvailable(g);
      if NotAvailable(g) then default
      else ParseFloat(g).GetOr(default)
  }

  /** A number is never read as a missing value. */
  lemma DigitsAreAvailable(g: string)
    ensures AllDigits(g) && |g| > 0 ==> !NotAvailable(g)
  {
    if AllDigits(g) && |g| > 0 {
      assert IsDigit(Upper(g)[0]);
    }
  }

  /** The spellings of a missing value the price reader skips. */
  predicate NotAvailable(g: string)
  {
    Upper(g) in ["N/A", "NA", "NONE", "NULL"]
  }

  lemma LowerOfKeyword(s: string, kw: string)
    requires |s| == |kw| && forall i :: 0 <= i < |s| ==> LowerChar(s[i]) == kw[i]
    ensures Lower(s) == kw
  {
  }

  lemma ConvictionTextMatches(digits: string)
    requires |digits| > 0 && AllDigits(digits)
    ensures Search("Conviction: " + digits, ConvictionPattern) == Some(digits)
  {
    var t := "Conviction: " + digits;
    assert KeywordAt(t, 0, "conviction") by {
      LowerOfKeyword(t[0..10], "conviction");
    }
    assert SepRun(t, 10) == 2 by {
      assert Sep(t[10]) && Sep(t[11]);
      assert t[12] == digits[0];
    }
    assert ClassRun(t, 12, Digits) == |digits| && t[12..12 + |digits|] == digits by {
      assert forall m :: 12 <= m < |t| ==> t[m] == digits[m - 12];
    }
    DigitsMatchAt(t, ConvictionPattern, 0, 12, |digits|);
    SearchAtStart(t, ConvictionPattern);
  }

  /** `Conviction: 72` reads as 72. */
  lemma ConvictionRoundTrip(n: nat)
    ensures Conviction("Conviction: " + NatToString(n)) == n as real
  {
    ConvictionTextMatches(NatToString(n));
    ParseNatToString(n);
  }

  lemma EntryTextMatches(digits: string)
    requires |digits| > 0 && AllDigits(digits)
    ensures Search("Entry: " + digits, PricePattern("entry")) == Some(digits)
  {
    var t := "Entry: " + digits;
    assert KeywordAt(t, 0, "entry") by {
      LowerOfKeyword(t[0..5], "entry");
    }
    assert SepRun(t, 5) == 2 && t[7] != '$' by {
      assert Sep(t[5]) && Sep(t[6]);
      assert t[7] == digits[0];
    }
    assert ClassRun(t, 7, DigitsOrDot) == |digits| && t[7..7 + |digits|] == digits by {
      assert forall m :: 7 <= m < |t| ==> t[m] == digits[m - 7];
    }
    DigitsMatchAt(t, PricePattern("entry"), 0, 7, |digits|);
    SearchAtStart(t, PricePattern("entry"));
  }

  /** `Entry: 105` reads as 105. */
  lemma EntryPriceRoundTrip(n: nat, default: real)
    ensures ExtractPrice("Entry: " + NatToString(n), "entry", default) == n as real
  {
    var digits := NatToString(n);
    EntryTextMatches(digits);
    assert Upper(digits) !in ["N/A", "NA", "NONE", "NULL"] by {
      assert IsDigit(digits[0]) && Upper(digits)[0] == digits[0];
    }
    assert ParseFloat(digits) == Some(n as real) by {
      ParseNatToString(n);
    }
  }

  /** `Stop: N/A` falls back to the default. */
  lemma NotAvailableStopIsDefault(default: real)
    ensures ExtractPrice("Stop: N/A", "stop", default) == default
  {
    var t := "Stop: N/A";
    assert KeywordAt(t, 0, "stop") by {
      LowerOfKeyword(t[0..4], "stop");
    }
    assert SepRun(t, 4) == 2 by {
      assert Sep(t[4]) && Sep(t[5]) && !Sep(t[6]);
    }
    assert ClassRun(t, 6, DigitsOrDot) == 0 by {
      assert !InClass(t[6], DigitsOrDot);
    }
    assert NotAvailableAt(t, 6) == 3 by {
      assert t[6..9] == "N/A";
      assert Upper(t[6..9]) == "N/A";
    }
    assert t[6..9] == "N/A";
    assert MatchAt(t, 0, PricePattern("stop")) == Some(t[6..9]);
    SearchAtStart(t, PricePattern("stop"));
    assert Upper("N/A") == "N/A";
  }

  /** The derived metrics, each guarded against a division by zero. */
  datatype Metrics = Metrics(risk: real, reward: real, riskRewardRatio: real, expectedReturn: real)

  function Derive(entry: real, stop: real, target: real): (m: Metrics)
    ensures m.risk > 0.0 ==> m.riskRewardRatio * m.risk == m.reward
    ensures m.risk <= 0.0 ==> m.riskRewardRatio == 1.0
    ensures entry > 0.0 ==> m.expectedReturn * entry == target - entry
    ensures entry <= 0.0 ==> m.expectedReturn == 0.05
  {
    var risk := if entry > 0.0 && stop > 0.0 then entry - stop else entry * 0.05;
    var reward := if target > 0.0 && entry > 0.0 then target - entry else entry * 0.05;
    Metrics(risk, reward, if risk > 0.0 then reward / risk else 1.0, if entry > 0.0 then (target - entry) / entry else 0.05)
  }

  /** With the default stop (-5%) and target (+5%) risk equals reward and
      the expected return is 5%. */
  lemma DefaultPricesGiveEvenOdds(entry: real)
    requires entry > 0.0
    ensures Derive(entry, entry * 0.95, entry * 1.05) == Metrics(entry * 0.05, entry * 0.05, 1.0, 0.05)
  {
    assert (entry * 0.05) / (entry * 0.05) == 1.0;
    assert (entry * 1.05 - entry) / entry == 0.05;
  }

  /** The object `analyze_stock` returns: a string, a dict, or anything
      else (with its `str()` form and whether `'decision' in result`). */
  datatype RawResult =
    | TextResult(text: string)
    | DictResult(fields: Fields)
    | OtherResult(repr: string, hasDecision: bool)

  /** A `raw_result` value: its `str()` form, its truthiness and its JSON. */
  datatype Payload = Payload(str: string, truthy: bool, json: Serialization)

  /** The dict keys the parser reads. */
  datatype Fields = Fields(decision: Option<string>, rawResult: Option<Payload>, traderAnalysis: Option<string>)

  function StringPayload(s: string): Payload
  {
    Payload(s, s != "", Dumps(JsonString(s)))
  }

  /** A string or other non-dict answer becomes a dict whose decision and
      raw result are its string form. */
  function Coerce(r: RawResult): (f: Fields)
    ensures !r.DictResult? ==> f.decision.Some? && f.traderAnalysis == Some("")
  {
    match r
    case TextResult(s) => Fields(Some(s), Some(StringPayload(s)), Some(""))
    case DictResult(f) => f
    case OtherResult(s, _) => Fields(Some(s), Some(StringPayload(s)), Some(""))
  }

  /** The decision text, or the raw result's when the decision is empty. */
  function DecisionText(f: Fields): (t: string)
    ensures f.decision.Some? && f.decision.value != "" ==> t == f.decision.value
  {
    var d := f.decision.GetOr("");
    if d == "" && f.rawResult.Some? && f.rawResult.value.truthy then f.rawResult.value.str else d
  }

  /** The stock row columns the parser reads. */
  datatype StockRow = StockRow(symbol: string, price: Option<real>)

  datatype Analysis = Analysis(
    symbol: string, decision: Decision, conviction: real,
    entryPrice: real, stopLoss: real, targetPrice: real,
    metrics: Metrics, riskScore: nat,
    traderAnalysis: string, riskManagerAnalysis: string, fullDebateHistory: string)

  /** `_parse_tradingagents_result`. */
  function ParseResult(r: RawResult, row: StockRow): (a: Analysis)
    ensures a.symbol == row.symbol && a.riskScore == 50
    ensures a.decision == ParseDecision(a.riskManagerAnalysis) && a.conviction == Conviction(a.riskManagerAnalysis)
    ensures a.metrics == Derive(a.entryPrice, a.stopLoss, a.targetPrice)
    ensures Search(a.riskManagerAnalysis, PricePattern("entry")).None? ==> a.entryPrice == row.price.GetOr(100.0)
    ensures Search(a.riskManagerAnalysis, PricePattern("stop")).None? ==> a.stopLoss == a.entryPrice * 0.95
    ensures Search(a.riskManagerAnalysis, PricePattern("target")).None? ==> a.targetPrice == a.entryPrice * 1.05
  {
    var f := Coerce(r);
    var text := DecisionText(f);
    var entry := ExtractPrice(text, "entry", row.price.GetOr(100.0));
    var stop := ExtractPrice(text, "stop", entry * 0.95);
    var target := ExtractPrice(text, "target", entry * 1.05);
    var history := match f.rawResult case Some(p) => SafeSerialize(p.json) case None => "{}";
    Analysis(row.symbol, ParseDecision(text), Conviction(text), entry, stop, target,
      Derive(entry, stop, target), 50, f.traderAnalysis.GetOr(""), text, history)
  }

  /** A string answer is parsed as its own decision text. */
  lemma TextAnswerIsItsOwnDecision(s: string, row: StockRow)
    requires s != ""
    ensures ParseResult(TextResult(s), row).riskManagerAnalysis == s
    ensures DecodeJsonString(ParseResult(TextResult(s), row).fullDebateHistory) == Some(s)
  {
    var j := JsonString(s);
    assert j[1..|j| - 1] == Escape(s);
    UnescapeEscape(s);
  }

  // ------------------------------------------------------------------
  // process_batch
  // ------------------------------------------------------------------

  /** What `analyze_stock` did for one candidate. */
  datatype AgentOutcome = AgentRaised | Returned(result: RawResult)

  /** `if not result or 'decision' not in result`: a string passes only
      when it contains the word `decision`, a dict when it has the key. */
  predicate Usable(o: AgentOutcome)
  {
    match o
    case AgentRaised => false
    case Returned(TextResult(s)) => Contains(s, "decision")
    case Returned(DictResult(f)) => f.decision.Some?
    case Returned(OtherResult(_, has)) => has
  }

  /** A bare verdict string is skipped as having no decision. */
  lemma BareVerdictIsSkipped()
    ensures !Usable(Returned(TextResult("BUY")))
  {
    ContainsTooShort("BUY", "decision");
  }

  /** The loop of `process_batch`: the parsed rows, in order, and the
      number of candidates that failed. */
  function AnalyseAll(cands: seq<StockRow>, outs: seq<AgentOutcome>): (r: (seq<Analysis>, nat))
    requires |cands| == |outs|
    ensures |r.0| + r.1 == |cands|
    ensures |r.0| == Count(outs, Usable)
  {
    if |cands| == 0 then ([], 0)
    else
      var rest := AnalyseAll(cands[1..], outs[1..]);
      if Usable(outs[0]) then ([ParseResult(outs[0].result, cands[0])] + rest.0, rest.1)
      else (rest.0, rest.1 + 1)
  }

  /** Every parsed row is the parse of a usable answer for its candidate. */
  lemma {:induction false} AnalysesComeFromAnswers(cands: seq<StockRow>, outs: seq<AgentOutcome>, a: Analysis)
    requires |cands| == |outs| && a in AnalyseAll(cands, outs).0
    ensures exists i :: 0 <= i < |cands| && Usable(outs[i]) && a == ParseResult(outs[i].result, cands[i])
  {
    var rest := AnalyseAll(cands[1..], outs[1..]).0;
    if Usable(outs[0]) && a == ParseResult(outs[0].result, cands[0]) {
      assert 0 < |cands|;
    } else {
      assert a in rest by {
        if Usable(outs[0]) {
          assert AnalyseAll(cands, outs).0 == [ParseResult(outs[0].result, cands[0])] + rest;
        } else {
          assert AnalyseAll(cands, outs).0 == rest;
        }
      }
      AnalysesComeFromAnswers(cands[1..], outs[1..], a);
      var i :| 0 <= i < |cands| - 1 && Usable(outs[1..][i]) && a == ParseResult(outs[1..][i].result, cands[1..][i]);
      assert outs[i + 1] == outs[1..][i] && cands[i + 1] == cands[1..][i];
      assert Usable(outs[i + 1]) && a == ParseResult(outs[i + 1].result, cands[i + 1]);
    }
  }

  predicate IsBuy(a: Analysis) { a.decision == Buy }

  /** The constructor's answer, by symbol. */
  datatype Portfolio = Portfolio(selections: seq<string>, excluded: seq<string>)

  datatype BatchReport =
    | NothingAnalysed(batchId: string)
    | Report(batchId: string, totalAnalysed: nat, failedAnalyses: nat, buySignals: nat, portfolio: Portfolio)

  /** `process_batch`. With no usable answer it reports the failure and
      never consults the constructor; otherwise the constructor's answer
      (or its exception) completes the report. */
  function ProcessBatch(batchId: string, cands: seq<StockRow>, outs: seq<AgentOutcome>, construct: Result<Portfolio, string>)
    : (r: Result<BatchReport, string>)
    requires |cands| == |outs|
    ensures r == Ok(NothingAnalysed(batchId)) <==> Count(outs, Usable) == 0
    ensures r.Ok? && r.value.Report? ==>
      r.value.totalAnalysed + r.value.failedAnalyses == |cands| && r.value.totalAnalysed == Count(outs, Usable) > 0
      && r.value.buySignals <= r.value.totalAnalysed && Ok(r.value.portfolio) == construct
    ensures r.Raised? <==> Count(outs, Usable) > 0 && construct.Raised?
  {
    var (analyses, failed) := AnalyseAll(cands, outs);
    if |analyses| == 0 then Ok(NothingAnalysed(batchId))
    else
      match construct
      case Raised(e) => Raised(e)
      case Ok(p) =>
        CountIsFilterLength(analyses, IsBuy);
        Ok(Report(batchId, |analyses|, failed, Count(analyses, IsBuy), p))
  }

  /** The BUY count is the number of parsed rows whose decision is BUY. */
  lemma BuySignalsCountBuys(batchId: string, cands: seq<StockRow>, outs: seq<AgentOutcome>, p: Portfolio)
    requires |cands| == |outs| && Count(outs, Usable) > 0
    ensures ProcessBatch(batchId, cands, outs, Ok(p)).value.buySignals == |Filter(AnalyseAll(cands, outs).0, IsBuy)|
  {
    CountIsFilterLength(AnalyseAll(cands, outs).0, IsBuy);
  }
}
