/** The deterministic parts of tools.py: ticker extraction in
    `yfinance_tool`, and the URL de-duplication and error defaults of
    `web_search_full`. The quote fetch and the web search are passed in. */
module Tools {
  import opened Wrappers
  import opened Text

  // ---------------------------------------------------------------------------
  // Ticker extraction (tools.py:40-78)
  // ---------------------------------------------------------------------------

  /** `ticker_mappings`, in insertion order. */
  const TickerMappings: seq<(string, string)> := [
    ("TATA MOTORS", "TATAMOTORS.NS"),
    ("TATAMOTORS", "TATAMOTORS.NS"),
    ("RELIANCE", "RELIANCE.NS"),
    ("INFOSYS", "INFY"),
    ("WIPRO", "WIPRO.NS"),
    ("HDFC", "HDFCBANK.NS"),
    ("HDFC BANK", "HDFCBANK.NS"),
    ("ICICI", "ICICIBANK.NS"),
    ("ICICI BANK", "ICICIBANK.NS"),
    ("SBI", "SBIN.NS"),
    ("AXIS BANK", "AXISBANK.NS")
  ]

  const Blacklist: seq<string> := ["WHAT", "IS", "THE", "PRICE", "STOCK", "OF", "PLEASE", "CURRENT", "FOR", "TELL"]

  /** The three phrases of tools.py:40, removed case-sensitively in this order. */
  function RemovePhrases(query: string): string {
    Remove(Remove(Remove(query, "stock price of"), "what is the price of"), "price of")
  }

  /** tools.py:40: the phrases removed, the rest stripped and upper-cased. */
  function CleanQuery(query: string): string {
    Upper(Strip(RemovePhrases(query)))
  }

  /** The cleaned query has no lower-case ASCII letter and no whitespace at
      either end. */
  lemma CleanQueryShape(query: string)
    ensures var r := CleanQuery(query);
      && (forall i :: 0 <= i < |r| ==> !('a' <= r[i] <= 'z'))
      && (r != [] ==> !IsSpace(r[0]) && !IsSpace(r[|r| - 1]))
  {
    var t := Strip(RemovePhrases(query));
    StripSpec(RemovePhrases(query));
    UpperShape(t);
  }

  lemma UpperShape(t: string)
    requires t != [] ==> !IsSpace(t[0]) && !IsSpace(t[|t| - 1])
    ensures var r := Upper(t);
      && (forall i :: 0 <= i < |r| ==> !('a' <= r[i] <= 'z'))
      && (r != [] ==> !IsSpace(r[0]) && !IsSpace(r[|r| - 1]))
  {
  }

  /** Entry `j` is the first mapping entry whose key occurs in `qc`. */
  predicate FirstMatchAt(qc: string, j: int) {
    && 0 <= j < |TickerMappings|
    && Contains(qc, TickerMappings[j].0)
    && forall i :: 0 <= i < j ==> !Contains(qc, TickerMappings[i].0)
  }

  predicate Eligible(word: string) {
    word !in Blacklist && |word| >= 1
  }

  /** `words[k]` is the first word that is not blacklisted. */
  predicate FirstEligibleAt(words: seq<string>, k: int) {
    && 0 <= k < |words|
    && Eligible(words[k])
    && forall i :: 0 <= i < k ==> !Eligible(words[i])
  }

  /** Some mapping key occurs in the cleaned query. */
  predicate HasKey(qc: string) {
    exists j :: 0 <= j < |TickerMappings| && Contains(qc, TickerMappings[j].0)
  }

  /** Neither a mapping key nor an eligible word occurs in the cleaned query. */
  predicate NoTicker(qc: string) {
    && !HasKey(qc)
    && (forall k :: 0 <= k < |Words(qc)| ==> !Eligible(Words(qc)[k]))
  }

  /** The mapping loop of tools.py:60-64: the first entry in insertion order
      whose key occurs in the cleaned query gives the ticker. */
  method MatchMapping(queryClean: string) returns (ticker: Option<string>)
    ensures ticker.None? <==> !HasKey(queryClean)
    ensures ticker.Some? ==> exists j :: FirstMatchAt(queryClean, j) && ticker.value == TickerMappings[j].1
  {
    ticker := None;
    var j := 0;
    while j < |TickerMappings|
      invariant 0 <= j <= |TickerMappings|
      invariant ticker.None?
      invariant forall i :: 0 <= i < j ==> !Contains(queryClean, TickerMappings[i].0)
    {
      var (company, symbol) := TickerMappings[j];
      if Contains(queryClean, company) {
        ticker := Some(symbol);
        assert FirstMatchAt(queryClean, j);
        break;
      }
      j := j + 1;
    }
  }

  /** The word loop of tools.py:67-74: the first word not in the blacklist. */
  method FirstEligibleWord(words: seq<string>) returns (ticker: Option<string>)
    ensures ticker.None? <==> forall k :: 0 <= k < |words| ==> !Eligible(words[k])
    ensures ticker.Some? ==> exists k :: FirstEligibleAt(words, k) && ticker.value == words[k]
  {
    ticker := None;
    var k := 0;
    while k < |words|
      invariant 0 <= k <= |words|
      invariant ticker.None?
      invariant forall i :: 0 <= i < k ==> !Eligible(words[i])
    {
      var word := words[k];
      if word !in Blacklist && |word| >= 1 {
        ticker := Some(word);
        assert FirstEligibleAt(words, k);
        break;
      }
      k := k + 1;
    }
  }

  /** Ticker resolution of tools.py:40-74: a mapping match wins; only when
      no key occurs is the first eligible word of the cleaned query taken. */
  method ExtractTicker(query: string) returns (ticker: Option<string>)
    ensures var qc := CleanQuery(query);
      HasKey(qc) ==> exists j :: FirstMatchAt(qc, j) && ticker == Some(TickerMappings[j].1)
    ensures var qc := CleanQuery(query);
      !HasKey(qc) && ticker.Some? ==> exists k :: FirstEligibleAt(Words(qc), k) && ticker.value == Words(qc)[k]
    ensures ticker.None? <==> NoTicker(CleanQuery(query))
    ensures ticker.Some? ==> ticker.value != ""
  {
    var queryClean := CleanQuery(query);
    ticker := MatchMapping(queryClean);
    SymbolsNonEmpty();
    if ticker.None? || ticker.value == "" {
      ticker := FirstEligibleWord(Words(queryClean));
    }
  }

  lemma SymbolsNonEmpty()
    ensures forall j :: 0 <= j < |TickerMappings| ==> TickerMappings[j].1 != ""
  {
  }

  /** Because "HDFC" and "ICICI" come before the keys they are prefixes of,
      the entries "HDFC BANK" and "ICICI BANK" are never the first match. */
  lemma ShadowedEntries(qc: string)
    ensures !FirstMatchAt(qc, 6) && !FirstMatchAt(qc, 8)
  {
    assert TickerMappings[5].0 == "HDFC" && TickerMappings[6].0 == "HDFC BANK";
    assert TickerMappings[7].0 == "ICICI" && TickerMappings[8].0 == "ICICI BANK";
    assert IsPrefix("HDFC", "HDFC BANK") && IsPrefix("ICICI", "ICICI BANK");
    if Contains(qc, "HDFC BANK") {
      ContainsTransitive(qc, "HDFC BANK", "HDFC");
    }
    if Contains(qc, "ICICI BANK") {
      ContainsTransitive(qc, "ICICI BANK", "ICICI");
    }
  }

  lemma ContainsTransitive(s: string, a: string, b: string)
    requires Contains(s, a) && IsPrefix(b, a)
    ensures Contains(s, b)
  {
    ContainsIff(s, a);
    var i :| OccursAt(s, a, i);
    assert s[i..i + |b|] == a[..|b|];
    assert OccursAt(s, b, i);
    ContainsIff(s, b);
  }

  /** What the quote lookup of tools.py:81-141 ends in: an exception, no
      current price, or the formatted report body. */
  datatype Quote = QuoteRaised | NoPrice | Priced(body: string)

  function Header(ticker: string): string {
    "\n**" + ticker + " - Real-time Stock Data**\n\n"
  }

  /** `yfinance_tool(query)`. `requested` is the ticker handed to the quote
      service, `None` when the service is not called at all. */
  method YFinanceTool(query: string, fetch: string -> Quote) returns (r: string, requested: Option<string>)
    ensures var qc := CleanQuery(query);
      HasKey(qc) ==> exists j :: FirstMatchAt(qc, j) && requested == Some(TickerMappings[j].1)
    ensures var qc := CleanQuery(query);
      !HasKey(qc) && requested.Some? ==> exists k :: FirstEligibleAt(Words(qc), k) && requested.value == Words(qc)[k]
    ensures requested.None? <==> NoTicker(CleanQuery(query))
    ensures requested.None? ==> r == ""
    ensures requested.Some? ==>
      r == match fetch(requested.value)
           case Priced(body) => Strip(Header(requested.value) + body)
           case _ => ""
    ensures r == "" || (|r| >= 2 && r[..2] == "**")
    ensures r != "NO_TICKER"
  {
    var ticker := ExtractTicker(query);
    if ticker.None? {
      return "", None;
    }
    requested := ticker;
    var quote := fetch(ticker.value);
    match quote {
      case QuoteRaised =>
        r := "";
      case NoPrice =>
        r := "";
      case Priced(body) =>
        r := Strip(Header(ticker.value) + body);
        ReportStartsWithStar(ticker.value, body);
        assert r[0] == r[..2][0] != "NO_TICKER"[0];
    }
  }

  /** The stripped report starts with the `**` that opens the bold header. */
  lemma ReportStartsWithStar(ticker: string, body: string)
    ensures |Strip(Header(ticker) + body)| >= 2 && Strip(Header(ticker) + body)[..2] == "**"
  {
    var s := Header(ticker) + body;
    assert s[0] == '\n' && s[1] == '*' && s[2] == '*';
    var l := TrimLeft(s);
    assert TrimLeft(s[1..]) == s[1..];
    assert l == s[1..];
    assert l[0] == '*' && l[1] == '*';
    TrimRightSpec(l);
    var r := TrimRight(l);
    assert r[..2] == l[..2];
  }

  // ---------------------------------------------------------------------------
  // URL de-duplication (tools.py:167): list(dict.fromkeys(urls))
  // ---------------------------------------------------------------------------

  /** Inserting each URL into an insertion-ordered dict, in input order. */
  function Dedup(s: seq<string>): seq<string>
    decreases |s|
  {
    if s == [] then []
    else
      var d := Dedup(s[..|s| - 1]);
      var x := s[|s| - 1];
      if x in d then d else d + [x]
  }

  /** The index of the first occurrence of `x` in `s`. */
  function FirstIndex(s: seq<string>, x: string): (r: nat)
    requires x in s
    ensures r < |s| && s[r] == x
    ensures forall k :: 0 <= k < r ==> s[k] != x
  {
    if s[0] == x then 0 else 1 + FirstIndex(s[1..], x)
  }

  lemma FirstIndexSnoc(p: seq<string>, x: string, y: string)
    requires y in p
    ensures FirstIndex(p + [x], y) == FirstIndex(p, y)
  {
    var a, b := FirstIndex(p + [x], y), FirstIndex(p, y);
    assert (p + [x])[b] == y;
  }

  /** `list(dict.fromkeys(urls))` has no duplicates, holds exactly the URLs
      of its input, and lists them in the order of their first occurrence. */
  lemma {:induction false} DedupSpec(s: seq<string>)
    ensures Distinct(Dedup(s))
    ensures forall x :: x in Dedup(s) <==> x in s
    ensures forall i, j :: 0 <= i < j < |Dedup(s)| ==> FirstIndex(s, Dedup(s)[i]) < FirstIndex(s, Dedup(s)[j])
    decreases |s|
  {
    if s != [] {
      var p := s[..|s| - 1];
      var x := s[|s| - 1];
      assert s == p + [x];
      DedupSpec(p);
      var d := Dedup(p);
      forall y | y in p ensures FirstIndex(s, y) == FirstIndex(p, y) {
        FirstIndexSnoc(p, x, y);
      }
      if x !in d {
        var r := d + [x];
        assert FirstIndex(s, x) == |p|;
        forall i, j | 0 <= i < j < |r| ensures FirstIndex(s, r[i]) < FirstIndex(s, r[j]) {
          if j < |d| {
            assert r[i] == d[i] && r[j] == d[j];
          } else {
            assert r[i] == d[i] && d[i] in p;
          }
        }
      } else {
        forall i, j | 0 <= i < j < |d| ensures FirstIndex(s, d[i]) < FirstIndex(s, d[j]) {
          assert d[i] in p && d[j] in p;
        }
      }
    }
  }

  /** De-duplicating a list without duplicates returns it unchanged, so
      de-duplication is idempotent. */
  lemma {:induction false} DedupOfDistinct(s: seq<string>)
    requires Distinct(s)
    ensures Dedup(s) == s
    decreases |s|
  {
    if s != [] {
      var p := s[..|s| - 1];
      DedupOfDistinct(p);
      assert s[|s| - 1] !in p;
      assert p + [s[|s| - 1]] == s;
    }
  }

  lemma DedupIdempotent(s: seq<string>)
    ensures Dedup(Dedup(s)) == Dedup(s)
  {
    DedupSpec(s);
    DedupOfDistinct(Dedup(s));
  }

  // ---------------------------------------------------------------------------
  // Error defaults of web_search_full (tools.py:153-181)
  // ---------------------------------------------------------------------------

  /** What the DuckDuckGo call and the two regex scans produced: an
      exception, or the raw results with the URLs and source names the
      regexes found in them. */
  datatype SearchOutcome = SearchRaised | SearchReturned(data: string, urls: seq<string>, sourceNames: seq<string>)

  /** The LLM context, the de-duplicated URLs and the source names shown as
      "Based on sources" (empty: no sources line). */
  datatype WebSources = WebSources(context: string, uniqueUrls: seq<string>, sourceNames: set<string>)

  const NoResults := "No live web results found."
  const TimeoutApology := "I encountered a timeout while searching the web. This might be a temporary connectivity issue. Please try again or rephrase your question."

  function WebSearchSources(outcome: SearchOutcome): (r: WebSources)
    ensures outcome.SearchRaised? ==> r == WebSources(TimeoutApology, [], {})
    ensures Distinct(r.uniqueUrls)
    ensures forall u :: u in r.uniqueUrls ==> outcome.SearchReturned? && u in outcome.urls
    ensures outcome.SearchReturned? && outcome.data != "" ==>
      forall u :: u in outcome.urls ==> u in r.uniqueUrls
  {
    match outcome
    case SearchRaised => WebSources(TimeoutApology, [], {})
    case SearchReturned(data, urls, names) =>
      var unique := if data != "" then Dedup(urls) else [];
      DedupSpec(urls);
      WebSources(if data != "" then data else NoResults, unique, set n | n in names)
  }
}
