/**
 * The quote and history helpers of the server: one module-level cache (time-to-live 60 seconds)
 * in front of an upstream quote provider, the historical-series rules, and the search fallback.
 * Providers are parameters that map a symbol to the response they give.
 */
module Requests {
  import opened Wrappers
  import TtlCache
  import Sorting
  import Seqs

  /** `new Cache({ stdTTL: 60 })`. */
  const QuoteTtlSeconds: nat := 60

  /** The seven fields a fetch returns and caches. */
  datatype Quote = Quote(
    symbol: string,
    longName: Option<string>,
    price: real,
    previousClose: real,
    changePercent: real,
    quoteType: Option<string>,
    averageDailyVolume10Day: Option<real>)

  /**
   * What the upstream quote call does: return one quote, throw an error that carries a `result`
   * array of quotes, or throw any other error.
   */
  datatype QuoteResponse = Direct(quote: Quote) | Partial(results: seq<Quote>) | HardFailure(detail: string)

  datatype FetchError = SymbolMismatch | NoResults(symbol: string) | Upstream(detail: string)

  /** One point of a price series: `[timestamp, close]`. */
  datatype Point = Point(time: int, close: real)

  /** The cache holds quotes and price series side by side. */
  datatype CacheValue = QuoteValue(quote: Quote) | SeriesValue(points: seq<Point>)

  type Entries = map<string, TtlCache.Stamped<CacheValue>>

  function QuoteKey(symbol: string): string
  {
    symbol + "-quote"
  }

  predicate IsQuoteKey(key: string)
  {
    |key| >= 6 && key[|key| - 6..] == "-quote"
  }

  lemma QuoteKeyInjective(a: string, b: string)
    ensures QuoteKey(a) == QuoteKey(b) <==> a == b
  {
    if QuoteKey(a) == QuoteKey(b) {
      assert a == QuoteKey(a)[..|a|];
      assert b == QuoteKey(b)[..|b|];
    }
  }

  lemma QuoteKeyIsQuoteKey(symbol: string)
    ensures IsQuoteKey(QuoteKey(symbol))
  {
    assert QuoteKey(symbol)[|QuoteKey(symbol)| - 6..] == "-quote";
  }

  /**
   * The invariant both store sites keep: quote keys hold quotes of their own symbol, every other
   * key holds a series.
   */
  ghost predicate WellKeyed(entries: Entries)
  {
    forall k :: k in entries ==>
      (entries[k].value.QuoteValue? <==> IsQuoteKey(k)) &&
      (entries[k].value.QuoteValue? ==> k == QuoteKey(entries[k].value.quote.symbol))
  }

  /** The first quote in `results` whose symbol equals `demanded`. */
  function FirstQuote(results: seq<Quote>, demanded: string): (r: Option<Quote>)
    ensures r.Some? <==> exists i :: 0 <= i < |results| && results[i].symbol == demanded
    ensures r.Some? ==> r.value.symbol == demanded
    ensures r.Some? ==> exists i :: (0 <= i < |results| && results[i] == r.value
      && forall j :: 0 <= j < i ==> results[j].symbol != demanded)
  {
    if results == [] then None
    else if results[0].symbol == demanded then
      assert results[0] == results[0];
      Some(results[0])
    else
      var rest := FirstQuote(results[1..], demanded);
      assert forall i :: 0 < i < |results| ==> results[i] == results[1..][i - 1];
      if rest.Some? then
        ghost var i :| 0 <= i < |results[1..]| && results[1..][i] == rest.value
          && rest.value.symbol == demanded && forall j :: 0 <= j < i ==> results[1..][j].symbol != demanded;
        assert results[i + 1] == rest.value;
        rest
      else
        rest
  }

  /** How one upstream response resolves a fetch of `demanded`. */
  function Resolve(demanded: string, response: QuoteResponse): (r: Result<Quote, FetchError>)
    ensures r.Success? ==> r.value.symbol == demanded
    ensures response.Direct? ==>
      (r.Success? <==> response.quote.symbol == demanded) && (r.Success? ==> r.value == response.quote)
    ensures response.Partial? ==>
      (r.Success? <==> exists i :: 0 <= i < |response.results| && response.results[i].symbol == demanded) &&
      (r.Success? ==> Some(r.value) == FirstQuote(response.results, demanded)) &&
      (r.Failure? ==> r.error == NoResults(demanded))
    ensures response.HardFailure? ==> r == Failure(Upstream(response.detail))
  {
    match response
    case Direct(q) => if q.symbol == demanded then Success(q) else Failure(SymbolMismatch)
    case Partial(results) =>
      (match FirstQuote(results, demanded)
       case Some(q) => Success(q)
       case None => Failure(NoResults(demanded)))
    case HardFailure(detail) => Failure(Upstream(detail))
  }

  /** What the fetch of `demanded` returns, given the cache and the provider. */
  function Lookup(entries: Entries, now: int, demanded: string, provider: string -> QuoteResponse): (r: Result<Quote, FetchError>)
    requires WellKeyed(entries)
    ensures r.Success? ==> r.value.symbol == demanded
    ensures TtlCache.Live(entries, QuoteKey(demanded), now) ==> r == Success(entries[QuoteKey(demanded)].value.quote)
    ensures !TtlCache.Live(entries, QuoteKey(demanded), now) ==> r == Resolve(demanded, provider(demanded))
  {
    match TtlCache.Get(entries, QuoteKey(demanded), now)
    case Some(v) =>
      QuoteKeyIsQuoteKey(demanded);
      QuoteKeyInjective(v.quote.symbol, demanded);
      Success(v.quote)
    case None => Resolve(demanded, provider(demanded))
  }

  /** The cache after the fetch of `demanded`: a fresh result is stored under its quote key. */
  function AfterFetch(entries: Entries, now: int, demanded: string, provider: string -> QuoteResponse): Entries
    requires WellKeyed(entries)
  {
    if TtlCache.Live(entries, QuoteKey(demanded), now) then entries
    else match Resolve(demanded, provider(demanded))
      case Success(q) => TtlCache.Set(entries, QuoteKey(demanded), QuoteValue(q), now, QuoteTtlSeconds)
      case Failure(_) => entries
  }

  lemma AfterFetchWellKeyed(entries: Entries, now: int, demanded: string, provider: string -> QuoteResponse)
    requires WellKeyed(entries)
    ensures WellKeyed(AfterFetch(entries, now, demanded, provider))
  {
    QuoteKeyIsQuoteKey(demanded);
  }

  /**
   * A successful fetch is served from the cache for the next 60 seconds, whatever the provider
   * would answer then.
   */
  lemma RefetchIsCacheHit(entries: Entries, now: int, demanded: string, provider: string -> QuoteResponse,
                          later: int, provider2: string -> QuoteResponse)
    requires WellKeyed(entries)
    requires Lookup(entries, now, demanded, provider).Success?
    requires now <= later <= now + QuoteTtlSeconds * 1000
    requires !TtlCache.Live(entries, QuoteKey(demanded), now) || later <= entries[QuoteKey(demanded)].expires
    ensures WellKeyed(AfterFetch(entries, now, demanded, provider))
    ensures Lookup(AfterFetch(entries, now, demanded, provider), later, demanded, provider2)
         == Lookup(entries, now, demanded, provider)
  {
    AfterFetchWellKeyed(entries, now, demanded, provider);
  }

  /** A fetch of one symbol does not change what a fetch of any other symbol returns. */
  lemma AfterFetchKeepsOthers(entries: Entries, now: int, demanded: string, provider: string -> QuoteResponse,
                              other: string, t: int, provider2: string -> QuoteResponse)
    requires WellKeyed(entries) && other != demanded
    ensures WellKeyed(AfterFetch(entries, now, demanded, provider))
    ensures Lookup(AfterFetch(entries, now, demanded, provider), t, other, provider2) == Lookup(entries, t, other, provider2)
  {
    AfterFetchWellKeyed(entries, now, demanded, provider);
    QuoteKeyInjective(demanded, other);
  }

  /**
   * At the same instant and with the same provider a fetch changes nothing any fetch returns: a
   * hit leaves the cache as it was and a fresh result is stored under the demanded symbol's key.
   */
  lemma AfterFetchTransparent(entries: Entries, now: int, demanded: string, provider: string -> QuoteResponse, other: string)
    requires WellKeyed(entries)
    ensures WellKeyed(AfterFetch(entries, now, demanded, provider))
    ensures Lookup(AfterFetch(entries, now, demanded, provider), now, other, provider) == Lookup(entries, now, other, provider)
  {
    AfterFetchWellKeyed(entries, now, demanded, provider);
    if other != demanded {
      AfterFetchKeepsOthers(entries, now, demanded, provider, other, now, provider);
    } else if Lookup(entries, now, demanded, provider).Success? {
      RefetchIsCacheHit(entries, now, demanded, provider, now, provider);
    }
  }

  /** Fetching any symbols in turn at one instant changes nothing any fetch at that instant returns. */
  lemma {:induction false} AfterFetchAllTransparent(entries: Entries, now: int, symbols: seq<string>,
                                                    provider: string -> QuoteResponse, other: string)
    requires WellKeyed(entries)
    ensures Lookup(AfterFetchAll(entries, now, symbols, provider), now, other, provider) == Lookup(entries, now, other, provider)
  {
    if symbols != [] {
      var init := symbols[..|symbols| - 1];
      AfterFetchAllTransparent(entries, now, init, provider, other);
      AfterFetchTransparent(AfterFetchAll(entries, now, init, provider), now, symbols[|symbols| - 1], provider, other);
    }
  }

  /** `Promise.all`: every value in order when all succeed, otherwise the first failure in order. */
  function Combine(results: seq<Result<Quote, FetchError>>): (r: Result<seq<Quote>, FetchError>)
    ensures r.Success? <==> forall i :: 0 <= i < |results| ==> results[i].Success?
    ensures r.Success? ==> |r.value| == |results| && forall i :: 0 <= i < |results| ==> r.value[i] == results[i].value
    ensures r.Failure? ==> exists i :: (0 <= i < |results| && results[i] == Failure(r.error)
      && forall j :: 0 <= j < i ==> results[j].Success?)
  {
    if results == [] then Success([])
    else
      var init := results[..|results| - 1];
      var last := results[|results| - 1];
      assert forall i :: 0 <= i < |init| ==> init[i] == results[i];
      match Combine(init)
      case Failure(e) => Failure(e)
      case Success(vs) => if last.Success? then Success(vs + [last.value]) else Failure(last.error)
  }

  /** What each fetch of `symbols` would return against the same cache. */
  function LookupEach(entries: Entries, now: int, symbols: seq<string>, provider: string -> QuoteResponse): (r: seq<Result<Quote, FetchError>>)
    requires WellKeyed(entries)
    ensures |r| == |symbols|
    ensures forall i :: 0 <= i < |symbols| ==> r[i] == Lookup(entries, now, symbols[i], provider)
  {
    seq(|symbols|, i requires 0 <= i < |symbols| => Lookup(entries, now, symbols[i], provider))
  }

  /** The cache after fetching `symbols` one after the other. */
  function AfterFetchAll(entries: Entries, now: int, symbols: seq<string>, provider: string -> QuoteResponse): (r: Entries)
    requires WellKeyed(entries)
    ensures WellKeyed(r)
  {
    if symbols == [] then entries
    else
      var mid := AfterFetchAll(entries, now, symbols[..|symbols| - 1], provider);
      AfterFetchWellKeyed(mid, now, symbols[|symbols| - 1], provider);
      AfterFetch(mid, now, symbols[|symbols| - 1], provider)
  }

  /**
   * Fetching some symbols leaves what a fetch of any symbol not among them returns unchanged; this
   * is why fetching distinct symbols in sequence agrees with starting all fetches at once.
   */
  lemma {:induction false} AfterFetchAllKeepsOthers(entries: Entries, now: int, symbols: seq<string>,
                                                    provider: string -> QuoteResponse, other: string)
    requires WellKeyed(entries) && other !in symbols
    ensures Lookup(AfterFetchAll(entries, now, symbols, provider), now, other, provider) == Lookup(entries, now, other, provider)
  {
    if symbols != [] {
      var init := symbols[..|symbols| - 1];
      forall k | 0 <= k < |init| ensures init[k] != other {
        assert init[k] == symbols[k];
      }
      AfterFetchAllKeepsOthers(entries, now, init, provider, other);
      AfterFetchKeepsOthers(AfterFetchAll(entries, now, init, provider), now, symbols[|symbols| - 1], provider, other, now, provider);
    }
  }

  /** One step of fetching distinct symbols in turn: the next fetch sees the starting cache. */
  lemma FetchStep(start: Entries, now: int, symbols: seq<string>, i: nat, provider: string -> QuoteResponse)
    requires WellKeyed(start) && Seqs.Distinct(symbols) && i < |symbols|
    ensures WellKeyed(AfterFetchAll(start, now, symbols[..i], provider))
    ensures Lookup(AfterFetchAll(start, now, symbols[..i], provider), now, symbols[i], provider)
         == Lookup(start, now, symbols[i], provider)
    ensures AfterFetchAll(start, now, symbols[..i + 1], provider)
         == AfterFetch(AfterFetchAll(start, now, symbols[..i], provider), now, symbols[i], provider)
    ensures LookupEach(start, now, symbols[..i + 1], provider)
         == LookupEach(start, now, symbols[..i], provider) + [Lookup(start, now, symbols[i], provider)]
  {
    assert symbols[..i + 1][..i] == symbols[..i];
    forall k | 0 <= k < i ensures symbols[..i][k] != symbols[i] {
      assert symbols[..i][k] == symbols[k];
    }
    AfterFetchAllKeepsOthers(start, now, symbols[..i], provider, symbols[i]);
  }

  /** Appending one result to `Promise.all`'s input. */
  lemma CombineSnoc(results: seq<Result<Quote, FetchError>>, x: Result<Quote, FetchError>)
    ensures Combine(results + [x]) == match Combine(results)
      case Failure(e) => Failure(e)
      case Success(vs) => if x.Success? then Success(vs + [x.value]) else Failure(x.error)
  {
    assert (results + [x])[..|results|] == results;
  }

  /** The price of a symbol as a fetch would return it, zero when the fetch fails. */
  ghost function QuotePrice(entries: Entries, now: int, provider: string -> QuoteResponse): string -> real
    requires WellKeyed(entries)
  {
    s => match Lookup(entries, now, s, provider)
         case Success(q) => q.price
         case Failure(_) => 0.0
  }

  /** The previous close of a symbol as a fetch would return it, zero when the fetch fails. */
  ghost function QuotePreviousClose(entries: Entries, now: int, provider: string -> QuoteResponse): string -> real
    requires WellKeyed(entries)
  {
    s => match Lookup(entries, now, s, provider)
         case Success(q) => q.previousClose
         case Failure(_) => 0.0
  }

  // ---------------------------------------------------------------- historical series

  datatype Term = Short | Long

  /** `"1d"`, `"5d"` and `"1m"` are short term (intraday data); every other period is long term. */
  function PeriodTerm(period: Option<string>): (t: Term)
    ensures t == Short <==> period.None? || period.value in {"1d", "5d", "1m"}
  {
    var p := if period.Some? then period.value else "1d";
    if p == "1d" || p == "5d" || p == "1m" then Short else Long
  }

  function TermName(t: Term): string
  {
    match t
    case Short => "short"
    case Long => "long"
  }

  function HistoricalKey(symbol: string, t: Term): string
  {
    symbol + "-historical-" + TermName(t)
  }

  /** Distinct (symbol, term) pairs get distinct keys, and no history key is a quote key. */
  lemma HistoricalKeyDistinct(a: string, s: Term, b: string, t: Term)
    ensures HistoricalKey(a, s) == HistoricalKey(b, t) <==> a == b && s == t
    ensures !IsQuoteKey(HistoricalKey(a, s))
  {
    var ka := HistoricalKey(a, s);
    var kb := HistoricalKey(b, t);
    assert ka[|ka| - 1] == (if s == Short then 't' else 'g');
    assert kb[|kb| - 1] == (if t == Short then 't' else 'g');
    if ka == kb {
      assert a == ka[..|a|];
      assert b == kb[..|b|];
    }
  }

  /** The intraday provider: request failed, answer without a `Time Series (15min)`, or the series. */
  datatype IntradayResponse = IntradayFailed | NoSeries | Series(points: seq<Point>)

  /** The daily-history provider: request failed or the daily closes. */
  datatype DailyResponse = DailyFailed | Daily(points: seq<Point>)

  function ByTime(p: Point): real
  {
    p.time as real
  }

  /** The result of a history request and the cache after it. */
  datatype HistoricalOutcome = HistoricalOutcome(series: Option<seq<Point>>, entries: Entries)

  /**
   * A history request: a live cache entry under the term's key is returned; otherwise the short
   * term reads intraday data sorted by time, falling back to the long-term path when no series
   * came back, and the long term reads daily data; a fresh series is stored under the key of the
   * term that produced it; every failure yields no series.
   */
  function Historical(entries: Entries, now: int, symbol: string, t: Term,
                      intraday: string -> IntradayResponse, daily: string -> DailyResponse): (r: HistoricalOutcome)
    requires WellKeyed(entries)
    ensures WellKeyed(r.entries)
    ensures TtlCache.Live(entries, HistoricalKey(symbol, t), now) ==>
      entries[HistoricalKey(symbol, t)].value.SeriesValue? &&
      r == HistoricalOutcome(Some(entries[HistoricalKey(symbol, t)].value.points), entries)
    ensures !TtlCache.Live(entries, HistoricalKey(symbol, t), now) && t == Short && intraday(symbol).Series? ==>
      r.series.Some? && Sorting.SortedBy(r.series.value, ByTime)
      && multiset(r.series.value) == multiset(intraday(symbol).points)
      && r.entries == TtlCache.Set(entries, HistoricalKey(symbol, Short), SeriesValue(r.series.value), now, QuoteTtlSeconds)
    ensures !TtlCache.Live(entries, HistoricalKey(symbol, t), now) && t == Short && intraday(symbol).IntradayFailed? ==>
      r == HistoricalOutcome(None, entries)
    ensures !TtlCache.Live(entries, HistoricalKey(symbol, t), now) && t == Short && intraday(symbol).NoSeries? ==>
      r == Historical(entries, now, symbol, Long, intraday, daily)
    ensures !TtlCache.Live(entries, HistoricalKey(symbol, t), now) && t == Long && daily(symbol).Daily? ==>
      r.series == Some(daily(symbol).points)
      && r.entries == TtlCache.Set(entries, HistoricalKey(symbol, Long), SeriesValue(daily(symbol).points), now, QuoteTtlSeconds)
    ensures !TtlCache.Live(entries, HistoricalKey(symbol, t), now) && t == Long && daily(symbol).DailyFailed? ==>
      r == HistoricalOutcome(None, entries)
    ensures r.series.None? ==> r.entries == entries
    decreases if t == Short then 1 else 0
  {
    var key := HistoricalKey(symbol, t);
    HistoricalKeyDistinct(symbol, t, symbol, t);
    if TtlCache.Live(entries, key, now) then
      HistoricalOutcome(Some(entries[key].value.points), entries)
    else
      match t
      case Short =>
        (match intraday(symbol)
         case IntradayFailed => HistoricalOutcome(None, entries)
         case NoSeries => Historical(entries, now, symbol, Long, intraday, daily)
         case Series(points) =>
           var sorted := Sorting.SortBy(points, ByTime);
           HistoricalOutcome(Some(sorted), TtlCache.Set(entries, key, SeriesValue(sorted), now, QuoteTtlSeconds)))
      case Long =>
        (match daily(symbol)
         case DailyFailed => HistoricalOutcome(None, entries)
         case Daily(points) => HistoricalOutcome(Some(points), TtlCache.Set(entries, key, SeriesValue(points), now, QuoteTtlSeconds)))
  }

  /** The cache shared by every controller of the server. */
  class StockCache {
    var entries: Entries

    ghost predicate Valid()
      reads this
    {
      WellKeyed(entries)
    }

    constructor()
      ensures Valid() && entries == map[]
    {
      entries := map[];
    }

    /** The `for ... of` scan over the `result` array of a failed call. */
    static method ScanResults(results: seq<Quote>, demanded: string) returns (found: Option<Quote>)
      ensures found == FirstQuote(results, demanded)
    {
      var i := 0;
      while i < |results|
        invariant 0 <= i <= |results|
        invariant forall j :: 0 <= j < i ==> results[j].symbol != demanded
        invariant FirstQuote(results, demanded) == FirstQuote(results[i..], demanded)
      {
        if results[i].symbol == demanded {
          return Some(results[i]);
        }
        assert results[i..][1..] == results[i + 1..];
        i := i + 1;
      }
      return None;
    }

    /**
     * `fetchStockData`: a live cached quote is returned without calling the provider; otherwise
     * the provider's answer is resolved against the demanded symbol and a match is cached.
     */
    method FetchStockData(demanded: string, provider: string -> QuoteResponse, now: int)
      returns (r: Result<Quote, FetchError>, called: bool)
      requires Valid()
      modifies this
      ensures Valid()
      ensures r == Lookup(old(entries), now, demanded, provider)
      ensures called <==> !TtlCache.Live(old(entries), QuoteKey(demanded), now)
      ensures entries == AfterFetch(old(entries), now, demanded, provider)
    {
      var cached := TtlCache.Get(entries, QuoteKey(demanded), now);
      if cached.Some? {
        QuoteKeyIsQuoteKey(demanded);
        return Success(cached.value.quote), false;
      }
      called := true;
      match provider(demanded)
      case Direct(q) =>
        if demanded != q.symbol {
          r := Failure(SymbolMismatch);
          return;
        }
        entries := TtlCache.Set(entries, QuoteKey(q.symbol), QuoteValue(q), now, QuoteTtlSeconds);
        r := Success(q);
      case Partial(results) =>
        var found := ScanResults(results, demanded);
        if found.Some? {
          entries := TtlCache.Set(entries, QuoteKey(found.value.symbol), QuoteValue(found.value), now, QuoteTtlSeconds);
          r := Success(found.value);
        } else {
          r := Failure(NoResults(demanded));
        }
      case HardFailure(detail) =>
        r := Failure(Upstream(detail));
      QuoteKeyIsQuoteKey(demanded);
    }

    /**
     * `Promise.all(symbols.map(fetchStockData))` over distinct symbols: every fetch runs, the
     * result is every quote in order or the first failure in order.
     */
    method FetchEach(symbols: seq<string>, provider: string -> QuoteResponse, now: int)
      returns (r: Result<seq<Quote>, FetchError>)
      requires Valid() && Seqs.Distinct(symbols)
      modifies this
      ensures Valid()
      ensures r == Combine(LookupEach(old(entries), now, symbols, provider))
      ensures entries == AfterFetchAll(old(entries), now, symbols, provider)
    {
      ghost var start := entries;
      var acc: Result<seq<Quote>, FetchError> := Success([]);
      var i := 0;
      while i < |symbols|
        invariant 0 <= i <= |symbols|
        invariant Valid()
        invariant entries == AfterFetchAll(start, now, symbols[..i], provider)
        invariant acc == Combine(LookupEach(start, now, symbols[..i], provider))
      {
        FetchStep(start, now, symbols, i, provider);
        CombineSnoc(LookupEach(start, now, symbols[..i], provider), Lookup(start, now, symbols[i], provider));
        var one, _ := FetchStockData(symbols[i], provider, now);
        if acc.Success? {
          if one.Success? {
            acc := Success(acc.value + [one.value]);
          } else {
            acc := Failure(one.error);
          }
        }
        i := i + 1;
      }
      assert symbols[..i] == symbols;
      r := acc;
    }

    /** `fetchHistoricalStockData(symbol, period)`, with the period defaulting to `"1d"`. */
    method FetchHistoricalStockData(symbol: string, period: Option<string>,
                                    intraday: string -> IntradayResponse, daily: string -> DailyResponse, now: int)
      returns (r: Option<seq<Point>>)
      requires Valid()
      modifies this
      ensures Valid()
      ensures r == Historical(old(entries), now, symbol, PeriodTerm(period), intraday, daily).series
      ensures entries == Historical(old(entries), now, symbol, PeriodTerm(period), intraday, daily).entries
      decreases if PeriodTerm(period) == Short then 1 else 0
    {
      var term := PeriodTerm(period);
      var key := HistoricalKey(symbol, term);
      HistoricalKeyDistinct(symbol, term, symbol, term);
      if TtlCache.Live(entries, key, now) {
        return Some(entries[key].value.points);
      }
      if term == Short {
        match intraday(symbol)
        case IntradayFailed =>
          return None;
        case NoSeries =>
          r := FetchHistoricalStockData(symbol, Some("6m"), intraday, daily, now);
        case Series(points) =>
          var formatted := Sorting.SortBy(points, ByTime);
          entries := TtlCache.Set(entries, key, SeriesValue(formatted), now, QuoteTtlSeconds);
          r := Some(formatted);
      } else {
        match daily(symbol)
        case DailyFailed =>
          return None;
        case Daily(points) =>
          entries := TtlCache.Set(entries, key, SeriesValue(points), now, QuoteTtlSeconds);
          r := Some(points);
      }
    }
  }

  // ---------------------------------------------------------------- search

  /** A search hit: the symbol and its `quoteType`, which may be missing. */
  datatype SearchQuote = SearchQuote(symbol: string, quoteType: Option<string>)

  /** The search provider: the quotes, or an error that may carry a `result.quotes` array. */
  datatype SearchResponse = Quotes(quotes: seq<SearchQuote>) | SearchFailed(partial: Option<seq<SearchQuote>>, detail: string)

  /** `searchStocks`: a failure that carries quotes still yields them; only a bare failure fails. */
  function SearchStocks(response: SearchResponse): (r: Result<seq<SearchQuote>, string>)
    ensures r.Failure? <==> response.SearchFailed? && response.partial.None?
    ensures r.Success? ==> r.value == (if response.Quotes? then response.quotes else response.partial.value)
  {
    match response
    case Quotes(quotes) => Success(quotes)
    case SearchFailed(partial, detail) =>
      if partial.Some? then Success(partial.value) else Failure(detail)
  }
}
