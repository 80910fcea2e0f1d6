/**
 * The leaderboard: every user's total (cash plus the market value of the positions) at the
 * quoted prices of all symbols anyone holds, sorted from the highest total down, behind a
 * whole-result cache with a time-to-live of ten minutes.
 */
module Leaderboard {
  import opened Wrappers
  import opened PositionBook
  import opened Accounts
  import Requests
  import Sorting
  import TtlCache
  import Seqs

  /** `STOTRA_LEADERBOARD_CACHE_TTL` at its default, in seconds. */
  const LeaderboardCacheTtlSeconds: nat := 600

  /** The one key the leaderboard cache uses. */
  const LeaderboardKey: string := "leaderboard"

  /** One row `{username, value}`. */
  datatype Entry = Entry(username: string, value: real)

  /** What `$unwind: "$positions"` yields: every position of every user, user by user. */
  function AllPositions(users: seq<Holder>): seq<Position>
  {
    if users == [] then [] else AllPositions(users[..|users| - 1]) + users[|users| - 1].positions
  }

  lemma SymbolsOfConcat(a: seq<Position>, b: seq<Position>)
    ensures SymbolsOf(a + b) == SymbolsOf(a) + SymbolsOf(b)
  {
    forall s | s in SymbolsOf(a + b) ensures s in SymbolsOf(a) + SymbolsOf(b) {
      var k :| 0 <= k < |a + b| && (a + b)[k].symbol == s;
      if k >= |a| { assert b[k - |a|].symbol == s; }
    }
    forall s | s in SymbolsOf(b) ensures s in SymbolsOf(a + b) {
      var k :| 0 <= k < |b| && b[k].symbol == s;
      assert (a + b)[k + |a|].symbol == s;
    }
    forall s | s in SymbolsOf(a) ensures s in SymbolsOf(a + b) {
      var k :| 0 <= k < |a| && a[k].symbol == s;
      assert (a + b)[k].symbol == s;
    }
  }

  /** The symbols `$group` collects are exactly the symbols some user holds. */
  lemma {:induction false} AllPositionsSymbols(users: seq<Holder>)
    ensures forall s :: s in SymbolsOf(AllPositions(users)) <==>
      exists i :: 0 <= i < |users| && s in SymbolsOf(users[i].positions)
  {
    if users != [] {
      var init := users[..|users| - 1];
      var last := users[|users| - 1];
      AllPositionsSymbols(init);
      SymbolsOfConcat(AllPositions(init), last.positions);
      forall s | s in SymbolsOf(AllPositions(users))
        ensures exists i :: 0 <= i < |users| && s in SymbolsOf(users[i].positions)
      {
        if s in SymbolsOf(AllPositions(init)) {
          var i :| 0 <= i < |init| && s in SymbolsOf(init[i].positions);
          assert users[i] == init[i];
        } else {
          assert s in SymbolsOf(users[|users| - 1].positions);
        }
      }
      forall s, i | 0 <= i < |users| && s in SymbolsOf(users[i].positions)
        ensures s in SymbolsOf(AllPositions(users))
      {
        if i < |init| {
          assert init[i] == users[i];
        }
      }
    }
  }

  /** A user's total: cash plus, over the positions, the price of the symbol times the quantity. */
  function Total(user: Holder, price: string -> real): real
  {
    user.cash + MarketValue(user.positions, price)
  }

  /** The rows in user order, as the `forEach` over the users pushes them. */
  function Values(users: seq<Holder>, price: string -> real): (r: seq<Entry>)
    ensures |r| == |users|
    ensures forall i :: 0 <= i < |users| ==> r[i] == Entry(users[i].username, Total(users[i], price))
  {
    if users == [] then []
    else
      var init := Values(users[..|users| - 1], price);
      assert forall i :: 0 <= i < |users| - 1 ==> users[..|users| - 1][i] == users[i];
      init + [Entry(users[|users| - 1].username, Total(users[|users| - 1], price))]
  }

  /** Totals only depend on the prices of symbols somebody holds. */
  lemma ValuesAgree(users: seq<Holder>, f: string -> real, g: string -> real)
    requires forall i, k :: 0 <= i < |users| && 0 <= k < |users[i].positions| ==>
      f(users[i].positions[k].symbol) == g(users[i].positions[k].symbol)
    ensures Values(users, f) == Values(users, g)
  {
    forall i | 0 <= i < |users| ensures Total(users[i], f) == Total(users[i], g) {
      MarketValueAgrees(users[i].positions, f, g);
    }
    assert forall i :: 0 <= i < |users| ==> Values(users, f)[i] == Values(users, g)[i];
  }

  /** The sort key of `(a, b) => b.value - a.value`: a larger total sorts first. */
  function Descending(e: Entry): real
  {
    -e.value
  }

  /** The rows after `userValues.sort(...)`: a rearrangement of them, totals never increasing. */
  function Ranked(users: seq<Holder>, price: string -> real): (r: seq<Entry>)
    ensures |r| == |users|
    ensures multiset(r) == multiset(Values(users, price))
    ensures forall i, j :: 0 <= i < j < |r| ==> r[i].value >= r[j].value
  {
    var sorted := Sorting.SortBy(Values(users, price), Descending);
    assert forall i, j :: 0 <= i < j < |sorted| ==> Descending(sorted[i]) <= Descending(sorted[j]);
    sorted
  }

  /** Every user has exactly their own row in the ranking, and every row is some user's. */
  lemma RankedRows(users: seq<Holder>, price: string -> real)
    ensures forall i :: 0 <= i < |users| ==> Entry(users[i].username, Total(users[i], price)) in Ranked(users, price)
    ensures forall e :: e in Ranked(users, price) ==>
      exists i :: 0 <= i < |users| && e == Entry(users[i].username, Total(users[i], price))
  {
    var v := Values(users, price);
    var r := Ranked(users, price);
    forall i | 0 <= i < |users| ensures Entry(users[i].username, Total(users[i], price)) in r {
      assert v[i] in multiset(v);
    }
    forall e | e in r ensures exists i :: 0 <= i < |users| && e == Entry(users[i].username, Total(users[i], price)) {
      assert e in multiset(r);
      assert e in v;
      var i :| 0 <= i < |v| && v[i] == e;
    }
  }

  /**
   * What `getLeaderboardTopN` resolves to, given the quote cache at the start: the first failed
   * fetch of a held symbol, or the ranking at the fetched prices.
   */
  ghost function Board(entries: Requests.Entries, now: int, users: seq<Holder>,
                       provider: string -> Requests.QuoteResponse): (r: Result<seq<Entry>, Requests.FetchError>)
    requires Requests.WellKeyed(entries)
    ensures r.Failure? <==>
      exists s :: s in SymbolsOf(AllPositions(users)) && Requests.Lookup(entries, now, s, provider).Failure?
    ensures r.Failure? ==>
      exists s :: s in SymbolsOf(AllPositions(users)) && Requests.Lookup(entries, now, s, provider) == Failure(r.error)
    ensures r.Success? ==> r.value == Ranked(users, Requests.QuotePrice(entries, now, provider))
  {
    var symbols := UniqueSymbols(AllPositions(users));
    var results := Requests.LookupEach(entries, now, symbols, provider);
    match Requests.Combine(results)
    case Failure(e) =>
      var i :| 0 <= i < |results| && results[i] == Failure(e) && forall j :: 0 <= j < i ==> results[j].Success?;
      assert symbols[i] in SymbolsOf(AllPositions(users));
      Failure(e)
    case Success(_) =>
      forall s | s in SymbolsOf(AllPositions(users)) ensures Requests.Lookup(entries, now, s, provider).Success? {
        var i :| 0 <= i < |symbols| && symbols[i] == s;
        assert results[i].Success?;
      }
      Success(Ranked(users, Requests.QuotePrice(entries, now, provider)))
  }

  /** Fetches made at the same instant before the leaderboard is computed do not change it. */
  lemma BoardAfterFetches(entries: Requests.Entries, now: int, symbols: seq<string>, users: seq<Holder>,
                          provider: string -> Requests.QuoteResponse)
    requires Requests.WellKeyed(entries)
    ensures Board(Requests.AfterFetchAll(entries, now, symbols, provider), now, users, provider)
         == Board(entries, now, users, provider)
  {
    var mid := Requests.AfterFetchAll(entries, now, symbols, provider);
    forall s ensures Requests.Lookup(mid, now, s, provider) == Requests.Lookup(entries, now, s, provider) {
      Requests.AfterFetchAllTransparent(entries, now, symbols, provider, s);
    }
    var held := UniqueSymbols(AllPositions(users));
    assert Requests.LookupEach(mid, now, held, provider) == Requests.LookupEach(entries, now, held, provider);
    ValuesAgree(users, Requests.QuotePrice(mid, now, provider), Requests.QuotePrice(entries, now, provider));
  }

  /** The price table `stockPrices`: one write per fetched quote, a later write winning. */
  function PriceTable(quotes: seq<Requests.Quote>): (r: map<string, real>)
    ensures forall s :: s in r <==> exists k :: 0 <= k < |quotes| && quotes[k].symbol == s
  {
    if quotes == [] then map[]
    else
      var init := quotes[..|quotes| - 1];
      var t := PriceTable(init);
      assert forall k :: 0 <= k < |init| ==> init[k] == quotes[k];
      t[quotes[|quotes| - 1].symbol := quotes[|quotes| - 1].price]
  }

  /** With distinct symbols every quote's own price is what the table holds for it. */
  lemma {:induction false} PriceTableDistinct(quotes: seq<Requests.Quote>, k: nat)
    requires forall i, j :: 0 <= i < j < |quotes| ==> quotes[i].symbol != quotes[j].symbol
    requires k < |quotes|
    ensures quotes[k].symbol in PriceTable(quotes) && PriceTable(quotes)[quotes[k].symbol] == quotes[k].price
  {
    var init := quotes[..|quotes| - 1];
    if k < |init| {
      assert init[k] == quotes[k];
      assert quotes[k].symbol != quotes[|quotes| - 1].symbol;
      PriceTableDistinct(init, k);
    }
  }

  /** A missing price reads as zero (it is `undefined`, and the product `NaN`, in the source). */
  function PriceIn(prices: map<string, real>): string -> real
  {
    s => if s in prices then prices[s] else 0.0
  }

  /** `stockDataPoints.forEach(...)`: fill the price table quote by quote. */
  method PriceMap(quotes: seq<Requests.Quote>) returns (prices: map<string, real>)
    ensures prices == PriceTable(quotes)
  {
    prices := map[];
    var i := 0;
    while i < |quotes|
      invariant 0 <= i <= |quotes|
      invariant prices == PriceTable(quotes[..i])
    {
      assert quotes[..i + 1][..i] == quotes[..i];
      prices := prices[quotes[i].symbol := quotes[i].price];
      i := i + 1;
    }
    assert quotes[..i] == quotes;
  }

  /** The nested `forEach`: each user's running `totalValue`, starting from the cash. */
  method UserValues(users: seq<Holder>, prices: map<string, real>) returns (values: seq<Entry>)
    ensures values == Values(users, PriceIn(prices))
  {
    values := [];
    var i := 0;
    while i < |users|
      invariant 0 <= i <= |users|
      invariant values == Values(users[..i], PriceIn(prices))
    {
      var user := users[i];
      var totalValue := user.cash;
      var j := 0;
      while j < |user.positions|
        invariant 0 <= j <= |user.positions|
        invariant totalValue == user.cash + MarketValue(user.positions[..j], PriceIn(prices))
      {
        var position := user.positions[j];
        var currentPrice := if position.symbol in prices then prices[position.symbol] else 0.0;
        assert user.positions[..j + 1][..j] == user.positions[..j];
        assert Worth(PriceIn(prices), position) == currentPrice * position.quantity;
        totalValue := totalValue + currentPrice * position.quantity;
        j := j + 1;
      }
      assert user.positions[..j] == user.positions;
      assert users[..i + 1][..i] == users[..i];
      values := values + [Entry(user.username, totalValue)];
      i := i + 1;
    }
    assert users[..i] == users;
  }

  /**
   * When every held symbol was fetched, the price table prices every held symbol as the fetch
   * did, so the totals are the totals at the fetched prices.
   */
  lemma TablePricesAgree(entries: Requests.Entries, now: int, users: seq<Holder>,
                         provider: string -> Requests.QuoteResponse, quotes: seq<Requests.Quote>)
    requires Requests.WellKeyed(entries)
    requires Requests.Combine(Requests.LookupEach(entries, now, UniqueSymbols(AllPositions(users)), provider)) == Success(quotes)
    ensures Values(users, PriceIn(PriceTable(quotes))) == Values(users, Requests.QuotePrice(entries, now, provider))
  {
    var symbols := UniqueSymbols(AllPositions(users));
    var results := Requests.LookupEach(entries, now, symbols, provider);
    var f := PriceIn(PriceTable(quotes));
    var g := Requests.QuotePrice(entries, now, provider);
    assert forall k :: 0 <= k < |quotes| ==> quotes[k].symbol == symbols[k];
    forall s | s in SymbolsOf(AllPositions(users)) ensures f(s) == g(s) {
      var k :| 0 <= k < |symbols| && symbols[k] == s;
      assert results[k] == Success(quotes[k]);
      PriceTableDistinct(quotes, k);
    }
    AllPositionsSymbols(users);
    forall i, k | 0 <= i < |users| && 0 <= k < |users[i].positions|
      ensures f(users[i].positions[k].symbol) == g(users[i].positions[k].symbol)
    {
      assert users[i].positions[k].symbol in SymbolsOf(users[i].positions);
    }
    ValuesAgree(users, f, g);
  }

  /**
   * `getLeaderboardTopN(n)`: fetch every held symbol once, price every user, sort. The count `n`
   * is not used: the whole list is the answer.
   */
  method GetLeaderboardTopN(n: int, stocks: Requests.StockCache, users: seq<Holder>,
                            provider: string -> Requests.QuoteResponse, now: int)
    returns (r: Result<seq<Entry>, Requests.FetchError>)
    requires stocks.Valid()
    modifies stocks
    ensures stocks.Valid()
    ensures stocks.entries == Requests.AfterFetchAll(old(stocks.entries), now, UniqueSymbols(AllPositions(users)), provider)
    ensures r == Board(old(stocks.entries), now, users, provider)
  {
    ghost var start := stocks.entries;
    var uniqueSymbols := UniqueSymbols(AllPositions(users));
    var stockDataPoints := stocks.FetchEach(uniqueSymbols, provider, now);
    if stockDataPoints.Failure? {
      return Failure(stockDataPoints.error);
    }
    var stockPrices := PriceMap(stockDataPoints.value);
    var userValues := UserValues(users, stockPrices);
    TablePricesAgree(start, now, users, provider, stockDataPoints.value);
    r := Success(Sorting.SortBy(userValues, Descending));
  }

  /** The module-level cache of `getLeaderboard`, holding at most the one key `"leaderboard"`. */
  class LeaderboardCache {
    var board: map<string, TtlCache.Stamped<seq<Entry>>>

    constructor()
      ensures board == map[]
    {
      board := map[];
    }

    /**
     * `getLeaderboard`: a live cached list is answered as it is; otherwise the list is computed,
     * stored for ten minutes when the computation succeeded, and answered.
     */
    method GetLeaderboard(stocks: Requests.StockCache, users: seq<Holder>,
                          provider: string -> Requests.QuoteResponse, now: int)
      returns (r: Result<seq<Entry>, Requests.FetchError>, computed: bool)
      requires stocks.Valid()
      modifies this, stocks
      ensures stocks.Valid()
      ensures computed <==> !TtlCache.Live(old(board), LeaderboardKey, now)
      ensures !computed ==>
        r == Success(old(board)[LeaderboardKey].value) && board == old(board) && stocks.entries == old(stocks.entries)
      ensures computed ==> r == Board(old(stocks.entries), now, users, provider)
      ensures computed ==>
        stocks.entries == Requests.AfterFetchAll(old(stocks.entries), now, UniqueSymbols(AllPositions(users)), provider)
      ensures computed && r.Success? ==>
        board == TtlCache.Set(old(board), LeaderboardKey, r.value, now, LeaderboardCacheTtlSeconds)
      ensures computed && r.Failure? ==> board == old(board)
    {
      var cached := TtlCache.Get(board, LeaderboardKey, now);
      if cached.Some? {
        return Success(cached.value), false;
      }
      computed := true;
      r := GetLeaderboardTopN(-1, stocks, users, provider, now);
      if r.Success? {
        board := TtlCache.Set(board, LeaderboardKey, r.value, now, LeaderboardCacheTtlSeconds);
      }
    }
  }

  /** A list stored by a miss is what every call in the next ten minutes answers. */
  lemma StoredBoardIsServed(board: map<string, TtlCache.Stamped<seq<Entry>>>, rows: seq<Entry>, now: int, later: int)
    requires now <= later <= now + LeaderboardCacheTtlSeconds * 1000
    ensures TtlCache.Live(TtlCache.Set(board, LeaderboardKey, rows, now, LeaderboardCacheTtlSeconds), LeaderboardKey, later)
    ensures TtlCache.Set(board, LeaderboardKey, rows, now, LeaderboardCacheTtlSeconds)[LeaderboardKey].value == rows
  {
    assert TtlCache.Get(TtlCache.Set(board, LeaderboardKey, rows, now, LeaderboardCacheTtlSeconds), LeaderboardKey, later) == Some(rows);
  }
}
