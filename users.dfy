/**
 * The portfolio view of one user (deduplicated holdings, the live and previous-close valuation
 * sums, the positions enriched with their quotes, the leaderboard rank) and the two watchlist
 * edits.
 */
module Users {
  import opened Wrappers
  import opened PositionBook
  import opened Accounts
  import Requests
  import Leaderboard
  import Seqs

  // ---------------------------------------------------------------- watchlist

  /** The watchlist with every occurrence of `symbol` dropped, the others kept in order. */
  function Without(watchlist: seq<string>, symbol: string): (r: seq<string>)
    ensures symbol !in r
    ensures forall s :: s in r <==> s in watchlist && s != symbol
  {
    Seqs.Filter(watchlist, s => s != symbol)
  }

  /** `addToWatchlist`: a symbol already listed is refused; otherwise it is appended once. */
  method AddToWatchlist(user: User, symbol: string) returns (added: bool)
    modifies user
    ensures added <==> symbol !in old(user.watchlist)
    ensures added ==> user.watchlist == old(user.watchlist) + [symbol]
    ensures !added ==> user.watchlist == old(user.watchlist)
    ensures user.username == old(user.username) && user.cash == old(user.cash)
    ensures user.positions == old(user.positions) && user.ledger == old(user.ledger)
  {
    if symbol in user.watchlist {
      return false;
    }
    user.watchlist := user.watchlist + [symbol];
    added := true;
  }

  /** `removeFromWatchlist`: a symbol not listed is refused; otherwise all its occurrences go. */
  method RemoveFromWatchlist(user: User, symbol: string) returns (removed: bool)
    modifies user
    ensures removed <==> symbol in old(user.watchlist)
    ensures removed ==> user.watchlist == Without(old(user.watchlist), symbol)
    ensures !removed ==> user.watchlist == old(user.watchlist)
    ensures user.username == old(user.username) && user.cash == old(user.cash)
    ensures user.positions == old(user.positions) && user.ledger == old(user.ledger)
  {
    if symbol in user.watchlist {
      user.watchlist := Without(user.watchlist, symbol);
      removed := true;
    } else {
      removed := false;
    }
  }

  /**
   * Adding a symbol that was not listed and removing it again gives back the same list; a list
   * without repeats keeps none after an add.
   */
  lemma AddThenRemove(watchlist: seq<string>, symbol: string)
    requires symbol !in watchlist
    ensures Without(watchlist + [symbol], symbol) == watchlist
    ensures Seqs.Distinct(watchlist) ==> Seqs.Distinct(watchlist + [symbol])
  {
    Seqs.FilterConcat(watchlist, [symbol], s => s != symbol);
    Seqs.FilterKeepsAll(watchlist, s => s != symbol);
    assert Seqs.Filter([symbol], s => s != symbol) == [];
  }

  /** Removing a symbol never leaves it listed, and stops at that: a second removal is refused. */
  lemma RemoveIsComplete(watchlist: seq<string>, symbol: string, other: string)
    requires other != symbol
    ensures symbol !in Without(watchlist, symbol)
    ensures other in Without(watchlist, symbol) <==> other in watchlist
    ensures Without(Without(watchlist, symbol), symbol) == Without(watchlist, symbol)
  {
    Seqs.FilterKeepsAll(Without(watchlist, symbol), s => s != symbol);
  }

  // ---------------------------------------------------------------- portfolio

  /**
   * The `positionsNoDupes` loop. A key whose sum is truthy is added to; any other is set to the
   * quantity, and a key is appended to the key order when it is first set. A sum that became zero
   * is overwritten by the next quantity, which is the same as adding it to zero.
   */
  method DedupePositions(positions: seq<Position>)
    returns (totals: map<string, real>, symbols: seq<string>, quantities: seq<real>)
    ensures totals.Keys == SymbolsOf(positions)
    ensures forall s :: s in totals ==> totals[s] == SymbolTotal(positions, s)
    ensures symbols == UniqueSymbols(positions)
    ensures |quantities| == |symbols|
    ensures forall k :: 0 <= k < |symbols| ==> quantities[k] == SymbolTotal(positions, symbols[k])
  {
    totals := map[];
    symbols := [];
    var i := 0;
    while i < |positions|
      invariant 0 <= i <= |positions|
      invariant Tallies(positions[..i], totals, symbols)
    {
      var position := positions[i];
      if position.symbol in totals && totals[position.symbol] != 0.0 {
        TallyAdd(positions, i, totals, symbols);
        totals := totals[position.symbol := totals[position.symbol] + position.quantity];
      } else {
        TallySet(positions, i, totals, symbols);
        if position.symbol !in totals {
          symbols := symbols + [position.symbol];
        }
        totals := totals[position.symbol := position.quantity];
      }
      i := i + 1;
    }
    assert positions[..i] == positions;
    quantities := seq(|symbols|, k requires 0 <= k < |symbols| => totals[symbols[k]]);
  }

  /** What the `positionsNoDupes` loop keeps of a prefix: one key per symbol, its total, and the key order. */
  ghost predicate Tallies(prefix: seq<Position>, totals: map<string, real>, symbols: seq<string>)
  {
    totals.Keys == SymbolsOf(prefix) &&
    (forall s :: s in totals ==> totals[s] == SymbolTotal(prefix, s)) &&
    symbols == UniqueSymbols(prefix)
  }

  /** Extending the prefix by one position adds its quantity to its own symbol's total only. */
  lemma TallyNext(positions: seq<Position>, i: nat)
    requires i < |positions|
    ensures SymbolsOf(positions[..i + 1]) == SymbolsOf(positions[..i]) + {positions[i].symbol}
    ensures forall s ::
      SymbolTotal(positions[..i + 1], s) == SymbolTotal(positions[..i], s) + (if positions[i].symbol == s then positions[i].quantity else 0.0)
    ensures UniqueSymbols(positions[..i + 1]) == (if positions[i].symbol in UniqueSymbols(positions[..i])
      then UniqueSymbols(positions[..i]) else UniqueSymbols(positions[..i]) + [positions[i].symbol])
  {
    var prefix := positions[..i + 1];
    assert prefix[..|prefix| - 1] == positions[..i];
    SymbolsOfSnoc(prefix);
    forall s ensures SymbolTotal(prefix, s) ==
      SymbolTotal(positions[..i], s) + (if positions[i].symbol == s then positions[i].quantity else 0.0)
    {
      SymbolTotalSnoc(positions, i, s);
    }
  }

  /** A key whose sum is truthy is added to. */
  lemma TallyAdd(positions: seq<Position>, i: nat, totals: map<string, real>, symbols: seq<string>)
    requires i < |positions| && Tallies(positions[..i], totals, symbols)
    requires positions[i].symbol in totals
    ensures Tallies(positions[..i + 1],
      totals[positions[i].symbol := totals[positions[i].symbol] + positions[i].quantity], symbols)
  {
    TallyNext(positions, i);
  }

  /** A key that is missing, or whose sum is zero, is set to the quantity and, when new, joins the key order. */
  lemma TallySet(positions: seq<Position>, i: nat, totals: map<string, real>, symbols: seq<string>)
    requires i < |positions| && Tallies(positions[..i], totals, symbols)
    requires positions[i].symbol !in totals || totals[positions[i].symbol] == 0.0
    ensures Tallies(positions[..i + 1], totals[positions[i].symbol := positions[i].quantity],
      if positions[i].symbol in totals then symbols else symbols + [positions[i].symbol])
  {
    TallyNext(positions, i);
    if positions[i].symbol !in totals {
      SymbolTotalAbsent(positions[..i], positions[i].symbol);
    }
  }

  function PriceOf(q: Requests.Quote): real
  {
    q.price
  }

  function PreviousCloseOf(q: Requests.Quote): real
  {
    q.previousClose
  }

  /** Sum over the fetched quotes of the chosen quote field times the matching quantity. */
  function QuoteSum(values: seq<Requests.Quote>, quantities: seq<real>, field: Requests.Quote -> real): real
    requires |values| == |quantities|
  {
    if values == [] then 0.0
    else QuoteSum(values[..|values| - 1], quantities[..|quantities| - 1], field)
         + field(values[|values| - 1]) * quantities[|quantities| - 1]
  }

  /** `values.forEach(...)`: both running sums in one pass. Cash is not part of either. */
  method ValuationSums(values: seq<Requests.Quote>, quantities: seq<real>)
    returns (portfolioValue: real, portfolioPrevCloseValue: real)
    requires |values| == |quantities|
    ensures portfolioValue == QuoteSum(values, quantities, PriceOf)
    ensures portfolioPrevCloseValue == QuoteSum(values, quantities, PreviousCloseOf)
  {
    portfolioValue := 0.0;
    portfolioPrevCloseValue := 0.0;
    var i := 0;
    while i < |values|
      invariant 0 <= i <= |values|
      invariant portfolioValue == QuoteSum(values[..i], quantities[..i], PriceOf)
      invariant portfolioPrevCloseValue == QuoteSum(values[..i], quantities[..i], PreviousCloseOf)
    {
      assert values[..i + 1][..i] == values[..i];
      assert quantities[..i + 1][..i] == quantities[..i];
      portfolioValue := portfolioValue + values[i].price * quantities[i];
      portfolioPrevCloseValue := portfolioPrevCloseValue + values[i].previousClose * quantities[i];
      i := i + 1;
    }
    assert values[..i] == values;
    assert quantities[..i] == quantities;
  }

  /**
   * Summing quote field times aggregate quantity over the distinct symbols is the deduplicated
   * value at the prices the quotes carry.
   */
  lemma {:induction false} QuoteSumIsDeduped(symbols: seq<string>, values: seq<Requests.Quote>, quantities: seq<real>,
                                             field: Requests.Quote -> real, price: string -> real, ps: seq<Position>)
    requires |values| == |symbols| && |quantities| == |symbols|
    requires forall k :: 0 <= k < |symbols| ==> field(values[k]) == price(symbols[k])
    requires forall k :: 0 <= k < |symbols| ==> quantities[k] == SymbolTotal(ps, symbols[k])
    ensures QuoteSum(values, quantities, field) == DedupedValue(symbols, price, ps)
  {
    if symbols != [] {
      var n := |symbols| - 1;
      assert forall k :: 0 <= k < n ==> values[..n][k] == values[k] && quantities[..n][k] == quantities[k];
      QuoteSumIsDeduped(symbols[..n], values[..n], quantities[..n], field, price, ps);
    }
  }

  /** One portfolio position: the position's own fields, overridden by every field of its quote. */
  datatype Holding = Holding(
    symbol: string,
    quantity: real,
    purchasePrice: real,
    purchaseDate: int,
    longName: Option<string>,
    price: real,
    previousClose: real,
    changePercent: real,
    quoteType: Option<string>,
    averageDailyVolume10Day: Option<real>)

  /** `{...position, ...quote}`: the only shared field is the symbol, which the quote supplies. */
  function Merge(p: Position, q: Requests.Quote): Holding
  {
    Holding(q.symbol, p.quantity, p.purchasePrice, p.purchaseDate,
            q.longName, q.price, q.previousClose, q.changePercent, q.quoteType, q.averageDailyVolume10Day)
  }

  /** Whether a position's symbol has a quote among the fetched values. */
  function HasQuote(values: seq<Requests.Quote>): Position -> bool
  {
    (p: Position) => Requests.FirstQuote(values, p.symbol).Some?
  }

  /** The list of positions with a matching quote, in position order, each merged with the first match. */
  function Enrich(ps: seq<Position>, values: seq<Requests.Quote>): (r: seq<Holding>)
    ensures |r| <= |ps|
    ensures forall h :: h in r ==> exists k :: (0 <= k < |ps| && Requests.FirstQuote(values, ps[k].symbol).Some?
      && h == Merge(ps[k], Requests.FirstQuote(values, ps[k].symbol).value))
    ensures (forall k :: 0 <= k < |ps| ==> Requests.FirstQuote(values, ps[k].symbol).Some?) ==>
      |r| == |ps| && forall k :: 0 <= k < |ps| ==> r[k] == Merge(ps[k], Requests.FirstQuote(values, ps[k].symbol).value)
  {
    if ps == [] then []
    else
      var n := |ps| - 1;
      var init := Enrich(ps[..n], values);
      assert forall k :: 0 <= k < n ==> ps[..n][k] == ps[k];
      match Requests.FirstQuote(values, ps[n].symbol)
      case Some(q) => init + [Merge(ps[n], q)]
      case None => init
  }

  /** `e` is `f` with every position merged with the first quote of its symbol, one for one and in order. */
  ghost predicate MergedFrom(e: seq<Holding>, f: seq<Position>, values: seq<Requests.Quote>)
  {
    |e| == |f| &&
    forall j :: 0 <= j < |f| ==>
      HasQuote(values)(f[j]) && e[j] == Merge(f[j], Requests.FirstQuote(values, f[j].symbol).value)
  }

  /**
   * In general, one record per position that has a quote, in position order: the enriched list is
   * the quoted positions, each merged with its first matching quote.
   */
  lemma {:induction false} EnrichMergesQuoted(ps: seq<Position>, values: seq<Requests.Quote>)
    ensures MergedFrom(Enrich(ps, values), Seqs.Filter(ps, HasQuote(values)), values)
  {
    if ps != [] {
      var n := |ps| - 1;
      var keep := HasQuote(values);
      EnrichMergesQuoted(ps[..n], values);
      assert ps == ps[..n] + [ps[n]];
      Seqs.FilterConcat(ps[..n], [ps[n]], keep);
      assert [ps[n]][1..] == [];
      EnrichSnoc(ps, n, values);
      assert ps[..n + 1] == ps;
      if keep(ps[n]) {
        var q := Requests.FirstQuote(values, ps[n].symbol).value;
        assert Seqs.Filter([ps[n]], keep) == [ps[n]];
        assert Seqs.Filter(ps, keep) == Seqs.Filter(ps[..n], keep) + [ps[n]];
        assert Enrich(ps, values) == Enrich(ps[..n], values) + [Merge(ps[n], q)];
        MergedSnoc(Enrich(ps[..n], values), Seqs.Filter(ps[..n], keep), ps[n], values);
      } else {
        assert Seqs.Filter(ps, keep) == Seqs.Filter(ps[..n], keep);
      }
    }
  }

  lemma MergedSnoc(e: seq<Holding>, f: seq<Position>, p: Position, values: seq<Requests.Quote>)
    requires MergedFrom(e, f, values) && HasQuote(values)(p)
    ensures MergedFrom(e + [Merge(p, Requests.FirstQuote(values, p.symbol).value)], f + [p], values)
  {
    var e' := e + [Merge(p, Requests.FirstQuote(values, p.symbol).value)];
    var f' := f + [p];
    forall j | 0 <= j < |f'|
      ensures HasQuote(values)(f'[j]) && e'[j] == Merge(f'[j], Requests.FirstQuote(values, f'[j].symbol).value)
    {
      if j < |f| {
        assert f'[j] == f[j] && e'[j] == e[j];
      }
    }
  }

  /** One position more: its merged record joins the end of the list when its symbol has a quote. */
  lemma EnrichSnoc(ps: seq<Position>, i: nat, values: seq<Requests.Quote>)
    requires i < |ps|
    ensures Enrich(ps[..i + 1], values) == Enrich(ps[..i], values) +
      (if Requests.FirstQuote(values, ps[i].symbol).Some?
       then [Merge(ps[i], Requests.FirstQuote(values, ps[i].symbol).value)] else [])
  {
    assert ps[..i + 1][..i] == ps[..i];
  }

  /** The `forEach` that pushes one merged record per position whose symbol has a fetched quote. */
  method EnrichPositions(ps: seq<Position>, values: seq<Requests.Quote>) returns (listOfPositions: seq<Holding>)
    ensures listOfPositions == Enrich(ps, values)
  {
    listOfPositions := [];
    var i := 0;
    while i < |ps|
      invariant 0 <= i <= |ps|
      invariant listOfPositions == Enrich(ps[..i], values)
    {
      EnrichSnoc(ps, i, values);
      var positionLiveData := Requests.FirstQuote(values, ps[i].symbol);
      if positionLiveData.Some? {
        listOfPositions := listOfPositions + [Merge(ps[i], positionLiveData.value)];
      }
      i := i + 1;
    }
    assert ps[..i] == ps;
  }

  /** `findIndex` on the username: the first matching index, or -1. */
  function FindUser(board: seq<Leaderboard.Entry>, username: string): (r: int)
    ensures -1 <= r < |board|
    ensures r == -1 <==> forall j :: 0 <= j < |board| ==> board[j].username != username
    ensures r != -1 ==> board[r].username == username && forall j :: 0 <= j < r ==> board[j].username != username
  {
    if board == [] then -1
    else if board[0].username == username then 0
    else
      var rest := FindUser(board[1..], username);
      assert forall j :: 1 <= j < |board| ==> board[j] == board[1..][j - 1];
      if rest == -1 then -1 else rest + 1
  }

  /** The rank: one more than the index found, or -1 when the user has no row. */
  function Rank(board: seq<Leaderboard.Entry>, username: string): (r: int)
    ensures r == -1 <==> forall j :: 0 <= j < |board| ==> board[j].username != username
    ensures r != -1 ==> (1 <= r <= |board| && board[r - 1].username == username
      && forall j :: 0 <= j < r - 1 ==> board[j].username != username)
  {
    var found := FindUser(board, username);
    if found != -1 then found + 1 else -1
  }

  /** The response `{portfolioValue, portfolioPrevCloseValue, positions, cash, rank}`. */
  datatype Portfolio = Portfolio(value: real, previousCloseValue: real, positions: seq<Holding>, cash: real, rank: int)

  /**
   * When every distinct symbol was fetched, each quote prices its symbol as the fetch did and
   * each position finds the quote of its own symbol.
   */
  lemma FetchedQuotes(entries: Requests.Entries, now: int, ps: seq<Position>,
                      provider: string -> Requests.QuoteResponse, values: seq<Requests.Quote>)
    requires Requests.WellKeyed(entries)
    requires Requests.Combine(Requests.LookupEach(entries, now, UniqueSymbols(ps), provider)) == Success(values)
    ensures |values| == |UniqueSymbols(ps)|
    ensures forall k :: 0 <= k < |values| ==>
      PriceOf(values[k]) == Requests.QuotePrice(entries, now, provider)(UniqueSymbols(ps)[k]) &&
      PreviousCloseOf(values[k]) == Requests.QuotePreviousClose(entries, now, provider)(UniqueSymbols(ps)[k])
    ensures forall k :: 0 <= k < |ps| ==>
      Requests.Lookup(entries, now, ps[k].symbol, provider).Success? &&
      Requests.FirstQuote(values, ps[k].symbol) == Some(Requests.Lookup(entries, now, ps[k].symbol, provider).value)
  {
    var symbols := UniqueSymbols(ps);
    var results := Requests.LookupEach(entries, now, symbols, provider);
    assert forall k :: 0 <= k < |values| ==> results[k] == Success(values[k]) && values[k].symbol == symbols[k];
    forall k | 0 <= k < |ps| ensures Requests.Lookup(entries, now, ps[k].symbol, provider).Success? &&
      Requests.FirstQuote(values, ps[k].symbol) == Some(Requests.Lookup(entries, now, ps[k].symbol, provider).value)
    {
      var s := ps[k].symbol;
      assert s in SymbolsOf(ps);
      var i :| 0 <= i < |symbols| && symbols[i] == s;
      assert results[i].Success?;
      var found := Requests.FirstQuote(values, s);
      assert found.Some?;
      var j :| 0 <= j < |values| && values[j] == found.value;
      assert symbols[j] == s;
    }
  }

  /**
   * The answer built from a successful fetch of every distinct symbol: the two deduplicated sums
   * are the book's market values at the quote prices and previous closes, and every position is
   * merged with its own quote.
   */
  lemma PortfolioFromQuotes(entries: Requests.Entries, now: int, ps: seq<Position>,
                            provider: string -> Requests.QuoteResponse, values: seq<Requests.Quote>, quantities: seq<real>)
    requires Requests.WellKeyed(entries)
    requires Requests.Combine(Requests.LookupEach(entries, now, UniqueSymbols(ps), provider)) == Success(values)
    requires |quantities| == |UniqueSymbols(ps)|
    requires forall k :: 0 <= k < |quantities| ==> quantities[k] == SymbolTotal(ps, UniqueSymbols(ps)[k])
    ensures |values| == |quantities|
    ensures QuoteSum(values, quantities, PriceOf) == MarketValue(ps, Requests.QuotePrice(entries, now, provider))
    ensures QuoteSum(values, quantities, PreviousCloseOf) == MarketValue(ps, Requests.QuotePreviousClose(entries, now, provider))
    ensures |Enrich(ps, values)| == |ps|
    ensures forall k :: 0 <= k < |ps| ==>
      Requests.Lookup(entries, now, ps[k].symbol, provider).Success? &&
      Enrich(ps, values)[k] == Merge(ps[k], Requests.Lookup(entries, now, ps[k].symbol, provider).value)
  {
    var symbols := UniqueSymbols(ps);
    FetchedQuotes(entries, now, ps, provider, values);
    QuoteSumIsDeduped(symbols, values, quantities, PriceOf, Requests.QuotePrice(entries, now, provider), ps);
    QuoteSumIsDeduped(symbols, values, quantities, PreviousCloseOf, Requests.QuotePreviousClose(entries, now, provider), ps);
    DedupedValueIsMarketValue(ps, Requests.QuotePrice(entries, now, provider));
    DedupedValueIsMarketValue(ps, Requests.QuotePreviousClose(entries, now, provider));
  }

  /**
   * What a successful answer for `holder` is, from the cache as it was before the call: the book's
   * market value at the quote prices and at the previous closes, every position merged with its
   * own quote, the user's cash, and the user's rank on the board of all users.
   */
  ghost predicate Describes(entries: Requests.Entries, now: int, holder: Holder, users: seq<Holder>,
                            provider: string -> Requests.QuoteResponse, p: Portfolio)
    requires Requests.WellKeyed(entries)
  {
    Leaderboard.Board(entries, now, users, provider).Success? &&
    p.value == MarketValue(holder.positions, Requests.QuotePrice(entries, now, provider)) &&
    p.previousCloseValue == MarketValue(holder.positions, Requests.QuotePreviousClose(entries, now, provider)) &&
    |p.positions| == |holder.positions| &&
    (forall k :: 0 <= k < |holder.positions| ==>
      Requests.Lookup(entries, now, holder.positions[k].symbol, provider).Success? &&
      p.positions[k] == Merge(holder.positions[k], Requests.Lookup(entries, now, holder.positions[k].symbol, provider).value)) &&
    p.cash == holder.cash &&
    p.rank == Rank(Leaderboard.Board(entries, now, users, provider).value, holder.username)
  }

  /** The pieces `getPortfolio` assembles from a successful fetch and a successful board make an answer it describes. */
  lemma AssembledPortfolio(entries: Requests.Entries, now: int, holder: Holder, users: seq<Holder>,
                           provider: string -> Requests.QuoteResponse, values: seq<Requests.Quote>, quantities: seq<real>,
                           board: seq<Leaderboard.Entry>, rank: int)
    requires Requests.WellKeyed(entries)
    requires Requests.Combine(Requests.LookupEach(entries, now, UniqueSymbols(holder.positions), provider)) == Success(values)
    requires |quantities| == |UniqueSymbols(holder.positions)|
    requires forall k :: 0 <= k < |quantities| ==> quantities[k] == SymbolTotal(holder.positions, UniqueSymbols(holder.positions)[k])
    requires Leaderboard.Board(Requests.AfterFetchAll(entries, now, UniqueSymbols(holder.positions), provider), now, users, provider)
      == Success(board)
    requires rank == Rank(board, holder.username)
    ensures |values| == |quantities|
    ensures Describes(entries, now, holder, users, provider,
      Portfolio(QuoteSum(values, quantities, PriceOf), QuoteSum(values, quantities, PreviousCloseOf),
                Enrich(holder.positions, values), holder.cash, rank))
  {
    PortfolioFromQuotes(entries, now, holder.positions, provider, values, quantities);
    Leaderboard.BoardAfterFetches(entries, now, UniqueSymbols(holder.positions), users, provider);
  }

  /**
   * `getPortfolio`: fetch each distinct symbol once, value the holdings, attach the quotes, then
   * compute the leaderboard and look up the user's rank. Any failed fetch fails the whole answer.
   */
  method GetPortfolio(holder: Holder, stocks: Requests.StockCache, users: seq<Holder>,
                      provider: string -> Requests.QuoteResponse, now: int)
    returns (r: Result<Portfolio, Requests.FetchError>)
    requires stocks.Valid()
    modifies stocks
    ensures stocks.Valid()
    ensures Requests.Combine(Requests.LookupEach(old(stocks.entries), now, UniqueSymbols(holder.positions), provider)).Failure? ==>
      r == Failure(Requests.Combine(Requests.LookupEach(old(stocks.entries), now, UniqueSymbols(holder.positions), provider)).error)
    ensures (Requests.Combine(Requests.LookupEach(old(stocks.entries), now, UniqueSymbols(holder.positions), provider)).Success? &&
      Leaderboard.Board(old(stocks.entries), now, users, provider).Failure?) ==>
      r == Failure(Leaderboard.Board(old(stocks.entries), now, users, provider).error)
    ensures (Requests.Combine(Requests.LookupEach(old(stocks.entries), now, UniqueSymbols(holder.positions), provider)).Success? &&
      Leaderboard.Board(old(stocks.entries), now, users, provider).Success?) ==> r.Success?
    ensures r.Success? ==> Describes(old(stocks.entries), now, holder, users, provider, r.value)
    ensures Requests.Combine(Requests.LookupEach(old(stocks.entries), now, UniqueSymbols(holder.positions), provider)).Failure? ==>
      stocks.entries == Requests.AfterFetchAll(old(stocks.entries), now, UniqueSymbols(holder.positions), provider)
    ensures Requests.Combine(Requests.LookupEach(old(stocks.entries), now, UniqueSymbols(holder.positions), provider)).Success? ==>
      stocks.entries == Requests.AfterFetchAll(
        Requests.AfterFetchAll(old(stocks.entries), now, UniqueSymbols(holder.positions), provider),
        now, UniqueSymbols(Leaderboard.AllPositions(users)), provider)
  {
    ghost var start := stocks.entries;
    var _, symbols, quantities := DedupePositions(holder.positions);
    var values := stocks.FetchEach(symbols, provider, now);
    if values.Failure? {
      return Failure(values.error);
    }
    var portfolioValue, portfolioPrevCloseValue := ValuationSums(values.value, quantities);
    var listOfPositions := EnrichPositions(holder.positions, values.value);
    Leaderboard.BoardAfterFetches(start, now, symbols, users, provider);
    var userValues := Leaderboard.GetLeaderboardTopN(-1, stocks, users, provider, now);
    if userValues.Failure? {
      return Failure(userValues.error);
    }
    var rank := FindUser(userValues.value, holder.username);
    if rank != -1 {
      rank := rank + 1;
    }
    AssembledPortfolio(start, now, holder, users, provider, values.value, quantities, userValues.value, rank);
    r := Success(Portfolio(portfolioValue, portfolioPrevCloseValue, listOfPositions, holder.cash, rank));
  }
}
