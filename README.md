# stotra paper-trading engine, modelled in Dafny

This project models the server core of stotra, a paper-trading application. Users trade against
live quotes with a cash balance, a book of open positions and an append-only ledger, and they are
ranked against each other by portfolio value. The model covers:

- **Order execution** (`buyStock`, `sellStock`). There is a liquidity gate and two buy modes:
  amount mode, where the fee is taken out of the amount, and quantity mode, where the fee is
  added on top. Buys keep a weighted-average cost basis. A sell first checks the shares owned
  across all positions, then liquidates positions in list order by splicing them out.
- **The quote cache** (`fetchStockData`). A cache with a 60-second time-to-live sits in front of
  an upstream provider, which is modelled as a response datatype: one quote, an error carrying
  a list of partial results, or a hard failure. The same module models:
  - the historical-series rules (period term, cache key, sort by time, fallback, errors giving
    no series);
  - the search fallback to the partial quotes of a failed search.
- **Portfolio valuation** (`getPortfolio`). The positions are de-duplicated. Each distinct
  symbol is fetched once, in one all-or-nothing fan-out. Then the model computes:
  - the live sum and the previous-close sum;
  - the list of positions merged with their quotes;
  - the 1-based rank.
  It also covers the watchlist edits.
- **The leaderboard** (`getLeaderboardTopN`, `getLeaderboard`). It builds a price map over the
  distinct symbols of all users and computes per-user totals of cash plus position values. It
  sorts them in descending order, stably. The whole result is cached for 600 seconds.
- **The trade preview of the transaction pane.** This covers the estimated shares, gross amount,
  fee, net amount and the two button-disable rules. It also relates them to the server's order
  checks.

In the model:

- Money and quantities are `real`.
- Time is an explicit `now` in milliseconds.
- The user record and both caches are classes whose fields the methods update in place.
- Each loop of the source is a `while` loop with its invariants.
- The pure rules are functions.
- Each method is proved against a specification function: `Lookup`, `LookupEach`, `Combine`,
  `AfterFetchAll`, `Historical`, `ApplyBuy`, `Liquidate`, `Board`, `Ranked`, `MarketValue`,
  `Enrich` and `Rank`. The properties the source promises are then proved as lemmas about those
  functions:
  - the conservation equations of both fee modes;
  - weighted-average cost over any run of buys;
  - exact liquidation, with other symbols untouched;
  - cache transparency: a fetch leaves every lookup at the same instant unchanged;
  - the de-duplicated valuation equals the position-by-position market value;
  - the ranked board is a sorted permutation with one row per user;
  - a buy or a sell moves a user's leaderboard total by the cash it moves and the value of the
    shares it moves, at any prices.

Files:

| file | contents |
|---|---|
| `wrappers.dfy` | the `Option` and `Result` types |
| `seqs.dfy` | order-keeping filter, distinctness |
| `sorting.dfy` | a stable insertion sort by a real key, standing for the engine's stable sort with a numeric comparator |
| `ttl_cache.dfy` | the expiry rule of `node-cache`: live while `now <= set time + ttl * 1000` |
| `position_book.dfy` | positions, symbol totals, the buy and liquidation rules, market value |
| `accounts.dfy` | ledger entries and the `User` class |
| `requests.dfy` | quotes, the provider response, the `StockCache` class, history, search |
| `stocks.dfy` | `buyStock`, `sellStock`, the search filter |
| `users.dfy` | watchlist edits and `getPortfolio` |
| `leaderboard.dfy` | `getLeaderboardTopN` and the `LeaderboardCache` class |
| `trade_preview.dfy` | the transaction pane's preview arithmetic |

Where the design description and the code disagree, the model follows the code:

- **No batching, pacing or zero-price fallback.** The design describes a batch fetcher with
  batches of 100, a 55 ms pause between batches, and a failed symbol that degrades to price 0.
  The code has none of these. Both the leaderboard and the portfolio use a single `Promise.all`,
  so any one failed quote fails the whole computation. `Board` and `GetPortfolio` state exactly
  that.
- **The cache key uses the demanded symbol.** The design says the cache is re-keyed by the
  returned symbol, which may differ in case or suffix. The code accepts a direct result only
  when its symbol equals the demanded one, and scans partial results for an exact match. So the
  key is always `demanded + "-quote"`.
- **`getLeaderboardTopN(n)` ignores `n`.** The full list is always returned.

## Model

| member | source | states |
|---|---|---|
| TtlCache.Get | server/src/utils/requests.ts:4 | an entry is returned exactly while it is live (now at most set time plus ttl seconds) |
| TtlCache.Set | server/src/utils/requests.ts:53 | after a set, the key reads back the value for exactly ttl seconds and every other key reads as before |
| Seqs.Filter | server/src/controller/user.controller.ts:165-167 | keeps exactly the elements satisfying the test and never grows |
| Seqs.FilterConcat | server/src/controller/stocks.controller.ts:277-285 | filtering distributes over concatenation, so relative order is kept |
| Sorting.InsertBySorted | server/src/controller/leaderboard.controller.ts:70 | inserting into a sorted list keeps it sorted |
| Sorting.SortBy | server/src/controller/leaderboard.controller.ts:70 | the sort gives a permutation of the input whose keys never decrease |
| PositionBook.FirstIndex | server/src/controller/stocks.controller.ts:103 | the `find` gives the first position in the symbol, and none exactly when the symbol is not held |
| PositionBook.SymbolTotalConcat | server/src/controller/stocks.controller.ts:206-211 | the owned-quantity sum is additive over concatenation |
| PositionBook.SymbolTotalAbsent | server/src/controller/stocks.controller.ts:206-211 | a symbol not held has total zero |
| PositionBook.ApplyBuy | server/src/controller/stocks.controller.ts:154-170 | a buy of a positive quantity keeps every position positive |
| PositionBook.BuyIntoHeld | server/src/controller/stocks.controller.ts:103-108 | buying a held symbol changes only its first position: quantity plus q, cost plus price times q, same date, nothing added |
| PositionBook.BuyNewSymbol | server/src/controller/stocks.controller.ts:109-117 | buying a symbol not held appends exactly `{symbol, q, price, now}` |
| PositionBook.BuyTotals | server/src/controller/stocks.controller.ts:154-170 | a buy raises the bought symbol's total by q and leaves every other symbol's total unchanged |
| PositionBook.BuyKeepsDistinct | server/src/controller/stocks.controller.ts:154-170 | buys preserve "at most one position per symbol" |
| PositionBook.FirstIndexAfterBuy | server/src/controller/stocks.controller.ts:154-170 | after a buy the symbol is held, at the old first index or at the new last one |
| PositionBook.BuyCost | server/src/controller/stocks.controller.ts:157-160 | a buy adds its fill cost to the symbol's held cost and q to its held quantity |
| PositionBook.WeightedAverage | server/src/controller/stocks.controller.ts:157-160 | over any run of buys, held cost and held quantity grow by the sums over the fills, so the purchase price is the weighted average |
| PositionBook.AveragePriceCost | server/src/controller/stocks.controller.ts:105-107 | the averaged price times the new quantity is the old cost plus the new cost |
| PositionBook.LiquidateTotal | server/src/controller/stocks.controller.ts:236-247 | liquidating r of at most the owned total lowers the symbol's total by exactly r |
| PositionBook.LiquidateKeepsOthers | server/src/controller/stocks.controller.ts:236-247 | liquidation leaves the positions in other symbols unchanged and in order |
| PositionBook.LiquidateLots | server/src/controller/stocks.controller.ts:236-247 | liquidation acts on the symbol's own positions as if they stood alone, in list order |
| PositionBook.LiquidateKeepsPositive | server/src/controller/stocks.controller.ts:238-244 | liquidation keeps every position positive: a lot is reduced only when it holds more than what is left |
| PositionBook.BuyValue | server/src/controller/stocks.controller.ts:154-170 | a buy raises the book's market value, at any prices, by the price of the symbol times the quantity bought, whether it grows a held position or appends a new one |
| PositionBook.LiquidateValue | server/src/controller/stocks.controller.ts:236-247 | liquidating at most the owned total lowers the book's market value, at any prices, by the price of the symbol times the quantity sold |
| PositionBook.MarketValueAgrees | server/src/controller/leaderboard.controller.ts:62-65 | market value depends only on the prices of the symbols held |
| PositionBook.UniqueSymbols | server/src/controller/user.controller.ts:60-69 | the keys of the dedupe map are distinct and are exactly the symbols held |
| PositionBook.SymbolWorthIsPricedTotal | server/src/controller/user.controller.ts:76-79 | the price times a symbol's aggregate quantity equals the sum of its positions' worths |
| PositionBook.ScaledTotal | server/src/controller/user.controller.ts:76-79 | the worth in one symbol is its price times the symbol's total quantity |
| PositionBook.DedupedValueIsWorthByKeys | server/src/controller/user.controller.ts:76-79 | the de-duplicated sum equals the per-key sum of per-position worths |
| PositionBook.WorthByKeysIsMarketValue | server/src/controller/user.controller.ts:60-79 | summing per-key worths over the dedupe keys gives the position-by-position market value |
| PositionBook.DedupedValueIsMarketValue | server/src/controller/user.controller.ts:60-79 | pricing each distinct symbol once at its aggregate quantity gives the same value as pricing every position |
| Accounts.User.constructor | server/src/middleware/authProxy.ts:17-23 | a new record has the given name and cash and an empty book, ledger and watchlist |
| Accounts.User.Snapshot | server/src/controller/leaderboard.controller.ts:54-57 | the projection `{username, positions, cash}` of the record that the leaderboard totals read; the buy and sell totals below are stated on it |
| Requests.QuoteKeyInjective | server/src/utils/requests.ts:12 | distinct symbols have distinct `-quote` keys |
| Requests.FirstQuote | server/src/utils/requests.ts:56-84 | found exactly when some result has the demanded symbol, and then it is the first such result |
| Requests.Resolve | server/src/utils/requests.ts:39-91 | a direct result is accepted only with the exact symbol, else the error is a symbol mismatch; partial results give the first exact match or "No results found"; any other error passes through |
| Requests.Lookup | server/src/utils/requests.ts:11-93 | a live cached quote is returned as it is; otherwise the provider's response is resolved; a success always carries the demanded symbol |
| Requests.AfterFetchWellKeyed | server/src/utils/requests.ts:53 | a fetch keeps every `-quote` key holding a quote of its own symbol |
| Requests.RefetchIsCacheHit | server/src/utils/requests.ts:53 | after a successful fetch, a refetch within the time-to-live is a cache hit that returns the same quote, whatever the provider now says |
| Requests.AfterFetchKeepsOthers | server/src/utils/requests.ts:53 | a fetch changes no other symbol's lookup at any time |
| Requests.AfterFetchTransparent | server/src/utils/requests.ts:12-15 | at the same instant, a fetch changes no lookup at all |
| Requests.AfterFetchAllTransparent | server/src/controller/user.controller.ts:73 | at the same instant, a run of fetches changes no lookup |
| Requests.AfterFetchAllKeepsOthers | server/src/controller/user.controller.ts:73 | a run of fetches leaves the lookups of symbols outside it unchanged |
| Requests.Combine | server/src/controller/user.controller.ts:73 | all succeed gives the quotes in order; otherwise the error is the first failure in order |
| Requests.CombineSnoc | server/src/controller/user.controller.ts:73 | combining one more result: the first failure wins, else the quote is appended |
| Requests.LookupEach | server/src/controller/leaderboard.controller.ts:44-46 | one lookup per symbol, in order |
| Requests.FetchStep | server/src/controller/user.controller.ts:73 | fetching the next symbol extends the combined lookups by that symbol's lookup |
| Requests.PeriodTerm | server/src/utils/requests.ts:97-100 | short exactly for "1d", "5d", "1m" and the default, long otherwise |
| Requests.HistoricalKeyDistinct | server/src/utils/requests.ts:101 | `symbol-historical-term` keys determine symbol and term and never clash with a quote key |
| Requests.Historical | server/src/utils/requests.ts:95-150 | a live key is served from the cache; short reads intraday data sorted ascending by time (a permutation), with a missing series falling back to the long path; long reads daily data; a fresh series is stored under its term's key; an intraday or daily failure gives no series and leaves the cache unchanged |
| Requests.StockCache.constructor | server/src/utils/requests.ts:4 | the cache starts empty |
| Requests.StockCache.ScanResults | server/src/utils/requests.ts:57-84 | the `for ... of` scan finds the first partial result with the demanded symbol |
| Requests.StockCache.FetchStockData | server/src/utils/requests.ts:11-93 | returns the lookup; the provider is called exactly when no live entry exists; the cache becomes the after-fetch cache |
| Requests.StockCache.FetchEach | server/src/controller/user.controller.ts:73 | the fan-out returns the combined lookups at the start state and leaves the cache after every fetch |
| Requests.StockCache.FetchHistoricalStockData | server/src/utils/requests.ts:95-150 | returns the `Historical` series and leaves its cache, so a live key is served from the cache and a provider failure answers no series with the cache unchanged |
| Requests.SearchStocks | server/src/utils/requests.ts:152-174 | a failed search carrying `result.quotes` answers those quotes; any other failure is an error |
| Stocks.LiquidityGate | server/src/controller/stocks.controller.ts:66-75 | passes exactly when the volume is present, reaches the standard floor and, for a cryptocurrency, the crypto floor; a missing volume is rejected |
| Stocks.AmountModeConserves | server/src/controller/stocks.controller.ts:80-83 | in amount mode the credited shares at the price plus the fee equal the amount |
| Stocks.AmountQuantityPositive | server/src/controller/stocks.controller.ts:80-83 | a positive amount at a positive price with a fee under 100% credits a positive quantity |
| Stocks.QuantityModeCharge | server/src/controller/stocks.controller.ts:133-141 | in quantity mode the debit is price times q times (1 + fee) |
| Stocks.RoundTripCost | server/src/controller/stocks.controller.ts:133-141 | buying and selling q at one price costs exactly twice the fee on price times q |
| Stocks.BuyThenSellRestores | server/src/controller/stocks.controller.ts:236-247 | buying q of a new symbol and then selling q restores the book |
| Stocks.LiquidateElsewhere | server/src/controller/stocks.controller.ts:236-247 | selling all of a symbol held only in the last position splices that position out and keeps the rest |
| Stocks.QuantityOwned | server/src/controller/stocks.controller.ts:206-211 | the accumulator loop computes the symbol's total over all positions |
| Stocks.ExecuteBuy | server/src/controller/stocks.controller.ts:90-117 | debits the cash, appends one buy entry and applies the buy to the book; the user's leaderboard total at any prices falls by the debit and rises by the value of the shares bought |
| Stocks.BuyTotal | server/src/controller/stocks.controller.ts:90-117 | on a positive book, a buy changes the leaderboard total `cash + sum of price times quantity` by minus the debit plus the symbol's price times the quantity |
| Stocks.BuyStock | server/src/controller/stocks.controller.ts:52-189 | a failed fetch or a failed gate answers before the record is touched; amount mode debits exactly the amount, appends one buy entry with the credited quantity and the fee, and applies the buy; quantity mode debits cost plus fee and records the fee; insufficient cash changes nothing |
| Stocks.SellFromPositions | server/src/controller/stocks.controller.ts:236-247 | the splice loop leaves exactly the liquidated book, keeps it positive and touches nothing else |
| Stocks.SkipStep | server/src/controller/stocks.controller.ts:237 | a position in another symbol joins the scanned prefix unchanged |
| Stocks.ReduceStep | server/src/controller/stocks.controller.ts:238-240 | reducing a larger lot completes the liquidation |
| Stocks.SpliceStep | server/src/controller/stocks.controller.ts:241-244 | splicing out a lot that holds no more than what is left keeps the loop's invariant, with `i--` leaving the index in place |
| Stocks.SellStock | server/src/controller/stocks.controller.ts:191-265 | fewer shares owned than requested is rejected with no change; otherwise cash rises by price times q minus the fee, one sell entry records the requested q and the fee, and the book is liquidated; the user's leaderboard total at any prices rises by the proceeds and falls by the value of the q shares sold |
| Stocks.SellTotal | server/src/controller/stocks.controller.ts:221-247 | a sell of at most what is owned changes the leaderboard total by plus the proceeds minus the symbol's price times the quantity sold |
| Stocks.SellAccounting | server/src/controller/stocks.controller.ts:236-247 | a sell lowers the symbol's total by exactly q, keeps other symbols' positions and keeps the book positive |
| Stocks.SearchFilter | server/src/controller/stocks.controller.ts:277-285 | keeps exactly the quotes whose type is present and neither "FUTURE" nor "Option" |
| Stocks.SearchFilterKeepsOrder | server/src/controller/stocks.controller.ts:277-285 | the filter keeps the relative order of the quotes |
| Stocks.Search | server/src/controller/stocks.controller.ts:267-292 | a search fails exactly when the provider search fails, and otherwise answers the filtered quotes |
| Users.Without | server/src/controller/user.controller.ts:165-167 | removes every occurrence of the symbol and keeps every other entry |
| Users.AddToWatchlist | server/src/controller/user.controller.ts:145-150 | a present symbol is rejected with no change; otherwise it is appended once and nothing else changes |
| Users.RemoveFromWatchlist | server/src/controller/user.controller.ts:164-171 | an absent symbol is rejected with no change; otherwise every occurrence is removed, keeping the rest in order |
| Users.AddThenRemove | server/src/controller/user.controller.ts:145-171 | adding then removing a new symbol restores the watchlist; adding keeps it duplicate-free |
| Users.RemoveIsComplete | server/src/controller/user.controller.ts:164-171 | after a removal the symbol is gone, other symbols are kept, and removing again changes nothing |
| Users.DedupePositions | server/src/controller/user.controller.ts:60-70 | one key per distinct symbol, valued at the symbol's total; `Object.keys` in first-appearance order; the values aligned to the keys |
| Users.ValuationSums | server/src/controller/user.controller.ts:76-79 | both accumulators compute the price-weighted and the previous-close-weighted sums over the keys |
| Users.QuoteSumIsDeduped | server/src/controller/user.controller.ts:76-79 | the accumulated sum is the de-duplicated value at the quotes' prices |
| Users.Enrich | server/src/controller/user.controller.ts:82-93 | at most one entry per position, each a position merged with its own symbol's first quote; one per position, in order, when every symbol has its quote |
| Users.EnrichMergesQuoted | server/src/controller/user.controller.ts:82-93 | in general the list is exactly the positions that have a quote, kept in position order, each merged with its symbol's first quote |
| Users.EnrichPositions | server/src/controller/user.controller.ts:82-93 | the `forEach` with `push` builds the enriched list |
| Users.FindUser | server/src/controller/user.controller.ts:97 | `findIndex`: the first row with the username, or -1 when no row has it |
| Users.Rank | server/src/controller/user.controller.ts:97-100 | 1-based index of the first row with the username, -1 exactly when there is none |
| Users.FetchedQuotes | server/src/controller/user.controller.ts:73-93 | after a successful fan-out, each quote prices its own key and each position finds its own symbol's quote |
| Users.PortfolioFromQuotes | server/src/controller/user.controller.ts:56-93 | both sums equal the market value of all positions at the live and previous-close prices, and every position is merged with its own quote |
| Users.AssembledPortfolio | server/src/controller/user.controller.ts:56-108 | the assembled answer is the one described |
| Users.GetPortfolio | server/src/controller/user.controller.ts:46-113 | any failed quote fails the answer with that error, as does a failed board; when every quote and the board succeed, the answer succeeds and carries both market values (cash excluded), every position merged with its quote, the cash, and the rank on the board; the cache ends as the portfolio fan-out leaves it and, after a successful fan-out, as the board's fan-out then leaves it |
| Leaderboard.SymbolsOfConcat | server/src/controller/leaderboard.controller.ts:36-40 | the symbols of joined books are the union of their symbols |
| Leaderboard.AllPositionsSymbols | server/src/controller/leaderboard.controller.ts:36-40 | the aggregated symbols are exactly those some user holds |
| Leaderboard.Values | server/src/controller/leaderboard.controller.ts:59-67 | exactly one entry per user, in user order, with the username kept and the value cash plus market value |
| Leaderboard.ValuesAgree | server/src/controller/leaderboard.controller.ts:59-67 | the values depend only on the prices of held symbols |
| Leaderboard.Ranked | server/src/controller/leaderboard.controller.ts:70 | a permutation of the per-user entries with values non-increasing |
| Leaderboard.RankedRows | server/src/controller/leaderboard.controller.ts:59-70 | every user's row is on the board and every row is some user's |
| Leaderboard.Board | server/src/controller/leaderboard.controller.ts:32-73 | fails exactly when some held symbol's quote fails, with one such failure; otherwise the ranked board at the quote prices |
| Leaderboard.BoardAfterFetches | server/src/controller/user.controller.ts:96 | the board computed after a run of fetches at the same instant is the board before |
| Leaderboard.PriceTable | server/src/controller/leaderboard.controller.ts:48-51 | the price map has a key exactly for each symbol fetched |
| Leaderboard.PriceTableDistinct | server/src/controller/leaderboard.controller.ts:48-51 | with distinct symbols each key maps to its own quote's price |
| Leaderboard.PriceMap | server/src/controller/leaderboard.controller.ts:48-51 | the `forEach` builds the price map |
| Leaderboard.UserValues | server/src/controller/leaderboard.controller.ts:59-67 | the nested loops compute the per-user values from the price map |
| Leaderboard.TablePricesAgree | server/src/controller/leaderboard.controller.ts:44-67 | totals from the price map equal totals at the quote prices |
| Leaderboard.GetLeaderboardTopN | server/src/controller/leaderboard.controller.ts:32-73 | answers the board of every user whatever `n` is, and leaves the cache after fetching every distinct symbol |
| Leaderboard.LeaderboardCache.constructor | server/src/controller/leaderboard.controller.ts:10 | the leaderboard cache starts empty |
| Leaderboard.LeaderboardCache.GetLeaderboard | server/src/controller/leaderboard.controller.ts:12-30 | a live cached list is answered with nothing recomputed or changed; otherwise the board is computed, stored under "leaderboard" for 600 seconds on success and not stored on failure |
| Leaderboard.StoredBoardIsServed | server/src/controller/leaderboard.controller.ts:16-25 | a stored list is served for the next 600 seconds |
| TradePreview.Max | app/src/components/TransactionPane.tsx:105 | `Math.max`: the larger of the two |
| TradePreview.IsBuyDisabled | app/src/components/TransactionPane.tsx:126-130 | never on the sell tab; on the buy tab exactly when the required cash exceeds the buying power or the shares are not positive |
| TradePreview.IsSellDisabled | app/src/components/TransactionPane.tsx:132-135 | never on the buy tab; on the sell tab exactly when the shares are not positive or exceed the available shares |
| TradePreview.ByQuantityIsServerQuantityMode | app/src/components/TransactionPane.tsx:100-128 | by quantity the shares are the count and gross plus fee is the server's quantity-mode debit |
| TradePreview.ByValueBuyIsServerAmountMode | app/src/components/TransactionPane.tsx:102-117 | buying by value with a fee of at most 100%, gross is the count and shares and fee are the server's amount-mode quantity and fee |
| TradePreview.ByValueSellNetsCount | app/src/components/TransactionPane.tsx:107-124 | selling by value, the net shown and the server's credit for the shares previewed are both the count typed |
| TradePreview.EnabledBuyPassesServer | app/src/components/TransactionPane.tsx:126-130 | an enabled Buy submits a positive quantity the server's funds test accepts, in the mode it submits |
| TradePreview.EnabledSellPassesServer | app/src/components/TransactionPane.tsx:132-135 | an enabled Sell submits a positive quantity the server's ownership test accepts |

## Left out

- HTTP and Express plumbing: outcomes are result datatypes instead of status codes and messages.
- Persistence: the `.save()` chains and the `User.findById`, `find` and `aggregate` queries. The
  user record and the user list are inputs. A failed save is not modelled, so the in-memory
  changes made before it (no rollback) are outside the model.
- Authentication, the Yahoo Finance, Alpha Vantage and axios calls, and the React UI wiring.
  Providers are parameters that map a symbol to the response they give.
- Concurrency: the `Promise.all` fan-outs run in order, and concurrent requests are not modelled.
  Every fetch of the fan-out runs, and the first failure in list order is the one reported.
- Clocks: one `now` in milliseconds stands for every `Date.now()` of a request.
- Floating point: money and quantities are exact reals, with no rounding, NaN or Infinity. Where
  the source divides, the model requires a non-zero (pane) or positive (server buy) price.
- Leaderboard.PriceIn: a symbol missing from the price map reads as 0.0 where the source gets
  `undefined` and a NaN total. Every held symbol is in the map whenever the board succeeds,
  so this default is never read there.
- Users.DedupePositions: `Object.keys` lists integer-like keys first in numeric order. The model
  takes first-appearance order for every key.
- Leaderboard.AllPositions: the `$group` stage of the aggregation returns symbols in an
  unspecified order. The model takes first appearance over the users in order. The board does
  not depend on this order.
- Sorting.SortBy: the engine's `Array.prototype.sort` stands as a stable insertion sort with the
  same comparator.
- The configuration knobs are fixed at their defaults: trade fee 0.001, volume floors 100000 and
  1000000, leaderboard time-to-live 600 seconds.
- Stocks.BuyStock: requires a positive price for a successful quote and a positive quantity in
  quantity mode. The source never validates these. Truthiness of the amount is modelled as
  "present and positive".
- Stocks.SellStock: requires a positive quantity, which the source never validates.
- Users.GetPortfolio: the missing `return` after a user that is not found is outside the model,
  because the record is an input.
- Stocks.Search: the missing `return` after an empty query is outside the model. The search runs
  on whatever response the provider gives.
- TradePreview.ByValueSellNetsCount: requires `1 - fee >= 1e-12`, the floor the pane uses,
  instead of `0 <= fee < 1`. Fees in the last 1e-12 below 100% are not covered.
- TradePreview.ByValueBuyIsServerAmountMode: requires a non-negative count and a fee of at most
  100%, so the `Math.max` clamp at zero is inactive.
- The watchlist quote fetch of `getWatchlist` and the info, historical and fee endpoints' HTTP
  handling are not part of this model, beyond the history rules themselves.
