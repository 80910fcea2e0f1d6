/**
 * The user record the controllers load, change in place and save: cash, open positions, the
 * transaction ledger and the watchlist.
 */
module Accounts {
  import opened PositionBook

  datatype Side = Buy | Sell

  /** One ledger entry `{symbol, price, quantity, fee, type, date}`. */
  datatype Transaction = Transaction(symbol: string, price: real, quantity: real, fee: real, side: Side, date: int)

  /** The projection `{username, positions, cash}` the leaderboard and portfolio read. */
  datatype Holder = Holder(username: string, positions: seq<Position>, cash: real)

  class User {
    var username: string
    var cash: real
    var positions: seq<Position>
    var ledger: seq<Transaction>
    var watchlist: seq<string>

    /** Every open position holds a positive quantity; buys and sells keep it so. */
    ghost predicate Valid()
      reads this
    {
      AllPositive(positions)
    }

    constructor(username: string, cash: real)
      ensures Valid()
      ensures this.username == username && this.cash == cash
      ensures positions == [] && ledger == [] && watchlist == []
    {
      this.username := username;
      this.cash := cash;
      positions := [];
      ledger := [];
      watchlist := [];
    }

    function Snapshot(): (h: Holder)
      reads this
      ensures h.username == username && h.positions == positions && h.cash == cash
    {
      Holder(username, positions, cash)
    }
  }
}
