/** Vocabulary shared by every part of the exchange model. */
module Types {

  // UUIDs are opaque; all the code ever uses is equality and the order of their string forms.
  type OrderId = nat
  type UserId = nat
  type TradeId = nat

  // Currency codes, numbered in the alphabetical order in which the code sorts them.
  type Currency = nat

  // A trading pair, already split at its dashes: "BTC-USD" is [BTC, USD].
  type Symbol = seq<Currency>

  const BTC: Currency := 0
  const ETH: Currency := 1
  const USD: Currency := 2

  const ALLOWED_SYMBOLS: set<Symbol> := {[BTC, USD], [ETH, USD]}

  datatype Option<+T> = None | Some(value: T)

  datatype Side = Buy | Sell {
    function Opposite(): Side {
      if Buy? then Sell else Buy
    }
  }

  datatype OrderType = Limit | Market

  /** An order as the matching engine sees it; `qty` is what is still unfilled. */
  datatype Order = Order(id: OrderId, user: UserId, side: Side, otype: OrderType, price: real, qty: real)

  datatype Trade = Trade(id: TradeId, symbol: Symbol, maker: OrderId, taker: OrderId, price: real, qty: real)

  /** A symbol is well formed when it has exactly a base and a quote part. */
  predicate IsPair(s: Symbol) {
    |s| == 2
  }

  function Base(s: Symbol): Currency
    requires IsPair(s)
  {
    s[0]
  }

  function Quote(s: Symbol): Currency
    requires IsPair(s)
  {
    s[1]
  }

  /** Key of the accounts table, ordered by user and then by currency. */
  datatype Key = Key(user: UserId, currency: Currency)

  predicate KeyLess(a: Key, b: Key) {
    a.user < b.user || (a.user == b.user && a.currency < b.currency)
  }

  /** Price times quantity. */
  function Worth(price: real, qty: real): real {
    price * qty
  }

  lemma {:induction false} WorthSign(price: real, qty: real)
    requires price >= 0.0 && qty >= 0.0
    ensures Worth(price, qty) >= 0.0
  {
  }

  function MinReal(a: real, b: real): real {
    if b < a then b else a
  }
}
