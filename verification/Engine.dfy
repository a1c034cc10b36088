/** The matching engine as the code has it: two slices of shared order objects, mutated in place. */
module Engine {
  import opened Types
  import opened Sorting
  import M = Matching
  import E = Estimate

  class LiveOrder {
    const id: OrderId
    const user: UserId
    const side: Side
    const otype: OrderType
    const price: real
    var qty: real

    constructor (o: Order)
      ensures Value() == o
    {
      id, user, side, otype, price, qty := o.id, o.user, o.side, o.otype, o.price, o.qty;
    }

    function Value(): Order
      reads this
    {
      Order(id, user, side, otype, price, qty)
    }
  }

  function Values(s: seq<LiveOrder>): (r: seq<Order>)
    reads s
    ensures |r| == |s| && forall i | 0 <= i < |s| :: r[i] == s[i].Value()
  {
    seq(|s|, i requires 0 <= i < |s| reads s => s[i].Value())
  }

  /** One side after its best order traded `q`. */
  ghost function AfterTrade(opp: seq<Order>, q: real): seq<Order>
    requires opp != []
  {
    if opp[0].qty == q then opp[1..] else [opp[0].(qty := opp[0].qty - q)] + opp[1..]
  }

  ghost predicate Distinct(s: seq<LiveOrder>) {
    forall i, j | 0 <= i < j < |s| :: s[i] != s[j]
  }

  function LiveAhead(side: Side): (LiveOrder, LiveOrder) -> bool {
    (a: LiveOrder, b: LiveOrder) => M.Better(side, a.price, b.price)
  }

  /** Sorting the objects and reading their values commute: the comparison only reads prices. */
  lemma {:induction false} SortValues(s: seq<LiveOrder>, side: Side)
    ensures Values(StableSort(s, LiveAhead(side))) == StableSort(Values(s), M.Ahead(side))
  {
    if s != [] {
      var init := s[..|s| - 1];
      SortValues(init, side);
      InsertValues(StableSort(init, LiveAhead(side)), s[|s| - 1], side);
      assert Values(s)[..|s| - 1] == Values(init);
    }
  }

  lemma {:induction false} InsertValues(s: seq<LiveOrder>, x: LiveOrder, side: Side)
    ensures Values(Insert(s, x, LiveAhead(side))) == Insert(Values(s), x.Value(), M.Ahead(side))
  {
    if s == [] || LiveAhead(side)(x, s[0]) {
      assert Values([x] + s) == [x.Value()] + Values(s);
    } else {
      InsertValues(s[1..], x, side);
      assert Values(s)[1..] == Values(s[1..]);
      var t := Insert(s[1..], x, LiveAhead(side));
      assert Values([s[0]] + t) == [s[0].Value()] + Values(t);
    }
  }

  lemma {:induction false} SortDistinct(s: seq<LiveOrder>, side: Side)
    requires Distinct(s)
    ensures Distinct(StableSort(s, LiveAhead(side)))
    ensures forall o :: o in StableSort(s, LiveAhead(side)) <==> o in s
  {
    if s != [] {
      var init, x := s[..|s| - 1], s[|s| - 1];
      SortDistinct(init, side);
      assert s == init + [x];
      InsertDistinct(StableSort(init, LiveAhead(side)), x, side);
    }
  }

  lemma {:induction false} InsertDistinct(s: seq<LiveOrder>, x: LiveOrder, side: Side)
    requires Distinct(s) && x !in s
    ensures Distinct(Insert(s, x, LiveAhead(side)))
    ensures forall o :: o in Insert(s, x, LiveAhead(side)) <==> o in s || o == x
  {
    if s == [] || LiveAhead(side)(x, s[0]) {
    } else {
      InsertDistinct(s[1..], x, side);
      assert s[0] !in Insert(s[1..], x, LiveAhead(side));
      assert s == [s[0]] + s[1..];
    }
  }

  class OrderBook {
    const symbol: Symbol
    var bids: seq<LiveOrder>
    var asks: seq<LiveOrder>

    ghost predicate Valid()
      reads this
    {
      Distinct(bids) && Distinct(asks) && forall o :: o in bids ==> o !in asks
    }

    ghost function Orders(): set<LiveOrder>
      reads this
    {
      set o | o in bids + asks
    }

    function View(): M.Book
      reads this, bids, asks
    {
      M.Book(Values(bids), Values(asks))
    }

    constructor (symbol: Symbol)
      ensures Valid() && View() == M.EMPTY_BOOK && this.symbol == symbol
      ensures bids == [] && asks == []
    {
      this.symbol := symbol;
      bids, asks := [], [];
    }

    method AddOrder(order: LiveOrder)
      requires Valid() && order !in bids && order !in asks
      modifies this
      ensures Valid() && View() == M.AddOrder(old(View()), order.Value())
      ensures forall o :: o in bids ==> o in old(bids) || o == order
      ensures forall o :: o in asks ==> o in old(asks) || o == order
    {
      ghost var b, v := View(), order.Value();
      if order.side.Buy? {
        AddBid(order);
        assert Values(asks) == b.asks;
        M.AddOrderSides(b, v);
      } else {
        AddAsk(order);
        assert Values(bids) == b.bids;
        M.AddOrderSides(b, v);
      }
    }

    method AddBid(order: LiveOrder)
      requires Valid() && order !in bids && order !in asks
      modifies this`bids
      ensures Valid() && forall o :: o in bids <==> o in old(bids) || o == order
      ensures Values(bids) == StableSort(old(Values(bids)) + [order.Value()], M.Ahead(Buy))
    {
      bids := AppendAndSort(bids, order, Buy);
    }

    method AddAsk(order: LiveOrder)
      requires Valid() && order !in bids && order !in asks
      modifies this`asks
      ensures Valid() && forall o :: o in asks <==> o in old(asks) || o == order
      ensures Values(asks) == StableSort(old(Values(asks)) + [order.Value()], M.Ahead(Sell))
    {
      asks := AppendAndSort(asks, order, Sell);
    }

    method BestBid() returns (o: LiveOrder?)
      ensures o == if bids == [] then null else bids[0]
    {
      o := if |bids| == 0 then null else bids[0];
    }

    method BestAsk() returns (o: LiveOrder?)
      ensures o == if asks == [] then null else asks[0]
    {
      o := if |asks| == 0 then null else asks[0];
    }

    method RemoveBestBid()
      requires Valid()
      modifies this`bids
      ensures Valid() && bids == if old(bids) == [] then [] else old(bids)[1..]
    {
      if |bids| > 0 {
        bids := bids[1..];
      }
    }

    method RemoveBestAsk()
      requires Valid()
      modifies this`asks
      ensures Valid() && asks == if old(asks) == [] then [] else old(asks)[1..]
    {
      if |asks| > 0 {
        asks := asks[1..];
      }
    }

    /** Reduce the best ask by a matched quantity and drop it once nothing is left. */
    method TakeFromBestAsk(q: real)
      requires Valid() && asks != []
      modifies this`asks, {asks[0]}
      ensures Valid() && asks == if old(asks[0].qty) == q then old(asks)[1..] else old(asks)
      ensures Values(asks) == AfterTrade(old(Values(asks)), q)
      ensures Values(bids) == old(Values(bids))
    {
      var bestAsk := asks[0];
      assert bestAsk in asks && bestAsk !in bids && bestAsk !in asks[1..];
      bestAsk.qty := bestAsk.qty - q;
      if bestAsk.qty == 0.0 {
        RemoveBestAsk();
      }
    }

    /** The same for the best bid. */
    method TakeFromBestBid(q: real)
      requires Valid() && bids != []
      modifies this`bids, {bids[0]}
      ensures Valid() && bids == if old(bids[0].qty) == q then old(bids)[1..] else old(bids)
      ensures Values(bids) == AfterTrade(old(Values(bids)), q)
      ensures Values(asks) == old(Values(asks))
    {
      var bestBid := bids[0];
      assert bestBid in bids && bestBid !in asks && bestBid !in bids[1..];
      bestBid.qty := bestBid.qty - q;
      if bestBid.qty == 0.0 {
        RemoveBestBid();
      }
    }

    method RemoveOrder(id: OrderId, side: Side) returns (found: bool)
      requires Valid()
      modifies this
      ensures Valid() && (View(), found) == M.Cancel(old(View()), id, side)
      ensures forall o :: o in bids ==> o in old(bids)
      ensures forall o :: o in asks ==> o in old(asks)
    {
      if side.Buy? {
        bids, found := Without(bids, id);
      } else {
        asks, found := Without(asks, id);
      }
    }

    method EstimateMarketBuyRequiredFunds(quantity: real) returns (cost: Option<real>)
      ensures cost == E.Required(E.Levels(View().asks), quantity)
    {
      cost := E.EstimateFromLevels(E.Levels(Values(asks)), quantity);
    }
  }

  method AppendAndSort(s: seq<LiveOrder>, order: LiveOrder, side: Side) returns (r: seq<LiveOrder>)
    ensures Values(r) == StableSort(Values(s) + [order.Value()], M.Ahead(side))
    ensures Distinct(s) && order !in s ==> Distinct(r)
    ensures Distinct(s) && order !in s ==> forall o :: o in r <==> o in s || o == order
  {
    var longer := s + [order];
    SortValues(longer, side);
    assert Values(longer) == Values(s) + [order.Value()];
    r := StableSort(longer, LiveAhead(side));
    if Distinct(s) && order !in s {
      SortDistinct(longer, side);
    }
  }

  /** Search for the id from the front and cut that element out. */
  method Without(s: seq<LiveOrder>, id: OrderId) returns (r: seq<LiveOrder>, found: bool)
    ensures (Values(r), found) == M.RemoveId(Values(s), id)
    ensures Distinct(s) ==> Distinct(r)
    ensures forall o :: o in r ==> o in s
  {
    var i := 0;
    while i < |s| && s[i].id != id
      invariant i <= |s|
      invariant forall k | 0 <= k < i :: s[k].id != id
    {
      i := i + 1;
    }
    CutAt(Values(s), id, i);
    if i == |s| {
      return s, false;
    }
    r, found := s[..i] + s[i + 1..], true;
    CutValues(s, i);
  }

  lemma {:induction false} CutValues(s: seq<LiveOrder>, i: nat)
    requires i < |s|
    ensures var r := s[..i] + s[i + 1..];
            && Values(r) == Values(s)[..i] + Values(s)[i + 1..]
            && (Distinct(s) ==> Distinct(r)) && forall o :: o in r ==> o in s
  {
  }

  lemma {:induction false} CutAt(s: seq<Order>, id: OrderId, i: nat)
    requires i <= |s| && (forall k | 0 <= k < i :: s[k].id != id) && (i < |s| ==> s[i].id == id)
    ensures M.RemoveId(s, id) == if i < |s| then (s[..i] + s[i + 1..], true) else (s, false)
  {
    if i == 0 {
      assert |s| > 0 ==> s[..0] + s[1..] == s[1..];
    } else {
      CutAt(s[1..], id, i - 1);
      if i < |s| {
        assert [s[0]] + (s[1..][..i - 1] + s[1..][i..]) == s[..i] + s[i + 1..];
      } else {
        assert [s[0]] + s[1..] == s;
      }
    }
  }

  class MatchingEngine {
    const orderBook: OrderBook
    var nextTrade: TradeId

    ghost predicate Valid()
      reads this, orderBook
    {
      orderBook.Valid()
    }

    constructor (symbol: Symbol)
      ensures Valid() && fresh(orderBook) && orderBook.symbol == symbol && nextTrade == 0
      ensures orderBook.View() == M.EMPTY_BOOK && orderBook.bids == [] && orderBook.asks == []
    {
      orderBook := new OrderBook(symbol);
      nextTrade := 0;
    }

    method RestoreOrder(order: LiveOrder)
      requires Valid() && order !in orderBook.bids && order !in orderBook.asks
      modifies orderBook
      ensures Valid() && orderBook.View() == M.AddOrder(old(orderBook.View()), order.Value())
      ensures orderBook.Orders() <= old(orderBook.Orders()) + {order}
    {
      orderBook.AddOrder(order);
    }

    /** The engine call: exactly the pure matching rules, on the book and on the taker's quantity. */
    method Process(order: LiveOrder) returns (trades: seq<Trade>)
      requires Valid() && order !in orderBook.bids && order !in orderBook.asks
      modifies this, order, orderBook, orderBook.bids, orderBook.asks
      ensures Valid()
      ensures var p := M.Process(orderBook.symbol, old(orderBook.View()), old(order.Value()), old(nextTrade));
              p == M.Processed(orderBook.View(), trades, order.qty) && nextTrade == old(nextTrade) + |trades|
      ensures orderBook.Orders() <= old(orderBook.Orders()) + {order}
    {
      if order.side.Buy? {
        trades := MatchBuyOrder(order);
      } else {
        trades := MatchSellOrder(order);
      }
      if order.qty > 0.0 && !order.otype.Market? {
        orderBook.AddOrder(order);
      }
    }

    method Cancel(id: OrderId, side: Side) returns (found: bool)
      requires Valid()
      modifies orderBook
      ensures Valid() && (orderBook.View(), found) == M.Cancel(old(orderBook.View()), id, side)
      ensures orderBook.Orders() <= old(orderBook.Orders())
    {
      found := orderBook.RemoveOrder(id, side);
    }

    method GetOrderBookSnapshot(depth: int) returns (bids: seq<E.Level>, asks: seq<E.Level>)
      ensures |bids| == if 0 < depth < |orderBook.bids| then depth else |orderBook.bids|
      ensures |asks| == if 0 < depth < |orderBook.asks| then depth else |orderBook.asks|
      ensures forall i | 0 <= i < |bids| :: bids[i] == E.Level(orderBook.bids[i].price, orderBook.bids[i].qty)
      ensures forall i | 0 <= i < |asks| :: asks[i] == E.Level(orderBook.asks[i].price, orderBook.asks[i].qty)
      ensures E.Shows(bids, orderBook.View().bids, depth) && E.Shows(asks, orderBook.View().asks, depth)
    {
      bids := SideSnapshot(orderBook.bids, depth);
      asks := SideSnapshot(orderBook.asks, depth);
    }

    /** One trade at the best ask's price for as much as both orders still have. */
    method TradeWithBestAsk(buyOrder: LiveOrder) returns (trade: Trade)
      requires Valid() && orderBook.asks != [] && buyOrder !in orderBook.bids && buyOrder !in orderBook.asks
      modifies this, buyOrder, orderBook`asks, {orderBook.asks[0]}
      ensures Valid() && nextTrade == old(nextTrade) + 1
      ensures orderBook.asks == old(orderBook.asks) || orderBook.asks == old(orderBook.asks)[1..]
      ensures var t, opp := old(buyOrder.Value()), old(Values(orderBook.asks));
              var q := MinReal(t.qty, opp[0].qty);
              && trade == Trade(old(nextTrade), orderBook.symbol, opp[0].id, t.id, opp[0].price, q)
              && buyOrder.Value() == t.(qty := t.qty - q)
              && Values(orderBook.asks) == AfterTrade(opp, q)
      ensures Values(orderBook.bids) == old(Values(orderBook.bids))
    {
      var bestAsk := orderBook.asks[0];
      assert bestAsk in orderBook.asks;
      var matchQty := buyOrder.qty;
      if bestAsk.qty < matchQty {
        matchQty := bestAsk.qty;
      }
      trade := Trade(nextTrade, orderBook.symbol, bestAsk.id, buyOrder.id, bestAsk.price, matchQty);
      nextTrade := nextTrade + 1;
      buyOrder.qty := buyOrder.qty - matchQty;
      assert Values(orderBook.asks) == old(Values(orderBook.asks));
      assert Values(orderBook.bids) == old(Values(orderBook.bids));
      orderBook.TakeFromBestAsk(matchQty);
    }

    /** One trade at the best bid's price for as much as both orders still have. */
    method TradeWithBestBid(sellOrder: LiveOrder) returns (trade: Trade)
      requires Valid() && orderBook.bids != [] && sellOrder !in orderBook.bids && sellOrder !in orderBook.asks
      modifies this, sellOrder, orderBook`bids, {orderBook.bids[0]}
      ensures Valid() && nextTrade == old(nextTrade) + 1
      ensures orderBook.bids == old(orderBook.bids) || orderBook.bids == old(orderBook.bids)[1..]
      ensures var t, opp := old(sellOrder.Value()), old(Values(orderBook.bids));
              var q := MinReal(t.qty, opp[0].qty);
              && trade == Trade(old(nextTrade), orderBook.symbol, opp[0].id, t.id, opp[0].price, q)
              && sellOrder.Value() == t.(qty := t.qty - q)
              && Values(orderBook.bids) == AfterTrade(opp, q)
      ensures Values(orderBook.asks) == old(Values(orderBook.asks))
    {
      var bestBid := orderBook.bids[0];
      assert bestBid in orderBook.bids;
      var matchQty := sellOrder.qty;
      if bestBid.qty < matchQty {
        matchQty := bestBid.qty;
      }
      trade := Trade(nextTrade, orderBook.symbol, bestBid.id, sellOrder.id, bestBid.price, matchQty);
      nextTrade := nextTrade + 1;
      sellOrder.qty := sellOrder.qty - matchQty;
      assert Values(orderBook.asks) == old(Values(orderBook.asks));
      assert Values(orderBook.bids) == old(Values(orderBook.bids));
      orderBook.TakeFromBestBid(matchQty);
    }

    /** One round of the buy-side loop; `stop` tells whether the loop breaks here. */
    method BuyRound(buyOrder: LiveOrder) returns (stop: bool, made: seq<Trade>)
      requires Valid() && buyOrder.side.Buy? && buyOrder !in orderBook.bids && buyOrder !in orderBook.asks
      modifies this, buyOrder, orderBook`asks, orderBook.asks
      ensures Valid() && Values(orderBook.bids) == old(Values(orderBook.bids))
      ensures nextTrade == old(nextTrade) + |made|
      ensures forall o :: o in orderBook.asks ==> o in old(orderBook.asks)
      ensures !stop ==> |orderBook.asks| < |old(orderBook.asks)|
      ensures buyOrder.Value() == old(buyOrder.Value()).(qty := buyOrder.qty)
      ensures var f := M.Fill(orderBook.symbol, old(buyOrder.Value()), old(Values(orderBook.asks)), old(nextTrade));
              f == if stop then M.FillResult(made, buyOrder.qty, Values(orderBook.asks))
                   else Prepend(made, M.Fill(orderBook.symbol, buyOrder.Value(), Values(orderBook.asks), nextTrade))
    {
      ghost var t, opp := buyOrder.Value(), Values(orderBook.asks);
      stop, made := true, [];
      var bestAsk := orderBook.BestAsk();
      if bestAsk == null {
        return;
      }
      if buyOrder.user == bestAsk.user {
        buyOrder.qty := 0.0;
        assert Values(orderBook.asks) == opp;
        return;
      }
      if !buyOrder.otype.Market? && buyOrder.price < bestAsk.price {
        return;
      }
      assert bestAsk in orderBook.asks;
      FillOnce(orderBook.symbol, t, opp, nextTrade);
      var trade := TradeWithBestAsk(buyOrder);
      stop, made := buyOrder.qty == 0.0, [trade];
    }

    method MatchBuyOrder(buyOrder: LiveOrder) returns (trades: seq<Trade>)
      requires Valid() && buyOrder.side.Buy? && buyOrder !in orderBook.bids && buyOrder !in orderBook.asks
      modifies this, buyOrder, orderBook`asks, orderBook.asks
      ensures Valid() && Values(orderBook.bids) == old(Values(orderBook.bids))
      ensures M.Fill(orderBook.symbol, old(buyOrder.Value()), old(Values(orderBook.asks)), old(nextTrade))
              == M.FillResult(trades, buyOrder.qty, Values(orderBook.asks))
      ensures nextTrade == old(nextTrade) + |trades|
      ensures forall o :: o in orderBook.asks ==> o in old(orderBook.asks)
    {
      trades := [];
      while true
        invariant Valid() && buyOrder !in orderBook.asks
        invariant forall o :: o in orderBook.asks ==> o in old(orderBook.asks)
        invariant Values(orderBook.bids) == old(Values(orderBook.bids))
        invariant nextTrade == old(nextTrade) + |trades|
        invariant M.Fill(orderBook.symbol, old(buyOrder.Value()), old(Values(orderBook.asks)), old(nextTrade))
                  == Prepend(trades, M.Fill(orderBook.symbol, buyOrder.Value(), Values(orderBook.asks), nextTrade))
        decreases |orderBook.asks|
      {
        assert forall i | 0 <= i < |orderBook.asks| :: orderBook.asks[i] in orderBook.asks;
        var stop, made := BuyRound(buyOrder);
        PrependTwice(trades, made, M.Fill(orderBook.symbol, buyOrder.Value(), Values(orderBook.asks), nextTrade));
        trades := trades + made;
        if stop {
          break;
        }
      }
    }

    /** One round of the sell-side loop; `stop` tells whether the loop breaks here. */
    method SellRound(sellOrder: LiveOrder) returns (stop: bool, made: seq<Trade>)
      requires Valid() && sellOrder.side.Sell? && sellOrder !in orderBook.bids && sellOrder !in orderBook.asks
      modifies this, sellOrder, orderBook`bids, orderBook.bids
      ensures Valid() && Values(orderBook.asks) == old(Values(orderBook.asks))
      ensures nextTrade == old(nextTrade) + |made|
      ensures forall o :: o in orderBook.bids ==> o in old(orderBook.bids)
      ensures !stop ==> |orderBook.bids| < |old(orderBook.bids)|
      ensures sellOrder.Value() == old(sellOrder.Value()).(qty := sellOrder.qty)
      ensures var f := M.Fill(orderBook.symbol, old(sellOrder.Value()), old(Values(orderBook.bids)), old(nextTrade));
              f == if stop then M.FillResult(made, sellOrder.qty, Values(orderBook.bids))
                   else Prepend(made, M.Fill(orderBook.symbol, sellOrder.Value(), Values(orderBook.bids), nextTrade))
    {
      ghost var t, opp := sellOrder.Value(), Values(orderBook.bids);
      stop, made := true, [];
      var bestBid := orderBook.BestBid();
      if bestBid == null {
        return;
      }
      if sellOrder.user == bestBid.user {
        sellOrder.qty := 0.0;
        assert Values(orderBook.bids) == opp;
        return;
      }
      if !sellOrder.otype.Market? && sellOrder.price > bestBid.price {
        return;
      }
      assert bestBid in orderBook.bids;
      FillOnce(orderBook.symbol, t, opp, nextTrade);
      var trade := TradeWithBestBid(sellOrder);
      stop, made := sellOrder.qty == 0.0, [trade];
    }

    method MatchSellOrder(sellOrder: LiveOrder) returns (trades: seq<Trade>)
      requires Valid() && sellOrder.side.Sell? && sellOrder !in orderBook.bids && sellOrder !in orderBook.asks
      modifies this, sellOrder, orderBook`bids, orderBook.bids
      ensures Valid() && Values(orderBook.asks) == old(Values(orderBook.asks))
      ensures M.Fill(orderBook.symbol, old(sellOrder.Value()), old(Values(orderBook.bids)), old(nextTrade))
              == M.FillResult(trades, sellOrder.qty, Values(orderBook.bids))
      ensures nextTrade == old(nextTrade) + |trades|
      ensures forall o :: o in orderBook.bids ==> o in old(orderBook.bids)
    {
      trades := [];
      while true
        invariant Valid() && sellOrder !in orderBook.bids
        invariant forall o :: o in orderBook.bids ==> o in old(orderBook.bids)
        invariant Values(orderBook.asks) == old(Values(orderBook.asks))
        invariant nextTrade == old(nextTrade) + |trades|
        invariant M.Fill(orderBook.symbol, old(sellOrder.Value()), old(Values(orderBook.bids)), old(nextTrade))
                  == Prepend(trades, M.Fill(orderBook.symbol, sellOrder.Value(), Values(orderBook.bids), nextTrade))
        decreases |orderBook.bids|
      {
        assert forall i | 0 <= i < |orderBook.bids| :: orderBook.bids[i] in orderBook.bids;
        var stop, made := SellRound(sellOrder);
        PrependTwice(trades, made, M.Fill(orderBook.symbol, sellOrder.Value(), Values(orderBook.bids), nextTrade));
        trades := trades + made;
        if stop {
          break;
        }
      }
    }
  }

  method SideSnapshot(s: seq<LiveOrder>, depth: int) returns (levels: seq<E.Level>)
    ensures |levels| == if 0 < depth < |s| then depth else |s|
    ensures forall i | 0 <= i < |levels| :: levels[i] == E.Level(s[i].price, s[i].qty)
  {
    levels := [];
    for i := 0 to |s|
      invariant depth > 0 ==> i <= depth
      invariant |levels| == i
      invariant forall k | 0 <= k < i :: levels[k] == E.Level(s[k].price, s[k].qty)
    {
      if depth > 0 && i >= depth {
        break;
      }
      levels := levels + [E.Level(s[i].price, s[i].qty)];
    }
  }

  /** One unfolding of the fill, in the terms in which the loop makes progress. */
  lemma {:induction false} FillOnce(sym: Symbol, t: Order, opp: seq<Order>, nid: TradeId)
    requires opp != [] && t.user != opp[0].user && M.Crosses(t, opp[0])
    ensures var q := MinReal(t.qty, opp[0].qty);
            var trade := Trade(nid, sym, opp[0].id, t.id, opp[0].price, q);
            var rest := AfterTrade(opp, q);
            if t.qty - q == 0.0 then M.Fill(sym, t, opp, nid) == M.FillResult([trade], 0.0, rest)
            else M.Fill(sym, t, opp, nid) == Prepend([trade], M.Fill(sym, t.(qty := t.qty - q), rest, nid + 1))
  {
  }

  lemma {:induction false} PrependTwice(a: seq<Trade>, b: seq<Trade>, f: M.FillResult)
    ensures Prepend(a, Prepend(b, f)) == Prepend(a + b, f)
  {
    assert a + (b + f.trades) == a + b + f.trades;
  }

  ghost function Prepend(trades: seq<Trade>, f: M.FillResult): M.FillResult {
    f.(trades := trades + f.trades)
  }
}
