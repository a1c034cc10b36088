/**
 The price-time matching rules as pure functions over order values. Engine.dfy proves that the
 in-place matching loops compute exactly these functions.
 */
module Matching {
  import opened Types
  import opened Sorting

  /** Strictly better price on a side of the book: higher for bids, lower for asks. */
  predicate Better(side: Side, p: real, q: real) {
    if side.Buy? then p > q else p < q
  }

  /** The comparison handed to the stable sort of one side. */
  function Ahead(side: Side): (Order, Order) -> bool {
    (a: Order, b: Order) => Better(side, a.price, b.price)
  }

  datatype Book = Book(bids: seq<Order>, asks: seq<Order>) {
    function On(side: Side): seq<Order> {
      if side.Buy? then bids else asks
    }

    function With(side: Side, orders: seq<Order>): (b: Book)
      ensures b.On(side) == orders && b.On(side.Opposite()) == On(side.Opposite())
    {
      if side.Buy? then Book(orders, asks) else Book(bids, orders)
    }
  }

  const EMPTY_BOOK: Book := Book([], [])

  /** Append, then stable sort of the whole side. */
  function AddOrder(b: Book, o: Order): Book {
    b.With(o.side, StableSort(b.On(o.side) + [o], Ahead(o.side)))
  }

  lemma {:induction false} AddOrderSides(b: Book, o: Order)
    ensures AddOrder(b, o) == if o.side.Buy? then Book(StableSort(b.bids + [o], Ahead(Buy)), b.asks)
                              else Book(b.bids, StableSort(b.asks + [o], Ahead(Sell)))
  {
  }

  /** Remove the first order carrying the id; false when there is none. */
  function RemoveId(s: seq<Order>, id: OrderId): (seq<Order>, bool) {
    if s == [] then ([], false)
    else if s[0].id == id then (s[1..], true)
    else var (rest, found) := RemoveId(s[1..], id); ([s[0]] + rest, found)
  }

  function Cancel(b: Book, id: OrderId, side: Side): (Book, bool) {
    var (rest, found) := RemoveId(b.On(side), id);
    (b.With(side, rest), found)
  }

  /** A market order takes any price, a limit order only prices as good as its own. */
  predicate Crosses(t: Order, m: Order) {
    t.otype.Market? || !Better(t.side.Opposite(), t.price, m.price)
  }

  /** Trades made, quantity the taker is left with, and the opposite side afterwards. */
  datatype FillResult = FillResult(trades: seq<Trade>, left: real, rest: seq<Order>)

  /**
   Match taker `t` against the opposite side, best price first and oldest first within a price.
   Meeting one of the taker's own orders drops what is left of the taker.
   */
  function Fill(sym: Symbol, t: Order, opp: seq<Order>, nid: TradeId): FillResult
    decreases opp
  {
    if opp == [] then FillResult([], t.qty, opp)
    else if t.user == opp[0].user then FillResult([], 0.0, opp)
    else if !Crosses(t, opp[0]) then FillResult([], t.qty, opp)
    else
      var q := MinReal(t.qty, opp[0].qty);
      var trade := Trade(nid, sym, opp[0].id, t.id, opp[0].price, q);
      if q != opp[0].qty then
        FillResult([trade], 0.0, [opp[0].(qty := opp[0].qty - q)] + opp[1..])
      else if t.qty == q then
        FillResult([trade], 0.0, opp[1..])
      else
        var f := Fill(sym, t.(qty := t.qty - q), opp[1..], nid + 1);
        FillResult([trade] + f.trades, f.left, f.rest)
  }

  datatype Processed = Processed(book: Book, trades: seq<Trade>, left: real)

  /** Match a new order; a limit order with something left rests on its own side. */
  function Process(sym: Symbol, b: Book, o: Order, nid: TradeId): Processed {
    var f := Fill(sym, o, b.On(o.side.Opposite()), nid);
    var matched := b.With(o.side.Opposite(), f.rest);
    var book := if f.left > 0.0 && !o.otype.Market? then AddOrder(matched, o.(qty := f.left)) else matched;
    Processed(book, f.trades, f.left)
  }

  function Volume(trades: seq<Trade>): real {
    if trades == [] then 0.0 else trades[0].qty + Volume(trades[1..])
  }

  function Value(trades: seq<Trade>): real {
    if trades == [] then 0.0 else Worth(trades[0].price, trades[0].qty) + Value(trades[1..])
  }

  // What a matching run looks like from outside

  ghost predicate Positive(s: seq<Order>) {
    forall o :: o in s ==> o.qty > 0.0
  }

  /**
   The whole shape of a fill of a positive taker against positive makers: it consumes a prefix of
   the opposite side, all of it completely except possibly the last maker, at the makers' prices;
   and it stops only for a stated reason.
   */
  ghost predicate FillShape(sym: Symbol, t: Order, opp: seq<Order>, nid: TradeId, f: FillResult) {
    var n := |f.trades|;
    && n <= |opp|
    && (forall i | 0 <= i < n ::
          && f.trades[i] == Trade(nid + i, sym, opp[i].id, t.id, opp[i].price, f.trades[i].qty)
          && 0.0 < f.trades[i].qty <= opp[i].qty
          && (i < n - 1 ==> f.trades[i].qty == opp[i].qty)
          && opp[i].user != t.user
          && Crosses(t, opp[i]))
    && f.rest == (if n > 0 && f.trades[n - 1].qty < opp[n - 1].qty
                  then [opp[n - 1].(qty := opp[n - 1].qty - f.trades[n - 1].qty)] else []) + opp[n..]
    && Volume(f.trades) <= t.qty
    && (f.left == t.qty - Volume(f.trades) || (f.left == 0.0 && f.rest != [] && f.rest[0].user == t.user))
    && (f.left > 0.0 ==> f.rest == [] || (f.rest[0].user != t.user && !Crosses(t, f.rest[0])))
  }

  /** Consuming one maker completely and going on keeps the shape. */
  lemma {:induction false} ShapeStep(sym: Symbol, t: Order, opp: seq<Order>, nid: TradeId, g: FillResult)
    requires opp != [] && 0.0 < opp[0].qty < t.qty && opp[0].user != t.user && Crosses(t, opp[0])
    requires FillShape(sym, t.(qty := t.qty - opp[0].qty), opp[1..], nid + 1, g)
    ensures FillShape(sym, t, opp, nid,
              FillResult([Trade(nid, sym, opp[0].id, t.id, opp[0].price, opp[0].qty)] + g.trades, g.left, g.rest))
  {
    var trades := [Trade(nid, sym, opp[0].id, t.id, opp[0].price, opp[0].qty)] + g.trades;
    var n := |trades|;
    assert trades[1..] == g.trades;
    forall i | 0 < i < n ensures trades[i] == g.trades[i - 1] && opp[i] == opp[1..][i - 1] {}
    assert opp[1..][n - 1..] == opp[n..];
    if n == 1 {
      assert g.rest == opp[1..];
    } else {
      assert trades[n - 1] == g.trades[n - 2];
    }
  }

  lemma {:induction false} FillHasShape(sym: Symbol, t: Order, opp: seq<Order>, nid: TradeId)
    requires t.qty > 0.0 && Positive(opp)
    ensures FillShape(sym, t, opp, nid, Fill(sym, t, opp, nid))
    ensures Positive(Fill(sym, t, opp, nid).rest)
    decreases opp
  {
    if opp != [] && t.user != opp[0].user && Crosses(t, opp[0]) {
      assert opp[0] in opp;
      if opp[0].qty < t.qty {
        var u := t.(qty := t.qty - opp[0].qty);
        FillHasShape(sym, u, opp[1..], nid + 1);
        ShapeStep(sym, t, opp, nid, Fill(sym, u, opp[1..], nid + 1));
      } else {
        LastFill(sym, t, opp, nid);
      }
    } else {
      NoFill(sym, t, opp, nid);
    }
  }

  /** Nothing to take, or nothing that may be taken. */
  lemma {:induction false} NoFill(sym: Symbol, t: Order, opp: seq<Order>, nid: TradeId)
    requires t.qty > 0.0 && Positive(opp)
    requires opp == [] || t.user == opp[0].user || !Crosses(t, opp[0])
    ensures FillShape(sym, t, opp, nid, Fill(sym, t, opp, nid))
    ensures Positive(Fill(sym, t, opp, nid).rest)
  {
    assert opp[0..] == opp;
  }

  /** The first maker alone satisfies the taker. */
  lemma {:induction false} LastFill(sym: Symbol, t: Order, opp: seq<Order>, nid: TradeId)
    requires opp != [] && 0.0 < t.qty <= opp[0].qty && opp[0].user != t.user && Crosses(t, opp[0])
    ensures FillShape(sym, t, opp, nid, Fill(sym, t, opp, nid))
    ensures Positive(opp) ==> Positive(Fill(sym, t, opp, nid).rest)
  {
    var f := Fill(sym, t, opp, nid);
    assert f.trades == [Trade(nid, sym, opp[0].id, t.id, opp[0].price, t.qty)];
    assert Volume(f.trades) == t.qty + Volume(f.trades[1..]);
  }

  // Buying and selling are mirror images

  function Mirror(o: Order): Order {
    o.(side := o.side.Opposite(), price := -o.price)
  }

  function MirrorAll(s: seq<Order>): (r: seq<Order>)
    ensures |r| == |s| && forall i | 0 <= i < |s| :: r[i] == Mirror(s[i])
  {
    if s == [] then [] else [Mirror(s[0])] + MirrorAll(s[1..])
  }

  function MirrorTrades(s: seq<Trade>): (r: seq<Trade>)
    ensures |r| == |s| && forall i | 0 <= i < |s| :: r[i] == s[i].(price := -s[i].price)
  {
    if s == [] then [] else [s[0].(price := -s[0].price)] + MirrorTrades(s[1..])
  }

  lemma {:induction false} CrossesMirror(t: Order, m: Order)
    ensures Crosses(Mirror(t), Mirror(m)) == Crosses(t, m)
  {
  }

  /** Selling into bids is buying from asks with every price negated. */
  lemma {:induction false} FillMirror(sym: Symbol, t: Order, opp: seq<Order>, nid: TradeId)
    ensures var f := Fill(sym, t, opp, nid);
            Fill(sym, Mirror(t), MirrorAll(opp), nid) == FillResult(MirrorTrades(f.trades), f.left, MirrorAll(f.rest))
    decreases opp, 2
  {
    if opp != [] {
      CrossesMirror(t, opp[0]);
      assert MirrorAll(opp)[1..] == MirrorAll(opp[1..]);
      if t.user != opp[0].user && Crosses(t, opp[0]) {
        MirrorStep(sym, t, opp, nid);
      }
    }
  }

  lemma {:induction false} MirrorStep(sym: Symbol, t: Order, opp: seq<Order>, nid: TradeId)
    requires opp != [] && t.user != opp[0].user && Crosses(t, opp[0])
    ensures var f := Fill(sym, t, opp, nid);
            Fill(sym, Mirror(t), MirrorAll(opp), nid) == FillResult(MirrorTrades(f.trades), f.left, MirrorAll(f.rest))
    decreases opp, 1
  {
    CrossesMirror(t, opp[0]);
    var q := MinReal(t.qty, opp[0].qty);
    var trade := Trade(nid, sym, opp[0].id, t.id, opp[0].price, q);
    assert MirrorAll(opp)[0] == Mirror(opp[0]) && MirrorAll(opp)[1..] == MirrorAll(opp[1..]);
    assert MirrorTrades([trade]) == [trade.(price := -trade.price)];
    if q != opp[0].qty {
      var cut := opp[0].(qty := opp[0].qty - q);
      assert ([cut] + opp[1..])[1..] == opp[1..];
      assert MirrorAll([cut] + opp[1..]) == [Mirror(cut)] + MirrorAll(opp[1..]);
    } else if t.qty != q {
      MirrorRest(sym, t, opp, nid);
    }
  }

  /** The first maker is used up and the taker goes on. */
  lemma {:induction false} MirrorRest(sym: Symbol, t: Order, opp: seq<Order>, nid: TradeId)
    requires opp != [] && t.user != opp[0].user && Crosses(t, opp[0]) && opp[0].qty < t.qty
    ensures var f := Fill(sym, t, opp, nid);
            Fill(sym, Mirror(t), MirrorAll(opp), nid) == FillResult(MirrorTrades(f.trades), f.left, MirrorAll(f.rest))
    decreases opp, 0
  {
    CrossesMirror(t, opp[0]);
    var trade := Trade(nid, sym, opp[0].id, t.id, opp[0].price, opp[0].qty);
    var u := t.(qty := t.qty - opp[0].qty);
    assert MirrorAll(opp)[0] == Mirror(opp[0]) && MirrorAll(opp)[1..] == MirrorAll(opp[1..]);
    assert Mirror(u) == Mirror(t).(qty := t.qty - opp[0].qty);
    FillMirror(sym, u, opp[1..], nid + 1);
    var g := Fill(sym, u, opp[1..], nid + 1);
    assert ([trade] + g.trades)[1..] == g.trades;
    assert MirrorTrades([trade] + g.trades) == [trade.(price := -trade.price)] + MirrorTrades(g.trades);
  }
}
