/** What a market buy would cost against a list of ask levels, cheapest first. */
module Estimate {
  import opened Types
  import opened Matching

  datatype Level = Level(price: real, qty: real)

  function Levels(s: seq<Order>): (r: seq<Level>)
    ensures |r| == |s| && forall i | 0 <= i < |s| :: r[i] == Level(s[i].price, s[i].qty)
  {
    if s == [] then [] else [Level(s[0].price, s[0].qty)] + Levels(s[1..])
  }

  /** The levels are the first `depth` orders of a side, in their order, or all of them. */
  ghost predicate Shows(levels: seq<Level>, s: seq<Order>, depth: int) {
    && |levels| == (if 0 < depth < |s| then depth else |s|)
    && forall i | 0 <= i < |levels| :: levels[i].price == s[i].price && levels[i].qty == s[i].qty
  }

  function PlusCost(cost: real, c: Option<real>): Option<real> {
    if c.Some? then Some(cost + c.value) else None
  }

  /** None when the levels run out before the quantity does. */
  function Required(levels: seq<Level>, qty: real): Option<real> {
    if levels == [] then None
    else
      var q := MinReal(qty, levels[0].qty);
      if qty - q == 0.0 then Some(Worth(levels[0].price, q))
      else PlusCost(Worth(levels[0].price, q), Required(levels[1..], qty - q))
  }

  /** The loop shared by the service's estimate from a snapshot and the book's own estimate. */
  method EstimateFromLevels(levels: seq<Level>, quantity: real) returns (cost: Option<real>)
    ensures cost == Required(levels, quantity)
  {
    var remaining, total := quantity, 0.0;
    assert levels[0..] == levels;
    for i := 0 to |levels|
      invariant Required(levels, quantity) == PlusCost(total, Required(levels[i..], remaining))
    {
      var q := remaining;
      if levels[i].qty < q {
        q := levels[i].qty;
      }
      assert levels[i..][0] == levels[i] && levels[i..][1..] == levels[i + 1..];
      assert Required(levels[i..], remaining) ==
             if remaining - q == 0.0 then Some(Worth(levels[i].price, q))
             else PlusCost(Worth(levels[i].price, q), Required(levels[i + 1..], remaining - q));
      total := total + Worth(levels[i].price, q);
      remaining := remaining - q;
      if remaining == 0.0 {
        return Some(total);
      }
    }
    return None;
  }

  /** A snapshot that suffices gives the answer of the whole book, whatever its depth. */
  lemma {:induction false} PrefixAgrees(levels: seq<Level>, depth: nat, qty: real)
    requires depth <= |levels| && Required(levels[..depth], qty).Some?
    ensures Required(levels, qty) == Required(levels[..depth], qty)
    decreases depth
  {
    if depth > 0 {
      var q := MinReal(qty, levels[0].qty);
      var head := levels[..depth];
      assert head[0] == levels[0] && head[1..] == levels[1..][..depth - 1];
      assert Required(head, qty) == if qty - q == 0.0 then Some(Worth(levels[0].price, q))
                                    else PlusCost(Worth(levels[0].price, q), Required(head[1..], qty - q));
      if qty - q != 0.0 {
        PrefixAgrees(levels[1..], depth - 1, qty - q);
      }
    }
  }

  lemma {:induction false} SnapshotAgrees(levels: seq<Level>, asks: seq<Order>, depth: int, qty: real)
    requires Shows(levels, asks, depth) && Required(levels, qty).Some?
    ensures Required(levels, qty) == Required(Levels(asks), qty)
  {
    assert levels == Levels(asks)[..|levels|];
    PrefixAgrees(Levels(asks), |levels|, qty);
  }

  /** An estimate exists exactly when the levels hold enough quantity. */
  lemma {:induction false} RequiredIff(asks: seq<Order>, qty: real)
    requires qty > 0.0 && Positive(asks)
    ensures Required(Levels(asks), qty).Some? <==> qty <= Depth(asks)
    decreases asks
  {
    if asks != [] {
      assert asks[0] in asks;
      DepthNonNegative(asks[1..]);
      assert Levels(asks)[1..] == Levels(asks[1..]);
      if asks[0].qty < qty {
        RequiredIff(asks[1..], qty - asks[0].qty);
      }
    }
  }

  /** An estimate on the shown levels succeeds exactly when the orders shown hold the quantity. */
  lemma {:induction false} ShownSuffices(levels: seq<Level>, s: seq<Order>, depth: int, qty: real)
    requires qty > 0.0 && Positive(s) && Shows(levels, s, depth)
    ensures Required(levels, qty).Some? <==> qty <= Depth(if 0 < depth < |s| then s[..depth] else s)
  {
    var shown := if 0 < depth < |s| then s[..depth] else s;
    assert levels == Levels(shown);
    assert forall o :: o in shown ==> o in s;
    RequiredIff(shown, qty);
  }

  ghost function Depth(s: seq<Order>): real {
    if s == [] then 0.0 else s[0].qty + Depth(s[1..])
  }

  lemma {:induction false} DepthNonNegative(s: seq<Order>)
    requires Positive(s)
    ensures Depth(s) >= 0.0
  {
    if s != [] {
      assert s[0] in s;
      DepthNonNegative(s[1..]);
    }
  }

  /**
   Trades costing at most `cost`, exactly that much if they make up the quantity, and all of it unless an own order
   is met.
   */
  ghost predicate Covers(cost: real, trades: seq<Trade>, qty: real, asks: seq<Order>, user: UserId) {
    && 0.0 <= Value(trades) <= cost
    && (Volume(trades) == qty ==> Value(trades) == cost)
    && (Volume(trades) != qty ==> exists o :: o in asks && o.user == user)
  }

  lemma {:induction false} CoversMore(cost: real, t: Trade, rest: seq<Trade>, qty: real, asks: seq<Order>, user: UserId)
    requires asks != [] && Covers(cost, rest, qty - t.qty, asks[1..], user) && Worth(t.price, t.qty) >= 0.0
    ensures Covers(Worth(t.price, t.qty) + cost, [t] + rest, qty, asks, user)
  {
    Totals(t, rest);
    assert forall o :: o in asks[1..] ==> o in asks;
  }

  /**
   A successful estimate is what matching that market buy on the same book then costs, and only an
   upper bound when the taker meets an order of its own and the rest is dropped.
   */
  lemma {:induction false} EstimateCoversFill(sym: Symbol, t: Order, asks: seq<Order>, nid: TradeId)
    requires t.side.Buy? && t.otype.Market? && t.qty > 0.0 && Positive(asks)
    requires forall o :: o in asks ==> o.price >= 0.0
    requires Required(Levels(asks), t.qty).Some?
    ensures Covers(Required(Levels(asks), t.qty).value, Fill(sym, t, asks, nid).trades, t.qty, asks, t.user)
    decreases asks
  {
    assert asks[0] in asks;
    assert Levels(asks)[1..] == Levels(asks[1..]);
    var q := MinReal(t.qty, asks[0].qty);
    WorthSign(asks[0].price, q);
    if t.user == asks[0].user {
      SaneEstimate(asks, t.qty);
    } else {
      var trade := Trade(nid, sym, asks[0].id, t.id, asks[0].price, q);
      if t.qty - q == 0.0 {
        Totals(trade, []);
        assert Fill(sym, t, asks, nid).trades == [trade] + [];
      } else {
        var u := t.(qty := t.qty - q);
        EstimateCoversFill(sym, u, asks[1..], nid + 1);
        CoversMore(Required(Levels(asks[1..]), u.qty).value, trade, Fill(sym, u, asks[1..], nid + 1).trades, t.qty,
                   asks, t.user);
      }
    }
  }

  lemma {:induction false} SaneEstimate(asks: seq<Order>, qty: real)
    requires qty >= 0.0 && Positive(asks) && (forall o :: o in asks ==> o.price >= 0.0)
             && Required(Levels(asks), qty).Some?
    ensures Required(Levels(asks), qty).value >= 0.0
  {
    RequiredNonNegative(Levels(asks), qty);
  }

  lemma {:induction false} Totals(t: Trade, rest: seq<Trade>)
    ensures Volume([t] + rest) == t.qty + Volume(rest)
    ensures Value([t] + rest) == Worth(t.price, t.qty) + Value(rest)
  {
    assert ([t] + rest)[1..] == rest;
  }

  ghost predicate SaneLevels(levels: seq<Level>) {
    forall l :: l in levels ==> l.price >= 0.0 && l.qty >= 0.0
  }

  lemma {:induction false} RequiredNonNegative(levels: seq<Level>, qty: real)
    requires qty >= 0.0 && SaneLevels(levels) && Required(levels, qty).Some?
    ensures Required(levels, qty).value >= 0.0
    decreases levels
  {
    assert levels[0] in levels;
    var q := MinReal(qty, levels[0].qty);
    WorthSign(levels[0].price, q);
    if qty - q != 0.0 {
      RequiredNonNegative(levels[1..], qty - q);
    }
  }

  // The margin TX1 adds to the estimate of a market buy.
  const LOCK_MARGIN: real := 1.05

  /** On an unchanged book the amount locked from any snapshot covers the whole fill. */
  lemma {:induction false} LockCoversFill(sym: Symbol, t: Order, levels: seq<Level>, asks: seq<Order>, depth: int,
                                          nid: TradeId)
    requires t.side.Buy? && t.otype.Market? && t.qty > 0.0 && Positive(asks)
    requires forall o :: o in asks ==> o.price >= 0.0
    requires Shows(levels, asks, depth) && Required(levels, t.qty).Some?
    ensures Value(Fill(sym, t, asks, nid).trades) <= Required(levels, t.qty).value * LOCK_MARGIN
  {
    SnapshotAgrees(levels, asks, depth, t.qty);
    EstimateCoversFill(sym, t, asks, nid);
  }
}
