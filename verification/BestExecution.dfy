/** No other way of taking the same total quantity from the resting orders is better for the taker. */
module BestExecution {
  import opened Types
  import opened Sorting
  import opened Matching

  /** An alternative: how much to take from each resting order. */
  ghost predicate Allocation(x: seq<real>, opp: seq<Order>) {
    |x| == |opp| && forall i | 0 <= i < |x| :: 0.0 <= x[i] <= opp[i].qty
  }

  ghost function Total(x: seq<real>): real {
    if x == [] then 0.0 else x[0] + Total(x[1..])
  }

  ghost function Cost(x: seq<real>, opp: seq<Order>): real
    requires |x| == |opp|
  {
    if x == [] then 0.0 else Worth(opp[0].price, x[0]) + Cost(x[1..], opp[1..])
  }

  /** The allocation the trades of a fill amount to. */
  ghost function Taken(trades: seq<Trade>, n: nat): (x: seq<real>)
    requires |trades| <= n
    ensures |x| == n && forall i | 0 <= i < n :: x[i] == if i < |trades| then trades[i].qty else 0.0
  {
    seq(n, i => if 0 <= i < |trades| then trades[i].qty else 0.0)
  }

  lemma {:induction false} ZeroTotal(x: seq<real>, opp: seq<Order>)
    requires |x| == |opp| && forall i | 0 <= i < |x| :: x[i] == 0.0
    ensures Total(x) == 0.0 && Cost(x, opp) == 0.0
  {
    if x != [] {
      ZeroTotal(x[1..], opp[1..]);
    }
  }

  lemma {:induction false} TakenIsFill(trades: seq<Trade>, opp: seq<Order>)
    requires |trades| <= |opp| && forall i | 0 <= i < |trades| :: trades[i].price == opp[i].price
    ensures Total(Taken(trades, |opp|)) == Volume(trades)
    ensures Cost(Taken(trades, |opp|), opp) == Value(trades)
  {
    var x := Taken(trades, |opp|);
    if trades == [] {
      ZeroTotal(x, opp);
    } else {
      TakenIsFill(trades[1..], opp[1..]);
      assert x[1..] == Taken(trades[1..], |opp[1..]|);
    }
  }

  /** If x exceeds g only above the price p and falls short only below it, x costs more by p per unit. */
  lemma {:induction false} PivotGap(x: seq<real>, g: seq<real>, opp: seq<Order>, p: real)
    requires |x| == |g| == |opp|
    requires forall i | 0 <= i < |x| :: (x[i] > g[i] ==> opp[i].price >= p) && (x[i] < g[i] ==> opp[i].price <= p)
    ensures Cost(x, opp) - Cost(g, opp) >= Worth(p, Total(x) - Total(g))
  {
    if x != [] {
      PivotGap(x[1..], g[1..], opp[1..], p);
      UnitGap(opp[0].price, p, x[0], g[0]);
      assert Worth(p, Total(x) - Total(g)) == Worth(p, x[0] - g[0]) + Worth(p, Total(x[1..]) - Total(g[1..]));
    }
  }

  lemma {:induction false} UnitGap(q: real, p: real, x: real, g: real)
    requires (x > g ==> q >= p) && (x < g ==> q <= p)
    ensures Worth(q, x) - Worth(q, g) >= Worth(p, x - g)
  {
    assert (q - p) * (x - g) >= 0.0;
  }

  /** Taking a prefix of the queue, all but its last order completely, is the cheapest way to that total. */
  lemma {:induction false} PrefixCheapest(trades: seq<Trade>, asks: seq<Order>, x: seq<real>)
    requires 0 < |trades| <= |asks| && Sorted(asks, Ahead(Sell)) && Allocation(x, asks)
    requires forall i | 0 <= i < |trades| :: i < |trades| - 1 ==> trades[i].qty == asks[i].qty
    ensures Cost(x, asks) - Cost(Taken(trades, |asks|), asks)
            >= Worth(asks[|trades| - 1].price, Total(x) - Total(Taken(trades, |asks|)))
  {
    var last := |trades| - 1;
    var g := Taken(trades, |asks|);
    forall i | 0 <= i < |asks|
      ensures x[i] > g[i] ==> asks[i].price >= asks[last].price
      ensures x[i] < g[i] ==> asks[i].price <= asks[last].price
    {
      if last < i {
        assert !Ahead(Sell)(asks[i], asks[last]);
      } else if i < last {
        assert !Ahead(Sell)(asks[last], asks[i]);
        assert g[i] == trades[i].qty == asks[i].qty;
      }
    }
    PivotGap(x, g, asks, asks[last].price);
  }

  lemma {:induction false} BuyCheapest(sym: Symbol, t: Order, asks: seq<Order>, nid: TradeId, x: seq<real>)
    requires t.side.Buy? && t.qty > 0.0 && Positive(asks) && Sorted(asks, Ahead(Sell))
    requires Allocation(x, asks) && Total(x) == Volume(Fill(sym, t, asks, nid).trades)
    ensures Value(Fill(sym, t, asks, nid).trades) <= Cost(x, asks)
  {
    FillHasShape(sym, t, asks, nid);
    var trades := Fill(sym, t, asks, nid).trades;
    TakenIsFill(trades, asks);
    if trades == [] {
      NothingCostsNothing(x, asks);
    } else {
      PrefixCheapest(trades, asks, x);
    }
  }

  lemma {:induction false} NothingCostsNothing(x: seq<real>, opp: seq<Order>)
    requires Allocation(x, opp) && Total(x) <= 0.0
    ensures Cost(x, opp) == 0.0
  {
    if x != [] {
      TotalNonNegative(x[1..], opp[1..]);
      NothingCostsNothing(x[1..], opp[1..]);
    }
  }

  lemma {:induction false} TotalNonNegative(x: seq<real>, opp: seq<Order>)
    requires Allocation(x, opp)
    ensures Total(x) >= 0.0
  {
    if x != [] {
      TotalNonNegative(x[1..], opp[1..]);
    }
  }

  lemma {:induction false} MirrorSums(trades: seq<Trade>)
    ensures Volume(MirrorTrades(trades)) == Volume(trades) && Value(MirrorTrades(trades)) == -Value(trades)
  {
    if trades != [] {
      MirrorSums(trades[1..]);
      assert MirrorTrades(trades)[1..] == MirrorTrades(trades[1..]);
    }
  }

  lemma {:induction false} MirrorCost(x: seq<real>, opp: seq<Order>)
    requires |x| == |opp|
    ensures Cost(x, MirrorAll(opp)) == -Cost(x, opp)
  {
    if x != [] {
      MirrorCost(x[1..], opp[1..]);
      assert MirrorAll(opp)[1..] == MirrorAll(opp[1..]);
    }
  }

  /**
   Best execution for either side: with the resting orders in book order, a buyer pays no more and a
   seller receives no less than under any other allocation of the same total quantity.
   */
  lemma {:induction false} BestExecutionHolds(sym: Symbol, t: Order, opp: seq<Order>, nid: TradeId, x: seq<real>)
    requires t.qty > 0.0 && Positive(opp) && Sorted(opp, Ahead(t.side.Opposite()))
    requires Allocation(x, opp) && Total(x) == Volume(Fill(sym, t, opp, nid).trades)
    ensures t.side.Buy? ==> Value(Fill(sym, t, opp, nid).trades) <= Cost(x, opp)
    ensures t.side.Sell? ==> Value(Fill(sym, t, opp, nid).trades) >= Cost(x, opp)
  {
    if t.side.Buy? {
      BuyCheapest(sym, t, opp, nid, x);
    } else {
      var asks := MirrorAll(opp);
      FillMirror(sym, t, opp, nid);
      MirrorSums(Fill(sym, t, opp, nid).trades);
      MirrorCost(x, opp);
      forall i, j | 0 <= i < j < |asks| ensures !Ahead(Sell)(asks[j], asks[i]) {
        assert !Ahead(Buy)(opp[j], opp[i]);
      }
      BuyCheapest(sym, Mirror(t), asks, nid, x);
    }
  }
}
