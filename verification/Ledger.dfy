/** The order ledger: what an order's row says was filled is what the trade rows naming it add up to. */
module Ledger {
  import opened Types
  import opened Settlement
  import opened OrderFlow
  import M = Matching

  /** Quantity of all trades naming the order, as maker or as taker. */
  function TradeSum(trades: seq<Trade>, id: OrderId): real {
    if trades == [] then 0.0
    else (if trades[0].maker == id || trades[0].taker == id then trades[0].qty else 0.0) + TradeSum(trades[1..], id)
  }

  ghost predicate Booked(orders: Orders, trades: seq<Trade>) {
    forall id :: id in orders ==> orders[id].filled == TradeSum(trades, id)
  }

  function TradesOf(e: Event): seq<Trade> {
    if e.SettlementRequested? then e.trades else []
  }

  lemma {:induction false} TradeSumConcat(a: seq<Trade>, b: seq<Trade>, id: OrderId)
    ensures TradeSum(a + b, id) == TradeSum(a, id) + TradeSum(b, id)
  {
    if a == [] {
      assert a + b == b;
    } else {
      assert (a + b)[1..] == a[1..] + b;
      TradeSumConcat(a[1..], b, id);
    }
  }

  lemma {:induction false} TradeSumAbsent(trades: seq<Trade>, id: OrderId)
    requires forall t :: t in trades ==> t.maker != id && t.taker != id
    ensures TradeSum(trades, id) == 0.0
  {
    if trades != [] {
      assert trades[0] in trades;
      TradeSumAbsent(trades[1..], id);
    }
  }

  lemma {:induction false} TradeSumTaker(trades: seq<Trade>, id: OrderId)
    requires forall t :: t in trades ==> t.taker == id
    ensures TradeSum(trades, id) == M.Volume(trades)
  {
    if trades != [] {
      assert trades[0] in trades;
      TradeSumTaker(trades[1..], id);
    }
  }

  lemma {:induction false} TradeSumMaker(trades: seq<Trade>, i: nat)
    requires i < |trades| && forall j | 0 <= j < |trades| && j != i :: trades[j].maker != trades[i].maker
    requires forall t :: t in trades ==> t.taker != trades[i].maker
    ensures TradeSum(trades, trades[i].maker) == trades[i].qty
  {
    var rest := trades[1..];
    assert trades[0] in trades;
    if i == 0 {
      forall t | t in rest ensures t.maker != trades[0].maker {
        var j :| 0 <= j < |rest| && rest[j] == t;
        assert trades[j + 1].maker != trades[0].maker;
      }
      TradeSumAbsent(rest, trades[0].maker);
    } else {
      assert trades[0].maker != trades[i].maker;
      TradeSumMaker(rest, i - 1);
    }
  }

  /** What a settlement adds to one row is what its trades name. */
  lemma {:induction false} FilledByTrades(o: Orders, e: Event, id: OrderId)
    requires RowsOk(o) && Valid(o, e) && e.SettlementRequested? && id in o
    ensures id in Rows(o, e) && Rows(o, e)[id].filled == o[id].filled + TradeSum(e.trades, id)
  {
    assert forall t :: t in e.trades ==> ValidTrade(o, t, o[e.taker]);
    if id == e.taker {
      SettledTaker(o, e);
      TradeSumTaker(e.trades, id);
    } else if i :| MakerOf(e.trades, i, id) {
      SettledMaker(o, e, i);
      TradeSumMaker(e.trades, i);
    } else {
      forall t | t in e.trades ensures t.maker != id {
        var j :| 0 <= j < |e.trades| && e.trades[j] == t;
        assert !MakerOf(e.trades, j, id);
      }
      SettledOther(o, e, id);
      TradeSumAbsent(e.trades, id);
    }
  }

  /** Applying an event together with its trade rows keeps the ledger balanced. */
  lemma {:induction false} RowsBooked(o: Orders, trades: seq<Trade>, e: Event)
    requires RowsOk(o) && Valid(o, e) && Booked(o, trades)
    ensures Booked(Rows(o, e), trades + TradesOf(e))
  {
    RowsForward(o, e);
    forall id | id in o ensures Rows(o, e)[id].filled == TradeSum(trades + TradesOf(e), id) {
      TradeSumConcat(trades, TradesOf(e), id);
      if e.SettlementRequested? {
        FilledByTrades(o, e, id);
      }
    }
  }
}
