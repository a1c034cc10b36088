/**
 Events under way: a symbol's topic holds events whose effects on its orders lie ahead, each valid once
 the ones before it are applied. Adding an order or appending an event keeps that.
 */
module Streams {
  import opened Types
  import opened Settlement
  import opened OrderFlow
  import opened BookInvariant
  import opened Subscriber
  import M = Matching

  /** The orders of one symbol. */
  function On(orders: Orders, sym: Symbol): Orders {
    map id | id in orders && orders[id].symbol == sym :: orders[id]
  }

  /** Rows once all queued events are applied. */
  ghost function Fold(o: Orders, q: seq<Event>): Orders
    decreases q
  {
    if q == [] then o else Fold(Rows(o, q[0]), q[1..])
  }

  ghost predicate Chain(o: Orders, q: seq<Event>)
    decreases q
  {
    q == [] || (Valid(o, q[0]) && Chain(Rows(o, q[0]), q[1..]))
  }

  lemma {:induction false} ChainAppend(o: Orders, q: seq<Event>, e: Event)
    requires Chain(o, q) && Valid(Fold(o, q), e)
    ensures Chain(o, q + [e]) && Fold(o, q + [e]) == Rows(Fold(o, q), e)
    decreases q
  {
    assert (q + [e])[0] == if q == [] then e else q[0];
    if q == [] {
      assert (q + [e])[1..] == [];
    } else {
      assert (q + [e])[1..] == q[1..] + [e];
      ChainAppend(Rows(o, q[0]), q[1..], e);
    }
  }

  lemma {:induction false} ForwardTwice(a: Row, b: Row, c: Row)
    requires Forward(a, b) && Forward(b, c)
    ensures Forward(a, c)
  {
  }

  /** Whatever is queued only moves rows forward. */
  lemma {:induction false} FoldForward(o: Orders, q: seq<Event>)
    requires RowsOk(o) && Chain(o, q)
    ensures Fold(o, q).Keys == o.Keys && RowsOk(Fold(o, q))
    ensures forall id :: id in o ==> Forward(o[id], Fold(o, q)[id])
    decreases q
  {
    if q != [] {
      RowsForward(o, q[0]);
      FoldForward(Rows(o, q[0]), q[1..]);
      forall id | id in o ensures Forward(o[id], Fold(o, q)[id]) {
        ForwardTwice(o[id], Rows(o, q[0])[id], Fold(o, q)[id]);
      }
    }
  }

  lemma {:induction false} ValidMore(o: Orders, more: Orders, e: Event)
    requires Valid(o, e) && o.Keys <= more.Keys && forall id :: id in o ==> more[id] == o[id]
    ensures Valid(more, e)
  {
    if e.SettlementRequested? {
      forall t | t in e.trades ensures ValidTrade(more, t, more[e.taker]) {
        assert ValidTrade(o, t, o[e.taker]);
      }
    }
  }

  /** Applying an event to a part of the table that it is valid for is applying it to the table. */
  lemma {:induction false} RowsOfPart(orders: Orders, part: Orders, e: Event)
    requires RowsOk(orders) && Valid(part, e)
    requires part.Keys <= orders.Keys && forall id :: id in part ==> part[id] == orders[id]
    ensures Valid(orders, e) && Rows(orders, e) == orders + Rows(part, e)
  {
    ValidMore(part, orders, e);
    if e.SettlementRequested? {
      ValidIds(part, e);
      LockedSuffices(orders, part, e);
    }
  }

  lemma {:induction false} RowsAdd(o: Orders, e: Event, id: OrderId, r: Row)
    requires RowsOk(o) && Valid(o, e) && id !in o && RowOk(id, r)
    ensures Valid(o[id := r], e) && Rows(o[id := r], e) == Rows(o, e)[id := r]
  {
    RowsForward(o, e);
    RowsOfPart(o[id := r], o, e);
    Overlaid(o, id, r, Rows(o, e));
  }

  lemma {:induction false} Overlaid(o: Orders, id: OrderId, r: Row, rows: Orders)
    requires id !in o && rows.Keys == o.Keys
    ensures o[id := r] + rows == rows[id := r]
  {
  }

  /** A new order does not disturb the events queued before it. */
  lemma {:induction false} ChainAdd(o: Orders, q: seq<Event>, id: OrderId, r: Row)
    requires RowsOk(o) && Chain(o, q) && id !in o && RowOk(id, r)
    ensures Chain(o[id := r], q) && Fold(o[id := r], q) == Fold(o, q)[id := r]
    decreases q
  {
    if q != [] {
      RowsAdd(o, q[0], id, r);
      RowsForward(o, q[0]);
      ChainAdd(Rows(o, q[0]), q[1..], id, r);
    }
  }

  lemma {:induction false} RowsKeepSymbols(o: Orders, e: Event)
    requires RowsOk(o) && Valid(o, e)
    ensures Rows(o, e).Keys == o.Keys && RowsOk(Rows(o, e))
    ensures forall id :: id in o ==> Rows(o, e)[id].symbol == o[id].symbol
  {
    RowsForward(o, e);
    forall id | id in o ensures Rows(o, e)[id].symbol == o[id].symbol {
      assert Forward(o[id], Rows(o, e)[id]);
      assert Terms(o[id]).symbol == Terms(Rows(o, e)[id]).symbol;
    }
  }

  /** Overwriting one symbol's orders with orders of that symbol. */
  lemma {:induction false} OnOverwritten(orders: Orders, sym: Symbol, part: Orders)
    requires part.Keys == On(orders, sym).Keys && forall id :: id in part ==> part[id].symbol == sym
    ensures On(orders + part, sym) == part
    ensures forall other :: other != sym ==> On(orders + part, other) == On(orders, other)
  {
  }

  /** An event of one symbol, applied to the table, shows in that symbol's orders only. */
  lemma {:induction false} RowsOnSymbol(orders: Orders, sym: Symbol, e: Event)
    requires RowsOk(orders) && Valid(On(orders, sym), e)
    ensures Valid(orders, e) && Rows(orders, e).Keys == orders.Keys && RowsOk(Rows(orders, e))
    ensures On(Rows(orders, e), sym) == Rows(On(orders, sym), e)
    ensures forall other :: other != sym ==> On(Rows(orders, e), other) == On(orders, other)
  {
    var part := On(orders, sym);
    RowsOfPart(orders, part, e);
    RowsKeepSymbols(orders, e);
    RowsKeepSymbols(part, e);
    OnOverwritten(orders, sym, Rows(part, e));
  }

  /** Arrivals of other symbols' orders leave a symbol's book and rows in agreement. */
  lemma {:induction false} LinkedElsewhere(o: Orders, b: M.Book, at: Arrivals, id: OrderId, next: Arrivals)
    requires Linked(o, b, at) && Arrives(at, id, next) && id !in o
    ensures Linked(o, b, next)
  {
    QueuedExtend(Buy, b.bids, at, next);
    QueuedExtend(Sell, b.asks, at, next);
    forall side: Side ensures SideLinked(o, side, b.On(side), next) {
      assert SideLinked(o, side, b.On(side), at);
    }
  }

  lemma {:induction false} LinkedAdd(o: Orders, b: M.Book, at: Arrivals, id: OrderId, r: Row)
    requires Linked(o, b, at) && id !in o && id !in at && r.status.New?
    ensures Linked(o[id := r], b, at)
  {
    forall side: Side ensures SideLinked(o[id := r], side, b.On(side), at) {
      assert SideLinked(o, side, b.On(side), at);
    }
  }

  // The consumer's end

  /** Trade ids that the table does not have yet. */
  ghost predicate NewTrades(trades: seq<Trade>, e: Event) {
    e.SettlementRequested? ==> forall t :: t in e.trades ==> !TradeExists(trades, t.id)
  }

  /** What an event whose rows are ready does: never skipped, and aborted only by a negative balance. */
  lemma {:induction false} DeliverValid(db: DB, e: Event)
    requires RowsOk(db.orders) && Valid(db.orders, e) && TokenValid(db.fence, e.token) && NewTrades(db.trades, e)
    ensures var out := Deliver(db, e);
            && out != Skipped
            && (out.Committed? ==> out.db.orders == Rows(db.orders, e) && out.db.fence == db.fence)
            && (out.Committed? ==> out.db.trades == db.trades + if e.SettlementRequested? then e.trades else [])
            && (out.Aborted? <==> e.SettlementRequested? && OrderIds(e) <= db.orders.Keys
                                  && !Solvent(db.accounts, SettlementUpdates(db.orders, e)))
  {
    if e.SettlementRequested? {
      ValidIds(db.orders, e);
      forall i, j | 0 <= i < j < |e.trades| ensures e.trades[i].id != e.trades[j].id {
      }
    }
  }

  /** An event that has had its effect and can have none again. */
  ghost predicate Absorbed(orders: Orders, e: Event) {
    if e.SettlementRequested? then e.taker in orders && !orders[e.taker].status.New?
    else e.id in orders && orders[e.id].Closed()
  }

  /** An event that can have no effect any more: it has had it, or a newer token shuts it out for good. */
  ghost predicate Spent(db: DB, e: Event) {
    Absorbed(db.orders, e) || !TokenValid(db.fence, e.token)
  }

  lemma {:induction false} SpentSkips(db: DB, e: Event)
    requires Spent(db, e)
    ensures Deliver(db, e) == Skipped
  {
  }

  /**
   What passes without effect, for any tables and any event: a settlement whose first trade is in the trades table,
   whose taker is not NEW, or one of whose orders is missing; a cancel of a missing or closed order; and every positive
   token behind the leader row's.
   */
  lemma {:induction false} PassedOverIff(db: DB, e: Event)
    ensures Deliver(db, e) == Skipped <==>
            || (db.fence.Some? && 0 < e.token < db.fence.value)
            || (e.OrderCanceled? &&
                (e.id !in db.orders || db.orders[e.id].status.Filled? || db.orders[e.id].status.Canceled?))
            || (e.SettlementRequested? &&
                (|| (e.trades != [] && exists t :: t in db.trades && t.id == e.trades[0].id)
                 || e.taker !in db.orders || !db.orders[e.taker].status.New?
                 || exists t :: t in e.trades && t.maker !in db.orders))
  {
    if e.SettlementRequested? && !(OrderIds(e) <= db.orders.Keys) {
      var id :| id in OrderIds(e) && id !in db.orders;
    }
    if e.SettlementRequested? && exists t :: t in e.trades && t.maker !in db.orders {
      var t :| t in e.trades && t.maker !in db.orders;
      assert t.maker in OrderIds(e);
    }
  }

  /** For an event whose rows are ready, the token alone decides whether it is passed over. */
  lemma {:induction false} SkippedIff(db: DB, e: Event)
    requires RowsOk(db.orders) && Valid(db.orders, e) && NewTrades(db.trades, e)
    ensures Deliver(db, e) == Skipped <==> !TokenValid(db.fence, e.token)
  {
    if TokenValid(db.fence, e.token) {
      DeliverValid(db, e);
    } else {
      SpentSkips(db, e);
    }
  }

  lemma {:induction false} AppliedIsAbsorbed(orders: Orders, e: Event)
    requires RowsOk(orders) && Valid(orders, e)
    ensures Absorbed(Rows(orders, e), e)
  {
    if e.SettlementRequested? {
      TakerRests(orders, e);
    }
  }

  lemma {:induction false} AbsorbedStays(orders: Orders, e: Event, d: Event)
    requires RowsOk(orders) && Valid(orders, e) && Absorbed(orders, d)
    ensures Absorbed(Rows(orders, e), d)
  {
    RowsForward(orders, e);
    var id := if d.SettlementRequested? then d.taker else d.id;
    assert Forward(orders[id], Rows(orders, e)[id]);
  }
}
