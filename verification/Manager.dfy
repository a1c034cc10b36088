/** The engines by symbol, each with its own book and its own resting orders. */
module Manager {
  import opened Types
  import opened Engine
  import M = Matching

  /** No order object rests in both books, and the books are two. */
  ghost predicate Separate(a: MatchingEngine, b: MatchingEngine)
    reads a.orderBook, b.orderBook
  {
    a != b && a.orderBook != b.orderBook && a.orderBook.Orders() !! b.orderBook.Orders()
  }

  class EngineManager {
    var engines: map<Symbol, MatchingEngine>

    ghost function Books(): set<OrderBook>
      reads this
    {
      set sym | sym in engines :: engines[sym].orderBook
    }

    ghost function Resting(): set<LiveOrder>
      reads this, Books()
    {
      set sym, o | sym in engines && o in engines[sym].orderBook.Orders() :: o
    }

    ghost predicate Valid()
      reads this, engines.Values, Books()
    {
      && (forall sym :: sym in engines ==> engines[sym].Valid() && engines[sym].orderBook.symbol == sym)
      && (forall x, y :: x in engines && y in engines && x != y ==> Separate(engines[x], engines[y]))
    }

    /** A symbol without an engine has an empty book: asking for its engine creates it. */
    ghost function Book(sym: Symbol): M.Book
      reads this, Books(), Resting()
    {
      if sym in engines then
        assert forall o | o in engines[sym].orderBook.Orders() :: o in Resting();
        engines[sym].orderBook.View()
      else M.EMPTY_BOOK
    }

    ghost function NextTrade(sym: Symbol): TradeId
      reads this, engines.Values
    {
      if sym in engines then engines[sym].nextTrade else 0
    }

    constructor ()
      ensures Valid() && engines == map[] && forall sym :: Book(sym) == M.EMPTY_BOOK
    {
      engines := map[];
    }

    method GetEngine(sym: Symbol) returns (e: MatchingEngine)
      requires Valid()
      modifies this
      ensures Valid() && engines == old(engines)[sym := e]
      ensures if sym in old(engines) then e == old(engines)[sym] else fresh(e) && fresh(e.orderBook)
      ensures e.orderBook.Orders() <= old(Resting())
      ensures forall x :: Book(x) == old(Book(x)) && NextTrade(x) == old(NextTrade(x))
    {
      if sym in engines {
        e := engines[sym];
        assert engines[sym := e] == engines;
      } else {
        e := new MatchingEngine(sym);
        AddEngine(sym, e);
      }
    }

    /** Register the new engine of a symbol without one. */
    method AddEngine(sym: Symbol, e: MatchingEngine)
      requires Valid() && sym !in engines && e !in engines.Values && e.orderBook !in Books()
      requires e.Valid() && e.orderBook.symbol == sym && e.nextTrade == 0
      requires e.orderBook.bids == [] && e.orderBook.asks == []
      modifies this
      ensures Valid() && engines == old(engines)[sym := e]
      ensures forall x :: Book(x) == old(Book(x)) && NextTrade(x) == old(NextTrade(x))
    {
      engines := engines[sym := e];
    }

    /** Drop all engines: a new leader starts from the database alone. */
    method Reset()
      modifies this
      ensures Valid() && engines == map[] && forall sym :: Book(sym) == M.EMPTY_BOOK
    {
      engines := map[];
    }
  }

  /** The engine, its book's lists and their orders are what they were. */
  twostate predicate Same(e: MatchingEngine)
    reads e, e.orderBook, e.orderBook.Orders()
  {
    && e.nextTrade == old(e.nextTrade) && e.orderBook.bids == old(e.orderBook.bids)
    && e.orderBook.asks == old(e.orderBook.asks)
    && forall o | o in e.orderBook.Orders() :: o.Value() == old(o.Value())
  }

  /** Then its book looks as it did. */
  twostate lemma {:induction false} ViewKept(e: MatchingEngine)
    requires Same(e)
    ensures e.orderBook.View() == old(e.orderBook.View())
  {
    var b := e.orderBook;
    assert forall o :: o in b.bids || o in b.asks ==> o in b.Orders();
    assert Values(b.bids) == old(Values(b.bids)) && Values(b.asks) == old(Values(b.asks));
  }

  /** Engines stay apart when only one has changed, and what its book has got is in no other. */
  twostate lemma {:induction false} OthersKept(m: EngineManager, new sym: Symbol, new added: set<LiveOrder>)
    requires old(m.Valid()) && m.engines == old(m.engines) && sym in m.engines && m.engines[sym].Valid()
    requires forall x | x in m.engines && x != sym :: Same(m.engines[x])
    requires m.engines[sym].orderBook.Orders() <= old(m.engines[sym].orderBook.Orders()) + added
    requires forall x | x in m.engines && x != sym :: added !! m.engines[x].orderBook.Orders()
    ensures m.Valid()
    ensures forall x :: x != sym ==> m.Book(x) == old(m.Book(x)) && m.NextTrade(x) == old(m.NextTrade(x))
  {
    forall x, y | x in m.engines && y in m.engines && x != y ensures Separate(m.engines[x], m.engines[y]) {
      assert old(Separate(m.engines[x], m.engines[y]));
    }
    forall x | x in m.engines && x != sym ensures m.engines[x].orderBook.View() == old(m.engines[x].orderBook.View()) {
      ViewKept(m.engines[x]);
    }
  }

  /** Put an order into the book of its symbol's engine. */
  method PutInto(manager: EngineManager, sym: Symbol, o: Order)
    requires manager.Valid() && sym in manager.engines
    modifies manager.engines[sym].orderBook
    ensures manager.Valid() && manager.Book(sym) == M.AddOrder(old(manager.Book(sym)), o)
    ensures forall x :: x != sym ==> manager.Book(x) == old(manager.Book(x))
  {
    var engine := manager.engines[sym];
    ghost var engines := manager.engines;
    var order := new LiveOrder(o);
    engine.RestoreOrder(order);
    forall x | x in engines && x != sym ensures Same(engines[x]) {
      assert old(Separate(engines[x], engine));
    }
    OthersKept(manager, sym, {order});
  }

  /** Match an order in one engine. */
  method MatchNew(engine: MatchingEngine, o: Order) returns (remaining: real, trades: seq<Trade>)
    requires engine.Valid()
    modifies engine, engine.orderBook, engine.orderBook.Orders()
    ensures engine.Valid() && fresh(engine.orderBook.Orders() - old(engine.orderBook.Orders()))
    ensures M.Process(engine.orderBook.symbol, old(engine.orderBook.View()), o, old(engine.nextTrade)) ==
            M.Processed(engine.orderBook.View(), trades, remaining)
    ensures engine.nextTrade == old(engine.nextTrade) + |trades|
  {
    var order := new LiveOrder(o);
    trades := engine.Process(order);
    remaining := order.qty;
  }

  /** Match an order in its symbol's engine. */
  method MatchIn(manager: EngineManager, sym: Symbol, o: Order) returns (remaining: real, trades: seq<Trade>)
    requires manager.Valid() && sym in manager.engines
    modifies manager.engines[sym], manager.engines[sym].orderBook, manager.engines[sym].orderBook.Orders()
    ensures manager.Valid()
    ensures var p := M.Process(sym, old(manager.Book(sym)), o, old(manager.NextTrade(sym)));
            && p == M.Processed(manager.Book(sym), trades, remaining)
            && manager.NextTrade(sym) == old(manager.NextTrade(sym)) + |trades|
    ensures forall x :: x != sym ==> manager.Book(x) == old(manager.Book(x))
                                     && manager.NextTrade(x) == old(manager.NextTrade(x))
  {
    var engine := manager.engines[sym];
    ghost var engines := manager.engines;
    remaining, trades := MatchNew(engine, o);
    forall x | x in engines && x != sym ensures Same(engines[x]) {
      assert old(Separate(engines[x], engine));
    }
    OthersKept(manager, sym, engine.orderBook.Orders() - old(engine.orderBook.Orders()));
  }

  /** Cancel an order in its symbol's engine. */
  method CancelIn(manager: EngineManager, sym: Symbol, id: OrderId, side: Side) returns (found: bool)
    requires manager.Valid() && sym in manager.engines
    modifies manager.engines[sym].orderBook
    ensures manager.Valid()
    ensures (manager.Book(sym), found) == M.Cancel(old(manager.Book(sym)), id, side)
    ensures forall x :: x != sym ==> manager.Book(x) == old(manager.Book(x))
    ensures forall x :: manager.NextTrade(x) == old(manager.NextTrade(x))
  {
    var engine := manager.engines[sym];
    ghost var engines := manager.engines;
    found := engine.Cancel(id, side);
    forall x | x in engines && x != sym ensures Same(engines[x]) {
      assert old(Separate(engines[x], engine));
    }
    OthersKept(manager, sym, {});
  }

  /** Put an order into its symbol's book, which is created when there is none. */
  method RestoreOrder(manager: EngineManager, sym: Symbol, o: Order)
    requires manager.Valid()
    modifies manager, manager.Books()
    ensures manager.Valid() && fresh(manager.Books() - old(manager.Books()))
    ensures forall x ::
              manager.Book(x) == if x == sym then M.AddOrder(old(manager.Book(x)), o) else old(manager.Book(x))
  {
    var engine := manager.GetEngine(sym);
    assert manager.Books() <= old(manager.Books()) + {engine.orderBook};
    PutInto(manager, sym, o);
  }

  /** Match an order in its symbol's engine, which is created when there is none. */
  method Match(manager: EngineManager, sym: Symbol, o: Order) returns (remaining: real, trades: seq<Trade>)
    requires manager.Valid()
    modifies manager, manager.engines.Values, manager.Books(), manager.Resting()
    ensures manager.Valid()
    ensures M.Process(sym, old(manager.Book(sym)), o, old(manager.NextTrade(sym))) ==
            M.Processed(manager.Book(sym), trades, remaining)
    ensures manager.NextTrade(sym) == old(manager.NextTrade(sym)) + |trades|
    ensures forall x :: x != sym ==> manager.Book(x) == old(manager.Book(x))
                                     && manager.NextTrade(x) == old(manager.NextTrade(x))
  {
    var engine := manager.GetEngine(sym);
    remaining, trades := MatchIn(manager, sym, o);
  }

  /** Cancel an order in its symbol's engine, which is created when there is none. */
  method Cancel(manager: EngineManager, sym: Symbol, id: OrderId, side: Side) returns (found: bool)
    requires manager.Valid()
    modifies manager, manager.Books()
    ensures manager.Valid()
    ensures (manager.Book(sym), found) == M.Cancel(old(manager.Book(sym)), id, side)
    ensures forall x :: x != sym ==> manager.Book(x) == old(manager.Book(x))
    ensures forall x :: manager.NextTrade(x) == old(manager.NextTrade(x))
  {
    var engine := manager.GetEngine(sym);
    found := CancelIn(manager, sym, id, side);
  }
}
