/** What every sequence of new orders and cancels keeps true of the book. */
module BookInvariant {
  import opened Types
  import opened Sorting
  import opened Matching

  /** Arrival number of every order handed to the engine so far. */
  type Arrivals = map<OrderId, nat>

  /** Price first, then arrival: strictly ahead in the queue of one side. */
  ghost predicate Before(side: Side, at: Arrivals, a: Order, b: Order) {
    && a.id in at && b.id in at && a.id != b.id
    && (Better(side, a.price, b.price) || (a.price == b.price && at[a.id] < at[b.id]))
  }

  ghost predicate Queued(side: Side, s: seq<Order>, at: Arrivals) {
    && (forall o :: o in s ==> o.id in at && o.side == side && o.otype.Limit? && o.qty > 0.0)
    && (forall i, j | 0 <= i < j < |s| :: Before(side, at, s[i], s[j]))
  }

  /**
   Both sides in price-time order and of positive limit orders, no order on both sides, and the best
   bid strictly below the best ask.
   */
  ghost predicate Tidy(b: Book, at: Arrivals) {
    && Queued(Buy, b.bids, at) && Queued(Sell, b.asks, at)
    && (forall x, y :: x in b.bids && y in b.asks ==> x.id != y.id && x.price < y.price)
  }

  lemma {:induction false} AheadIsWeakOrder(side: Side)
    ensures StrictWeakOrder(Ahead(side))
  {
  }

  lemma {:induction false} QueuedSorted(side: Side, s: seq<Order>, at: Arrivals)
    requires Queued(side, s, at)
    ensures Sorted(s, Ahead(side))
  {
    forall i, j | 0 <= i < j < |s| ensures !Ahead(side)(s[j], s[i]) {
      assert Before(side, at, s[i], s[j]);
    }
  }

  /** The tail of a side, its first order possibly reduced. */
  ghost predicate SuffixOf(rest: seq<Order>, opp: seq<Order>) {
    && |rest| <= |opp|
    && forall i | 0 <= i < |rest| :: rest[i] == opp[|opp| - |rest| + i].(qty := rest[i].qty)
  }

  /** The same order, up to its remaining quantity. */
  predicate Same(a: Order, b: Order) {
    a == b.(qty := a.qty)
  }

  ghost predicate From(s: seq<Order>, t: seq<Order>) {
    forall o :: o in s ==> exists p :: p in t && Same(o, p)
  }

  lemma {:induction false} ShapeSuffix(sym: Symbol, t: Order, opp: seq<Order>, nid: TradeId, f: FillResult)
    requires FillShape(sym, t, opp, nid, f)
    ensures SuffixOf(f.rest, opp)
  {
  }

  lemma {:induction false} SuffixQueued(side: Side, rest: seq<Order>, opp: seq<Order>, at: Arrivals)
    requires SuffixOf(rest, opp) && Queued(side, opp, at) && Positive(rest)
    ensures Queued(side, rest, at)
    ensures From(rest, opp)
  {
    var k := |opp| - |rest|;
    forall o | o in rest
      ensures exists p :: p in opp && Same(o, p)
      ensures o.id in at && o.side == side && o.otype.Limit? && o.qty > 0.0
    {
      var i :| 0 <= i < |rest| && rest[i] == o;
      assert opp[k + i] in opp;
    }
    forall i, j | 0 <= i < j < |rest| ensures Before(side, at, rest[i], rest[j]) {
      assert Before(side, at, opp[k + i], opp[k + j]);
    }
  }

  /** A new order with the latest arrival number queues behind its price and ahead of worse prices. */
  lemma {:induction false} InsertQueued(side: Side, s: seq<Order>, o: Order, at: Arrivals)
    requires Queued(side, s, at)
    requires o.side == side && o.otype.Limit? && o.qty > 0.0 && o.id in at
    requires forall x :: x in s ==> at[x.id] < at[o.id]
    ensures Queued(side, Insert(s, o, Ahead(side)), at)
  {
    InsertElements(s, o, Ahead(side));
    if s != [] && !Ahead(side)(o, s[0]) {
      InsertQueued(side, s[1..], o, at);
      var t := Insert(s[1..], o, Ahead(side));
      InsertElements(s[1..], o, Ahead(side));
      forall j | 0 <= j < |t| ensures Before(side, at, s[0], t[j]) {
        assert t[j] in t;
        if t[j] != o {
          var k :| 0 <= k < |s[1..]| && s[1..][k] == t[j];
          assert Before(side, at, s[0], s[k + 1]);
        }
      }
    } else if s != [] {
      forall j | 0 <= j < |s| ensures Before(side, at, o, s[j]) {
        assert j > 0 ==> Before(side, at, s[0], s[j]);
      }
    }
  }

  lemma {:induction false} AddOrderQueued(b: Book, o: Order, at: Arrivals)
    requires Queued(o.side, b.On(o.side), at)
    requires o.otype.Limit? && o.qty > 0.0 && o.id in at
    requires forall x :: x in b.On(o.side) ==> at[x.id] < at[o.id]
    ensures Queued(o.side, AddOrder(b, o).On(o.side), at)
    ensures forall x :: x in AddOrder(b, o).On(o.side) <==> x in b.On(o.side) || x == o
  {
    AheadIsWeakOrder(o.side);
    QueuedSorted(o.side, b.On(o.side), at);
    SortAppend(b.On(o.side), o, Ahead(o.side));
    InsertQueued(o.side, b.On(o.side), o, at);
    InsertElements(b.On(o.side), o, Ahead(o.side));
  }

  lemma {:induction false} QueuedExtend(side: Side, s: seq<Order>, at: Arrivals, more: Arrivals)
    requires Queued(side, s, at)
    requires forall id :: id in at ==> id in more && more[id] == at[id]
    ensures Queued(side, s, more)
  {
    forall i, j | 0 <= i < j < |s| ensures Before(side, more, s[i], s[j]) {
      assert Before(side, at, s[i], s[j]);
    }
  }

  /** Arrival of a fresh order: later than everything before it. */
  ghost predicate Arrives(at: Arrivals, id: OrderId, next: Arrivals) {
    && id !in at && id in next && next.Keys == at.Keys + {id}
    && (forall x :: x in at ==> next[x] == at[x])
    && (forall x :: x in at ==> next[x] < next[id])
  }

  /** Matching alone: the opposite side keeps its order, and every maker belongs to another user. */
  lemma {:induction false} FillTidy(sym: Symbol, t: Order, opp: Side, s: seq<Order>, nid: TradeId, at: Arrivals)
    requires Queued(opp, s, at) && t.side == opp.Opposite() && t.qty > 0.0
    ensures var f := Fill(sym, t, s, nid);
            && Queued(opp, f.rest, at) && From(f.rest, s)
            && (f.left > 0.0 && f.rest != [] ==> !Crosses(t, f.rest[0]))
            && NoWash(f.trades, t, s)
  {
    FillHasShape(sym, t, s, nid);
    var f := Fill(sym, t, s, nid);
    ShapeSuffix(sym, t, s, nid, f);
    SuffixQueued(opp, f.rest, s, at);
    forall tr | tr in f.trades
      ensures tr.taker == t.id && exists m :: m in s && m.id == tr.maker && m.user != t.user
    {
      var i :| 0 <= i < |f.trades| && f.trades[i] == tr;
      assert s[i] in s;
    }
  }

  /** Every trade is the taker's, with an order of the side that belongs to somebody else. */
  ghost predicate NoWash(trades: seq<Trade>, o: Order, opp: seq<Order>) {
    forall tr :: tr in trades ==> tr.taker == o.id && exists m :: m in opp && m.id == tr.maker && m.user != o.user
  }

  /** One Process step: the book stays tidy and only holds old orders and the new one. */
  lemma {:induction false} ProcessTidy(sym: Symbol, b: Book, o: Order, nid: TradeId, at: Arrivals, next: Arrivals)
    requires Tidy(b, at) && Arrives(at, o.id, next) && o.qty > 0.0
    ensures var p := Process(sym, b, o, nid);
            && Tidy(p.book, next)
            && From(p.book.On(o.side), b.On(o.side) + [o])
            && From(p.book.On(o.side.Opposite()), b.On(o.side.Opposite()))
            && NoWash(p.trades, o, b.On(o.side.Opposite()))
  {
    var opp := o.side.Opposite();
    TidyExtend(b, at, next);
    FillTidy(sym, o, opp, b.On(opp), nid, next);
    var f := Fill(sym, o, b.On(opp), nid);
    MatchedTidy(b, opp, f.rest, next);
    FromSelf(b.On(o.side), o);
    if f.left > 0.0 && o.otype.Limit? {
      LatestArrival(b, o.id, at, next);
      RestingTidy(b.With(opp, f.rest), o, f.left, next);
    }
  }

  lemma {:induction false} TidyExtend(b: Book, at: Arrivals, next: Arrivals)
    requires Tidy(b, at) && forall id :: id in at ==> id in next && next[id] == at[id]
    ensures Tidy(b, next)
  {
    QueuedExtend(Buy, b.bids, at, next);
    QueuedExtend(Sell, b.asks, at, next);
  }

  lemma {:induction false} FromSelf(s: seq<Order>, o: Order)
    ensures From(s, s + [o])
  {
    forall x | x in s ensures exists p :: p in s + [o] && Same(x, p) {
      assert x in s + [o] && Same(x, x);
    }
  }

  lemma {:induction false} LatestArrival(b: Book, id: OrderId, at: Arrivals, next: Arrivals)
    requires Tidy(b, at) && Arrives(at, id, next)
    ensures forall side: Side, x: Order :: x in b.On(side) ==> x.id in at && x.id != id && next[x.id] < next[id]
  {
  }

  /** What is left of a limit order that crosses nothing any more rests on its own side. */
  lemma {:induction false} RestingTidy(b: Book, o: Order, left: real, at: Arrivals)
    requires Tidy(b, at) && o.otype.Limit? && left > 0.0 && o.id in at
    requires forall x :: x in b.On(o.side) ==> at[x.id] < at[o.id]
    requires forall x :: x in b.On(o.side.Opposite()) ==> x.id != o.id
    requires b.On(o.side.Opposite()) != [] ==> !Crosses(o, b.On(o.side.Opposite())[0])
    ensures var r := AddOrder(b, o.(qty := left));
            Tidy(r, at) && From(r.On(o.side), b.On(o.side) + [o]) && r.On(o.side.Opposite()) == b.On(o.side.Opposite())
  {
    var resting := o.(qty := left);
    RestUncrossed(o.side.Opposite(), b.On(o.side.Opposite()), o, at);
    RestTidy(b, resting, at);
    FromSelf(b.On(o.side), o);
    assert Same(resting, o) && o in b.On(o.side) + [o];
  }

  lemma {:induction false} MatchedTidy(b: Book, opp: Side, rest: seq<Order>, at: Arrivals)
    requires Tidy(b, at) && Queued(opp, rest, at) && From(rest, b.On(opp))
    ensures Tidy(b.With(opp, rest), at)
  {
  }

  /** The best remaining price not crossing the taker's, none of them does. */
  lemma {:induction false} RestUncrossed(opp: Side, rest: seq<Order>, o: Order, at: Arrivals)
    requires Queued(opp, rest, at) && o.side == opp.Opposite() && o.otype.Limit?
    requires rest != [] ==> !Crosses(o, rest[0])
    ensures forall x :: x in rest ==> Better(opp, o.price, x.price)
  {
    forall x | x in rest ensures Better(opp, o.price, x.price) {
      var i :| 0 <= i < |rest| && rest[i] == x;
      assert i > 0 ==> Before(opp, at, rest[0], rest[i]);
    }
  }

  /** Adding a latest arrival that crosses nothing keeps the book tidy. */
  lemma {:induction false} RestTidy(b: Book, o: Order, at: Arrivals)
    requires Tidy(b, at) && o.otype.Limit? && o.qty > 0.0 && o.id in at
    requires forall x :: x in b.On(o.side) ==> at[x.id] < at[o.id]
    requires forall x :: x in b.On(o.side.Opposite()) ==> x.id != o.id && Better(o.side.Opposite(), o.price, x.price)
    ensures Tidy(AddOrder(b, o), at)
    ensures forall x :: x in AddOrder(b, o).On(o.side) <==> x in b.On(o.side) || x == o
    ensures AddOrder(b, o).On(o.side.Opposite()) == b.On(o.side.Opposite())
  {
    AddOrderQueued(b, o, at);
  }

  lemma {:induction false} RemoveIdKeeps(side: Side, s: seq<Order>, id: OrderId, at: Arrivals)
    requires Queued(side, s, at)
    ensures var (r, found) := RemoveId(s, id);
            && Queued(side, r, at)
            && (found <==> exists o :: o in s && o.id == id)
            && (forall o :: o in r <==> o in s && o.id != id)
  {
    if s != [] {
      assert forall j | 0 < j < |s| :: Before(side, at, s[0], s[j]);
      assert s == [s[0]] + s[1..];
      if s[0].id != id {
        RemoveIdKeeps(side, s[1..], id, at);
        QueueOnto(side, s, RemoveId(s[1..], id).0, at);
      }
    }
  }

  /** The head of a queue stays the head of any shorter queue behind it. */
  lemma {:induction false} QueueOnto(side: Side, s: seq<Order>, r: seq<Order>, at: Arrivals)
    requires s != [] && Queued(side, s, at) && Queued(side, r, at) && forall o :: o in r ==> o in s[1..]
    ensures Queued(side, [s[0]] + r, at)
  {
    forall j | 0 <= j < |r| ensures Before(side, at, s[0], r[j]) {
      assert r[j] in r;
      var k :| 0 <= k < |s[1..]| && s[1..][k] == r[j];
      assert Before(side, at, s[0], s[k + 1]);
    }
  }

  lemma {:induction false} CancelTidy(b: Book, id: OrderId, side: Side, at: Arrivals)
    requires Tidy(b, at)
    ensures Tidy(Cancel(b, id, side).0, at)
  {
    RemoveIdKeeps(side, b.On(side), id, at);
  }

  // What holds of any book, crossed or not

  /** Both sides in price-time order and of positive limit orders. */
  ghost predicate Ranked(b: Book, at: Arrivals) {
    Queued(Buy, b.bids, at) && Queued(Sell, b.asks, at)
  }

  lemma {:induction false} ProcessRanked(sym: Symbol, b: Book, o: Order, nid: TradeId, at: Arrivals, next: Arrivals)
    requires Ranked(b, at) && Arrives(at, o.id, next) && o.qty > 0.0
    ensures Ranked(Process(sym, b, o, nid).book, next)
  {
    var opp := o.side.Opposite();
    QueuedExtend(Buy, b.bids, at, next);
    QueuedExtend(Sell, b.asks, at, next);
    FillTidy(sym, o, opp, b.On(opp), nid, next);
    var f := Fill(sym, o, b.On(opp), nid);
    if f.left > 0.0 && o.otype.Limit? {
      AddOrderQueued(b.With(opp, f.rest), o.(qty := f.left), next);
    }
  }

  lemma {:induction false} CancelRanked(b: Book, id: OrderId, side: Side, at: Arrivals)
    requires Ranked(b, at)
    ensures Ranked(Cancel(b, id, side).0, at)
  {
    RemoveIdKeeps(side, b.On(side), id, at);
  }

  // Whole runs

  datatype Command = New(o: Order) | Withdraw(id: OrderId, side: Side)

  datatype EngineState = EngineState(book: Book, nextTrade: TradeId, trades: seq<Trade>, at: Arrivals,
                                     users: map<OrderId, UserId>)

  const START: EngineState := EngineState(EMPTY_BOOK, 0, [], map[], map[])

  function Step(sym: Symbol, s: EngineState, c: Command): EngineState {
    match c
    case New(o) =>
      var p := Process(sym, s.book, o, s.nextTrade);
      EngineState(p.book, s.nextTrade + |p.trades|, s.trades + p.trades, s.at[o.id := |s.at|], s.users[o.id := o.user])
    case Withdraw(id, side) =>
      s.(book := Cancel(s.book, id, side).0)
  }

  function Run(sym: Symbol, s: EngineState, cmds: seq<Command>): EngineState
    decreases cmds
  {
    if cmds == [] then s else Run(sym, Step(sym, s, cmds[0]), cmds[1..])
  }

  /** Positive quantities, and each order handed to the engine once. */
  ghost predicate FreshCommands(cmds: seq<Command>, seen: set<OrderId>) {
    && (forall i | 0 <= i < |cmds| && cmds[i].New? :: cmds[i].o.qty > 0.0 && cmds[i].o.id !in seen)
    && (forall i, j | 0 <= i < j < |cmds| && cmds[i].New? && cmds[j].New? :: cmds[i].o.id != cmds[j].o.id)
  }

  /** Resting orders belong to the users they were handed in for. */
  ghost predicate Known(s: seq<Order>, users: map<OrderId, UserId>) {
    forall o :: o in s ==> o.id in users && users[o.id] == o.user
  }

  lemma {:induction false} FromKnown(s: seq<Order>, t: seq<Order>, users: map<OrderId, UserId>)
    requires From(s, t) && Known(t, users)
    ensures Known(s, users)
  {
    forall o | o in s ensures o.id in users && users[o.id] == o.user {
      var p :| p in t && Same(o, p);
    }
  }

  /** The book invariant together with what the history says about trades. */
  ghost predicate Sound(s: EngineState) {
    && Tidy(s.book, s.at)
    && s.at.Keys == s.users.Keys
    && (forall id :: id in s.at ==> s.at[id] < |s.at|)
    && Known(s.book.bids, s.users) && Known(s.book.asks, s.users)
    && (forall t :: t in s.trades ==> t.maker in s.users && t.taker in s.users && s.users[t.maker] != s.users[t.taker])
  }

  lemma {:induction false} NewSound(sym: Symbol, s: EngineState, o: Order)
    requires Sound(s) && o.qty > 0.0 && o.id !in s.at
    ensures Sound(Step(sym, s, New(o)))
  {
    var next := Step(sym, s, New(o));
    assert next.at.Keys == s.at.Keys + {o.id};
    assert |next.at| == |s.at| + 1;
    ProcessTidy(sym, s.book, o, s.nextTrade, s.at, next.at);
    KnownMore(s.book.On(o.side), s.users, o);
    KnownMore(s.book.On(o.side.Opposite()), s.users, o);
    FromKnown(next.book.On(o.side), s.book.On(o.side) + [o], next.users);
    FromKnown(next.book.On(o.side.Opposite()), s.book.On(o.side.Opposite()), next.users);
    forall t | t in next.trades
      ensures t.maker in next.users && t.taker in next.users && next.users[t.maker] != next.users[t.taker]
    {
      assert t in s.trades || t in Process(sym, s.book, o, s.nextTrade).trades;
    }
  }

  lemma {:induction false} KnownMore(s: seq<Order>, users: map<OrderId, UserId>, o: Order)
    requires Known(s, users) && o.id !in users
    ensures Known(s, users[o.id := o.user]) && Known(s + [o], users[o.id := o.user])
  {
  }

  lemma {:induction false} StepSound(sym: Symbol, s: EngineState, c: Command)
    requires Sound(s) && (c.New? ==> c.o.qty > 0.0 && c.o.id !in s.at)
    ensures Sound(Step(sym, s, c))
  {
    match c
    case New(o) => NewSound(sym, s, o);
    case Withdraw(id, side) =>
      CancelTidy(s.book, id, side, s.at);
      RemoveIdKeeps(side, s.book.On(side), id, s.at);
  }

  /**
   Over every run: sorted sides, FIFO within a price, positive quantities, unique ids, never crossed, no wash
   trade.
   */
  lemma {:induction false} RunSound(sym: Symbol, s: EngineState, cmds: seq<Command>)
    requires Sound(s) && FreshCommands(cmds, s.at.Keys)
    ensures Sound(Run(sym, s, cmds))
    decreases cmds
  {
    if cmds != [] {
      StepSound(sym, s, cmds[0]);
      RunSound(sym, Step(sym, s, cmds[0]), cmds[1..]);
    }
  }

  lemma {:induction false} EveryRunSound(sym: Symbol, cmds: seq<Command>)
    requires FreshCommands(cmds, {})
    ensures Sound(Run(sym, START, cmds))
  {
    RunSound(sym, START, cmds);
  }
}
