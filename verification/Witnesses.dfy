/** Runs of the exchange in which a promise of the code does not hold: the inputs behind the exact conditions. */
module Witnesses {
  import opened Types
  import opened Money
  import opened Settlement
  import opened OrderFlow
  import opened Placement
  import opened Exchange
  import A = Accounts
  import H = Holdings
  import K = Takeover
  import M = Matching
  import R = Reservation
  import V = Recovery
  import Sums

  const PAIR: Symbol := [BTC, USD]

  /** A leader holds token 1, and nothing has happened yet. */
  const LED: State := Start(Some(1))

  // A fill whose rounded unlock exceeds its reservation

  /** Half a coin at one unit in the eighth place: the order reserves half a unit. */
  const PRICE: real := 0.00000001
  const QTY: real := 0.5
  const HALF: real := 0.000000005

  const SELL: Request := Request(2, PAIR, Sell, Limit, PRICE, QTY)
  const BUY: Request := Request(1, PAIR, Buy, Limit, PRICE, QTY)
  const SELL_ROW: Row := Row(2, 2, PAIR, Sell, Limit, PRICE, QTY, 0.0, New, 0, QTY)
  const BUY_ROW: Row := Row(1, 1, PAIR, Buy, Limit, PRICE, QTY, 0.0, New, 0, HALF)
  const ORDERS: Orders := map[2 := SELL_ROW, 1 := BUY_ROW]
  const TRADE: Trade := Trade(0, PAIR, 2, 1, PRICE, QTY)
  const EVENT: Event := SettlementRequested(PAIR, 1, HALF, USD, 0.0, [TRADE], 1)

  const ACCOUNTS: A.Table :=
    map[Key(1, USD) := A.Account(1000000.0 - HALF, HALF), Key(1, BTC) := A.Account(100.0, 0.0),
        Key(1, ETH) := A.Account(1000.0, 0.0), Key(2, USD) := A.Account(1000000.0, 0.0),
        Key(2, BTC) := A.Account(99.5, 0.5), Key(2, ETH) := A.Account(1000.0, 0.0)]

  /** Both users are registered and both orders placed. */
  const PLACED: State := State(DB(ORDERS, [], ACCOUNTS, Some(1)), map[], map[], map[], {}, map[])

  lemma {:induction false} OnTheGrid()
    ensures Round8(PRICE) == PRICE && Round8(QTY) == QTY && Round8(HALF) == PRICE && Worth(PRICE, QTY) == HALF
    ensures Round8(1.0) == 1.0
  {
    assert PRICE * SCALE == 1.0 && QTY * SCALE == 50000000.0 && HALF * SCALE + 0.5 == 1.0;
    RoundExact(PRICE);
    RoundExact(QTY);
    RoundExact(1.0);
  }

  /** What the two users start with. */
  const FUNDED: A.Table :=
    map[Key(1, USD) := A.Account(1000000.0, 0.0), Key(1, BTC) := A.Account(100.0, 0.0),
        Key(1, ETH) := A.Account(1000.0, 0.0), Key(2, USD) := A.Account(1000000.0, 0.0),
        Key(2, BTC) := A.Account(100.0, 0.0), Key(2, ETH) := A.Account(1000.0, 0.0)]

  const USERS: State := State(DB(map[], [], FUNDED, Some(1)), map[], map[], map[], {}, map[])

  lemma {:induction false} TwoUsers() returns (run: seq<Action>)
    ensures Legal(LED, run) && End(LED, run) == USERS
  {
    assert A.Register(A.Register(map[], 1), 2) == FUNDED;
    RunSnoc(LED, [], Action.Register(1));
    RunSnoc(LED, [] + [Action.Register(1)], Action.Register(2));
    run := [] + [Action.Register(1)] + [Action.Register(2)];
  }

  const SOLD: DB := DB(map[2 := SELL_ROW], [], FUNDED[Key(2, BTC) := A.Account(99.5, 0.5)], Some(1))

  lemma {:induction false} SellPlaced()
    ensures Place(USERS.db, SELL, 2, 0, map[]) == Some(SOLD)
  {
    OnTheGrid();
    assert Prepare(SELL, map[]) == Some(A.Update(Key(2, BTC), QTY, 0.0));
    assert NewRow(Normalize(SELL), 2, 0, QTY) == SELL_ROW;
  }

  lemma {:induction false} BuyPlaced()
    ensures Place(SOLD, BUY, 1, 0, map[]) == Some(PLACED.db)
  {
    OnTheGrid();
    assert Prepare(BUY, map[]) == Some(A.Update(Key(1, USD), HALF, 0.0));
    assert NewRow(Normalize(BUY), 1, 0, HALF) == BUY_ROW;
    assert LockOne(SOLD.accounts, A.Update(Key(1, USD), HALF, 0.0)) == ACCOUNTS;
  }

  lemma {:induction false} BothPlaced() returns (run: seq<Action>)
    ensures Legal(LED, run) && End(LED, run) == PLACED
  {
    var first := TwoUsers();
    SellPlaced();
    BuyPlaced();
    RunSnoc(LED, first, PlaceOne(SELL, 2, 0, map[]));
    RunSnoc(LED, first + [PlaceOne(SELL, 2, 0, map[])], PlaceOne(BUY, 1, 0, map[]));
    run := first + [PlaceOne(SELL, 2, 0, map[])] + [PlaceOne(BUY, 1, 0, map[])];
  }

  /** The sell rests, the buy takes it: one settlement is queued, nothing is consumed yet. */
  const RESTING: State :=
    State(PLACED.db, map[2 := 0], map[PAIR := M.Book([], [ToOrder(SELL_ROW)])], map[PAIR := []], {}, map[])

  const MATCHED: State :=
    State(PLACED.db, map[2 := 0, 1 := 1], map[PAIR := M.EMPTY_BOOK], map[PAIR := [EVENT]], {}, map[0 := 1])

  /** An order that meets nothing rests. */
  lemma {:induction false} FirstRests(o: Order, nid: TradeId)
    requires o.side.Sell? && o.otype.Limit? && o.qty > 0.0
    ensures M.Process(PAIR, M.EMPTY_BOOK, o, nid) == M.Processed(M.Book([], [o]), [], o.qty)
  {
    M.AddOrderSides(M.EMPTY_BOOK, o);
    assert [] + [o] == [o] && [o][..0] == [];
  }

  /** An order that meets one other of its size and price takes all of it. */
  lemma {:induction false} TakesOne(bids: seq<Order>, t: Order, m: Order, nid: TradeId)
    requires t.side.Buy? && t.user != m.user && M.Crosses(t, m) && t.qty == m.qty
    ensures M.Process(PAIR, M.Book(bids, [m]), t, nid) ==
            M.Processed(M.Book(bids, []), [Trade(nid, PAIR, m.id, t.id, m.price, t.qty)], 0.0)
  {
    assert [m][1..] == [];
  }

  lemma {:induction false} SellMatched()
    ensures Exchange.Matched(PLACED, 2, 0) == M.Processed(M.Book([], [ToOrder(SELL_ROW)]), [], QTY)
  {
    assert ToOrder(SELL_ROW) == Order(2, 2, Sell, Limit, PRICE, QTY) == ToTaker(SELL_ROW);
    FirstRests(ToOrder(SELL_ROW), 0);
    assert PLACED.db.orders[2] == SELL_ROW && PLACED.Book(PAIR) == M.EMPTY_BOOK;
  }

  lemma {:induction false} SellRests()
    ensures CanMatch(PLACED, 2, 0, 1) && AfterMatch(PLACED, 2, 0, 1) == RESTING
  {
    SellMatched();
    assert PLACED.db.orders[2].symbol == PAIR && PLACED.db.orders[2].otype.Limit?;
    NoSettlement(PLACED, 2, 0);
    assert TradeIds([]) == {};
    Assembled(PLACED, 2, 0, RESTING, [], []);
  }

  lemma {:induction false} NoSettlement(s: State, id: OrderId, nid: TradeId)
    requires id in s.db.orders && IsPair(s.db.orders[id].symbol) && s.db.orders[id].otype.Limit?
    requires Exchange.Matched(s, id, nid).trades == [] && Exchange.Matched(s, id, nid).left > 0.0
    ensures Settlements(s, id, nid, 1) == []
  {
  }

  lemma {:induction false} BuyTakes()
    ensures CanMatch(RESTING, 1, 0, 1) && AfterMatch(RESTING, 1, 0, 1) == MATCHED
  {
    TakesOne([], ToTaker(BUY_ROW), ToOrder(SELL_ROW), 0);
    assert Exchange.Matched(RESTING, 1, 0) == M.Processed(M.EMPTY_BOOK, [TRADE], 0.0);
    assert TradeIds([TRADE]) == {0};
    assert RESTING.queue[PAIR] + [EVENT] == [EVENT];
    Assembled(RESTING, 1, 0, MATCHED, [TRADE], [EVENT]);
  }

  /** A state that is the other with one order handed to its engine. */
  lemma {:induction false} Assembled(s: State, id: OrderId, nid: TradeId, next: State, trades: seq<Trade>,
                                     es: seq<Event>)
    requires id in s.db.orders && IsPair(s.db.orders[id].symbol)
    requires Exchange.Matched(s, id, nid).trades == trades && Settlements(s, id, nid, 1) == es
    requires var sym := s.db.orders[id].symbol;
             && next.books == s.books[sym := Exchange.Matched(s, id, nid).book]
             && next.queue == Publish(s.queue, sym, es)
    requires next.db == s.db && next.delivered == s.delivered
    requires next.at == s.at[id := |s.at|] && next.minted == Mint(s.minted, trades, id)
    ensures AfterMatch(s, id, nid, 1) == next
  {
  }

  lemma {:induction false} BothMatched() returns (run: seq<Action>)
    ensures Legal(LED, run) && End(LED, run) == MATCHED
  {
    var placed := BothPlaced();
    SellRests();
    BuyTakes();
    RunSnoc(LED, placed, Match(2, 0, 1));
    RunSnoc(LED, placed + [Match(2, 0, 1)], Match(1, 0, 1));
    run := placed + [Match(2, 0, 1)] + [Match(1, 0, 1)];
  }

  const MOVES: seq<A.Update> :=
    [A.Update(Key(1, USD), -PRICE, PRICE), A.Update(Key(1, BTC), QTY, 0.0), A.Update(Key(2, BTC), -QTY, QTY),
     A.Update(Key(2, USD), PRICE, 0.0)]

  lemma {:induction false} BothFilled()
    ensures FillRows(ORDERS, [TRADE], 1) ==
            map[2 := SELL_ROW.(filled := QTY, status := Filled), 1 := BUY_ROW.(filled := QTY)]
  {
    var one := FillOne(ORDERS, TRADE, 1);
    assert one[2] == SELL_ROW.(filled := QTY, status := Filled) && one[1] == BUY_ROW.(filled := QTY);
    assert [TRADE][1..] == [] && FillRows(one, [], 1) == one;
  }

  lemma {:induction false} Moves()
    ensures SettlementUpdates(ORDERS, EVENT) == MOVES
  {
    OnTheGrid();
    assert [TRADE][1..] == [];
    assert TradeUpdates(TRADE, BUY_ROW, SELL_ROW) == MOVES;
    assert AllTradeUpdates(ORDERS, [], 1) == [];
    assert AllTradeUpdates(ORDERS, [TRADE], 1) == MOVES + [];
    BothFilled();
    assert FinishTaker(BUY_ROW.(filled := QTY), EVENT) == (Filled, 0.0);
  }

  lemma {:induction false} MoveSums(k: Key)
    ensures A.UnlockOf(MOVES, k) == if k == Key(1, USD) then PRICE else if k == Key(2, BTC) then QTY else 0.0
    ensures A.AmountOf(MOVES, k) == H.At(Key(1, USD), k, -PRICE) + H.At(Key(1, BTC), k, QTY)
                                    + H.At(Key(2, BTC), k, -QTY) + H.At(Key(2, USD), k, PRICE)
  {
    R.FourUnlocks(MOVES[0], MOVES[1], MOVES[2], MOVES[3], k);
    H.FourAmounts(MOVES[0], MOVES[1], MOVES[2], MOVES[3], k);
    assert MOVES == [MOVES[0], MOVES[1], MOVES[2], MOVES[3]];
  }

  lemma {:induction false} MovesSolvent()
    ensures Solvent(ACCOUNTS, MOVES) && NetAll(ACCOUNTS, MOVES)[Key(1, USD)].locked == HALF
  {
    forall k | k in ACCOUNTS ensures A.Net(ACCOUNTS[k], A.UnlockOf(MOVES, k), A.AmountOf(MOVES, k)).balance >= 0.0 {
      MoveSums(k);
    }
    MoveSums(Key(1, USD));
  }

  lemma {:induction false} EventSettles()
    ensures Settle(PLACED.db, EVENT) ==
            Committed(DB(SettleRows(ORDERS, EVENT), [TRADE], NetAll(ACCOUNTS, MOVES), Some(1)))
    ensures forall id :: id in SettleRows(ORDERS, EVENT) ==> SettleRows(ORDERS, EVENT)[id].status.Filled?
  {
    Moves();
    MovesSolvent();
    BothFilled();
    assert OrderIds(EVENT) == {1, 2};
    assert [] + [TRADE] == [TRADE];
  }

  lemma {:induction false} Consumed()
    ensures AfterConsume(MATCHED, PAIR).db == DB(SettleRows(ORDERS, EVENT), [TRADE], NetAll(ACCOUNTS, MOVES), Some(1))
    ensures AfterConsume(MATCHED, PAIR).Queue(PAIR) == []
  {
    EventSettles();
    assert [EVENT][1..] == [];
  }

  /**
   Rounding can make the guard of an unlock miss: two registered users trade one order each, everything is
   consumed, no order is open any more, nothing is reserved, and yet the buyer has funds locked.
   */
  lemma {:induction false} RoundingCanMiss() returns (run: seq<Action>)
    ensures Legal(LED, run) && FundsStuck(End(LED, run))
  {
    var matched := BothMatched();
    Consumed();
    EventSettles();
    MovesSolvent();
    NothingOpen(SettleRows(ORDERS, EVENT), Key(1, USD));
    RunSnoc(LED, matched, Consume(PAIR));
    run := matched + [Consume(PAIR)];
  }

  ghost predicate FundsStuck(s: State) {
    && s.Queue(PAIR) == [] && Key(1, USD) in s.db.accounts && s.db.accounts[Key(1, USD)].locked > 0.0
    && (forall id :: id in s.db.orders ==> !s.db.orders[id].Open())
    && R.Reserved(s.db.orders, Key(1, USD)) == 0.0
  }

  lemma {:induction false} NothingOpen(o: Orders, k: Key)
    requires forall id :: id in o ==> !o[id].Open()
    ensures R.Reserved(o, k) == 0.0
  {
    Sums.SumZero(o.Keys, R.ReserveAt(o, k));
  }

  // A takeover while a settlement is queued

  /**
   Taking over in that state drops the queued event, and whatever the query returns, the restored book has the two
   traded orders crossing each other, although the live book was not crossed.
   */
  lemma {:induction false} TakeoverCrosses() returns (run: seq<Action>)
    ensures Legal(LED, run)
    ensures var s := End(LED, run);
            && !V.CrossedBook(s.Book(PAIR)) && s.Queue(PAIR) == [EVENT]
            && forall q :: V.QueryResult(s.db.orders, q) ==>
                 && CanTakeOver(s, 2, q) && V.CrossedBook(AfterTakeover(s, 2, q).Book(PAIR))
                 && Deliver(AfterTakeover(s, 2, q).db, EVENT) == Skipped
  {
    run := BothMatched();
    StartInv(Some(1));
    RunInv(LED, run);
    forall q | V.QueryResult(ORDERS, q)
      ensures CanTakeOver(MATCHED, 2, q) && V.CrossedBook(AfterTakeover(MATCHED, 2, q).Book(PAIR))
      ensures Deliver(AfterTakeover(MATCHED, 2, q).db, EVENT) == Skipped
    {
      MayTakeOver(q);
      K.QueuedTradeCrosses(MATCHED, PAIR, 0, q);
      TakeoverBook(MATCHED, 2, q, PAIR);
    }
  }

  lemma {:induction false} OneUnderway()
    ensures Underway(MATCHED.queue) == {EVENT}
  {
    assert EVENT in MATCHED.queue[PAIR];
    forall e | e in Underway(MATCHED.queue) ensures e == EVENT {
      var x :| x in MATCHED.queue && e in MATCHED.queue[x];
      assert x == PAIR;
    }
  }

  lemma {:induction false} MayTakeOver(q: seq<Row>)
    requires V.QueryResult(ORDERS, q)
    ensures CanTakeOver(MATCHED, 2, q)
  {
    OneUnderway();
  }

  // A publication that comes after a takeover, without a token

  /** The settlement of a copy of the buy against the sell. */
  function Taking(id: OrderId, tid: TradeId, token: int): Event {
    SettlementRequested(PAIR, id, HALF, USD, 0.0, [Trade(tid, PAIR, 2, id, PRICE, QTY)], token)
  }

  function BuyRow(id: OrderId): Row {
    BUY_ROW.(id := id)
  }

  ghost predicate Rich(t: A.Table, least: real) {
    forall k :: k in t ==> t[k].balance >= least
  }

  lemma {:induction false} RichSolvent(t: A.Table, least: real)
    requires Rich(t, least) && least >= 1.0
    ensures Solvent(t, MOVES) && Rich(NetAll(t, MOVES), least - 1.0)
  {
    forall k | k in t ensures A.Net(t[k], A.UnlockOf(MOVES, k), A.AmountOf(MOVES, k)).balance >= least - 1.0 {
      MoveSums(k);
    }
  }

  /** The sell is still there, in whatever state, and the buy is NEW. */
  ghost predicate Takable(o: Orders, id: OrderId) {
    && id != 2 && id in o && o[id] == BuyRow(id)
    && 2 in o && o[2] == SELL_ROW.(filled := o[2].filled, status := o[2].status)
  }

  lemma {:induction false} TakingFills(o: Orders, id: OrderId, tid: TradeId)
    requires Takable(o, id)
    ensures FillRows(o, [Trade(tid, PAIR, 2, id, PRICE, QTY)], id) ==
            o[2 := FillMaker(o[2], QTY)][id := BuyRow(id).(filled := QTY)]
  {
    var t := Trade(tid, PAIR, 2, id, PRICE, QTY);
    assert [t][1..] == [] && FillRows(FillOne(o, t, id), [], id) == FillOne(o, t, id);
    assert 0.0 + QTY == QTY;
  }

  lemma {:induction false} TakingMoves(o: Orders, id: OrderId, tid: TradeId, token: int)
    requires Takable(o, id)
    ensures OrderIds(Taking(id, tid, token)) == {2, id} && SettlementUpdates(o, Taking(id, tid, token)) == MOVES
  {
    var t := Trade(tid, PAIR, 2, id, PRICE, QTY);
    OnTheGrid();
    TakingFills(o, id, tid);
    assert [t][1..] == [];
    assert TradeUpdates(t, BuyRow(id), o[2]) == MOVES;
    assert AllTradeUpdates(o, [], id) == [];
    assert AllTradeUpdates(o, [t], id) == MOVES + [];
    assert FinishTaker(BuyRow(id).(filled := QTY), Taking(id, tid, token)) == (Filled, 0.0);
  }

  /** It is settled whatever has become of the sell. */
  lemma {:induction false} TakingSettles(db: DB, id: OrderId, tid: TradeId, token: int)
    requires Takable(db.orders, id) && Rich(db.accounts, 1.0)
    requires !TradeExists(db.trades, tid) && TokenValid(db.fence, token)
    ensures OrderIds(Taking(id, tid, token)) <= db.orders.Keys
    ensures Settle(db, Taking(id, tid, token)) ==
            Committed(DB(SettleRows(db.orders, Taking(id, tid, token)), db.trades + Taking(id, tid, token).trades,
                         NetAll(db.accounts, MOVES), db.fence))
    ensures SettleRows(db.orders, Taking(id, tid, token)) ==
            db.orders[2 := FillMaker(db.orders[2], QTY)][id := BuyRow(id).(filled := QTY, status := Filled)]
  {
    TakingMoves(db.orders, id, tid, token);
    TakingFills(db.orders, id, tid);
    RichSolvent(db.accounts, 1.0);
    assert FinishTaker(BuyRow(id).(filled := QTY), Taking(id, tid, token)) == (Filled, 0.0);
  }

  const LISTED: seq<Row> := [SELL_ROW, BUY_ROW]

  /** Instance 2 has taken over and restored both orders. */
  const SECOND_TERM: State :=
    State(DB(ORDERS, [], ACCOUNTS, Some(2)), map[2 := 0, 1 := 1],
          map[PAIR := M.Book([ToOrder(BUY_ROW)], [ToOrder(SELL_ROW)])], map[], {EVENT}, map[0 := 1])

  lemma {:induction false} BothRestored()
    ensures V.Restored(PAIR, LISTED) == M.Book([ToOrder(BUY_ROW)], [ToOrder(SELL_ROW)])
  {
    assert LISTED[..1] == [SELL_ROW] && [SELL_ROW][..0] == [];
    M.AddOrderSides(M.EMPTY_BOOK, ToOrder(SELL_ROW));
    assert V.Restored(PAIR, []) == M.EMPTY_BOOK;
    assert [] + [ToOrder(SELL_ROW)] == [ToOrder(SELL_ROW)] && [ToOrder(SELL_ROW)][..0] == [];
    assert V.Restored(PAIR, [SELL_ROW]) == M.Book([], [ToOrder(SELL_ROW)]);
    M.AddOrderSides(M.Book([], [ToOrder(SELL_ROW)]), ToOrder(BUY_ROW));
    assert [] + [ToOrder(BUY_ROW)] == [ToOrder(BUY_ROW)] && [ToOrder(BUY_ROW)][..0] == [];
  }

  lemma {:induction false} ListedIsResult()
    ensures V.QueryResult(ORDERS, LISTED)
  {
  }

  lemma {:induction false} SecondArrivals()
    ensures V.Renumbered(MATCHED.at, LISTED) == SECOND_TERM.at
  {
    V.RankAt(LISTED, 0);
    V.RankAt(LISTED, 1);
  }

  lemma {:induction false} SecondTerm()
    ensures CanTakeOver(MATCHED, 2, LISTED) && AfterTakeover(MATCHED, 2, LISTED) == SECOND_TERM
  {
    ListedIsResult();
    MayTakeOver(LISTED);
    BothRestored();
    SecondArrivals();
    assert SELL_ROW in LISTED;
    assert SymbolsOf(LISTED) == {PAIR};
    OneUnderway();
  }

  /** A second buy of the same size comes in. */
  lemma {:induction false} SecondBuyPlaced(db: DB, id: OrderId)
    requires Key(1, USD) in db.accounts && db.accounts[Key(1, USD)].balance >= 1.0
    requires db.accounts[Key(1, USD)].locked >= 0.0 && id !in db.orders
    ensures Place(db, BUY, id, 0, map[]) ==
            Some(db.(orders := db.orders[id := BuyRow(id)],
                     accounts := LockOne(db.accounts, A.Update(Key(1, USD), HALF, 0.0))))
  {
    OnTheGrid();
    assert Prepare(BUY, map[]) == Some(A.Update(Key(1, USD), HALF, 0.0));
    assert NewRow(Normalize(BUY), id, 0, HALF) == BuyRow(id);
  }

  const MORE_ACCOUNTS: A.Table := ACCOUNTS[Key(1, USD) := A.Account(1000000.0 - PRICE, PRICE)]

  const THIRD: State := SECOND_TERM.(db := DB(ORDERS[3 := BuyRow(3)], [], MORE_ACCOUNTS, Some(2)))

  lemma {:induction false} ThirdPlaced()
    ensures Step(SECOND_TERM, PlaceOne(BUY, 3, 0, map[])) == THIRD
  {
    SecondBuyPlaced(SECOND_TERM.db, 3);
    assert LockOne(ACCOUNTS, A.Update(Key(1, USD), HALF, 0.0)) == MORE_ACCOUNTS;
  }

  lemma {:induction false} ThirdTakes()
    ensures Exchange.Matched(THIRD, 3, 1) ==
            M.Processed(M.Book([ToOrder(BUY_ROW)], []), [Trade(1, PAIR, 2, 3, PRICE, QTY)], 0.0)
  {
    TakesOne([ToOrder(BUY_ROW)], ToTaker(BuyRow(3)), ToOrder(SELL_ROW), 1);
    assert THIRD.db.orders[3] == BuyRow(3) && THIRD.Book(PAIR) == M.Book([ToOrder(BUY_ROW)], [ToOrder(SELL_ROW)]);
  }

  lemma {:induction false} TakingPublished(id: OrderId, nid: TradeId, b: M.Book, token: int)
    ensures var p := M.Processed(b, [Trade(nid, PAIR, 2, id, PRICE, QTY)], 0.0);
            NeedsSettlement(BuyRow(id), p) && MatchEvent(BuyRow(id), p, token) == Taking(id, nid, token)
  {
  }

  lemma {:induction false} TakingMatched(s: State, id: OrderId, nid: TradeId, b: M.Book, token: int)
    requires id in s.db.orders && s.db.orders[id] == BuyRow(id) && id !in s.at && nid !in s.minted
    requires TokenValid(s.db.fence, token) && s.Queue(PAIR) == []
    requires Exchange.Matched(s, id, nid) == M.Processed(b, [Trade(nid, PAIR, 2, id, PRICE, QTY)], 0.0)
    ensures CanMatch(s, id, nid, token)
    ensures AfterMatch(s, id, nid, token).db == s.db
    ensures AfterMatch(s, id, nid, token).Queue(PAIR) == [Taking(id, nid, token)]
  {
    TakingPublished(id, nid, b, token);
    Published(s, id, nid, token);
  }

  lemma {:induction false} ThirdMatched()
    ensures CanMatch(THIRD, 3, 1, 2)
    ensures AfterMatch(THIRD, 3, 1, 2).db == THIRD.db && AfterMatch(THIRD, 3, 1, 2).Queue(PAIR) == [Taking(3, 1, 2)]
  {
    ThirdTakes();
    ThirdRow();
    TakingMatched(THIRD, 3, 1, M.Book([ToOrder(BUY_ROW)], []), 2);
  }

  lemma {:induction false} ThirdRow()
    ensures 3 in THIRD.db.orders && THIRD.db.orders[3] == BuyRow(3) && BuyRow(3).symbol == PAIR && 3 !in THIRD.at
    ensures THIRD.Queue(PAIR) == [] && TokenValid(THIRD.db.fence, 2) && 1 !in THIRD.minted
  {
  }

  lemma {:induction false} Published(s: State, id: OrderId, nid: TradeId, token: int)
    requires id in s.db.orders && IsPair(s.db.orders[id].symbol) && s.Queue(s.db.orders[id].symbol) == []
    ensures var next := AfterMatch(s, id, nid, token);
            next.db == s.db && next.Queue(s.db.orders[id].symbol) == Settlements(s, id, nid, token)
  {
    assert [] + Settlements(s, id, nid, token) == Settlements(s, id, nid, token);
  }

  lemma {:induction false} OneConsumed(s: State, sym: Symbol, e: Event)
    requires s.Queue(sym) == [e] && Deliver(s.db, e).Committed?
    ensures AfterConsume(s, sym).db == Deliver(s.db, e).db
  {
  }

  /** What the second term leaves: the sell is FILLED, the first buy is still NEW. */
  ghost predicate SecondTermDone(db: DB) {
    && Takable(db.orders, 1) && db.orders[2].status.Filled? && db.orders[2].filled == QTY
    && db.trades == [Trade(1, PAIR, 2, 3, PRICE, QTY)] && Rich(db.accounts, 1.0) && db.fence == Some(2)
  }

  lemma {:induction false} ThirdSettles()
    ensures Settle(THIRD.db, Taking(3, 1, 2)).Committed? && SecondTermDone(Settle(THIRD.db, Taking(3, 1, 2)).db)
  {
    assert Rich(MORE_ACCOUNTS, 2.0);
    RichSolvent(MORE_ACCOUNTS, 2.0);
    TakingSettles(THIRD.db, 3, 1, 2);
    assert [] + [Trade(1, PAIR, 2, 3, PRICE, QTY)] == [Trade(1, PAIR, 2, 3, PRICE, QTY)];
  }

  /** The late settlement of the first buy finds its taker NEW, its trade unknown, and asks nothing about the maker. */
  lemma {:induction false} LateCommits(db: DB)
    requires SecondTermDone(db)
    ensures var out := Deliver(db, Taking(1, 0, 0));
            && out.Committed? && 2 in out.db.orders
            && out.db.orders[2].status.PartiallyFilled? && out.db.orders[2].filled > out.db.orders[2].qty
  {
    TakingSettles(db, 1, 0, 0);
  }

  /**
   A run over two terms after which the settlement of the first term's match, published without a token, commits: it
   reopens a FILLED order with twice what it asked for. In the run the event is dropped at the takeover, in the database
   this is the same as its not having been published yet.
   */
  lemma {:induction false} LateEventOverfills() returns (run: seq<Action>)
    ensures Legal(LED, run) && SecondTermDone(End(LED, run).db)
    ensures EVENT == Taking(1, 0, 1)
    ensures var out := Deliver(End(LED, run).db, Taking(1, 0, 0));
            && out.Committed? && 2 in out.db.orders
            && out.db.orders[2].status.PartiallyFilled? && out.db.orders[2].filled > out.db.orders[2].qty
  {
    var r0 := BothMatched();
    SecondTerm();
    RunSnoc(LED, r0, Action.Takeover(2, LISTED));
    var r1 := r0 + [Action.Takeover(2, LISTED)];
    ThirdPlaced();
    RunSnoc(LED, r1, PlaceOne(BUY, 3, 0, map[]));
    var r2 := r1 + [PlaceOne(BUY, 3, 0, map[])];
    run := ThirdConsumed(r2);
    LateCommits(End(LED, run).db);
  }

  lemma {:induction false} ThirdConsumed(r2: seq<Action>) returns (run: seq<Action>)
    requires Legal(LED, r2) && End(LED, r2) == THIRD
    ensures Legal(LED, run) && SecondTermDone(End(LED, run).db)
  {
    ThirdMatched();
    ThirdSettles();
    OneConsumed(AfterMatch(THIRD, 3, 1, 2), PAIR, Taking(3, 1, 2));
    RunSnoc(LED, r2, Match(3, 1, 2));
    RunSnoc(LED, r2 + [Match(3, 1, 2)], Consume(PAIR));
    run := r2 + [Match(3, 1, 2)] + [Consume(PAIR)];
  }

  // Two orders of one batch

  const BID: Request := Request(1, PAIR, Buy, Limit, 1.0, 1.0)

  function BidRow(id: OrderId): Row {
    Row(id, 1, PAIR, Buy, Limit, 1.0, 1.0, 0.0, New, 0, 1.0)
  }

  const TWO_BIDS: Orders := map[1 := BidRow(1), 2 := BidRow(2)]

  const BID_LOCK: A.Update := A.Update(Key(1, USD), 1.0, 0.0)

  lemma {:induction false} BidPrepared()
    ensures Normalize(BID) == BID && Prepare(BID, map[]) == Some(BID_LOCK)
  {
    OnTheGrid();
  }

  /** One bid of an account that can bear it. */
  lemma {:induction false} BidPlaced(db: DB, id: OrderId)
    requires Key(1, USD) in db.accounts && db.accounts[Key(1, USD)].balance >= 1.0
    requires db.accounts[Key(1, USD)].locked >= 0.0 && id !in db.orders
    ensures Admit(db, BID, id, 0, map[]) ==
            Some(db.(orders := db.orders[id := BidRow(id)], accounts := LockOne(db.accounts, BID_LOCK)))
  {
    BidPrepared();
    assert Lockable(db.accounts, BID_LOCK);
    assert NewRow(BID, id, 0, BID_LOCK.amount) == BidRow(id);
  }

  lemma {:induction false} BothAdmitted(db: DB)
    requires Key(1, USD) in db.accounts && db.accounts[Key(1, USD)].balance >= 2.0
    requires db.accounts[Key(1, USD)].locked >= 0.0 && db.orders == map[]
    ensures AdmitAll(db, [BID, BID], [1, 2], 0, map[]) ==
            Some(db.(orders := TWO_BIDS, accounts := LockOne(LockOne(db.accounts, BID_LOCK), BID_LOCK)))
  {
    BidPlaced(db, 1);
    var one := Admit(db, BID, 1, 0, map[]).value;
    BidPlaced(one, 2);
    AdmitTwo(db, BID, 1, 2, 0, map[]);
  }

  const BIDS_DB: DB := DB(TWO_BIDS, [], LockOne(LockOne(FUNDED, BID_LOCK), BID_LOCK), Some(1))

  lemma {:induction false} BatchGoesThrough()
    ensures Batch(USERS.db, [BID, BID], [1, 2], 0, map[]) == Some(BIDS_DB)
  {
    BothAdmitted(USERS.db);
    BatchAdmits(USERS.db, [BID, BID], [1, 2], 0, map[]);
  }

  lemma {:induction false} BatchPlaced() returns (run: seq<Action>)
    ensures Legal(LED, run)
    ensures End(LED, run) == State(BIDS_DB, map[], map[], map[], {}, map[])
  {
    run := TwoUsers();
    BatchGoesThrough();
    RunSnoc(LED, run, PlaceMany([BID, BID], [1, 2], 0, map[]));
    run := run + [PlaceMany([BID, BID], [1, 2], 0, map[])];
  }

  /** Nothing rests on the other side, so a bid only joins its own. */
  lemma {:induction false} BidJoins(b: M.Book, o: Order)
    requires b.asks == [] && o.side.Buy? && o.otype.Limit? && o.qty > 0.0
    ensures var p := M.Process(PAIR, b, o, 0); p.book.asks == [] && p.trades == [] && p.left == o.qty
  {
    M.AddOrderSides(b, o);
  }

  /** It is handed over without any event. */
  lemma {:induction false} BidRests(s: State, id: OrderId)
    requires s.db.orders == TWO_BIDS && s.db.fence == Some(1) && id in TWO_BIDS && id !in s.at
    requires s.Book(PAIR).asks == [] && s.Queue(PAIR) == []
    ensures CanMatch(s, id, 0, 1)
    ensures Handed(s, AfterMatch(s, id, 0, 1), id)
  {
    BidJoins(s.Book(PAIR), ToTaker(BidRow(id)));
    assert s.db.orders[id] == BidRow(id);
    assert Exchange.Matched(s, id, 0) == M.Process(PAIR, s.Book(PAIR), ToTaker(BidRow(id)), 0);
    RestsHanded(s, id);
  }

  ghost predicate Handed(s: State, next: State, id: OrderId) {
    && next.db == s.db && next.Book(PAIR).asks == [] && next.Queue(PAIR) == [] && next.at.Keys == s.at.Keys + {id}
  }

  lemma {:induction false} RestsHanded(s: State, id: OrderId)
    requires id in s.db.orders && s.db.orders[id] == BidRow(id) && s.Queue(PAIR) == []
    requires var p := Exchange.Matched(s, id, 0); p.trades == [] && p.left == 1.0 && p.book.asks == []
    ensures Handed(s, AfterMatch(s, id, 0, 1), id)
  {
    assert IsPair(s.db.orders[id].symbol) && s.db.orders[id].otype.Limit? && s.db.orders[id].symbol == PAIR;
    NoSettlement(s, id, 0);
    HandedFields(s, id, 0);
    HandedOver(s, AfterMatch(s, id, 0, 1), id, PAIR, Exchange.Matched(s, id, 0).book);
  }

  lemma {:induction false} HandedFields(s: State, id: OrderId, nid: TradeId)
    requires id in s.db.orders && IsPair(s.db.orders[id].symbol) && Settlements(s, id, nid, 1) == []
    ensures var next, sym := AfterMatch(s, id, nid, 1), s.db.orders[id].symbol;
            && next.db == s.db && next.at == s.at[id := |s.at|]
            && next.books == s.books[sym := Exchange.Matched(s, id, nid).book]
            && next.queue == Publish(s.queue, sym, [])
  {
  }

  /** The state after handing over an order that causes no event. */
  lemma {:induction false} HandedOver(s: State, next: State, id: OrderId, sym: Symbol, b: M.Book)
    requires next.at == s.at[id := |s.at|] && next.books == s.books[sym := b] && next.queue == Publish(s.queue, sym, [])
    ensures next.Book(sym) == b && next.Queue(sym) == s.Queue(sym) && next.at.Keys == s.at.Keys + {id}
  {
    assert s.Queue(sym) + [] == s.Queue(sym);
  }

  /** The batch stamps one time on all its orders, so its orders of one price tie in every recovery. */
  lemma {:induction false} BatchTies() returns (run: seq<Action>)
    ensures Legal(LED, run)
    ensures var s := End(LED, run);
            && K.Quiescent(s, PAIR) && !V.FifoClocked(s.db.orders, s.Book(PAIR).bids)
            && !V.AlwaysRestored(s.db.orders, PAIR, s.Book(PAIR))
  {
    var placed := BatchPlaced();
    var s := End(LED, placed);
    BidRests(s, 1);
    var one := AfterMatch(s, 1, 0, 1);
    BidRests(one, 2);
    RunSnoc(LED, placed, Match(1, 0, 1));
    RunSnoc(LED, placed + [Match(1, 0, 1)], Match(2, 0, 1));
    run := placed + [Match(1, 0, 1)] + [Match(2, 0, 1)];
    StartInv(Some(1));
    RunInv(LED, run);
    var e := End(LED, run);
    K.QuiescentSide(e, PAIR, Buy);
    TiedBids(e.Book(PAIR).On(Buy), e.at);
    K.StateRecoveryIff(e, PAIR);
  }

  lemma {:induction false} TiedBids(bids: seq<Order>, at: map<OrderId, nat>)
    requires V.LiveSide(TWO_BIDS, PAIR, Buy, bids, at)
    ensures !V.FifoClocked(TWO_BIDS, bids)
  {
    assert Resting(TWO_BIDS[1]) && Resting(TWO_BIDS[2]);
    assert ToOrder(TWO_BIDS[1]) in bids && ToOrder(TWO_BIDS[2]) in bids;
    var i, j :| 0 <= i < |bids| && bids[i] == ToOrder(TWO_BIDS[1]) && 0 <= j < |bids|
        && bids[j] == ToOrder(TWO_BIDS[2]);
    assert i < j || j < i;
  }

  // A symbol that only a batch lets in

  const FORBIDDEN: Request := Request(1, [BTC, ETH], Sell, Limit, 1.0, 1.0)

  lemma {:induction false} ForbiddenAdmitted(db: DB)
    requires Key(1, BTC) in db.accounts && db.accounts[Key(1, BTC)].balance >= 1.0
    requires db.accounts[Key(1, BTC)].locked >= 0.0 && 1 !in db.orders
    ensures Admit(db, FORBIDDEN, 1, 0, map[]).Some?
  {
    OnTheGrid();
    assert Prepare(FORBIDDEN, map[]) == Some(A.Update(Key(1, BTC), 1.0, 0.0));
    assert Lockable(db.accounts, A.Update(Key(1, BTC), 1.0, 0.0));
  }

  lemma {:induction false} ForbiddenGoesThrough(db: DB)
    requires A.ValidTable(db.accounts) && Admit(db, FORBIDDEN, 1, 0, map[]).Some?
    ensures Batch(db, [FORBIDDEN], [1], 0, map[]).Some? && PlaceAll(db, [FORBIDDEN], [1], 0, map[]).None?
  {
    AdmitOne(db, FORBIDDEN, 1, 0, map[]);
    BatchAdmits(db, [FORBIDDEN], [1], 0, map[]);
    assert FORBIDDEN.symbol !in ALLOWED_SYMBOLS by {
      assert FORBIDDEN.symbol[1] != USD;
    }
    ForbiddenFails(db, [FORBIDDEN], [1], 0, map[], 0);
  }

  /** A registered user sells BTC for ETH: the batch goes through, placing the same order alone does not. */
  lemma {:induction false} ForbiddenBatch() returns (run: seq<Action>)
    ensures Legal(LED, run)
    ensures var db := End(LED, run).db;
            Batch(db, [FORBIDDEN], [1], 0, map[]).Some? && PlaceAll(db, [FORBIDDEN], [1], 0, map[]).None?
  {
    run := TwoUsers();
    ForbiddenAdmitted(USERS.db);
    ForbiddenGoesThrough(USERS.db);
  }
}
