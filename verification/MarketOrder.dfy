/** A market order from placing to settlement, in a run of the exchange. */
module MarketOrder {
  import opened Types
  import opened Money
  import opened Settlement
  import opened OrderFlow
  import opened Placement
  import opened Exchange
  import opened Witnesses
  import A = Accounts
  import D = Admission
  import E = Estimate
  import H = Holdings
  import M = Matching
  import R = Reservation

  const ASK: Request := Request(2, PAIR, Sell, Limit, 1.0, 1.0)
  const TAKE: Request := Request(1, PAIR, Buy, OrderType.Market, 1.0, 1.0)
  const ASK_ROW: Row := Row(2, 2, PAIR, Sell, Limit, 1.0, 1.0, 0.0, New, 0, 1.0)
  const TAKE_ROW: Row := Row(1, 1, PAIR, Buy, OrderType.Market, 1.0, 1.0, 0.0, New, 1, 1.05)
  const SHOWN: Snapshots := map[PAIR := [E.Level(1.0, 1.0)]]

  const ASKED: DB := DB(map[2 := ASK_ROW], [], FUNDED[Key(2, BTC) := A.Account(99.0, 1.0)], Some(1))
  const LOCKED: A.Table := ASKED.accounts[Key(1, USD) := A.Account(999998.95, 1.05)]
  const TAKING: DB := DB(map[2 := ASK_ROW, 1 := TAKE_ROW], [], LOCKED, Some(1))

  lemma {:induction false} AskPlaced()
    ensures Place(USERS.db, ASK, 2, 0, map[]) == Some(ASKED)
  {
    OnTheGrid();
    D.PlaceIff(USERS.db, ASK, 2, 0, map[]);
    D.PlaceWrites(USERS.db, ASK, 2, 0, map[]);
  }

  /** One level that has exactly the quantity. */
  lemma {:induction false} OneLevel(levels: seq<E.Level>)
    requires levels == [E.Level(1.0, 1.0)]
    ensures D.Offered(levels, |levels|) == 1.0 && D.Cost(levels, |levels|, 1.0) == 1.0
  {
    assert D.Offered(levels, 0) == 0.0 && D.Cost(levels, 0, 1.0) == 0.0;
    assert D.Share(levels, 0, 1.0) == 1.0 && Worth(1.0, 1.0) == 1.0;
  }

  lemma {:induction false} TakePlaced()
    ensures SaneSnapshots(SHOWN) && Place(ASKED, TAKE, 1, 1, SHOWN) == Some(TAKING)
  {
    OnTheGrid();
    OneLevel(SHOWN[PAIR]);
    D.PlaceIff(ASKED, TAKE, 1, 1, SHOWN);
    D.PlaceWrites(ASKED, TAKE, 1, 1, SHOWN);
  }

  const BEFORE: State := State(TAKING, map[], map[], map[], {}, map[])

  const ASK_RESTS: State :=
    State(TAKING, map[2 := 0], map[PAIR := M.Book([], [ToOrder(ASK_ROW)])], map[PAIR := []], {}, map[])

  const FILL: Trade := Trade(0, PAIR, 2, 1, 1.0, 1.0)

  const FILLED: Event := SettlementRequested(PAIR, 1, 1.05, USD, 0.0, [FILL], 1)

  const TAKEN: State :=
    State(TAKING, map[2 := 0, 1 := 1], map[PAIR := M.EMPTY_BOOK], map[PAIR := [FILLED]], {}, map[0 := 1])

  lemma {:induction false} AskRests()
    ensures CanMatch(BEFORE, 2, 0, 1) && AfterMatch(BEFORE, 2, 0, 1) == ASK_RESTS
  {
    assert ToOrder(ASK_ROW) == Order(2, 2, Sell, Limit, 1.0, 1.0) == ToTaker(ASK_ROW);
    FirstRests(ToOrder(ASK_ROW), 0);
    assert BEFORE.db.orders[2] == ASK_ROW && BEFORE.Book(PAIR) == M.EMPTY_BOOK && ASK_ROW.symbol == PAIR;
    NoSettlement(BEFORE, 2, 0);
    assert TradeIds([]) == {};
    Assembled(BEFORE, 2, 0, ASK_RESTS, [], []);
  }

  lemma {:induction false} MarketMatched()
    ensures Exchange.Matched(ASK_RESTS, 1, 0) == M.Processed(M.EMPTY_BOOK, [FILL], 0.0)
  {
    TakesOne([], ToTaker(TAKE_ROW), ToOrder(ASK_ROW), 0);
    assert ASK_RESTS.db.orders[1] == TAKE_ROW && ASK_RESTS.Book(PAIR) == M.Book([], [ToOrder(ASK_ROW)]);
  }

  lemma {:induction false} MarketAnnounced()
    ensures IsPair(ASK_RESTS.db.orders[1].symbol) && Settlements(ASK_RESTS, 1, 0, 1) == [FILLED]
  {
    MarketMatched();
    assert ASK_RESTS.db.orders[1] == TAKE_ROW;
  }

  lemma {:induction false} MarketTakes()
    ensures CanMatch(ASK_RESTS, 1, 0, 1) && AfterMatch(ASK_RESTS, 1, 0, 1) == TAKEN
  {
    MarketMatched();
    MarketAnnounced();
    assert TradeIds([FILL]) == {0};
    assert ASK_RESTS.queue[PAIR] + [FILLED] == [FILLED];
    Assembled(ASK_RESTS, 1, 0, TAKEN, [FILL], [FILLED]);
  }

  const PAYMENTS: seq<A.Update> :=
    [A.Update(Key(1, USD), -1.0, 1.0), A.Update(Key(1, BTC), 1.0, 0.0), A.Update(Key(2, BTC), -1.0, 1.0),
     A.Update(Key(2, USD), 1.0, 0.0)]

  const REFUND: seq<A.Update> := [A.Update(Key(1, USD), 0.0, 0.05)]

  lemma {:induction false} RefundRounds()
    ensures Round8(0.05) == 0.05
  {
    assert 0.05 * SCALE == 5000000.0;
    RoundExact(0.05);
  }

  lemma {:induction false} BothRowsFilled(o: Orders)
    requires o == map[2 := ASK_ROW, 1 := TAKE_ROW]
    ensures FillRows(o, [FILL], 1) ==
            map[2 := ASK_ROW.(filled := 1.0, status := Status.Filled), 1 := TAKE_ROW.(filled := 1.0)]
  {
    assert [FILL][1..] == [] && FillRows(FillOne(o, FILL, 1), [], 1) == FillOne(o, FILL, 1);
  }

  lemma {:induction false} FillPays(o: Orders)
    requires o == map[2 := ASK_ROW, 1 := TAKE_ROW]
    ensures OrderIds(FILLED) == {1, 2} && SettlementUpdates(o, FILLED) == PAYMENTS + REFUND
    ensures SettleRows(o, FILLED) ==
            map[2 := ASK_ROW.(filled := 1.0, status := Status.Filled),
                1 := TAKE_ROW.(filled := 1.0, status := Status.Filled)]
  {
    OnTheGrid();
    RefundRounds();
    BothRowsFilled(o);
    assert [FILL][1..] == [] && M.Value([]) == 0.0;
    assert M.Value([FILL]) == 1.0;
    assert TradeUpdates(FILL, TAKE_ROW, ASK_ROW) == PAYMENTS;
    assert AllTradeUpdates(o, [], 1) == [];
    assert AllTradeUpdates(o, [FILL], 1) == PAYMENTS + [];
    assert FinishTaker(TAKE_ROW.(filled := 1.0), FILLED) == (Status.Filled, 0.05);
  }

  lemma {:induction false} PaymentSums(k: Key)
    ensures A.UnlockOf(PAYMENTS + REFUND, k) == H.At(Key(1, USD), k, 1.05) + H.At(Key(2, BTC), k, 1.0)
    ensures A.AmountOf(PAYMENTS + REFUND, k) == H.At(Key(1, USD), k, -1.0) + H.At(Key(1, BTC), k, 1.0)
                                                + H.At(Key(2, BTC), k, -1.0) + H.At(Key(2, USD), k, 1.0)
  {
    var p := PAYMENTS;
    R.FourUnlocks(p[0], p[1], p[2], p[3], k);
    H.FourAmounts(p[0], p[1], p[2], p[3], k);
    assert p == [p[0], p[1], p[2], p[3]] && REFUND[1..] == [];
    A.SumsConcat(PAYMENTS, REFUND, k);
  }

  const PAID: A.Table :=
    map[Key(1, USD) := A.Account(999999.0, 0.0), Key(1, BTC) := A.Account(101.0, 0.0),
        Key(1, ETH) := A.Account(1000.0, 0.0), Key(2, USD) := A.Account(1000001.0, 0.0),
        Key(2, BTC) := A.Account(99.0, 0.0), Key(2, ETH) := A.Account(1000.0, 0.0)]

  /** Any table with these two amounts locked pays. */
  lemma {:induction false} Pays(t: A.Table, k: Key)
    requires k in t
    requires k == Key(1, USD) ==> t[k] == A.Account(999998.95, 1.05)
    requires k == Key(2, BTC) ==> t[k] == A.Account(99.0, 1.0)
    ensures A.Net(t[k], A.UnlockOf(PAYMENTS + REFUND, k), A.AmountOf(PAYMENTS + REFUND, k)) ==
            if k == Key(1, USD) then A.Account(999999.0, 0.0)
            else if k == Key(2, BTC) then A.Account(99.0, 0.0)
            else t[k].(balance := t[k].balance + if k == Key(1, BTC) || k == Key(2, USD) then 1.0 else 0.0)
  {
    PaymentSums(k);
  }

  lemma {:induction false} AllPay()
    ensures Solvent(LOCKED, PAYMENTS + REFUND) && NetAll(LOCKED, PAYMENTS + REFUND) == PAID
  {
    var t := LOCKED;
    assert t[Key(1, BTC)] == A.Account(100.0, 0.0) && t[Key(2, USD)] == A.Account(1000000.0, 0.0);
    assert t[Key(1, ETH)] == A.Account(1000.0, 0.0) == t[Key(2, ETH)];
    assert t.Keys == PAID.Keys;
    forall k | k in t
      ensures A.Net(t[k], A.UnlockOf(PAYMENTS + REFUND, k), A.AmountOf(PAYMENTS + REFUND, k)) == PAID[k]
    {
      Pays(t, k);
    }
  }

  lemma {:induction false} FillSettles()
    ensures Settle(TAKING, FILLED) == Committed(DB(SettleRows(TAKING.orders, FILLED), [FILL], PAID, Some(1)))
  {
    FillPays(TAKING.orders);
    AllPay();
    assert [] + [FILL] == [FILL];
  }

  lemma {:induction false} BothHanded() returns (run: seq<Action>)
    ensures Legal(LED, run) && End(LED, run) == TAKEN
  {
    var r0 := TwoUsers();
    AskPlaced();
    TakePlaced();
    AskRests();
    MarketTakes();
    RunSnoc(LED, r0, PlaceOne(ASK, 2, 0, map[]));
    var r1 := r0 + [PlaceOne(ASK, 2, 0, map[])];
    RunSnoc(LED, r1, PlaceOne(TAKE, 1, 1, SHOWN));
    var r2 := r1 + [PlaceOne(TAKE, 1, 1, SHOWN)];
    RunSnoc(LED, r2, Match(2, 0, 1));
    RunSnoc(LED, r2 + [Match(2, 0, 1)], Match(1, 0, 1));
    run := r2 + [Match(2, 0, 1)] + [Match(1, 0, 1)];
  }

  /**
   Two registered users; one asks 1 for a coin, the other buys a coin at market. 1.05 is locked for it, the coin costs
   1, the rest comes back, both orders are FILLED, and nothing is locked any more.
   */
  lemma {:induction false} MarketOrderSettles() returns (run: seq<Action>)
    ensures Legal(LED, run)
    ensures var db := End(LED, run).db;
            && 1 in db.orders && db.orders[1].otype.Market? && db.orders[1].status.Filled? && db.orders[1].filled == 1.0
            && db.orders[1].lockedAmount == 1.05 && db.trades == [Trade(0, PAIR, 2, 1, 1.0, 1.0)] && db.accounts == PAID
  {
    var handed := BothHanded();
    FillSettles();
    FillPays(TAKING.orders);
    RunSnoc(LED, handed, Consume(PAIR));
    OneConsumed(TAKEN, PAIR, FILLED);
    run := handed + [Consume(PAIR)];
  }
}
