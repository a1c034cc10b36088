/**
 Locked funds against reservations over whole runs, without any assumption on amounts: every difference is a
 rounding that a settlement made or an unlock whose guard missed.
 */
module Slack {
  import opened Types
  import opened Settlement
  import opened OrderFlow
  import opened Streams
  import opened Placement
  import opened Exchange
  import A = Accounts
  import F = Funds
  import R = Reservation
  import Subscriber

  function LockedAt(t: A.Table, k: Key): real {
    if k in t then t[k].locked else 0.0
  }

  /** What an account has locked beyond what its open orders reserve. */
  ghost function Excess(orders: Orders, t: A.Table, k: Key): real {
    LockedAt(t, k) - R.Reserved(orders, k)
  }

  /** An unlock that finds less locked than it asks for does nothing at all. */
  function Missed(unlock: real, locked: real): real {
    if unlock <= locked then 0.0 else unlock
  }

  /** How far a settlement's unlocks on the account are from what its orders stop reserving. */
  ghost function DriftOn(o: Orders, e: Event, k: Key): real
    requires e.SettlementRequested?
  {
    if e.taker in o && IsPair(o[e.taker].symbol)
       && forall t :: t in e.trades ==> t.maker in o && IsPair(o[t.maker].symbol)
    then R.SettlementDrift(o, e, k)
    else 0.0
  }

  /** What a delivery that commits adds to the excess: unlocks it misses, less its drift. */
  ghost function Slip(db: DB, e: Event, k: Key): real {
    if !Deliver(db, e).Committed? || k !in db.accounts then 0.0
    else if e.SettlementRequested? then
      Missed(A.UnlockOf(SettlementUpdates(db.orders, e), k), db.accounts[k].locked) - DriftOn(db.orders, e, k)
    else if UnlockKey(db.orders[e.id]) == k then Missed(UnlockAmount(db.orders[e.id]), db.accounts[k].locked)
    else 0.0
  }

  ghost function StepSlip(s: State, a: Action, k: Key): real
    requires Enabled(s, a)
  {
    match a
    case Consume(sym) => Slip(s.db, s.Queue(sym)[0], k)
    case Redeliver(e) => Slip(s.db, e, k)
    case Stray(e) => Slip(s.db, e, k)
    case _ => 0.0
  }

  ghost function RunSlip(s: State, run: seq<Action>, k: Key): real
    requires Legal(s, run)
    decreases run
  {
    if run == [] then 0.0 else StepSlip(s, run[0], k) + RunSlip(Step(s, run[0]), run[1..], k)
  }

  ghost predicate Kept(s: State) {
    Inv(s) && R.RowsBacked(s.db.orders, s.db.accounts)
  }

  // Deliveries

  lemma {:induction false} SettlementSlips(db: DB, e: Event, k: Key)
    requires RowsOk(db.orders) && Valid(db.orders, e) && e.SettlementRequested? && R.OneSymbol(db.orders, e)
    requires Deliver(db, e).Committed? && Deliver(db, e).db.orders == Rows(db.orders, e) && k in db.accounts
    ensures Excess(Deliver(db, e).db.orders, Deliver(db, e).db.accounts, k) ==
            Excess(db.orders, db.accounts, k) + Slip(db, e, k)
  {
    R.SettleReserves(db.orders, e, k);
    R.SettledLocked(db, e, k);
    SettledAt(db, e, k);
  }

  lemma {:induction false} SettledAt(db: DB, e: Event, k: Key)
    requires e.SettlementRequested? && Settle(db, e).Committed? && k in db.accounts
    ensures OrderIds(e) <= db.orders.Keys && LockedAt(Settle(db, e).db.accounts, k) == R.Settled(db, e, k).locked
  {
  }

  lemma {:induction false} CancelSlips(db: DB, e: Event, k: Key)
    requires RowsOk(db.orders) && Valid(db.orders, e) && e.OrderCanceled? && R.RowsBacked(db.orders, db.accounts)
    requires Deliver(db, e).Committed? && k in db.accounts
    ensures Excess(Deliver(db, e).db.orders, Deliver(db, e).db.accounts, k) ==
            Excess(db.orders, db.accounts, k) + Slip(db, e, k)
  {
    R.CancelReserves(db.orders, e.id, db.accounts, k);
  }

  lemma {:induction false} ViewOneSymbol(s: State, sym: Symbol, e: Event)
    requires RowsOk(s.db.orders) && Valid(s.View(sym), e)
    ensures R.OneSymbol(s.db.orders, e)
  {
    if e.SettlementRequested? {
      forall t | t in e.trades ensures t.maker in s.View(sym) {
        assert ValidTrade(s.View(sym), t, s.View(sym)[e.taker]);
      }
    }
  }

  lemma {:induction false} ConsumeBacked(s: State, sym: Symbol)
    requires Kept(s) && s.Queue(sym) != []
    ensures R.RowsBacked(AfterConsume(s, sym).db.orders, AfterConsume(s, sym).db.accounts)
  {
    var e := s.Queue(sym)[0];
    HeadReady(s, sym);
    HeadDelivered(s, sym);
    if Deliver(s.db, e).Committed? {
      R.RowsStayBacked(s.db.orders, e, s.db.accounts);
      DeliveredKeys(s.db, e);
      R.SameAccounts(Rows(s.db.orders, e), s.db.accounts, Deliver(s.db, e).db.accounts);
    }
  }

  lemma {:induction false} DeliveredKeys(db: DB, e: Event)
    requires Deliver(db, e).Committed?
    ensures Deliver(db, e).db.accounts.Keys == db.accounts.Keys
  {
  }

  lemma {:induction false} ConsumeSlips(s: State, sym: Symbol, k: Key)
    requires Kept(s) && s.Queue(sym) != []
    ensures var next := AfterConsume(s, sym).db;
            Excess(next.orders, next.accounts, k) ==
            Excess(s.db.orders, s.db.accounts, k) + Slip(s.db, s.Queue(sym)[0], k)
  {
    var e := s.Queue(sym)[0];
    HeadReady(s, sym);
    HeadDelivered(s, sym);
    if Deliver(s.db, e).Committed? {
      if k !in s.db.accounts {
        ConsumeBacked(s, sym);
        DeliveredKeys(s.db, e);
        F.NothingReserved(s.db.orders, s.db.accounts, k);
        F.NothingReserved(Deliver(s.db, e).db.orders, Deliver(s.db, e).db.accounts, k);
      } else if e.SettlementRequested? {
        ViewOneSymbol(s, sym, e);
        SettlementSlips(s.db, e, k);
      } else {
        CancelSlips(s.db, e, k);
      }
    }
  }

  // The other steps leave the excess alone

  lemma {:induction false} AdmitExcess(db: DB, r: Request, id: OrderId, now: int, snaps: Snapshots, k: Key)
    requires R.RowsBacked(db.orders, db.accounts) && SaneSnapshots(snaps) && Admit(db, r, id, now, snaps).Some?
    ensures var next := Admit(db, r, id, now, snaps).value;
            && R.RowsBacked(next.orders, next.accounts)
            && Excess(next.orders, next.accounts, k) == Excess(db.orders, db.accounts, k)
  {
    var u := Prepare(r, snaps).value;
    var row := NewRow(Normalize(r), id, now, u.amount);
    R.AdmittedRow(r, id, now, snaps);
    R.RowsMoreBacked(db.orders, row, db.accounts, u);
    R.RowAdded(db.orders, id, row, k);
  }

  lemma {:induction false} AdmitAllExcess(db: DB, rs: seq<Request>, ids: seq<OrderId>, now: int, snaps: Snapshots,
                                          k: Key)
    requires |rs| == |ids| && R.RowsBacked(db.orders, db.accounts) && SaneSnapshots(snaps)
    requires AdmitAll(db, rs, ids, now, snaps).Some?
    ensures var next := AdmitAll(db, rs, ids, now, snaps).value;
            && R.RowsBacked(next.orders, next.accounts)
            && Excess(next.orders, next.accounts, k) == Excess(db.orders, db.accounts, k)
    decreases rs
  {
    if rs != [] {
      AdmitExcess(db, rs[0], ids[0], now, snaps, k);
      AdmitAllExcess(Admit(db, rs[0], ids[0], now, snaps).value, rs[1..], ids[1..], now, snaps, k);
    }
  }

  lemma {:induction false} PlaceExcess(s: State, a: Action, k: Key)
    requires Kept(s) && Enabled(s, a) && (a.PlaceOne? || a.PlaceMany?)
    ensures var next := Step(s, a).db;
            && R.RowsBacked(next.orders, next.accounts)
            && Excess(next.orders, next.accounts, k) == Excess(s.db.orders, s.db.accounts, k)
  {
    if a.PlaceMany? {
      BatchAdmits(s.db, a.rs, a.ids, a.now, a.snaps);
      if AdmitAll(s.db, a.rs, a.ids, a.now, a.snaps).Some? {
        AdmitAllExcess(s.db, a.rs, a.ids, a.now, a.snaps, k);
      }
    } else if Place(s.db, a.r, a.id, a.now, a.snaps).Some? {
      AdmitExcess(s.db, a.r, a.id, a.now, a.snaps, k);
    }
  }

  lemma {:induction false} RechargeLocks(t: A.Table, user: UserId, k: Key)
    ensures A.Recharge(t, user).Keys == t.Keys && LockedAt(A.Recharge(t, user), k) == LockedAt(t, k)
  {
    var us := A.RechargeUpdates(user);
    var one := A.ApplyOne(t, us[0]);
    assert A.ApplyAll(one, us[1..]) == A.ApplyOne(one, us[1]) by {
      assert us[1..][0] == us[1] && us[1..][1..] == [];
    }
  }

  lemma {:induction false} FundsExcess(s: State, a: Action, k: Key)
    requires Kept(s) && Enabled(s, a) && (a.Register? || a.Recharge?)
    ensures var next := Step(s, a).db;
            && R.RowsBacked(next.orders, next.accounts)
            && Excess(next.orders, next.accounts, k) == Excess(s.db.orders, s.db.accounts, k)
  {
    if a.Recharge? {
      RechargeLocks(s.db.accounts, a.user, k);
    }
    R.SameAccounts(s.db.orders, s.db.accounts, Step(s, a).db.accounts);
  }

  lemma {:induction false} StepExcess(s: State, a: Action, k: Key)
    requires Kept(s) && Enabled(s, a)
    ensures Kept(Step(s, a))
    ensures var next := Step(s, a).db;
            Excess(next.orders, next.accounts, k) == Excess(s.db.orders, s.db.accounts, k) + StepSlip(s, a, k)
  {
    StepInv(s, a);
    if a.Consume? {
      ConsumeBacked(s, a.sym);
      ConsumeSlips(s, a.sym, k);
    } else if a.Redeliver? || a.Stray? {
      SpentSkips(s.db, a.e);
    } else if a.Register? || a.Recharge? {
      FundsExcess(s, a, k);
    } else if a.PlaceOne? || a.PlaceMany? {
      PlaceExcess(s, a, k);
    } else {
      SameOrders(s, a);
    }
  }

  lemma {:induction false} SameOrders(s: State, a: Action)
    requires Enabled(s, a) && (a.Match? || a.CancelRequested? || a.Takeover?)
    ensures Step(s, a).db.orders == s.db.orders && Step(s, a).db.accounts == s.db.accounts
  {
  }

  lemma {:induction false} RunExcess(s: State, run: seq<Action>, k: Key)
    requires Kept(s) && Legal(s, run)
    ensures var end := End(s, run).db;
            Excess(end.orders, end.accounts, k) == Excess(s.db.orders, s.db.accounts, k) + RunSlip(s, run, k)
    decreases run
  {
    if run != [] {
      StepExcess(s, run[0], k);
      RunExcess(Step(s, run[0]), run[1..], k);
    }
  }

  /**
   In every reachable state, on every account: what is locked beyond the reservations of open orders is the sum of all
   unlocks that missed, less the sum of all drifts.
   */
  lemma {:induction false} ExcessIsSlip(fence: Option<nat>, run: seq<Action>, s: State, k: Key)
    requires Legal(Start(fence), run) && s == End(Start(fence), run)
    ensures Excess(s.db.orders, s.db.accounts, k) == RunSlip(Start(fence), run, k)
  {
    StartInv(fence);
    F.NothingReserved(map[], map[], k);
    RunExcess(Start(fence), run, k);
  }
}
