/**
 The whole exchange as a state machine: users, order placement, the matching engines, the settlement topic
 and its consumer, in any interleaving, with any redeliveries, over any number of terms of leadership.
 */
module Exchange {
  import opened Types
  import opened Settlement
  import opened BookInvariant
  import opened OrderFlow
  import opened Streams
  import opened Ledger
  import opened Placement
  import Subscriber
  import A = Accounts
  import M = Matching
  import V = Recovery

  /**
   `at` numbers the orders in the sequence the engines received or restored them; `queue` is what is published for a
   symbol and not yet consumed; `delivered` is what was consumed, or dropped at a takeover; `minted` records whose
   match every trade id came from.
   */
  datatype State = State(db: DB, at: Arrivals, books: map<Symbol, M.Book>, queue: map<Symbol, seq<Event>>,
                         delivered: set<Event>, minted: map<TradeId, OrderId>) {
    function Book(sym: Symbol): M.Book {
      if sym in books then books[sym] else M.EMPTY_BOOK
    }

    function Queue(sym: Symbol): seq<Event> {
      if sym in queue then queue[sym] else []
    }

    function View(sym: Symbol): Orders {
      On(db.orders, sym)
    }
  }

  function Start(fence: Option<nat>): State {
    State(DB(map[], [], map[], fence), map[], map[], map[], {}, map[])
  }

  datatype Action =
    | Register(user: UserId)
    | Recharge(user: UserId)
    | PlaceOne(r: Request, id: OrderId, now: int, snaps: Snapshots)
    | PlaceMany(rs: seq<Request>, ids: seq<OrderId>, now: int, snaps: Snapshots)
    | Match(id: OrderId, nid: TradeId, token: int)
    | CancelRequested(id: OrderId, token: int)
    | Consume(sym: Symbol)
    | Redeliver(e: Event)
    | Takeover(term: nat, q: seq<Row>)
    | Stray(e: Event)

  /** What the engine does with an order it is handed. */
  function Matched(s: State, id: OrderId, nid: TradeId): M.Processed
    requires id in s.db.orders
  {
    var r := s.db.orders[id];
    M.Process(r.symbol, s.Book(r.symbol), ToTaker(r), nid)
  }

  function Mint(minted: map<TradeId, OrderId>, trades: seq<Trade>, taker: OrderId): map<TradeId, OrderId> {
    minted + map x | x in TradeIds(trades) :: taker
  }

  function TradeIds(trades: seq<Trade>): set<TradeId> {
    set t | t in trades :: t.id
  }

  ghost function WithDB(s: State, next: Option<DB>): State {
    if next.Some? then s.(db := next.value) else s
  }

  function Publish(queue: map<Symbol, seq<Event>>, sym: Symbol, more: seq<Event>): map<Symbol, seq<Event>> {
    queue[sym := (if sym in queue then queue[sym] else []) + more]
  }

  /** An order reaches its engine for the first time; its trades get fresh ids. */
  ghost predicate CanMatch(s: State, id: OrderId, nid: TradeId, token: int) {
    && id in s.db.orders && IsPair(s.db.orders[id].symbol) && id !in s.at && TokenValid(s.db.fence, token)
    && forall t :: t in Matched(s, id, nid).trades ==> t.id !in s.minted
  }

  function Settlements(s: State, id: OrderId, nid: TradeId, token: int): seq<Event>
    requires id in s.db.orders && IsPair(s.db.orders[id].symbol)
  {
    var r, p := s.db.orders[id], Matched(s, id, nid);
    if NeedsSettlement(r, p) then [MatchEvent(r, p, token)] else []
  }

  function AfterMatch(s: State, id: OrderId, nid: TradeId, token: int): State
    requires id in s.db.orders && IsPair(s.db.orders[id].symbol)
  {
    var sym, p := s.db.orders[id].symbol, Matched(s, id, nid);
    State(s.db, s.at[id := |s.at|], s.books[sym := p.book], Publish(s.queue, sym, Settlements(s, id, nid, token)),
          s.delivered, Mint(s.minted, p.trades, id))
  }

  /** The engine only announces a cancel when it still held the order. */
  function Cancellations(s: State, id: OrderId, token: int): seq<Event>
    requires id in s.db.orders
  {
    var r := s.db.orders[id];
    if M.Cancel(s.Book(r.symbol), id, r.side).1 then [OrderCanceled(r.symbol, id, r.user, token)] else []
  }

  function AfterCancel(s: State, id: OrderId, token: int): State
    requires id in s.db.orders
  {
    var r := s.db.orders[id];
    s.(books := s.books[r.symbol := M.Cancel(s.Book(r.symbol), id, r.side).0],
       queue := Publish(s.queue, r.symbol, Cancellations(s, id, token)))
  }

  /** An aborted delivery leaves the event at the head of its queue. */
  ghost function AfterConsume(s: State, sym: Symbol): State
    requires s.Queue(sym) != []
  {
    var e := s.Queue(sym)[0];
    var out := Deliver(s.db, e);
    if out.Aborted? then s
    else s.(db := After(s.db, out), queue := s.queue[sym := s.Queue(sym)[1..]], delivered := s.delivered + {e})
  }

  function Underway(queue: map<Symbol, seq<Event>>): set<Event> {
    set sym, e | sym in queue && e in queue[sym] :: e
  }

  /**
   A new leader with a higher token has the active orders from the database. Every resting order has reached its
   engine before, and everything still queued carries an older token, so that none of it will be let through.
   */
  ghost predicate CanTakeOver(s: State, token: nat, q: seq<Row>) {
    && token > 0 && (s.db.fence.Some? ==> token > s.db.fence.value)
    && V.QueryResult(s.db.orders, q) && (forall id :: id in s.db.orders && Resting(s.db.orders[id]) ==> id in s.at)
    && forall e :: e in Underway(s.queue) ==> 0 < e.token < token
  }

  function SymbolsOf(q: seq<Row>): set<Symbol> {
    set r | r in q :: r.symbol
  }

  function AfterTakeover(s: State, token: nat, q: seq<Row>): State {
    State(s.db.(fence := Some(token)), V.Renumbered(s.at, q),
          map sym | sym in SymbolsOf(q) :: V.Restored(sym, q), map[],
          s.delivered + Underway(s.queue), s.minted)
  }

  /**
   New users and new orders have fresh ids, each order reaches its engine once, trade ids are fresh, and the leader's
   token is current. Strays are events that a superseded leader still publishes under its own token.
   */
  ghost predicate Enabled(s: State, a: Action) {
    match a
    case Register(user) => forall c :: Key(user, c) !in s.db.accounts
    case Recharge(user) => true
    case PlaceOne(r, id, now, snaps) => SaneSnapshots(snaps)
    case PlaceMany(rs, ids, now, snaps) => |rs| == |ids| && SaneSnapshots(snaps)
    case Match(id, nid, token) => CanMatch(s, id, nid, token)
    case CancelRequested(id, token) => id in s.db.orders && TokenValid(s.db.fence, token)
    case Consume(sym) => s.Queue(sym) != []
    case Redeliver(e) => e in s.delivered
    case Takeover(token, q) => CanTakeOver(s, token, q)
    case Stray(e) => s.db.fence.Some? && 0 < e.token < s.db.fence.value
  }

  ghost function Step(s: State, a: Action): State
    requires Enabled(s, a)
  {
    match a
    case Register(user) => WithAccounts(s, A.Register(s.db.accounts, user))
    case Recharge(user) => WithAccounts(s, A.Recharge(s.db.accounts, user))
    case PlaceOne(r, id, now, snaps) => WithDB(s, Place(s.db, r, id, now, snaps))
    case PlaceMany(rs, ids, now, snaps) => WithDB(s, Batch(s.db, rs, ids, now, snaps))
    case Match(id, nid, token) => AfterMatch(s, id, nid, token)
    case CancelRequested(id, token) => AfterCancel(s, id, token)
    case Consume(sym) => AfterConsume(s, sym)
    case Redeliver(e) => s.(db := After(s.db, Deliver(s.db, e)))
    case Takeover(token, q) => AfterTakeover(s, token, q)
    case Stray(e) => s.(db := After(s.db, Deliver(s.db, e)))
  }

  function WithAccounts(s: State, t: A.Table): State {
    s.(db := s.db.(accounts := t))
  }

  ghost predicate Legal(s: State, run: seq<Action>)
    decreases run
  {
    run == [] || (Enabled(s, run[0]) && Legal(Step(s, run[0]), run[1..]))
  }

  ghost function End(s: State, run: seq<Action>): State
    requires Legal(s, run)
    decreases run
  {
    if run == [] then s else End(Step(s, run[0]), run[1..])
  }

  /** One more action at the end of a run. */
  lemma {:induction false} RunSnoc(s: State, run: seq<Action>, a: Action)
    requires Legal(s, run) && Enabled(End(s, run), a)
    ensures Legal(s, run + [a]) && End(s, run + [a]) == Step(End(s, run), a)
    decreases run
  {
    if run == [] {
      assert [] + [a] == [a] && [a][1..] == [];
    } else {
      assert (run + [a])[0] == run[0] && (run + [a])[1..] == run[1..] + [a];
      RunSnoc(Step(s, run[0]), run[1..], a);
    }
  }

  // The invariant

  /** A queued event carries a current token, and trades minted for a taker that its engine has seen. */
  ghost predicate EventOk(s: State, sym: Symbol, e: Event) {
    && e.symbol == sym && TokenValid(s.db.fence, e.token)
    && (e.SettlementRequested? ==> e.taker in s.at)
    && (e.SettlementRequested? ==> forall t :: t in e.trades ==> t.id in s.minted && s.minted[t.id] == e.taker)
  }

  /** A symbol's queue fits its rows, and its book is what the rows will be when the queue is consumed. */
  ghost predicate FlowOk(s: State, sym: Symbol) {
    && Chain(s.View(sym), s.Queue(sym))
    && Linked(Fold(s.View(sym), s.Queue(sym)), s.Book(sym), s.at)
    && forall e :: e in s.Queue(sym) ==> EventOk(s, sym, e)
  }

  /** A trade row names known orders, at the maker's price, and its taker has left NEW for good. */
  ghost predicate TradeOk(s: State, t: Trade) {
    && t.id in s.minted && s.minted[t.id] == t.taker
    && t.taker in s.db.orders && !s.db.orders[t.taker].status.New?
    && t.maker in s.db.orders && t.price == s.db.orders[t.maker].price
  }

  ghost predicate ArrivalsOk(s: State) {
    s.at.Keys <= s.db.orders.Keys && forall id :: id in s.at ==> s.at[id] < |s.at|
  }

  ghost predicate FlowsOk(s: State) {
    forall sym :: FlowOk(s, sym)
  }

  ghost predicate TradesOk(s: State) {
    forall t :: t in s.db.trades ==> TradeOk(s, t)
  }

  ghost predicate AllSpent(db: DB, es: set<Event>) {
    forall e :: e in es ==> Spent(db, e)
  }

  ghost predicate Inv(s: State) {
    && RowsOk(s.db.orders) && ArrivalsOk(s) && FlowsOk(s) && TradesOk(s) && AllSpent(s.db, s.delivered)
    && Booked(s.db.orders, s.db.trades) && A.ValidTable(s.db.accounts)
  }

  lemma {:induction false} StartInv(fence: Option<nat>)
    ensures Inv(Start(fence))
  {
    var s := Start(fence);
    forall sym ensures FlowOk(s, sym) {
      assert s.View(sym) == map[];
    }
  }

  // Placing

  ghost predicate NewOrder(s: State, id: OrderId, r: Row) {
    RowOk(id, r) && r.status.New? && id !in s.db.orders
  }

  /** A new order in the view, given the queue before it. */
  lemma {:induction false} ChainPlace(o: Orders, q: seq<Event>, b: M.Book, at: Arrivals, id: OrderId, r: Row)
    requires RowsOk(o) && Chain(o, q) && Linked(Fold(o, q), b, at)
    requires RowOk(id, r) && r.status.New? && id !in o && id !in at
    ensures Chain(o[id := r], q) && Linked(Fold(o[id := r], q), b, at)
  {
    ChainAdd(o, q, id, r);
    FoldForward(o, q);
    LinkedAdd(Fold(o, q), b, at, id, r);
  }

  lemma {:induction false} ViewAdd(orders: Orders, id: OrderId, r: Row, sym: Symbol)
    requires id !in orders
    ensures On(orders[id := r], sym) == if r.symbol == sym then On(orders, sym)[id := r] else On(orders, sym)
  {
  }

  lemma {:induction false} AddFlow(s: State, next: State, id: OrderId, r: Row, sym: Symbol)
    requires RowsOk(s.db.orders) && ArrivalsOk(s) && FlowOk(s, sym) && NewOrder(s, id, r)
    requires next == s.(db := next.db) && next.db.orders == s.db.orders[id := r] && next.db.fence == s.db.fence
    ensures FlowOk(next, sym)
  {
    ViewAdd(s.db.orders, id, r, sym);
    if r.symbol == sym {
      ChainPlace(s.View(sym), s.Queue(sym), s.Book(sym), s.at, id, r);
    }
    forall e | e in next.Queue(sym) ensures EventOk(next, sym, e) {
      EventStays(s, next, sym, e);
    }
  }

  lemma {:induction false} AddInv(s: State, next: State, id: OrderId, r: Row)
    requires Inv(s) && NewOrder(s, id, r) && A.ValidTable(next.db.accounts)
    requires next == s.(db := s.db.(orders := s.db.orders[id := r], accounts := next.db.accounts))
    ensures Inv(next)
  {
    forall sym ensures FlowOk(next, sym) {
      AddFlow(s, next, id, r, sym);
    }
    forall t | t in s.db.trades ensures TradeOk(next, t) && t.maker != id && t.taker != id {
      assert TradeOk(s, t);
    }
    TradeSumAbsent(s.db.trades, id);
  }

  lemma {:induction false} LockValid(t: A.Table, u: A.Update)
    requires A.ValidTable(t) && Lockable(t, u)
    ensures A.ValidTable(LockOne(t, u))
  {
  }

  lemma {:induction false} AdmitInv(s: State, r: Request, id: OrderId, now: int, snaps: Snapshots)
    requires Inv(s) && Admit(s.db, r, id, now, snaps).Some?
    ensures Inv(WithDB(s, Admit(s.db, r, id, now, snaps)))
  {
    var u := Prepare(r, snaps).value;
    LockValid(s.db.accounts, u);
    AddInv(s, WithDB(s, Admit(s.db, r, id, now, snaps)), id, NewRow(Normalize(r), id, now, u.amount));
  }

  lemma {:induction false} AdmitAllInv(s: State, rs: seq<Request>, ids: seq<OrderId>, now: int, snaps: Snapshots)
    requires Inv(s) && |rs| == |ids|
    ensures Inv(WithDB(s, AdmitAll(s.db, rs, ids, now, snaps)))
    decreases rs
  {
    if rs != [] && Admit(s.db, rs[0], ids[0], now, snaps).Some? {
      AdmitInv(s, rs[0], ids[0], now, snaps);
      AdmitAllInv(WithDB(s, Admit(s.db, rs[0], ids[0], now, snaps)), rs[1..], ids[1..], now, snaps);
    }
  }

  // Matching

  lemma {:induction false} HandedArrives(s: State, id: OrderId)
    requires ArrivalsOk(s) && id !in s.at
    ensures Arrives(s.at, id, s.at[id := |s.at|])
  {
  }

  lemma {:induction false} EventStays(s: State, next: State, sym: Symbol, e: Event)
    requires EventOk(s, sym, e) && next.db.fence == s.db.fence && s.at.Keys <= next.at.Keys
    requires forall x :: x in s.minted ==> x in next.minted && next.minted[x] == s.minted[x]
    ensures EventOk(next, sym, e)
  {
  }

  lemma {:induction false} MintKeeps(s: State, id: OrderId, nid: TradeId, token: int)
    requires CanMatch(s, id, nid, token)
    ensures var next := AfterMatch(s, id, nid, token);
            && (forall x :: x in s.minted ==> x in next.minted && next.minted[x] == s.minted[x])
            && (forall t :: t in Matched(s, id, nid).trades ==> t.id in next.minted && next.minted[t.id] == id)
  {
  }

  lemma {:induction false} MatchEvents(s: State, id: OrderId, nid: TradeId, token: int, sym: Symbol)
    requires CanMatch(s, id, nid, token) && s.db.orders[id].id == id
    requires forall e :: e in s.Queue(sym) ==> EventOk(s, sym, e)
    ensures var next := AfterMatch(s, id, nid, token); forall e :: e in next.Queue(sym) ==> EventOk(next, sym, e)
  {
    var next := AfterMatch(s, id, nid, token);
    MintKeeps(s, id, nid, token);
    forall e | e in next.Queue(sym) ensures EventOk(next, sym, e) {
      if e in s.Queue(sym) {
        EventStays(s, next, sym, e);
      } else {
        SettlementOk(s, id, nid, token, e, next);
      }
    }
  }

  lemma {:induction false} SettlementOk(s: State, id: OrderId, nid: TradeId, token: int, e: Event, next: State)
    requires CanMatch(s, id, nid, token) && s.db.orders[id].id == id && next.db.fence == s.db.fence && id in next.at
    requires e in Settlements(s, id, nid, token)
    requires forall t :: t in Matched(s, id, nid).trades ==> t.id in next.minted && next.minted[t.id] == id
    ensures EventOk(next, s.db.orders[id].symbol, e)
  {
  }

  /** Handing an order of the view to the engine, given the queue before it. */
  lemma {:induction false} ChainMatch(o: Orders, q: seq<Event>, b: M.Book, at: Arrivals, next: Arrivals, id: OrderId,
                                      nid: TradeId, token: int)
    requires RowsOk(o) && Chain(o, q) && Linked(Fold(o, q), b, at)
    requires id in o && id !in at && Arrives(at, id, next)
    ensures IsPair(o[id].symbol)
    ensures var p := M.Process(o[id].symbol, b, ToTaker(o[id]), nid);
            var more := q + if NeedsSettlement(o[id], p) then [MatchEvent(o[id], p, token)] else [];
            Chain(o, more) && Linked(Fold(o, more), p.book, next)
  {
    FoldForward(o, q);
    assert Forward(o[id], Fold(o, q)[id]);
    MatchLinked(Fold(o, q), b, at, next, id, nid, token);
    var p := M.Process(o[id].symbol, b, ToTaker(o[id]), nid);
    if NeedsSettlement(o[id], p) {
      ChainAppend(o, q, MatchEvent(o[id], p, token));
    } else {
      assert q + [] == q;
    }
  }

  /** The engine's own symbol: its queue grows by a valid event, or nothing is needed. */
  lemma {:induction false} MatchFlow(s: State, id: OrderId, nid: TradeId, token: int)
    requires RowsOk(s.db.orders) && ArrivalsOk(s) && CanMatch(s, id, nid, token) && FlowOk(s, s.db.orders[id].symbol)
    ensures FlowOk(AfterMatch(s, id, nid, token), s.db.orders[id].symbol)
  {
    var sym := s.db.orders[id].symbol;
    MatchEvents(s, id, nid, token, sym);
    HandedArrives(s, id);
    ChainMatch(s.View(sym), s.Queue(sym), s.Book(sym), s.at, s.at[id := |s.at|], id, nid, token);
  }

  lemma {:induction false} MatchOther(s: State, id: OrderId, nid: TradeId, token: int, sym: Symbol)
    requires RowsOk(s.db.orders) && ArrivalsOk(s) && CanMatch(s, id, nid, token) && FlowOk(s, sym)
    requires sym != s.db.orders[id].symbol
    ensures FlowOk(AfterMatch(s, id, nid, token), sym)
  {
    var next := AfterMatch(s, id, nid, token);
    HandedArrives(s, id);
    FoldForward(s.View(sym), s.Queue(sym));
    LinkedElsewhere(Fold(s.View(sym), s.Queue(sym)), s.Book(sym), s.at, id, next.at);
    forall e | e in next.Queue(sym) ensures EventOk(next, sym, e) {
      assert EventOk(s, sym, e);
    }
  }

  lemma {:induction false} MatchFlows(s: State, id: OrderId, nid: TradeId, token: int, sym: Symbol)
    requires RowsOk(s.db.orders) && ArrivalsOk(s) && CanMatch(s, id, nid, token)
    requires FlowOk(s, sym) && FlowOk(s, s.db.orders[id].symbol)
    ensures FlowOk(AfterMatch(s, id, nid, token), sym)
  {
    if sym == s.db.orders[id].symbol {
      MatchFlow(s, id, nid, token);
    } else {
      MatchOther(s, id, nid, token, sym);
    }
  }

  lemma {:induction false} MatchArrivals(s: State, id: OrderId, nid: TradeId, token: int)
    requires ArrivalsOk(s) && CanMatch(s, id, nid, token)
    ensures ArrivalsOk(AfterMatch(s, id, nid, token))
  {
    var next := s.at[id := |s.at|];
    assert next.Keys == s.at.Keys + {id};
    assert |next| == |s.at| + 1;
  }

  lemma {:induction false} MatchInv(s: State, id: OrderId, nid: TradeId, token: int)
    requires Inv(s) && CanMatch(s, id, nid, token)
    ensures Inv(AfterMatch(s, id, nid, token))
  {
    var next := AfterMatch(s, id, nid, token);
    assert next.db == s.db && next.delivered == s.delivered;
    MatchArrivals(s, id, nid, token);
    forall sym ensures FlowOk(next, sym) {
      assert FlowOk(s, sym) && FlowOk(s, s.db.orders[id].symbol);
      MatchFlows(s, id, nid, token, sym);
    }
    forall t | t in s.db.trades ensures TradeOk(next, t) {
      assert TradeOk(s, t);
    }
  }

  // Canceling

  /** A cancel request handed to the engine, given the queue before it. */
  lemma {:induction false} ChainCancel(o: Orders, q: seq<Event>, b: M.Book, at: Arrivals, id: OrderId, e: Event)
    requires RowsOk(o) && Chain(o, q) && Linked(Fold(o, q), b, at)
    requires id in o && e.OrderCanceled? && e.id == id && e.symbol == o[id].symbol && M.Cancel(b, id, o[id].side).1
    ensures Chain(o, q + [e]) && Linked(Fold(o, q + [e]), M.Cancel(b, id, o[id].side).0, at)
  {
    FoldForward(o, q);
    FoldSymbol(o, q, id);
    CancelLinked(Fold(o, q), b, at, id, o[id].side, e);
    ChainAppend(o, q, e);
  }

  lemma {:induction false} CancelFlow(s: State, id: OrderId, token: int)
    requires RowsOk(s.db.orders) && id in s.db.orders && TokenValid(s.db.fence, token)
             && FlowOk(s, s.db.orders[id].symbol)
    ensures FlowOk(AfterCancel(s, id, token), s.db.orders[id].symbol)
  {
    var r, next := s.db.orders[id], AfterCancel(s, id, token);
    var sym, more := r.symbol, Cancellations(s, id, token);
    if more != [] {
      ChainCancel(s.View(sym), s.Queue(sym), s.Book(sym), s.at, id, more[0]);
    } else {
      CancelMissed(s.Book(sym), id, r.side);
      assert s.Queue(sym) + more == s.Queue(sym);
    }
    forall x | x in next.Queue(sym) ensures EventOk(next, sym, x) {
      if x in s.Queue(sym) {
        EventStays(s, next, sym, x);
      } else {
        assert x in more;
      }
    }
  }

  lemma {:induction false} FoldSymbol(o: Orders, q: seq<Event>, id: OrderId)
    requires RowsOk(o) && Chain(o, q) && id in o
    ensures id in Fold(o, q) && Fold(o, q)[id].symbol == o[id].symbol
  {
    FoldForward(o, q);
    assert Forward(o[id], Fold(o, q)[id]);
    assert Subscriber.Terms(o[id]).symbol == Subscriber.Terms(Fold(o, q)[id]).symbol;
  }

  lemma {:induction false} CancelFlows(s: State, id: OrderId, token: int, sym: Symbol)
    requires RowsOk(s.db.orders) && id in s.db.orders && TokenValid(s.db.fence, token)
    requires FlowOk(s, sym) && FlowOk(s, s.db.orders[id].symbol)
    ensures FlowOk(AfterCancel(s, id, token), sym)
  {
    if sym == s.db.orders[id].symbol {
      CancelFlow(s, id, token);
    } else {
      FlowKept(s, AfterCancel(s, id, token), sym);
    }
  }

  lemma {:induction false} CancelInv(s: State, id: OrderId, token: int)
    requires Inv(s) && id in s.db.orders && TokenValid(s.db.fence, token)
    ensures Inv(AfterCancel(s, id, token))
  {
    var next := AfterCancel(s, id, token);
    assert next.db == s.db && next.delivered == s.delivered && next.at == s.at && next.minted == s.minted;
    forall sym ensures FlowOk(next, sym) {
      assert FlowOk(s, sym) && FlowOk(s, s.db.orders[id].symbol);
      CancelFlows(s, id, token, sym);
    }
    forall t | t in s.db.trades ensures TradeOk(next, t) {
      assert TradeOk(s, t);
    }
  }

  /** What a symbol's flow depends on. */
  lemma {:induction false} FlowKept(s: State, next: State, sym: Symbol)
    requires FlowOk(s, sym) && next.View(sym) == s.View(sym) && next.Queue(sym) == s.Queue(sym)
             && next.Book(sym) == s.Book(sym)
    requires next.at == s.at && next.minted == s.minted && next.db.fence == s.db.fence
    ensures FlowOk(next, sym)
  {
    forall e | e in next.Queue(sym) ensures EventOk(next, sym, e) {
      assert EventOk(s, sym, e);
    }
  }

  // Consuming

  /** The event at the head of a queue finds its orders as it needs them. */
  lemma {:induction false} HeadReady(s: State, sym: Symbol)
    requires Inv(s) && s.Queue(sym) != []
    ensures var e := s.Queue(sym)[0];
            && Valid(s.View(sym), e) && Valid(s.db.orders, e)
            && TokenValid(s.db.fence, e.token) && NewTrades(s.db.trades, e) && EventOk(s, sym, e)
  {
    var e := s.Queue(sym)[0];
    assert FlowOk(s, sym) && e in s.Queue(sym);
    RowsOnSymbol(s.db.orders, sym, e);
    assert EventOk(s, sym, e);
    if e.SettlementRequested? {
      forall t, x | t in e.trades && x in s.db.trades ensures x.id != t.id {
        assert TradeOk(s, x);
      }
    }
  }

  /** No queued event is ever skipped, and consuming it does to the rows what it was emitted for. */
  lemma {:induction false} HeadDelivered(s: State, sym: Symbol)
    requires Inv(s) && s.Queue(sym) != []
    ensures var e := s.Queue(sym)[0]; var out := Deliver(s.db, e);
            && out != Skipped
            && (out.Committed? ==> && out.db.orders == Rows(s.db.orders, e) && out.db.fence == s.db.fence
                                   && out.db.trades == s.db.trades + TradesOf(e))
            && (out.Aborted? ==> e.SettlementRequested? && OrderIds(e) <= s.db.orders.Keys
                                 && !Solvent(s.db.accounts, SettlementUpdates(s.db.orders, e)))
  {
    HeadReady(s, sym);
    DeliverValid(s.db, s.Queue(sym)[0]);
  }

  /** The state after an event of one symbol has been applied. */
  ghost predicate Applied(s: State, sym: Symbol, e: Event, next: State) {
    && s.Queue(sym) != []
    && next.db.orders == Rows(s.db.orders, e) && next.db.fence == s.db.fence
    && next == s.(db := next.db, queue := s.queue[sym := s.Queue(sym)[1..]], delivered := s.delivered + {e})
  }

  lemma {:induction false} ConsumeFlow(s: State, sym: Symbol, e: Event, next: State, other: Symbol)
    requires RowsOk(s.db.orders) && s.Queue(sym) != [] && e == s.Queue(sym)[0] && Applied(s, sym, e, next)
    requires FlowOk(s, sym) && FlowOk(s, other)
    ensures FlowOk(next, other)
  {
    RowsOnSymbol(s.db.orders, sym, e);
    if other == sym {
      forall x | x in next.Queue(sym) ensures EventOk(next, sym, x) {
        EventStays(s, next, sym, x);
      }
    } else {
      FlowKept(s, next, other);
    }
  }

  lemma {:induction false} SamePrice(a: Row, b: Row)
    requires Forward(a, b)
    ensures b.price == a.price
  {
    assert Subscriber.Terms(a).price == a.price && Subscriber.Terms(b).price == b.price;
  }

  lemma {:induction false} ConsumeTrades(s: State, sym: Symbol)
    requires Inv(s) && s.Queue(sym) != [] && Deliver(s.db, s.Queue(sym)[0]).Committed?
    ensures var next := AfterConsume(s, sym); forall t :: t in next.db.trades ==> TradeOk(next, t)
  {
    var e, next := s.Queue(sym)[0], AfterConsume(s, sym);
    HeadReady(s, sym);
    HeadDelivered(s, sym);
    RowsForward(s.db.orders, e);
    forall t | t in next.db.trades ensures TradeOk(next, t) {
      if t in s.db.trades {
        assert TradeOk(s, t);
        assert Forward(s.db.orders[t.taker], next.db.orders[t.taker]);
        SamePrice(s.db.orders[t.maker], next.db.orders[t.maker]);
      } else {
        assert ValidTrade(s.db.orders, t, s.db.orders[e.taker]);
        TakerRests(s.db.orders, e);
        SamePrice(s.db.orders[t.maker], next.db.orders[t.maker]);
      }
    }
  }

  lemma {:induction false} ConsumeInv(s: State, sym: Symbol)
    requires Inv(s) && s.Queue(sym) != []
    ensures Inv(AfterConsume(s, sym))
  {
    var e, next := s.Queue(sym)[0], AfterConsume(s, sym);
    HeadDelivered(s, sym);
    if Deliver(s.db, e).Committed? {
      HeadReady(s, sym);
      RowsForward(s.db.orders, e);
      ConsumeTrades(s, sym);
      forall other ensures FlowOk(next, other) {
        assert FlowOk(s, sym) && FlowOk(s, other);
        ConsumeFlow(s, sym, e, next, other);
      }
      AllSpentStay(s.db, Deliver(s.db, e).db, e, s.delivered);
      RowsBooked(s.db.orders, s.db.trades, e);
      DeliveredTable(s.db, e);
    }
  }

  lemma {:induction false} AllSpentStay(db: DB, next: DB, e: Event, es: set<Event>)
    requires RowsOk(db.orders) && Valid(db.orders, e) && AllSpent(db, es)
    requires next.orders == Rows(db.orders, e) && next.fence == db.fence
    ensures AllSpent(next, es + {e})
  {
    AppliedIsAbsorbed(db.orders, e);
    forall d | d in es ensures Spent(next, d) {
      assert Spent(db, d);
      if Absorbed(db.orders, d) {
        AbsorbedStays(db.orders, e, d);
      }
    }
  }

  /** Whatever commits has passed the CHECK constraints. */
  lemma {:induction false} DeliveredTable(db: DB, e: Event)
    requires A.ValidTable(db.accounts) && Deliver(db, e).Committed? && RowsOk(db.orders)
    ensures A.ValidTable(Deliver(db, e).db.accounts)
  {
    if e.OrderCanceled? {
      assert RowOk(e.id, db.orders[e.id]);
      if db.orders[e.id].otype.Limit? {
        WorthSign(db.orders[e.id].price, db.orders[e.id].Unfilled());
      }
    }
  }

  /** A redelivered event, and one from a superseded leader, changes nothing at all. */
  lemma {:induction false} RedeliverNothing(s: State, a: Action)
    requires Inv(s) && Enabled(s, a) && (a.Redeliver? || a.Stray?)
    ensures Step(s, a) == s
  {
    SpentSkips(s.db, a.e);
  }

  // Taking over

  lemma {:induction false} TakeoverBook(s: State, token: nat, q: seq<Row>, sym: Symbol)
    ensures AfterTakeover(s, token, q).Book(sym) == V.Restored(sym, q)
  {
    if sym !in SymbolsOf(q) {
      assert forall r :: r in q ==> r.symbol in SymbolsOf(q);
      V.NothingRestored(sym, q);
    }
  }

  lemma {:induction false} TakeoverArrivals(s: State, token: nat, q: seq<Row>)
    requires ArrivalsOk(s) && CanTakeOver(s, token, q)
    ensures ArrivalsOk(AfterTakeover(s, token, q)) && AfterTakeover(s, token, q).at.Keys == s.at.Keys
    ensures V.Numbered(q, AfterTakeover(s, token, q).at)
  {
    V.RenumberedBound(s.at, q);
    V.RenumberedNumbers(s.at, q);
  }

  /** A symbol's rows that the engine has not seen are NEW: nothing was ever queued for them. */
  lemma {:induction false} UnseenIsNew(s: State, id: OrderId)
    requires RowsOk(s.db.orders) && FlowsOk(s) && id in s.db.orders && id !in s.at
    ensures s.db.orders[id].status.New?
  {
    var sym := s.db.orders[id].symbol;
    assert FlowOk(s, sym) && id in s.View(sym);
    FoldForward(s.View(sym), s.Queue(sym));
    assert Forward(s.View(sym)[id], Fold(s.View(sym), s.Queue(sym))[id]);
  }

  lemma {:induction false} TakeoverFlow(s: State, token: nat, q: seq<Row>, sym: Symbol)
    requires RowsOk(s.db.orders) && ArrivalsOk(s) && FlowsOk(s) && CanTakeOver(s, token, q)
    ensures FlowOk(AfterTakeover(s, token, q), sym)
  {
    var next := AfterTakeover(s, token, q);
    TakeoverBook(s, token, q, sym);
    TakeoverArrivals(s, token, q);
    forall id | id in s.db.orders && id !in next.at ensures s.db.orders[id].status.New? {
      UnseenIsNew(s, id);
    }
    V.RestoredLinked(s.db.orders, sym, q, next.at);
  }

  lemma {:induction false} TakeoverSpent(s: State, token: nat, q: seq<Row>)
    requires AllSpent(s.db, s.delivered) && CanTakeOver(s, token, q)
    ensures AllSpent(AfterTakeover(s, token, q).db, AfterTakeover(s, token, q).delivered)
  {
    var next := AfterTakeover(s, token, q);
    forall e | e in next.delivered ensures Spent(next.db, e) {
      assert e in s.delivered ==> Spent(s.db, e);
    }
  }

  lemma {:induction false} TakeoverInv(s: State, token: nat, q: seq<Row>)
    requires Inv(s) && CanTakeOver(s, token, q)
    ensures Inv(AfterTakeover(s, token, q))
  {
    var next := AfterTakeover(s, token, q);
    TakeoverArrivals(s, token, q);
    TakeoverSpent(s, token, q);
    forall sym ensures FlowOk(next, sym) {
      TakeoverFlow(s, token, q, sym);
    }
    forall t | t in s.db.trades ensures TradeOk(next, t) {
      assert TradeOk(s, t);
    }
  }

  // Accounts only

  lemma {:induction false} AccountsInv(s: State, t: A.Table)
    requires Inv(s) && A.ValidTable(t)
    ensures Inv(WithAccounts(s, t))
  {
    var next := WithAccounts(s, t);
    forall sym ensures FlowOk(next, sym) {
      assert FlowOk(s, sym);
      FlowKept(s, next, sym);
    }
    forall x | x in s.db.trades ensures TradeOk(next, x) {
      assert TradeOk(s, x);
    }
  }

  lemma {:induction false} RegisterTable(t: A.Table, user: UserId)
    requires A.ValidTable(t)
    ensures A.ValidTable(A.Register(t, user))
  {
    assert forall k :: k in t ==> A.Checked(t[k]);
    forall k | k in A.Register(t, user) ensures A.Checked(A.Register(t, user)[k]) {
    }
  }

  lemma {:induction false} RechargeTable(t: A.Table, user: UserId)
    requires A.ValidTable(t)
    ensures A.ValidTable(A.Recharge(t, user))
  {
    var us := A.RechargeUpdates(user);
    var one := A.ApplyOne(t, us[0]);
    assert A.ApplyAll(one, us[1..]) == A.ApplyOne(one, us[1]) by {
      assert us[1..][0] == us[1] && us[1..][1..] == [];
    }
  }

  lemma {:induction false} PlaceStepInv(s: State, a: Action)
    requires Inv(s) && Enabled(s, a) && (a.PlaceOne? || a.PlaceMany?)
    ensures Inv(Step(s, a))
  {
    if a.PlaceMany? {
      BatchAdmits(s.db, a.rs, a.ids, a.now, a.snaps);
      AdmitAllInv(s, a.rs, a.ids, a.now, a.snaps);
    } else if Place(s.db, a.r, a.id, a.now, a.snaps).Some? {
      AdmitInv(s, a.r, a.id, a.now, a.snaps);
    }
  }

  lemma {:induction false} FundsStepInv(s: State, a: Action)
    requires Inv(s) && Enabled(s, a) && (a.Register? || a.Recharge?)
    ensures Inv(Step(s, a))
  {
    match a
    case Register(user) =>
      RegisterTable(s.db.accounts, user);
      AccountsInv(s, A.Register(s.db.accounts, user));
    case Recharge(user) =>
      RechargeTable(s.db.accounts, user);
      AccountsInv(s, A.Recharge(s.db.accounts, user));
  }

  /** Every step keeps the invariant. */
  lemma {:induction false} StepInv(s: State, a: Action)
    requires Inv(s) && Enabled(s, a)
    ensures Inv(Step(s, a))
  {
    match a
    case Match(id, nid, token) => MatchInv(s, id, nid, token);
    case CancelRequested(id, token) => CancelInv(s, id, token);
    case Consume(sym) => ConsumeInv(s, sym);
    case Redeliver(_) => RedeliverNothing(s, a);
    case Stray(_) => RedeliverNothing(s, a);
    case Takeover(token, q) => TakeoverInv(s, token, q);
    case _ =>
      if a.Register? || a.Recharge? {
        FundsStepInv(s, a);
      } else {
        PlaceStepInv(s, a);
      }
  }

  lemma {:induction false} RunInv(s: State, run: seq<Action>)
    requires Inv(s) && Legal(s, run)
    ensures Inv(End(s, run))
    decreases run
  {
    if run != [] {
      StepInv(s, run[0]);
      RunInv(Step(s, run[0]), run[1..]);
    }
  }
}
