/** The engines' consumer: the leadership gate, and which events each engine step publishes. */
module MatchingSubscriber {
  import opened Types
  import opened Settlement
  import opened OrderFlow
  import opened Manager
  import M = Matching

  class Subscriber {
    const manager: EngineManager
    // 0 while this process does not lead.
    var fencingToken: nat
    var settlements: seq<Event>
    var executions: seq<Trade>

    constructor (manager: EngineManager)
      ensures this.manager == manager && fencingToken == 0 && settlements == [] && executions == []
    {
      this.manager := manager;
      fencingToken, settlements, executions := 0, [], [];
    }

    method SetFencingToken(token: nat)
      modifies this`fencingToken
      ensures fencingToken == token
    {
      fencingToken := token;
    }

    /** The token is read when the event is built; by then the losing callback may have cleared it. */
    method ReadToken(cleared: bool) returns (token: nat)
      modifies this`fencingToken
      ensures token == fencingToken == if cleared then 0 else old(fencingToken)
    {
      if cleared {
        SetFencingToken(0);
      }
      token := fencingToken;
    }

    /** Match a new order; `cleared` says whether the losing callback runs while the engine is at it. */
    method HandleOrderPlaced(r: Row, cleared: bool)
      requires manager.Valid() && IsPair(r.symbol)
      modifies this`settlements, this`executions, this`fencingToken
      modifies manager, manager.engines.Values, manager.Books(), manager.Resting()
      ensures manager.Valid() && fencingToken == if cleared then 0 else old(fencingToken)
      ensures Placed(r, old(manager.Book(r.symbol)), old(manager.NextTrade(r.symbol)), manager.Book(r.symbol),
                     manager.NextTrade(r.symbol))
      ensures forall sym :: sym != r.symbol ==> manager.Book(sym) == old(manager.Book(sym))
                                                && manager.NextTrade(sym) == old(manager.NextTrade(sym))
      ensures var p := M.Process(r.symbol, old(manager.Book(r.symbol)), ToTaker(r), old(manager.NextTrade(r.symbol)));
              && settlements == old(settlements) + Announced(r, p, fencingToken)
              && executions == old(executions) + p.trades
    {
      var remaining, trades := Match(manager, r.symbol, ToTaker(r));
      RequestSettlement(r, remaining, trades, cleared, M.Processed(manager.Book(r.symbol), trades, remaining));
    }

    /** Nothing is published for an order that just went into the book. */
    method RequestSettlement(r: Row, remaining: real, trades: seq<Trade>, cleared: bool, ghost p: M.Processed)
      requires manager.Valid() && IsPair(r.symbol) && p.trades == trades && p.left == remaining
      modifies this`settlements, this`executions, this`fencingToken
      ensures fencingToken == if cleared then 0 else old(fencingToken)
      ensures settlements == old(settlements) + Announced(r, p, fencingToken)
      ensures executions == old(executions) + trades
      ensures manager.Valid() && forall x :: manager.Book(x) == old(manager.Book(x))
    {
      var token := ReadToken(cleared);
      if |trades| > 0 || r.otype.Market? || remaining == 0.0 {
        settlements := settlements + [SettlementRequested(r.symbol, r.id, r.lockedAmount, UnlockKey(r).currency,
                                                          remaining, trades, token)];
        executions := executions + trades;
      }
    }

    /** Only a cancel that found the order in the book is announced. */
    method HandleOrderCancelRequested(symbol: Symbol, id: OrderId, side: Side, user: UserId, cleared: bool)
      requires manager.Valid()
      modifies this`settlements, this`fencingToken, manager, manager.Books()
      ensures manager.Valid() && fencingToken == if cleared then 0 else old(fencingToken)
      ensures forall sym :: manager.NextTrade(sym) == old(manager.NextTrade(sym))
      ensures forall sym :: sym != symbol ==> manager.Book(sym) == old(manager.Book(sym))
      ensures var (book, found) := M.Cancel(old(manager.Book(symbol)), id, side);
              && manager.Book(symbol) == book
              && settlements == old(settlements) + if found then [OrderCanceled(symbol, id, user, fencingToken)] else []
    {
      var canceled := Cancel(manager, symbol, id, side);
      label Canceled:
      AnnounceCancel(symbol, id, user, canceled, cleared);
      assert manager.Valid();
      assert forall x :: manager.Book(x) == old@Canceled(manager.Book(x));
    }

    method AnnounceCancel(symbol: Symbol, id: OrderId, user: UserId, canceled: bool, cleared: bool)
      modifies this`settlements, this`fencingToken
      ensures fencingToken == if cleared then 0 else old(fencingToken)
      ensures settlements == old(settlements) + if canceled then [OrderCanceled(symbol, id, user, fencingToken)] else []
    {
      var token := ReadToken(cleared);
      if canceled {
        settlements := settlements + [OrderCanceled(symbol, id, user, token)];
      }
    }

    /** Without a token nothing is matched and the message is passed over. */
    method HandleEvents(m: OrderMessage, cleared: bool)
      requires manager.Valid() && (m.OrderPlaced? ==> IsPair(m.order.symbol))
      modifies this`settlements, this`executions, this`fencingToken
      modifies manager, manager.engines.Values, manager.Books(), manager.Resting()
      ensures manager.Valid() && fencingToken == if cleared then 0 else old(fencingToken)
      ensures forall sym :: old(fencingToken) == 0 || sym != MessageSymbol(m) ==>
                manager.Book(sym) == old(manager.Book(sym)) && manager.NextTrade(sym) == old(manager.NextTrade(sym))
      ensures old(fencingToken) == 0 ==> settlements == old(settlements) && executions == old(executions)
      ensures old(fencingToken) != 0 && m.OrderPlaced? ==>
                var sym := m.order.symbol;
                var p := M.Process(sym, old(manager.Book(sym)), ToTaker(m.order), old(manager.NextTrade(sym)));
                && Placed(m.order, old(manager.Book(sym)), old(manager.NextTrade(sym)), manager.Book(sym),
                          manager.NextTrade(sym))
                && settlements == old(settlements) + Announced(m.order, p, fencingToken)
                && executions == old(executions) + p.trades
      ensures old(fencingToken) != 0 && m.CancelRequested? ==>
                var (book, found) := M.Cancel(old(manager.Book(m.symbol)), m.id, m.side);
                && manager.Book(m.symbol) == book && manager.NextTrade(m.symbol) == old(manager.NextTrade(m.symbol))
                && settlements == old(settlements)
                    + (if found then [OrderCanceled(m.symbol, m.id, m.user, fencingToken)] else [])
                && executions == old(executions)
    {
      if fencingToken == 0 {
        return;
      }
      match m
      case OrderPlaced(order) => HandleOrderPlaced(order, cleared);
      case CancelRequested(symbol, id, side, user) => HandleOrderCancelRequested(symbol, id, side, user, cleared);
    }
  }

  /** Whose engine a message is for. */
  function MessageSymbol(m: OrderMessage): Symbol {
    match m
    case OrderPlaced(order) => order.symbol
    case CancelRequested(symbol, _, _, _) => symbol
  }

  /** The engine after an order: its book and its next trade id. */
  ghost predicate Placed(r: Row, b: M.Book, nid: TradeId, after: M.Book, next: TradeId) {
    var p := M.Process(r.symbol, b, ToTaker(r), nid);
    after == p.book && next == nid + |p.trades|
  }

  /** The settlement published for a matched order, if it needs one. */
  function Announced(r: Row, p: M.Processed, token: nat): seq<Event>
    requires IsPair(r.symbol)
  {
    if NeedsSettlement(r, p) then [MatchEvent(r, p, token)] else []
  }
}
