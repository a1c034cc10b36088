/** The Postgres repository: tables as maps, statements as methods, transactions by saving and restoring. */
module Repository {
  import opened Types
  import opened Settlement
  import A = Accounts
  import L = RowLocks

  class PostgresRepository {
    var orders: Orders
    var trades: seq<Trade>
    var accounts: A.Table
    var fence: Option<nat>
    var users: set<UserId>
    // Messages of committed transactions to the orders topic.
    var outbox: seq<OrderMessage>
    // Rows locked so far by the running transaction, in the order in which it took them.
    ghost var locks: seq<L.Resource>

    constructor ()
      ensures Valid() && View() == DB(map[], [], map[], None) && users == {} && outbox == [] && locks == []
    {
      orders, trades, accounts, fence := map[], [], map[], None;
      users, outbox, locks := {}, [], [];
    }

    /** The CHECK constraints and the key columns. */
    ghost predicate Valid()
      reads this
    {
      A.ValidTable(accounts) && forall id :: id in orders ==> orders[id].id == id
    }

    function View(): DB
      reads this
    {
      DB(orders, trades, accounts, fence)
    }

    method BeginTx() returns (saved: DB)
      modifies this`locks
      ensures saved == View() && locks == []
    {
      saved := View();
      locks := [];
    }

    method Rollback(saved: DB)
      modifies this`orders, this`trades, this`accounts, this`fence
      ensures View() == saved
    {
      orders, trades, accounts, fence := saved.orders, saved.trades, saved.accounts, saved.fence;
    }

    /** Balance to locked, guarded; false when the row is missing, too poor, or a CHECK fails. */
    method LockFunds(k: Key, amount: real) returns (ok: bool)
      requires Valid()
      modifies this`accounts, this`locks
      ensures Valid() && locks == L.Acquire(old(locks), L.AccountRow(k))
      ensures ok == (A.CanLock(old(accounts), k, amount) && A.Checked(A.Lock(old(accounts)[k], amount)))
      ensures accounts == if ok then old(accounts)[k := A.Lock(old(accounts)[k], amount)] else old(accounts)
    {
      locks := L.Acquire(locks, L.AccountRow(k));
      ok := A.CanLock(accounts, k, amount) && A.Checked(A.Lock(accounts[k], amount));
      if ok {
        accounts := accounts[k := A.Lock(accounts[k], amount)];
      }
    }

    /** Locked back to balance; a shortfall matches no row and is not an error. False only on a CHECK failure. */
    method UnlockFunds(k: Key, amount: real) returns (ok: bool)
      requires Valid()
      modifies this`accounts, this`locks
      ensures Valid() && locks == L.Acquire(old(locks), L.AccountRow(k))
      ensures ok == (k in old(accounts) ==> A.Checked(A.Unlock(old(accounts)[k], amount)))
      ensures accounts == if ok && k in old(accounts) then old(accounts)[k := A.Unlock(old(accounts)[k], amount)]
                          else old(accounts)
    {
      locks := L.Acquire(locks, L.AccountRow(k));
      ok := true;
      if k in accounts {
        var a := accounts[k];
        var b := if a.locked >= amount then A.Account(a.balance + amount, a.locked - amount) else a;
        ok := A.Checked(b);
        if ok {
          accounts := accounts[k := b];
        }
      }
    }

    method UpdateBalance(k: Key, amount: real) returns (ok: bool)
      requires Valid()
      modifies this`accounts, this`locks
      ensures Valid() && locks == L.Acquire(old(locks), L.AccountRow(k))
      ensures ok == (k in old(accounts) ==> A.Checked(A.Credit(old(accounts)[k], amount)))
      ensures accounts == if ok && k in old(accounts) then old(accounts)[k := A.Credit(old(accounts)[k], amount)]
                          else old(accounts)
    {
      locks := L.Acquire(locks, L.AccountRow(k));
      ok := true;
      if k in accounts {
        ok := A.Checked(A.Credit(accounts[k], amount));
        if ok {
          accounts := accounts[k := A.Credit(accounts[k], amount)];
        }
      }
    }

    method CreateUser(user: UserId) returns (ok: bool)
      modifies this`users
      ensures ok == (user !in old(users)) && users == old(users) + {user}
    {
      ok := user !in users;
      users := users + {user};
    }

    method InsertOutbox(messages: seq<OrderMessage>)
      modifies this`outbox
      ensures outbox == old(outbox) + messages
    {
      outbox := outbox + messages;
    }

    /** An account that exists already is left alone; a negative balance fails the CHECK. */
    method CreateAccount(k: Key, balance: real) returns (ok: bool)
      requires Valid()
      modifies this`accounts
      ensures Valid() && ok == (balance >= 0.0)
      ensures accounts == if !ok || k in old(accounts) then old(accounts)
              else old(accounts)[k := A.Account(balance, 0.0)]
    {
      ok := balance >= 0.0;
      if ok && k !in accounts {
        accounts := accounts[k := A.Account(balance, 0.0)];
      }
    }

    method CreateOrder(r: Row) returns (ok: bool)
      requires Valid()
      modifies this`orders
      ensures Valid() && ok == (r.id !in old(orders))
      ensures orders == if ok then old(orders)[r.id := r] else old(orders)
    {
      ok := r.id !in orders;
      if ok {
        orders := orders[r.id := r];
      }
    }

    method GetOrderForUpdate(id: OrderId) returns (r: Option<Row>)
      modifies this`locks
      ensures r == if id in orders then Some(orders[id]) else None
      ensures locks == if id in orders then L.Acquire(old(locks), L.OrderRow(id)) else old(locks)
    {
      if id in orders {
        locks := L.Acquire(locks, L.OrderRow(id));
        r := Some(orders[id]);
      } else {
        r := None;
      }
    }

    /** Overwrites the two columns settlement may change, and locks the row if it is not locked yet. */
    method UpdateOrder(r: Row)
      requires Valid()
      modifies this`orders, this`locks
      ensures Valid()
      ensures locks == if r.id in old(orders) then L.Acquire(old(locks), L.OrderRow(r.id)) else old(locks)
      ensures orders == if r.id in old(orders)
                        then old(orders)[r.id := old(orders)[r.id].(filled := r.filled, status := r.status)]
                        else old(orders)
    {
      if r.id in orders {
        locks := L.Acquire(locks, L.OrderRow(r.id));
        orders := orders[r.id := orders[r.id].(filled := r.filled, status := r.status)];
      }
    }

    method CreateTrade(t: Trade) returns (ok: bool)
      modifies this`trades
      ensures ok == !TradeExists(old(trades), t.id)
      ensures trades == if ok then old(trades) + [t] else old(trades)
    {
      var exists_ := TradeExistsByID(t.id);
      ok := !exists_;
      if ok {
        trades := trades + [t];
      }
    }

    method TradeExistsByID(id: TradeId) returns (found: bool)
      ensures found == TradeExists(trades, id)
    {
      found := false;
      for i := 0 to |trades|
        invariant found == exists k :: 0 <= k < i && trades[k].id == id
      {
        if trades[i].id == id {
          found := true;
        }
      }
    }

    method ValidateFencingTokenTx(token: int) returns (valid: bool)
      modifies this`locks
      ensures valid == TokenValid(fence, token)
      ensures locks == if token > 0 && fence.Some? then L.Acquire(old(locks), L.FenceRow) else old(locks)
    {
      if token <= 0 {
        return true;
      }
      if fence.None? {
        return true;
      }
      locks := L.Acquire(locks, L.FenceRow);
      valid := token >= fence.value;
    }
  }
}
