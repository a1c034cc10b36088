/** Test users and their test funds. */
module AccountService {
  import opened Types
  import opened Repository
  import A = Accounts
  import L = RowLocks
  import S = Subscriber

  class Service {
    const repo: PostgresRepository

    constructor (repo: PostgresRepository)
      ensures this.repo == repo
    {
      this.repo := repo;
    }

    /** A new user and its three accounts, in one transaction; refused when the user is known. */
    method RegisterAnonymousUser(user: UserId) returns (ok: bool)
      requires repo.Valid()
      modifies repo`users, repo`accounts, repo`locks
      ensures repo.Valid() && ok == (user !in old(repo.users)) && repo.users == old(repo.users) + {user}
      ensures repo.View() ==
              if ok then old(repo.View()).(accounts := A.Register(old(repo.accounts), user)) else old(repo.View())
    {
      var saved := repo.BeginTx();
      ok := repo.CreateUser(user);
      if !ok {
        return;
      }
      ok := repo.CreateAccount(Key(user, USD), 1000000.0);
      if ok {
        ok := repo.CreateAccount(Key(user, BTC), 100.0);
      }
      if ok {
        ok := repo.CreateAccount(Key(user, ETH), 1000.0);
      }
      assert repo.accounts == A.Register(saved.accounts, user);
    }

    /** Base currency first, then quote currency: the order in which accounts are locked everywhere. */
    method RechargeTestUser(user: UserId) returns (ok: bool)
      requires repo.Valid()
      modifies repo`accounts, repo`locks
      ensures repo.Valid() && ok && repo.View() == old(repo.View()).(accounts := A.Recharge(old(repo.accounts), user))
      ensures L.Ascending(repo.locks)
    {
      var saved := repo.BeginTx();
      ghost var us := A.RechargeUpdates(user);
      ghost var one := A.ApplyOne(saved.accounts, us[0]);
      assert A.ApplyAll(one, us[1..]) == A.ApplyOne(one, us[1]) by {
        assert us[1..][0] == us[1] && us[1..][1..] == [];
      }
      S.AcquireAscending(repo.locks, L.AccountRow(Key(user, BTC)));
      ok := repo.UpdateBalance(Key(user, BTC), 10000.0);
      assert ok && repo.accounts == one;
      S.AcquireAscending(repo.locks, L.AccountRow(Key(user, USD)));
      ok := repo.UpdateBalance(Key(user, USD), 100000000.0);
    }
  }
}
