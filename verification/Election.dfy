/** The leader row with its atomic statements, and the elector that drives it. */
module Election {
  import opened Types

  // Process ids: no two live processes share one, but a restarted process may have its predecessor's.
  type InstanceId = nat

  /** The row of partition_leader_locks; times are Unix milliseconds of whichever machine ran the statement. */
  datatype Lock = Lock(leader: InstanceId, token: nat, expiresAt: int)

  type LockRow = Option<Lock>

  /** The lease can be taken: there is no row yet, or it has run out. */
  predicate CanAcquire(row: LockRow, now: int) {
    row.None? || row.value.expiresAt < now
  }

  function NextToken(row: LockRow): nat {
    if row.None? then 1 else row.value.token + 1
  }

  predicate CanExtend(row: LockRow, id: InstanceId, token: nat) {
    row.Some? && row.value.leader == id && row.value.token == token
  }

  function Extended(row: LockRow, id: InstanceId, token: nat, expiresAt: int): LockRow {
    if CanExtend(row, id, token) then Some(row.value.(expiresAt := expiresAt)) else row
  }

  /** Releasing lets the lease run out at once but keeps the row and its token. */
  function Released(row: LockRow, id: InstanceId): LockRow {
    if row.Some? && row.value.leader == id then Some(row.value.(expiresAt := 0)) else row
  }

  class LockRepository {
    var row: LockRow

    constructor ()
      ensures row == None
    {
      row := None;
    }

    method AcquireLock(id: InstanceId, now: int, expiresAt: int) returns (token: Option<nat>)
      modifies this
      ensures token == if CanAcquire(old(row), now) then Some(NextToken(old(row))) else None
      ensures row == if token.Some? then Some(Lock(id, token.value, expiresAt)) else old(row)
    {
      if row.None? {
        row := Some(Lock(id, 1, expiresAt));
        return Some(1);
      }
      if row.value.expiresAt < now {
        row := Some(Lock(id, row.value.token + 1, expiresAt));
        return Some(row.value.token);
      }
      return None;
    }

    /** False when no row matched: the lease belongs to somebody else by now. */
    method ExtendLease(id: InstanceId, token: nat, expiresAt: int) returns (ok: bool)
      modifies this
      ensures ok == CanExtend(old(row), id, token)
      ensures row == Extended(old(row), id, token, expiresAt)
    {
      ok := row.Some? && row.value.leader == id && row.value.token == token;
      if ok {
        row := Some(row.value.(expiresAt := expiresAt));
      }
    }

    method ReleaseLock(id: InstanceId)
      modifies this
      ensures row == Released(old(row), id)
    {
      if row.Some? && row.value.leader == id {
        row := Some(row.value.(expiresAt := 0));
      }
    }
  }

  /** What can go wrong with one statement: it never ran, or it ran and the reply was lost. */
  datatype Fault = Fine | NotRun | ReplyLost

  /** What an elector believes. */
  datatype Belief = Belief(isLeader: bool, token: nat)

  const STANDBY: Belief := Belief(false, 0)

  /** Belief after the reply to an attempt to acquire. */
  function Learned(b: Belief, reply: Option<nat>): Belief {
    if reply.Some? then Belief(true, reply.value) else b
  }

  /** The leader row and the elector's belief after one tick. */
  function TickRow(row: LockRow, b: Belief, id: InstanceId, now: int, expiresAt: int, fault: Fault): LockRow {
    if fault.NotRun? then row
    else if b.isLeader then Extended(row, id, b.token, expiresAt)
    else if CanAcquire(row, now) then Some(Lock(id, NextToken(row), expiresAt))
    else row
  }

  function TickBelief(row: LockRow, b: Belief, id: InstanceId, now: int, fault: Fault): Belief {
    if b.isLeader then (if fault.Fine? && CanExtend(row, id, b.token) then b else STANDBY)
    else if fault.Fine? && CanAcquire(row, now) then Learned(b, Some(NextToken(row)))
    else b
  }

  class Elector {
    const id: InstanceId
    const repo: LockRepository
    var isLeader: bool
    var fencingToken: nat

    constructor (id: InstanceId, repo: LockRepository)
      ensures this.id == id && this.repo == repo && View() == STANDBY
    {
      this.id, this.repo := id, repo;
      isLeader, fencingToken := false, 0;
    }

    function View(): Belief
      reads this
    {
      Belief(isLeader, fencingToken)
    }

    /** One renewal or campaign; `became` and `lost` say which callback runs. */
    method Tick(now: int, expiresAt: int, fault: Fault) returns (became: bool, lost: bool)
      modifies this, repo
      ensures repo.row == TickRow(old(repo.row), old(View()), id, now, expiresAt, fault)
      ensures View() == TickBelief(old(repo.row), old(View()), id, now, fault)
      ensures became == (!old(isLeader) && isLeader) && lost == (old(isLeader) && !isLeader)
    {
      became, lost := false, false;
      if isLeader {
        var ok := true;
        if !fault.NotRun? {
          ok := repo.ExtendLease(id, fencingToken, expiresAt);
        }
        if !ok || !fault.Fine? {
          isLeader := false;
          fencingToken := 0;
          lost := true;
        }
        return;
      }
      if fault.NotRun? {
        return;
      }
      var token := repo.AcquireLock(id, now, expiresAt);
      if fault.ReplyLost? {
        return;
      }
      if token.Some? {
        isLeader := true;
        fencingToken := token.value;
        became := true;
      }
    }

    /** Graceful shutdown: a leader gives its lease back; errors are ignored. */
    method Shutdown(fault: Fault)
      modifies this, repo
      ensures repo.row == if old(isLeader) && !fault.NotRun? then Released(old(repo.row), id) else old(repo.row)
      ensures View() == if old(isLeader) then STANDBY else old(View())
    {
      if isLeader {
        if !fault.NotRun? {
          repo.ReleaseLock(id);
        }
        isLeader := false;
        fencingToken := 0;
      }
    }
  }
}
