/**
 Leadership and fencing over all interleavings of any number of instances: elections, renewals, shutdowns,
 crashes and lost replies, engines emitting events, and transactions validating and applying them.
 */
module Fencing {
  import opened Types
  import opened Settlement
  import opened Election

  /**
   Where an elector is: between ticks, waiting for a reply, in the callback that starts the engine, in the one
   that stops it (first the token is cleared, then the engine is waited for), or gone for good.
   */
  datatype Phase = Idle | Campaigning(reply: Option<nat>) | Renewing(ok: bool) | Starting | Stopping | Draining | Down

  /**
   One process: its elector's belief, the token its engine stamps on events (0 while it must not match), and
   the token it saw when it let in the order it is working on.
   */
  datatype Instance = Instance(belief: Belief, phase: Phase, stamp: nat, gate: Option<nat>)

  /** A published event: the token its order was let in under, and the token stamped on it. */
  datatype Stamped = Stamped(gate: nat, stamp: nat)

  /** A transaction that validated an event's stamp; it shares the leader row's lock unless the stamp was 0. */
  datatype Tx = Tx(event: Stamped, shares: bool)

  /** `issued` lists who got token 1, 2, ...; `log` is what engines published, `applied` what was committed. */
  datatype Cluster = Cluster(row: LockRow, issued: seq<InstanceId>, instances: map<InstanceId, Instance>,
                             log: set<Stamped>, txs: map<nat, Tx>, applied: seq<Stamped>)

  const START: Cluster := Cluster(None, [], map[], {}, map[], [])

  datatype Action =
    | Boot(i: InstanceId)
    | Campaign(i: InstanceId, now: int, expiresAt: int)
    | Renew(i: InstanceId, expiresAt: int)
    | Reply(i: InstanceId)
    | LoseReply(i: InstanceId)
    | SetStamp(i: InstanceId)
    | Drained(i: InstanceId)
    | Shutdown(i: InstanceId, released: bool)
    | Crash(i: InstanceId)
    | Gate(i: InstanceId)
    | Emit(i: InstanceId)
    | GiveUp(i: InstanceId)
    | Validate(tx: nat, event: Stamped)
    | Commit(tx: nat)
    | Abort(tx: nat)

  ghost predicate Shared(c: Cluster) {
    exists t :: t in c.txs && c.txs[t].shares
  }

  predicate Alive(c: Cluster, i: InstanceId) {
    i in c.instances
  }

  /**
   No two live processes share an id, but a restarted one may have its predecessor's. An elector does one thing
   at a time, and an engine works on one order at a time. Taking over the row waits until nobody shares its
   lock; renewing and releasing leave the token alone and are allowed at any time. A release may fail.
   */
  ghost predicate Enabled(c: Cluster, a: Action) {
    match a
    case Boot(i) => !Alive(c, i)
    case Campaign(i, _, _) => Alive(c, i) && c.instances[i].phase.Idle? && !c.instances[i].belief.isLeader && !Shared(c)
    case Renew(i, _) => Alive(c, i) && c.instances[i].phase.Idle? && c.instances[i].belief.isLeader
    case Reply(i) => Alive(c, i) && (c.instances[i].phase.Campaigning? || c.instances[i].phase.Renewing?)
    case LoseReply(i) => Alive(c, i) && (c.instances[i].phase.Campaigning? || c.instances[i].phase.Renewing?)
    case SetStamp(i) => Alive(c, i) && (c.instances[i].phase.Starting? || c.instances[i].phase.Stopping?)
    case Drained(i) => Alive(c, i) && c.instances[i].phase.Draining? && c.instances[i].gate.None?
    case Shutdown(i, _) => Alive(c, i) && c.instances[i].phase.Idle?
    case Crash(i) => Alive(c, i)
    case Gate(i) => Alive(c, i) && c.instances[i].stamp != 0 && c.instances[i].gate.None?
    case Emit(i) => Alive(c, i) && c.instances[i].gate.Some?
    case GiveUp(i) => Alive(c, i) && c.instances[i].gate.Some?
    case Validate(tx, e) => tx !in c.txs && e in c.log && TokenValid(Fence(c), e.stamp)
    case Commit(tx) => tx in c.txs
    case Abort(tx) => tx in c.txs
  }

  /** The token the settlement transactions compare with. */
  function Fence(c: Cluster): Option<nat> {
    if c.row.Some? then Some(c.row.value.token) else None
  }

  function Resigned(p: Instance): Instance {
    p.(belief := STANDBY, phase := Stopping)
  }

  function Answered(p: Instance, lost: bool): Instance {
    match p.phase
    case Campaigning(reply) =>
      if !lost && reply.Some? then p.(belief := Learned(p.belief, reply), phase := Starting) else p.(phase := Idle)
    case Renewing(ok) => if lost || !ok then Resigned(p) else p.(phase := Idle)
    case _ => p
  }

  ghost function Step(c: Cluster, a: Action): Cluster
    requires Enabled(c, a)
  {
    match a
    case Boot(i) => c.(instances := c.instances[i := Instance(STANDBY, Idle, 0, None)])
    case Campaign(i, now, expiresAt) =>
      if CanAcquire(c.row, now)
      then c.(row := Some(Lock(i, NextToken(c.row), expiresAt)), issued := c.issued + [i],
              instances := c.instances[i := c.instances[i].(phase := Campaigning(Some(NextToken(c.row))))])
      else c.(instances := c.instances[i := c.instances[i].(phase := Campaigning(None))])
    case Renew(i, expiresAt) =>
      var p := c.instances[i];
      c.(row := Extended(c.row, i, p.belief.token, expiresAt),
         instances := c.instances[i := p.(phase := Renewing(CanExtend(c.row, i, p.belief.token)))])
    case Reply(i) => c.(instances := c.instances[i := Answered(c.instances[i], false)])
    case LoseReply(i) => c.(instances := c.instances[i := Answered(c.instances[i], true)])
    case SetStamp(i) =>
      var p := c.instances[i];
      var phase := if p.phase.Starting? then Idle else Draining;
      c.(instances := c.instances[i := p.(stamp := p.belief.token, phase := phase)])
    case Drained(i) => c.(instances := c.instances[i := c.instances[i].(phase := Idle)])
    case Shutdown(i, released) =>
      var p := c.instances[i];
      c.(row := if p.belief.isLeader && released then Released(c.row, i) else c.row,
         instances := c.instances[i := p.(belief := if p.belief.isLeader then STANDBY else p.belief, phase := Down)])
    case Crash(i) => c.(instances := c.instances - {i})
    case Gate(i) => c.(instances := c.instances[i := c.instances[i].(gate := Some(c.instances[i].stamp))])
    case Emit(i) =>
      var p := c.instances[i];
      c.(instances := c.instances[i := p.(gate := None)], log := c.log + {Stamped(p.gate.value, p.stamp)})
    case GiveUp(i) => c.(instances := c.instances[i := c.instances[i].(gate := None)])
    case Validate(tx, e) => c.(txs := c.txs[tx := Tx(e, e.stamp > 0 && c.row.Some?)])
    case Commit(tx) => c.(txs := c.txs - {tx}, applied := c.applied + [c.txs[tx].event])
    case Abort(tx) => c.(txs := c.txs - {tx})
  }

  ghost predicate Legal(c: Cluster, run: seq<Action>)
    decreases run
  {
    run == [] || (Enabled(c, run[0]) && Legal(Step(c, run[0]), run[1..]))
  }

  ghost function End(c: Cluster, run: seq<Action>): Cluster
    requires Legal(c, run)
    decreases run
  {
    if run == [] then c else End(Step(c, run[0]), run[1..])
  }

  // The invariant

  /** Token t went to the instance. */
  predicate Owns(c: Cluster, i: InstanceId, t: nat) {
    1 <= t <= |c.issued| && c.issued[t - 1] == i
  }

  /** ... and it got none after that. */
  ghost predicate Latest(c: Cluster, i: InstanceId, t: nat) {
    Owns(c, i, t) && forall k | t <= k < |c.issued| :: c.issued[k] != i
  }

  predicate RowOk(c: Cluster) {
    if c.row.None? then c.issued == []
    else c.row.value.token == |c.issued| > 0 && c.row.value.leader == c.issued[|c.issued| - 1]
  }

  /** The engine's token and its work follow the elector's phases. */
  predicate EngineOk(p: Instance) {
    && (p.gate.Some? ==> p.gate.value > 0 && (p.stamp == p.gate.value || (p.stamp == 0 && p.phase.Draining?)))
    && (p.phase.Draining? ==> p.stamp == 0)
    && (p.phase.Starting? || (!p.belief.isLeader && (p.phase.Idle? || p.phase.Campaigning?)) ==>
          p.stamp == 0 && p.gate.None?)
    && (p.phase.Starting? || p.phase.Renewing? ==> p.belief.isLeader)
    && (p.phase.Campaigning? || p.phase.Stopping? || p.phase.Draining? ==> !p.belief.isLeader)
  }

  ghost predicate InstanceOk(c: Cluster, i: InstanceId, p: Instance) {
    && (p.belief.isLeader ==> Latest(c, i, p.belief.token))
    && (!p.belief.isLeader ==> p.belief.token == 0)
    && (p.phase.Campaigning? && p.phase.reply.Some? ==> Latest(c, i, p.phase.reply.value))
    && (p.stamp > 0 ==> Owns(c, i, p.stamp))
    && (p.gate.Some? ==> Owns(c, i, p.gate.value))
    && EngineOk(p)
  }

  /** An event carries the token its order was let in under, or none. */
  predicate EventOk(c: Cluster, e: Stamped) {
    1 <= e.gate <= |c.issued| && (e.stamp == e.gate || e.stamp == 0)
  }

  /** A transaction at work: what it shares, it shares with the current token. */
  predicate TxOk(c: Cluster, t: Tx) {
    EventOk(c, t.event) && (t.event.stamp > 0 ==> t.shares) && (t.shares ==> t.event.stamp == |c.issued|)
  }

  ghost predicate AppliedOk(applied: seq<Stamped>, current: nat) {
    && (forall e :: e in applied ==> e.gate <= current)
    && (forall i, j | 0 <= i < j < |applied| && applied[j].stamp > 0 :: applied[i].gate <= applied[j].gate)
  }

  ghost predicate Inv(c: Cluster) {
    && RowOk(c)
    && (forall i :: i in c.instances ==> InstanceOk(c, i, c.instances[i]))
    && (forall e :: e in c.log ==> EventOk(c, e))
    && (forall x :: x in c.txs ==> TxOk(c, c.txs[x]))
    && AppliedOk(c.applied, |c.issued|)
  }

  lemma {:induction false} InstanceStays(c: Cluster, next: Cluster, i: InstanceId, p: Instance)
    requires InstanceOk(c, i, p)
    requires next.issued == c.issued || (|next.issued| > 0 && next.issued == c.issued + [next.issued[|next.issued| - 1]]
                                         && next.issued[|next.issued| - 1] != i)
    ensures InstanceOk(next, i, p)
  {
  }

  lemma {:induction false} CampaignInv(c: Cluster, i: InstanceId, now: int, expiresAt: int)
    requires Inv(c) && Enabled(c, Campaign(i, now, expiresAt))
    ensures Inv(Step(c, Campaign(i, now, expiresAt)))
  {
    var next := Step(c, Campaign(i, now, expiresAt));
    forall x | x in c.txs ensures TxOk(next, c.txs[x]) {
      assert !c.txs[x].shares && TxOk(c, c.txs[x]);
    }
    forall j | j in next.instances ensures InstanceOk(next, j, next.instances[j]) {
      if j != i {
        InstanceStays(c, next, j, c.instances[j]);
      }
    }
  }

  lemma {:induction false} CommitInv(c: Cluster, tx: nat)
    requires Inv(c) && tx in c.txs
    ensures AppliedOk(c.applied + [c.txs[tx].event], |c.issued|)
  {
    assert TxOk(c, c.txs[tx]);
    var more := c.applied + [c.txs[tx].event];
    forall i, j | 0 <= i < j < |more| && more[j].stamp > 0 ensures more[i].gate <= more[j].gate {
      assert more[i] in c.applied;
    }
  }

  predicate OfTx(a: Action) {
    a.Validate? || a.Commit? || a.Abort?
  }

  lemma {:induction false} InstancesStay(c: Cluster, next: Cluster)
    requires next.issued == c.issued && next.instances == c.instances
    requires forall i :: i in c.instances ==> InstanceOk(c, i, c.instances[i])
    ensures forall i :: i in next.instances ==> InstanceOk(next, i, next.instances[i])
  {
    forall i | i in c.instances ensures InstanceOk(next, i, c.instances[i]) {
      InstanceStays(c, next, i, c.instances[i]);
    }
  }

  lemma {:induction false} TxInv(c: Cluster, a: Action)
    requires Inv(c) && Enabled(c, a) && OfTx(a)
    ensures Inv(Step(c, a))
  {
    var next := Step(c, a);
    InstancesStay(c, next);
    forall x | x in next.txs ensures TxOk(next, next.txs[x]) {
      assert x in c.txs ==> TxOk(c, c.txs[x]);
    }
    if a.Commit? {
      CommitInv(c, a.tx);
    }
  }

  /** Steps of one process that hand out no token. */
  lemma {:induction false} LocalInv(c: Cluster, a: Action)
    requires Inv(c) && Enabled(c, a) && !a.Campaign? && !OfTx(a)
    ensures Inv(Step(c, a))
  {
    var next := Step(c, a);
    forall x | x in next.txs ensures TxOk(next, next.txs[x]) {
      assert TxOk(c, c.txs[x]);
    }
    forall i | i in next.instances ensures InstanceOk(next, i, next.instances[i]) {
      LocalInstance(c, a, i);
    }
    forall e | e in next.log ensures EventOk(next, e) {
      assert a.Emit? ==> InstanceOk(c, a.i, c.instances[a.i]);
    }
  }

  lemma {:induction false} LocalInstance(c: Cluster, a: Action, i: InstanceId)
    requires Inv(c) && Enabled(c, a) && !a.Campaign? && !OfTx(a) && i in Step(c, a).instances
    ensures InstanceOk(Step(c, a), i, Step(c, a).instances[i])
  {
    if a.i == i {
      if i in c.instances {
        ActorOk(c, a, c.instances[i], Step(c, a).instances[i]);
      }
      InstanceStays(c, Step(c, a), i, Step(c, a).instances[i]);
    } else {
      InstanceStays(c, Step(c, a), i, c.instances[i]);
    }
  }

  /** What the step makes of its own process, judged by the tokens issued so far. */
  lemma {:induction false} ActorOk(c: Cluster, a: Action, p: Instance, next: Instance)
    requires Enabled(c, a) && !a.Campaign? && !a.Boot? && !OfTx(a) && !a.Crash?
    requires Alive(c, a.i) && c.instances[a.i] == p && InstanceOk(c, a.i, p)
    requires a.i in Step(c, a).instances && next == Step(c, a).instances[a.i]
    ensures InstanceOk(c, a.i, next)
  {
  }

  lemma {:induction false} StepInv(c: Cluster, a: Action)
    requires Inv(c) && Enabled(c, a)
    ensures Inv(Step(c, a))
  {
    match a
    case Campaign(i, now, expiresAt) => CampaignInv(c, i, now, expiresAt);
    case _ =>
      if OfTx(a) {
        TxInv(c, a);
      } else {
        LocalInv(c, a);
      }
  }

  lemma {:induction false} RunInv(c: Cluster, run: seq<Action>)
    requires Inv(c) && Legal(c, run)
    ensures Inv(End(c, run))
    decreases run
  {
    if run != [] {
      StepInv(c, run[0]);
      RunInv(Step(c, run[0]), run[1..]);
    }
  }

  /** Undisturbed, a renewal or campaign and its reply are one tick of the elector. */
  lemma {:induction false} TickIsTwoSteps(c: Cluster, i: InstanceId, now: int, expiresAt: int, fault: Fault)
    requires Inv(c) && i in c.instances && c.instances[i].phase.Idle? && !fault.NotRun? && !Shared(c)
    ensures var b := c.instances[i].belief;
            var asked := Step(c, if b.isLeader then Renew(i, expiresAt) else Campaign(i, now, expiresAt));
            var done := Step(asked, if fault.Fine? then Reply(i) else LoseReply(i));
            && done.row == TickRow(c.row, b, i, now, expiresAt, fault)
            && done.instances[i].belief == TickBelief(c.row, b, i, now, fault)
  {
  }

  // What it means

  /** The row is never lost and its token never decreases; a campaign that wins gets a token nobody ever had. */
  lemma {:induction false} TokensIncrease(c: Cluster, a: Action)
    requires Inv(c) && Enabled(c, a)
    ensures c.row.Some? ==> Step(c, a).row.Some? && Step(c, a).row.value.token >= c.row.value.token
    ensures a.Campaign? && CanAcquire(c.row, a.now) ==>
              && Owns(Step(c, a), a.i, NextToken(c.row)) && (forall j :: !Owns(c, j, NextToken(c.row)))
              && Step(c, a).row.value.token == NextToken(c.row)
  {
  }

  ghost predicate BelievesCurrent(c: Cluster, i: InstanceId) {
    i in c.instances && c.instances[i].belief.isLeader && c.row.Some?
        && c.instances[i].belief.token == c.row.value.token
  }

  ghost predicate Superseded(c: Cluster, i: InstanceId) {
    i in c.instances && c.instances[i].belief.isLeader
        && (c.row.None? || c.instances[i].belief.token != c.row.value.token)
  }

  /** In every reachable state at most one instance that believes it leads holds the current token. */
  lemma {:induction false} OneCurrentLeader(run: seq<Action>, i: InstanceId, j: InstanceId)
    requires Legal(START, run)
    requires BelievesCurrent(End(START, run), i) && BelievesCurrent(End(START, run), j)
    ensures i == j
  {
    RunInv(START, run);
    var c := End(START, run);
    assert InstanceOk(c, i, c.instances[i]) && InstanceOk(c, j, c.instances[j]);
  }

  /** A superseded instance can neither extend nor release the lease, and as long as it believes, that stays so. */
  lemma {:induction false} SupersededIsPowerless(c: Cluster, i: InstanceId, a: Action, expiresAt: int)
    requires Inv(c) && Superseded(c, i) && Enabled(c, a)
    ensures !CanExtend(c.row, i, c.instances[i].belief.token)
    ensures Extended(c.row, i, c.instances[i].belief.token, expiresAt) == c.row && Released(c.row, i) == c.row
    ensures var next := Step(c, a);
            i in next.instances && next.instances[i].belief.isLeader ==>
              Superseded(next, i) && next.instances[i].belief == c.instances[i].belief
  {
    assert InstanceOk(c, i, c.instances[i]);
  }

  /** An engine's renewal keeps the lease exactly while its token is the current one. */
  lemma {:induction false} ExtendsIffCurrent(c: Cluster, i: InstanceId)
    requires Inv(c) && i in c.instances && c.instances[i].belief.isLeader
    ensures CanExtend(c.row, i, c.instances[i].belief.token) <==> BelievesCurrent(c, i)
  {
    assert InstanceOk(c, i, c.instances[i]);
  }

  /**
   Fencing: what is applied with a positive stamp was matched under a token at least that of anything applied
   before it, and what a transaction is about to apply with one was matched under the row's current token.
   */
  lemma {:induction false} AppliedInOrder(run: seq<Action>, tx: nat)
    requires Legal(START, run)
    ensures var c := End(START, run);
            && (forall i, j | 0 <= i < j < |c.applied| && c.applied[j].stamp > 0 ::
                  c.applied[i].gate <= c.applied[j].gate)
            && (tx in c.txs && c.txs[tx].event.stamp > 0 ==> c.row.Some? && c.txs[tx].event.gate == c.row.value.token)
  {
    RunInv(START, run);
    var c := End(START, run);
    assert tx in c.txs ==> TxOk(c, c.txs[tx]);
  }

  /** An event published with a superseded positive token can never be validated again. */
  lemma {:induction false} ZombieRejected(c: Cluster, run: seq<Action>, tx: nat, e: Stamped)
    requires Inv(c) && Legal(c, run) && c.row.Some? && 0 < e.stamp < c.row.value.token
    ensures !Enabled(End(c, run), Validate(tx, e))
    decreases run
  {
    if run != [] {
      StepInv(c, run[0]);
      TokensIncrease(c, run[0]);
      ZombieRejected(Step(c, run[0]), run[1..], tx, e);
    }
  }

  /**
   What an engine stamps on the event of the order it works on: the token it let the order in under, or 0,
   and that exactly while its process is being stopped.
   */
  lemma {:induction false} StampIff(run: seq<Action>, i: InstanceId)
    requires Legal(START, run) && i in End(START, run).instances && End(START, run).instances[i].gate.Some?
    ensures var p := End(START, run).instances[i];
            && (p.stamp == p.gate.value || p.stamp == 0)
            && (p.stamp == 0 <==> p.phase.Draining?)
  {
    RunInv(START, run);
    assert InstanceOk(End(START, run), i, End(START, run).instances[i]);
  }

  /** Matched under a token that is no longer the current one. */
  predicate Stale(c: Cluster, e: Stamped) {
    c.row.Some? && e.gate < c.row.value.token
  }

  /** The exact reach of fencing: an event is let through exactly when its token is current or it carries none. */
  lemma {:induction false} BypassIff(run: seq<Action>, tx: nat, e: Stamped)
    requires Legal(START, run)
    requires var c := End(START, run); e in c.log && tx !in c.txs
    ensures var c := End(START, run);
            && c.row.Some? && (Stale(c, e) || e.gate == c.row.value.token)
            && (Enabled(c, Validate(tx, e)) <==> !Stale(c, e) || e.stamp == 0)
  {
    RunInv(START, run);
    assert EventOk(End(START, run), e);
  }

  /** What a continuation commits. */
  ghost function Committed(c: Cluster, rest: seq<Action>): seq<Stamped>
    requires Legal(c, rest)
  {
    KeepsApplied(c, rest);
    End(c, rest).applied[|c.applied|..]
  }

  /** Some continuation commits the event. */
  ghost predicate Committable(c: Cluster, e: Stamped) {
    exists rest :: Legal(c, rest) && e in Committed(c, rest)
  }

  lemma {:induction false} StepStale(c: Cluster, a: Action, e: Stamped)
    requires Inv(c) && Enabled(c, a) && Stale(c, e) && e.stamp > 0
    ensures Stale(Step(c, a), e)
    ensures Step(c, a).applied == c.applied || exists x :: x != e && Step(c, a).applied == c.applied + [x]
  {
    TokensIncrease(c, a);
    if a.Commit? {
      assert TxOk(c, c.txs[a.tx]);
      assert c.txs[a.tx].event != e && Step(c, a).applied == c.applied + [c.txs[a.tx].event];
    }
  }

  lemma {:induction false} NeverApplied(c: Cluster, rest: seq<Action>, e: Stamped)
    requires Inv(c) && Legal(c, rest) && Stale(c, e) && e.stamp > 0
    ensures e !in Committed(c, rest)
    decreases rest
  {
    if rest != [] {
      var next := Step(c, rest[0]);
      StepInv(c, rest[0]);
      StepStale(c, rest[0], e);
      NeverApplied(next, rest[1..], e);
      KeepsApplied(next, rest[1..]);
      var all := End(c, rest).applied;
      assert Committed(c, rest) == next.applied[|c.applied|..] + Committed(next, rest[1..]);
    }
  }

  lemma {:induction false} KeepsApplied(c: Cluster, rest: seq<Action>)
    requires Legal(c, rest)
    ensures |c.applied| <= |End(c, rest).applied| && End(c, rest).applied[..|c.applied|] == c.applied
    decreases rest
  {
    if rest != [] {
      KeepsApplied(Step(c, rest[0]), rest[1..]);
    }
  }

  lemma {:induction false} Unused(s: set<nat>) returns (n: nat)
    ensures forall x :: x in s ==> x < n
    decreases |s|
  {
    n := 0;
    if s != {} {
      var x :| x in s;
      n := Unused(s - {x});
      assert forall y :: y in s ==> y == x || y in s - {x};
      if n <= x {
        n := x + 1;
      }
    }
  }

  lemma {:induction false} ValidateAndCommit(c: Cluster, tx: nat, e: Stamped)
    requires Enabled(c, Validate(tx, e))
    ensures Committable(c, e)
  {
    var validated := Step(c, Validate(tx, e));
    RunCons(validated, Commit(tx), []);
    RunCons(c, Validate(tx, e), [Commit(tx)] + []);
    var rest := [Validate(tx, e)] + ([Commit(tx)] + []);
    assert End(c, rest).applied == c.applied + [e];
    assert Committed(c, rest) == [e];
  }

  /**
   When an event matched under an older token can still be committed after a newer one was issued: exactly when
   it carries no token, which StampIff says means that it was published while its process was being stopped.
   */
  lemma {:induction false} StaleCommitIff(run: seq<Action>, c: Cluster, e: Stamped)
    requires Legal(START, run) && c == End(START, run) && e in c.log && Stale(c, e)
    ensures Committable(c, e) <==> e.stamp == 0
  {
    RunInv(START, run);
    if e.stamp == 0 {
      var tx := Unused(c.txs.Keys);
      ValidateAndCommit(c, tx, e);
    } else {
      forall rest | Legal(c, rest) ensures e !in Committed(c, rest) {
        NeverApplied(c, rest, e);
      }
    }
  }

  lemma {:induction false} RunCons(c: Cluster, a: Action, rest: seq<Action>)
    requires Enabled(c, a) && Legal(Step(c, a), rest)
    ensures Legal(c, [a] + rest) && End(c, [a] + rest) == End(Step(c, a), rest)
  {
    assert ([a] + rest)[1..] == rest;
  }

  // A run in which fencing does not help

  /** Instance 1 leads with token 1 and has passed the gate with an order. */
  const WORKING: Cluster :=
    Cluster(Some(Lock(1, 1, 100)), [1], map[1 := Instance(Belief(true, 1), Idle, 1, Some(1))], {}, map[], [])

  /** Token 2 has gone to instance 2 when instance 1 publishes. */
  const LATE: Cluster :=
    Cluster(Some(Lock(2, 2, 300)), [1, 2],
            map[1 := Instance(STANDBY, Draining, 0, None), 2 := Instance(STANDBY, Campaigning(Some(2)), 0, None)],
            {Stamped(1, 0)}, map[], [])

  lemma {:induction false} LeadsAndWorks(rest: seq<Action>) returns (run: seq<Action>)
    requires Legal(WORKING, rest)
    ensures Legal(START, run) && End(START, run) == End(WORKING, rest)
  {
    var c1 := Step(START, Boot(1));
    var c2 := Step(c1, Campaign(1, 0, 100));
    var c3 := Step(c2, Reply(1));
    var c4 := Step(c3, SetStamp(1));
    assert Step(c4, Gate(1)) == WORKING;
    RunCons(c4, Gate(1), rest);
    RunCons(c3, SetStamp(1), [Gate(1)] + rest);
    var r2 := [SetStamp(1)] + ([Gate(1)] + rest);
    RunCons(c2, Reply(1), r2);
    RunCons(c1, Campaign(1, 0, 100), [Reply(1)] + r2);
    var r0 := [Campaign(1, 0, 100)] + ([Reply(1)] + r2);
    RunCons(START, Boot(1), r0);
    run := [Boot(1)] + r0;
  }

  /** Instance 1 fails to renew and clears its token while it still works on the order; 2 takes over. */
  lemma {:induction false} LosesAndEmits(rest: seq<Action>) returns (run: seq<Action>)
    requires Legal(LATE, rest)
    ensures Legal(WORKING, run) && End(WORKING, run) == End(LATE, rest)
  {
    var c1 := Step(WORKING, Renew(1, 150));
    var c2 := Step(c1, LoseReply(1));
    var c3 := Step(c2, SetStamp(1));
    var c4 := Step(c3, Boot(2));
    var c5 := Step(c4, Campaign(2, 200, 300));
    assert Step(c5, Emit(1)) == LATE;
    RunCons(c5, Emit(1), rest);
    RunCons(c4, Campaign(2, 200, 300), [Emit(1)] + rest);
    var r3 := [Campaign(2, 200, 300)] + ([Emit(1)] + rest);
    RunCons(c3, Boot(2), r3);
    RunCons(c2, SetStamp(1), [Boot(2)] + r3);
    var r1 := [SetStamp(1)] + ([Boot(2)] + r3);
    RunCons(c1, LoseReply(1), r1);
    RunCons(WORKING, Renew(1, 150), [LoseReply(1)] + r1);
    run := [Renew(1, 150)] + ([LoseReply(1)] + r1);
  }

  /** An event matched under token 1 can be committed after token 2 was issued. */
  lemma {:induction false} ZeroTokenBypass() returns (run: seq<Action>)
    ensures Legal(START, run)
    ensures End(START, run).row == Some(Lock(2, 2, 300)) && End(START, run).applied == [Stamped(1, 0)]
  {
    var e := Stamped(1, 0);
    var validated := Step(LATE, Validate(7, e));
    RunCons(validated, Commit(7), []);
    RunCons(LATE, Validate(7, e), [Commit(7)] + []);
    var rest := LosesAndEmits([Validate(7, e)] + ([Commit(7)] + []));
    run := LeadsAndWorks(rest);
  }
}
