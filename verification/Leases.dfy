/** What a lease is worth, said on the leader row itself: who is kept out by it, until when, and who gets it next. */
module Leases {
  import opened Types
  import opened Election
  import opened Fencing

  /** One tick of an elector, case by case. A lease that has not run out stays with its leader. */
  lemma {:induction false} TickIff(row: LockRow, b: Belief, id: InstanceId, now: int, expiresAt: int, fault: Fault)
    ensures var next, after := TickRow(row, b, id, now, expiresAt, fault), TickBelief(row, b, id, now, fault);
            && (fault.NotRun? ==> next == row)
            && (!b.isLeader && !fault.NotRun? ==>
                  && (row.None? ==> next == Some(Lock(id, 1, expiresAt)))
                  && (row.Some? && row.value.expiresAt < now ==> next == Some(Lock(id, row.value.token + 1, expiresAt)))
                  && (row.Some? && now <= row.value.expiresAt ==> next == row && after == b))
            && (!b.isLeader && fault.Fine? && (row.None? || row.value.expiresAt < now) ==>
                  after == Belief(true, if row.None? then 1 else row.value.token + 1))
            && (!b.isLeader && !fault.Fine? ==> after == b)
            && (b.isLeader && !fault.NotRun? ==>
                  next == if row.Some? && row.value.leader == id && row.value.token == b.token
                          then Some(Lock(id, b.token, expiresAt)) else row)
            && (b.isLeader ==>
                  after == if fault.Fine? && row.Some? && row.value.leader == id && row.value.token == b.token
                           then b else Belief(false, 0))
  {
  }

  /** A campaign wins exactly when there is no lease or the lease has run out. */
  lemma {:induction false} CampaignIff(c: Cluster, i: InstanceId, now: int, expiresAt: int)
    requires Inv(c) && Enabled(c, Campaign(i, now, expiresAt))
    ensures var next := Step(c, Campaign(i, now, expiresAt));
            if c.row.Some? && now <= c.row.value.expiresAt
            then next.row == c.row && next.issued == c.issued && next.instances[i].phase == Campaigning(None)
            else var t := if c.row.Some? then c.row.value.token + 1 else 1;
                 && next.row == Some(Lock(i, t, expiresAt)) && next.issued == c.issued + [i]
                 && next.instances[i].phase == Campaigning(Some(t))
  {
  }

  /** Nobody gives the lease up, campaigns after `e`, or renews for a shorter time. */
  ghost predicate Within(rest: seq<Action>, leader: InstanceId, e: int) {
    forall a :: a in rest ==>
      && (a.Campaign? ==> a.now <= e)
      && (a.Renew? ==> a.expiresAt >= e)
      && (a.Shutdown? && a.i == leader ==> !a.released)
  }

  /** A lease that runs until `e` keeps leader and token through any such continuation. */
  lemma {:induction false} KeptOut(c: Cluster, rest: seq<Action>, e: int)
    requires Legal(c, rest) && c.row.Some? && e <= c.row.value.expiresAt && Within(rest, c.row.value.leader, e)
    ensures var last := End(c, rest);
            && last.row.Some? && last.row.value.leader == c.row.value.leader
            && last.row.value.token == c.row.value.token
            && e <= last.row.value.expiresAt && last.issued == c.issued
    decreases rest
  {
    if rest != [] {
      assert rest[0] in rest && forall a :: a in rest[1..] ==> a in rest;
      KeptOut(Step(c, rest[0]), rest[1..], e);
    }
  }

  /**
   A renewal succeeds exactly for the row's leader and token, and then runs until the time it was given: whatever
   happens, no campaign up to that time gets anybody else a token.
   */
  lemma {:induction false} RenewalProtects(run: seq<Action>, c: Cluster, i: InstanceId, e: int, rest: seq<Action>)
    requires Legal(START, run) && c == End(START, run) && Enabled(c, Renew(i, e))
    requires Legal(Step(c, Renew(i, e)), rest) && Within(rest, i, e)
    ensures var t, next := c.instances[i].belief.token, Step(c, Renew(i, e));
            && (next.instances[i].phase == Renewing(true) <==>
                  c.row.Some? && c.row.value.leader == i && c.row.value.token == t)
            && (next.instances[i].phase == Renewing(true) ==>
                  && next.row == Some(Lock(i, t, e))
                  && var last := End(next, rest);
                     && last.row.Some? && last.row.value.leader == i && last.row.value.token == t
                     && e <= last.row.value.expiresAt && last.issued == c.issued)
  {
    var next := Step(c, Renew(i, e));
    if next.instances[i].phase == Renewing(true) {
      KeptOut(next, rest, e);
    }
  }

  /** Nobody campaigns, or renews beyond `e`. */
  ghost predicate Unrenewed(rest: seq<Action>, e: int) {
    forall a :: a in rest ==> !a.Campaign? && (a.Renew? ==> a.expiresAt <= e)
  }

  lemma {:induction false} RunsOut(c: Cluster, rest: seq<Action>, e: int)
    requires Legal(c, rest) && c.row.Some? && c.row.value.expiresAt <= e && 0 <= e && Unrenewed(rest, e)
    ensures var last := End(c, rest);
            && last.row.Some? && last.row.value.leader == c.row.value.leader
            && last.row.value.token == c.row.value.token
            && last.row.value.expiresAt <= e
    decreases rest
  {
    if rest != [] {
      assert rest[0] in rest && forall a :: a in rest[1..] ==> a in rest;
      RunsOut(Step(c, rest[0]), rest[1..], e);
    }
  }

  /** A lease that nobody renews beyond `e` goes to whoever campaigns first after `e`. */
  lemma {:induction false} ExpiredIsTaken(run: seq<Action>, c: Cluster, rest: seq<Action>, e: int, j: InstanceId,
                                          now: int, expiresAt: int)
    requires Legal(START, run) && c == End(START, run) && Legal(c, rest)
    requires c.row.Some? && c.row.value.expiresAt <= e && 0 <= e < now && Unrenewed(rest, e)
    requires Enabled(End(c, rest), Campaign(j, now, expiresAt))
    ensures var taken := Step(End(c, rest), Campaign(j, now, expiresAt));
            && taken.row == Some(Lock(j, c.row.value.token + 1, expiresAt))
            && taken.instances[j].phase == Campaigning(Some(c.row.value.token + 1))
  {
    RunsOut(c, rest, e);
  }

  /** The lease is over, and nobody is left who could renew it. */
  ghost predicate Abandoned(c: Cluster) {
    && c.row.Some? && c.row.value.expiresAt == 0
    && forall j :: j in c.instances ==>
         && !(c.instances[j].belief.isLeader && c.instances[j].belief.token == c.row.value.token)
         && c.instances[j].phase != Campaigning(Some(c.row.value.token))
  }

  lemma {:induction false} StepAbandoned(c: Cluster, a: Action)
    requires Abandoned(c) && Enabled(c, a) && !a.Campaign?
    ensures Abandoned(Step(c, a)) && Step(c, a).row == c.row
  {
  }

  lemma {:induction false} StaysAbandoned(c: Cluster, rest: seq<Action>)
    requires Abandoned(c) && Legal(c, rest) && forall a :: a in rest ==> !a.Campaign?
    ensures Abandoned(End(c, rest)) && End(c, rest).row == c.row
    decreases rest
  {
    if rest != [] {
      assert rest[0] in rest && forall a :: a in rest[1..] ==> a in rest;
      StepAbandoned(c, rest[0]);
      StaysAbandoned(Step(c, rest[0]), rest[1..]);
    }
  }

  lemma {:induction false} ReleaseAbandons(c: Cluster, i: InstanceId)
    requires Inv(c) && BelievesCurrent(c, i) && Enabled(c, Shutdown(i, true))
    ensures Abandoned(Step(c, Shutdown(i, true)))
    ensures Step(c, Shutdown(i, true)).row == Some(Lock(i, c.row.value.token, 0))
  {
    forall j | j in c.instances ensures InstanceOk(c, j, c.instances[j]) {
    }
  }

  /** A leader that shuts down and releases its lease leaves it to whoever campaigns next. */
  lemma {:induction false} ReleasedIsTaken(run: seq<Action>, c: Cluster, i: InstanceId, rest: seq<Action>,
                                           j: InstanceId, now: int, expiresAt: int)
    requires Legal(START, run) && c == End(START, run) && BelievesCurrent(c, i) && Enabled(c, Shutdown(i, true))
    requires Legal(Step(c, Shutdown(i, true)), rest) && forall a :: a in rest ==> !a.Campaign?
    requires 0 < now && Enabled(End(Step(c, Shutdown(i, true)), rest), Campaign(j, now, expiresAt))
    ensures var taken := Step(End(Step(c, Shutdown(i, true)), rest), Campaign(j, now, expiresAt));
            && taken.row == Some(Lock(j, c.row.value.token + 1, expiresAt))
            && taken.instances[j].phase == Campaigning(Some(c.row.value.token + 1))
  {
    RunInv(START, run);
    ReleaseAbandons(c, i);
    StaysAbandoned(Step(c, Shutdown(i, true)), rest);
  }

  /** A superseded leader that tries to renew changes nothing, steps down, and lets no further order in. */
  lemma {:induction false} DeposedStops(run: seq<Action>, c: Cluster, i: InstanceId, e: int, lost: bool)
    requires Legal(START, run) && c == End(START, run) && Superseded(c, i) && Enabled(c, Renew(i, e))
    ensures var asked := Step(c, Renew(i, e));
            var told := Step(asked, if lost then LoseReply(i) else Reply(i));
            && asked.row == c.row && told.instances[i].belief == Belief(false, 0)
            && var stopped := Step(told, SetStamp(i));
               stopped.row == c.row && stopped.instances[i].stamp == 0 && !Enabled(stopped, Gate(i))
  {
    RunInv(START, run);
    assert InstanceOk(c, i, c.instances[i]);
  }
}
