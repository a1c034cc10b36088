/** The token bucket of the distributed rate limiter: what the script computes and what that guarantees. */
module RateLimiter {
  import opened Types

  /** Requests per second and burst size. */
  datatype Limit = Limit(rate: real, capacity: int)

  predicate GoodLimit(l: Limit) {
    l.rate > 0.0 && l.capacity >= 0
  }

  /** The two stored keys of one client, each absent before the first request or after eviction. */
  datatype Bucket = Bucket(tokens: Option<real>, stamp: Option<real>)

  const EMPTY: Bucket := Bucket(None, None)

  function OrElse(x: Option<real>, default: real): real {
    if x.Some? then x.value else default
  }

  function MaxReal(a: real, b: real): real {
    if a < b then b else a
  }

  /** Tokens that flow in during a period. */
  function Refill(l: Limit, seconds: real): real {
    seconds * l.rate
  }

  /** Tokens at hand when a request comes in. */
  function Level(l: Limit, b: Bucket, now: real): real {
    var elapsed := MaxReal(0.0, now - OrElse(b.stamp, 0.0));
    MinReal(l.capacity as real, OrElse(b.tokens, l.capacity as real) + Refill(l, elapsed))
  }

  function Allows(l: Limit, b: Bucket, now: real): bool {
    Level(l, b, now) >= 1.0
  }

  function AfterRequest(l: Limit, b: Bucket, now: real): Bucket {
    Bucket(Some(Level(l, b, now) - if Allows(l, b, now) then 1.0 else 0.0), Some(now))
  }

  /** Seconds the keys live: twice the time it takes to fill the bucket, at least ten. */
  function TTL(l: Limit): int
    requires GoodLimit(l)
  {
    var ttl := (l.capacity as real / l.rate * 2.0).Floor;
    if ttl < 10 then 10 else ttl
  }

  class RedisRateLimiter {
    const limit: Limit
    var tokens: map<UserId, real>
    var stamps: map<UserId, real>

    constructor (limit: Limit)
      ensures this.limit == limit && forall ip :: View(ip) == EMPTY
    {
      this.limit := limit;
      tokens, stamps := map[], map[];
    }

    function View(ip: UserId): Bucket
      reads this
    {
      Bucket(if ip in tokens then Some(tokens[ip]) else None, if ip in stamps then Some(stamps[ip]) else None)
    }

    /** Runs the script; a store that cannot be reached lets every request through. */
    method Allow(ip: UserId, now: real, reachable: bool) returns (allowed: bool)
      modifies this
      ensures allowed == (reachable ==> Allows(limit, old(View(ip)), now))
      ensures View(ip) == if reachable then AfterRequest(limit, old(View(ip)), now) else old(View(ip))
      ensures forall other :: other != ip ==> View(other) == old(View(other))
    {
      if !reachable {
        return true;
      }
      var capacity := limit.capacity as real;
      var lastTokens := if ip in tokens then tokens[ip] else capacity;
      var lastRefreshed := if ip in stamps then stamps[ip] else 0.0;
      var delta := if 0.0 < now - lastRefreshed then now - lastRefreshed else 0.0;
      assert delta == MaxReal(0.0, now - OrElse(View(ip).stamp, 0.0));
      var filled := lastTokens + Refill(limit, delta);
      if filled > capacity {
        filled := capacity;
      }
      assert filled == Level(limit, View(ip), now);
      allowed := false;
      if filled >= 1.0 {
        allowed := true;
        filled := filled - 1.0;
      }
      tokens := tokens[ip := filled];
      stamps := stamps[ip := now];
    }

    /** The store drops one or both keys of a client. */
    method Evict(ip: UserId, dropTokens: bool, dropStamp: bool)
      modifies this
      ensures View(ip) == Evicted(old(View(ip)), dropTokens, dropStamp)
      ensures forall other :: other != ip ==> View(other) == old(View(other))
    {
      if dropTokens {
        tokens := tokens - {ip};
      }
      if dropStamp {
        stamps := stamps - {ip};
      }
    }
  }

  function Evicted(b: Bucket, dropTokens: bool, dropStamp: bool): Bucket {
    Bucket(if dropTokens then None else b.tokens, if dropStamp then None else b.stamp)
  }

  // Histories: the times of one client's requests

  function Bucketed(l: Limit, times: seq<real>): Bucket {
    if times == [] then EMPTY else AfterRequest(l, Bucketed(l, times[..|times| - 1]), times[|times| - 1])
  }

  /** The decision on the last request. */
  function LastAllowed(l: Limit, times: seq<real>): bool
    requires times != []
  {
    Allows(l, Bucketed(l, times[..|times| - 1]), times[|times| - 1])
  }

  /** How many requests from number `k` on were allowed. */
  function Count(l: Limit, times: seq<real>, k: nat): nat {
    if |times| <= k then 0
    else Count(l, times[..|times| - 1], k) + if LastAllowed(l, times) then 1 else 0
  }

  predicate Ordered(times: seq<real>) {
    forall i, j | 0 <= i < j < |times| :: times[i] <= times[j]
  }

  lemma {:induction false} RefillAdds(l: Limit, a: real, b: real)
    ensures Refill(l, a + b) == Refill(l, a) + Refill(l, b)
  {
  }

  lemma {:induction false} RefillGrows(l: Limit, a: real, b: real)
    requires GoodLimit(l) && a <= b
    ensures Refill(l, a) <= Refill(l, b)
  {
  }

  lemma {:induction false} RefillNonNegative(l: Limit, a: real)
    requires GoodLimit(l) && a >= 0.0
    ensures Refill(l, a) >= 0.0
  {
  }

  /** What request `k` leaves of the bound at time `now`. */
  function Headroom(l: Limit, times: seq<real>, k: nat, now: real): real
    requires k < |times|
  {
    l.capacity as real + Refill(l, now - times[k]) - Count(l, times, k) as real
  }

  function Spent(l: Limit, times: seq<real>): real
    requires times != []
  {
    if LastAllowed(l, times) then 1.0 else 0.0
  }

  lemma {:induction false} HeadroomStep(l: Limit, times: seq<real>, k: nat, now: real)
    requires times != [] && k < |times|
    ensures var init, last := times[..|times| - 1], times[|times| - 1];
            Headroom(l, times, k, now) == (if k < |init| then Headroom(l, init, k, last) else l.capacity as real)
                                          + Refill(l, now - last) - Spent(l, times)
  {
    var init, last := times[..|times| - 1], times[|times| - 1];
    assert Count(l, times, k) as real == Count(l, init, k) as real + Spent(l, times);
    if k < |init| {
      RefillAdds(l, last - times[k], now - last);
      assert init[k] == times[k] && last - times[k] + (now - last) == now - times[k];
    } else {
      assert Count(l, init, k) == 0;
    }
  }

  lemma {:induction false} LevelStep(l: Limit, times: seq<real>, now: real)
    requires GoodLimit(l) && times != [] && times[|times| - 1] <= now
    ensures var init, last := times[..|times| - 1], times[|times| - 1];
            Level(l, Bucketed(l, times), now) ==
            MinReal(l.capacity as real, Level(l, Bucketed(l, init), last) - Spent(l, times) + Refill(l, now - last))
  {
    var init, last := times[..|times| - 1], times[|times| - 1];
    var b := Bucketed(l, times);
    assert b.tokens == Some(Level(l, Bucketed(l, init), last) - Spent(l, times));
    assert MaxReal(0.0, now - OrElse(b.stamp, 0.0)) == now - last;
  }

  /** The level is the smallest headroom that any earlier request leaves, capped by the capacity. */
  lemma {:induction false} LevelIsHeadroom(l: Limit, times: seq<real>, now: real, x: real)
    requires GoodLimit(l) && Ordered(times + [now])
    ensures Level(l, Bucketed(l, times), now) >= x <==>
            l.capacity as real >= x && forall k | 0 <= k < |times| :: Headroom(l, times, k, now) >= x
    decreases |times|
  {
    if times == [] {
      RefillNonNegative(l, MaxReal(0.0, now));
    } else {
      var init, last := times[..|times| - 1], times[|times| - 1];
      assert (times + [now])[|times| - 1] <= (times + [now])[|times|];
      assert Ordered(init + [last]) by {
        assert init + [last] == times;
        assert forall i | 0 <= i < |times| :: (times + [now])[i] == times[i];
      }
      var y := x + Spent(l, times) - Refill(l, now - last);
      LevelStep(l, times, now);
      LevelIsHeadroom(l, init, last, y);
      forall k | 0 <= k < |times|
        ensures Headroom(l, times, k, now) >= x <==>
                (if k < |init| then Headroom(l, init, k, last) else l.capacity as real) >= y
      {
        HeadroomStep(l, times, k, now);
      }
      assert Headroom(l, times, |init|, now) >= x <==> l.capacity as real >= y;
      assert forall k | 0 <= k < |init| :: Headroom(l, times, k, now) >= x <==> Headroom(l, init, k, last) >= y;
    }
  }

  /**
   The limiter allows a request exactly when allowing it breaks the bound on no window that ends with it:
   counting it, at most capacity plus rate times the window's length.
   */
  lemma {:induction false} AllowedIff(l: Limit, times: seq<real>, now: real)
    requires GoodLimit(l) && Ordered(times + [now])
    ensures Allows(l, Bucketed(l, times), now) <==>
            l.capacity >= 1 && forall k | 0 <= k < |times| ::
              (Count(l, times, k) + 1) as real <= l.capacity as real + Refill(l, now - times[k])
  {
    LevelIsHeadroom(l, times, now, 1.0);
    assert forall k | 0 <= k < |times| :: Headroom(l, times, k, now) >= 1.0 <==>
      (Count(l, times, k) + 1) as real <= l.capacity as real + Refill(l, now - times[k]);
  }

  lemma {:induction false} OrderedInit(times: seq<real>)
    requires times != [] && Ordered(times)
    ensures Ordered(times[..|times| - 1]) && times[..|times| - 1] + [times[|times| - 1]] == times
    ensures forall k | 0 <= k < |times| :: times[k] <= times[|times| - 1]
  {
    var init := times[..|times| - 1];
    forall i, j | 0 <= i < j < |init| ensures init[i] <= init[j] {
      assert times[i] <= times[j];
    }
  }

  /** The last request allowed: counting it keeps the bound from request `k` to it. */
  lemma {:induction false} AllowedBound(l: Limit, times: seq<real>, k: nat)
    requires GoodLimit(l) && Ordered(times) && k < |times| && LastAllowed(l, times)
    ensures Count(l, times, k) as real <= l.capacity as real + Refill(l, times[|times| - 1] - times[k])
  {
    var init, last := times[..|times| - 1], times[|times| - 1];
    OrderedInit(times);
    AllowedIff(l, init, last);
    RefillNonNegative(l, last - times[k]);
    if k < |init| {
      assert init[k] == times[k];
    } else {
      assert Count(l, init, k) == 0;
    }
  }

  lemma {:induction false} AllowedWindow(l: Limit, times: seq<real>, k: nat, s: real, t: real)
    requires GoodLimit(l) && Ordered(times) && k < |times| && s <= times[k] && times[|times| - 1] <= t
    requires LastAllowed(l, times)
    ensures Count(l, times, k) as real <= l.capacity as real + Refill(l, t - s)
  {
    AllowedBound(l, times, k);
    RefillGrows(l, times[|times| - 1] - times[k], t - s);
  }

  /** In any window [s, t] at most capacity + rate * (t - s) requests are allowed. */
  lemma {:induction false} WindowBound(l: Limit, times: seq<real>, k: nat, s: real, t: real)
    requires GoodLimit(l) && Ordered(times) && k < |times| && s <= times[k] && times[|times| - 1] <= t
    ensures Count(l, times, k) as real <= l.capacity as real + Refill(l, t - s)
    decreases |times|
  {
    if LastAllowed(l, times) {
      AllowedWindow(l, times, k, s, t);
    } else if k < |times| - 1 {
      OrderedInit(times);
      WindowBound(l, times[..|times| - 1], k, s, t);
    } else {
      RefillNonNegative(l, t - s);
    }
  }

  // Eviction

  /** The keys live at least as long as the bucket takes to fill. */
  lemma {:induction false} TTLFills(l: Limit)
    requires GoodLimit(l)
    ensures Refill(l, TTL(l) as real) >= l.capacity as real
  {
    var f := l.capacity as real / l.rate;
    assert f * l.rate == l.capacity as real;
    assert TTL(l) as real >= f by {
      assert (f * 2.0).Floor as real > f * 2.0 - 1.0;
    }
    RefillGrows(l, f, TTL(l) as real);
  }

  lemma {:induction false} TokensNonNegative(l: Limit, times: seq<real>)
    requires GoodLimit(l) && times != []
    ensures var b := Bucketed(l, times);
            b.tokens.Some? && b.tokens.value >= 0.0 && b.stamp == Some(times[|times| - 1])
  {
    var init, now := times[..|times| - 1], times[|times| - 1];
    if init != [] {
      TokensNonNegative(l, init);
    }
    RefillNonNegative(l, MaxReal(0.0, now - OrElse(Bucketed(l, init).stamp, 0.0)));
  }

  /**
   Once their time is up, losing either or both keys changes neither the decision on the next request nor
   the state it leaves.
   */
  lemma {:induction false} EvictionUnobservable(l: Limit, times: seq<real>, now: real, dropTokens: bool,
                                                dropStamp: bool)
    requires GoodLimit(l) && times != [] && times[|times| - 1] >= 0.0 && now >= times[|times| - 1] + TTL(l) as real
    ensures var b := Bucketed(l, times);
            && Allows(l, Evicted(b, dropTokens, dropStamp), now) == Allows(l, b, now)
            && AfterRequest(l, Evicted(b, dropTokens, dropStamp), now) == AfterRequest(l, b, now)
  {
    var b := Bucketed(l, times);
    var e := Evicted(b, dropTokens, dropStamp);
    TokensNonNegative(l, times);
    TTLFills(l);
    RefillGrows(l, TTL(l) as real, now - OrElse(b.stamp, 0.0));
    RefillGrows(l, TTL(l) as real, now - OrElse(e.stamp, 0.0));
    assert Level(l, b, now) == l.capacity as real && Level(l, e, now) == l.capacity as real;
  }

  /** Which keys were gone when each request came in. */
  datatype Loss = Loss(dropTokens: bool, dropStamp: bool)

  /** Nothing is lost before its time to live is up. */
  ghost predicate InTime(l: Limit, times: seq<real>, losses: seq<Loss>)
    requires GoodLimit(l)
  {
    && |losses| == |times|
    && forall i | 0 <= i < |times| && (losses[i].dropTokens || losses[i].dropStamp) ::
         i > 0 && times[i - 1] >= 0.0 && times[i] >= times[i - 1] + TTL(l) as real
  }

  function BucketedWithLoss(l: Limit, times: seq<real>, losses: seq<Loss>): Bucket
    requires |losses| == |times|
  {
    if times == [] then EMPTY
    else
      var n := |times| - 1;
      var b := BucketedWithLoss(l, times[..n], losses[..n]);
      AfterRequest(l, Evicted(b, losses[n].dropTokens, losses[n].dropStamp), times[n])
  }

  /** Over any history, evictions leave no trace. */
  lemma {:induction false} EvictionsUnobservable(l: Limit, times: seq<real>, losses: seq<Loss>)
    requires GoodLimit(l) && InTime(l, times, losses)
    ensures BucketedWithLoss(l, times, losses) == Bucketed(l, times)
  {
    if times != [] {
      var n := |times| - 1;
      EvictionsUnobservable(l, times[..n], losses[..n]);
      if losses[n].dropTokens || losses[n].dropStamp {
        EvictionUnobservable(l, times[..n], times[n], losses[n].dropTokens, losses[n].dropStamp);
      }
    }
  }

  /**
   Why request times must not decrease: after a request that comes in with an earlier time than the one before it, the
   time in between is counted twice, and a bucket of one lets two requests of one moment through.
   */
  lemma {:induction false} DisorderBreaksBound()
    ensures var l, times := Limit.Limit(1.0, 1), [10.0, 0.0, 10.0];
            LastAllowed(l, times[..1]) && !LastAllowed(l, times[..2]) && LastAllowed(l, times)
  {
    var l, times := Limit.Limit(1.0, 1), [10.0, 0.0, 10.0];
    assert times[..1][..0] == [] && times[..2][..1] == times[..1] && times[..3] == times;
    assert Bucketed(l, times[..1]) == Bucket(Some(0.0), Some(10.0));
    assert Bucketed(l, times[..2]) == Bucket(Some(0.0), Some(0.0));
  }
}
