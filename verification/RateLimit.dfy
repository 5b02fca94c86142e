/** The per-host limiter of `src/audit/crawler/rate_limit.py`: a semaphore and a lazy token bucket
    for each host.  The clock is a parameter; seconds and tokens are real numbers. */
module RateLimit {
  import opened Text

  // --- The token bucket ---

  /** Tokens that accrue in `elapsed` seconds. */
  function Accrued(elapsed: real, rps: real): real {
    elapsed * rps
  }

  lemma {:induction false} AccruedIsMonotone(elapsed: real, rps: real)
    requires elapsed >= 0.0 && rps >= 0.0
    ensures Accrued(elapsed, rps) >= 0.0
    ensures elapsed > 0.0 && rps > 0.0 ==> Accrued(elapsed, rps) > 0.0
  {
  }

  lemma {:induction false} AccruedAdds(first: real, second: real, rps: real)
    ensures Accrued(first, rps) + Accrued(second, rps) == Accrued(first + second, rps)
  {
  }

  datatype Bucket = Bucket(tokens: real, last: real)

  datatype Rate = Rate(rps: real, capacity: real)

  function Max(a: real, b: real): real {
    if a >= b then a else b
  }

  function Min(a: real, b: real): real {
    if a <= b then a else b
  }

  /** The limiter's buckets hold one second of tokens, and never less than one token. */
  function RateOf(rps: real): Rate {
    Rate(rps, Max(rps, 1.0))
  }

  predicate ValidRate(r: Rate) {
    r.rps >= 0.0 && r.capacity >= 1.0
  }

  predicate ValidBucket(r: Rate, b: Bucket) {
    0.0 <= b.tokens <= r.capacity
  }

  function Refill(r: Rate, b: Bucket, now: real): Bucket {
    Bucket(Min(r.capacity, b.tokens + Accrued(now - b.last, r.rps)), now)
  }

  /** Whether a caller that looks at time `now` gets its token. */
  predicate Grants(r: Rate, b: Bucket, now: real) {
    Refill(r, b, now).tokens >= 1.0
  }

  /** The bucket after a caller looked at time `now`. */
  function Polled(r: Rate, b: Bucket, now: real): Bucket {
    var full := Refill(r, b, now);
    if full.tokens >= 1.0 then full.(tokens := full.tokens - 1.0) else full
  }

  lemma {:induction false} PolledIsValid(r: Rate, b: Bucket, now: real)
    requires ValidRate(r) && ValidBucket(r, b) && b.last <= now
    ensures ValidBucket(r, Polled(r, b, now)) && Polled(r, b, now).last == now
  {
    AccruedIsMonotone(now - b.last, r.rps);
  }

  /** Successive readings of a clock that never runs back. */
  predicate ClockRuns(from: real, times: seq<real>)
    decreases |times|
  {
    times == [] || (from <= times[0] && ClockRuns(times[0], times[1..]))
  }

  /** What each look at the bucket answers. */
  function Outcomes(r: Rate, b: Bucket, times: seq<real>): (answers: seq<bool>)
    ensures |answers| == |times|
    decreases |times|
  {
    if times == [] then []
    else [Grants(r, b, times[0])] + Outcomes(r, Polled(r, b, times[0]), times[1..])
  }

  /** A refused look leaves no trace: without it every other caller is answered the same. */
  lemma {:induction false} RefusalIsInvisible(r: Rate, b: Bucket, times: seq<real>, k: nat)
    requires ValidRate(r) && ValidBucket(r, b) && ClockRuns(b.last, times)
    requires k < |times| && !Outcomes(r, b, times)[k]
    ensures Outcomes(r, b, times[..k] + times[k + 1..]) ==
            Outcomes(r, b, times)[..k] + Outcomes(r, b, times)[k + 1..]
    decreases k
  {
    var rest := times[..k] + times[k + 1..];
    var next := Polled(r, b, times[0]);
    if k == 0 {
      assert rest == times[1..];
      if rest != [] {
        RefusalKeepsRefill(r, b, times[0], rest[0]);
      }
    } else {
      PolledIsValid(r, b, times[0]);
      RefusalIsInvisible(r, next, times[1..], k - 1);
      assert rest[1..] == times[1..][..k - 1] + times[1..][k..];
    }
  }

  lemma {:induction false} RefusalKeepsRefill(r: Rate, b: Bucket, refused: real, now: real)
    requires ValidRate(r) && b.last <= refused <= now && !Grants(r, b, refused)
    ensures Refill(r, Polled(r, b, refused), now) == Refill(r, b, now)
  {
    AccruedAdds(refused - b.last, now - refused, r.rps);
  }

  /** The pause `take` makes after a refusal. */
  function Wait(r: Rate, b: Bucket): real {
    if r.rps > 0.0 then (1.0 - b.tokens) / r.rps else 0.1
  }

  /** The pause is exact: until another caller is served, a token is there from its end on and not before. */
  lemma {:induction false} WaitIsExact(r: Rate, b: Bucket, refused: real, now: real)
    requires ValidRate(r) && r.rps > 0.0 && ValidBucket(r, b) && b.last <= refused <= now && !Grants(r, b, refused)
    ensures var after := Polled(r, b, refused);
            && (Grants(r, after, now) <==> now >= refused + Wait(r, after))
            && Wait(r, after) == (1.0 - after.tokens) / r.rps
  {
    var w := Wait(r, Polled(r, b, refused));
    assert Accrued(w, r.rps) == 1.0 - Polled(r, b, refused).tokens;
    if now - refused >= w {
      AccruedAdds(w, now - refused - w, r.rps);
      AccruedIsMonotone(now - refused - w, r.rps);
    } else {
      AccruedAdds(now - refused, w - (now - refused), r.rps);
      AccruedIsMonotone(w - (now - refused), r.rps);
    }
  }

  // --- What the bucket must give ---

  function Together(now: real, n: nat): (times: seq<real>)
    ensures |times| == n && forall k :: 0 <= k < n ==> times[k] == now
  {
    seq(n, _ => now)
  }

  /** Callers that look at one moment are served one for each whole token, and the others refused. */
  lemma {:induction false} TokensAreServed(r: Rate, b: Bucket, now: real, n: nat, k: nat)
    requires ValidRate(r) && ValidBucket(r, b) && b.last == now && k < n
    ensures Outcomes(r, b, Together(now, n))[k] <==> (k + 1) as real <= b.tokens
    decreases n
  {
    assert Accrued(now - b.last, r.rps) == 0.0;
    assert Together(now, n)[1..] == Together(now, n - 1);
    if k > 0 {
      TokensAreServed(r, Polled(r, b, now), now, n - 1, k - 1);
    }
  }

  /** A host's first callers are served at once, as many as the rate has whole tokens in a second, and at least one. */
  lemma {:induction false} FreshBucketServes(rps: real, now: real, n: nat, k: nat)
    requires rps >= 0.0 && k < n
    ensures Outcomes(RateOf(rps), Bucket(RateOf(rps).capacity, now), Together(now, n))[k] <==>
            k == 0 || (k + 1) as real <= rps
  {
    TokensAreServed(RateOf(rps), Bucket(RateOf(rps).capacity, now), now, n, k);
  }

  /** Each look comes at least the time of one token after the one before. */
  predicate SpacedOut(from: real, times: seq<real>, rps: real)
    decreases |times|
  {
    times == [] || (Accrued(times[0] - from, rps) >= 1.0 && from <= times[0] && SpacedOut(times[0], times[1..], rps))
  }

  /** Callers that keep to the rate are never refused. */
  lemma {:induction false} SteadyCallersAreServed(r: Rate, b: Bucket, times: seq<real>, k: nat)
    requires ValidRate(r) && ValidBucket(r, b) && SpacedOut(b.last, times, r.rps) && k < |times|
    ensures Outcomes(r, b, times)[k]
    decreases |times|
  {
    assert Grants(r, b, times[0]);
    if k > 0 {
      PolledIsValid(r, b, times[0]);
      SteadyCallersAreServed(r, Polled(r, b, times[0]), times[1..], k - 1);
    }
  }

  // --- The limiter over all hosts ---

  datatype Limiter = Limiter(
    semaphores: map<string, nat>,   // free permits
    buckets: map<string, Bucket>,
    inside: multiset<string>)       // hosts of the callers between acquire and release

  datatype Event =
    | Enter(host: string, now: real)  // `_get`, then the semaphore is acquired
    | Look(host: string, now: real)   // a caller inside tries to take a token
    | Leave(host: string, now: real)  // the caller's request is done

  datatype Limits = Limits(rps: real, concurrency: nat)

  function FreePermits(m: Limits, l: Limiter, host: string): nat {
    if host in l.semaphores then l.semaphores[host] else m.concurrency
  }

  predicate Possible(m: Limits, l: Limiter, e: Event) {
    match e
    case Enter(host, _) => FreePermits(m, l, host) > 0
    case Look(host, _) => host in l.inside && host in l.buckets
    case Leave(host, _) => host in l.inside && host in l.semaphores
  }

  function BucketAt(m: Limits, l: Limiter, host: string, now: real): Bucket {
    if host in l.buckets then l.buckets[host] else Bucket(RateOf(m.rps).capacity, now)
  }

  function Happens(m: Limits, l: Limiter, e: Event): Limiter
    requires Possible(m, l, e)
  {
    match e
    case Enter(host, now) =>
      Limiter(l.semaphores[host := FreePermits(m, l, host) - 1],
              l.buckets[host := BucketAt(m, l, host, now)],
              l.inside + multiset{host})
    case Look(host, now) =>
      l.(buckets := l.buckets[host := Polled(RateOf(m.rps), l.buckets[host], now)])
    case Leave(host, _) =>
      l.(semaphores := l.semaphores[host := l.semaphores[host] + 1], inside := l.inside - multiset{host})
  }

  predicate ValidLimiter(m: Limits, l: Limiter, clock: real) {
    && m.rps >= 0.0
    && l.semaphores.Keys == l.buckets.Keys
    && (forall h :: h in l.semaphores ==> l.semaphores[h] + l.inside[h] == m.concurrency)
    && (forall h :: h in l.inside ==> h in l.semaphores)
    && (forall h :: h in l.buckets ==> ValidBucket(RateOf(m.rps), l.buckets[h]) && l.buckets[h].last <= clock)
  }

  lemma {:induction false} EventKeepsValid(m: Limits, l: Limiter, clock: real, e: Event)
    requires ValidLimiter(m, l, clock) && Possible(m, l, e) && clock <= e.now
    ensures ValidLimiter(m, Happens(m, l, e), e.now)
  {
    BucketsStayValid(m, l, clock, e);
    PermitsAddUp(m, l, clock, e);
    HostsAreKnown(m, l, clock, e);
  }

  lemma {:induction false} HostsAreKnown(m: Limits, l: Limiter, clock: real, e: Event)
    requires ValidLimiter(m, l, clock) && Possible(m, l, e)
    ensures var l' := Happens(m, l, e);
            l'.semaphores.Keys == l'.buckets.Keys && forall h :: h in l'.inside ==> h in l'.semaphores
  {
  }

  lemma {:induction false} PermitsAddUp(m: Limits, l: Limiter, clock: real, e: Event)
    requires ValidLimiter(m, l, clock) && Possible(m, l, e)
    ensures var l' := Happens(m, l, e);
            forall h :: h in l'.semaphores ==> l'.semaphores[h] + l'.inside[h] == m.concurrency
  {
    var l' := Happens(m, l, e);
    forall h | h in l'.semaphores ensures l'.semaphores[h] + l'.inside[h] == m.concurrency {
      if h in l.semaphores {
        assert l.semaphores[h] + l.inside[h] == m.concurrency;
      } else {
        assert h !in l.inside;
      }
    }
  }

  lemma {:induction false} BucketsStayValid(m: Limits, l: Limiter, clock: real, e: Event)
    requires ValidLimiter(m, l, clock) && Possible(m, l, e) && clock <= e.now
    ensures var buckets := Happens(m, l, e).buckets;
            forall h :: h in buckets ==> ValidBucket(RateOf(m.rps), buckets[h]) && buckets[h].last <= e.now
  {
    if e.Look? {
      PolledIsValid(RateOf(m.rps), l.buckets[e.host], e.now);
    }
  }

  /** `events` can happen one after the other from `l`, on a clock that never runs back. */
  predicate CanHappen(m: Limits, l: Limiter, clock: real, events: seq<Event>)
    decreases |events|
  {
    events == [] ||
    (Possible(m, l, events[0]) && clock <= events[0].now &&
     CanHappen(m, Happens(m, l, events[0]), events[0].now, events[1..]))
  }

  function Final(m: Limits, l: Limiter, clock: real, events: seq<Event>): Limiter
    requires CanHappen(m, l, clock, events)
    decreases |events|
  {
    if events == [] then l else Final(m, Happens(m, l, events[0]), events[0].now, events[1..])
  }

  /** Never more than `concurrency_per_host` callers of one host are inside, in any run. */
  lemma {:induction false} ConcurrencyBound(m: Limits, l: Limiter, clock: real, events: seq<Event>, host: string)
    requires ValidLimiter(m, l, clock) && CanHappen(m, l, clock, events)
    ensures Final(m, l, clock, events).inside[host] <= m.concurrency
    decreases |events|
  {
    if events != [] {
      EventKeepsValid(m, l, clock, events[0]);
      ConcurrencyBound(m, Happens(m, l, events[0]), events[0].now, events[1..], host);
    } else if host in l.inside {
      assert l.semaphores[host] + l.inside[host] == m.concurrency;
    }
  }

  /** A caller is kept out exactly while `concurrency_per_host` callers of its host are inside. */
  lemma {:induction false} RoomIsExact(m: Limits, l: Limiter, clock: real, host: string, now: real)
    requires ValidLimiter(m, l, clock)
    ensures Possible(m, l, Enter(host, now)) <==> l.inside[host] < m.concurrency
  {
    if host in l.semaphores {
      assert l.semaphores[host] + l.inside[host] == m.concurrency;
    } else {
      assert host !in l.inside;
    }
  }

  /** Tokens handed to callers of `host` at times within [s, t]. */
  function Granted(m: Limits, l: Limiter, clock: real, events: seq<Event>, host: string, s: real, t: real): nat
    requires CanHappen(m, l, clock, events)
    decreases |events|
  {
    if events == [] then 0
    else
      var e := events[0];
      Granted(m, Happens(m, l, e), e.now, events[1..], host, s, t) +
      if e.Look? && e.host == host && s <= e.now <= t && Grants(RateOf(m.rps), l.buckets[host], e.now) then 1 else 0
  }

  function BucketOf(l: Limiter, host: string): Option<Bucket> {
    if host in l.buckets then Some(l.buckets[host]) else None
  }

  /** What a host's bucket can still hand out in the rest of the window [s, t]. */
  function Allowance(r: Rate, b: Option<Bucket>, s: real, t: real): real {
    if b.None? || b.value.last < s then r.capacity + Accrued(t - s, r.rps)
    else if b.value.last > t then 0.0
    else b.value.tokens + Accrued(t - b.value.last, r.rps)
  }

  lemma {:induction false} AllowanceIsNonNegative(r: Rate, b: Option<Bucket>, s: real, t: real)
    requires ValidRate(r) && s <= t && (b.Some? ==> ValidBucket(r, b.value))
    ensures Allowance(r, b, s, t) >= 0.0
  {
    AccruedIsMonotone(t - s, r.rps);
    if b.Some? && s <= b.value.last <= t {
      AccruedIsMonotone(t - b.value.last, r.rps);
    }
  }

  lemma {:induction false} LookUsesAllowance(r: Rate, b: Bucket, now: real, s: real, t: real)
    requires ValidRate(r) && ValidBucket(r, b) && b.last <= now && s <= t
    ensures Allowance(r, Some(Polled(r, b, now)), s, t) + (if s <= now <= t && Grants(r, b, now) then 1.0 else 0.0)
            <= Allowance(r, Some(b), s, t)
  {
    AllowanceIsNonNegative(r, Some(b), s, t);
    if s <= now <= t {
      AccruedIsMonotone(now - s, r.rps);
      AccruedAdds(now - s, t - now, r.rps);
      AccruedAdds(now - b.last, t - now, r.rps);
    }
  }

  /** A bucket is created full, which its window allowed anyway. */
  lemma {:induction false} CreationUsesAllowance(r: Rate, now: real, s: real, t: real)
    requires ValidRate(r) && s <= t
    ensures Allowance(r, Some(Bucket(r.capacity, now)), s, t) <= Allowance(r, None, s, t)
  {
    AllowanceIsNonNegative(r, None, s, t);
    if s <= now {
      AccruedIsMonotone(now - s, r.rps);
      AccruedAdds(now - s, t - now, r.rps);
    }
  }

  lemma {:induction false} EventUsesAllowance(m: Limits, l: Limiter, clock: real, e: Event, host: string, s: real, t: real)
    requires ValidLimiter(m, l, clock) && Possible(m, l, e) && clock <= e.now && s <= t
    ensures var r := RateOf(m.rps);
            Allowance(r, BucketOf(Happens(m, l, e), host), s, t) +
            (if e.Look? && e.host == host && s <= e.now <= t && Grants(r, l.buckets[host], e.now) then 1.0 else 0.0)
            <= Allowance(r, BucketOf(l, host), s, t)
  {
    if e.host == host && e.Look? {
      LookUsesAllowance(RateOf(m.rps), l.buckets[host], e.now, s, t);
    } else if e.host == host && e.Enter? && host !in l.buckets {
      CreationUsesAllowance(RateOf(m.rps), e.now, s, t);
    } else {
      assert BucketOf(Happens(m, l, e), host) == BucketOf(l, host);
    }
  }

  lemma {:induction false} GrantedWithinAllowance(
    m: Limits, l: Limiter, clock: real, events: seq<Event>, host: string, s: real, t: real)
    requires ValidLimiter(m, l, clock) && CanHappen(m, l, clock, events) && s <= t
    ensures Granted(m, l, clock, events, host, s, t) as real <= Allowance(RateOf(m.rps), BucketOf(l, host), s, t)
    decreases |events|
  {
    if events == [] {
      AllowanceIsNonNegative(RateOf(m.rps), BucketOf(l, host), s, t);
    } else {
      EventKeepsValid(m, l, clock, events[0]);
      EventUsesAllowance(m, l, clock, events[0], host, s, t);
      GrantedWithinAllowance(m, Happens(m, l, events[0]), events[0].now, events[1..], host, s, t);
    }
  }

  lemma {:induction false} WindowAllows(rps: real, s: real, t: real)
    requires rps >= 0.0
    ensures Allowance(RateOf(rps), None, s, t) == (if rps >= 1.0 then rps else 1.0) + (t - s) * rps
  {
    assert Accrued(t - s, rps) == (t - s) * rps;
  }

  /** The rate bound over every window of every run: any callers, any hosts, any order. */
  lemma {:induction false} WindowBound(m: Limits, clock: real, events: seq<Event>, host: string, s: real, t: real)
    requires m.rps >= 0.0 && s <= t
    requires CanHappen(m, Limiter(map[], map[], multiset{}), clock, events)
    ensures Granted(m, Limiter(map[], map[], multiset{}), clock, events, host, s, t) as real
            <= (if m.rps >= 1.0 then m.rps else 1.0) + (t - s) * m.rps
  {
    var none := Limiter(map[], map[], multiset{});
    assert ValidLimiter(m, none, clock) && BucketOf(none, host) == None;
    WindowAllows(m.rps, s, t);
    GrantedWithinAllowance(m, none, clock, events, host, s, t);
  }

  /** Making a host's permits known and then taking one is the `Enter` event. */
  lemma {:induction false} EnterTakesPermit(m: Limits, l: Limiter, host: string, now: real)
    ensures var free := FreePermits(m, l, host);
            var known := l.semaphores[host := free];
            && known[host] == free && (Possible(m, l, Enter(host, now)) <==> free > 0)
            && (free > 0 ==> Happens(m, l, Enter(host, now)) ==
                             Limiter(known[host := free - 1], l.buckets[host := BucketAt(m, l, host, now)],
                                     l.inside + multiset{host}))
            && (free == 0 ==> known == l.semaphores[host := 0])
  {
    var free := FreePermits(m, l, host);
    if free > 0 {
      assert l.semaphores[host := free][host := free - 1] == l.semaphores[host := free - 1];
    }
  }

  // --- The objects, updated in place ---

  class TokenBucket {
    const rps: real
    const capacity: real
    var tokens: real
    var last: real

    constructor (rps: real, burst: real, now: real)
      ensures this.rps == rps && capacity == Max(burst, 1.0) && Contents() == Bucket(capacity, now)
    {
      this.rps := rps;
      capacity := Max(burst, 1.0);
      tokens := Max(burst, 1.0);
      last := now;
    }

    function Contents(): Bucket
      reads this
    {
      Bucket(tokens, last)
    }

    /** One turn of the loop in `take`, under the bucket's lock. */
    method Look(now: real) returns (granted: bool, wait: real)
      modifies this
      ensures granted == Grants(Rate(rps, capacity), old(Contents()), now)
      ensures Contents() == Polled(Rate(rps, capacity), old(Contents()), now)
      ensures !granted ==> wait == Wait(Rate(rps, capacity), Contents())
      ensures !granted && rps <= 0.0 ==> wait == 0.1
    {
      tokens := Min(capacity, tokens + Accrued(now - last, rps));
      last := now;
      wait := 0.0;
      if tokens >= 1.0 {
        tokens := tokens - 1.0;
        return true, wait;
      }
      var deficit := 1.0 - tokens;
      wait := if rps > 0.0 then deficit / rps else 0.1;
      granted := false;
    }
  }

  class HostLimiter {
    const limits: Limits
    var semaphores: map<string, nat>
    var buckets: map<string, TokenBucket>
    ghost var inside: multiset<string>

    constructor (rps: real, concurrency: nat)
      ensures limits == Limits(rps, concurrency) && Valid() && Abs() == Limiter(map[], map[], multiset{})
    {
      limits := Limits(rps, concurrency);
      semaphores, buckets, inside := map[], map[], multiset{};
    }

    /** Each host has its own bucket object. */
    ghost predicate Valid()
      reads this, buckets.Values
    {
      && (forall h :: h in buckets ==>
            buckets[h].rps == limits.rps && buckets[h].capacity == RateOf(limits.rps).capacity)
      && (forall h, h' :: h in buckets && h' in buckets && h != h' ==> buckets[h] != buckets[h'])
    }

    ghost function Abs(): Limiter
      reads this, buckets.Values
    {
      Limiter(semaphores, map h | h in buckets :: buckets[h].Contents(), inside)
    }

    /** `_get`: the host's semaphore and bucket, made on first use. */
    method Get(host: string, now: real)
      requires Valid() && semaphores.Keys == buckets.Keys
      modifies this`semaphores, this`buckets
      ensures Valid() && fresh(buckets.Values - old(buckets.Values)) && semaphores.Keys == buckets.Keys
      ensures semaphores == old(semaphores)[host := FreePermits(limits, old(Abs()), host)]
      ensures Abs().buckets == old(Abs()).buckets[host := BucketAt(limits, old(Abs()), host, now)]
    {
      if host !in semaphores {
        semaphores := semaphores[host := limits.concurrency];
        var bucket := new TokenBucket(limits.rps, limits.rps, now);
        buckets := buckets[host := bucket];
      }
    }

    /** Takes a permit of a known host, if one is free. */
    method Acquire(host: string) returns (acquired: bool)
      requires Valid() && host in semaphores
      modifies this`semaphores, this`inside
      ensures Valid() && acquired == (old(semaphores)[host] > 0)
      ensures Abs() == if !acquired then old(Abs()) else old(Abs()).(
                semaphores := old(semaphores)[host := old(semaphores)[host] - 1], inside := old(inside) + multiset{host})
    {
      acquired := semaphores[host] > 0;
      if acquired {
        semaphores := semaphores[host := semaphores[host] - 1];
        inside := inside + multiset{host};
      }
    }

    /** `_get`, then the semaphore: with no permit free the caller waits outside. */
    method TryEnter(host: string, now: real) returns (entered: bool)
      requires Valid() && semaphores.Keys == buckets.Keys
      modifies this
      ensures Valid()
      ensures entered == Possible(limits, old(Abs()), Enter(host, now))
      ensures entered ==> Abs() == Happens(limits, old(Abs()), Enter(host, now))
      ensures !entered ==> Abs() == old(Abs()).(
                semaphores := old(semaphores)[host := 0],
                buckets := old(Abs()).buckets[host := BucketAt(limits, old(Abs()), host, now)])
    {
      ghost var l := Abs();
      Get(host, now);
      EnterTakesPermit(limits, l, host, now);
      entered := Acquire(host);
    }

    method TryTake(host: string, now: real) returns (granted: bool)
      requires Valid() && Possible(limits, Abs(), Look(host, now))
      modifies buckets.Values
      ensures Valid() && granted == Grants(RateOf(limits.rps), old(Abs()).buckets[host], now)
      ensures Abs() == Happens(limits, old(Abs()), Look(host, now))
    {
      var wait;
      granted, wait := buckets[host].Look(now);
    }

    method Release(host: string, now: real)
      requires Valid() && Possible(limits, Abs(), Leave(host, now))
      modifies this
      ensures Valid() && Abs() == Happens(limits, old(Abs()), Leave(host, now))
    {
      semaphores := semaphores[host := semaphores[host] + 1];
      inside := inside - multiset{host};
    }
  }
}
