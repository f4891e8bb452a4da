/** The per-address token bucket in front of the gateway's routes. Seconds and tokens are reals. */
module RateLimit {
  import opened Wrappers

  type Ip = string

  // -- One bucket -----------------------------------------------------------

  datatype Bucket = Bucket(tokens: real, lastRefill: real)

  /** How long until a token is there; never, when nothing refills. */
  datatype Wait = Seconds(s: real) | Forever

  /** What refilling at `rate` adds in `elapsed` seconds. */
  function Inflow(elapsed: real, rate: real): real {
    elapsed * rate
  }

  function Full(capacity: real, now: real): Bucket {
    Bucket(capacity, now)
  }

  function Refilled(b: Bucket, now: real, capacity: real, rate: real): real {
    var elapsed := if now < b.lastRefill then 0.0 else now - b.lastRefill;
    var tokens := b.tokens + Inflow(elapsed, rate);
    if tokens < capacity then tokens else capacity
  }

  predicate Grants(b: Bucket, now: real, capacity: real, rate: real) {
    Refilled(b, now, capacity, rate) >= 1.0
  }

  function Consumed(b: Bucket, now: real, capacity: real, rate: real): Bucket {
    var tokens := Refilled(b, now, capacity, rate);
    Bucket(if tokens >= 1.0 then tokens - 1.0 else tokens, now)
  }

  function WaitFor(tokens: real, rate: real): Wait
    requires tokens < 1.0
  {
    if rate == 0.0 then Forever else Seconds((1.0 - tokens) / rate)
  }

  class TokenBucket {
    var tokens: real
    var lastRefill: real

    constructor (capacity: real, now: real)
      ensures View() == Full(capacity, now)
    {
      tokens, lastRefill := capacity, now;
    }

    ghost function View(): Bucket
      reads this
    {
      Bucket(tokens, lastRefill)
    }

    method TryConsume(capacity: real, rate: real, now: real) returns (allowed: bool, wait: Wait)
      modifies this
      ensures View() == Consumed(old(View()), now, capacity, rate)
      ensures allowed == Grants(old(View()), now, capacity, rate)
      ensures var inflow := if now > old(lastRefill) then (now - old(lastRefill)) * rate else 0.0;
              var filled := if old(tokens) + inflow < capacity then old(tokens) + inflow else capacity;
              && lastRefill == now && (allowed <==> filled >= 1.0)
              && tokens == if allowed then filled - 1.0 else filled
      ensures !allowed ==> tokens < 1.0 && wait == WaitFor(tokens, rate)
      ensures allowed ==> wait == Seconds(0.0)
    {
      var elapsed := if now < lastRefill then 0.0 else now - lastRefill;
      lastRefill := now;
      tokens := if tokens + Inflow(elapsed, rate) < capacity then tokens + Inflow(elapsed, rate) else capacity;
      if tokens >= 1.0 {
        tokens := tokens - 1.0;
        return true, Seconds(0.0);
      }
      return false, WaitFor(tokens, rate);
    }
  }

  // -- The limiter ----------------------------------------------------------

  type Buckets = map<Ip, Bucket>

  /** The bucket a request meets: its own, or a full one made for it. */
  function Entry(m: Buckets, ip: Ip, now: real, capacity: real): Bucket {
    if ip in m then m[ip] else Full(capacity, now)
  }

  class RateLimiter {
    var buckets: map<Ip, TokenBucket>
    const maxTokens: nat
    const refillRate: real

    constructor (max: nat, windowSecs: nat)
      requires windowSecs > 0
      ensures Valid() && View() == map[]
      ensures maxTokens == max && refillRate == RateOf(max, windowSecs)
    {
      buckets := map[];
      maxTokens := max;
      refillRate := max as real / windowSecs as real;
    }

    /** No two addresses share a bucket. */
    ghost predicate Valid()
      reads this
    {
      forall a, b :: a in buckets && b in buckets && a != b ==> buckets[a] != buckets[b]
    }

    ghost function View(): Buckets
      reads this, buckets.Values
    {
      map ip | ip in buckets :: buckets[ip].View()
    }

    method Check(ip: Ip, now: real) returns (allowed: bool, wait: Wait)
      requires Valid()
      modifies this`buckets, buckets.Values
      ensures Valid()
      ensures allowed == Grants(Entry(old(View()), ip, now, maxTokens as real), now, maxTokens as real, refillRate)
      ensures View() == old(View())[ip := Consumed(Entry(old(View()), ip, now, maxTokens as real), now,
                                                   maxTokens as real, refillRate)]
      ensures !allowed ==> View()[ip].tokens < 1.0 && wait == WaitFor(View()[ip].tokens, refillRate)
    {
      if ip !in buckets {
        var bucket := new TokenBucket(maxTokens as real, now);
        buckets := buckets[ip := bucket];
      }
      allowed, wait := buckets[ip].TryConsume(maxTokens as real, refillRate, now);
    }
  }

  // -- One address over a run -----------------------------------------------

  function BucketAfter(times: seq<real>, capacity: real, rate: real): Bucket
    requires |times| > 0
  {
    var now := times[|times| - 1];
    var before := if |times| == 1 then Full(capacity, now) else BucketAfter(times[..|times| - 1], capacity, rate);
    Consumed(before, now, capacity, rate)
  }

  /** Whether the last request of the run was let through. */
  predicate LastGranted(times: seq<real>, capacity: real, rate: real)
    requires |times| > 0
  {
    var now := times[|times| - 1];
    Grants(if |times| == 1 then Full(capacity, now) else BucketAfter(times[..|times| - 1], capacity, rate),
           now, capacity, rate)
  }

  /** Requests let through from the `i`-th on. */
  function Granted(times: seq<real>, i: nat, capacity: real, rate: real): nat {
    if |times| <= i then 0
    else Granted(times[..|times| - 1], i, capacity, rate) + Bit(LastGranted(times, capacity, rate))
  }

  ghost predicate Ordered(times: seq<real>) {
    forall i, j :: 0 <= i <= j < |times| ==> times[i] <= times[j]
  }

  lemma {:induction false} TokensInRange(times: seq<real>, capacity: real, rate: real)
    requires |times| > 0 && capacity >= 0.0 && rate >= 0.0
    ensures 0.0 <= BucketAfter(times, capacity, rate).tokens <= capacity
    ensures BucketAfter(times, capacity, rate).lastRefill == times[|times| - 1]
  {
    var now := times[|times| - 1];
    if |times| == 1 {
      RefillRange(Full(capacity, now), now, capacity, rate);
    } else {
      TokensInRange(times[..|times| - 1], capacity, rate);
      RefillRange(BucketAfter(times[..|times| - 1], capacity, rate), now, capacity, rate);
    }
  }

  lemma RefillRange(b: Bucket, now: real, capacity: real, rate: real)
    requires 0.0 <= b.tokens <= capacity && rate >= 0.0
    ensures 0.0 <= Refilled(b, now, capacity, rate) <= capacity
  {
    Product(if now < b.lastRefill then 0.0 else now - b.lastRefill, rate);
  }

  lemma Product(a: real, b: real)
    requires a >= 0.0 && b >= 0.0
    ensures a * b >= 0.0
  {
  }

  lemma InflowAdds(a: real, b: real, rate: real)
    ensures Inflow(a, rate) + Inflow(b, rate) == Inflow(a + b, rate)
  {
  }

  lemma NoInflow(rate: real)
    ensures Inflow(0.0, rate) == 0.0
  {
  }

  function Bit(b: bool): nat {
    if b then 1 else 0
  }

  /** One request spends out of what is there after refilling. */
  lemma OneRequest(b: Bucket, now: real, capacity: real, rate: real)
    ensures Bit(Grants(b, now, capacity, rate)) as real + Consumed(b, now, capacity, rate).tokens <= capacity
    ensures b.lastRefill <= now ==>
              Bit(Grants(b, now, capacity, rate)) as real + Consumed(b, now, capacity, rate).tokens
              <= b.tokens + Inflow(now - b.lastRefill, rate)
  {
  }

  /** Tokens spent plus tokens left never exceed a full bucket plus what flowed in. */
  lemma {:induction false} Potential(times: seq<real>, i: nat, capacity: real, rate: real)
    requires Ordered(times) && i < |times| && capacity >= 0.0 && rate >= 0.0
    ensures Granted(times, i, capacity, rate) as real + BucketAfter(times, capacity, rate).tokens
            <= capacity + Inflow(times[|times| - 1] - times[i], rate)
  {
    hide Inflow, Grants, Consumed, Refilled;
    var last := |times| - 1;
    var now, before := times[last], times[..last];
    NoInflow(rate);
    if i == last {
      assert Granted(before, i, capacity, rate) == 0;
      OneRequest(if |times| == 1 then Full(capacity, now) else BucketAfter(before, capacity, rate),
                 now, capacity, rate);
    } else {
      Potential(before, i, capacity, rate);
      TokensInRange(before, capacity, rate);
      InflowAdds(now - before[last - 1], before[last - 1] - times[i], rate);
      OneRequest(BucketAfter(before, capacity, rate), now, capacity, rate);
    }
  }

  /** In every run: requests let through between the i-th and the last are at most capacity plus refill. */
  lemma {:induction false} GrantedBound(times: seq<real>, i: nat, capacity: real, rate: real)
    requires Ordered(times) && i < |times| && capacity >= 0.0 && rate >= 0.0
    ensures Granted(times, i, capacity, rate) as real <= capacity + Inflow(times[|times| - 1] - times[i], rate)
  {
    Potential(times, i, capacity, rate);
    TokensInRange(times, capacity, rate);
  }

  function RateOf(max: nat, windowSecs: nat): real
    requires windowSecs > 0
  {
    max as real / windowSecs as real
  }

  lemma RateTimesWindow(max: nat, windowSecs: nat, span: real)
    requires windowSecs > 0 && 0.0 <= span <= windowSecs as real
    ensures RateOf(max, windowSecs) >= 0.0
    ensures Inflow(span, RateOf(max, windowSecs)) <= Inflow(windowSecs as real, RateOf(max, windowSecs)) == max as real
  {
    var rate := RateOf(max, windowSecs);
    Product(windowSecs as real - span, rate);
    InflowAdds(span, windowSecs as real - span, rate);
  }

  /** As configured: at most twice the limit in any stretch as long as the window. */
  lemma {:induction false} AtMostTwiceTheLimit(times: seq<real>, i: nat, max: nat, windowSecs: nat)
    requires Ordered(times) && i < |times| && windowSecs > 0
    requires times[|times| - 1] - times[i] <= windowSecs as real
    ensures Granted(times, i, max as real, RateOf(max, windowSecs)) <= 2 * max
  {
    hide Inflow, RateOf, Granted;
    RateTimesWindow(max, windowSecs, times[|times| - 1] - times[i]);
    GrantedBound(times, i, max as real, RateOf(max, windowSecs));
  }

  /** The burst that reaches it: the whole limit at once, and again one window later. */
  function TwoBursts(max: nat, windowSecs: nat, k: nat): seq<real> {
    seq(k, i => if i < max then 0.0 else windowSecs as real)
  }

  /** A request to a bucket holding `left` tokens, `gap` seconds after the last one. */
  lemma BurstRequest(left: nat, last: real, gap: real, max: nat, rate: real)
    requires left <= max && gap >= 0.0
    requires (left > 0 && gap == 0.0) || (left == 0 < max && Inflow(gap, rate) == max as real)
    ensures var b := Bucket(left as real, last);
            && Grants(b, last + gap, max as real, rate)
            && Consumed(b, last + gap, max as real, rate)
               == Bucket(((if left > 0 then left else max) - 1) as real, last + gap)
  {
    hide Inflow;
    NoInflow(rate);
  }

  lemma {:induction false} BurstTokens(max: nat, windowSecs: nat, k: nat)
    requires 0 < k <= 2 * max && windowSecs > 0
    ensures var times := TwoBursts(max, windowSecs, k);
            var rate := RateOf(max, windowSecs);
            && BucketAfter(times, max as real, rate)
               == Bucket((if k <= max then max - k else 2 * max - k) as real, times[k - 1])
            && Granted(times, 0, max as real, rate) == k
  {
    hide Grants, Consumed, RateOf, Inflow;
    var times := TwoBursts(max, windowSecs, k);
    var rate := RateOf(max, windowSecs);
    var before := times[..k - 1];
    assert before == TwoBursts(max, windowSecs, k - 1);
    RateTimesWindow(max, windowSecs, windowSecs as real);
    if k == 1 {
      assert Granted(before, 0, max as real, rate) == 0;
      BurstRequest(max, 0.0, 0.0, max, rate);
    } else {
      BurstTokens(max, windowSecs, k - 1);
      var left := if k - 1 <= max then max - (k - 1) else 2 * max - (k - 1);
      BurstRequest(left, before[k - 2], times[k - 1] - before[k - 2], max, rate);
    }
  }

  lemma {:induction false} TwiceTheLimitIsReached(max: nat, windowSecs: nat)
    requires max > 0 && windowSecs > 0
    ensures var times := TwoBursts(max, windowSecs, 2 * max);
            && Ordered(times) && times[|times| - 1] - times[0] == windowSecs as real
            && Granted(times, 0, max as real, RateOf(max, windowSecs)) == 2 * max
  {
    BurstTokens(max, windowSecs, 2 * max);
  }

  /** A refused request that waits the returned time succeeds, and any shorter wait fails. */
  lemma {:induction false} WaitIsExact(b: Bucket, now: real, later: real, capacity: real, rate: real)
    requires capacity >= 1.0 && rate > 0.0 && now <= later
    requires !Grants(b, now, capacity, rate)
    ensures var after := Consumed(b, now, capacity, rate);
            && WaitFor(after.tokens, rate).Seconds?
            && (Grants(after, later, capacity, rate) <==> later - now >= WaitFor(after.tokens, rate).s)
  {
    var after := Consumed(b, now, capacity, rate);
    var wait := (1.0 - after.tokens) / rate;
    assert wait * rate == 1.0 - after.tokens;
    Compare(later - now, wait, rate);
  }

  lemma Compare(a: real, b: real, rate: real)
    requires rate > 0.0
    ensures a * rate >= b * rate <==> a >= b
  {
    assert a * rate - b * rate == (a - b) * rate;
    if a >= b { Product(a - b, rate); } else { Positive(b - a, rate); }
  }

  lemma Positive(a: real, b: real)
    requires a > 0.0 && b > 0.0
    ensures a * b > 0.0
  {
  }

  /** A limit of zero refuses everything, for ever. */
  lemma {:induction false} ZeroLimitRefuses(times: seq<real>, rate: real)
    requires |times| > 0 && rate == 0.0
    ensures !LastGranted(times, 0.0, rate)
    ensures BucketAfter(times, 0.0, rate).tokens == 0.0
  {
    if |times| > 1 { ZeroLimitRefuses(times[..|times| - 1], rate); }
  }

  // -- Many addresses -------------------------------------------------------

  datatype Request = Request(ip: Ip, now: real)

  function BucketsAfter(rs: seq<Request>, capacity: real, rate: real): Buckets {
    if |rs| == 0 then map[]
    else
      var m, r := BucketsAfter(rs[..|rs| - 1], capacity, rate), rs[|rs| - 1];
      m[r.ip := Consumed(Entry(m, r.ip, r.now, capacity), r.now, capacity, rate)]
  }

  function TimesOf(rs: seq<Request>, ip: Ip): seq<real> {
    if |rs| == 0 then []
    else TimesOf(rs[..|rs| - 1], ip) + if rs[|rs| - 1].ip == ip then [rs[|rs| - 1].now] else []
  }

  /** Each address fares exactly as if it were alone: its bucket is that of its own requests. */
  lemma {:induction false} AddressesAreIndependent(rs: seq<Request>, ip: Ip, capacity: real, rate: real)
    ensures var m := BucketsAfter(rs, capacity, rate);
            && (ip in m <==> |TimesOf(rs, ip)| > 0)
            && (ip in m ==> m[ip] == BucketAfter(TimesOf(rs, ip), capacity, rate))
  {
    if |rs| > 0 {
      AddressesAreIndependent(rs[..|rs| - 1], ip, capacity, rate);
      if rs[|rs| - 1].ip == ip {
        var times := TimesOf(rs, ip);
        assert times == TimesOf(rs[..|rs| - 1], ip) + [rs[|rs| - 1].now];
        assert times[..|times| - 1] == TimesOf(rs[..|rs| - 1], ip);
      } else {
        assert TimesOf(rs, ip) == TimesOf(rs[..|rs| - 1], ip);
      }
    }
  }

  /** So does every answer it gets. */
  lemma AnswersAreIndependent(rs: seq<Request>, r: Request, capacity: real, rate: real)
    ensures var m := BucketsAfter(rs, capacity, rate);
            var times := TimesOf(rs + [r], r.ip);
            && |times| > 0
            && (Grants(Entry(m, r.ip, r.now, capacity), r.now, capacity, rate) <==> LastGranted(times, capacity, rate))
  {
    AddressesAreIndependent(rs, r.ip, capacity, rate);
    assert (rs + [r])[..|rs|] == rs;
    var times := TimesOf(rs + [r], r.ip);
    assert times[..|times| - 1] == TimesOf(rs, r.ip);
  }
}
