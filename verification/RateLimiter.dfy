/** The fixed-window request limiter: a counter per bucket whose expiry is set once per window. */
module RateLimiter {
  import opened Options
  import opened Sets

  type Bucket = nat
  type Time = nat

  // A counter key in Redis: it is gone from `expires` on.
  datatype Counter = Counter(count: nat, expires: Time)

  type Counters = map<Bucket, Counter>

  datatype RateLimitResult = RateLimitResult(allowed: bool, currentCount: nat, maxRequests: nat,
                                             retryAfter: Option<nat>)

  predicate Live(m: Counters, b: Bucket, now: Time) {
    b in m && now < m[b].expires
  }

  function CountAt(m: Counters, b: Bucket, now: Time): nat {
    if Live(m, b, now) then m[b].count else 0
  }

  // INCR, then EXPIRE NX: the expiry is set by the first request of a window only.
  function Hit(m: Counters, b: Bucket, window: nat, now: Time): Counters {
    m[b := Counter(CountAt(m, b, now) + 1, if Live(m, b, now) then m[b].expires else now + window)]
  }

  // The seconds until the bucket's counter expires, or a whole window when there is none.
  function RetryAfter(m: Counters, b: Bucket, window: nat, now: Time): nat {
    if Live(m, b, now) then m[b].expires - now else window
  }

  function Remaining(m: Counters, b: Bucket, maxRequests: nat, now: Time): nat {
    if maxRequests > CountAt(m, b, now) then maxRequests - CountAt(m, b, now) else 0
  }

  // n requests in the same instant.
  function HitTimes(m: Counters, b: Bucket, window: nat, now: Time, n: nat): Counters {
    if n == 0 then m else Hit(HitTimes(m, b, window, now, n - 1), b, window, now)
  }

  /** The remaining allowance is exact: of the next requests made at once, just that many pass. */
  lemma RemainingIsExact(m: Counters, b: Bucket, maxRequests: nat, window: nat, now: Time, n: nat)
    requires window > 0 && n > 0
    ensures b in HitTimes(m, b, window, now, n)
    ensures HitTimes(m, b, window, now, n)[b].count <= maxRequests <==> n <= Remaining(m, b, maxRequests, now)
  {
    CountsUp(m, b, window, now, n);
  }

  lemma {:induction false} CountsUp(m: Counters, b: Bucket, window: nat, now: Time, n: nat)
    requires window > 0
    ensures CountAt(HitTimes(m, b, window, now, n), b, now) == CountAt(m, b, now) + n
    ensures n > 0 ==> Live(HitTimes(m, b, window, now, n), b, now)
  {
    if n > 0 {
      CountsUp(m, b, window, now, n - 1);
    }
  }

  class TokenBucketRateLimiter {
    var counters: Counters

    constructor ()
      ensures counters == map[]
    {
      counters := map[];
    }

    method CheckRateLimit(b: Bucket, maxRequests: nat, window: nat, now: Time) returns (r: RateLimitResult)
      ensures r.allowed <==> CountAt(counters, b, now) < maxRequests
      ensures r.currentCount == CountAt(counters, b, now) && r.maxRequests == maxRequests
      ensures r.retryAfter == if r.allowed then None else Some(RetryAfter(counters, b, window, now))
    {
      var current := if b in counters && now < counters[b].expires then counters[b].count else 0;
      if current >= maxRequests {
        var ttl := if b in counters && now < counters[b].expires then counters[b].expires - now else 0;
        return RateLimitResult(false, current, maxRequests, Some(if ttl > 0 then ttl else window));
      }
      r := RateLimitResult(true, current, maxRequests, None);
    }

    // With a window of zero EXPIRE removes the counter at once; here it is left behind, expired.
    method Consume(b: Bucket, maxRequests: nat, window: nat, now: Time) returns (r: RateLimitResult)
      modifies this
      ensures counters == Hit(old(counters), b, window, now)
      ensures r.allowed <==> counters[b].count <= maxRequests
      ensures r.currentCount == counters[b].count && r.maxRequests == maxRequests
      ensures r.retryAfter == if r.allowed then None else Some(counters[b].expires - now)
    {
      if b in counters && counters[b].expires <= now {
        counters := counters - {b};
      }
      if b in counters {
        counters := counters[b := Counter(counters[b].count + 1, counters[b].expires)];
      } else {
        counters := counters[b := Counter(1, now + window)];
      }
      var newCount := counters[b].count;
      if newCount > maxRequests {
        var ttl := counters[b].expires - now;
        return RateLimitResult(false, newCount, maxRequests, Some(if ttl > 0 then ttl else window));
      }
      r := RateLimitResult(true, newCount, maxRequests, None);
    }

    method GetRemaining(b: Bucket, maxRequests: nat, now: Time) returns (remaining: nat)
      ensures remaining == Remaining(counters, b, maxRequests, now)
    {
      var current := if b in counters && now < counters[b].expires then counters[b].count else 0;
      remaining := if maxRequests > current then maxRequests - current else 0;
    }

    method Reset(b: Bucket)
      modifies this
      ensures counters == old(counters) - {b}
      ensures forall now: Time :: CountAt(counters, b, now) == 0
    {
      counters := counters - {b};
    }
  }

  /** A check and an immediately following consume agree, on the verdict and on the retry time. */
  method CheckPredictsConsume(l: TokenBucketRateLimiter, b: Bucket, maxRequests: nat, window: nat, now: Time)
    returns (predicted: RateLimitResult, actual: RateLimitResult)
    modifies l
    ensures predicted.allowed == actual.allowed && predicted.retryAfter == actual.retryAfter
    ensures actual.currentCount == predicted.currentCount + 1
  {
    predicted := l.CheckRateLimit(b, maxRequests, window, now);
    actual := l.Consume(b, maxRequests, window, now);
  }

  // ----- request logs -----

  datatype Request = Request(bucket: Bucket, at: Time)

  datatype Limits = Limits(quota: nat, window: nat)

  predicate TimeOrdered(log: seq<Request>) {
    forall i, j :: 0 <= i < j < |log| ==> log[i].at <= log[j].at
  }

  // The counters after the first n requests.
  function After(l: Limits, log: seq<Request>, n: nat): Counters
    requires n <= |log|
  {
    if n == 0 then map[] else Hit(After(l, log, n - 1), log[n - 1].bucket, l.window, log[n - 1].at)
  }

  // The counter as the i-th request left it: its rank in its window, and the window's end.
  function CounterOf(l: Limits, log: seq<Request>, i: nat): Counter
    requires i < |log|
  {
    After(l, log, i + 1)[log[i].bucket]
  }

  predicate Allowed(l: Limits, log: seq<Request>, i: nat)
    requires i < |log|
  {
    CounterOf(l, log, i).count <= l.quota
  }

  lemma {:induction false} KeptUntilNext(l: Limits, log: seq<Request>, i: nat, n: nat)
    requires i < n <= |log| && forall k :: i < k < n ==> log[k].bucket != log[i].bucket
    ensures log[i].bucket in After(l, log, n) && After(l, log, n)[log[i].bucket] == CounterOf(l, log, i)
    decreases n
  {
    if n > i + 1 {
      KeptUntilNext(l, log, i, n - 1);
    }
  }

  // No counter ends more than a window after the latest request.
  lemma {:induction false} CountersLookAhead(l: Limits, log: seq<Request>, n: nat, now: Time, b: Bucket)
    requires n <= |log| && forall k :: 0 <= k < n ==> log[k].at <= now
    ensures b in After(l, log, n) ==> After(l, log, n)[b].expires <= now + l.window && After(l, log, n)[b].count >= 1
  {
    if n > 0 {
      CountersLookAhead(l, log, n - 1, now, b);
    }
  }

  /** Every request falls inside the window it is counted in, whether it is admitted or not. */
  lemma InsideItsWindow(l: Limits, log: seq<Request>, i: nat)
    requires i < |log| && l.window > 0 && TimeOrdered(log)
    ensures log[i].at < CounterOf(l, log, i).expires <= log[i].at + l.window
    ensures CounterOf(l, log, i).count >= 1
  {
    CountersLookAhead(l, log, i, log[i].at, log[i].bucket);
  }

  /** Windows of one bucket are disjoint and never extended: a later request is either in the same
      window, with a higher rank, or in a window that starts at or after the earlier one's end. */
  lemma {:induction false} WindowsAreFixed(l: Limits, log: seq<Request>, i: nat, j: nat)
    requires i < j < |log| && l.window > 0 && TimeOrdered(log) && log[j].bucket == log[i].bucket
    ensures var a, b := CounterOf(l, log, i), CounterOf(l, log, j);
            || (b.expires == a.expires && b.count > a.count && log[j].at < a.expires)
            || (b.expires >= a.expires + l.window && log[j].at >= a.expires)
    decreases j
  {
    var k := PreviousInBucket(log, i, j);
    KeptUntilNext(l, log, k, j);
    if k > i {
      WindowsAreFixed(l, log, i, k);
    }
    InsideItsWindow(l, log, k);
  }

  // The last request of the bucket before j.
  lemma PreviousInBucket(log: seq<Request>, i: nat, j: nat) returns (k: nat)
    requires i < j < |log| && log[j].bucket == log[i].bucket
    ensures i <= k < j && log[k].bucket == log[j].bucket
    ensures forall m :: k < m < j ==> log[m].bucket != log[j].bucket
  {
    k := j - 1;
    while log[k].bucket != log[j].bucket
      invariant i <= k < j
      invariant forall m :: k < m < j ==> log[m].bucket != log[j].bucket
      decreases k
    {
      k := k - 1;
    }
  }

  // The admitted requests of one window.
  function AdmittedIn(l: Limits, log: seq<Request>, b: Bucket, expires: Time): set<nat> {
    set i: nat | i < |log| && log[i].bucket == b && CounterOf(l, log, i).expires == expires && Allowed(l, log, i)
  }

  // A set whose elements carry distinct labels from 1 to n has at most n elements.
  lemma {:induction false} DistinctLabels(x: set<nat>, mark: map<nat, nat>, n: nat)
    requires x <= mark.Keys && (forall i :: i in x ==> 1 <= mark[i] <= n)
    requires forall i, j :: i in x && j in x && mark[i] == mark[j] ==> i == j
    ensures |x| <= n
  {
    if n > 0 {
      if top :| top in x && mark[top] == n {
        DistinctLabels(x - {top}, mark, n - 1);
      } else {
        DistinctLabels(x, mark, n - 1);
      }
    } else {
      assert forall i :: i !in x;
    }
  }

  /** A window admits at most `quota` requests. */
  lemma WindowQuota(l: Limits, log: seq<Request>, b: Bucket, expires: Time)
    requires l.window > 0 && TimeOrdered(log)
    ensures |AdmittedIn(l, log, b, expires)| <= l.quota
  {
    var x := AdmittedIn(l, log, b, expires);
    var rank := map i | i in x :: CounterOf(l, log, i).count;
    forall i | i in x ensures 1 <= rank[i] <= l.quota {
      InsideItsWindow(l, log, i);
    }
    forall i, j | i in x && j in x && rank[i] == rank[j] ensures i == j {
      if i < j {
        WindowsAreFixed(l, log, i, j);
      } else if j < i {
        WindowsAreFixed(l, log, j, i);
      }
    }
    DistinctLabels(x, rank, l.quota);
  }

  function AdmittedBetween(l: Limits, log: seq<Request>, b: Bucket, from: Time, to: Time): set<nat> {
    set i: nat | i < |log| && log[i].bucket == b && from <= log[i].at <= to && Allowed(l, log, i)
  }

  /** No stretch of time as long as the window admits more than twice the quota. */
  lemma AnyIntervalQuota(l: Limits, log: seq<Request>, b: Bucket, from: Time)
    requires l.window > 0 && TimeOrdered(log)
    ensures |AdmittedBetween(l, log, b, from, from + l.window)| <= 2 * l.quota
  {
    var x := AdmittedBetween(l, log, b, from, from + l.window);
    if x != {} {
      var first := Least(x);
      var e1 := CounterOf(l, log, first).expires;
      var w1 := AdmittedIn(l, log, b, e1);
      WindowQuota(l, log, b, e1);
      var rest := x - w1;
      if rest == {} {
        assert forall i :: i in x ==> i !in rest;
        SubsetIsSmaller(x, w1);
      } else {
        var second := Least(rest);
        var e2 := CounterOf(l, log, second).expires;
        var w2 := AdmittedIn(l, log, b, e2);
        WindowQuota(l, log, b, e2);
        forall i | i in rest ensures i in w2 {
          TwoWindows(l, log, first, second, i);
        }
        SubsetIsSmaller(x, w1 + w2);
      }
    }
  }

  // Three requests within one window length cannot fall in three windows.
  lemma TwoWindows(l: Limits, log: seq<Request>, i: nat, j: nat, k: nat)
    requires l.window > 0 && TimeOrdered(log) && i < |log| && j < |log| && k < |log| && i < j <= k
    requires log[i].bucket == log[j].bucket == log[k].bucket && log[k].at <= log[i].at + l.window
    requires CounterOf(l, log, j).expires != CounterOf(l, log, i).expires
    ensures CounterOf(l, log, k).expires == CounterOf(l, log, j).expires
  {
    InsideItsWindow(l, log, i);
    WindowsAreFixed(l, log, i, j);
    if j < k {
      WindowsAreFixed(l, log, j, k);
    }
  }

  lemma Least(x: set<nat>) returns (m: nat)
    requires x != {}
    ensures m in x && forall i :: i in x ==> m <= i
  {
    m :| m in x;
    var rest := x - {m};
    while rest != {}
      invariant m in x && rest <= x && forall i :: i in x && i !in rest ==> m <= i
      decreases rest
    {
      var i :| i in rest;
      if i < m { m := i; }
      rest := rest - {i};
    }
  }

  /** A tenant that waits out the advertised `retry_after` is served: its first request at or after
      that time is admitted. */
  lemma RetryAfterIsHonoured(l: Limits, log: seq<Request>, i: nat, j: nat)
    requires l.window > 0 && l.quota > 0 && TimeOrdered(log) && i < j < |log| && log[j].bucket == log[i].bucket
    requires !Allowed(l, log, i)
    requires var retryAfter := CounterOf(l, log, i).expires - log[i].at;
             && log[j].at >= log[i].at + retryAfter
             && forall k :: i < k < j && log[k].bucket == log[i].bucket ==> log[k].at < log[i].at + retryAfter
    ensures Allowed(l, log, j) && CounterOf(l, log, j).count == 1
  {
    var k := PreviousInBucket(log, i, j);
    if k > i {
      WindowsAreFixed(l, log, i, k);
    }
    KeptUntilNext(l, log, k, j);
  }

  /** One bucket's verdicts do not depend on the other buckets' requests. */
  lemma {:induction false} BucketsAreIndependent(l: Limits, log: seq<Request>, n: nat, b: Bucket)
    requires n <= |log|
    ensures var all, own := After(l, log, n), After(l, OwnRequests(log[..n], b), |OwnRequests(log[..n], b)|);
            (b in all <==> b in own) && (b in all ==> all[b] == own[b])
  {
    if n > 0 {
      BucketsAreIndependent(l, log, n - 1, b);
      assert log[..n][..n - 1] == log[..n - 1];
      var own := OwnRequests(log[..n - 1], b);
      AfterPrefix(l, own, OwnRequests(log[..n], b), |own|);
    }
  }

  function OwnRequests(log: seq<Request>, b: Bucket): seq<Request> {
    if log == [] then []
    else OwnRequests(log[..|log| - 1], b) + (if log[|log| - 1].bucket == b then [log[|log| - 1]] else [])
  }

  lemma {:induction false} AfterPrefix(l: Limits, a: seq<Request>, log: seq<Request>, n: nat)
    requires a <= log && n <= |a|
    ensures After(l, a, n) == After(l, log, n)
  {
    if n > 0 {
      AfterPrefix(l, a, log, n - 1);
    }
  }
}
