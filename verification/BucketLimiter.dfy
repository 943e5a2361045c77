/** `luck.consume_rate_token`: counters in epoch-aligned buckets. */
module BucketLimiter {
  import opened Arithmetic

  type User = int

  /** One call at time `now`, in seconds since the epoch. */
  datatype Call = Call(user: User, scope: string, window: int, max: int, now: real)

  /** `EXTRACT(EPOCH FROM NOW())::BIGINT` rounds to the nearest second. */
  function Seconds(now: real): int {
    (now + 0.5).Floor
  }

  function BucketStart(now: real, window: int): int
    requires window > 0
  {
    Seconds(now) / window * window
  }

  predicate ValidArgs(c: Call) {
    c.window > 0 && c.max > 0 && c.now >= 0.0
  }

  predicate Hits(c: Call, user: User, scope: string, bucket: int) {
    ValidArgs(c) && c.user == user && c.scope == scope && BucketStart(c.now, c.window) == bucket
  }

  /** How many calls have counted in a bucket row. */
  function Used(calls: seq<Call>, user: User, scope: string, bucket: int): nat {
    if calls == [] then 0
    else
      Used(calls[..|calls| - 1], user, scope, bucket)
      + if Hits(calls[|calls| - 1], user, scope, bucket) then 1 else 0
  }

  /** Whether the last of the calls is granted. */
  predicate LastGranted(calls: seq<Call>)
    requires calls != []
  {
    var c := calls[|calls| - 1];
    ValidArgs(c) && Used(calls, c.user, c.scope, BucketStart(c.now, c.window)) <= c.max
  }

  function GrantedInBucket(calls: seq<Call>, user: User, scope: string, bucket: int): nat {
    if calls == [] then 0
    else
      GrantedInBucket(calls[..|calls| - 1], user, scope, bucket)
      + if Hits(calls[|calls| - 1], user, scope, bucket) && LastGranted(calls) then 1 else 0
  }

  function GrantedInSpan(calls: seq<Call>, user: User, scope: string, from: real, to: real): nat {
    if calls == [] then 0
    else
      var c := calls[|calls| - 1];
      GrantedInSpan(calls[..|calls| - 1], user, scope, from, to)
      + if c.user == user && c.scope == scope && from <= c.now <= to && LastGranted(calls) then 1 else 0
  }

  /** Every call for this user and scope uses the same arguments. */
  predicate FixedArgs(calls: seq<Call>, user: User, scope: string, window: int, max: int) {
    forall i :: 0 <= i < |calls| && calls[i].user == user && calls[i].scope == scope ==>
      calls[i].window == window && calls[i].max == max && calls[i].now >= 0.0
  }

  /** The clock is rounded to the nearest second, and a bucket starts at the last multiple of the window. */
  lemma BucketHoldsClock(now: real, window: int)
    requires window > 0 && now >= 0.0
    ensures var second, start := Seconds(now), BucketStart(now, window);
      && second as real - 0.5 <= now < second as real + 0.5
      && start <= second < start + window && start % window == 0
  {
    var q := Seconds(now) / window;
    DivIs(q * window, window, q, 0);
  }

  /** In whatever order the clock readings arrive, a bucket grants its first `max` calls and no more. */
  lemma {:induction false} BucketGrantsFirstMax(calls: seq<Call>, user: User, scope: string, window: int, max: int,
      bucket: int)
    requires window > 0 && max > 0 && FixedArgs(calls, user, scope, window, max)
    ensures var used := Used(calls, user, scope, bucket);
      GrantedInBucket(calls, user, scope, bucket) == if used <= max then used else max
    decreases |calls|
  {
    if calls != [] {
      BucketGrantsFirstMax(calls[..|calls| - 1], user, scope, window, max, bucket);
    }
  }

  lemma TwoBuckets(from: real, now: real, window: int)
    requires window > 0 && 0.0 <= from <= now <= from + window as real
    ensures BucketStart(now, window) in {BucketStart(from, window), BucketStart(from, window) + window}
  {
    var low, r := Seconds(from), Seconds(now);
    assert Seconds(from + window as real) == low + window;
    assert low <= r <= low + window;
    NextQuotient(low, r, window);
  }

  lemma NextQuotient(low: nat, r: nat, m: nat)
    requires m > 0 && low <= r <= low + m
    ensures r / m * m == low / m * m || r / m * m == low / m * m + m
  {
    var q, c := low / m, low % m;
    assert low == q * m + c;
    if r < q * m + m {
      DivIs(r, m, q, r - q * m);
    } else {
      assert (q + 1) * m == q * m + m;
      DivIs(r, m, q + 1, r - q * m - m);
    }
  }

  /** A span of one window length touches two buckets, so it holds at most twice `max` grants. */
  lemma SpanGrantsAtMostTwiceMax(calls: seq<Call>, user: User, scope: string, window: int, max: int, from: real)
    requires window > 0 && max > 0 && from >= 0.0 && FixedArgs(calls, user, scope, window, max)
    ensures GrantedInSpan(calls, user, scope, from, from + window as real) <= 2 * max
  {
    var b := BucketStart(from, window);
    SpanWithinTwoBuckets(calls, user, scope, window, max, from);
    BucketGrantsFirstMax(calls, user, scope, window, max, b);
    BucketGrantsFirstMax(calls, user, scope, window, max, b + window);
  }

  lemma {:induction false} SpanWithinTwoBuckets(calls: seq<Call>, user: User, scope: string, window: int, max: int,
      from: real)
    requires window > 0 && max > 0 && from >= 0.0 && FixedArgs(calls, user, scope, window, max)
    ensures var b := BucketStart(from, window);
      GrantedInSpan(calls, user, scope, from, from + window as real)
      <= GrantedInBucket(calls, user, scope, b) + GrantedInBucket(calls, user, scope, b + window)
    decreases |calls|
  {
    if calls != [] {
      var c := calls[|calls| - 1];
      SpanWithinTwoBuckets(calls[..|calls| - 1], user, scope, window, max, from);
      if c.user == user && c.scope == scope && from <= c.now <= from + window as real {
        TwoBuckets(from, c.now, window);
      }
    }
  }

  datatype Reply = Answer(granted: bool) | InvalidRateLimitArgs

  class RateTable {
    /** `luck.rate_limit_entries`, keyed by its UNIQUE constraint. */
    var entries: map<(User, string, int), int>
    ghost var calls: seq<Call>

    ghost predicate Valid()
      reads this
    {
      forall u, s, b :: Count(entries, u, s, b) == Used(calls, u, s, b)
    }

    constructor ()
      ensures Valid() && calls == []
    {
      entries, calls := map[], [];
    }

    method ConsumeRateToken(c: Call) returns (r: Reply)
      requires Valid() && c.now >= 0.0
      modifies this
      ensures Valid() && calls == old(calls) + [c]
      ensures r == if c.window <= 0 || c.max <= 0 then InvalidRateLimitArgs else Answer(LastGranted(calls))
    {
      ghost var before := calls;
      calls := calls + [c];
      assert calls[..|before|] == before;
      if c.window <= 0 || c.max <= 0 {
        return InvalidRateLimitArgs;
      }
      var key := (c.user, c.scope, BucketStart(c.now, c.window));
      var count := if key in entries then entries[key] + 1 else 1;
      entries := entries[key := count];
      return Answer(count <= c.max);
    }
  }

  function Count(entries: map<(User, string, int), int>, u: User, s: string, b: int): int {
    if (u, s, b) in entries then entries[(u, s, b)] else 0
  }
}
