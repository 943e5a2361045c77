/** The in-memory limiter of the slash commands: a pruned queue of grant times per key. */
module SlidingLimiter {
  import opened Sums

  /** How many of the times lie in (low, high]. */
  function CountIn(g: seq<real>, low: real, high: real): nat {
    if g == [] then 0
    else CountIn(g[..|g| - 1], low, high) + if low < g[|g| - 1] <= high then 1 else 0
  }

  ghost predicate Sorted(g: seq<real>) {
    forall i, j :: 0 <= i < j < |g| ==> g[i] <= g[j]
  }

  /** The naive limiter, which remembers every grant: the grants after a series of attempts. */
  function Grants(attempts: seq<real>, capacity: nat, window: real): seq<real> {
    if attempts == [] then []
    else
      Decide(Grants(attempts[..|attempts| - 1], capacity, window), attempts[|attempts| - 1], capacity, window)
  }

  /** Grant when fewer than `capacity` of the past grants `g` lie in (now - window, now]. */
  function Decide(g: seq<real>, now: real, capacity: nat, window: real): seq<real> {
    if CountIn(g, now - window, now) < capacity then g + [now] else g
  }

  // ----- the naive limiter keeps every window within the capacity -----

  ghost predicate Within(g: seq<real>, attempts: seq<real>) {
    Sorted(g) && forall i :: 0 <= i < |g| ==> g[i] in attempts
  }

  lemma {:induction false} GrantsAreAttempts(attempts: seq<real>, capacity: nat, window: real)
    requires Sorted(attempts)
    ensures Within(Grants(attempts, capacity, window), attempts)
    decreases |attempts|
  {
    if attempts != [] {
      GrantsAreAttempts(attempts[..|attempts| - 1], capacity, window);
      DecideWithin(Grants(attempts[..|attempts| - 1], capacity, window), attempts, capacity, window);
    }
  }

  lemma DecideWithin(g: seq<real>, attempts: seq<real>, capacity: nat, window: real)
    requires Sorted(attempts) && attempts != [] && Within(g, attempts[..|attempts| - 1])
    ensures Within(Decide(g, attempts[|attempts| - 1], capacity, window), attempts)
  {
    forall i | 0 <= i < |g|
      ensures g[i] in attempts && g[i] <= attempts[|attempts| - 1]
    {
      BeforeLast(attempts, g[i]);
    }
  }

  lemma BeforeLast(attempts: seq<real>, x: real)
    requires Sorted(attempts) && attempts != [] && x in attempts[..|attempts| - 1]
    ensures x in attempts && x <= attempts[|attempts| - 1]
  {
  }

  /** Raising the lower end and lowering the upper end never counts more. */
  lemma {:induction false} CountNarrow(g: seq<real>, low: real, high: real, low': real, high': real)
    requires low <= low' && high' <= high
    ensures CountIn(g, low', high') <= CountIn(g, low, high)
    decreases |g|
  {
    if g != [] {
      CountNarrow(g[..|g| - 1], low, high, low', high');
    }
  }

  /** A sorted series has nothing above its last element. */
  lemma {:induction false} CountCapped(g: seq<real>, low: real, high: real, last: real)
    requires forall i :: 0 <= i < |g| ==> g[i] <= last
    ensures CountIn(g, low, high) <= CountIn(g, low, last)
    decreases |g|
  {
    if g != [] {
      CountCapped(g[..|g| - 1], low, high, last);
    }
  }

  /** Every window (t - w, t], at any time t, holds at most `capacity` grants. */
  lemma {:induction false} EveryWindowIsWithinCapacity(attempts: seq<real>, capacity: nat, window: real, t: real)
    requires Sorted(attempts) && capacity > 0 && window > 0.0
    ensures CountIn(Grants(attempts, capacity, window), t - window, t) <= capacity
    decreases |attempts|
  {
    if attempts != [] {
      var front, now := attempts[..|attempts| - 1], attempts[|attempts| - 1];
      var g := Grants(front, capacity, window);
      EveryWindowIsWithinCapacity(front, capacity, window, t);
      GrantsAreAttempts(front, capacity, window);
      forall i | 0 <= i < |g|
        ensures g[i] <= now
      {
        BeforeLast(attempts, g[i]);
      }
      DecideKeepsWindow(g, now, capacity, window, t);
    }
  }

  lemma DecideKeepsWindow(g: seq<real>, now: real, capacity: nat, window: real, t: real)
    requires forall i :: 0 <= i < |g| ==> g[i] <= now
    requires CountIn(g, t - window, t) <= capacity
    ensures CountIn(Decide(g, now, capacity, window), t - window, t) <= capacity
  {
    assert (g + [now])[..|g|] == g;
    if now <= t {
      CountCapped(g, t - window, t, now);
      CountNarrow(g, now - window, now, t - window, now);
    }
  }

  /** Each attempt has fewer than `capacity` earlier ones in the window it closes. */
  predicate Sparse(attempts: seq<real>, capacity: nat, window: real) {
    attempts == []
    || (var front, now := attempts[..|attempts| - 1], attempts[|attempts| - 1];
        Sparse(front, capacity, window) && CountIn(front, now - window, now) < capacity)
  }

  /** Attempts that are never too dense are all granted. */
  lemma {:induction false} SparseAttemptsAreGranted(attempts: seq<real>, capacity: nat, window: real)
    requires Sparse(attempts, capacity, window)
    ensures Grants(attempts, capacity, window) == attempts
    decreases |attempts|
  {
    if attempts != [] {
      SparseAttemptsAreGranted(attempts[..|attempts| - 1], capacity, window);
    }
  }

  // ----- the pruned queue decides like the naive limiter -----

  lemma {:induction false} CountSuffix(g: seq<real>, k: nat, low: real, high: real)
    requires k <= |g|
    requires forall i :: 0 <= i < k ==> g[i] <= low
    requires forall i :: k <= i < |g| ==> low < g[i] <= high
    ensures CountIn(g, low, high) == |g| - k
    decreases |g|
  {
    if g != [] {
      CountSuffix(g[..|g| - 1], if k < |g| then k else k - 1, low, high);
    }
  }

  /** `r` is `s` without its first `n` elements. */
  predicate Tail(r: seq<real>, s: seq<real>, n: nat) {
    n + |r| == |s| && forall i :: 0 <= i < |r| ==> r[i] == s[n + i]
  }

  /** The queue holds the latest grants; every grant it dropped is out of the window for good. */
  ghost predicate QueueOk(attempts: seq<real>, grants: seq<real>, bucket: seq<real>, window: real) {
    exists d :: 0 <= d <= |grants| && QueueFrom(attempts, grants, bucket, window, d)
  }

  ghost predicate QueueFrom(attempts: seq<real>, grants: seq<real>, bucket: seq<real>, window: real, d: nat)
    requires d <= |grants|
  {
    && Tail(bucket, grants, d)
    && (d > 0 ==> attempts != [] && grants[d - 1] <= attempts[|attempts| - 1] - window)
  }

  ghost predicate PrunedBy(bucket: seq<real>, cutoff: real, r: seq<real>, n: nat) {
    Tail(r, bucket, n) && (n > 0 ==> bucket[n - 1] <= cutoff) && (r != [] ==> r[0] > cutoff)
  }

  /** `while bucket and bucket[0] <= cutoff: bucket.popleft()`. */
  method Prune(bucket: seq<real>, cutoff: real) returns (r: seq<real>, n: nat)
    ensures PrunedBy(bucket, cutoff, r, n)
  {
    r, n := bucket, 0;
    while r != [] && r[0] <= cutoff
      invariant Tail(r, bucket, n)
      invariant n > 0 ==> bucket[n - 1] <= cutoff
      decreases |r|
    {
      r, n := r[1..], n + 1;
    }
  }

  /** After pruning, the length of the queue is the naive count over all past grants. */
  lemma PrunedQueueCounts(attempts: seq<real>, now: real, g: seq<real>, window: real, bucket: seq<real>, r: seq<real>,
      n: nat)
    requires Sorted(g) && (forall i :: 0 <= i < |g| ==> g[i] <= now)
    requires attempts != [] ==> attempts[|attempts| - 1] <= now
    requires QueueOk(attempts, g, bucket, window) && PrunedBy(bucket, now - window, r, n)
    ensures CountIn(g, now - window, now) == |r|
    ensures QueueOk(attempts + [now], g, r, window)
    ensures QueueOk(attempts + [now], g + [now], r + [now], window)
  {
    var d :| 0 <= d <= |g| && QueueFrom(attempts, g, bucket, window, d);
    var k := d + n;
    DroppedAreStale(attempts, now, g, window, bucket, r, d, n);
    CountSuffix(g, k, now - window, now);
    QueueMoves(attempts, now, g, r, window, k);
  }

  lemma QueueMoves(attempts: seq<real>, now: real, g: seq<real>, r: seq<real>, window: real, k: nat)
    requires k <= |g| && Tail(r, g, k) && (k > 0 ==> g[k - 1] <= now - window)
    ensures QueueOk(attempts + [now], g, r, window)
    ensures QueueOk(attempts + [now], g + [now], r + [now], window)
  {
    assert QueueFrom(attempts + [now], g, r, window, k);
    assert QueueFrom(attempts + [now], g + [now], r + [now], window, k);
  }

  lemma DroppedAreStale(attempts: seq<real>, now: real, g: seq<real>, window: real, bucket: seq<real>, r: seq<real>,
      d: nat, n: nat)
    requires Sorted(g) && d <= |g| && QueueFrom(attempts, g, bucket, window, d) && PrunedBy(bucket, now - window, r, n)
    requires attempts != [] ==> attempts[|attempts| - 1] <= now
    ensures Tail(r, g, d + n)
    ensures forall i :: 0 <= i < d + n ==> g[i] <= now - window
    ensures forall i :: d + n <= i < |g| ==> g[i] > now - window
  {
    var k := d + n;
    if n > 0 {
      assert g[k - 1] == bucket[n - 1];
    }
    if r != [] {
      assert g[k] == bucket[n] == r[0];
    }
  }

  /** What ties a key's queue to all attempts made with that key. */
  ghost predicate KeyOk(attempts: seq<real>, bucket: seq<real>, capacity: nat, window: real) {
    Sorted(attempts) && QueueOk(attempts, Grants(attempts, capacity, window), bucket, window)
  }

  lemma GrantsStep(attempts: seq<real>, now: real, capacity: nat, window: real)
    ensures var g := Grants(attempts, capacity, window);
      Grants(attempts + [now], capacity, window) == Decide(g, now, capacity, window)
  {
    var all := attempts + [now];
    assert all != [] && all[|all| - 1] == now && all[..|all| - 1] == attempts;
  }

  /** One call on one key's queue. */
  method AcquireOne(bucket: seq<real>, ghost attempts: seq<real>, now: real, capacity: nat, window: real)
    returns (granted: bool, bucket': seq<real>)
    requires KeyOk(attempts, bucket, capacity, window) && Sorted(attempts + [now])
    ensures KeyOk(attempts + [now], bucket', capacity, window)
    ensures granted <==> CountIn(Grants(attempts, capacity, window), now - window, now) < capacity
  {
    var pruned, n := Prune(bucket, now - window);
    ghost var g := Grants(attempts, capacity, window);
    GrantsSorted(attempts, now, capacity, window);
    PrunedQueueCounts(attempts, now, g, window, bucket, pruned, n);
    GrantsStep(attempts, now, capacity, window);
    granted := |pruned| < capacity;
    bucket' := if granted then pruned + [now] else pruned;
  }

  lemma GrantsSorted(attempts: seq<real>, now: real, capacity: nat, window: real)
    requires Sorted(attempts + [now])
    ensures var g := Grants(attempts, capacity, window);
      Sorted(g) && forall i :: 0 <= i < |g| ==> g[i] <= now
    ensures attempts != [] ==> attempts[|attempts| - 1] <= now
  {
    var all := attempts + [now];
    assert attempts != [] ==> all[|attempts| - 1] <= all[|attempts|];
    assert all[..|attempts|] == attempts;
    assert Sorted(attempts) by {
      forall i, j | 0 <= i < j < |attempts|
        ensures attempts[i] <= attempts[j]
      {
        assert all[i] <= all[j];
      }
    }
    GrantsAreAttempts(attempts, capacity, window);
    var g := Grants(attempts, capacity, window);
    forall i | 0 <= i < |g|
      ensures g[i] <= now
    {
      BeforeLast(all, g[i]);
    }
  }

  ghost predicate QueuesOk<Key(!new)>(attempts: map<Key, seq<real>>, buckets: map<Key, seq<real>>, capacity: nat,
      window: real) {
    && buckets.Keys == attempts.Keys
    && forall k :: k in buckets ==> KeyOk(attempts[k], buckets[k], capacity, window)
  }

  function Get<Key(==)>(m: map<Key, seq<real>>, key: Key): seq<real> {
    if key in m then m[key] else []
  }

  lemma GetQueue<Key(!new)>(attempts: map<Key, seq<real>>, buckets: map<Key, seq<real>>, key: Key, capacity: nat,
      window: real)
    requires QueuesOk(attempts, buckets, capacity, window)
    ensures KeyOk(Get(attempts, key), Get(buckets, key), capacity, window)
  {
    EmptyQueueOk(capacity, window);
  }

  lemma PutQueue<Key(!new)>(attempts: map<Key, seq<real>>, buckets: map<Key, seq<real>>, key: Key,
      a: seq<real>, b: seq<real>, capacity: nat, window: real)
    requires QueuesOk(attempts, buckets, capacity, window) && KeyOk(a, b, capacity, window)
    ensures QueuesOk(attempts[key := a], buckets[key := b], capacity, window)
  {
  }

  /** One call on the table of queues. */
  method AcquireKey<Key(==, !new)>(buckets: map<Key, seq<real>>, ghost attempts: map<Key, seq<real>>, key: Key,
      now: real, capacity: nat, window: real)
    returns (granted: bool, buckets': map<Key, seq<real>>, ghost attempts': map<Key, seq<real>>)
    requires QueuesOk(attempts, buckets, capacity, window) && Sorted(Get(attempts, key) + [now])
    ensures QueuesOk(attempts', buckets', capacity, window)
    ensures attempts' == attempts[key := Get(attempts, key) + [now]]
    ensures granted <==> CountIn(Grants(Get(attempts, key), capacity, window), now - window, now) < capacity
  {
    GetQueue(attempts, buckets, key, capacity, window);
    var bucket;
    granted, bucket := AcquireOne(Get(buckets, key), Get(attempts, key), now, capacity, window);
    attempts' := attempts[key := Get(attempts, key) + [now]];
    buckets' := buckets[key := bucket];
    PutQueue(attempts, buckets, key, Get(attempts, key) + [now], bucket, capacity, window);
  }

  class FixedWindowLimiter<Key(==, !new)> {
    const capacity: nat
    const window: real
    var buckets: map<Key, seq<real>>
    /** Every attempt so far, per key. */
    ghost var attempts: map<Key, seq<real>>

    ghost function AttemptsOf(k: Key): seq<real>
      reads this
    {
      Get(attempts, k)
    }

    ghost predicate Valid()
      reads this
    {
      capacity > 0 && window > 0.0 && QueuesOk(attempts, buckets, capacity, window)
    }

    constructor (capacity: nat, window: real)
      requires capacity > 0 && window > 0.0
      ensures Valid() && this.capacity == capacity && this.window == window && attempts == map[]
    {
      this.capacity, this.window := capacity, window;
      buckets, attempts := map[], map[];
    }

    /** Grants exactly when fewer than `capacity` of all past grants lie in (now - window, now]. */
    method Acquire(key: Key, now: real) returns (granted: bool)
      requires Valid() && Sorted(AttemptsOf(key) + [now])
      modifies this
      ensures Valid()
      ensures attempts == old(attempts)[key := old(AttemptsOf(key)) + [now]]
      ensures granted <==> CountIn(Grants(old(AttemptsOf(key)), capacity, window), now - window, now) < capacity
    {
      granted, buckets, attempts := AcquireKey(buckets, attempts, key, now, capacity, window);
    }
  }

  lemma EmptyQueueOk(capacity: nat, window: real)
    ensures KeyOk([], [], capacity, window)
  {
    assert QueueFrom([], [], [], window, 0);
  }

  /** `__init__` refuses a capacity or a window that is not positive. */
  method NewLimiter(capacity: int, window: real) returns (r: Option<FixedWindowLimiter<string>>)
    ensures r.Some? <==> capacity > 0 && window > 0.0
    ensures r.Some? ==> fresh(r.value) && r.value.Valid() && r.value.capacity == capacity && r.value.window == window
  {
    if capacity <= 0 || window <= 0.0 {
      return None;
    }
    var l := new FixedWindowLimiter<string>(capacity, window);
    return Some(l);
  }
}
