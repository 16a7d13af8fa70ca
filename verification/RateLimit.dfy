/** The rate limiter (koraku/core/rate_limit.py): a sliding window kept in memory, and the fixed windows
    that workers share through Redis (koraku/core/redis_client.py). Clock readings are real numbers. */
module RateLimit {
  import opened Wrappers

  datatype Limit = Limit(key: string, limit: int, window: real)

  datatype Answer = Accepted | TooMany(retryAfter: int)

  /** A shared counter and when it expires. */
  datatype Counter = Counter(count: nat, expires: real)

  /** The counter's name: the limit's key and the number of the window. */
  type CounterKey = (string, int)

  /** `int(x)` */
  function Trunc(x: real): int {
    if x >= 0.0 then x.Floor else -((-x).Floor)
  }

  function AtLeastOne(x: int): (r: int)
    ensures r >= 1 && r >= x && (r == 1 || r == x)
  {
    if x < 1 then 1 else x
  }

  // The sliding window.

  function Trim(bucket: seq<real>, cutoff: real): seq<real>
    decreases |bucket|
  {
    if bucket != [] && bucket[0] < cutoff then Trim(bucket[1..], cutoff) else bucket
  }

  /** One request at `now`: the bucket behind it, and whether it is accepted. */
  function Enforce(max: int, window: real, bucket: seq<real>, now: real): (seq<real>, bool) {
    var recent := Trim(bucket, now - window);
    if |recent| >= max then (recent, false) else (recent + [now], true)
  }

  // The fixed windows.

  /** `increment_with_ttl`: the expiry is set only with the first write. */
  function Increment(store: map<CounterKey, Counter>, key: CounterKey, ttl: int, now: real)
      : (map<CounterKey, Counter>, nat)
  {
    if key in store && now < store[key].expires
    then (store[key := Counter(store[key].count + 1, store[key].expires)], store[key].count + 1)
    else (store[key := Counter(1, now + AtLeastOne(ttl) as real)], 1)
  }

  /** `int(now) // w` */
  function WindowOf(now: real, w: int): int
    requires w >= 1
  {
    Trunc(now) / w
  }

  // The code.

  class RateLimiter {
    var hits: map<string, seq<real>>
    var store: map<CounterKey, Counter>

    ghost function Bucket(key: string): seq<real>
      reads this`hits
    {
      if key in hits then hits[key] else []
    }

    constructor ()
      ensures hits == map[] && store == map[]
    {
      hits, store := map[], map[];
    }

    /** `_enforce_in_memory` */
    method EnforceInMemory(limit: Limit, now: real) returns (answer: Answer)
      modifies this`hits
      ensures hits == old(hits)[limit.key := Enforce(limit.limit, limit.window, old(Bucket(limit.key)), now).0]
      ensures answer.Accepted? <==> Enforce(limit.limit, limit.window, old(Bucket(limit.key)), now).1
      ensures answer.TooMany? && limit.limit > 0 && (forall x :: x in old(Bucket(limit.key)) ==> x <= now) ==>
                1 <= answer.retryAfter <= AtLeastOne(Trunc(limit.window))
    {
      var cutoff := now - limit.window;
      var bucket := if limit.key in hits then hits[limit.key] else [];
      while bucket != [] && bucket[0] < cutoff
        invariant Trim(bucket, cutoff) == Trim(old(Bucket(limit.key)), cutoff)
        invariant forall x :: x in bucket ==> x in old(Bucket(limit.key))
        decreases |bucket|
      {
        bucket := bucket[1..];
      }
      if |bucket| >= limit.limit {
        hits := hits[limit.key := bucket];
        if bucket == [] {
          return TooMany(Trunc(limit.window));
        }
        assert bucket[0] in bucket;
        return TooMany(AtLeastOne(Trunc(limit.window - (now - bucket[0]))));
      }
      hits := hits[limit.key := bucket + [now]];
      answer := Accepted;
    }

    /** `enforce_rate_limit`. `configured` and `reachable` say whether Redis is set up and answers. */
    method EnforceRateLimit(limit: Limit, monotonic: real, wall: real, configured: bool, reachable: bool)
        returns (answer: Answer)
      modifies this
      ensures limit.limit <= 0 ==> answer.Accepted? && hits == old(hits) && store == old(store)
      ensures limit.limit > 0 && !(configured && reachable) ==>
                && store == old(store)
                && hits == old(hits)[limit.key := Enforce(limit.limit, limit.window, old(Bucket(limit.key)), monotonic).0]
                && (answer.Accepted? <==> Enforce(limit.limit, limit.window, old(Bucket(limit.key)), monotonic).1)
      ensures limit.limit > 0 && configured && reachable ==>
                var w := AtLeastOne(Trunc(limit.window));
                var (after, count) := Increment(old(store), (limit.key, WindowOf(wall, w)), w + 5, wall);
                hits == old(hits) && store == after && answer == if count <= limit.limit then Accepted else TooMany(w)
    {
      if limit.limit <= 0 {
        return Accepted;
      }
      if configured {
        var window := AtLeastOne(Trunc(limit.window));
        if !reachable {
          answer := EnforceInMemory(limit, monotonic);
          return;
        }
        var count;
        store, count := Increment(store, (limit.key, WindowOf(wall, window)), window + 5, wall).0,
                        Increment(store, (limit.key, WindowOf(wall, window)), window + 5, wall).1;
        if count > limit.limit {
          return TooMany(window);
        }
        return Accepted;
      }
      answer := EnforceInMemory(limit, monotonic);
    }
  }

  // Runs of the sliding window.

  /** How many of `h` lie in the closed interval from `lo` to `hi`. */
  function InWindow(h: seq<real>, lo: real, hi: real): nat {
    if h == [] then 0
    else InWindow(h[..|h| - 1], lo, hi) + if lo <= h[|h| - 1] <= hi then 1 else 0
  }

  predicate Nondecreasing(s: seq<real>) {
    forall i, j :: 0 <= i < j < |s| ==> s[i] <= s[j]
  }

  /** The bucket behind the first `i` requests at `times`. */
  function BucketAfter(max: int, window: real, times: seq<real>, i: nat): seq<real>
    requires i <= |times|
  {
    if i == 0 then [] else Enforce(max, window, BucketAfter(max, window, times, i - 1), times[i - 1]).0
  }

  predicate Accepts(max: int, window: real, times: seq<real>, i: nat)
    requires i < |times|
  {
    Enforce(max, window, BucketAfter(max, window, times, i), times[i]).1
  }

  /** The full history: the accepted ones of the first `i` requests. */
  function History(max: int, window: real, times: seq<real>, i: nat): seq<real>
    requires i <= |times|
  {
    if i == 0 then []
    else History(max, window, times, i - 1) + if Accepts(max, window, times, i - 1) then [times[i - 1]] else []
  }

  lemma {:induction false} TrimTwice(h: seq<real>, c: real, d: real)
    requires c <= d
    ensures Trim(Trim(h, c), d) == Trim(h, d)
    decreases |h|
  {
    if h != [] && h[0] < c {
      TrimTwice(h[1..], c, d);
    }
  }

  lemma {:induction false} TrimAppend(h: seq<real>, c: real, x: real)
    requires c <= x
    ensures Trim(h + [x], c) == Trim(h, c) + [x]
    decreases |h|
  {
    if h == [] {
      assert h + [x] == [x];
    } else if h[0] < c {
      assert (h + [x])[1..] == h[1..] + [x];
      TrimAppend(h[1..], c, x);
    }
  }

  lemma {:induction false} InWindowFront(h: seq<real>, lo: real, hi: real)
    requires h != []
    ensures InWindow(h, lo, hi) == (if lo <= h[0] <= hi then 1 else 0) + InWindow(h[1..], lo, hi)
    decreases |h|
  {
    if |h| > 1 {
      assert h[..|h| - 1][1..] == h[1..][..|h| - 2];
      InWindowFront(h[..|h| - 1], lo, hi);
    } else {
      assert h[..0] == [] && h[1..] == [];
    }
  }

  /** What is left of a sorted history is what lies in the window. */
  lemma {:induction false} TrimCounts(h: seq<real>, lo: real, hi: real)
    requires Nondecreasing(h) && forall k :: 0 <= k < |h| ==> h[k] <= hi
    ensures |Trim(h, lo)| == InWindow(h, lo, hi)
    decreases |h|
  {
    if h != [] {
      InWindowFront(h, lo, hi);
      TrimCounts(h[1..], lo, hi);
      if h[0] >= lo {
        assert Trim(h[1..], lo) == h[1..];
      }
    }
  }

  /** The deque is the part of the full history that the latest window still holds. */
  ghost predicate Refines(max: int, window: real, times: seq<real>, i: nat)
    requires i <= |times|
  {
    var h := History(max, window, times, i);
    && Nondecreasing(h)
    && (i == 0 ==> h == [] && BucketAfter(max, window, times, i) == [])
    && (i > 0 ==>
          && (forall k :: 0 <= k < |h| ==> h[k] <= times[i - 1])
          && BucketAfter(max, window, times, i) == Trim(h, times[i - 1] - window))
  }

  lemma NextTrim(max: int, window: real, times: seq<real>, i: nat)
    requires i < |times| && Nondecreasing(times) && Refines(max, window, times, i)
    ensures Trim(BucketAfter(max, window, times, i), times[i] - window) ==
              Trim(History(max, window, times, i), times[i] - window)
  {
    hide Trim, History, BucketAfter;
    if i > 0 {
      TrimTwice(History(max, window, times, i), times[i - 1] - window, times[i] - window);
    }
  }

  lemma OneRequest(max: int, window: real, times: seq<real>, i: nat)
    requires i < |times|
    ensures var recent := Trim(BucketAfter(max, window, times, i), times[i] - window);
            var added := if Accepts(max, window, times, i) then [times[i]] else [];
            && (Accepts(max, window, times, i) <==> |recent| < max)
            && BucketAfter(max, window, times, i + 1) == recent + added
            && History(max, window, times, i + 1) == History(max, window, times, i) + added
  {
    hide Trim;
  }

  lemma RefinesNext(max: int, window: real, times: seq<real>, i: nat)
    requires i < |times| && Nondecreasing(times) && window >= 0.0 && Refines(max, window, times, i)
    ensures Refines(max, window, times, i + 1)
  {
    hide Trim, BucketAfter, History, Accepts;
    NextTrim(max, window, times, i);
    OneRequest(max, window, times, i);
    var h, now := History(max, window, times, i), times[i];
    assert forall k :: 0 <= k < |h| ==> h[k] <= now;
    if Accepts(max, window, times, i) {
      TrimAppend(h, now - window, now);
    } else {
      assert h + [] == h;
    }
  }

  lemma {:induction false} DequeRefinesHistory(max: int, window: real, times: seq<real>, i: nat)
    requires i <= |times| && Nondecreasing(times) && window >= 0.0
    ensures Refines(max, window, times, i)
    decreases i
  {
    hide *;
    if i == 0 {
      RefinesStart(max, window, times);
    } else {
      DequeRefinesHistory(max, window, times, i - 1);
      RefinesNext(max, window, times, i - 1);
    }
  }

  lemma RefinesStart(max: int, window: real, times: seq<real>)
    ensures Refines(max, window, times, 0)
  {
  }

  lemma {:induction false} TrimAll(h: seq<real>, cutoff: real)
    requires forall k :: 0 <= k < |h| ==> h[k] < cutoff
    ensures Trim(h, cutoff) == []
    decreases |h|
  {
    if h != [] {
      TrimAll(h[1..], cutoff);
    }
  }

  lemma {:induction false} TrimKeepsOrder(h: seq<real>, cutoff: real, top: real)
    requires forall k :: 0 <= k < |h| ==> h[k] <= top
    ensures forall k :: 0 <= k < |Trim(h, cutoff)| ==> Trim(h, cutoff)[k] <= top
    decreases |h|
  {
    if h != [] && h[0] < cutoff {
      TrimKeepsOrder(h[1..], cutoff, top);
    }
  }

  lemma {:induction false} BucketIsPast(max: int, window: real, times: seq<real>, i: nat)
    requires 0 < i <= |times| && Nondecreasing(times)
    ensures forall k :: 0 <= k < |BucketAfter(max, window, times, i)| ==>
              BucketAfter(max, window, times, i)[k] <= times[i - 1]
    decreases i
  {
    hide Trim, History;
    OneRequest(max, window, times, i - 1);
    if i > 1 {
      BucketIsPast(max, window, times, i - 1);
      TrimKeepsOrder(BucketAfter(max, window, times, i - 1), times[i - 1] - window, times[i - 1]);
    } else {
      TrimAll([], times[0] - window);
    }
  }

  lemma {:induction false} EmptyInterval(h: seq<real>, lo: real, hi: real)
    requires hi < lo
    ensures InWindow(h, lo, hi) == 0
    decreases |h|
  {
    if h != [] {
      EmptyInterval(h[..|h| - 1], lo, hi);
    }
  }

  /** A request is accepted exactly when fewer than `max` accepted ones lie in the window that it closes. */
  lemma AcceptedIffRoom(max: int, window: real, times: seq<real>, i: nat)
    requires i < |times| && Nondecreasing(times)
    ensures Accepts(max, window, times, i) <==>
              InWindow(History(max, window, times, i), times[i] - window, times[i]) < max
  {
    hide Trim, BucketAfter, History, InWindow, Accepts;
    OneRequest(max, window, times, i);
    if window >= 0.0 {
      DequeRefinesHistory(max, window, times, i);
      NextTrim(max, window, times, i);
      TrimCounts(History(max, window, times, i), times[i] - window, times[i]);
    } else {
      EmptyInterval(History(max, window, times, i), times[i] - window, times[i]);
      if i > 0 {
        BucketIsPast(max, window, times, i);
        TrimAll(BucketAfter(max, window, times, i), times[i] - window);
      } else {
        assert BucketAfter(max, window, times, 0) == [] by { RefinesStart(max, window, times); }
        TrimAll([], times[i] - window);
      }
    }
  }

  lemma {:induction false} NarrowerHoldsFewer(h: seq<real>, lo: real, hi: real, lower: real, now: real)
    requires lower <= lo && forall k :: 0 <= k < |h| ==> h[k] <= now
    ensures InWindow(h, lo, hi) <= InWindow(h, lower, now)
    decreases |h|
  {
    if h != [] {
      NarrowerHoldsFewer(h[..|h| - 1], lo, hi, lower, now);
    }
  }

  lemma InWindowAppend(h: seq<real>, x: real, lo: real, hi: real)
    ensures InWindow(h + [x], lo, hi) == InWindow(h, lo, hi) + if lo <= x <= hi then 1 else 0
  {
    assert (h + [x])[..|h|] == h;
  }

  /** No closed interval of the window's length holds more than `max` accepted requests. */
  lemma {:induction false} NoIntervalOverflows(max: nat, window: real, times: seq<real>, i: nat, lo: real)
    requires i <= |times| && Nondecreasing(times)
    ensures InWindow(History(max, window, times, i), lo, lo + window) <= max
    decreases i
  {
    hide InWindow, Accepts, Trim, Enforce;
    if i == 0 || window < 0.0 {
      assert InWindow([], lo, lo + window) == 0 by { NothingInWindow(lo, lo + window); }
      if window < 0.0 {
        EmptyInterval(History(max, window, times, i), lo, lo + window);
      }
    } else {
      NoIntervalOverflows(max, window, times, i - 1, lo);
      var h, now := History(max, window, times, i - 1), times[i - 1];
      if Accepts(max, window, times, i - 1) {
        InWindowAppend(h, now, lo, lo + window);
        AcceptedIffRoom(max, window, times, i - 1);
        DequeRefinesHistory(max, window, times, i - 1);
        if lo <= now <= lo + window {
          assert forall k :: 0 <= k < |h| ==> h[k] <= now;
          NarrowerHoldsFewer(h, lo, lo + window, now - window, now);
        }
      } else {
        assert h + [] == h;
      }
    }
  }

  lemma NothingInWindow(lo: real, hi: real)
    ensures InWindow([], lo, hi) == 0
  {
  }

  // Runs of the fixed windows.

  function StoreAfter(key: string, w: int, times: seq<real>, i: nat): map<CounterKey, Counter>
    requires i <= |times| && w >= 1
  {
    if i == 0 then map[]
    else Increment(StoreAfter(key, w, times, i - 1), (key, WindowOf(times[i - 1], w)), w + 5, times[i - 1]).0
  }

  predicate SharedAccepts(key: string, max: int, w: int, times: seq<real>, i: nat)
    requires i < |times| && w >= 1
  {
    Increment(StoreAfter(key, w, times, i), (key, WindowOf(times[i], w)), w + 5, times[i]).1 <= max
  }

  function SharedHistory(key: string, max: int, w: int, times: seq<real>, i: nat): seq<real>
    requires i <= |times| && w >= 1
  {
    if i == 0 then []
    else
      SharedHistory(key, max, w, times, i - 1)
      + if SharedAccepts(key, max, w, times, i - 1) then [times[i - 1]] else []
  }

  /** How many of `h` fall into window number `b`. */
  function InBucket(h: seq<real>, w: int, b: int): nat
    requires w >= 1
  {
    if h == [] then 0
    else InBucket(h[..|h| - 1], w, b) + if WindowOf(h[|h| - 1], w) == b then 1 else 0
  }

  lemma InBucketAppend(h: seq<real>, x: real, w: int, b: int)
    requires w >= 1
    ensures InBucket(h + [x], w, b) == InBucket(h, w, b) + if WindowOf(x, w) == b then 1 else 0
  {
    assert (h + [x])[..|h|] == h;
  }

  /** The bounds of the window that a time falls into. */
  lemma WindowBounds(now: real, w: int)
    requires w >= 1 && now >= 0.0
    ensures (WindowOf(now, w) * w) as real <= now < (WindowOf(now, w) * w + w) as real
  {
    var n := now.Floor;
    assert n == (n / w) * w + n % w;
  }

  /** The counters hold the number of requests of their windows, and outlive them. */
  ghost predicate Counts(key: string, w: int, times: seq<real>, i: nat, b: int)
    requires i <= |times| && w >= 1
  {
    var store := StoreAfter(key, w, times, i);
    var n := InBucket(times[..i], w, b);
    if n == 0 then (key, b) !in store
    else (key, b) in store && store[(key, b)].count == n && store[(key, b)].expires > (b * w + w) as real
  }

  /** The expiry that the first write sets never resets a counter inside its own window. */
  lemma {:induction false} CountersOutliveWindows(key: string, w: int, times: seq<real>, i: nat, b: int)
    requires i <= |times| && w >= 1 && forall k :: 0 <= k < |times| ==> times[k] >= 0.0
    ensures Counts(key, w, times, i, b)
    decreases i
  {
    if i > 0 {
      var now := times[i - 1];
      CountersOutliveWindows(key, w, times, i - 1, b);
      assert times[..i] == times[..i - 1] + [now];
      InBucketAppend(times[..i - 1], now, w, b);
      WindowBounds(now, w);
      hide InBucket, WindowOf;
    }
  }

  /** A request is accepted exactly when fewer than `max` requests, accepted or not, came before it in
      its own window. */
  lemma SharedAcceptsIff(key: string, max: nat, w: int, times: seq<real>, i: nat)
    requires i < |times| && w >= 1 && forall k :: 0 <= k < |times| ==> times[k] >= 0.0
    ensures SharedAccepts(key, max, w, times, i) <==> InBucket(times[..i], w, WindowOf(times[i], w)) < max
  {
    var b := WindowOf(times[i], w);
    CountersOutliveWindows(key, w, times, i, b);
    WindowBounds(times[i], w);
    hide InBucket, WindowOf, StoreAfter;
  }

  lemma {:induction false} WindowHoldsMax(key: string, max: nat, w: int, times: seq<real>, i: nat, b: int)
    requires i <= |times| && w >= 1 && forall k :: 0 <= k < |times| ==> times[k] >= 0.0
    ensures InBucket(SharedHistory(key, max, w, times, i), w, b) <= max
    ensures InBucket(SharedHistory(key, max, w, times, i), w, b) <= InBucket(times[..i], w, b)
    decreases i
  {
    if i > 0 {
      var h, now := SharedHistory(key, max, w, times, i - 1), times[i - 1];
      WindowHoldsMax(key, max, w, times, i - 1, b);
      SharedAcceptsIff(key, max, w, times, i - 1);
      assert times[..i] == times[..i - 1] + [now];
      InBucketAppend(times[..i - 1], now, w, b);
      InBucketAppend(h, now, w, b);
      hide InBucket, SharedAccepts, WindowOf;
      assert h + [] == h;
    }
  }

  lemma Spread(d: int, w: int)
    requires w >= 1
    ensures d <= -1 ==> d * w <= -w
    ensures d >= 1 ==> d * w >= w
    ensures d >= 2 ==> d * w >= 2 * w
  {
    assert d * w == (d + 1) * w - w;
    assert d * w == 2 * w + (d - 2) * w;
  }

  /** Numbers in order have their quotients in order, and at most `w` more is at most one more. */
  lemma DivisionIsMonotone(a: int, c: int, w: int)
    requires w >= 1 && a <= c <= a + w
    ensures a / w <= c / w <= a / w + 1
  {
    var p, q, r, t := a / w, c / w, a % w, c % w;
    assert a == p * w + r && c == q * w + t;
    assert c - a == (q - p) * w + t - r;
    Spread(q - p, w);
  }

  /** An interval of the window's length meets at most two windows. */
  lemma MeetsTwoWindows(lo: real, x: real, w: int)
    requires w >= 1 && 0.0 <= lo <= x <= lo + w as real
    ensures WindowOf(lo, w) <= WindowOf(x, w) <= WindowOf(lo, w) + 1
  {
    DivisionIsMonotone(lo.Floor, x.Floor, w);
  }

  lemma {:induction false} IntervalInTwoWindows(h: seq<real>, w: int, lo: real)
    requires w >= 1 && lo >= 0.0
    ensures InWindow(h, lo, lo + w as real) <= InBucket(h, w, WindowOf(lo, w)) + InBucket(h, w, WindowOf(lo, w) + 1)
    decreases |h|
  {
    if h != [] {
      hide WindowOf;
      IntervalInTwoWindows(h[..|h| - 1], w, lo);
      var x := h[|h| - 1];
      if lo <= x <= lo + w as real {
        MeetsTwoWindows(lo, x, w);
      }
    }
  }

  /** The shared limiter accepts at most `2 * max` requests in any interval of the window's length. */
  lemma AtMostTwice(key: string, max: nat, w: int, times: seq<real>, i: nat, lo: real)
    requires i <= |times| && w >= 1 && lo >= 0.0 && forall k :: 0 <= k < |times| ==> times[k] >= 0.0
    ensures InWindow(SharedHistory(key, max, w, times, i), lo, lo + w as real) <= 2 * max
  {
    hide *;
    IntervalInTwoWindows(SharedHistory(key, max, w, times, i), w, lo);
    WindowHoldsMax(key, max, w, times, i, WindowOf(lo, w));
    WindowHoldsMax(key, max, w, times, i, WindowOf(lo, w) + 1);
  }

  /** `max` requests half a second before the end of the first window, and `max` more at its end. */
  function Burst(max: nat, w: int): (times: seq<real>)
    requires w >= 1
    ensures |times| == 2 * max
    ensures forall k :: 0 <= k < |times| ==> times[k] == if k < max then w as real - 0.5 else w as real
  {
    seq(2 * max, k => if k < max then w as real - 0.5 else w as real)
  }

  lemma BurstWindows(w: int)
    requires w >= 1
    ensures WindowOf(w as real - 0.5, w) == 0 && WindowOf(w as real, w) == 1
  {
    assert (w as real - 0.5).Floor == w - 1 && (w as real).Floor == w;
    QuotientOf(w - 1, w, 0);
    QuotientOf(w, w, 1);
  }

  lemma QuotientOf(n: int, w: int, q: int)
    requires w >= 1 && q * w <= n < q * w + w
    ensures n / w == q
  {
    assert n == (n / w) * w + n % w;
    Spread(n / w - q, w);
    Spread(q - n / w, w);
    assert (n / w - q) * w == (n / w) * w - q * w && (q - n / w) * w == q * w - (n / w) * w;
  }

  lemma {:induction false} BurstCounts(max: nat, w: int, i: nat)
    requires w >= 1 && i <= 2 * max
    ensures InBucket(Burst(max, w)[..i], w, 0) == (if i < max then i else max)
    ensures InBucket(Burst(max, w)[..i], w, 1) == (if i < max then 0 else i - max)
    ensures InWindow(Burst(max, w)[..i], w as real - 0.5, w as real - 0.5 + w as real) == i
    decreases i
  {
    var times := Burst(max, w);
    if i == 0 {
      assert times[..0] == [];
    } else {
      var now := times[i - 1];
      BurstCounts(max, w, i - 1);
      BurstWindows(w);
      assert times[..i] == times[..i - 1] + [now];
      InBucketAppend(times[..i - 1], now, w, 0);
      InBucketAppend(times[..i - 1], now, w, 1);
      InWindowAppend(times[..i - 1], now, w as real - 0.5, w as real - 0.5 + w as real);
      hide InBucket, InWindow, WindowOf;
    }
  }

  lemma NoHistoryYet(key: string, max: int, w: int, times: seq<real>)
    requires w >= 1
    ensures SharedHistory(key, max, w, times, 0) == []
  {
  }

  lemma HistoryNext(key: string, max: int, w: int, times: seq<real>, i: nat)
    requires i < |times| && w >= 1
    ensures SharedHistory(key, max, w, times, i + 1) ==
              SharedHistory(key, max, w, times, i) + if SharedAccepts(key, max, w, times, i) then [times[i]] else []
  {
    hide SharedAccepts;
  }

  lemma BurstStep(key: string, max: nat, w: int, i: nat)
    requires w >= 1 && max >= 1 && i < 2 * max
    ensures SharedAccepts(key, max, w, Burst(max, w), i)
  {
    hide *;
    BurstCounts(max, w, i);
    BurstWindows(w);
    SharedAcceptsIff(key, max, w, Burst(max, w), i);
  }

  lemma {:induction false} BurstIsAccepted(key: string, max: nat, w: int, i: nat)
    requires w >= 1 && max >= 1 && i <= 2 * max
    ensures SharedHistory(key, max, w, Burst(max, w), i) == Burst(max, w)[..i]
    decreases i
  {
    hide *;
    var times := Burst(max, w);
    if i == 0 {
      NoHistoryYet(key, max, w, times);
      assert times[..0] == [];
    } else {
      HistoryNext(key, max, w, times, i - 1);
      BurstIsAccepted(key, max, w, i - 1);
      BurstStep(key, max, w, i - 1);
      assert times[..i] == times[..i - 1] + [times[i - 1]];
    }
  }

  /** The factor two is real, for every limit and window: a burst around the end of a window is accepted
      whole, and lies in one interval of the window's length. */
  lemma TwiceIsReached(key: string, max: nat, w: int)
    requires w >= 1 && max >= 1
    ensures SharedHistory(key, max, w, Burst(max, w), 2 * max) == Burst(max, w)
    ensures InWindow(Burst(max, w), w as real - 0.5, w as real - 0.5 + w as real) == 2 * max
  {
    hide SharedHistory, InWindow;
    BurstIsAccepted(key, max, w, 2 * max);
    BurstCounts(max, w, 2 * max);
    assert Burst(max, w)[..2 * max] == Burst(max, w);
  }
}
