/** Sliding-window rate limiting. Two implementations forget hits as they leave the window: a deque
    in memory, and a sorted set in Redis. Both are proved against the specification that keeps every
    accepted hit for ever and counts those still inside the window. */
module RateLimit {
  import opened Common

  datatype Limit = Limit(requests: int, windowSeconds: int)

  /** `IndexError` is the deque's answer to a limit below one while nothing is queued. */
  datatype Reply = Allowed | Retry(seconds: int) | IndexError

  // ------------------------------------------------------------------ the full history

  predicate Sorted(h: seq<int>) {
    forall i, j :: 0 <= i <= j < |h| ==> h[i] <= h[j]
  }

  /** How many accepted hits are later than `cutoff`. */
  function CountAfter(h: seq<int>, cutoff: int): nat {
    if h == [] then 0 else CountAfter(h[..|h| - 1], cutoff) + (if h[|h| - 1] > cutoff then 1 else 0)
  }

  /** The specification: a hit is accepted if fewer than `n` accepted hits are inside the window. */
  predicate SpecAllows(h: seq<int>, n: int, window: int, now: int) {
    CountAfter(h, now - window) < n
  }

  /** The hits of a history after a moment, by their numbers. */
  function HitsAfter(h: seq<int>, cutoff: int): set<nat> {
    set i: nat | i < |h| && cutoff < h[i]
  }

  lemma {:induction false} CountIsOfHits(h: seq<int>, cutoff: int)
    ensures CountAfter(h, cutoff) == |HitsAfter(h, cutoff)|
  {
    if h != [] {
      var init, last := h[..|h| - 1], |h| - 1;
      CountIsOfHits(init, cutoff);
      assert HitsAfter(h, cutoff) == HitsAfter(init, cutoff) + (if cutoff < h[last] then {last} else {});
    }
  }

  /** Fewer than `n` hits came after the window's beginning. */
  lemma {:induction false} SpecMeans(h: seq<int>, n: int, window: int, now: int)
    ensures SpecAllows(h, n, window, now) <==> |HitsAfter(h, now - window)| < n
  {
    CountIsOfHits(h, now - window);
  }

  /** Hit number `i + n` comes at least a window after hit number `i`. */
  predicate SpacedAt(h: seq<int>, n: nat, window: int, i: nat) {
    i + n < |h| ==> h[i] + window <= h[i + n]
  }

  predicate Spaced(h: seq<int>, n: nat, window: int) {
    forall i :: 0 <= i < |h| ==> SpacedAt(h, n, window, i)
  }

  /** Nothing in a sorted history is later than `now`. */
  predicate Until(h: seq<int>, now: int) {
    h != [] ==> h[|h| - 1] <= now
  }

  predicate InWindow(t: int, lo: int, hi: int, closedLeft: bool) {
    if closedLeft then lo <= t < hi else lo < t <= hi
  }

  function CountIn(h: seq<int>, lo: int, hi: int, closedLeft: bool): nat {
    if h == [] then 0
    else CountIn(h[..|h| - 1], lo, hi, closedLeft) + (if InWindow(h[|h| - 1], lo, hi, closedLeft) then 1 else 0)
  }

  /** The hits of a sorted history inside a window are consecutive. */
  lemma {:induction false} WindowIsARange(h: seq<int>, lo: int, hi: int, closedLeft: bool) returns (i: nat, j: nat)
    requires Sorted(h) && lo <= hi
    ensures i <= j <= |h| && CountIn(h, lo, hi, closedLeft) == j - i
    ensures forall k :: i <= k < j ==> InWindow(h[k], lo, hi, closedLeft)
    ensures forall k :: j <= k < |h| ==> (if closedLeft then hi <= h[k] else hi < h[k]) || i == j
  {
    if h == [] {
      i, j := 0, 0;
    } else {
      var init, last := h[..|h| - 1], h[|h| - 1];
      i, j := WindowIsARange(init, lo, hi, closedLeft);
      assert forall k :: 0 <= k < |init| ==> h[k] <= last;
      if InWindow(last, lo, hi, closedLeft) {
        if i == j {
          i, j := |h| - 1, |h|;
        } else {
          j := |h|;
        }
      }
    }
  }

  /** Spacing is the window bound: no half-open window of the configured length, closed on either
      side, ever holds more than `n` accepted hits. */
  lemma {:induction false} WindowHoldsAtMost(h: seq<int>, n: nat, window: int, lo: int, closedLeft: bool)
    requires Sorted(h) && Spaced(h, n, window) && window >= 0
    ensures CountIn(h, lo, lo + window, closedLeft) <= n
  {
    var i, j := WindowIsARange(h, lo, lo + window, closedLeft);
    if j - i > n {
      RangeIsShort(h, n, window, lo, closedLeft, i, i + n);
    }
  }

  lemma {:induction false} RangeIsShort(h: seq<int>, n: nat, window: int, lo: int, closedLeft: bool, i: nat, j: nat)
    requires Spaced(h, n, window) && j == i + n < |h|
    ensures !(InWindow(h[i], lo, lo + window, closedLeft) && InWindow(h[j], lo, lo + window, closedLeft))
  {
    assert SpacedAt(h, n, window, i);
  }

  // ------------------------------------------------------------------ forgetting

  /** What popping from the left leaves. */
  function Trim(q: seq<int>, cutoff: int): (r: seq<int>)
    ensures |r| <= |q|
  {
    if q != [] && q[0] <= cutoff then Trim(q[1..], cutoff) else q
  }

  lemma {:induction false} TrimSplits(q: seq<int>, cutoff: int)
    requires Sorted(q)
    ensures forall i :: 0 <= i < |q| ==> (q[i] <= cutoff <==> i < |q| - |Trim(q, cutoff)|)
  {
    if q != [] && q[0] <= cutoff {
      TrimSplits(q[1..], cutoff);
    }
  }

  lemma {:induction false} TrimIsASuffix(q: seq<int>, cutoff: int)
    ensures Trim(q, cutoff) == q[|q| - |Trim(q, cutoff)|..]
  {
    if q != [] && q[0] <= cutoff {
      TrimIsASuffix(q[1..], cutoff);
    }
  }

  /** Trimming counts: nothing the window still needs was popped. */
  lemma {:induction false} TrimCounts(q: seq<int>, cutoff: int)
    requires Sorted(q)
    ensures |Trim(q, cutoff)| == CountAfter(q, cutoff)
  {
    TrimSplits(q, cutoff);
    CountSplit(q, cutoff, |q| - |Trim(q, cutoff)|);
  }

  lemma {:induction false} CountSplit(q: seq<int>, cutoff: int, k: nat)
    requires k <= |q|
    requires forall i :: 0 <= i < |q| ==> (q[i] <= cutoff <==> i < k)
    ensures CountAfter(q, cutoff) == |q| - k
  {
    if |q| > 0 {
      CountSplit(q[..|q| - 1], cutoff, if k < |q| then k else k - 1);
    }
  }

  /** Trimming again, later, is trimming the whole history once. */
  lemma {:induction false} TrimTwice(h: seq<int>, early: int, late: int)
    requires early <= late
    ensures Trim(Trim(h, early), late) == Trim(h, late)
  {
    if h != [] && h[0] <= early {
      TrimTwice(h[1..], early, late);
    }
  }

  lemma {:induction false} TrimAppend(h: seq<int>, cutoff: int, now: int)
    requires cutoff < now
    ensures Trim(h + [now], cutoff) == Trim(h, cutoff) + [now]
  {
    if h != [] && h[0] <= cutoff {
      assert (h + [now])[1..] == h[1..] + [now];
      TrimAppend(h[1..], cutoff, now);
    }
  }

  /** An accepted hit keeps the history spaced. */
  lemma {:induction false} AcceptKeepsSpaced(h: seq<int>, n: nat, window: int, now: int)
    requires Sorted(h) && Spaced(h, n, window) && Until(h, now)
    requires SpecAllows(h, n, window, now)
    ensures Sorted(h + [now]) && Spaced(h + [now], n, window)
  {
    TrimCounts(h, now - window);
    TrimSplits(h, now - window);
    var g := h + [now];
    forall i | 0 <= i < |g|
      ensures SpacedAt(g, n, window, i)
    {
      assert i < |h| ==> SpacedAt(h, n, window, i);
      if i + n == |h| && i < |h| {
        assert i < |h| - |Trim(h, now - window)|;
      }
    }
  }

  // ------------------------------------------------------------------ the deque

  /** The monotonic clock counts nanoseconds. */
  const SECOND: int := 1_000_000_000

  function WindowOf(limit: Limit): int {
    limit.windowSeconds * SECOND
  }

  ghost predicate HistoryOk(n: int, window: int, h: seq<int>, clock: int) {
    && Sorted(h) && Until(h, clock)
    && (n >= 0 ==> Spaced(h, n, window))
    && (n < 0 ==> h == [])
  }

  /** What the deque `q` of a key with accepted hits `h` is at time `clock`. */
  ghost predicate KeyOk(n: int, window: int, q: seq<int>, h: seq<int>, clock: int) {
    HistoryOk(n, window, h, clock) && exists cutoff :: cutoff <= clock - window && q == Trim(h, cutoff)
  }

  lemma {:induction false} LaterStaysOk(n: int, window: int, q: seq<int>, h: seq<int>, clock: int, now: int)
    requires KeyOk(n, window, q, h, clock) && clock <= now
    ensures KeyOk(n, window, q, h, now)
  {
  }

  lemma {:induction false} FreshKeyOk(n: int, window: int, clock: int)
    ensures KeyOk(n, window, [], [], clock)
  {
    assert Trim([], clock - window) == [];
  }

  /** One hit on one key: what is left after expiring is what the whole history has in the window,
      and the key stays in order whichever way the hit is answered. */
  lemma {:induction false} KeyHit(n: int, window: int, q: seq<int>, h: seq<int>, clock: int, now: int)
    requires KeyOk(n, window, q, h, clock) && clock <= now && window > 0
    ensures Trim(q, now - window) == Trim(h, now - window)
    ensures |Trim(h, now - window)| == CountAfter(h, now - window)
    ensures KeyOk(n, window, Trim(h, now - window), h, now)
    ensures CountAfter(h, now - window) < n ==> KeyOk(n, window, Trim(h, now - window) + [now], h + [now], now)
  {
    var cutoff :| cutoff <= clock - window && q == Trim(h, cutoff);
    TrimTwice(h, cutoff, now - window);
    TrimCounts(h, now - window);
    if CountAfter(h, now - window) < n {
      AcceptKeepsSpaced(h, n, window, now);
      TrimAppend(h, now - window, now);
    }
  }

  /** A limit below one admits nothing, ever. */
  lemma {:induction false} NoRoomNoHistory(n: int, window: int, h: seq<int>, clock: int)
    requires HistoryOk(n, window, h, clock) && n <= 0 && window > 0
    ensures h == []
  {
    assert n == 0 && h != [] ==> SpacedAt(h, n, window, 0);
  }

  /** What the hits still inside the window answer to one more. */
  function Answer(limit: Limit, live: seq<int>, now: int): Reply {
    if |live| < limit.requests then Allowed
    else if live == [] then IndexError
    else Retry(DequeRetry(live[0], WindowOf(limit), now))
  }

  /** The deque limiter. `limitOf` is the fixed limit of each key; `history` keeps every accepted hit. */
  class InMemoryRateLimiter {
    const limitOf: string -> Limit
    var hits: map<string, seq<int>>
    ghost var history: map<string, seq<int>>
    ghost var clock: int

    ghost predicate Valid()
      reads this
    {
      hits.Keys == history.Keys
      && forall key :: key in hits ==>
           KeyOk(limitOf(key).requests, WindowOf(limitOf(key)), hits[key], history[key], clock)
    }

    function QueueOf(key: string): seq<int>
      reads this
    {
      if key in hits then hits[key] else []
    }

    ghost function Past(key: string): seq<int>
      reads this
    {
      if key in history then history[key] else []
    }

    constructor (limitOf: string -> Limit)
      ensures Valid() && forall key :: Past(key) == []
    {
      this.limitOf := limitOf;
      hits, history, clock := map[], map[], 0;
    }

    lemma {:induction false} KeyIsOk(key: string)
      requires Valid()
      ensures KeyOk(limitOf(key).requests, WindowOf(limitOf(key)), QueueOf(key), Past(key), clock)
    {
      FreshKeyOk(limitOf(key).requests, WindowOf(limitOf(key)), clock);
    }

    lemma {:induction false} OthersStayOk(now: int)
      requires Valid() && clock <= now
      ensures forall key :: key in hits ==>
                KeyOk(limitOf(key).requests, WindowOf(limitOf(key)), hits[key], history[key], now)
    {
      forall key | key in hits
        ensures KeyOk(limitOf(key).requests, WindowOf(limitOf(key)), hits[key], history[key], now)
      {
        LaterStaysOk(limitOf(key).requests, WindowOf(limitOf(key)), hits[key], history[key], clock, now);
      }
    }

    /** Pops what has left the window. */
    static method Expire(q0: seq<int>, cutoff: int) returns (q: seq<int>)
      ensures q == Trim(q0, cutoff)
    {
      q := q0;
      while q != [] && q[0] <= cutoff
        invariant Trim(q, cutoff) == Trim(q0, cutoff)
        decreases |q|
      {
        q := q[1..];
      }
    }

    /** No window of a key's length, closed on either side, holds more than its limit. */
    lemma {:induction false} NeverMoreThanTheLimit(key: string, lo: int, closedLeft: bool)
      requires Valid() && limitOf(key).windowSeconds >= 1
      ensures CountIn(Past(key), lo, lo + WindowOf(limitOf(key)), closedLeft) <= Max(0, limitOf(key).requests)
    {
      KeyIsOk(key);
      HistoryIsBounded(limitOf(key).requests, WindowOf(limitOf(key)), Past(key), clock, lo, closedLeft);
    }

    /** One hit on the queue of one key. */
    static method HitQueue(limit: Limit, q0: seq<int>, ghost h: seq<int>, ghost clock: int, now: int)
      returns (reply: Reply, q: seq<int>, ghost h': seq<int>)
      requires KeyOk(limit.requests, WindowOf(limit), q0, h, clock) && clock <= now && limit.windowSeconds >= 1
      ensures KeyOk(limit.requests, WindowOf(limit), q, h', now) && h' == h + (if reply.Allowed? then [now] else [])
      ensures reply.Allowed? <==> SpecAllows(h, limit.requests, WindowOf(limit), now)
      ensures reply == Answer(limit, Trim(h, now - WindowOf(limit)), now)
      ensures reply.IndexError? <==> limit.requests <= 0
    {
      var window := WindowOf(limit);
      if limit.requests <= 0 {
        NoRoomNoHistory(limit.requests, window, h, clock);
      }
      KeyHit(limit.requests, WindowOf(limit), q0, h, clock, now);
      q := Expire(q0, now - window);
      h' := h;
      if |q| >= limit.requests {
        if q == [] {
          reply := IndexError;
        } else {
          reply := Retry(DequeRetry(q[0], window, now));
        }
      } else {
        q, h' := q + [now], h + [now];
        reply := Allowed;
      }
    }

    method Put(key: string, q: seq<int>, ghost h: seq<int>, ghost now: int)
      requires Valid() && clock <= now && KeyOk(limitOf(key).requests, WindowOf(limitOf(key)), q, h, now)
      modifies this
      ensures Valid() && clock == now && Past(key) == h
      ensures forall other :: other != key ==> Past(other) == old(Past(other))
    {
      OthersStayOk(now);
      hits, history, clock := hits[key := q], history[key := h], now;
    }

    /** The deque answers as the full history would; a refusal names the whole seconds left of the
        oldest live hit, and at least one. With a limit below one every hit raises. */
    method Hit(key: string, now: int) returns (reply: Reply)
      requires Valid() && now >= clock && limitOf(key).windowSeconds >= 1
      modifies this
      ensures Valid() && clock == now
      ensures reply.Allowed? <==> SpecAllows(old(Past(key)), limitOf(key).requests, WindowOf(limitOf(key)), now)
      ensures Past(key) == old(Past(key)) + (if reply.Allowed? then [now] else [])
      ensures forall other :: other != key ==> Past(other) == old(Past(other))
      ensures reply == Answer(limitOf(key), Trim(old(Past(key)), now - WindowOf(limitOf(key))), now)
      ensures reply.IndexError? <==> limitOf(key).requests <= 0
    {
      KeyIsOk(key);
      var answer, q, h := HitQueue(limitOf(key), QueueOf(key), Past(key), clock, now);
      Put(key, q, h, now);
      reply := answer;
    }
  }

  /** With nothing in between, a refused caller is admitted exactly from the moment the oldest live
      hit is a whole window old. */
  lemma {:induction false} AdmittedWhenOldestLeaves(h: seq<int>, n: nat, window: int, now: int, later: int)
    requires Sorted(h) && Until(h, now) && Spaced(h, n, window)
    requires n >= 1 && window > 0 && now <= later && !SpecAllows(h, n, window, now)
    ensures Trim(h, now - window) != []
    ensures SpecAllows(h, n, window, later) <==> Trim(h, now - window)[0] + window <= later
  {
    TrimCounts(h, now - window);
    TrimCounts(h, later - window);
    TrimSplits(h, now - window);
    TrimSplits(h, later - window);
    TrimTwice(h, now - window, later - window);
    var live := Trim(h, now - window);
    LiveAtMost(h, n, window, now);
    if live[0] <= later - window {
      assert |Trim(live, later - window)| < |live|;
    }
  }

  lemma {:induction false} LiveAtMost(h: seq<int>, n: nat, window: int, now: int)
    requires Sorted(h) && Until(h, now) && Spaced(h, n, window) && n >= 1
    ensures |Trim(h, now - window)| <= n
  {
    TrimSplits(h, now - window);
    var k := |h| - |Trim(h, now - window)|;
    assert k < |h| ==> SpacedAt(h, n, window, k);
  }

  function DequeRetry(oldest: int, window: int, now: int): int {
    Max(1, (oldest + window - now) / SECOND)
  }

  /** One second more than the deque's answer is always enough. The answer itself is enough exactly
      when the time left is at most a second or a whole number of seconds. */
  lemma {:induction false} DequeRetrySuffices(h: seq<int>, n: nat, window: int, now: int)
    requires Sorted(h) && Until(h, now) && Spaced(h, n, window)
    requires n >= 1 && window > 0 && !SpecAllows(h, n, window, now)
    ensures var live := Trim(h, now - window);
            && live != []
            && var left := live[0] + window - now;
               var retry := DequeRetry(live[0], window, now);
               && SpecAllows(h, n, window, now + (retry + 1) * SECOND)
               && (SpecAllows(h, n, window, now + retry * SECOND) <==> left <= SECOND || left % SECOND == 0)
  {
    AdmittedWhenOldestLeaves(h, n, window, now, now);
    var left := Trim(h, now - window)[0] + window - now;
    var retry := DequeRetry(Trim(h, now - window)[0], window, now);
    AdmittedWhenOldestLeaves(h, n, window, now, now + (retry + 1) * SECOND);
    AdmittedWhenOldestLeaves(h, n, window, now, now + retry * SECOND);
  }

  lemma {:induction false} HistoryIsBounded(n: int, window: int, h: seq<int>, clock: int, lo: int, closedLeft: bool)
    requires HistoryOk(n, window, h, clock) && window >= 0
    ensures CountIn(h, lo, lo + window, closedLeft) <= Max(0, n)
  {
    if n >= 0 {
      WindowHoldsAtMost(h, n, window, lo, closedLeft);
    }
  }

  // ------------------------------------------------------------------ the sorted set

  /** A key of the store by ascending score. Member `i` is the text `scores[i]-serials[i]`, so its
      score is part of its name; `expireAt` is when the store drops the key. */
  datatype SortedSet = SortedSet(scores: seq<int>, serials: seq<nat>, expireAt: int) {
    predicate Has(score: int, serial: nat)
      requires |scores| == |serials|
    {
      exists i :: 0 <= i < |scores| && scores[i] == score && serials[i] == serial
    }
  }

  type Zset = z: SortedSet | |z.scores| == |z.serials| witness SortedSet([], [], 0)

  datatype LuaReply = LuaReply(allowed: bool, count: int, retry: int)

  /** The window in milliseconds, as the script receives it. */
  function Ms(limit: Limit): int {
    limit.windowSeconds * 1000
  }

  /** Removal by score from 0 to `cutoff`. */
  function RemoveUpTo(q: seq<int>, cutoff: int): (r: seq<int>)
    ensures |r| <= |q|
  {
    if q != [] && 0 <= q[0] <= cutoff then RemoveUpTo(q[1..], cutoff) else q
  }

  lemma {:induction false} RemovedIsTrimmed(q: seq<int>, cutoff: int)
    requires forall i :: 0 <= i < |q| ==> q[i] >= 0
    ensures RemoveUpTo(q, cutoff) == Trim(q, cutoff)
  {
    if q != [] && q[0] <= cutoff {
      RemovedIsTrimmed(q[1..], cutoff);
    }
  }

  /** The key as the script sees it after removing the old members: empty if the store dropped it. */
  function Live(z: Zset, window: int, now: int): (r: Zset)
    ensures r.expireAt == z.expireAt
  {
    if z.expireAt <= now then SortedSet([], [], z.expireAt)
    else
      var kept := RemoveUpTo(z.scores, now - window);
      SortedSet(kept, z.serials[|z.serials| - |kept|..], z.expireAt)
  }

  function CeilSeconds(ms: int): int {
    (ms + 999) / 1000
  }

  /** The script. A member that is present already is only written again. */
  function Script(z: Zset, limit: Limit, now: int, serial: nat): (LuaReply, Zset) {
    var window := Ms(limit);
    var live := Live(z, window, now);
    var count := |live.scores|;
    if count >= limit.requests then
      (LuaReply(false, count, if count == 0 then window else CeilSeconds(live.scores[0] + window - now)), live)
    else if live.Has(now, serial) then
      (LuaReply(true, count + 1, 0), live.(expireAt := now + window))
    else
      (LuaReply(true, count + 1, 0), SortedSet(live.scores + [now], live.serials + [serial], now + window))
  }

  /** The times of the recorded hits after one run of the script. */
  function Recorded(z: Zset, h: seq<int>, limit: Limit, now: int, serial: nat): seq<int> {
    var live := Live(z, Ms(limit), now);
    if |live.scores| < limit.requests && !live.Has(now, serial) then h + [now] else h
  }

  /** What the key is when `h` lists the times of the recorded hits. */
  ghost predicate ZsetOk(n: int, window: int, z: Zset, h: seq<int>, clock: int) {
    && KeyOk(n, window, z.scores, h, clock)
    && (h != [] ==> 0 <= h[0] && z.expireAt == h[|h| - 1] + window)
  }

  /** Dropping the key at its expiry never drops a hit the window still needs, and removing by score
      leaves exactly what the window needs. */
  lemma {:induction false} LiveIsTrimmed(n: int, window: int, z: Zset, h: seq<int>, clock: int, now: int)
    requires ZsetOk(n, window, z, h, clock) && clock <= now && window > 0
    ensures Live(z, window, now).scores == Trim(z.scores, now - window) == Trim(h, now - window)
    ensures |Trim(h, now - window)| == CountAfter(h, now - window)
  {
    KeyHit(n, window, z.scores, h, clock, now);
    if z.expireAt <= now {
      TrimSplits(h, now - window);
    } else {
      var cutoff :| cutoff <= clock - window && z.scores == Trim(h, cutoff);
      TrimIsASuffix(h, cutoff);
      RemovedIsTrimmed(z.scores, now - window);
    }
  }

  /** One run of the script counts the recorded hits inside the window exactly, whether or not the
      store dropped the key. */
  lemma {:induction false} ScriptDecidesAsSpec(limit: Limit, z: Zset, h: seq<int>, clock: int, now: int, serial: nat)
    requires ZsetOk(limit.requests, Ms(limit), z, h, clock) && clock <= now && limit.windowSeconds >= 1
    ensures Script(z, limit, now, serial).0.allowed <==> SpecAllows(h, limit.requests, Ms(limit), now)
  {
    LiveIsTrimmed(limit.requests, Ms(limit), z, h, clock, now);
  }

  /** It records the hit unless its member is there already, and keeps the key in order. */
  lemma {:induction false} ScriptKeepsKey(limit: Limit, z: Zset, h: seq<int>, clock: int, now: int, serial: nat)
    requires ZsetOk(limit.requests, Ms(limit), z, h, clock) && clock <= now && 0 <= now && limit.windowSeconds >= 1
    ensures ZsetOk(limit.requests, Ms(limit), Script(z, limit, now, serial).1, Recorded(z, h, limit, now, serial), now)
  {
    var n, window := limit.requests, Ms(limit);
    var live := Live(z, window, now);
    LiveIsTrimmed(n, window, z, h, clock, now);
    KeyHit(n, window, z.scores, h, clock, now);
    if |live.scores| < n && live.Has(now, serial) {
      RewriteIsAtTheEnd(h, now, window);
    }
  }

  /** A member with the present score can only be the latest hit. */
  lemma {:induction false} RewriteIsAtTheEnd(h: seq<int>, now: int, window: int)
    requires Sorted(h) && Until(h, now) && now in Trim(h, now - window)
    ensures h != [] && h[|h| - 1] == now
  {
    TrimIsASuffix(h, now - window);
  }

  /** After a refusal with a limit of at least one, the key admits a hit exactly from the moment the
      oldest live hit is a window old, so the returned seconds are the fewest that are always enough. */
  lemma {:induction false} ScriptRetryIsLeast(limit: Limit, z: Zset, h: seq<int>, clock: int, now: int, serial: nat,
                                              next: int, nextSerial: nat)
    requires ZsetOk(limit.requests, Ms(limit), z, h, clock) && clock <= now <= next && 0 <= now
    requires limit.requests >= 1 && limit.windowSeconds >= 1 && !Script(z, limit, now, serial).0.allowed
    ensures var (reply, after) := Script(z, limit, now, serial);
            && 1 <= reply.retry <= limit.windowSeconds
            && (next >= now + 1000 * reply.retry ==> Script(after, limit, next, nextSerial).0.allowed)
            && (next <= now + 1000 * (reply.retry - 1) ==> !Script(after, limit, next, nextSerial).0.allowed)
  {
    var (reply, after) := Script(z, limit, now, serial);
    LiveIsTrimmed(limit.requests, Ms(limit), z, h, clock, now);
    ScriptDecidesAsSpec(limit, z, h, clock, now, serial);
    ScriptKeepsKey(limit, z, h, clock, now, serial);
    ScriptDecidesAsSpec(limit, after, h, now, next, nextSerial);
    AdmittedWhenOldestLeaves(h, limit.requests, Ms(limit), now, next);
    LiveBounds(h, Ms(limit), now);
  }

  lemma {:induction false} LiveBounds(h: seq<int>, window: int, now: int)
    requires Sorted(h) && Until(h, now) && Trim(h, now - window) != []
    ensures now - window < Trim(h, now - window)[0] <= now
  {
    TrimSplits(h, now - window);
    TrimIsASuffix(h, now - window);
  }

  /** A limit below one leaves nothing to wait for, and the answer is the window in milliseconds where
      every other answer is in seconds. */
  lemma {:induction false} ScriptRetryOfAnEmptyKey(limit: Limit, z: Zset, h: seq<int>, clock: int, now: int,
                                                   serial: nat)
    requires ZsetOk(limit.requests, Ms(limit), z, h, clock) && clock <= now && 0 <= now
    requires limit.requests <= 0 && limit.windowSeconds >= 1
    ensures Script(z, limit, now, serial).0 == LuaReply(false, 0, 1000 * limit.windowSeconds)
  {
    NoRoomNoHistory(limit.requests, Ms(limit), h, clock);
    LiveIsTrimmed(limit.requests, Ms(limit), z, h, clock, now);
  }

  // ------------------------------------------------------------------ hits from any number of processes

  /** One hit on a shared key, by whichever process, with that process's own serial number. */
  datatype Hit = Hit(now: int, serial: nat)

  /** The key after some hits, and the times of the hits that were accepted, of those the set recorded,
      and of those that replaced a live member of the same name instead. */
  datatype Trace = Trace(z: Zset, accepted: seq<int>, recorded: seq<int>, replaced: seq<int>)

  /** The hit is accepted, but its member is live already. */
  predicate Replaces(z: Zset, limit: Limit, now: int, serial: nat) {
    Script(z, limit, now, serial).0.allowed && Live(z, Ms(limit), now).Has(now, serial)
  }

  function TraceOf(limit: Limit, hits: seq<Hit>): Trace {
    if hits == [] then Trace(SortedSet([], [], 0), [], [], [])
    else
      var t, hit := TraceOf(limit, hits[..|hits| - 1]), hits[|hits| - 1];
      var (reply, after) := Script(t.z, limit, hit.now, hit.serial);
      Trace(after, if reply.allowed then t.accepted + [hit.now] else t.accepted,
            Recorded(t.z, t.recorded, limit, hit.now, hit.serial),
            if Replaces(t.z, limit, hit.now, hit.serial) then t.replaced + [hit.now] else t.replaced)
  }

  /** The clocks of all processes agree. */
  predicate InTime(hits: seq<Hit>) {
    && (forall i :: 0 <= i < |hits| ==> hits[i].now >= 0)
    && (forall i, j :: 0 <= i <= j < |hits| ==> hits[i].now <= hits[j].now)
  }

  function LastOf(hits: seq<Hit>): int {
    if hits == [] then 0 else hits[|hits| - 1].now
  }

  lemma {:induction false} TraceIsOk(limit: Limit, hits: seq<Hit>)
    requires InTime(hits) && limit.windowSeconds >= 1
    ensures ZsetOk(limit.requests, Ms(limit), TraceOf(limit, hits).z, TraceOf(limit, hits).recorded, LastOf(hits))
  {
    if hits == [] {
      FreshKeyOk(limit.requests, Ms(limit), 0);
    } else {
      var init, hit := hits[..|hits| - 1], hits[|hits| - 1];
      TraceIsOk(limit, init);
      var t := TraceOf(limit, init);
      ScriptKeepsKey(limit, t.z, t.recorded, LastOf(init), hit.now, hit.serial);
    }
  }

  lemma {:induction false} CountInAppend(h: seq<int>, t: int, lo: int, hi: int, closedLeft: bool)
    ensures CountIn(h + [t], lo, hi, closedLeft)
         == CountIn(h, lo, hi, closedLeft) + (if InWindow(t, lo, hi, closedLeft) then 1 else 0)
  {
    assert (h + [t])[..|h|] == h;
  }

  /** Every accepted hit is recorded or replaces a live member, in every window. */
  lemma {:induction false} AcceptedAreRecordedOrReplace(limit: Limit, hits: seq<Hit>, lo: int, hi: int,
                                                        closedLeft: bool)
    ensures var t := TraceOf(limit, hits);
            CountIn(t.accepted, lo, hi, closedLeft)
            == CountIn(t.recorded, lo, hi, closedLeft) + CountIn(t.replaced, lo, hi, closedLeft)
    ensures var t := TraceOf(limit, hits);
            |t.accepted| == |t.recorded| + |t.replaced| && (t.replaced == [] ==> t.accepted == t.recorded)
  {
    if hits != [] {
      AcceptedAreRecordedOrReplace(limit, hits[..|hits| - 1], lo, hi, closedLeft);
      var t, now := TraceOf(limit, hits[..|hits| - 1]), hits[|hits| - 1].now;
      CountInAppend(t.accepted, now, lo, hi, closedLeft);
      CountInAppend(t.recorded, now, lo, hi, closedLeft);
      CountInAppend(t.replaced, now, lo, hi, closedLeft);
    }
  }

  /** Hit `k` was accepted and found its own member live. */
  predicate ReplacesAt(limit: Limit, hits: seq<Hit>, k: nat)
    requires k < |hits|
  {
    Replaces(TraceOf(limit, hits[..k]).z, limit, hits[k].now, hits[k].serial)
  }

  lemma {:induction false} SameBefore(limit: Limit, hits: seq<Hit>, n: nat, k: nat)
    requires k < n <= |hits|
    ensures ReplacesAt(limit, hits[..n], k) == ReplacesAt(limit, hits, k)
  {
    assert hits[..n][..k] == hits[..k];
  }

  lemma {:induction false} ReplacedAtLast(limit: Limit, hits: seq<Hit>, n: nat)
    requires |hits| == n + 1
    ensures TraceOf(limit, hits).replaced == [] <==>
              TraceOf(limit, hits[..n]).replaced == [] && !ReplacesAt(limit, hits, n)
  {
  }

  lemma {:induction false} ReplacedAreListed(limit: Limit, hits: seq<Hit>)
    ensures TraceOf(limit, hits).replaced == [] <==> forall k :: 0 <= k < |hits| ==> !ReplacesAt(limit, hits, k)
  {
    if hits != [] {
      var n := |hits| - 1;
      ReplacedAreListed(limit, hits[..n]);
      ReplacedAtLast(limit, hits, n);
      ReplacedBefore(limit, hits, n);
    }
  }

  lemma {:induction false} ReplacedBefore(limit: Limit, hits: seq<Hit>, n: nat)
    requires n <= |hits|
    ensures (forall k :: 0 <= k < n ==> !ReplacesAt(limit, hits[..n], k)) <==>
            (forall k :: 0 <= k < n ==> !ReplacesAt(limit, hits, k))
  {
    forall k | 0 <= k < n
      ensures ReplacesAt(limit, hits[..n], k) == ReplacesAt(limit, hits, k)
    {
      SameBefore(limit, hits, n, k);
    }
  }

  /** Hits of any number of processes on one key, in any order: the set has recorded all that were
      accepted if and only if no accepted hit found its own member live. */
  lemma {:induction false} AllAreRecorded(limit: Limit, hits: seq<Hit>)
    ensures TraceOf(limit, hits).recorded == TraceOf(limit, hits).accepted <==>
            forall k :: 0 <= k < |hits| ==> !ReplacesAt(limit, hits, k)
  {
    AcceptedAreRecordedOrReplace(limit, hits, 0, 0, true);
    ReplacedAreListed(limit, hits);
  }

  lemma {:induction false} RecordedIsBounded(limit: Limit, hits: seq<Hit>, lo: int, closedLeft: bool)
    requires InTime(hits) && limit.windowSeconds >= 1
    ensures CountIn(TraceOf(limit, hits).recorded, lo, lo + Ms(limit), closedLeft) <= Max(0, limit.requests)
  {
    TraceIsOk(limit, hits);
    HistoryIsBounded(limit.requests, Ms(limit), TraceOf(limit, hits).recorded, LastOf(hits), lo, closedLeft);
  }

  lemma {:induction false} ExcessIsReplaced(limit: Limit, hits: seq<Hit>, lo: int, hi: int, closedLeft: bool)
    requires InTime(hits) && limit.windowSeconds >= 1 && hi == lo + Ms(limit)
    ensures CountIn(TraceOf(limit, hits).accepted, lo, hi, closedLeft)
         <= Max(0, limit.requests) + CountIn(TraceOf(limit, hits).replaced, lo, hi, closedLeft)
  {
    RecordedIsBounded(limit, hits, lo, closedLeft);
    AcceptedAreRecordedOrReplace(limit, hits, lo, hi, closedLeft);
  }

  lemma {:induction false} RecordedAreBounded(limit: Limit, hits: seq<Hit>, accepted: seq<int>, lo: int,
                                              closedLeft: bool)
    requires InTime(hits) && limit.windowSeconds >= 1 && accepted == TraceOf(limit, hits).recorded
    ensures CountIn(accepted, lo, lo + Ms(limit), closedLeft) <= Max(0, limit.requests)
  {
    RecordedIsBounded(limit, hits, lo, closedLeft);
  }

  /** A window of the key's length holds at most the limit, and the hits that replaced a member in it. */
  lemma {:induction false} SharedKeyIsBounded(limit: Limit, hits: seq<Hit>, lo: int, closedLeft: bool)
    requires InTime(hits) && limit.windowSeconds >= 1
    ensures CountIn(TraceOf(limit, hits).accepted, lo, lo + Ms(limit), closedLeft)
         <= Max(0, limit.requests) + CountIn(TraceOf(limit, hits).replaced, lo, lo + Ms(limit), closedLeft)
  {
    ExcessIsReplaced(limit, hits, lo, lo + Ms(limit), closedLeft);
  }

  /** So it holds at most the limit if no accepted hit replaces one. */
  lemma {:induction false} UnreplacedKeyIsBounded(limit: Limit, hits: seq<Hit>, lo: int, closedLeft: bool)
    requires InTime(hits) && limit.windowSeconds >= 1
    requires forall k :: 0 <= k < |hits| ==> !ReplacesAt(limit, hits, k)
    ensures CountIn(TraceOf(limit, hits).accepted, lo, lo + Ms(limit), closedLeft) <= Max(0, limit.requests)
  {
    AllAreRecorded(limit, hits);
    RecordedAreBounded(limit, hits, TraceOf(limit, hits).accepted, lo, closedLeft);
  }

  /** And then the next hit is accepted exactly as the full history of accepted hits says. */
  lemma {:induction false} SharedKeyDecidesAsSpec(limit: Limit, hits: seq<Hit>, next: Hit)
    requires InTime(hits + [next]) && limit.windowSeconds >= 1
    requires forall k :: 0 <= k < |hits| ==> !ReplacesAt(limit, hits, k)
    ensures var t := TraceOf(limit, hits);
            Script(t.z, limit, next.now, next.serial).0.allowed <==>
              SpecAllows(t.accepted, limit.requests, Ms(limit), next.now)
  {
    var t := TraceOf(limit, hits);
    HitsBefore(hits, next);
    TraceIsOk(limit, hits);
    AllAreRecorded(limit, hits);
    ScriptDecidesAsSpec(limit, t.z, t.recorded, LastOf(hits), next.now, next.serial);
  }

  lemma {:induction false} HitsBefore(hits: seq<Hit>, next: Hit)
    requires InTime(hits + [next])
    ensures InTime(hits) && LastOf(hits) <= next.now && 0 <= next.now
  {
    var all := hits + [next];
    assert all[|hits|] == next && forall i :: 0 <= i < |hits| ==> all[i] == hits[i];
  }

  /** Every member of the set is the name of a hit. */
  ghost predicate NamesHits(z: Zset, hits: seq<Hit>) {
    forall i :: 0 <= i < |z.scores| ==> Hit(z.scores[i], z.serials[i]) in hits
  }

  lemma {:induction false} NamesMoreHits(z: Zset, hits: seq<Hit>, hit: Hit)
    requires NamesHits(z, hits)
    ensures NamesHits(z, hits + [hit])
  {
  }

  lemma {:induction false} NewNamesAHit(live: Zset, hits: seq<Hit>, now: int, serial: nat, expireAt: int)
    requires NamesHits(live, hits) && Hit(now, serial) in hits
    ensures NamesHits(SortedSet(live.scores + [now], live.serials + [serial], expireAt), hits)
  {
  }

  lemma {:induction false} MembersAreHits(limit: Limit, hits: seq<Hit>)
    ensures NamesHits(TraceOf(limit, hits).z, hits)
  {
    if hits != [] {
      var init, hit := hits[..|hits| - 1], hits[|hits| - 1];
      MembersAreHits(limit, init);
      assert hits == init + [hit];
      var z := TraceOf(limit, init).z;
      LiveNamesHits(z, Ms(limit), hit.now, init);
      var live := Live(z, Ms(limit), hit.now);
      NamesMoreHits(live, init, hit);
      NewNamesAHit(live, hits, hit.now, hit.serial, hit.now + Ms(limit));
    }
  }

  lemma {:induction false} RemovedIsAnEnd(q: seq<int>, cutoff: int)
    ensures RemoveUpTo(q, cutoff) == q[|q| - |RemoveUpTo(q, cutoff)|..]
  {
    if q != [] && 0 <= q[0] <= cutoff {
      RemovedIsAnEnd(q[1..], cutoff);
    }
  }

  lemma {:induction false} LiveNamesHits(z: Zset, window: int, now: int, hits: seq<Hit>)
    requires NamesHits(z, hits)
    ensures NamesHits(Live(z, window, now), hits)
  {
    if now < z.expireAt {
      var live := Live(z, window, now);
      RemovedIsAnEnd(z.scores, now - window);
      var gone := |z.scores| - |live.scores|;
      forall i | 0 <= i < |live.scores|
        ensures Hit(live.scores[i], live.serials[i]) in hits
      {
        assert live.scores[i] == z.scores[gone + i] && live.serials[i] == z.serials[gone + i];
      }
    }
  }

  predicate Distinct(hits: seq<Hit>) {
    forall i, j :: 0 <= i < j < |hits| ==> hits[i] != hits[j]
  }

  /** If all hits have different names, whoever numbers them, none replaces another. */
  lemma {:induction false} DistinctHitsNeverReplace(limit: Limit, hits: seq<Hit>)
    requires Distinct(hits)
    ensures TraceOf(limit, hits).replaced == []
  {
    if hits != [] {
      var init, hit := hits[..|hits| - 1], hits[|hits| - 1];
      DistinctHitsNeverReplace(limit, init);
      var t := TraceOf(limit, init);
      MembersAreHits(limit, init);
      LiveNamesHits(t.z, Ms(limit), hit.now, init);
      assert hit !in init;
    }
  }

  /** Hence for hits with different names no window holds more than the limit, from any number of
      processes. */
  lemma {:induction false} DistinctHitsAreBounded(limit: Limit, hits: seq<Hit>, lo: int, closedLeft: bool)
    requires InTime(hits) && Distinct(hits) && limit.windowSeconds >= 1
    ensures CountIn(TraceOf(limit, hits).accepted, lo, lo + Ms(limit), closedLeft) <= Max(0, limit.requests)
  {
    DistinctHitsNeverReplace(limit, hits);
    ReplacedAreListed(limit, hits);
    UnreplacedKeyIsBounded(limit, hits, lo, closedLeft);
  }

  // ------------------------------------------------------------------ what one replacement costs

  /** A serial number above all in the set. */
  lemma {:induction false} UnusedSerial(serials: seq<nat>) returns (serial: nat)
    ensures serial >= 1 && forall i :: 0 <= i < |serials| ==> serials[i] <= serial - 1
  {
    serial := 1;
    if serials != [] {
      var n := |serials| - 1;
      var above := UnusedSerial(serials[..n]);
      serial := Max(above, serials[n] + 1);
      assert forall i :: 0 <= i < n ==> serials[i] == serials[..n][i];
    }
  }

  /** For hits up to now, the live ones are those of the window that ends now. */
  lemma {:induction false} LiveAreInTheWindow(h: seq<int>, window: int, now: int)
    requires Sorted(h) && Until(h, now)
    ensures CountAfter(h, now - window) == CountIn(h, now - window, now, false)
  {
    if h != [] {
      LiveAreInTheWindow(h[..|h| - 1], window, now);
    }
  }

  lemma {:induction false} AppendInTime(hits: seq<Hit>, hit: Hit)
    requires InTime(hits) && LastOf(hits) <= hit.now && 0 <= hit.now
    ensures InTime(hits + [hit]) && LastOf(hits + [hit]) == hit.now
  {
    var all := hits + [hit];
    forall i, j | 0 <= i <= j < |all|
      ensures all[i].now <= all[j].now
    {
      assert j < |hits| ==> all[i] == hits[i] && all[j] == hits[j];
      assert i < |hits| ==> all[i] == hits[i] && hits[i].now <= hits[|hits| - 1].now;
    }
  }

  /** While there is room a hit under an unused serial number is accepted and recorded, and replaces
      nothing. */
  lemma {:induction false} UnusedIsRecorded(limit: Limit, z: Zset, h: seq<int>, now: int, serial: nat)
    requires ZsetOk(limit.requests, Ms(limit), z, h, now) && limit.windowSeconds >= 1
    requires CountIn(h, now - Ms(limit), now, false) < limit.requests && Numbered(z, serial as int - 1)
    ensures Script(z, limit, now, serial).0.allowed && !Replaces(z, limit, now, serial)
    ensures Recorded(z, h, limit, now, serial) == h + [now]
  {
    LiveAreInTheWindow(h, Ms(limit), now);
    ScriptDecidesAsSpec(limit, z, h, now, now, serial);
    OwnKeyRecordsAll(limit, z, h, now, serial);
  }

  lemma {:induction false} OneMoreHit(limit: Limit, hits: seq<Hit>, t: Trace, now: int) returns (hit: Hit, u: Trace)
    requires InTime(hits) && LastOf(hits) == now && 0 <= now && limit.windowSeconds >= 1 && TraceOf(limit, hits) == t
    requires CountIn(t.recorded, now - Ms(limit), now, false) < limit.requests
    ensures hit.now == now && TraceOf(limit, hits + [hit]) == u
    ensures u.recorded == t.recorded + [now] && u.replaced == t.replaced
  {
    TraceIsOk(limit, hits);
    var serial := UnusedSerial(t.z.serials);
    UnusedIsRecorded(limit, t.z, t.recorded, now, serial);
    hit := Hit(now, serial);
    u := TraceStep(limit, hits, t, hit, hits + [hit]);
  }

  /** `all` goes on after `hits` with hits of the millisecond `now`. */
  predicate GoesOn(hits: seq<Hit>, all: seq<Hit>, now: int) {
    hits <= all && forall i :: |hits| <= i < |all| ==> all[i].now == now
  }

  /** Some more hits of one millisecond use up what room is left. */
  lemma {:induction false} UseUp(limit: Limit, hits: seq<Hit>, t: Trace, now: int) returns (all: seq<Hit>, u: Trace)
    requires InTime(hits) && LastOf(hits) == now && 0 <= now && limit.windowSeconds >= 1 && TraceOf(limit, hits) == t
    ensures InTime(all) && GoesOn(hits, all, now) && TraceOf(limit, all) == u && u.replaced == t.replaced
    ensures CountIn(u.recorded, now - Ms(limit), now, false) >= limit.requests
    decreases limit.requests - CountIn(t.recorded, now - Ms(limit), now, false)
  {
    if CountIn(t.recorded, now - Ms(limit), now, false) >= limit.requests {
      all, u := hits, t;
    } else {
      var hit, v := OneMoreHit(limit, hits, t, now);
      AppendInTime(hits, hit);
      CountInAppend(t.recorded, now, now - Ms(limit), now, false);
      all, u := UseUp(limit, hits + [hit], v, now);
      GoesOnLonger(hits, hit, all, now);
    }
  }

  lemma {:induction false} GoesOnLonger(hits: seq<Hit>, hit: Hit, all: seq<Hit>, now: int)
    requires hit.now == now && GoesOn(hits + [hit], all, now)
    ensures GoesOn(hits, all, now)
  {
    assert all[|hits|] == (hits + [hit])[|hits|];
  }

  /** `all` goes on after `start` in one millisecond, and more hits than the limit are accepted in the
      window that ends there. */
  ghost predicate OverAdmits(limit: Limit, start: seq<Hit>, all: seq<Hit>, now: int) {
    && InTime(all) && GoesOn(start, all, now)
    && CountIn(TraceOf(limit, all).accepted, now - Ms(limit), now, false) > limit.requests
  }

  /** One replacement is enough to break the bound: whenever an accepted hit finds its own member live,
      some further hits of the same millisecond, each with a name of its own, are accepted until the
      window that ends with them holds more than the limit. */
  lemma {:induction false} ReplacementOverAdmits(limit: Limit, hits: seq<Hit>, hit: Hit) returns (all: seq<Hit>)
    requires InTime(hits + [hit]) && limit.windowSeconds >= 1
    requires Replaces(TraceOf(limit, hits).z, limit, hit.now, hit.serial)
    ensures OverAdmits(limit, hits + [hit], all, hit.now)
  {
    var start := hits + [hit];
    LastHit(hits, hit);
    var u := ReplacementIsListed(limit, hits, hit);
    all := OverAdmitsFrom(limit, start, u, hit.now);
  }

  lemma {:induction false} LastHit(hits: seq<Hit>, hit: Hit)
    requires InTime(hits + [hit])
    ensures LastOf(hits + [hit]) == hit.now && 0 <= hit.now
  {
    assert (hits + [hit])[|hits|] == hit;
  }

  lemma {:induction false} OverAdmitsFrom(limit: Limit, start: seq<Hit>, u: Trace, now: int) returns (all: seq<Hit>)
    requires InTime(start) && LastOf(start) == now && 0 <= now && limit.windowSeconds >= 1
    requires TraceOf(limit, start) == u && CountIn(u.replaced, now - Ms(limit), now, false) >= 1
    ensures OverAdmits(limit, start, all, now)
  {
    var more, w := UseUp(limit, start, u, now);
    all := more;
    AcceptedAreRecordedOrReplace(limit, all, now - Ms(limit), now, false);
  }

  lemma {:induction false} ReplacementIsListed(limit: Limit, hits: seq<Hit>, hit: Hit) returns (u: Trace)
    requires Replaces(TraceOf(limit, hits).z, limit, hit.now, hit.serial) && limit.windowSeconds >= 1
    ensures TraceOf(limit, hits + [hit]) == u && CountIn(u.replaced, hit.now - Ms(limit), hit.now, false) >= 1
  {
    var t := TraceOf(limit, hits);
    u := TraceStep(limit, hits, t, hit, hits + [hit]);
    CountInAppend(t.replaced, hit.now, hit.now - Ms(limit), hit.now, false);
  }

  lemma {:induction false} StageOne(limit: Limit, one: seq<Hit>)
    requires limit == Limit(2, 1) && one == [] + [Hit(0, 1)]
    ensures TraceOf(limit, one).z == SortedSet([0], [1], 1000)
    ensures TraceOf(limit, one).accepted == [] + [0] && TraceOf(limit, one).replaced == []
  {
    FirstHit();
    var u := TraceStep(limit, [], Trace(SortedSet([], [], 0), [], [], []), Hit(0, 1), one);
  }

  lemma {:induction false} StageTwo(limit: Limit, one: seq<Hit>, two: seq<Hit>)
    requires limit == Limit(2, 1) && two == one + [Hit(0, 1)]
    requires TraceOf(limit, one).z == SortedSet([0], [1], 1000)
    requires TraceOf(limit, one).accepted == [] + [0] && TraceOf(limit, one).replaced == []
    ensures TraceOf(limit, two).z == SortedSet([0], [1], 1000)
    ensures TraceOf(limit, two).accepted == [] + [0] + [0] && TraceOf(limit, two).replaced == [] + [0]
  {
    SecondHit();
    var u := TraceStep(limit, one, TraceOf(limit, one), Hit(0, 1), two);
  }

  lemma {:induction false} StageThree(limit: Limit, two: seq<Hit>, three: seq<Hit>)
    requires limit == Limit(2, 1) && three == two + [Hit(0, 2)]
    requires TraceOf(limit, two).z == SortedSet([0], [1], 1000)
    requires TraceOf(limit, two).accepted == [] + [0] + [0] && TraceOf(limit, two).replaced == [] + [0]
    ensures TraceOf(limit, three).accepted == [] + [0] + [0] + [0] && TraceOf(limit, three).replaced == [] + [0]
  {
    ThirdHit();
    var u := TraceStep(limit, two, TraceOf(limit, two), Hit(0, 2), three);
  }

  /** Two processes in one millisecond name the same member: three hits are accepted in one second where
      two are allowed. */
  lemma {:induction false} SharedSerialsOverAdmit() returns (hits: seq<Hit>)
    ensures hits == [] + [Hit(0, 1)] + [Hit(0, 1)] + [Hit(0, 2)]
    ensures TraceOf(Limit(2, 1), hits).accepted == [] + [0] + [0] + [0]
    ensures TraceOf(Limit(2, 1), hits).replaced == [] + [0]
    ensures CountIn(TraceOf(Limit(2, 1), hits).accepted, 0, 1000, true) == 3
  {
    var one := [] + [Hit(0, 1)];
    var two := one + [Hit(0, 1)];
    hits := two + [Hit(0, 2)];
    StageOne(Limit(2, 1), one);
    StageTwo(Limit(2, 1), one, two);
    StageThree(Limit(2, 1), two, hits);
    CountThree();
  }

  lemma {:induction false} CountThree()
    ensures CountIn([] + [0] + [0] + [0], 0, 1000, true) == 3
  {
    CountInAppend([], 0, 0, 1000, true);
    CountInAppend([] + [0], 0, 0, 1000, true);
    CountInAppend([] + [0] + [0], 0, 0, 1000, true);
  }

  lemma {:induction false} TraceStep(limit: Limit, hits: seq<Hit>, t: Trace, hit: Hit, all: seq<Hit>) returns (u: Trace)
    requires TraceOf(limit, hits) == t && all == hits + [hit]
    ensures TraceOf(limit, all) == u && u.z == Script(t.z, limit, hit.now, hit.serial).1
    ensures u.recorded == Recorded(t.z, t.recorded, limit, hit.now, hit.serial)
    ensures u.accepted ==
            if Script(t.z, limit, hit.now, hit.serial).0.allowed then t.accepted + [hit.now] else t.accepted
    ensures u.replaced ==
            if Replaces(t.z, limit, hit.now, hit.serial) then t.replaced + [hit.now] else t.replaced
  {
    assert all[..|all| - 1] == hits;
    u := TraceOf(limit, all);
  }

  lemma {:induction false} FirstHit()
    ensures Script(SortedSet([], [], 0), Limit(2, 1), 0, 1) == (LuaReply(true, 1, 0), SortedSet([0], [1], 1000))
    ensures !Replaces(SortedSet([], [], 0), Limit(2, 1), 0, 1)
  {
    assert [] + [0] == [0] && [] + [1] == [1];
  }

  lemma {:induction false} SecondHit()
    ensures Script(SortedSet([0], [1], 1000), Limit(2, 1), 0, 1) == (LuaReply(true, 2, 0), SortedSet([0], [1], 1000))
    ensures Replaces(SortedSet([0], [1], 1000), Limit(2, 1), 0, 1)
  {
    var key: Zset := SortedSet([0], [1], 1000);
    assert Live(key, 1000, 0) == key;
    assert key.scores[0] == 0 && key.serials[0] == 1;
  }

  lemma {:induction false} ThirdHit()
    ensures Script(SortedSet([0], [1], 1000), Limit(2, 1), 0, 2).0.allowed
    ensures !Replaces(SortedSet([0], [1], 1000), Limit(2, 1), 0, 2)
  {
    var key: Zset := SortedSet([0], [1], 1000);
    assert Live(key, 1000, 0) == key;
  }

  // ------------------------------------------------------------------ the store and its processes

  /** The store that all processes share. `recorded` has the times of the hits each key has recorded. */
  class RedisStore {
    const limitOf: string -> Limit
    var keys: map<string, Zset>
    ghost var recorded: map<string, seq<int>>
    ghost var clock: int

    ghost predicate Valid()
      reads this
    {
      && keys.Keys == recorded.Keys && clock >= 0
      && forall key :: key in keys ==>
           ZsetOk(limitOf(key).requests, Ms(limitOf(key)), keys[key], recorded[key], clock)
    }

    function KeyOf(key: string): Zset
      reads this
    {
      if key in keys then keys[key] else SortedSet([], [], 0)
    }

    ghost function Past(key: string): seq<int>
      reads this
    {
      if key in recorded then recorded[key] else []
    }

    constructor (limitOf: string -> Limit)
      ensures Valid() && this.limitOf == limitOf && keys == map[] && forall key :: Past(key) == []
    {
      this.limitOf := limitOf;
      keys, recorded, clock := map[], map[], 0;
    }

    lemma {:induction false} KeyIsOk(key: string)
      requires Valid()
      ensures ZsetOk(limitOf(key).requests, Ms(limitOf(key)), KeyOf(key), Past(key), clock)
    {
      FreshKeyOk(limitOf(key).requests, Ms(limitOf(key)), clock);
    }

    lemma {:induction false} OthersStayOk(now: int)
      requires Valid() && clock <= now
      ensures forall key :: key in keys ==>
                ZsetOk(limitOf(key).requests, Ms(limitOf(key)), keys[key], recorded[key], now)
    {
      forall key | key in keys
        ensures ZsetOk(limitOf(key).requests, Ms(limitOf(key)), keys[key], recorded[key], now)
      {
        LaterStaysOk(limitOf(key).requests, Ms(limitOf(key)), keys[key].scores, recorded[key], clock, now);
      }
    }

    method Put(key: string, z: Zset, ghost h: seq<int>, now: int)
      requires Valid() && clock <= now && ZsetOk(limitOf(key).requests, Ms(limitOf(key)), z, h, now)
      modifies this
      ensures Valid() && clock == now && KeyOf(key) == z && Past(key) == h
      ensures forall other :: other != key ==> KeyOf(other) == old(KeyOf(other)) && Past(other) == old(Past(other))
    {
      OthersStayOk(now);
      keys, recorded, clock := keys[key := z], recorded[key := h], now;
    }

    /** The script runs as one step of the store. */
    method RunScript(key: string, now: int, serial: nat) returns (reply: LuaReply)
      requires Valid() && clock <= now && limitOf(key).windowSeconds >= 1
      modifies this
      ensures Valid() && clock == now
      ensures (reply, KeyOf(key)) == Script(old(KeyOf(key)), limitOf(key), now, serial)
      ensures Past(key) == Recorded(old(KeyOf(key)), old(Past(key)), limitOf(key), now, serial)
      ensures forall other :: other != key ==> KeyOf(other) == old(KeyOf(other)) && Past(other) == old(Past(other))
    {
      KeyIsOk(key);
      ScriptKeepsKey(limitOf(key), KeyOf(key), Past(key), clock, now, serial);
      ghost var h := Recorded(KeyOf(key), Past(key), limitOf(key), now, serial);
      var (answer, after) := Script(KeyOf(key), limitOf(key), now, serial);
      Put(key, after, h, now);
      reply := answer;
    }

    /** No window of a key's length, closed on either side, holds more recorded hits than its limit. */
    lemma {:induction false} NeverMoreThanTheLimit(key: string, lo: int, closedLeft: bool)
      requires Valid() && limitOf(key).windowSeconds >= 1
      ensures CountIn(Past(key), lo, lo + Ms(limitOf(key)), closedLeft) <= Max(0, limitOf(key).requests)
    {
      KeyIsOk(key);
      HistoryIsBounded(limitOf(key).requests, Ms(limitOf(key)), Past(key), clock, lo, closedLeft);
    }
  }

  /** No serial number above `serial` was used. */
  predicate Numbered(z: Zset, serial: int) {
    forall i :: 0 <= i < |z.serials| ==> z.serials[i] <= serial
  }

  /** A process that has the key to itself counts up and so records every hit that is accepted. */
  lemma {:induction false} OwnKeyRecordsAll(limit: Limit, z: Zset, h: seq<int>, now: int, serial: nat)
    requires Numbered(z, serial - 1)
    ensures !Replaces(z, limit, now, serial) && Numbered(Script(z, limit, now, serial).1, serial)
    ensures Recorded(z, h, limit, now, serial) == h + (if Script(z, limit, now, serial).0.allowed then [now] else [])
  {
    assert Numbered(Live(z, Ms(limit), now), serial - 1);
  }

  /** One of the processes in front of the store, numbering its own hits. */
  class RedisRateLimiter {
    const redis: RedisStore
    var serial: nat

    constructor (redis: RedisStore)
      ensures this.redis == redis && serial == 0
    {
      this.redis := redis;
      serial := 0;
    }

    /** Whatever other processes do, the set answers as the full history of recorded hits would; an
        accepted hit is recorded unless its name is taken by a live one. */
    method Hit(key: string, now: int) returns (reply: LuaReply)
      requires redis.Valid() && redis.clock <= now && redis.limitOf(key).windowSeconds >= 1
      modifies this, redis
      ensures redis.Valid() && redis.clock == now && serial == old(serial) + 1
      ensures (reply, redis.KeyOf(key)) == Script(old(redis.KeyOf(key)), redis.limitOf(key), now, serial)
      ensures reply.allowed <==>
                SpecAllows(old(redis.Past(key)), redis.limitOf(key).requests, Ms(redis.limitOf(key)), now)
      ensures redis.Past(key) == Recorded(old(redis.KeyOf(key)), old(redis.Past(key)), redis.limitOf(key), now, serial)
      ensures forall other :: other != key ==> redis.Past(other) == old(redis.Past(other))
    {
      redis.KeyIsOk(key);
      ScriptDecidesAsSpec(redis.limitOf(key), redis.KeyOf(key), redis.Past(key), redis.clock, now, serial + 1);
      serial := serial + 1;
      reply := redis.RunScript(key, now, serial);
    }
  }
}
