/**
 The rate limiter. Its counter is a fixed window that opens at the first hit: the script sets the expiry only when
 the increment returns 1. Times are whole units of the window, such as milliseconds.
 */
module RateLimit {
  import opened Wrappers

  /** The Redis key of one limited subject. */
  datatype Counter = Counter(count: nat, expiresAt: int)

  /** What a GET at `now` sees. */
  function Visible(entry: Option<Counter>, now: int): Option<Counter> {
    if entry.Some? && now < entry.value.expiresAt then entry else None
  }

  function CountAt(entry: Option<Counter>, now: int): nat {
    if Visible(entry, now).Some? then entry.value.count else 0
  }

  /** The script: INCR, and EXPIRE only when that gave 1. */
  function Hit(entry: Option<Counter>, now: int, window: int): Counter {
    var current := CountAt(entry, now) + 1;
    Counter(current, if current == 1 then now + window else entry.value.expiresAt)
  }

  /** The verdicts on a sequence of calls of one key. */
  function Verdicts(entry: Option<Counter>, times: seq<int>, limit: int, window: int): (r: seq<bool>)
    ensures |r| == |times|
    decreases |times|
  {
    if times == [] then []
    else
      var after := Hit(entry, times[0], window);
      [after.count <= limit] + Verdicts(Some(after), times[1..], limit, window)
  }

  class RateLimitService {
    var entries: map<string, Counter>

    ghost function Entry(key: string): Option<Counter>
      reads this
    {
      if key in entries then Some(entries[key]) else None
    }

    constructor ()
      ensures entries == map[]
    {
      entries := map[];
    }

    /** EXPIRE with a window that is not positive deletes the key, which here is an entry that nobody sees. */
    method IncrementInWindow(key: string, window: int, now: int) returns (current: nat)
      modifies this
      ensures entries == old(entries)[key := Hit(old(Entry(key)), now, window)]
      ensures current == entries[key].count == old(CountAt(Entry(key), now)) + 1
      ensures current == 1 ==> forall t :: CountAt(Entry(key), t) == if t < now + window then 1 else 0
      ensures current > 1 ==>
        forall t :: CountAt(Entry(key), t) == if old(CountAt(Entry(key), t)) > 0 then current else 0
    {
      var expiresAt := now;
      current := 1;
      if key in entries && now < entries[key].expiresAt {
        current := entries[key].count + 1;
        expiresAt := entries[key].expiresAt;
      }
      if current == 1 {
        expiresAt := now + window;
      }
      entries := entries[key := Counter(current, expiresAt)];
    }

    method IsAllowed(key: string, limit: int, window: int, now: int) returns (allowed: bool)
      modifies this
      ensures entries == old(entries)[key := Hit(old(Entry(key)), now, window)]
      ensures old(CountAt(Entry(key), now)) == 0 ==>
        forall t :: CountAt(Entry(key), t) == if t < now + window then 1 else 0
      ensures allowed <==> CountAt(old(Entry(key)), now) < limit
    {
      var count := IncrementInWindow(key, window, now);
      allowed := count <= limit;
    }

    method GetRemaining(key: string, limit: int, now: int) returns (remaining: nat)
      ensures remaining > 0 <==> CountAt(Entry(key), now) < limit
      ensures remaining == (if CountAt(Entry(key), now) < limit then limit - CountAt(Entry(key), now) else 0)
    {
      var count := if key in entries && now < entries[key].expiresAt then entries[key].count else 0;
      remaining := if limit - count > 0 then limit - count else 0;
    }
  }

  // ---------- what the window admits ----------

  ghost predicate Ordered(times: seq<int>) {
    forall i, j :: 0 <= i <= j < |times| ==> times[i] <= times[j]
  }

  ghost function AtLeastZero(n: int): nat {
    if n > 0 then n else 0
  }

  /** Calls inside one window are allowed until the limit is reached; refused ones do not move its end. */
  lemma {:induction false} WindowAdmits(entry: Option<Counter>, times: seq<int>, limit: int, window: int, i: nat)
    requires entry.Some? && entry.value.count >= 1 && i < |times|
    requires forall k :: 0 <= k <= i ==> times[k] < entry.value.expiresAt
    ensures Verdicts(entry, times, limit, window)[i] <==> entry.value.count + i < limit
    decreases i
  {
    if i > 0 {
      WindowAdmits(Some(Hit(entry, times[0], window)), times[1..], limit, window, i - 1);
    }
  }

  /** A window that opens with call 0 and holds calls 0..i allows exactly its first `limit` calls. */
  lemma FirstWindowAdmits(times: seq<int>, limit: int, window: int, i: nat)
    requires Ordered(times) && i < |times| && times[i] < times[0] + window
    ensures Verdicts(None, times, limit, window)[i] <==> i < limit
  {
    if i > 0 {
      WindowAdmits(Some(Hit(None, times[0], window)), times[1..], limit, window, i - 1);
    }
  }

  /** Whatever happened before, refusals included, the first call at or after the window's end opens a new window. */
  lemma {:induction false} NextWindowOpens(entry: Option<Counter>, times: seq<int>, limit: int, window: int, k: nat)
    requires entry.Some? && entry.value.count >= 1 && k < |times|
    requires (forall i :: 0 <= i < k ==> times[i] < entry.value.expiresAt) && entry.value.expiresAt <= times[k]
    ensures Verdicts(entry, times, limit, window)[k] <==> limit >= 1
    ensures Verdicts(entry, times, limit, window)[k..] == Verdicts(None, times[k..], limit, window)
    decreases k
  {
    if k > 0 {
      NextWindowOpens(Some(Hit(entry, times[0], window)), times[1..], limit, window, k - 1);
      assert times[1..][k - 1..] == times[k..];
      assert Verdicts(entry, times, limit, window)[k..] ==
             Verdicts(Some(Hit(entry, times[0], window)), times[1..], limit, window)[k - 1..];
    } else {
      assert times[0..] == times;
      assert Hit(entry, times[0], window) == Hit(None, times[0], window);
    }
  }

  /**
   Said from a missing key: the window that call 0 opens ends `window` later. The first call from then on is allowed
   if any ever is, and from it on the verdicts are those of a new key.
   */
  lemma WindowEnds(times: seq<int>, limit: int, window: int, k: nat)
    requires Ordered(times) && 0 < k < |times|
    requires (forall i :: 0 < i < k ==> times[i] < times[0] + window) && times[0] + window <= times[k]
    ensures Verdicts(None, times, limit, window)[k] <==> limit >= 1
    ensures Verdicts(None, times, limit, window)[k..] == Verdicts(None, times[k..], limit, window)
  {
    NextWindowOpens(Some(Hit(None, times[0], window)), times[1..], limit, window, k - 1);
    assert times[1..][k - 1..] == times[k..];
    assert Verdicts(None, times, limit, window)[k..] ==
      Verdicts(Some(Hit(None, times[0], window)), times[1..], limit, window)[k - 1..];
  }

  /** How many calls with a time in [t, t + window) were allowed. */
  ghost function AllowedIn(times: seq<int>, verdicts: seq<bool>, t: int, window: int): nat
    requires |times| == |verdicts|
    decreases |times|
  {
    if times == [] then 0
    else
      (if t <= times[0] < t + window && verdicts[0] then 1 else 0) +
      AllowedIn(times[1..], verdicts[1..], t, window)
  }

  /** What a counter still lets into [t, t + window), from the window it is in and the one after. */
  ghost function Capacity(entry: Option<Counter>, t: int, limit: int, window: int): nat {
    if entry.None? || entry.value.expiresAt <= t then AtLeastZero(2 * limit - 1)
    else if entry.value.expiresAt < t + window then AtLeastZero(limit - entry.value.count) + AtLeastZero(limit)
    else AtLeastZero(limit - entry.value.count)
  }

  lemma {:induction false} CapacityBounds(entry: Option<Counter>, times: seq<int>, t: int, limit: int, window: int)
    requires window > 0 && Ordered(times)
    requires entry.Some? ==> entry.value.count >= 1
    ensures AllowedIn(times, Verdicts(entry, times, limit, window), t, window) <= Capacity(entry, t, limit, window)
    decreases |times|
  {
    if times != [] {
      var after := Hit(entry, times[0], window);
      var rest := Verdicts(Some(after), times[1..], limit, window);
      assert Verdicts(entry, times, limit, window) == [after.count <= limit] + rest;
      assert Verdicts(entry, times, limit, window)[1..] == rest;
      if t + window <= times[0] {
        NothingAfter(times[1..], rest, t, window);
      } else {
        CapacityBounds(Some(after), times[1..], t, limit, window);
      }
    }
  }

  lemma {:induction false} NothingAfter(times: seq<int>, verdicts: seq<bool>, t: int, window: int)
    requires |times| == |verdicts| && forall i :: 0 <= i < |times| ==> t + window <= times[i]
    ensures AllowedIn(times, verdicts, t, window) == 0
    decreases |times|
  {
    if times != [] {
      NothingAfter(times[1..], verdicts[1..], t, window);
    }
  }

  /** On any key, at any time: no interval of window length sees more than 2 * limit - 1 allowed calls. */
  lemma IntervalBound(times: seq<int>, t: int, limit: int, window: int)
    requires window > 0 && Ordered(times)
    ensures AllowedIn(times, Verdicts(None, times, limit, window), t, window) <= AtLeastZero(2 * limit - 1)
  {
    CapacityBounds(None, times, t, limit, window);
  }

  // ---------- the bound is reached ----------

  function Burst(n: nat, time: int): seq<int> {
    seq(n, _ => time)
  }

  /** Calls at one instant count fully while the limit lasts. */
  lemma {:induction false} BurstCounts(entry: Option<Counter>, n: nat, time: int, more: seq<int>, t: int, limit: int,
                                       window: int)
    requires window > 0 && t <= time < t + window
    requires CountAt(entry, time) + n <= limit && (entry.Some? ==> entry.value.count >= 1)
    ensures
      var after := if n == 0 then entry
                   else Some(Counter(CountAt(entry, time) + n, Hit(entry, time, window).expiresAt));
      AllowedIn(Burst(n, time) + more, Verdicts(entry, Burst(n, time) + more, limit, window), t, window) ==
      n + AllowedIn(more, Verdicts(after, more, limit, window), t, window)
    decreases n
  {
    if n == 0 {
      assert Burst(n, time) + more == more;
    } else {
      var times := Burst(n, time) + more;
      assert times[0] == time && times[1..] == Burst(n - 1, time) + more;
      FirstHitCounts(entry, time, times, t, limit, window);
      BurstCounts(Some(Hit(entry, time, window)), n - 1, time, more, t, limit, window);
    }
  }

  lemma FirstHitCounts(entry: Option<Counter>, time: int, times: seq<int>, t: int, limit: int, window: int)
    requires t <= time < t + window && times != [] && times[0] == time && CountAt(entry, time) < limit
    ensures AllowedIn(times, Verdicts(entry, times, limit, window), t, window) ==
      1 + AllowedIn(times[1..], Verdicts(Some(Hit(entry, time, window)), times[1..], limit, window), t, window)
  {
    assert Verdicts(entry, times, limit, window)[1..] ==
      Verdicts(Some(Hit(entry, time, window)), times[1..], limit, window);
  }

  /** One early call, the rest of the limit at the end of its window, and the full limit right after: 2 * limit - 1. */
  lemma IntervalBoundIsTight(limit: int, window: int) returns (times: seq<int>, t: int)
    requires limit >= 1 && window >= 2
    ensures Ordered(times)
    ensures AllowedIn(times, Verdicts(None, times, limit, window), t, window) == 2 * limit - 1
  {
    var late, next := Burst(limit - 1, window - 1), Burst(limit, window);
    times, t := [0] + (late + next), 1;
    assert times[1..] == late + next;
    var start := Hit(None, 0, window);
    assert Verdicts(None, times, limit, window)[1..] == Verdicts(Some(start), late + next, limit, window);
    BurstCounts(Some(start), limit - 1, window - 1, next, t, limit, window);
    var full := if limit == 1 then Some(start) else Some(Counter(limit, window));
    assert next + [] == next;
    BurstCounts(full, limit, window, [], t, limit, window);
  }

  // ---------- when the window is as good as a sliding one ----------

  /** What a sliding window would promise: at most `limit` allowed calls in every interval of window length. */
  ghost predicate Sliding(limit: int, window: int) {
    forall times, t ::
      Ordered(times) ==> AllowedIn(times, Verdicts(None, times, limit, window), t, window) <= AtLeastZero(limit)
  }

  /** With a window of one unit an interval is one instant, which sees one window only. */
  lemma {:induction false} InstantBound(entry: Option<Counter>, times: seq<int>, t: int, limit: int)
    requires Ordered(times) && (entry.Some? ==> entry.value.count >= 1)
    ensures AllowedIn(times, Verdicts(entry, times, limit, 1), t, 1) <= AtLeastZero(limit - CountAt(entry, t))
    decreases |times|
  {
    if times != [] {
      var after := Hit(entry, times[0], 1);
      var rest := Verdicts(Some(after), times[1..], limit, 1);
      assert Verdicts(entry, times, limit, 1)[1..] == rest;
      if t < times[0] {
        NothingAfter(times[1..], rest, t, 1);
      } else {
        InstantBound(Some(after), times[1..], t, limit);
      }
    }
  }

  /** The fixed window keeps the sliding promise if and only if the limit is at most 1 or the window is one unit. */
  lemma SlidingIff(limit: int, window: int)
    requires window >= 1
    ensures Sliding(limit, window) <==> limit <= 1 || window == 1
  {
    if limit <= 1 || window == 1 {
      forall times, t | Ordered(times)
        ensures AllowedIn(times, Verdicts(None, times, limit, window), t, window) <= AtLeastZero(limit)
      {
        if window == 1 {
          InstantBound(None, times, t, limit);
        } else {
          IntervalBound(times, t, limit, window);
        }
      }
    } else {
      var times, t := IntervalBoundIsTight(limit, window);
    }
  }
}
