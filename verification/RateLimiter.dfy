/** The pruning rate limiter against one that keeps every accepted call. */
module RateLimiter {
  predicate Sorted(h: seq<int>) { forall i, j | 0 <= i < j < |h| :: h[i] <= h[j] }

  /** Accepted calls at `from` or later. */
  function Since(h: seq<int>, from: int): nat { |Retain(h, from)| }

  /** Accepted calls in the closed interval. */
  function Within(h: seq<int>, from: int, to: int): nat
  {
    if h == [] then 0 else Within(h[1..], from, to) + if from <= h[0] <= to then 1 else 0
  }

  function Retain(h: seq<int>, from: int): seq<int>
  {
    if h == [] then [] else if h[0] >= from then [h[0]] + Retain(h[1..], from) else Retain(h[1..], from)
  }

  /** The full-history limiter: refuse once `max` calls were accepted in the preceding window. */
  predicate Accepts(h: seq<int>, max: nat, window: int, now: int) { Since(h, now - window) < max }

  // ---- one key ----

  /** What the source keeps of a key, and every call it accepted. */
  datatype Key = Key(history: seq<int>, bucket: seq<int>)

  /** One call at reading `now`: prune, then refuse or push. */
  function Call(k: Key, now: int, max: nat, window: int): Key
  {
    var kept := Retain(k.bucket, now - window);
    if |kept| >= max then Key(k.history, kept) else Key(k.history + [now], kept + [now])
  }

  predicate Allows(k: Key, now: int, max: nat, window: int) { |Retain(k.bucket, now - window)| < max }

  /** A key after calls at the given clock readings, in any order. */
  function Calls(times: seq<int>, max: nat, window: int): Key
  {
    if times == [] then Key([], []) else Call(Calls(times[..|times| - 1], max, window), times[|times| - 1], max, window)
  }

  predicate NoneAfter(times: seq<int>, now: int) { forall i | 0 <= i < |times| :: times[i] <= now }

  lemma CallsStep(times: seq<int>, now: int, max: nat, window: int)
    ensures Calls(times + [now], max, window) == Call(Calls(times, max, window), now, max, window)
  {
    assert (times + [now])[..|times|] == times;
  }

  lemma CallsNone(max: nat, window: int)
    ensures Calls([], max, window) == Key([], [])
  {
  }

  // ---- counting ----

  lemma {:induction false} RetainSplit(a: seq<int>, b: seq<int>, from: int)
    ensures Retain(a + b, from) == Retain(a, from) + Retain(b, from)
  {
    if a == [] {
      assert a + b == b;
    } else {
      assert (a + b)[1..] == a[1..] + b;
      RetainSplit(a[1..], b, from);
    }
  }

  lemma {:induction false} RetainAll(h: seq<int>, from: int)
    requires forall i | 0 <= i < |h| :: h[i] >= from
    ensures Retain(h, from) == h
  {
    if h != [] { RetainAll(h[1..], from); }
  }

  lemma {:induction false} RetainNone(h: seq<int>, from: int)
    requires forall i | 0 <= i < |h| :: h[i] < from
    ensures Retain(h, from) == []
  {
    if h != [] { RetainNone(h[1..], from); }
  }

  /** Pruning earlier at a lower bound makes no difference. */
  lemma {:induction false} RetainTwice(h: seq<int>, low: int, from: int)
    requires low <= from
    ensures Retain(Retain(h, low), from) == Retain(h, from)
  {
    if h != [] { RetainTwice(h[1..], low, from); }
  }

  /** Retaining less retains a part. */
  lemma {:induction false} RetainFewer(h: seq<int>, low: int, from: int)
    ensures |Retain(Retain(h, low), from)| <= |Retain(h, from)|
  {
    if h != [] { RetainFewer(h[1..], low, from); }
  }

  // ---- what pruning keeps, for clock readings in any order ----

  /** At every reading from the highest on, the bucket counts what the history does. */
  lemma {:induction false} PrunedExactly(times: seq<int>, max: nat, window: int, now: int)
    requires NoneAfter(times, now)
    ensures Retain(Calls(times, max, window).bucket, now - window) ==
      Retain(Calls(times, max, window).history, now - window)
  {
    if times != [] {
      var before, last := times[..|times| - 1], times[|times| - 1];
      PrunedExactly(before, max, window, now);
      var k := Calls(before, max, window);
      RetainTwice(k.bucket, last - window, now - window);
      RetainSplit(k.history, [last], now - window);
      RetainSplit(Retain(k.bucket, last - window), [last], now - window);
    }
  }

  /** At any reading the bucket counts no more than the history: no call is refused that the
      full-history limiter would accept. */
  lemma {:induction false} NeverTooStrict(times: seq<int>, max: nat, window: int, now: int)
    ensures Since(Calls(times, max, window).bucket, now - window) <=
      Since(Calls(times, max, window).history, now - window)
    ensures Accepts(Calls(times, max, window).history, max, window, now) ==>
      Allows(Calls(times, max, window), now, max, window)
  {
    if times != [] {
      var before, last := times[..|times| - 1], times[|times| - 1];
      NeverTooStrict(before, max, window, now);
      var k := Calls(before, max, window);
      RetainFewer(k.bucket, last - window, now - window);
      RetainSplit(k.history, [last], now - window);
      RetainSplit(Retain(k.bucket, last - window), [last], now - window);
    }
  }

  lemma Decides(times: seq<int>, max: nat, window: int, now: int)
    ensures var k := Calls(times, max, window);
      && (Accepts(k.history, max, window, now) ==> Allows(k, now, max, window))
      && (NoneAfter(times, now) ==> (Allows(k, now, max, window) <==> Accepts(k.history, max, window, now)))
  {
    hide Calls, Retain;
    NeverTooStrict(times, max, window, now);
    if NoneAfter(times, now) { PrunedExactly(times, max, window, now); }
  }

  // ---- when the clock does not go back ----

  /** Any max + 1 accepted calls in a row span more than the window. */
  predicate Spread(h: seq<int>, max: nat, window: int)
  {
    forall i | 0 <= i && i + max < |h| :: h[i + max] > h[i] + window
  }

  lemma SinceSuffix(h: seq<int>, from: int, k: nat)
    requires Sorted(h) && k <= |h| && Since(h, from) < k
    ensures k > 0 && h[|h| - k] < from
  {
    if h[|h| - k] >= from {
      var cut := |h| - k;
      assert h == h[..cut] + h[cut..];
      RetainSplit(h[..cut], h[cut..], from);
      RetainAll(h[cut..], from);
    }
  }

  /** An accepted call keeps the history sorted and spread. */
  lemma AcceptKeepsSpread(h: seq<int>, max: nat, window: int, now: int)
    requires Sorted(h) && Spread(h, max, window) && Accepts(h, max, window, now) && NoneAfter(h, now)
    ensures Sorted(h + [now]) && Spread(h + [now], max, window)
  {
    hide Accepts, Since;
    var h' := h + [now];
    forall i | 0 <= i && i + max < |h'| ensures h'[i + max] > h'[i] + window {
      if i + max == |h| { LastSpans(h, max, window, now); } else { assert h'[i] == h[i] && h'[i + max] == h[i + max]; }
    }
  }

  lemma LastSpans(h: seq<int>, max: nat, window: int, now: int)
    requires Sorted(h) && Accepts(h, max, window, now) && max <= |h|
    ensures max > 0 && now > h[|h| - max] + window
  {
    SinceSuffix(h, now - window, max);
  }

  /** With readings in order the history is sorted and spread. */
  lemma {:induction false} OrderedCalls(times: seq<int>, max: nat, window: int)
    requires Sorted(times)
    ensures var h := Calls(times, max, window).history;
      && Sorted(h) && Spread(h, max, window)
      && (if times == [] then h == [] else NoneAfter(h, times[|times| - 1]))
  {
    if times != [] {
      var before, last := times[..|times| - 1], times[|times| - 1];
      OrderedCalls(before, max, window);
      var k := Calls(before, max, window);
      assert NoneAfter(k.history, last);
      PrunedExactly(before, max, window, last);
      if Allows(k, last, max, window) { AcceptKeepsSpread(k.history, max, window, last); }
    }
  }

  /** The calls inside an interval are neighbours. */
  lemma {:induction false} WithinIsRun(h: seq<int>, from: int, to: int) returns (i: nat)
    requires Sorted(h) && Within(h, from, to) > 0
    ensures i + Within(h, from, to) <= |h| && h[i] >= from && h[i + Within(h, from, to) - 1] <= to
  {
    var n := Within(h[1..], from, to);
    i := 0;
    if n > 0 {
      var j := WithinIsRun(h[1..], from, to);
      if from <= h[0] <= to {
        assert h[n] <= h[j + n] == h[1..][j + n - 1];
      } else {
        i := j + 1;
        assert h[i + n - 1] == h[1..][j + n - 1];
      }
    }
  }

  lemma SpreadBound(h: seq<int>, max: nat, window: int, from: int)
    requires Sorted(h) && Spread(h, max, window)
    ensures Within(h, from, from + window) <= max
  {
    if Within(h, from, from + window) > max {
      var i := WithinIsRun(h, from, from + window);
      LongRunSpansWindow(h, max, window, i, Within(h, from, from + window));
    }
  }

  lemma LongRunSpansWindow(h: seq<int>, max: nat, window: int, i: nat, n: nat)
    requires Sorted(h) && Spread(h, max, window) && n > max && i + n <= |h|
    ensures h[i + n - 1] > h[i] + window
  {
    assert h[i + max] <= h[i + n - 1];
  }

  /** After any calls at readings in order, no closed interval of the window's length holds more than
      `max` of the accepted ones. */
  lemma WindowBound(times: seq<int>, max: nat, window: int, from: int)
    requires Sorted(times)
    ensures Within(Calls(times, max, window).history, from, from + window) <= max
  {
    OrderedCalls(times, max, window);
    SpreadBound(Calls(times, max, window).history, max, window, from);
  }

  // ---- exactly when pruning decides as the full history does ----

  predicate Agrees(times: seq<int>, max: nat, window: int, now: int)
  {
    Allows(Calls(times, max, window), now, max, window) <==>
      Accepts(Calls(times, max, window).history, max, window, now)
  }

  /** Calls at readings in any order, the highest of which is `high`. */
  predicate Highest(times: seq<int>, high: int) { NoneAfter(times, high) && high in times }

  function Repeated(x: int, n: nat): seq<int> { seq(n, _ => x) }

  lemma {:induction false} RepeatedCalls(x: int, n: nat, max: nat, window: int)
    requires n <= max && window >= 0
    ensures Calls(Repeated(x, n), max, window) == Key(Repeated(x, n), Repeated(x, n))
  {
    hide Calls, Retain;
    if n == 0 {
      CallsNone(max, window);
      assert Repeated(x, n) == [];
    } else {
      assert Repeated(x, n) == Repeated(x, n - 1) + [x];
      CallsStep(Repeated(x, n - 1), x, max, window);
      RepeatedCalls(x, n - 1, max, window);
      RetainAll(Repeated(x, n - 1), x - window);
    }
  }

  /** As many calls as allowed at the start of the window that ends at `now`, then one past `now`. */
  function Overtaken(max: nat, window: int, high: int, now: int): seq<int> { Repeated(now - window, max) + [high] }

  lemma OvertakenCalls(max: nat, window: int, high: int, now: int)
    requires max >= 2 && window >= 0 && now < high
    ensures var times := Overtaken(max, window, high, now);
      Sorted(times) && Highest(times, high) && Calls(times, max, window) == Key(times, [high])
  {
    hide Calls, Retain;
    var a := now - window;
    assert Overtaken(max, window, high, now)[max] == high;
    CallsStep(Repeated(a, max), high, max, window);
    RepeatedCalls(a, max, max, window);
    RetainNone(Repeated(a, max), high - window);
  }

  lemma OvertakenDisagrees(max: nat, window: int, high: int, now: int)
    requires max >= 2 && window >= 0 && now < high
    ensures !Agrees(Overtaken(max, window, high, now), max, window, now)
  {
    hide Calls, Retain;
    var times := Overtaken(max, window, high, now);
    OvertakenCalls(max, window, high, now);
    RetainAll(times, now - window);
    RetainAll([high], now - window);
  }

  predicate Single(k: Key, window: int)
  {
    && Sorted(k.history) && Spread(k.history, 1, window)
    && k.bucket == if k.history == [] then [] else [k.history[|k.history| - 1]]
  }

  lemma SingleCall(k: Key, now: int, window: int)
    requires window >= 0 && Single(k, window)
    ensures Single(Call(k, now, 1, window), window)
  {
    hide Retain;
    if k.history == [] {
      RetainNone([], now - window);
    } else if k.bucket[0] >= now - window {
      RetainAll(k.bucket, now - window);
    } else {
      RetainNone(k.bucket, now - window);
    }
  }

  /** When one call is allowed, the bucket is the last accepted call. */
  lemma {:induction false} SingleCalls(times: seq<int>, window: int)
    requires window >= 0
    ensures Single(Calls(times, 1, window), window)
  {
    hide Calls, Retain, Call;
    if times == [] {
      CallsNone(1, window);
    } else {
      var before, now := times[..|times| - 1], times[|times| - 1];
      assert times == before + [now];
      SingleCalls(before, window);
      CallsStep(before, now, 1, window);
      SingleCall(Calls(before, 1, window), now, window);
    }
  }

  lemma {:induction false} NoCalls(times: seq<int>, window: int)
    ensures Calls(times, 0, window).history == []
  {
    if times != [] { NoCalls(times[..|times| - 1], window); }
  }

  lemma FewAgree(times: seq<int>, max: nat, window: int, now: int)
    requires max < 2 && window >= 0
    ensures Agrees(times, max, window, now)
  {
    hide Calls, Retain;
    if max == 1 {
      SingleCalls(times, window);
      var h := Calls(times, 1, window).history;
      if h != [] {
        var last := |h| - 1;
        if h[last] < now - window {
          RetainNone(h, now - window);
          RetainNone([h[last]], now - window);
        } else {
          assert h == h[..last] + [h[last]];
          RetainSplit(h[..last], [h[last]], now - window);
          RetainAll([h[last]], now - window);
        }
      }
    }
  }

  /** The exact condition. After calls at readings in any order, the pruned bucket is certain to decide
      a call as the full history would if and only if no earlier reading was higher than the call's, or
      at most one call is allowed. */
  lemma DecidesExactlyIffClockNotBack(max: nat, window: int, high: int, now: int)
    requires window >= 0
    ensures (forall times | Highest(times, high) :: Agrees(times, max, window, now)) <==> high <= now || max < 2
  {
    if high <= now {
      forall times | Highest(times, high) ensures Agrees(times, max, window, now) {
        assert NoneAfter(times, now);
        PrunedExactly(times, max, window, now);
      }
    } else if max < 2 {
      forall times | Highest(times, high) ensures Agrees(times, max, window, now) { FewAgree(times, max, window, now); }
    } else {
      OvertakenCalls(max, window, high, now);
      OvertakenDisagrees(max, window, high, now);
    }
  }

  function InWindow(h: seq<int>, from: int, window: int): nat { Within(h, from, from + window) }

  /** No closed interval of the window's length holds more than `max` accepted calls. */
  ghost predicate Bounded(h: seq<int>, max: nat, window: int) { forall from :: InWindow(h, from, window) <= max }

  lemma {:induction false} WithinSplit(a: seq<int>, b: seq<int>, from: int, to: int)
    ensures Within(a + b, from, to) == Within(a, from, to) + Within(b, from, to)
  {
    if a == [] {
      assert a + b == b;
    } else {
      assert (a + b)[1..] == a[1..] + b;
      WithinSplit(a[1..], b, from, to);
    }
  }

  lemma {:induction false} WithinRepeated(x: int, n: nat, from: int, to: int)
    requires from <= x <= to
    ensures Within(Repeated(x, n), from, to) == n
  {
    if n > 0 {
      assert Repeated(x, n)[1..] == Repeated(x, n - 1);
      WithinRepeated(x, n - 1, from, to);
    }
  }

  /** The bound holds after one more call. */
  ghost predicate StaysBounded(times: seq<int>, max: nat, window: int, now: int)
  {
    Bounded(Calls(times + [now], max, window).history, max, window)
  }

  lemma OvertakenUnbounded(max: nat, window: int, high: int, now: int)
    requires max >= 2 && window >= 0 && now < high
    ensures !StaysBounded(Overtaken(max, window, high, now), max, window, now)
  {
    hide Calls, Retain, Within;
    var times, a := Overtaken(max, window, high, now), now - window;
    OvertakenCalls(max, window, high, now);
    RetainAll([high], now - window);
    CallsStep(times, now, max, window);
    var h := Calls(times + [now], max, window).history;
    assert h == Repeated(a, max) + [high, now];
    WithinSplit(Repeated(a, max), [high, now], a, a + window);
    WithinRepeated(a, max, a, a + window);
    WithinPair(high, now, a, a + window);
    assert InWindow(h, a, window) == max + 1;
  }

  lemma WithinPair(x: int, y: int, from: int, to: int)
    requires x > to && from <= y <= to
    ensures Within([x, y], from, to) == 1
  {
    assert [x, y][1..] == [y];
    assert Within([y], from, to) == 1;
  }

  lemma BoundedCalls(times: seq<int>, max: nat, window: int)
    requires Sorted(times) || (max < 2 && window >= 0)
    ensures Bounded(Calls(times, max, window).history, max, window)
  {
    forall from ensures InWindow(Calls(times, max, window).history, from, window) <= max {
      if Sorted(times) {
        WindowBound(times, max, window, from);
      } else if max == 1 {
        SingleCalls(times, window);
        SpreadBound(Calls(times, max, window).history, max, window, from);
      } else {
        NoCalls(times, window);
      }
    }
  }

  /** The bound has the same exact condition: after readings in order, the last of them `high`, a call
      at `now` is certain to keep it if and only if the clock has not gone back, or at most one call is
      allowed. */
  lemma BoundedIffClockNotBack(max: nat, window: int, high: int, now: int)
    requires window >= 0
    ensures (forall times | Sorted(times) && Highest(times, high) :: StaysBounded(times, max, window, now)) <==>
      high <= now || max < 2
  {
    if high <= now || max < 2 {
      forall times | Sorted(times) && Highest(times, high) ensures StaysBounded(times, max, window, now) {
        BoundedCalls(times + [now], max, window);
      }
    } else {
      OvertakenCalls(max, window, high, now);
      OvertakenUnbounded(max, window, high, now);
      var times := Overtaken(max, window, high, now);
      assert Sorted(times) && Highest(times, high) && !StaysBounded(times, max, window, now);
    }
  }

  // ---- the limiter ----

  class Limiter {
    const max: nat
    const window: int
    var buckets: map<string, seq<int>>
    /** The clock readings of all calls of every key. */
    ghost var calls: map<string, seq<int>>

    ghost function Readings(key: string): seq<int>
      reads this
    {
      if key in calls then calls[key] else []
    }

    ghost function History(key: string): seq<int>
      reads this
    {
      Calls(Readings(key), max, window).history
    }

    function Bucket(key: string): seq<int>
      reads this
    {
      if key in buckets then buckets[key] else []
    }

    ghost predicate Valid()
      reads this
    {
      forall key :: Bucket(key) == Calls(Readings(key), max, window).bucket
    }

    constructor (max: nat, window: int)
      ensures Valid() && this.max == max && this.window == window
      ensures forall key :: Readings(key) == []
    {
      this.max, this.window := max, window;
      buckets, calls := map[], map[];
    }

    /** Decides a call at any clock reading and touches no other key. It refuses only what the
        full-history limiter would refuse, and decides as that one does unless the clock went back. */
    method Allow(key: string, now: int) returns (ok: bool)
      requires Valid()
      modifies this
      ensures Valid() && Readings(key) == old(Readings(key)) + [now]
      ensures History(key) == if ok then old(History(key)) + [now] else old(History(key))
      ensures Accepts(old(History(key)), max, window, now) ==> ok
      ensures NoneAfter(old(Readings(key)), now) ==> (ok <==> Accepts(old(History(key)), max, window, now))
      ensures forall other | other != key :: Readings(other) == old(Readings(other))
      ensures forall other | other != key :: Bucket(other) == old(Bucket(other))
    {
      hide Calls, Retain, Accepts, NoneAfter;
      ghost var times := Readings(key);
      Decides(times, max, window, now);
      CallsStep(times, now, max, window);
      var entries := Retained(Bucket(key), now - window);
      calls := calls[key := times + [now]];
      if |entries| >= max {
        buckets := buckets[key := entries];
        ok := false;
      } else {
        buckets := buckets[key := entries + [now]];
        ok := true;
      }
      forall other ensures Bucket(other) == Calls(Readings(other), max, window).bucket {
        assert other != key ==> old(Bucket(other) == Calls(Readings(other), max, window).bucket);
      }
    }

    static method Retained(entries: seq<int>, from: int) returns (kept: seq<int>)
      ensures kept == Retain(entries, from)
    {
      kept := [];
      for i := 0 to |entries|
        invariant kept + Retain(entries[i..], from) == Retain(entries, from)
      {
        assert entries[i..][0] == entries[i] && entries[i..][1..] == entries[i + 1..];
        if entries[i] >= from { kept := kept + [entries[i]]; }
      }
      assert entries[|entries|..] == [];
    }
  }

  /** At any moment, for every key whose calls read the clock in order, no closed interval of the
      window's length holds more than the maximum of its accepted calls. */
  lemma LimiterBound(limiter: Limiter, key: string)
    requires Sorted(limiter.Readings(key))
    ensures Bounded(limiter.History(key), limiter.max, limiter.window)
  {
    BoundedCalls(limiter.Readings(key), limiter.max, limiter.window);
  }
}
