/** Stamps and the windows that count them: subsequences, and how many stamps a sparse sequence fits in an interval. */
module Windows {
  import opened EngineSpec

  /** `a` is a subsequence of `b`. */
  predicate Within(a: Stamps, b: Stamps) {
    if a == [] then true
    else if b == [] then false
    else if a[|a| - 1] == b[|b| - 1] && Within(a[..|a| - 1], b[..|b| - 1]) then true
    else Within(a, b[..|b| - 1])
  }

  lemma WithinGrows(a: Stamps, b: Stamps, t: Time)
    requires Within(a, b)
    ensures Within(a, b + [t]) && Within(a + [t], b + [t])
  {
    assert (a + [t])[..|a|] == a && (b + [t])[..|b|] == b;
  }

  lemma {:induction false} WithinSize(a: Stamps, b: Stamps)
    requires Within(a, b)
    ensures |a| <= |b|
  {
    if a == [] {
    } else {
      if a[|a| - 1] == b[|b| - 1] && Within(a[..|a| - 1], b[..|b| - 1]) {
        WithinSize(a[..|a| - 1], b[..|b| - 1]);
      } else {
        WithinSize(a, b[..|b| - 1]);
      }
    }
  }

  /** Pruning both sides alike keeps the order. */
  lemma {:induction false} WithinRecent(a: Stamps, b: Stamps, now: Time, window: Time)
    requires Within(a, b)
    ensures Within(Recent(a, now, window), Recent(b, now, window))
  {
    if a == [] {
    } else {
      var a', b', t := a[..|a| - 1], b[..|b| - 1], b[|b| - 1];
      if a[|a| - 1] == t && Within(a', b') {
        WithinRecent(a', b', now, window);
        WithinGrows(Recent(a', now, window), Recent(b', now, window), t);
      } else {
        WithinRecent(a, b', now, window);
        WithinGrows(Recent(a, now, window), Recent(b', now, window), t);
      }
    }
  }

  /** Pruning the smaller side only also keeps it inside. */
  lemma {:induction false} RecentStaysWithin(a: Stamps, b: Stamps, now: Time, window: Time)
    requires Within(a, b)
    ensures Within(Recent(a, now, window), b)
  {
    if a == [] {
    } else {
      var a', b', t := a[..|a| - 1], b[..|b| - 1], b[|b| - 1];
      assert b == b' + [t];
      if a[|a| - 1] == t && Within(a', b') {
        RecentStaysWithin(a', b', now, window);
        WithinGrows(Recent(a', now, window), b', t);
      } else {
        RecentStaysWithin(a, b', now, window);
        WithinGrows(Recent(a, now, window), b', t);
      }
    }
  }

  lemma {:induction false} WithinItself(a: Stamps)
    ensures Within(a, a)
  {
    if a == [] {
    } else {
      WithinItself(a[..|a| - 1]);
    }
  }

  /** A subsequence has no more stamps in any window. */
  lemma CountWithinIsSmaller(a: Stamps, b: Stamps, now: Time, window: Time)
    requires Within(a, b)
    ensures |Recent(a, now, window)| <= |Recent(b, now, window)|
  {
    WithinRecent(a, b, now, window);
    WithinSize(Recent(a, now, window), Recent(b, now, window));
  }

  lemma RecentOfOne(t: Time, now: Time, window: Time)
    ensures Recent([t], now, window) == if now - t < window then [t] else []
  {
    RecentSnoc([], t, now, window);
    assert [] + [t] == [t];
  }

  lemma {:induction false} LongerWindowCountsMore(stamps: Stamps, now: Time, shorter: Time, longer: Time)
    requires shorter <= longer
    ensures |Recent(stamps, now, shorter)| <= |Recent(stamps, now, longer)|
  {
    if stamps == [] {
    } else {
      LongerWindowCountsMore(stamps[..|stamps| - 1], now, shorter, longer);
    }
  }

  // Sparse stamps: each, on arrival, found fewer than m in its last window, itself and later times included

  ghost predicate Sparse(stamps: Stamps, m: nat, window: Time) {
    stamps == []
    || (Sparse(stamps[..|stamps| - 1], m, window) && |Recent(stamps, stamps[|stamps| - 1], window)| < m)
  }

  lemma SparseGrows(stamps: Stamps, now: Time, m: nat, window: Time)
    requires Sparse(stamps, m, window) && |Recent(stamps + [now], now, window)| < m
    ensures Sparse(stamps + [now], m, window)
  {
    assert (stamps + [now])[..|stamps|] == stamps;
  }

  lemma {:induction false} SparseWithin(a: Stamps, b: Stamps, m: nat, window: Time)
    requires Within(a, b) && Sparse(b, m, window)
    ensures Sparse(a, m, window)
    decreases |b|
  {
    if a == [] {
    } else {
      var a', b', t := a[..|a| - 1], b[..|b| - 1], b[|b| - 1];
      if a[|a| - 1] == t && Within(a', b') {
        SparseWithin(a', b', m, window);
        CountWithinIsSmaller(a, b, t, window);
      } else {
        SparseWithin(a, b', m, window);
      }
    }
  }

  /** The stamps later than `from` by at most a window. */
  function InSlice(stamps: Stamps, from: Time, window: Time): nat {
    if stamps == [] then 0
    else
      var last := stamps[|stamps| - 1];
      InSlice(stamps[..|stamps| - 1], from, window) + if from < last <= from + window then 1 else 0
  }

  lemma {:induction false} SliceIsRecent(stamps: Stamps, from: Time, now: Time, window: Time)
    requires now <= from + window
    ensures InSlice(stamps, from, window) <= |Recent(stamps, now, window)|
    decreases |stamps|
  {
    if stamps == [] {
    } else {
      SliceIsRecent(stamps[..|stamps| - 1], from, now, window);
    }
  }

  /** However disordered, no slice holds m stamps: the last to arrive in it saw all the others. */
  lemma {:induction false} SliceIsSparse(stamps: Stamps, from: Time, m: nat, window: Time)
    requires m >= 1 && Sparse(stamps, m, window)
    ensures InSlice(stamps, from, window) <= m - 1
    decreases |stamps|
  {
    if stamps == [] {
    } else {
      var last := stamps[|stamps| - 1];
      if from < last <= from + window {
        SliceIsRecent(stamps, from, last, window);
      } else {
        SliceIsSparse(stamps[..|stamps| - 1], from, m, window);
      }
    }
  }

  lemma {:induction false} WindowBySlices(stamps: Stamps, now: Time, length: Time, window: Time)
    requires window > 0.0
    ensures |Recent(stamps, now, length + window)|
         == |Recent(stamps, now, length)| + InSlice(stamps, now - length - window, window)
    decreases |stamps|
  {
    if stamps == [] {
    } else {
      WindowBySlices(stamps[..|stamps| - 1], now, length, window);
    }
  }

  /** So many windows end to end. */
  function EndToEnd(n: nat, window: Time): Time {
    if n == 0 then 0.0 else EndToEnd(n - 1, window) + window
  }

  lemma EndToEndNext(n: nat, window: Time)
    ensures EndToEnd(n + 1, window) == EndToEnd(n, window) + window
    ensures EndToEnd(1, window) == window
  {
    assert EndToEnd(0, window) == 0.0;
  }

  lemma Multiply(a: int, n: int)
    ensures a * (n + 1) == a * n + a && a * 1 == a
  {
  }

  lemma {:induction false} CapacityOfWindows(stamps: Stamps, now: Time, m: nat, window: Time, n: nat)
    requires m >= 1 && n >= 1 && window > 0.0 && Sparse(stamps, m, window) && |Recent(stamps, now, window)| < m
    ensures |Recent(stamps, now, EndToEnd(n, window))| <= (m - 1) * n
    decreases n
  {
    hide *;
    if n == 1 {
      EndToEndNext(0, window);
      Multiply(m - 1, 0);
    } else {
      var before: nat := n - 1;
      CapacityOfWindows(stamps, now, m, window, before);
      EndToEndNext(before, window);
      WindowBySlices(stamps, now, EndToEnd(before, window), window);
      SliceIsSparse(stamps, now - EndToEnd(before, window) - window, m, window);
      Multiply(m - 1, before);
    }
  }

  function Ceil(x: Time): (r: int)
    ensures r as real - 1.0 < x <= r as real
  {
    -(-x).Floor
  }

  lemma {:induction false} WindowsByProduct(n: nat, window: Time)
    ensures EndToEnd(n, window) == n as real * window
    decreases n
  {
    if n == 0 {
    } else {
      WindowsByProduct(n - 1, window);
      Distribute((n - 1) as real, 1.0, window);
    }
  }

  lemma Distribute(a: Time, b: Time, c: Time)
    ensures (a + b) * c == a * c + b * c
  {
  }

  /** How many windows an interval begins. */
  function Begun(interval: Time, window: Time): int
    requires window > 0.0
  {
    Ceil(interval / window)
  }

  lemma ProductOfQuotient(interval: Time, window: Time)
    requires window > 0.0
    ensures interval / window * window == interval
  {
  }

  lemma ProductGrows(a: Time, b: Time, c: Time)
    requires c > 0.0
    ensures a <= b ==> a * c <= b * c
    ensures a < b ==> a * c < b * c
  {
  }

  lemma QuotientIsPositive(interval: Time, window: Time)
    requires window > 0.0 && interval > 0.0
    ensures interval / window > 0.0
  {
    if interval / window <= 0.0 {
      ProductGrows(interval / window, 0.0, window);
      ProductOfQuotient(interval, window);
    }
  }

  /** The windows begun cover the interval, and one fewer do not. */
  lemma BegunCovers(interval: Time, window: Time)
    requires window > 0.0 && interval > 0.0
    ensures Begun(interval, window) >= 1
    ensures EndToEnd(Begun(interval, window) - 1, window) < interval <= EndToEnd(Begun(interval, window), window)
  {
    var x, n := interval / window, Begun(interval, window);
    QuotientIsPositive(interval, window);
    hide Ceil;
    WindowsByProduct(n, window);
    WindowsByProduct(n - 1, window);
    ProductOfQuotient(interval, window);
    ProductGrows(x, n as real, window);
    ProductGrows((n - 1) as real, x, window);
  }

  /** An interval holds at most m - 1 stamps per window begun. */
  lemma SparseCapacity(stamps: Stamps, now: Time, m: nat, window: Time, interval: Time)
    requires m >= 1 && window > 0.0 && interval > 0.0 && Sparse(stamps, m, window) && |Recent(stamps, now, window)| < m
    ensures |Recent(stamps, now, interval)| <= (m - 1) * Begun(interval, window)
  {
    var n := Begun(interval, window);
    BegunCovers(interval, window);
    hide Recent, Sparse, Begun, EndToEnd;
    CapacityOfWindows(stamps, now, m, window, n);
    LongerWindowCountsMore(stamps, now, interval, EndToEnd(n, window));
  }
}
