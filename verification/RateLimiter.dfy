/** The per-socket limiter of driver location updates: a fixed window that opens at the first call after the last one ended. */
module RateLimiter {
  const WINDOW_MS: int := 1000

  datatype Window = Window(startMs: int, count: nat)

  const INITIAL: Window := Window(0, 0)

  // The window a call at `nowMs` falls into.
  function At(w: Window, nowMs: int): Window {
    if nowMs - w.startMs >= WINDOW_MS then Window(nowMs, 0) else w
  }

  predicate Allows(w: Window, nowMs: int, maxPerSec: int) {
    At(w, nowMs).count < maxPerSec
  }

  function After(w: Window, nowMs: int, maxPerSec: int): Window {
    var open := At(w, nowMs);
    if Allows(w, nowMs, maxPerSec) then open.(count := open.count + 1) else open
  }

  class LocationRateLimiter {
    const maxPerSec: int
    var windowStartMs: int
    var count: nat

    function Current(): Window
      reads this
    {
      Window(windowStartMs, count)
    }

    constructor (maxPerSec: int)
      ensures this.maxPerSec == maxPerSec && Current() == INITIAL
    {
      this.maxPerSec := maxPerSec;
      windowStartMs := 0;
      count := 0;
    }

    method Allow(nowMs: int) returns (allowed: bool)
      modifies this
      ensures allowed == Allows(old(Current()), nowMs, maxPerSec)
      ensures Current() == After(old(Current()), nowMs, maxPerSec)
    {
      if nowMs - windowStartMs >= WINDOW_MS {
        windowStartMs := nowMs;
        count := 0;
      }
      if count >= maxPerSec {
        return false;
      }
      count := count + 1;
      return true;
    }
  }

  /** How many calls of a run, made at the given times, are allowed at a time in [from, to). */
  function AllowedIn(w: Window, times: seq<int>, maxPerSec: int, from: int, to: int): nat
    decreases |times|
  {
    if times == [] then 0
    else
      (if from <= times[0] < to && Allows(w, times[0], maxPerSec) then 1 else 0)
      + AllowedIn(After(w, times[0], maxPerSec), times[1..], maxPerSec, from, to)
  }

  lemma {:induction false} NoneAfterEnd(w: Window, times: seq<int>, maxPerSec: int, from: int, to: int)
    requires forall t <- times :: to <= t
    ensures AllowedIn(w, times, maxPerSec, from, to) == 0
    decreases |times|
  {
    if times != [] {
      assert times[0] in times && forall t <- times[1..] :: t in times;
      NoneAfterEnd(After(w, times[0], maxPerSec), times[1..], maxPerSec, from, to);
    }
  }

  /** The clock never goes back by more than `drift` from where it has been. */
  ghost predicate GoesBackAtMost(times: seq<int>, drift: nat) {
    forall i, j :: 0 <= i < j < |times| ==> times[i] - drift <= times[j]
  }

  /** From an open window, `windows` more can open before a call falls before `to` for the last time, `full` of them before
      `to` itself. Each of the others spends its first call outside. */
  lemma {:induction false} FromOpenWindow(w: Window, times: seq<int>, maxPerSec: nat, from: int, to: int, drift: nat, full: nat, windows: nat)
    requires GoesBackAtMost(times, drift) && 0 < maxPerSec && w.count <= maxPerSec
    requires to <= w.startMs + WINDOW_MS * (full + 1) && to + drift <= w.startMs + WINDOW_MS * (windows + 1)
    ensures AllowedIn(w, times, maxPerSec, from, to) <= maxPerSec - w.count + windows * (maxPerSec - 1) + full
    decreases |times|
  {
    if times != [] {
      var t, next := times[0], After(w, times[0], maxPerSec);
      if to + drift <= t {
        NoneAfterEnd(w, times, maxPerSec, from, to);
        assert 0 <= windows * (maxPerSec - 1);
      } else if t - w.startMs >= WINDOW_MS {
        FromOpenWindow(next, times[1..], maxPerSec, from, to, drift, if t < to then full - 1 else 0, windows - 1);
        assert windows * (maxPerSec - 1) == (windows - 1) * (maxPerSec - 1) + (maxPerSec - 1);
      } else {
        FromOpenWindow(next, times[1..], maxPerSec, from, to, drift, full, windows);
      }
    }
  }

  // How many windows open too late to count but still let calls in from before, when the clock goes back this far.
  function LateWindows(drift: nat): nat {
    (drift + WINDOW_MS - 2) / WINDOW_MS
  }

  function Bound(maxPerSec: nat, k: nat, drift: nat): int {
    if maxPerSec == 0 then 0 else (k + 1) * maxPerSec + LateWindows(drift) * (maxPerSec - 1)
  }

  lemma {:induction false} NoneAllowed(w: Window, times: seq<int>, from: int, to: int)
    ensures AllowedIn(w, times, 0, from, to) == 0
    decreases |times|
  {
    if times != [] {
      NoneAllowed(After(w, times[0], 0), times[1..], from, to);
    }
  }

  lemma {:induction false} SlidingBoundFrom(w: Window, times: seq<int>, maxPerSec: nat, from: int, k: nat, drift: nat)
    requires GoesBackAtMost(times, drift) && 0 < maxPerSec && w.count <= maxPerSec
    ensures AllowedIn(w, times, maxPerSec, from, from + WINDOW_MS * k) <= Bound(maxPerSec, k, drift)
    decreases |times|
  {
    var to := from + WINDOW_MS * k;
    if times == [] {
      assert 0 <= k * maxPerSec && 0 <= LateWindows(drift) * (maxPerSec - 1);
    } else {
      var t := times[0];
      if t < from {
        SlidingBoundFrom(After(w, t, maxPerSec), times[1..], maxPerSec, from, k, drift);
      } else {
        // The window holding t began after from - 1000.
        FromOpenWindow(At(w, t), times, maxPerSec, from, to, drift, k, k + LateWindows(drift));
        assert AllowedIn(At(w, t), times, maxPerSec, from, to) == AllowedIn(w, times, maxPerSec, from, to);
        WindowsAddUp(maxPerSec, k, LateWindows(drift));
      }
    }
  }

  lemma WindowsAddUp(maxPerSec: int, k: int, late: int)
    ensures maxPerSec + (k + late) * (maxPerSec - 1) + k == (k + 1) * maxPerSec + late * (maxPerSec - 1)
  {
  }

  /** If the clock goes back by at most `drift` milliseconds, any k seconds see at most (k + 1) * maxPerSec allowed calls, and
      maxPerSec - 1 more for every window that `drift` reaches beyond them. */
  lemma SlidingBound(times: seq<int>, maxPerSec: nat, from: int, k: nat, drift: nat)
    requires GoesBackAtMost(times, drift)
    ensures AllowedIn(INITIAL, times, maxPerSec, from, from + WINDOW_MS * k) <= Bound(maxPerSec, k, drift)
  {
    if maxPerSec == 0 {
      NoneAllowed(INITIAL, times, from, from + WINDOW_MS * k);
    } else {
      SlidingBoundFrom(INITIAL, times, maxPerSec, from, k, drift);
    }
  }

  function Repeat(t: int, n: nat): (times: seq<int>)
    ensures |times| == n && forall i :: 0 <= i < n ==> times[i] == t
  {
    seq(n, _ => t)
  }

  lemma {:induction false} AllowedBurst(w: Window, t: int, n: nat, rest: seq<int>, maxPerSec: nat, from: int, to: int)
    requires from <= t < to && t - w.startMs < WINDOW_MS && w.count + n <= maxPerSec
    ensures AllowedIn(w, Repeat(t, n) + rest, maxPerSec, from, to)
            == n + AllowedIn(w.(count := w.count + n), rest, maxPerSec, from, to)
    decreases n
  {
    var times := Repeat(t, n) + rest;
    if n == 0 {
      assert times == rest;
    } else {
      assert times[1..] == Repeat(t, n - 1) + rest;
      AllowedBurst(w.(count := w.count + 1), t, n - 1, rest, maxPerSec, from, to);
    }
  }

  // A full burst at the start of every window from the first to the last.
  function Bursts(first: nat, last: nat, n: nat): seq<int>
    decreases last + 1 - first
  {
    if first > last then [] else Repeat(WINDOW_MS * first, n) + Bursts(first + 1, last, n)
  }

  // One call opens each window from the first to the last, and the others come back to time t.
  function Stragglers(first: nat, last: nat, n: nat, t: int): seq<int>
    decreases last + 1 - first
  {
    if first > last then [] else [WINDOW_MS * first] + (Repeat(t, n) + Stragglers(first + 1, last, n, t))
  }

  ghost predicate Between(times: seq<int>, low: int, high: int) {
    forall i :: 0 <= i < |times| ==> low <= times[i] <= high
  }

  lemma Joined(front: seq<int>, rest: seq<int>, low: int, mid: int, high: int, drift: nat)
    requires GoesBackAtMost(front, drift) && GoesBackAtMost(rest, drift) && Between(front, low, mid) && Between(rest, low, high)
    requires forall i :: 0 <= i < |rest| ==> mid - drift <= rest[i]
    requires mid <= high
    ensures GoesBackAtMost(front + rest, drift) && Between(front + rest, low, high)
  {
    var all := front + rest;
    forall i, j | 0 <= i < j < |all| ensures all[i] - drift <= all[j] {
      if j < |front| {
        assert all[i] == front[i] && all[j] == front[j];
      } else {
        assert all[j] == rest[j - |front|];
        assert i >= |front| ==> all[i] == rest[i - |front|];
      }
    }
  }

  lemma {:induction false} BurstsGoOn(first: nat, last: nat, n: nat)
    requires first <= last + 1
    ensures GoesBackAtMost(Bursts(first, last, n), 0) && Between(Bursts(first, last, n), WINDOW_MS * first, WINDOW_MS * last)
    decreases last + 1 - first
  {
    if first <= last {
      BurstsGoOn(first + 1, last, n);
      Joined(Repeat(WINDOW_MS * first, n), Bursts(first + 1, last, n), WINDOW_MS * first, WINDOW_MS * first, WINDOW_MS * last, 0);
    }
  }

  lemma {:induction false} StragglersGoBack(first: nat, last: nat, n: nat, t: int, drift: nat)
    requires first <= last + 1 && t <= WINDOW_MS * first && WINDOW_MS * last - drift <= t
    ensures GoesBackAtMost(Stragglers(first, last, n, t), drift) && (first <= last ==> Between(Stragglers(first, last, n, t), t, WINDOW_MS * last))
    decreases last + 1 - first
  {
    if first <= last {
      StragglersGoBack(first + 1, last, n, t, drift);
      var rest := Stragglers(first + 1, last, n, t);
      Joined(Repeat(t, n), rest, t, t, WINDOW_MS * last, drift);
      Joined([WINDOW_MS * first], Repeat(t, n) + rest, t, WINDOW_MS * first, WINDOW_MS * last, drift);
    }
  }

  lemma FirstBurst(first: nat, last: nat, n: nat, rest: seq<int>)
    requires first <= last
    ensures Bursts(first, last, n) + rest == Repeat(WINDOW_MS * first, n) + (Bursts(first + 1, last, n) + rest)
  {
  }

  lemma BurstAllowed(w: Window, t: int, maxPerSec: nat, more: seq<int>, from: int, to: int)
    requires maxPerSec > 0 && t - w.startMs >= WINDOW_MS && from <= t < to
    ensures AllowedIn(w, Repeat(t, maxPerSec) + more, maxPerSec, from, to)
            == maxPerSec + AllowedIn(Window(t, maxPerSec), more, maxPerSec, from, to)
  {
    var all := Repeat(t, maxPerSec) + more;
    assert AllowedIn(w, all, maxPerSec, from, to) == AllowedIn(Window(t, 0), all, maxPerSec, from, to);
    AllowedBurst(Window(t, 0), t, maxPerSec, more, maxPerSec, from, to);
  }

  lemma {:induction false} BurstsAllowed(w: Window, first: nat, last: nat, maxPerSec: nat, rest: seq<int>, from: int, to: int, left: int)
    requires first > 0 && maxPerSec > 0 && w.startMs == WINDOW_MS * (first - 1) && first <= last + 1 && w.count == maxPerSec
    requires from <= WINDOW_MS * first && WINDOW_MS * last < to
    requires left == AllowedIn(Window(WINDOW_MS * last, maxPerSec), rest, maxPerSec, from, to)
    ensures AllowedIn(w, Bursts(first, last, maxPerSec) + rest, maxPerSec, from, to) == Times(last + 1 - first, maxPerSec) + left
    decreases last + 1 - first
  {
    if first > last {
      assert Bursts(first, last, maxPerSec) + rest == rest;
    } else {
      BurstsAllowed(Window(WINDOW_MS * first, maxPerSec), first + 1, last, maxPerSec, rest, from, to, left);
      FirstBurst(first, last, maxPerSec, rest);
      BurstAllowed(w, WINDOW_MS * first, maxPerSec, Bursts(first + 1, last, maxPerSec) + rest, from, to);
    }
  }

  // n times m, one at a time.
  function Times(n: nat, m: nat): nat {
    if n == 0 then 0 else m + Times(n - 1, m)
  }

  lemma {:induction false} TimesIsProduct(n: nat, m: nat)
    ensures Times(n, m) == n * m
  {
    if n > 0 {
      TimesIsProduct(n - 1, m);
      assert n * m == m + (n - 1) * m;
    }
  }

  lemma {:induction false} StragglersAllowed(w: Window, first: nat, last: nat, maxPerSec: nat, t: int, from: int, to: int)
    requires first > 0 && maxPerSec > 0 && w.startMs == WINDOW_MS * (first - 1) && first <= last + 1
    requires from <= t < to <= WINDOW_MS * first
    ensures AllowedIn(w, Stragglers(first, last, maxPerSec - 1, t), maxPerSec, from, to) == Times(last + 1 - first, maxPerSec - 1)
    decreases last + 1 - first
  {
    if first <= last {
      var open := Window(WINDOW_MS * first, 1);
      var more := Stragglers(first + 1, last, maxPerSec - 1, t);
      var all := Repeat(t, maxPerSec - 1) + more;
      assert ([WINDOW_MS * first] + all)[1..] == all;
      assert AllowedIn(w, [WINDOW_MS * first] + all, maxPerSec, from, to) == AllowedIn(open, all, maxPerSec, from, to);
      AllowedBurst(open, t, maxPerSec - 1, more, maxPerSec, from, to);
      StragglersAllowed(Window(WINDOW_MS * first, maxPerSec), first + 1, last, maxPerSec, t, from, to);
    }
  }

  /** A burst at the very end of the first window, one at the start of each of the next k, and then windows that open too late
      but let the clock's returns in. */
  function WorstRun(maxPerSec: nat, k: nat, late: nat): seq<int>
    requires maxPerSec > 0
  {
    Repeat(WINDOW_MS - 1, maxPerSec)
    + (Bursts(1, k, maxPerSec) + Stragglers(k + 1, k + late, maxPerSec - 1, WINDOW_MS * (k + 1) - 2))
  }

  lemma WorstRunGoesBack(maxPerSec: nat, k: nat, drift: nat, late: nat)
    requires maxPerSec > 0 && k > 0 && late == LateWindows(drift)
    ensures GoesBackAtMost(WorstRun(maxPerSec, k, late), drift)
  {
    var t, last := WINDOW_MS * (k + 1) - 2, WINDOW_MS * (k + late + 1);
    var late' := Stragglers(k + 1, k + late, maxPerSec - 1, t);
    if late > 0 {
      StragglersGoBack(k + 1, k + late, maxPerSec - 1, t, drift);
    }
    assert Between(late', t, last) && GoesBackAtMost(late', drift);
    WorstJoined(maxPerSec, k, late', t, last, drift);
  }

  lemma WorstJoined(maxPerSec: nat, k: nat, stragglers: seq<int>, t: int, last: int, drift: nat)
    requires k > 0 && t == WINDOW_MS * (k + 1) - 2 && WINDOW_MS * (k + 1) <= last && Between(stragglers, t, last) && GoesBackAtMost(stragglers, drift)
    ensures GoesBackAtMost(Repeat(WINDOW_MS - 1, maxPerSec) + (Bursts(1, k, maxPerSec) + stragglers), drift)
  {
    var bursts := Bursts(1, k, maxPerSec);
    BurstsGoOn(1, k, maxPerSec);
    Joined(bursts, stragglers, WINDOW_MS, WINDOW_MS * k, last, drift);
    Joined(Repeat(WINDOW_MS - 1, maxPerSec), bursts + stragglers, WINDOW_MS - 1, WINDOW_MS - 1, last, drift);
  }

  lemma WorstRunAllowed(maxPerSec: nat, k: nat, late: nat, from: int, to: int, rest: seq<int>)
    requires maxPerSec > 0 && k > 0 && from == WINDOW_MS - 1 && to == from + WINDOW_MS * k
    requires rest == Stragglers(k + 1, k + late, maxPerSec - 1, WINDOW_MS * (k + 1) - 2)
    ensures AllowedIn(INITIAL, WorstRun(maxPerSec, k, late), maxPerSec, from, to)
            == maxPerSec + (Times(k, maxPerSec) + Times(late, maxPerSec - 1))
  {
    StragglersAllowed(Window(WINDOW_MS * k, maxPerSec), k + 1, k + late, maxPerSec, WINDOW_MS * (k + 1) - 2, from, to);
    BurstsAllowed(Window(0, maxPerSec), 1, k, maxPerSec, rest, from, to, Times(late, maxPerSec - 1));
    AllowedBurst(INITIAL, from, maxPerSec, Bursts(1, k, maxPerSec) + rest, maxPerSec, from, to);
  }

  lemma BoundInTimes(maxPerSec: nat, k: nat, drift: nat, late: nat)
    requires maxPerSec > 0 && late == LateWindows(drift)
    ensures Bound(maxPerSec, k, drift) == maxPerSec + (Times(k, maxPerSec) + Times(late, maxPerSec - 1))
  {
    TimesIsProduct(k, maxPerSec);
    TimesIsProduct(late, maxPerSec - 1);
    assert (k + 1) * maxPerSec == maxPerSec + k * maxPerSec;
  }

  /** The bound is reached, for every rate, every number of seconds and every drift. */
  lemma SlidingBoundIsReached(maxPerSec: nat, k: nat, drift: nat, late: nat, times: seq<int>)
    requires maxPerSec > 0 && k > 0 && late == LateWindows(drift) && times == WorstRun(maxPerSec, k, late)
    ensures GoesBackAtMost(times, drift)
    ensures AllowedIn(INITIAL, times, maxPerSec, WINDOW_MS - 1, WINDOW_MS - 1 + WINDOW_MS * k) == Bound(maxPerSec, k, drift)
  {
    WorstRunGoesBack(maxPerSec, k, drift, late);
    WorstRunAllowed(maxPerSec, k, late, WINDOW_MS - 1, WINDOW_MS - 1 + WINDOW_MS * k,
                    Stragglers(k + 1, k + late, maxPerSec - 1, WINDOW_MS * (k + 1) - 2));
    BoundInTimes(maxPerSec, k, drift, late);
  }

  ghost predicate Holds(times: seq<int>, maxPerSec: nat, from: int, k: nat) {
    AllowedIn(INITIAL, times, maxPerSec, from, from + WINDOW_MS * k) <= (k + 1) * maxPerSec
  }

  /** How far the clock may go back: (k + 1) * maxPerSec bounds every k seconds of every run exactly if it goes back by less than
      two milliseconds, or the rate is at most one call a second. */
  lemma ClockMayGoBackExactlyWhen(maxPerSec: nat, k: nat, drift: nat)
    requires k > 0
    ensures (forall times, from :: GoesBackAtMost(times, drift) ==> Holds(times, maxPerSec, from, k)) <==> drift < 2 || maxPerSec < 2
  {
    if drift < 2 || maxPerSec < 2 {
      forall times, from | GoesBackAtMost(times, drift) ensures Holds(times, maxPerSec, from, k) {
        SlidingBound(times, maxPerSec, from, k, drift);
      }
    } else {
      var times := WorstRun(maxPerSec, k, LateWindows(drift));
      SlidingBoundIsReached(maxPerSec, k, drift, LateWindows(drift), times);
      assert 1 <= LateWindows(drift);
      assert 1 <= LateWindows(drift) * (maxPerSec - 1);
      assert !Holds(times, maxPerSec, WINDOW_MS - 1, k);
    }
  }

  // ----- Nothing is refused without reason -----

  // Where the window stands after some calls.
  function AfterAll(w: Window, times: seq<int>, maxPerSec: int): Window
    decreases |times|
  {
    if times == [] then w else AfterAll(After(w, times[0], maxPerSec), times[1..], maxPerSec)
  }

  ghost predicate InOrder(times: seq<int>, from: int, to: int) {
    (forall i :: 0 <= i < |times| ==> from <= times[i] <= to) && (forall i, j :: 0 <= i < j < |times| ==> times[i] <= times[j])
  }

  lemma {:induction false} RefusedFrom(w: Window, times: seq<int>, t: int, maxPerSec: int)
    requires 0 < maxPerSec && InOrder(times, w.startMs, t) && w.startMs <= t && !Allows(AfterAll(w, times, maxPerSec), t, maxPerSec)
    ensures AllowedIn(w, times, maxPerSec, t - WINDOW_MS + 1, t + 1) + (if t - w.startMs < WINDOW_MS then w.count else 0) >= maxPerSec
    decreases |times|
  {
    if times != [] {
      var next := After(w, times[0], maxPerSec);
      assert forall i :: 0 <= i < |times| - 1 ==> times[1..][i] == times[i + 1];
      RefusedFrom(next, times[1..], t, maxPerSec);
    }
  }

  /** A call is refused only if the second before it has had all its calls: as long as the clock does not go back, maxPerSec calls
      were allowed in it. */
  lemma RefusedOnlyWhenFull(times: seq<int>, t: int, maxPerSec: int)
    requires 0 < maxPerSec && InOrder(times, 0, t) && 0 <= t && !Allows(AfterAll(INITIAL, times, maxPerSec), t, maxPerSec)
    ensures AllowedIn(INITIAL, times, maxPerSec, t - WINDOW_MS + 1, t + 1) >= maxPerSec
  {
    RefusedFrom(INITIAL, times, t, maxPerSec);
  }
}
