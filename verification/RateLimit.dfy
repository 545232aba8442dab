/** Fixed-window request limits: the in-process limiter, the Redis script, and how HTTP requests use them. */
module RateLimit {
  import opened Options

  /** Times and durations are whole milliseconds. */
  datatype Window = Window(count: nat, expiresAt: int)

  datatype Decision = Decision(allowed: bool, limit: int, remaining: nat, resetAfter: int)

  /** One use of a limiter; `now` is the clock when the limiter's lock, or the Redis server, is reached. */
  datatype Call = Call(now: int, key: string, limit: int, window: int)

  function Remaining(limit: int, count: nat): nat {
    if limit - count < 0 then 0 else limit - count
  }

  function Decide(limit: int, count: nat, resetAfter: int): Decision {
    Decision(count <= limit, limit, Remaining(limit, count), resetAfter)
  }

  // ----- The in-process limiter -----

  /** The key's window once the call is counted: the open one, or a new one. */
  function Counted(windows: map<string, Window>, c: Call): Window {
    if c.key in windows && windows[c.key].expiresAt > c.now
    then windows[c.key].(count := windows[c.key].count + 1)
    else Window(1, c.now + c.window)
  }

  function Count(windows: map<string, Window>, c: Call): map<string, Window> {
    windows[c.key := Counted(windows, c)]
  }

  class MemoryLimiter {
    var windows: map<string, Window>

    constructor ()
      ensures windows == map[]
    {
      windows := map[];
    }

    /** `later` is the clock once the lock is free again. */
    method Allow(c: Call, later: int) returns (d: Decision)
      modifies this
      ensures windows == Count(old(windows), c)
      ensures d == Decide(c.limit, windows[c.key].count, windows[c.key].expiresAt - later)
    {
      var entry := Window(0, c.now + c.window);
      if c.key in windows && windows[c.key].expiresAt > c.now {
        entry := windows[c.key];
      }
      entry := entry.(count := entry.count + 1);
      windows := windows[c.key := entry];

      var remaining := c.limit - entry.count;
      if remaining < 0 {
        remaining := 0;
      }
      d := Decision(entry.count <= c.limit, c.limit, remaining, entry.expiresAt - later);
    }
  }

  predicate InOrder(calls: seq<Call>) {
    forall i, j :: 0 <= i < j < |calls| ==> calls[i].now <= calls[j].now
  }

  predicate OneLimit(calls: seq<Call>, key: string, limit: int, window: int) {
    forall i :: 0 <= i < |calls| && calls[i].key == key ==> calls[i].limit == limit && calls[i].window == window
  }

  function Allowed(windows: map<string, Window>, c: Call): bool {
    Counted(windows, c).count <= c.limit
  }

  /** How many calls for `key` with a clock from `start` on and before `end` are allowed. */
  function Passed(windows: map<string, Window>, calls: seq<Call>, key: string, start: int, end: int): nat
    decreases |calls|
  {
    if calls == [] then 0
    else
      var c := calls[0];
      var one := if c.key == key && start <= c.now < end && Allowed(windows, c) then 1 else 0;
      one + Passed(Count(windows, c), calls[1..], key, start, end)
  }

  /** Calls the key's present window would still allow. */
  function Room(windows: map<string, Window>, key: string, limit: int): nat {
    if key in windows then Remaining(limit, windows[key].count) else 0
  }

  predicate Used(windows: map<string, Window>, key: string) {
    key in windows ==> windows[key].count >= 1
  }

  lemma {:induction false} NonePassedAfter(windows: map<string, Window>, calls: seq<Call>, key: string, start: int,
                                           end: int)
    requires InOrder(calls) && (calls != [] ==> calls[0].now >= end)
    ensures Passed(windows, calls, key, start, end) == 0
    decreases |calls|
  {
    if calls != [] {
      NonePassedAfter(Count(windows, calls[0]), calls[1..], key, start, end);
    }
  }

  /** A window that stays open to the end of the interval allows only what room it has left. */
  lemma {:induction false} OpenToTheEnd(windows: map<string, Window>, calls: seq<Call>, key: string,
                                        limit: int, window: int, start: int, end: int)
    requires InOrder(calls) && OneLimit(calls, key, limit, window)
    requires key in windows && windows[key].expiresAt >= end
    ensures Passed(windows, calls, key, start, end) <= Room(windows, key, limit)
    decreases |calls|
  {
    if calls != [] {
      if calls[0].now >= end {
        NonePassedAfter(windows, calls, key, start, end);
      } else {
        OpenToTheEnd(Count(windows, calls[0]), calls[1..], key, limit, window, start, end);
      }
    }
  }

  /** Once inside the interval, the present window's room and one more window are all that is left. */
  lemma {:induction false} InsideInterval(windows: map<string, Window>, calls: seq<Call>, key: string,
                                          limit: int, window: int, start: int)
    requires InOrder(calls) && OneLimit(calls, key, limit, window) && limit >= 0
    requires calls != [] ==> calls[0].now >= start
    ensures Passed(windows, calls, key, start, start + window) <= Room(windows, key, limit) + limit
    decreases |calls|
  {
    if calls != [] {
      var c := calls[0];
      var next := Count(windows, c);
      if c.now >= start + window {
        NonePassedAfter(windows, calls, key, start, start + window);
      } else if c.key == key && !(key in windows && windows[key].expiresAt > c.now) {
        OpenToTheEnd(next, calls[1..], key, limit, window, start, start + window);
      } else {
        InsideInterval(next, calls[1..], key, limit, window, start);
      }
    }
  }

  /**
   With a clock that does not go back, a half-open interval as long as the window never holds more than
   2 * limit - 1 allowed calls for a key: the call that opened the first of its two windows lies before it.
   */
  lemma {:induction false} FixedWindowBound(windows: map<string, Window>, calls: seq<Call>, key: string,
                                            limit: int, window: int, start: int)
    requires InOrder(calls) && OneLimit(calls, key, limit, window) && limit >= 1 && Used(windows, key)
    ensures Passed(windows, calls, key, start, start + window) <= 2 * limit - 1
    decreases |calls|
  {
    if calls != [] {
      if calls[0].now >= start {
        InsideInterval(windows, calls, key, limit, window, start);
      } else {
        FixedWindowBound(Count(windows, calls[0]), calls[1..], key, limit, window, start);
      }
    }
  }

  // ----- Clock readings out of lock order -----

  /** When the window that counts the call was opened. */
  function OpenedAt(windows: map<string, Window>, c: Call): int {
    Counted(windows, c).expiresAt - c.window
  }

  /** Allowed calls of the interval that a window counts which was only opened at or after its end. */
  function Late(windows: map<string, Window>, calls: seq<Call>, key: string, start: int, end: int): nat
    decreases |calls|
  {
    if calls == [] then 0
    else
      var c := calls[0];
      var late := c.key == key && start <= c.now < end && Allowed(windows, c) && OpenedAt(windows, c) >= end;
      (if late then 1 else 0) + Late(Count(windows, c), calls[1..], key, start, end)
  }

  /** Once the key's window was opened at or after the end, every further call of the interval is late. */
  lemma {:induction false} AllLate(windows: map<string, Window>, calls: seq<Call>, key: string,
                                   limit: int, window: int, start: int, end: int)
    requires OneLimit(calls, key, limit, window) && window > 0
    requires key in windows && windows[key].expiresAt - window >= end
    ensures Passed(windows, calls, key, start, end) == Late(windows, calls, key, start, end)
    decreases |calls|
  {
    if calls != [] {
      AllLate(Count(windows, calls[0]), calls[1..], key, limit, window, start, end);
    }
  }

  /** A window opened inside the interval is the last one that counts calls of the interval in time. */
  lemma {:induction false} LastInTime(windows: map<string, Window>, calls: seq<Call>, key: string,
                                      limit: int, window: int, start: int)
    requires OneLimit(calls, key, limit, window) && window > 0
    requires key in windows && windows[key].expiresAt >= start + window
    ensures Passed(windows, calls, key, start, start + window)
            <= Room(windows, key, limit) + Late(windows, calls, key, start, start + window)
    decreases |calls|
  {
    if calls != [] {
      var next := Count(windows, calls[0]);
      if next[key].expiresAt - window >= start + window {
        AllLate(next, calls[1..], key, limit, window, start, start + window);
      } else {
        LastInTime(next, calls[1..], key, limit, window, start);
      }
    }
  }

  /** A window that reaches into the interval, and one more. */
  lemma {:induction false} ReachesIn(windows: map<string, Window>, calls: seq<Call>, key: string,
                                     limit: int, window: int, start: int)
    requires OneLimit(calls, key, limit, window) && window > 0 && limit >= 1
    requires key in windows && start < windows[key].expiresAt < start + window
    ensures Passed(windows, calls, key, start, start + window)
            <= Room(windows, key, limit) + limit + Late(windows, calls, key, start, start + window)
    decreases |calls|
  {
    if calls != [] {
      var next := Count(windows, calls[0]);
      if next[key].expiresAt >= start + window {
        LastInTime(next, calls[1..], key, limit, window, start);
      } else {
        ReachesIn(next, calls[1..], key, limit, window, start);
      }
    }
  }

  /**
   Whatever order the clock readings come in, an interval as long as the window holds at most 2 * limit - 1 allowed
   calls beside the late ones. The bound fails only by calls whose reading lies before the opening of their window.
   */
  lemma {:induction false} AnyClockBound(windows: map<string, Window>, calls: seq<Call>, key: string,
                                         limit: int, window: int, start: int)
    requires OneLimit(calls, key, limit, window) && window > 0 && limit >= 1 && Used(windows, key)
    requires key in windows ==> windows[key].expiresAt <= start
    ensures Passed(windows, calls, key, start, start + window)
            <= 2 * limit - 1 + Late(windows, calls, key, start, start + window)
    decreases |calls|
  {
    if calls != [] {
      var next := Count(windows, calls[0]);
      if key !in next || next[key].expiresAt <= start {
        AnyClockBound(next, calls[1..], key, limit, window, start);
      } else if next[key].expiresAt < start + window {
        ReachesIn(next, calls[1..], key, limit, window, start);
      } else if next[key].expiresAt - window >= start + window {
        AllLate(next, calls[1..], key, limit, window, start, start + window);
      } else {
        LastInTime(next, calls[1..], key, limit, window, start);
      }
    }
  }

  /** Readings in lock order are never late. */
  lemma {:induction false} InOrderNeverLate(windows: map<string, Window>, calls: seq<Call>, key: string,
                                            limit: int, window: int, start: int, end: int)
    requires InOrder(calls) && OneLimit(calls, key, limit, window)
    requires key in windows && calls != [] ==> windows[key].expiresAt - window <= calls[0].now
    ensures Late(windows, calls, key, start, end) == 0
    decreases |calls|
  {
    if calls != [] {
      InOrderNeverLate(Count(windows, calls[0]), calls[1..], key, limit, window, start, end);
    }
  }

  /** A window of 10 and a limit of 2; the last call read the clock long before it got the lock. */
  function StaleReading(): seq<Call> {
    [Call(9, "k", 2, 10), Call(10, "k", 2, 10), Call(19, "k", 2, 10), Call(19, "k", 2, 10)]
    + [Call(29, "k", 2, 10), Call(19, "k", 2, 10)]
  }

  lemma TwoCalls(windows: map<string, Window>, a: Call, b: Call, rest: seq<Call>, key: string, start: int, end: int)
    ensures var next := Count(windows, a);
            Passed(windows, [a, b] + rest, key, start, end)
            == (if a.key == key && start <= a.now < end && Allowed(windows, a) then 1 else 0)
               + (if b.key == key && start <= b.now < end && Allowed(next, b) then 1 else 0)
               + Passed(Count(next, b), rest, key, start, end)
  {
    assert ([a, b] + rest)[1..] == [b] + rest && ([b] + rest)[1..] == rest;
  }

  /** Four calls of one window's length are allowed, one more than 2 * limit - 1. */
  lemma StaleReadingBreaksBound()
    ensures Passed(map[], StaleReading(), "k", 10, 20) == 4 == 2 * 2 - 1 + 1
  {
    var c9, c10, c19, c29 := Call(9, "k", 2, 10), Call(10, "k", 2, 10), Call(19, "k", 2, 10), Call(29, "k", 2, 10);
    assert StaleReading() == [c9, c10] + ([c19, c19] + ([c29, c19] + []));
    TwoCalls(map[], c9, c10, [c19, c19] + ([c29, c19] + []), "k", 10, 20);
    var first := map["k" := Window(2, 19)];
    assert Count(Count(map[], c9), c10) == first;
    TwoCalls(first, c19, c19, [c29, c19] + [], "k", 10, 20);
    var second := map["k" := Window(2, 29)];
    assert Count(Count(first, c19), c19) == second;
    TwoCalls(second, c29, c19, [], "k", 10, 20);
  }

  // ----- The bound is reached -----

  function Burst(c: Call, n: nat): seq<Call> {
    seq(n, i => c)
  }

  lemma {:induction false} BurstPasses(windows: map<string, Window>, c: Call, n: nat, rest: seq<Call>,
                                       start: int, end: int)
    requires c.key in windows && windows[c.key].expiresAt > c.now && start <= c.now < end
    requires windows[c.key].count + n <= c.limit
    ensures Passed(windows, Burst(c, n) + rest, c.key, start, end)
            == n + Passed(windows[c.key := windows[c.key].(count := windows[c.key].count + n)], rest, c.key, start, end)
  {
    if n == 0 {
      assert Burst(c, 0) + rest == rest;
      assert windows[c.key := windows[c.key]] == windows;
    } else {
      var next := Count(windows, c);
      assert (Burst(c, n) + rest)[1..] == Burst(c, n - 1) + rest;
      BurstPasses(next, c, n - 1, rest, start, end);
      assert next[c.key := next[c.key].(count := next[c.key].count + (n - 1))]
          == windows[c.key := windows[c.key].(count := windows[c.key].count + n)];
    }
  }

  /** One call opens a window, a burst fills it at its last instant, and the next window is used up at once. */
  function Straddling(key: string, limit: int, window: int): seq<Call>
    requires limit >= 1
  {
    [Call(0, key, limit, window)]
    + (Burst(Call(window - 1, key, limit, window), limit - 1) + NextWindow(key, limit, window))
  }

  function NextWindow(key: string, limit: int, window: int): seq<Call>
    requires limit >= 1
  {
    [Call(window, key, limit, window)] + (Burst(Call(window, key, limit, window), limit - 1) + [])
  }

  lemma NextWindowPasses(key: string, limit: int, window: int)
    requires limit >= 1 && window >= 2
    ensures Passed(map[key := Window(limit, window)], NextWindow(key, limit, window), key, window - 1,
        2 * window - 1) == limit
  {
    var c := Call(window, key, limit, window);
    var windows := map[key := Window(1, 2 * window)];
    assert NextWindow(key, limit, window)[1..] == Burst(c, limit - 1) + [];
    assert Count(map[key := Window(limit, window)], c) == windows;
    BurstPasses(windows, c, limit - 1, [], window - 1, 2 * window - 1);
  }

  lemma StraddlingInOrder(key: string, limit: int, window: int)
    requires limit >= 1 && window >= 2
    ensures InOrder(Straddling(key, limit, window)) && OneLimit(Straddling(key, limit, window), key, limit, window)
  {
    var calls := Straddling(key, limit, window);
    assert |calls| == 2 * limit;
    assert forall i :: 0 <= i < |calls| ==>
        calls[i] == Call(if i == 0 then 0 else if i < limit then window - 1 else window, key, limit, window);
  }

  lemma StraddlingPasses(key: string, limit: int, window: int)
    requires limit >= 1 && window >= 2
    ensures Passed(map[], Straddling(key, limit, window), key, window - 1, 2 * window - 1) == 2 * limit - 1
  {
    var c := Call(window - 1, key, limit, window);
    var windows := map[key := Window(1, window)];
    assert Straddling(key, limit, window)[1..] == Burst(c, limit - 1) + NextWindow(key, limit, window);
    assert Count(map[], Call(0, key, limit, window)) == windows;
    BurstPasses(windows, c, limit - 1, NextWindow(key, limit, window), window - 1, 2 * window - 1);
    assert windows[key := windows[key].(count := windows[key].count + (limit - 1))] == map[key := Window(limit,
        window)];
    NextWindowPasses(key, limit, window);
  }

  /** The bound is the least one: this sequence reaches it. */
  lemma BoundReached(key: string, limit: int, window: int)
    requires limit >= 1 && window >= 2
    ensures InOrder(Straddling(key, limit, window)) && OneLimit(Straddling(key, limit, window), key, limit, window)
    ensures Passed(map[], Straddling(key, limit, window), key, window - 1, 2 * window - 1) == 2 * limit - 1
  {
    StraddlingInOrder(key, limit, window);
    StraddlingPasses(key, limit, window);
  }

  // ----- How far readings may be out of order -----

  /** No call read a clock more than `skew` before what an earlier one in lock order read. */
  predicate Skewed(calls: seq<Call>, skew: nat) {
    forall i, j :: 0 <= i < j < |calls| ==> calls[i].now <= calls[j].now + skew
  }

  /** The opening of the key's window was such a reading. */
  predicate After(windows: map<string, Window>, calls: seq<Call>, key: string, window: int) {
    key in windows ==> forall i :: 0 <= i < |calls| ==> windows[key].expiresAt - window <= calls[i].now + 1
  }

  lemma AfterNext(windows: map<string, Window>, calls: seq<Call>, key: string, limit: int, window: int)
    requires calls != [] && Skewed(calls, 1) && OneLimit(calls, key, limit, window)
    requires After(windows, calls, key, window)
    ensures After(Count(windows, calls[0]), calls[1..], key, window) && Skewed(calls[1..], 1)
    ensures OneLimit(calls[1..], key, limit, window)
  {
  }

  /** A window opened just at the end can still count calls that read the instant before; a later one cannot. */
  lemma {:induction false} OpenedAtEnd(windows: map<string, Window>, calls: seq<Call>, key: string,
                                       limit: int, window: int, start: int)
    requires Skewed(calls, 1) && OneLimit(calls, key, limit, window) && window > 0
    requires After(windows, calls, key, window) && key in windows
    requires windows[key].expiresAt >= start + 2 * window
    ensures Passed(windows, calls, key, start, start + window)
            <= if windows[key].expiresAt == start + 2 * window then Room(windows, key, limit) else 0
    decreases |calls|
  {
    if calls != [] {
      AfterNext(windows, calls, key, limit, window);
      OpenedAtEnd(Count(windows, calls[0]), calls[1..], key, limit, window, start);
    }
  }

  /** A window opened inside the interval leaves its room, and one opened at its start also the window at its end. */
  lemma {:induction false} OpenedInside(windows: map<string, Window>, calls: seq<Call>, key: string,
                                        limit: int, window: int, start: int)
    requires Skewed(calls, 1) && OneLimit(calls, key, limit, window) && window > 0 && limit >= 1
    requires After(windows, calls, key, window) && key in windows
    requires start + window <= windows[key].expiresAt < start + 2 * window
    ensures Passed(windows, calls, key, start, start + window)
            <= Room(windows, key, limit) + if windows[key].expiresAt == start + window then limit - 1 else 0
    decreases |calls|
  {
    if calls != [] {
      var next := Count(windows, calls[0]);
      AfterNext(windows, calls, key, limit, window);
      if next[key].expiresAt >= start + 2 * window {
        OpenedAtEnd(next, calls[1..], key, limit, window, start);
      } else {
        OpenedInside(next, calls[1..], key, limit, window, start);
      }
    }
  }

  lemma {:induction false} OpenedBefore(windows: map<string, Window>, calls: seq<Call>, key: string,
                                        limit: int, window: int, start: int)
    requires Skewed(calls, 1) && OneLimit(calls, key, limit, window) && window > 0 && limit >= 1
    requires After(windows, calls, key, window) && key in windows
    requires start < windows[key].expiresAt < start + window
    ensures Passed(windows, calls, key, start, start + window) <= Room(windows, key, limit) + limit
    decreases |calls|
  {
    if calls != [] {
      var next := Count(windows, calls[0]);
      AfterNext(windows, calls, key, limit, window);
      if next[key].expiresAt >= start + 2 * window {
        OpenedAtEnd(next, calls[1..], key, limit, window, start);
      } else if next[key].expiresAt >= start + window {
        OpenedInside(next, calls[1..], key, limit, window, start);
      } else {
        OpenedBefore(next, calls[1..], key, limit, window, start);
      }
    }
  }

  /** Readings out of order by one tick do no harm. */
  lemma {:induction false} OneTickBound(windows: map<string, Window>, calls: seq<Call>, key: string,
                                        limit: int, window: int, start: int)
    requires Skewed(calls, 1) && OneLimit(calls, key, limit, window) && window > 0 && limit >= 1 && Used(windows, key)
    requires After(windows, calls, key, window) && (key in windows ==> windows[key].expiresAt <= start)
    ensures Passed(windows, calls, key, start, start + window) <= 2 * limit - 1
    decreases |calls|
  {
    if calls != [] {
      var next := Count(windows, calls[0]);
      AfterNext(windows, calls, key, limit, window);
      if key !in next || next[key].expiresAt <= start {
        OneTickBound(next, calls[1..], key, limit, window, start);
      } else if next[key].expiresAt < start + window {
        OpenedBefore(next, calls[1..], key, limit, window, start);
      } else if next[key].expiresAt < start + 2 * window {
        OpenedInside(next, calls[1..], key, limit, window, start);
      } else {
        OpenedAtEnd(next, calls[1..], key, limit, window, start);
      }
    }
  }

  /** One call at `now` that opens a window, and a burst at `then'` that fills it. */
  function Filled(key: string, limit: int, window: int, now: int, then': int): seq<Call>
    requires limit >= 1
  {
    [Call(now, key, limit, window)] + Burst(Call(then', key, limit, window), limit - 1)
  }

  lemma FilledPasses(windows: map<string, Window>, key: string, limit: int, window: int, now: int, then': int,
                     rest: seq<Call>, start: int, end: int)
    requires limit >= 1 && windows.Keys <= {key} && (key in windows ==> windows[key].expiresAt <= now)
    requires start <= then' < end && then' < now + window
    ensures Passed(windows, Filled(key, limit, window, now, then') + rest, key, start, end)
            == (if start <= now < end then limit else limit - 1)
               + Passed(map[key := Window(limit, now + window)], rest, key, start, end)
  {
    var c, d := Call(now, key, limit, window), Call(then', key, limit, window);
    var calls := Filled(key, limit, window, now, then') + rest;
    assert calls[1..] == Burst(d, limit - 1) + rest;
    var begun := map[key := Window(1, now + window)];
    assert Count(windows, c) == begun;
    BurstPasses(begun, d, limit - 1, rest, start, end);
    var full := begun[key].(count := begun[key].count + (limit - 1));
    assert begun[key := full] == map[key := Window(limit, now + window)];
  }

  /** Three windows; the burst of the last read the clock two ticks before its window was opened. */
  function TwoTicks(key: string, limit: int, window: int): seq<Call>
    requires limit >= 1
  {
    Filled(key, limit, window, 1, window)
    + (Filled(key, limit, window, window + 1, window + 1)
       + (Filled(key, limit, window, 2 * window + 1, 2 * window - 1) + []))
  }

  lemma TwoTicksPass(key: string, limit: int, window: int)
    requires limit >= 1 && window >= 2
    ensures Passed(map[], TwoTicks(key, limit, window), key, window, 2 * window) == 3 * limit - 2
  {
    var third := Filled(key, limit, window, 2 * window + 1, 2 * window - 1) + [];
    var second := Filled(key, limit, window, window + 1, window + 1) + third;
    FilledPasses(map[], key, limit, window, 1, window, second, window, 2 * window);
    FilledPasses(map[key := Window(limit, window + 1)], key, limit, window, window + 1, window + 1, third,
                 window, 2 * window);
    FilledPasses(map[key := Window(limit, 2 * window + 1)], key, limit, window, 2 * window + 1, 2 * window - 1, [],
                 window, 2 * window);
  }

  lemma TwoTicksSkewed(key: string, limit: int, window: int)
    requires limit >= 1 && window >= 2
    ensures Skewed(TwoTicks(key, limit, window), 2) && OneLimit(TwoTicks(key, limit, window), key, limit, window)
  {
    var calls := TwoTicks(key, limit, window);
    assert |calls| == 3 * limit;
    assert forall i :: 0 <= i < |calls| ==>
      calls[i] == Call(if i == 0 then 1 else if i < limit then window else if i < 2 * limit then window + 1
                       else if i == 2 * limit then 2 * window + 1 else 2 * window - 1, key, limit, window);
  }

  /** From a limiter that has seen nothing. */
  function PassedFrom(calls: seq<Call>, key: string, start: int, window: int): nat {
    Passed(map[], calls, key, start, start + window)
  }

  /** The bound holds of every sequence whose readings are out of lock order by at most `skew`. */
  ghost predicate BoundHolds(key: string, limit: int, window: int, skew: nat) {
    forall calls: seq<Call>, start: int :: Skewed(calls, skew) && OneLimit(calls, key, limit, window) ==>
      PassedFrom(calls, key, start, window) <= 2 * limit - 1
  }

  /** The bound of 2 * limit - 1 survives readings out of lock order by one tick, and by no more. */
  lemma BoundIffOneTick(key: string, limit: int, window: int, skew: nat)
    requires limit >= 2 && window >= 2
    ensures BoundHolds(key, limit, window, skew) <==> skew <= 1
  {
    if skew <= 1 {
      forall calls: seq<Call>, start: int | Skewed(calls, skew) && OneLimit(calls, key, limit, window)
        ensures PassedFrom(calls, key, start, window) <= 2 * limit - 1
      {
        OneTickBound(map[], calls, key, limit, window, start);
      }
    } else {
      TwoTicksPass(key, limit, window);
      TwoTicksSkewed(key, limit, window);
      assert Skewed(TwoTicks(key, limit, window), skew);
      assert PassedFrom(TwoTicks(key, limit, window), key, window, window) > 2 * limit - 1;
    }
  }

  // ----- The Redis script -----

  datatype Counter = Counter(count: nat, expiry: Option<int>)

  /**
   A counter is gone once the clock reaches its expiry and `grace`: 0 when Redis drops a key at its
   expiry, 1 when it still answers during that millisecond.
   */
  predicate Live(store: map<string, Counter>, now: int, key: string, grace: int) {
    key in store && (store[key].expiry.None? || now < store[key].expiry.value + grace)
  }

  function Incremented(store: map<string, Counter>, now: int, key: string, grace: int): Counter {
    if Live(store, now, key, grace) then store[key].(count := store[key].count + 1) else Counter(1, None)
  }

  /** The store after the whole script. */
  function Scripted(store: map<string, Counter>, c: Call, grace: int): map<string, Counter> {
    var counter := Incremented(store, c.now, c.key, grace);
    if counter.count != 1 then store[c.key := counter]
    else if c.window <= 0 then store - {c.key}
    else store[c.key := Counter(1, Some(c.now + c.window))]
  }

  /** -2 for no key and -1 for a key that never expires. */
  function TimeToLive(store: map<string, Counter>, now: int, key: string, grace: int): int {
    if !Live(store, now, key, grace) then -2
    else if store[key].expiry.None? then -1 else store[key].expiry.value - now
  }

  class RedisLimiter {
    var store: map<string, Counter>
    const grace: int

    constructor (grace: int)
      ensures store == map[] && this.grace == grace
    {
      store := map[];
      this.grace := grace;
    }

    method Incr(now: int, key: string) returns (count: nat)
      modifies this
      ensures store == old(store)[key := Incremented(old(store), now, key, grace)]
      ensures count == store[key].count
    {
      var counter := Counter(0, None);
      if Live(store, now, key, grace) {
        counter := store[key];
      }
      count := counter.count + 1;
      store := store[key := counter.(count := count)];
    }

    method PExpire(now: int, key: string, px: int)
      modifies this
      ensures store == if !Live(old(store), now, key, grace) then old(store)
                       else if px <= 0 then old(store) - {key}
                       else old(store)[key := old(store)[key].(expiry := Some(now + px))]
    {
      if Live(store, now, key, grace) {
        store := if px <= 0 then store - {key} else store[key := store[key].(expiry := Some(now + px))];
      }
    }

    method PTtl(now: int, key: string) returns (ttl: int)
      ensures ttl == TimeToLive(store, now, key, grace)
    {
      if !Live(store, now, key, grace) {
        ttl := -2;
      } else {
        ttl := if store[key].expiry.None? then -1 else store[key].expiry.value - now;
      }
    }

    /** The script runs as one command, at one clock reading. */
    method Allow(c: Call) returns (d: Decision)
      modifies this
      ensures store == Scripted(old(store), c, grace)
      ensures d.limit == c.limit
      ensures d.allowed == (Incremented(old(store), c.now, c.key, grace).count <= c.limit)
      ensures d.remaining == Remaining(c.limit, Incremented(old(store), c.now, c.key, grace).count)
      ensures d.resetAfter == TimeToLive(store, c.now, c.key, grace)
    {
      var count := Incr(c.now, c.key);
      if count == 1 {
        PExpire(c.now, c.key, c.window);
      }
      var ttl := PTtl(c.now, c.key);
      var remaining := c.limit - count;
      if remaining < 0 {
        remaining := 0;
      }
      d := Decision(count <= c.limit, c.limit, remaining, ttl);
    }
  }

  /** What each call of a sequence is told: allowed, and how many remain. */
  function MemoryAnswers(windows: map<string, Window>, calls: seq<Call>): seq<(bool, nat)>
    decreases |calls|
  {
    if calls == [] then []
    else
      var count := Counted(windows, calls[0]).count;
      [(count <= calls[0].limit, Remaining(calls[0].limit, count))] + MemoryAnswers(Count(windows, calls[0]),
          calls[1..])
  }

  function RedisAnswers(store: map<string, Counter>, calls: seq<Call>, grace: int): seq<(bool, nat)>
    decreases |calls|
  {
    if calls == [] then []
    else
      var count := Incremented(store, calls[0].now, calls[0].key, grace).count;
      [(count <= calls[0].limit, Remaining(calls[0].limit, count))]
      + RedisAnswers(Scripted(store, calls[0], grace), calls[1..], grace)
  }

  function Widened(calls: seq<Call>, grace: int): (r: seq<Call>)
    ensures |r| == |calls|
    ensures forall i :: 0 <= i < |r| ==> r[i] == calls[i].(window := calls[i].window + grace)
  {
    seq(|calls|, i requires 0 <= i < |calls| => calls[i].(window := calls[i].window + grace))
  }

  /** Same counters, and every Redis counter has an expiry. */
  ghost predicate Agree(store: map<string, Counter>, windows: map<string, Window>, grace: int) {
    store.Keys == windows.Keys
    && forall key :: key in store ==>
         store[key].count == windows[key].count && store[key].count >= 1
         && store[key].expiry == Some(windows[key].expiresAt - grace)
  }

  /**
   On every sequence of calls the Redis script answers as the in-process limiter does for a window
   longer by `grace`; with no grace, exactly as the in-process limiter.
   */
  lemma {:induction false} RedisAnswersAsMemory(store: map<string, Counter>, windows: map<string, Window>,
                                                calls: seq<Call>, grace: int)
    requires Agree(store, windows, grace)
    requires forall i :: 0 <= i < |calls| ==> calls[i].window > 0
    ensures RedisAnswers(store, calls, grace) == MemoryAnswers(windows, Widened(calls, grace))
    decreases |calls|
  {
    if calls != [] {
      var wide := Widened(calls, grace);
      assert wide[1..] == Widened(calls[1..], grace);
      RedisAnswersAsMemory(Scripted(store, calls[0], grace), Count(windows, wide[0]), calls[1..], grace);
    }
  }

  lemma SameWithoutGrace(calls: seq<Call>)
    requires forall i :: 0 <= i < |calls| ==> calls[i].window > 0
    ensures RedisAnswers(map[], calls, 0) == MemoryAnswers(map[], calls)
  {
    RedisAnswersAsMemory(map[], map[], calls, 0);
    assert Widened(calls, 0) == calls;
  }

  /** How many calls for `key` from `start` on and before `end` the script allows. */
  function RedisPassed(store: map<string, Counter>, calls: seq<Call>, key: string, start: int, end: int,
                       grace: int): nat
    decreases |calls|
  {
    if calls == [] then 0
    else
      var c := calls[0];
      var allowed := Incremented(store, c.now, c.key, grace).count <= c.limit;
      (if c.key == key && start <= c.now < end && allowed then 1 else 0)
      + RedisPassed(Scripted(store, c, grace), calls[1..], key, start, end, grace)
  }

  lemma {:induction false} RedisPassesAsMemory(store: map<string, Counter>, windows: map<string, Window>,
                                               calls: seq<Call>,
                                               key: string, start: int, end: int, longer: int, grace: int)
    requires Agree(store, windows, grace) && end <= longer
    requires forall i :: 0 <= i < |calls| ==> calls[i].window > 0
    ensures RedisPassed(store, calls, key, start, end, grace) <= Passed(windows, Widened(calls, grace), key, start,
        longer)
    decreases |calls|
  {
    if calls != [] {
      var wide := Widened(calls, grace);
      assert wide[1..] == Widened(calls[1..], grace);
      RedisPassesAsMemory(Scripted(store, calls[0], grace), Count(windows, wide[0]), calls[1..],
                          key, start, end, longer, grace);
    }
  }

  /** The same bound for the script, however long Redis keeps answering for an expired key. */
  lemma RedisWindowBound(calls: seq<Call>, key: string, limit: int, window: int, start: int, grace: int)
    requires InOrder(calls) && OneLimit(calls, key, limit, window) && limit >= 1 && grace >= 0
    requires forall i :: 0 <= i < |calls| ==> calls[i].window > 0
    ensures RedisPassed(map[], calls, key, start, start + window, grace) <= 2 * limit - 1
  {
    RedisPassesAsMemory(map[], map[], calls, key, start, start + window, start + window + grace, grace);
    FixedWindowBound(map[], Widened(calls, grace), key, limit, window + grace, start);
  }

  /** The call finds its key's window expired for less than `grace`: Redis still counts it there. */
  predicate InGap(windows: map<string, Window>, c: Call, grace: int) {
    c.key in windows && windows[c.key].expiresAt <= c.now < windows[c.key].expiresAt + grace
  }

  predicate NoneInGap(windows: map<string, Window>, calls: seq<Call>, grace: int)
    decreases |calls|
  {
    calls != [] ==> !InGap(windows, calls[0], grace) && NoneInGap(Count(windows, calls[0]), calls[1..], grace)
  }

  /** With the same counters on both sides, one call is answered differently exactly in that gap. */
  lemma DiffersIffInGap(store: map<string, Counter>, windows: map<string, Window>, c: Call, grace: int)
    requires Agree(store, windows, 0) && grace >= 0 && c.limit >= 1
    ensures var n, m := Incremented(store, c.now, c.key, grace).count, Counted(windows, c).count;
            (n <= c.limit, Remaining(c.limit, n)) != (m <= c.limit, Remaining(c.limit, m)) <==> InGap(windows, c, grace)
  {
  }

  lemma AgreeOutsideGap(store: map<string, Counter>, windows: map<string, Window>, c: Call, grace: int)
    requires Agree(store, windows, 0) && grace >= 0 && c.window > 0 && !InGap(windows, c, grace)
    ensures Agree(Scripted(store, c, grace), Count(windows, c), 0)
  {
  }

  /**
   Whatever the grace, the two limiters give the same answers on a sequence of calls if and only if no call falls
   into the gap behind its key's expiry; with one millisecond of grace, onto the expiry millisecond.
   */
  lemma {:induction false} SameIffNoneInGap(store: map<string, Counter>, windows: map<string, Window>,
                                            calls: seq<Call>, grace: int)
    requires Agree(store, windows, 0) && grace >= 0
    requires forall i :: 0 <= i < |calls| ==> calls[i].window > 0 && calls[i].limit >= 1
    ensures RedisAnswers(store, calls, grace) == MemoryAnswers(windows, calls) <==> NoneInGap(windows, calls, grace)
    decreases |calls|
  {
    if calls != [] {
      var c := calls[0];
      DiffersIffInGap(store, windows, c, grace);
      var redis, memory := RedisAnswers(store, calls, grace), MemoryAnswers(windows, calls);
      if InGap(windows, c, grace) {
        assert redis[0] != memory[0];
      } else {
        AgreeOutsideGap(store, windows, c, grace);
        SameIffNoneInGap(Scripted(store, c, grace), Count(windows, c), calls[1..], grace);
        assert redis[0] == memory[0];
        assert redis[1..] == RedisAnswers(Scripted(store, c, grace), calls[1..], grace);
        assert memory[1..] == MemoryAnswers(Count(windows, c), calls[1..]);
        assert redis == [redis[0]] + redis[1..] && memory == [memory[0]] + memory[1..];
      }
    }
  }

  /** If Redis still answers during the expiry millisecond, the two limiters differ there. */
  lemma BoundaryMillisecond()
    ensures var calls := [Call(0, "k", 1, 10), Call(10, "k", 1, 10)];
            MemoryAnswers(map[], calls) == [(true, 0), (true, 0)]
            && RedisAnswers(map[], calls, 1) == [(true, 0), (false, 0)]
  {
    var calls := [Call(0, "k", 1, 10), Call(10, "k", 1, 10)];
    var windows := Count(map[], calls[0]);
    assert MemoryAnswers(windows, [calls[1]]) == [(true, 0)];
    var store := Scripted(map[], calls[0], 1);
    assert RedisAnswers(store, [calls[1]], 1) == [(false, 0)];
    assert calls[1..] == [calls[1]];
  }

  // ----- HTTP requests -----

  const READ_LIMIT: int := 240
  const MUTATION_LIMIT: int := 120
  const WINDOW: int := 60_000

  /** `splitHost` is the host part of the remote address, when that address splits. */
  datatype Request = Request(now: int, httpMethod: string, path: string, remoteAddr: string, splitHost: Option<string>)

  predicate IsRead(r: Request) {
    r.httpMethod == "GET" || r.httpMethod == "HEAD"
  }

  predicate IsLimited(r: Request) {
    "/v1/" <= r.path
  }

  function LimitOf(r: Request): int {
    if IsRead(r) then READ_LIMIT else MUTATION_LIMIT
  }

  function HostOf(r: Request): string {
    var host := if r.splitHost.None? || r.splitHost.value == "" then r.remoteAddr else r.splitHost.value;
    if host == "" then "unknown" else host
  }

  function ClientKey(r: Request): string {
    (if IsRead(r) then "read" else "mutation") + ":" + HostOf(r)
  }

  function CallOf(r: Request): Call {
    Call(r.now, ClientKey(r), LimitOf(r), WINDOW)
  }

  /** A limiter key names one client and one limit. */
  lemma KeyFixesLimit(r: Request, r': Request)
    ensures ClientKey(r) == ClientKey(r') <==> IsRead(r) == IsRead(r') && HostOf(r) == HostOf(r')
    ensures ClientKey(r) == ClientKey(r') ==> LimitOf(r) == LimitOf(r')
  {
    assert ClientKey(r)[0] == if IsRead(r) then 'r' else 'm';
    assert ClientKey(r')[0] == if IsRead(r') then 'r' else 'm';
    var n := if IsRead(r) then 5 else 9;
    assert ClientKey(r)[n..] == HostOf(r);
    if IsRead(r) == IsRead(r') {
      assert ClientKey(r')[n..] == HostOf(r');
    }
  }

  /** Requests of one client and scope that reach the handler from `start` on and before `end`. */
  function Served(windows: map<string, Window>, requests: seq<Request>, client: Request, start: int, end: int): nat
    decreases |requests|
  {
    if requests == [] then 0
    else
      var r := requests[0];
      if !IsLimited(r) then Served(windows, requests[1..], client, start, end)
      else
        var mine := IsRead(r) == IsRead(client) && HostOf(r) == HostOf(client) && start <= r.now < end;
        (if mine && Allowed(windows, CallOf(r)) then 1 else 0)
        + Served(Count(windows, CallOf(r)), requests[1..], client, start, end)
  }

  function Calls(requests: seq<Request>): seq<Call> {
    if requests == [] then []
    else if IsLimited(requests[0]) then [CallOf(requests[0])] + Calls(requests[1..])
    else Calls(requests[1..])
  }

  predicate RequestsInOrder(requests: seq<Request>) {
    forall i, j :: 0 <= i < j < |requests| ==> requests[i].now <= requests[j].now
  }

  lemma {:induction false} ServedIsPassed(windows: map<string, Window>, requests: seq<Request>, client: Request,
                                          start: int, end: int)
    ensures Served(windows, requests, client, start, end)
            == Passed(windows, Calls(requests), ClientKey(client), start, end)
    decreases |requests|
  {
    if requests != [] {
      var r := requests[0];
      KeyFixesLimit(r, client);
      if IsLimited(r) {
        assert Calls(requests)[1..] == Calls(requests[1..]);
        ServedIsPassed(Count(windows, CallOf(r)), requests[1..], client, start, end);
      } else {
        ServedIsPassed(windows, requests[1..], client, start, end);
      }
    }
  }

  lemma {:induction false} CallsShape(requests: seq<Request>, client: Request, floor: int)
    requires RequestsInOrder(requests) && (requests != [] ==> floor <= requests[0].now)
    ensures InOrder(Calls(requests)) && OneLimit(Calls(requests), ClientKey(client), LimitOf(client), WINDOW)
    ensures forall i :: 0 <= i < |Calls(requests)| ==> floor <= Calls(requests)[i].now
  {
    if requests != [] {
      KeyFixesLimit(requests[0], client);
      CallsShape(requests[1..], client, requests[0].now);
    }
  }

  /** However many requests arrive, in any minute one client gets at most 479 reads and 239 mutations served. */
  lemma MinuteBound(requests: seq<Request>, client: Request, start: int)
    requires RequestsInOrder(requests)
    ensures Served(map[], requests, client, start, start + WINDOW) <= if IsRead(client) then 479 else 239
  {
    ServedIsPassed(map[], requests, client, start, start + WINDOW);
    CallsShape(requests, client, if requests == [] then 0 else requests[0].now);
    FixedWindowBound(map[], Calls(requests), ClientKey(client), LimitOf(client), WINDOW, start);
  }

  // ----- The request filter -----

  datatype Reply = Handled | HandledWithin(limit: int, remaining: nat)
      | TooManyRequests(limit: int, remaining: nat, retryAfter: int)

  /** Half a second rounds up; a reset in the past rounds to at most zero. */
  function WholeSeconds(ms: int): int {
    if ms < 0 then 0 else (ms + 500) / 1000
  }

  /** What a request is answered when the limiter decided `d`, or failed: then the filter lets it pass. */
  method Filter(r: Request, d: Option<Decision>) returns (reply: Reply)
    ensures d.None? ==> reply == Handled
    ensures d.Some? ==> !reply.Handled? && reply.limit == d.value.limit && reply.remaining == d.value.remaining
    ensures d.Some? ==> (reply.HandledWithin? <==> d.value.allowed)
    ensures reply.TooManyRequests? ==>
              reply.retryAfter >= 1
              && (d.value.resetAfter >= 500 ==> -500 <= 1000 * reply.retryAfter - d.value.resetAfter <= 500)
  {
    if d.None? {
      return Handled;
    }
    if d.value.allowed {
      return HandledWithin(d.value.limit, d.value.remaining);
    }
    var retryAfter := WholeSeconds(d.value.resetAfter);
    if retryAfter < 1 {
      retryAfter := 1;
    }
    return TooManyRequests(d.value.limit, d.value.remaining, retryAfter);
  }

  /** Refused requests are told to come back after the nearest whole second to the reset, and at least one. */
  method WithRateLimit(limiter: MemoryLimiter, r: Request, later: int) returns (reply: Reply)
    modifies limiter
    ensures !IsLimited(r) ==> reply == Handled && limiter.windows == old(limiter.windows)
    ensures IsLimited(r) ==> limiter.windows == Count(old(limiter.windows), CallOf(r))
    ensures IsLimited(r) ==> !reply.Handled? && reply.limit == LimitOf(r)
                             && reply.remaining == Remaining(LimitOf(r), limiter.windows[ClientKey(r)].count)
    ensures IsLimited(r) ==> (reply.HandledWithin? <==> Allowed(old(limiter.windows), CallOf(r)))
    ensures reply.TooManyRequests? ==>
              reply.retryAfter >= 1
              && var reset := limiter.windows[ClientKey(r)].expiresAt - later;
                 reset >= 500 ==> -500 <= 1000 * reply.retryAfter - reset <= 500
  {
    if !IsLimited(r) {
      return Handled;
    }
    var d := limiter.Allow(CallOf(r), later);
    reply := Filter(r, Some(d));
  }

  /** A call to Redis answers, never arrives, or is applied without its reply arriving. */
  datatype Delivery = Answered | Unsent | Unanswered

  /** The same over Redis: an error lets the request pass, counted or not. */
  method WithRedisRateLimit(limiter: RedisLimiter, r: Request, delivery: Delivery) returns (reply: Reply)
    modifies limiter
    ensures limiter.store == if IsLimited(r) && !delivery.Unsent?
                             then Scripted(old(limiter.store), CallOf(r), limiter.grace) else old(limiter.store)
    ensures !IsLimited(r) || !delivery.Answered? <==> reply.Handled?
    ensures !reply.Handled? ==>
              var n := Incremented(old(limiter.store), r.now, ClientKey(r), limiter.grace).count;
              reply.limit == LimitOf(r) && reply.remaining == Remaining(LimitOf(r), n)
              && (reply.HandledWithin? <==> n <= LimitOf(r))
    ensures reply.TooManyRequests? ==>
              reply.retryAfter >= 1
              && var reset := TimeToLive(limiter.store, r.now, ClientKey(r), limiter.grace);
                 reset >= 500 ==> -500 <= 1000 * reply.retryAfter - reset <= 500
  {
    if !IsLimited(r) {
      return Handled;
    }
    var d := None;
    if !delivery.Unsent? {
      var decision := limiter.Allow(CallOf(r));
      if delivery.Answered? {
        d := Some(decision);
      }
    }
    reply := Filter(r, d);
  }
}
