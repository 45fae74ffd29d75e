/** The timer for clock-aligned meter values: the next instant of the schedule,
    whether the scheduled instants increase, and whether one is ever skipped,
    with the class that arms the timer accordingly. */
module AlignedTimer {

  import opened Messages

  // Instants are whole ticks of the system clock, intervals whole seconds; the clock reading is a parameter.

  /** std::chrono::system_clock counts in nanoseconds. */
  const SECOND := 1_000_000_000

  /** system_time_point{}. */
  const EPOCH := 0

  /** Division as in C++: the quotient is truncated towards zero. */
  function Quotient(a: int, b: int): int
    requires b != 0
  {
    if a >= 0 then a / b else -((-a) / b)
  }

  function NextTimepoint(start: int, interval: int, now: int): int
    requires interval != 0
  {
    var diff := now - start;
    if diff > 0 then start + (Quotient(Quotient(diff, SECOND), interval) + 1) * interval * SECOND else start
  }

  // ---------------------------------------------------------------- the next instant

  /** The k-th instant of the schedule. */
  function Aligned(start: int, interval: int, k: int): int {
    start + k * (interval * SECOND)
  }

  /** The steps from the start to the first instant after `now`, counted in ticks and not in truncated seconds. */
  function StepsPast(start: int, interval: int, now: int): int
    requires interval > 0
  {
    if now <= start then 0 else (now - start) / (interval * SECOND) + 1
  }

  lemma DivideTwice(d: nat, a: int, b: int)
    requires a > 0 && b > 0
    ensures b * a > 0 && d / a / b == d / (b * a)
  {
    var q, r := d / a, d % a;
    var s, t := q / b, q % b;
    assert d == a * q + r && q == b * s + t;
    calc {
      d;
      a * (b * s + t) + r;
      a * (b * s) + a * t + r;
      { assert a * (b * s) == (b * a) * s; }
      (b * a) * s + (a * t + r);
    }
    Below(a, b, t, r);
    Quotients(d, b * a, s, a * t + r);
  }

  lemma Below(a: int, b: int, t: int, r: int)
    requires 0 <= t < b && 0 <= r < a
    ensures 0 <= a * t + r < b * a
  {
    assert a * t <= a * (b - 1);
    assert a * (b - 1) == b * a - a;
  }

  lemma Quotients(d: int, n: int, s: int, e: int)
    requires n > 0 && d == n * s + e && 0 <= e < n
    ensures d / n == s
  {
    SameQuotient(n, d / n, d % n, s, e);
  }

  lemma SameQuotient(n: int, q: int, m: int, s: int, e: int)
    requires n > 0 && n * q + m == n * s + e && 0 <= m < n && 0 <= e < n
    ensures q == s
  {
    Product(n, q, s);
  }

  lemma Product(n: int, a: int, b: int)
    requires n > 0
    ensures a > b ==> n * a >= n * b + n
    ensures a < b ==> n * a + n <= n * b
    ensures n * a == a * n
  {
    if a > b {
      Positive(n, a - b);
      Distribute(n, a, b);
    } else if a < b {
      Positive(n, b - a);
      Distribute(n, b, a);
    }
  }

  lemma Positive(n: int, c: int)
    requires n > 0 && c >= 1
    ensures n * c >= n
  {
  }

  lemma Distribute(n: int, a: int, b: int)
    ensures n * (a - b) == n * a - n * b
  {
  }

  /** Truncating the clock to whole seconds loses nothing: the result is the instant after StepsPast steps. */
  lemma NextIsAligned(start: int, interval: int, now: int)
    requires interval > 0
    ensures NextTimepoint(start, interval, now) == Aligned(start, interval, StepsPast(start, interval, now))
  {
    if now > start {
      DivideTwice(now - start, SECOND, interval);
      var k := StepsPast(start, interval, now);
      assert k * interval * SECOND == k * (interval * SECOND);
    }
  }

  /**
   * After the start, the result is an instant of the schedule, later than `now` by at most one interval, and no
   * instant of the schedule lies between them; up to the start, it is the start.
   */
  lemma NextIsFirst(start: int, interval: int, now: int, j: int)
    requires interval > 0
    ensures var r, k := NextTimepoint(start, interval, now), StepsPast(start, interval, now);
      r == Aligned(start, interval, k) &&
      if now <= start then r == start
      else k >= 1 && now < r <= now + interval * SECOND && (Aligned(start, interval, j) > now <==> j >= k)
  {
    NextIsAligned(start, interval, now);
    if now > start {
      Steps(now - start, interval * SECOND, j);
    }
  }

  lemma Steps(d: int, n: int, j: int)
    requires d > 0 && n > 0
    ensures var k := d / n + 1;
      k >= 1 && d < k * n <= d + n && (j * n > d <==> j >= k)
  {
    var q := d / n;
    assert d == n * q + d % n;
    Product(n, q + 1, j);
    Product(n, q, j);
    Product(n, j, q);
    assert n * (q + 1) == n * q + n;
    NonNegativeQuotient(d, n);
  }

  lemma NonNegativeQuotient(d: int, n: int)
    requires d >= 0 && n > 0
    ensures d / n >= 0
  {
  }

  // ---------------------------------------------------------------- a run of the timer

  /** What is scheduled when the clock reads `readings` at the start of the timer and at each firing. */
  function Schedule(start: int, interval: int, readings: seq<int>): (instants: seq<int>)
    requires interval > 0
    ensures |instants| == |readings|
    ensures forall i :: 0 <= i < |instants| ==> instants[i] == NextTimepoint(start, interval, readings[i])
  {
    seq(|readings|, i requires 0 <= i < |readings| => NextTimepoint(start, interval, readings[i]))
  }

  /** A timer never fires early. */
  predicate NeverEarly(start: int, interval: int, readings: seq<int>)
    requires interval > 0
  {
    forall i :: 0 < i < |readings| ==> readings[i] >= Schedule(start, interval, readings)[i - 1]
  }

  /** The scheduled instants strictly increase if and only if no firing reads exactly the start instant. */
  lemma ScheduleIncreases(start: int, interval: int, readings: seq<int>)
    requires interval > 0 && NeverEarly(start, interval, readings)
    ensures var s := Schedule(start, interval, readings);
      (forall i :: 0 < i < |s| ==> s[i - 1] < s[i]) <==> (forall i :: 0 < i < |readings| ==> readings[i] != start)
  {
    var s := Schedule(start, interval, readings);
    hide NextTimepoint;
    forall i | 0 < i < |s| ensures s[i - 1] < s[i] <==> readings[i] != start {
      NextIsFirst(start, interval, readings[i - 1], 0);
      NextIsFirst(start, interval, readings[i], 0);
      NotBeforeStart(start, interval, readings[i - 1]);
    }
    if forall i :: 0 < i < |s| ==> s[i - 1] < s[i] {
      forall i | 0 < i < |readings| ensures readings[i] != start {
        assert s[i - 1] < s[i];
      }
    } else {
      var i :| 0 < i < |s| && s[i - 1] >= s[i];
      assert readings[i] == start;
    }
  }

  lemma NotBeforeStart(start: int, interval: int, now: int)
    requires interval > 0
    ensures NextTimepoint(start, interval, now) >= start
  {
    NextIsFirst(start, interval, now, 0);
  }

  /** A firing is followed by the very next instant exactly if it comes less than an interval late, and not at the start instant. */
  lemma NoInstantSkipped(start: int, interval: int, readings: seq<int>, i: nat)
    requires interval > 0 && NeverEarly(start, interval, readings) && 0 < i < |readings|
    ensures var s := Schedule(start, interval, readings);
      s[i] == s[i - 1] + interval * SECOND <==> readings[i] != start && readings[i] < s[i - 1] + interval * SECOND
  {
    if readings[i] == start {
      NotBeforeStart(start, interval, readings[i - 1]);
      StartAgain(start, interval);
    } else {
      NextInstant(start, interval, readings, i);
    }
  }

  lemma StartAgain(start: int, interval: int)
    requires interval > 0
    ensures NextTimepoint(start, interval, start) == start
  {
  }

  lemma NextInstant(start: int, interval: int, readings: seq<int>, i: nat)
    requires interval > 0 && NeverEarly(start, interval, readings) && 0 < i < |readings| && readings[i] != start
    ensures var s := Schedule(start, interval, readings);
      s[i] == s[i - 1] + interval * SECOND <==> readings[i] < s[i - 1] + interval * SECOND
  {
    hide NextTimepoint, StepsPast, Aligned;
    NotBeforeStart(start, interval, readings[i - 1]);
    NextAfterNext(start, interval, readings[i - 1], readings[i]);
  }

  lemma NextAfterNext(start: int, interval: int, before: int, now: int)
    requires interval > 0 && now > start && now >= NextTimepoint(start, interval, before)
    ensures var r := NextTimepoint(start, interval, before);
      NextTimepoint(start, interval, now) == r + interval * SECOND <==> now < r + interval * SECOND
  {
    hide NextTimepoint, StepsPast, Aligned;
    var k := StepsPast(start, interval, before);
    NextIsAligned(start, interval, before);
    NextIsFirst(start, interval, now, k);
    NextIsFirst(start, interval, now, k + 1);
    OneStep(start, interval, k);
  }

  lemma OneStep(start: int, interval: int, k: int)
    ensures Aligned(start, interval, k + 1) == Aligned(start, interval, k) + interval * SECOND
  {
  }

  // ---------------------------------------------------------------- the timer

  class ClockAlignedTimer {
    var startPoint: int
    var callInterval: int
    var hasCallback: bool
    /** When the underlying timer goes off. */
    var armed: Option<int>

    constructor (hasCallback: bool)
      ensures this.hasCallback == hasCallback && callInterval == 0 && armed == None && startPoint == EPOCH
    {
      this.hasCallback, callInterval, armed, startPoint := hasCallback, 0, None, EPOCH;
    }

    method GetNextTimepoint(now: int) returns (nextTime: int)
      requires callInterval != 0
      ensures nextTime == NextTimepoint(startPoint, callInterval, now)
    {
      var diff := now - startPoint;
      var timeToNext := 0;
      if diff > 0 {
        timeToNext := (Quotient(Quotient(diff, SECOND), callInterval) + 1) * callInterval;
      }
      nextTime := startPoint + timeToNext * SECOND;
    }

    /** Without a callback or an interval nothing is armed, and what was armed before stays so. */
    method CallNext(now: int) returns (next: int)
      modifies this`armed
      ensures if hasCallback && callInterval != 0
              then next == NextTimepoint(startPoint, callInterval, now) && armed == Some(next)
              else next == EPOCH && armed == old(armed)
    {
      if !hasCallback || callInterval == 0 {
        return EPOCH;
      }
      next := GetNextTimepoint(now);
      armed := Some(next);
    }

    method IntervalStartingFrom(interval: int, startPoint: int, now: int) returns (next: int)
      modifies this`startPoint, this`callInterval, this`armed
      ensures this.startPoint == startPoint && callInterval == interval
      ensures hasCallback && interval != 0 ==> armed == Some(next) && next == NextTimepoint(startPoint, interval, now)
      ensures hasCallback && interval > 0 ==> next == Aligned(startPoint, interval, StepsPast(startPoint, interval, now))
      ensures !hasCallback || interval == 0 ==> next == EPOCH && armed == old(armed)
    {
      this.startPoint := startPoint;
      callInterval := interval;
      next := CallNext(now);
      if interval > 0 {
        NextIsAligned(startPoint, interval, now);
      }
    }

    method SetInterval(interval: int, now: int) returns (next: int)
      modifies this`callInterval, this`armed
      ensures callInterval == interval
      ensures hasCallback && interval != 0 ==> armed == Some(next) && next == NextTimepoint(startPoint, interval, now)
      ensures hasCallback && interval > 0 ==> next == Aligned(startPoint, interval, StepsPast(startPoint, interval, now))
      ensures !hasCallback || interval == 0 ==> next == EPOCH && armed == old(armed)
    {
      callInterval := interval;
      next := CallNext(now);
      if interval > 0 {
        NextIsAligned(startPoint, interval, now);
      }
    }

    /** The timer goes off and arms itself again; with a positive interval, strictly later unless the clock reads
        the start. If the interval was set to zero meanwhile, the code divides by zero: the process traps. */
    method Fire(now: int) returns (trapped: bool)
      requires armed.Some? && now >= armed.value
      modifies this`armed
      ensures trapped <==> callInterval == 0
      ensures trapped ==> armed == old(armed)
      ensures !trapped ==> armed == Some(NextTimepoint(startPoint, callInterval, now))
      ensures callInterval > 0 && old(armed.value) >= startPoint ==>
        (armed.value > old(armed.value) <==> now != startPoint)
    {
      if callInterval == 0 {
        return true;
      }
      var next := GetNextTimepoint(now);
      armed := Some(next);
      trapped := false;
      if callInterval > 0 {
        NextIsFirst(startPoint, callInterval, now, 0);
        hide NextTimepoint;
      }
    }
  }
}
