/** Catch-up schedulers of the camera triggers: when a deadline is missed the next one is a
    later point of the same lattice, not a burst of late triggers. Times are nanoseconds. */
module Schedulers {
  import opened Products

  const SECOND := 1_000_000_000
  const WORD64 := 0x1_0000_0000_0000_0000

  // ---------- A fixed interval ----------

  // How many intervals one advance goes forward.
  function Intervals(next: int, interval: nat, now: int): (k: nat)
    requires 0 < interval
    ensures 1 <= k
  {
    if now > next + interval then 1 + (now - (next + interval)) / interval + 1 else 1
  }

  function Advanced(next: int, interval: nat, now: int): int
    requires 0 < interval
  {
    next + Intervals(next, interval, now) * interval
  }

  /** An advance goes at least one interval forward, never lands before now, and after a missed
      deadline lands at most one interval after now. */
  lemma AdvancedBounds(next: int, interval: nat, now: int)
    requires 0 < interval
    ensures var r := Advanced(next, interval, now);
            && r >= next + interval && r >= now
            && (now <= next + interval ==> r == next + interval)
            && (now > next + interval ==> r - interval <= now < r)
  {
    if now > next + interval {
      var q := (now - (next + interval)) / interval;
      QuotientBounds(now - (next + interval), interval);
      Distribute(q, 2, interval);
    }
  }

  // p is the first point of the lattice, from one interval after next on, that is not before now.
  ghost predicate FirstNotBefore(next: int, interval: nat, now: int, p: int) {
    && (exists k: nat :: 1 <= k && p == next + k * interval)
    && now <= p
    && forall j: nat :: 1 <= j && now <= next + j * interval ==> p <= next + j * interval
  }

  /** The skip goes no further than the first point not before now, except when now is itself a
      lattice point past the missed deadline: then it goes one interval further. */
  lemma SkipIsFirstUnlessOnLattice(next: int, interval: nat, now: int)
    requires 0 < interval
    ensures FirstNotBefore(next, interval, now, Advanced(next, interval, now)) <==>
            !(now > next + interval && (now - next) % interval == 0)
    ensures now > next + interval && (now - next) % interval == 0 ==>
              FirstNotBefore(next, interval, now, Advanced(next, interval, now) - interval)
  {
    AdvancedBounds(next, interval, now);
    if now <= next + interval {
      InTime(next, interval, now);
    } else if (now - next) % interval == 0 {
      OnLattice(next, interval, now, Intervals(next, interval, now));
    } else {
      OffLattice(next, interval, now, Intervals(next, interval, now));
    }
  }

  lemma InTime(next: int, interval: nat, now: int)
    requires 0 < interval && now <= next + interval
    ensures FirstNotBefore(next, interval, now, next + interval)
  {
    assert next + interval == next + 1 * interval;
    forall j: nat | 1 <= j ensures next + interval <= next + j * interval {
      Grows(1, j, interval);
    }
  }

  // When now is a lattice point, the point k intervals on is one too far.
  lemma OnLattice(next: int, interval: nat, now: int, k: nat)
    requires 0 < interval && now > next + interval && (now - next) % interval == 0
    requires next + k * interval - interval <= now < next + k * interval
    ensures FirstNotBefore(next, interval, now, next + k * interval - interval)
    ensures !FirstNotBefore(next, interval, now, next + k * interval)
  {
    var d := (now - next) / interval;
    QuotientBounds(now - next, interval);
    OneMore(d, interval);
    OneMore(k - 1, interval);
    Smaller(d, k, interval);
    Smaller(k - 1, d + 1, interval);
    Smaller(1, d, interval);
    assert now == next + d * interval;
  }

  lemma OffLattice(next: int, interval: nat, now: int, k: nat)
    requires 0 < interval && 1 <= k && (now - next) % interval != 0
    requires next + k * interval - interval <= now < next + k * interval
    ensures FirstNotBefore(next, interval, now, next + k * interval)
  {
    OneMore(k - 1, interval);
    MultipleHasNoRemainder(k - 1, interval);
    assert now != next + (k - 1) * interval;
    forall j: nat | now <= next + j * interval ensures next + k * interval <= next + j * interval {
      Smaller(k - 1, j, interval);
      Grows(k, j, interval);
    }
  }

  lemma MultipleHasNoRemainder(j: int, interval: nat)
    requires 0 < interval
    ensures (j * interval) % interval == 0
  {
    var q := (j * interval) / interval;
    QuotientBounds(j * interval, interval);
    OneMore(q, interval);
    Smaller(j, q + 1, interval);
    OneMore(q - 1, interval);
    Smaller(q - 1, j, interval);
  }

  // ---------- A frame rate ----------

  function Offset(tick: nat, fps: nat): nat
    requires 0 < fps
  {
    tick * SECOND / fps
  }

  // The inner comparison of the code is kept as a branch of its own.
  function NextTick(tick: nat, fps: nat, elapsed: int): nat
    requires 0 < fps
  {
    var t := tick + 1;
    if elapsed <= 0 then t
    else if elapsed > Offset(t, fps) then
      var skipTo := elapsed * fps / SECOND + 1;
      if skipTo > t then skipTo else t
    else t
  }

  // A deadline is not before the time exactly when the tick is not before it, scaled.
  lemma OffsetNotBefore(tick: nat, fps: nat, elapsed: nat)
    requires 0 < fps
    ensures elapsed <= Offset(tick, fps) <==> elapsed * fps <= tick * SECOND
  {
    QuotientNotBelow(tick * SECOND, fps, elapsed);
  }

  // The tick after the last one that is not later than x, in units of 1/SECOND.
  lemma NextWhole(x: nat)
    ensures (x / SECOND) * SECOND <= x < (x / SECOND + 1) * SECOND
    ensures x == (x / SECOND) * SECOND <==> x % SECOND == 0
  {
  }

  /** Whenever the outer test holds the inner `skip_to_tick > tick_` holds as well. */
  lemma InnerTestAlwaysHolds(tick: nat, fps: nat, elapsed: nat)
    requires 0 < fps && elapsed > Offset(tick, fps)
    ensures elapsed * fps / SECOND + 1 > tick
  {
    OffsetNotBefore(tick, fps, elapsed);
    NextWhole(elapsed * fps);
  }

  /** Later ticks have strictly later deadlines. */
  lemma OffsetIncreases(a: nat, b: nat, fps: nat)
    requires 0 < fps <= SECOND && a < b
    ensures Offset(a, fps) < Offset(b, fps)
  {
    QuotientBounds(a * SECOND, fps);
    OneMore(Offset(a, fps), fps);
    OffsetNotBefore(b, fps, Offset(a, fps) + 1);
  }

  /** An advance yields a strictly later deadline that is not before now. */
  lemma NextTickBounds(tick: nat, fps: nat, elapsed: int)
    requires 0 < fps <= SECOND
    ensures var t := NextTick(tick, fps, elapsed);
            t > tick && Offset(t, fps) > Offset(tick, fps) && Offset(t, fps) >= elapsed
  {
    var t := NextTick(tick, fps, elapsed);
    OffsetIncreases(tick, t, fps);
    if elapsed > 0 && elapsed > Offset(tick + 1, fps) {
      InnerTestAlwaysHolds(tick + 1, fps, elapsed);
      NextWhole(elapsed * fps);
      OffsetNotBefore(t, fps, elapsed);
    }
  }

  /** When it skips, it skips to the first tick whose deadline is not before now, except when
      now * fps is a whole number of seconds: then it goes one tick further. */
  lemma TickIsFirstUnlessExact(tick: nat, fps: nat, elapsed: nat)
    requires 0 < fps && elapsed > Offset(tick + 1, fps)
    ensures var t := NextTick(tick, fps, elapsed);
            elapsed > Offset(t - 1, fps) <==> (elapsed * fps) % SECOND != 0
  {
    InnerTestAlwaysHolds(tick + 1, fps, elapsed);
    NextWhole(elapsed * fps);
    OffsetNotBefore(elapsed * fps / SECOND, fps, elapsed);
  }

  /** The deadlines keep the rate: every fps ticks take exactly one second, and one tick never
      takes a nanosecond more or less than its share. */
  lemma OffsetKeepsRate(tick: nat, fps: nat, seconds: nat)
    requires 0 < fps
    ensures Offset(seconds * fps, fps) == seconds * 1_000_000_000
    ensures Offset(tick + fps, fps) == Offset(tick, fps) + 1_000_000_000
    ensures var gap := Offset(tick + 1, fps) - Offset(tick, fps);
            gap * fps < 1_000_000_000 + fps && 1_000_000_000 < gap * fps + fps
  {
    assert seconds * fps * SECOND == (seconds * SECOND) * fps;
    WholeQuotient(seconds * SECOND, fps);
    Distribute(tick, fps, SECOND);
    AddedQuotient(tick * SECOND, SECOND, fps);
    QuotientBounds(tick * SECOND, fps);
    QuotientBounds((tick + 1) * SECOND, fps);
    Distribute(Offset(tick + 1, fps) - Offset(tick, fps), Offset(tick, fps), fps);
    OneMore(tick, SECOND);
  }

  lemma WholeQuotient(q: nat, y: nat)
    requires 0 < y
    ensures (q * y) / y == q
  {
    MultipleHasNoRemainder(q, y);
    QuotientBounds(q * y, y);
    if (q * y) / y < q {
      Grows((q * y) / y + 1, q, y);
      OneMore((q * y) / y, y);
    } else if (q * y) / y > q {
      Grows(q + 1, (q * y) / y, y);
      OneMore(q, y);
    }
  }

  lemma AddedQuotient(x: nat, k: nat, y: nat)
    requires 0 < y
    ensures (x + k * y) / y == x / y + k
  {
    var q := x / y;
    QuotientBounds(x, y);
    Distribute(q, k, y);
    QuotientNotBelow(x + k * y, y, q + k);
    QuotientNotBelow(x + k * y, y, q + k + 1);
    OneMore(q + k, y);
  }

  /** An advance that misses no deadline, at or before the start too, goes on by one tick. */
  lemma OnTimeIsNext(tick: nat, fps: nat, elapsed: int)
    requires 0 < fps && elapsed <= Offset(tick + 1, fps)
    ensures NextTick(tick, fps, elapsed) == tick + 1
  {
  }

  // The first tick after `tick` whose deadline is not before the time.
  ghost predicate FirstInTime(tick: nat, fps: nat, elapsed: int, t: nat)
    requires 0 < fps
  {
    t > tick && Offset(t, fps) >= elapsed && forall u: nat :: tick < u < t ==> Offset(u, fps) < elapsed
  }

  /** Whatever the time, an advance goes to the first later tick whose deadline is not before it,
      and one further exactly when a missed deadline meets a time that is a whole number of
      frames, elapsed * fps being a whole number of seconds. */
  lemma NextTickExact(tick: nat, fps: nat, elapsed: int)
    requires 0 < fps <= SECOND
    ensures var t := NextTick(tick, fps, elapsed);
            if elapsed > Offset(tick + 1, fps) && (elapsed * fps) % 1_000_000_000 == 0
            then t > tick + 1 && FirstInTime(tick, fps, elapsed, t - 1)
            else FirstInTime(tick, fps, elapsed, t)
  {
    if elapsed <= Offset(tick + 1, fps) {
      OnTimeIsNext(tick, fps, elapsed);
    } else {
      var t := NextTick(tick, fps, elapsed);
      NextTickBounds(tick, fps, elapsed);
      TickIsFirstUnlessExact(tick, fps, elapsed);
      InnerTestAlwaysHolds(tick + 1, fps, elapsed);
      SkippedAreMissed(fps, elapsed, t);
    }
  }

  // Every tick up to the whole frames elapsed is missed, but for the one that is exactly due.
  lemma SkippedAreMissed(fps: nat, elapsed: nat, t: nat)
    requires 0 < fps && t == elapsed * fps / SECOND + 1
    ensures forall u: nat :: u < t - 1 ==> Offset(u, fps) < elapsed
    ensures (elapsed * fps) % SECOND == 0 ==> Offset(t - 1, fps) >= elapsed
  {
    NextWhole(elapsed * fps);
    OffsetNotBefore(t - 1, fps, elapsed);
    forall u: nat | u < t - 1 ensures Offset(u, fps) < elapsed {
      OffsetNotBefore(u, fps, elapsed);
    }
  }

  // The tick after advances at the given times since the start.
  function TickAfter(fps: nat, times: seq<int>): nat
    requires 0 < fps
  {
    if times == [] then 1 else NextTick(TickAfter(fps, times[..|times| - 1]), fps, times[|times| - 1])
  }

  // No advance comes after the deadline it goes on to.
  ghost predicate OnTime(fps: nat, times: seq<int>)
    requires 0 < fps
  {
    forall i :: 0 <= i < |times| ==> times[i] <= Offset(i + 2, fps)
  }

  /** A thread that is always on time triggers at every tick: after n advances it is at tick 1 + n. */
  lemma {:induction false} EveryTickOnTime(fps: nat, times: seq<int>)
    requires 0 < fps && OnTime(fps, times)
    ensures TickAfter(fps, times) == 1 + |times|
  {
    if times != [] {
      EveryTickOnTime(fps, times[..|times| - 1]);
      OnTimeIsNext(|times|, fps, times[|times| - 1]);
    }
  }

  // ---------- The scheduler in place ----------

  class TriggerScheduler {
    const fpsMode: bool
    const fps: nat
    const interval: nat
    const start: int
    var nextInterval: int
    var tick: nat

    // The ranges the command line accepts.
    ghost predicate Valid()
      reads this
    {
      && (fpsMode ==> 1 <= fps <= 1000)
      && 1_000_000 <= interval <= SECOND
      && exists k: nat :: 1 <= k && nextInterval == start + k * interval
    }

    constructor (fpsMode: bool, fps: nat, intervalUs: nat, now: int)
      requires fpsMode ==> 1 <= fps <= 1000
      requires 1000 <= intervalUs <= 1_000_000
      ensures Valid() && nextInterval == now + intervalUs * 1000 && tick == 1 && start == now
      ensures this.fpsMode == fpsMode && this.fps == fps && interval == intervalUs * 1000
    {
      this.fpsMode, this.fps, this.interval, this.start := fpsMode, fps, intervalUs * 1000, now;
      nextInterval, tick := now + intervalUs * 1000, 1;
      new;
      assert nextInterval == start + 1 * interval;
    }

    function NextDeadline(): int
      reads this
      requires fpsMode ==> 0 < fps
    {
      if fpsMode then start + Offset(tick, fps) else nextInterval
    }

    // now: the one clock reading of an advance.
    method Advance(now: int)
      requires Valid()
      modifies this
      ensures Valid()
      ensures !fpsMode ==> nextInterval == Advanced(old(nextInterval), interval, now) && tick == old(tick)
      ensures fpsMode ==> tick == NextTick(old(tick), fps, now - start) && nextInterval == old(nextInterval)
      ensures NextDeadline() > old(NextDeadline()) && NextDeadline() >= now
    {
      if !fpsMode {
        ghost var k: nat :| 1 <= k && nextInterval == start + k * interval;
        ghost var m := Intervals(nextInterval, interval, now);
        AdvancedBounds(nextInterval, interval, now);
        nextInterval := nextInterval + interval;
        if now > nextInterval {
          var lag := now - nextInterval;
          var skip := lag / interval + 1;
          nextInterval := nextInterval + skip * interval;
          OneMore(skip, interval);
        }
        Distribute(k, m, interval);
        return;
      }
      NextTickBounds(tick, fps, now - start);
      tick := tick + 1;
      var elapsed := now - start;
      if elapsed <= 0 {
        return;
      }
      if elapsed > Offset(tick, fps) {
        var skipTo := elapsed * fps / SECOND + 1;
        if skipTo > tick {
          tick := skipTo;
        }
      }
    }
  }

  // ---------- The live trigger thread ----------

  // What a camera reports as its shutter: none when it has no device.
  datatype Shutter = NoDevice | Used(us: int)

  function ShutterUsed(base: nat, s: Shutter): int {
    if s.Used? && s.us > 0 then s.us else base
  }

  function Longest(base: nat, shutters: seq<Shutter>): (r: nat)
    ensures base <= r
    ensures forall i :: 0 <= i < |shutters| ==> ShutterUsed(base, shutters[i]) <= r
    ensures r == base || exists i :: 0 <= i < |shutters| && r == ShutterUsed(base, shutters[i])
  {
    if shutters == [] then base
    else
      var rest := Longest(base, shutters[..|shutters| - 1]);
      var last := ShutterUsed(base, shutters[|shutters| - 1]);
      if last > rest then last else rest
  }

  class TriggerThread {
    const base: nat
    var next: int

    constructor (base: nat, now: int)
      requires 0 < base
      ensures this.base == base && next == now + base * 1000
    {
      this.base := base;
      next := now + base * 1000;
    }

    // One round after the sleep: all cameras are triggered, then the clock is read.
    method Round(shutters: seq<Shutter>, now: int)
      requires 0 < base
      modifies this
      ensures next == Advanced(old(next), Longest(base, shutters) * 1000, now)
    {
      var longest := base;
      for i := 0 to |shutters|
        invariant longest == Longest(base, shutters[..i])
      {
        var used := ShutterUsed(base, shutters[i]);
        assert shutters[..i + 1][..i] == shutters[..i];
        if used > longest {
          longest := used;
        }
      }
      assert shutters[..|shutters|] == shutters;
      var interval := longest * 1000;
      ghost var was := next;
      next := next + interval;
      if now > next {
        var skip := (now - next) / interval + 1;
        next := next + skip * interval;
        OneMore(skip, interval);
      }
    }
  }

  datatype Turn = Turn(shutters: seq<Shutter>, now: int)

  // The deadline after all the rounds.
  function Deadline(base: nat, first: int, turns: seq<Turn>): int
    requires 0 < base
  {
    if turns == [] then first
    else
      var last := turns[|turns| - 1];
      Advanced(Deadline(base, first, turns[..|turns| - 1]), Longest(base, last.shutters) * 1000, last.now)
  }

  /** In every run consecutive deadlines are apart by at least the base and every shutter time
      that a camera used in the round between them, and the later one has not passed yet. When
      the round was over in time they are apart by exactly the longest of these. */
  lemma DeadlinesLeaveTheShutterOpen(base: nat, first: int, turns: seq<Turn>, n: nat)
    requires 0 < base && n < |turns|
    ensures var was, now := Deadline(base, first, turns[..n]), Deadline(base, first, turns[..n + 1]);
      && now - was >= base * 1000 && now >= turns[n].now
      && (forall s :: s in turns[n].shutters && s.Used? ==> now - was >= s.us * 1000)
      && ((exists s :: s in turns[n].shutters && s.Used? && 0 < s.us && turns[n].now <= was + s.us * 1000)
          || turns[n].now <= was + base * 1000 ==>
            now - was == base * 1000 || exists s :: s in turns[n].shutters && s.Used? && now - was == s.us * 1000)
  {
    var was, shutters := Deadline(base, first, turns[..n]), turns[n].shutters;
    assert turns[..n + 1][..n] == turns[..n];
    AdvancedBounds(was, Longest(base, shutters) * 1000, turns[n].now);
    forall s | s in shutters && s.Used? ensures s.us <= Longest(base, shutters) {
      var i :| 0 <= i < |shutters| && shutters[i] == s;
      assert ShutterUsed(base, shutters[i]) <= Longest(base, shutters);
    }
    if Longest(base, shutters) != base {
      var i :| 0 <= i < |shutters| && Longest(base, shutters) == ShutterUsed(base, shutters[i]);
      assert shutters[i] in shutters && shutters[i].Used?;
    }
  }

  // ---------- Word width ----------

  /** Up to 213 days at any accepted rate no product of an advance exceeds 64 bits, provided the
      thread slept until its deadline. */
  lemma NoWordOverflow(tick: nat, fps: nat, elapsed: nat)
    requires 1 <= fps <= 1000 && elapsed <= 213 * 24 * 3600 * SECOND
    requires Offset(tick, fps) <= elapsed
    ensures (tick + 1) * SECOND < WORD64 && elapsed * fps < WORD64
    ensures NextTick(tick, fps, elapsed) * SECOND < WORD64
  {
    Grows(elapsed, 213 * 24 * 3600 * SECOND, fps);
    QuotientBounds(tick * SECOND, fps);
    Grows(Offset(tick, fps), elapsed, fps);
    NextWhole(elapsed * fps);
  }
}
