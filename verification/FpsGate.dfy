/** The credit gate that thins a stream to its frame rate, and the PTS generator behind it. */
module FpsGate {
  import opened Products

  const SECOND: nat := 1_000_000_000
  const U64: nat := 0x1_0000_0000_0000_0000

  // Clock values the gate is run with: positive, and far enough below 2^64 that adding at
  // most two periods of credit to a difference of them cannot wrap.
  predicate Clock(now: nat) {
    0 < now < U64 - 2 * SECOND
  }

  datatype Gate = Gate(fps: int, account: Account)
  datatype Account = Account(last: nat, credit: nat)

  function Period(fps: int): (p: nat)
    requires 0 < fps < 60
    ensures 1 < p <= SECOND
  {
    SECOND / fps
  }

  /** One call with the period known. 64-bit addition wraps, as the code's does. */
  function Offer(p: nat, a: Account, now: nat): (r: (Account, bool)) {
    if a.last == 0 || now < a.last then (Account(now, p), true)
    else
      var sum := (a.credit + (now - a.last)) % U64;
      var credit := if sum > 2 * p then 2 * p else sum;
      if credit >= p then (Account(now, credit - p), true) else (Account(now, credit), false)
  }

  /** One call of allow. */
  function Allow(g: Gate, now: nat): (r: (Gate, bool)) {
    if g.fps <= 0 then (g, false)
    else if g.fps >= 60 then (g, true)
    else
      var (account, granted) := Offer(Period(g.fps), g.account, now);
      (Gate(g.fps, account), granted)
  }

  class StreamFpsGate {
    var fps: int
    var lastNs: nat
    var creditNs: nat

    ghost function View(): Gate
      reads this
    {
      Gate(fps, Account(lastNs, creditNs))
    }

    constructor ()
      ensures View() == Gate(60, Account(0, 0))
    {
      fps, lastNs, creditNs := 60, 0, 0;
    }

    method Configure(f: int)
      modifies this
      ensures View() == Gate(f, Account(0, 0))
    {
      fps := f;
      Reset();
    }

    method Reset()
      modifies this
      ensures View() == Gate(old(fps), Account(0, 0))
    {
      lastNs, creditNs := 0, 0;
    }

    method AllowFrame(nowNs: nat) returns (granted: bool)
      modifies this
      ensures (View(), granted) == Allow(old(View()), nowNs)
    {
      if fps <= 0 {
        return false;
      }
      if fps >= 60 {
        return true;
      }
      var period := SECOND / fps;
      if lastNs == 0 || nowNs < lastNs {
        lastNs, creditNs := nowNs, period;
        return true;
      }
      var credit := (creditNs + (nowNs - lastNs)) % U64;
      lastNs := nowNs;
      var maxCredit := period * 2;
      if credit > maxCredit {
        credit := maxCredit;
      }
      if credit >= period {
        creditNs := credit - period;
        return true;
      }
      creditNs := credit;
      return false;
    }
  }

  // ---------- Runs ----------

  // Call times never go back and start no earlier than `from`.
  ghost predicate Times(ts: seq<nat>, from: nat) {
    && (forall i :: 0 <= i < |ts| ==> from <= ts[i] && Clock(ts[i]))
    && (forall i, j :: 0 <= i < j < |ts| ==> ts[i] <= ts[j])
  }

  /** The gate after calls at the given times, and how many of them it granted. */
  function After(g: Gate, ts: seq<nat>): Gate {
    if ts == [] then g else Allow(After(g, ts[..|ts| - 1]), ts[|ts| - 1]).0
  }

  function Grants(g: Gate, ts: seq<nat>): nat {
    if ts == [] then 0
    else
      var before := ts[..|ts| - 1];
      Grants(g, before) + if Allow(After(g, before), ts[|ts| - 1]).1 then 1 else 0
  }

  function Last(ts: seq<nat>, from: nat): nat {
    if ts == [] then from else ts[|ts| - 1]
  }

  function Fresh(fps: int): Gate {
    Gate(fps, Account(0, 0))
  }

  // A configured rate at which the gate does thin, and an account it can be left with.
  predicate Thinning(g: Gate) {
    0 < g.fps < 60
  }

  predicate Running(p: nat, a: Account) {
    0 < p <= SECOND && Clock(a.last) && a.credit <= 2 * p
  }

  // At most one period of credit: where the first call and every grant leave the account.
  predicate Settled(p: nat, a: Account) {
    0 < p <= SECOND && Clock(a.last) && a.credit <= p
  }

  /** Outside 0 < fps < 60 the gate does not count: it refuses or grants every call. */
  lemma {:induction false} Bypassed(g: Gate, ts: seq<nat>)
    requires !Thinning(g)
    ensures After(g, ts) == g
    ensures Grants(g, ts) == if g.fps <= 0 then 0 else |ts|
  {
    if ts != [] {
      Bypassed(g, ts[..|ts| - 1]);
    }
  }

  // ---------- The credit account of a thinning gate ----------

  function ArmAfter(p: nat, a: Account, ts: seq<nat>): Account {
    if ts == [] then a else Offer(p, ArmAfter(p, a, ts[..|ts| - 1]), ts[|ts| - 1]).0
  }

  // One period for every grant.
  function Spent(p: nat, a: Account, ts: seq<nat>): nat {
    if ts == [] then 0
    else
      var before := ts[..|ts| - 1];
      Spent(p, a, before) + if Offer(p, ArmAfter(p, a, before), ts[|ts| - 1]).1 then p else 0
  }

  // The runs of a thinning gate are those of its account.
  lemma {:induction false} RunsTheArm(g: Gate, ts: seq<nat>)
    requires Thinning(g)
    ensures After(g, ts) == Gate(g.fps, ArmAfter(Period(g.fps), g.account, ts))
    ensures Spent(Period(g.fps), g.account, ts) == Grants(g, ts) * Period(g.fps)
  {
    if ts != [] {
      RunsTheArm(g, ts[..|ts| - 1]);
      OneMore(Grants(g, ts[..|ts| - 1]), Period(g.fps));
    }
  }

  // The credit the gate has to offer at a time not before its last call.
  function Bank(p: nat, a: Account, now: nat): nat
    requires a.last <= now
  {
    var sum := a.credit + (now - a.last);
    if sum > 2 * p then 2 * p else sum
  }

  // A call spends one period of what is banked, or leaves it.
  lemma OfferSpends(p: nat, a: Account, now: nat)
    requires Running(p, a) && a.last <= now && Clock(now)
    ensures var (a', granted) := Offer(p, a, now);
      && Running(p, a') && a'.last == now
      && granted == (p <= Bank(p, a, now))
      && a'.credit == Bank(p, a, now) - (if granted then p else 0)
  {
    assert (a.credit + (now - a.last)) % U64 == a.credit + (now - a.last);
  }

  lemma {:induction false} SpentBound(p: nat, a: Account, ts: seq<nat>)
    requires Running(p, a) && Times(ts, a.last)
    ensures Running(p, ArmAfter(p, a, ts)) && ArmAfter(p, a, ts).last == Last(ts, a.last)
    ensures Spent(p, a, ts) + ArmAfter(p, a, ts).credit <= a.credit + (Last(ts, a.last) - a.last)
  {
    if ts != [] {
      SpentBound(p, a, ts[..|ts| - 1]);
      OfferSpends(p, ArmAfter(p, a, ts[..|ts| - 1]), ts[|ts| - 1]);
    }
  }

  lemma {:induction false} SpentExact(p: nat, a: Account, ts: seq<nat>)
    requires Settled(p, a) && Times(ts, a.last) && GapsWithin(ts, a.last, p)
    ensures Settled(p, ArmAfter(p, a, ts)) && ArmAfter(p, a, ts).last == Last(ts, a.last)
    ensures Spent(p, a, ts) + ArmAfter(p, a, ts).credit == a.credit + (Last(ts, a.last) - a.last)
  {
    if ts != [] {
      var before := ts[..|ts| - 1];
      forall i | 0 <= i < |before| ensures before[i] - Last(before[..i], a.last) <= p {
        assert before[..i] == ts[..i];
      }
      SpentExact(p, a, before);
      OfferSpends(p, ArmAfter(p, a, before), ts[|ts| - 1]);
    }
  }

  // Consecutive calls are at most `gap` apart, the first measured from `from`.
  ghost predicate GapsWithin(ts: seq<nat>, from: nat, gap: nat) {
    forall i :: 0 <= i < |ts| ==> ts[i] - Last(ts[..i], from) <= gap
  }

  // ---------- Rates ----------

  /** The credit in hand plus what has been spent never exceeds the credit at the start plus
      the time since. */
  lemma CreditBound(g: Gate, ts: seq<nat>)
    requires Thinning(g) && Running(Period(g.fps), g.account) && Times(ts, g.account.last)
    ensures Grants(g, ts) * Period(g.fps) + After(g, ts).account.credit
         <= g.account.credit + (Last(ts, g.account.last) - g.account.last)
  {
    SpentBound(Period(g.fps), g.account, ts);
    RunsTheArm(g, ts);
  }

  /** When calls are never more than one period apart no credit is lost to the cap, so the
      account is exact. */
  lemma CreditExact(g: Gate, ts: seq<nat>)
    requires Thinning(g) && Settled(Period(g.fps), g.account)
    requires Times(ts, g.account.last) && GapsWithin(ts, g.account.last, Period(g.fps))
    ensures Grants(g, ts) * Period(g.fps) + After(g, ts).account.credit
         == g.account.credit + (Last(ts, g.account.last) - g.account.last)
  {
    SpentExact(Period(g.fps), g.account, ts);
    RunsTheArm(g, ts);
  }

  lemma {:induction false} FirstCall(p: nat, a: Account, first: nat, ts: seq<nat>)
    ensures ArmAfter(p, a, [first] + ts) == ArmAfter(p, Offer(p, a, first).0, ts)
    ensures Spent(p, a, [first] + ts)
         == (if Offer(p, a, first).1 then p else 0) + Spent(p, Offer(p, a, first).0, ts)
  {
    var all := [first] + ts;
    if ts == [] {
      assert all == [first] && all[..0] == [];
      assert ArmAfter(p, a, all) == Offer(p, ArmAfter(p, a, []), first).0;
    } else {
      assert all[..|all| - 1] == [first] + ts[..|ts| - 1];
      FirstCall(p, a, first, ts[..|ts| - 1]);
    }
  }

  // The grants above the first two take a period each.
  ghost predicate TwoPlusRate(fps: int, t0: nat, ts: seq<nat>)
    requires 0 < fps
  {
    (Grants(Fresh(fps), [t0] + ts) - 2) * (SECOND / fps) <= Last(ts, t0) - t0
  }

  /** Two-sided rate of a fresh gate configured below 60. With n grants counting the first call
      at t0, up to the last call: (n - 2) periods fit in the time elapsed, and when calls are
      never more than one period apart the time elapsed fits in (n - 1) periods. */
  lemma RateBounds(fps: int, t0: nat, ts: seq<nat>)
    requires 0 < fps < 60 && Clock(t0) && Times(ts, t0)
    ensures TwoPlusRate(fps, t0, ts)
    ensures GapsWithin(ts, t0, Period(fps)) ==>
              Last(ts, t0) - t0 <= (Grants(Fresh(fps), [t0] + ts) - 1) * Period(fps)
  {
    SpentFromFresh(Period(fps), t0, ts);
    RunsTheArm(Fresh(fps), [t0] + ts);
    Distribute(Grants(Fresh(fps), [t0] + ts), -2, Period(fps));
    Distribute(Grants(Fresh(fps), [t0] + ts), -1, Period(fps));
  }

  lemma SpentFromFresh(p: nat, t0: nat, ts: seq<nat>)
    requires 0 < p <= SECOND && Clock(t0) && Times(ts, t0)
    ensures var spent := Spent(p, Account(0, 0), [t0] + ts);
            && spent - 2 * p <= Last(ts, t0) - t0
            && (GapsWithin(ts, t0, p) ==> Last(ts, t0) - t0 <= spent - p)
  {
    var a := Account(t0, p);
    FirstCall(p, Account(0, 0), t0, ts);
    SpentBound(p, a, ts);
    if GapsWithin(ts, t0, p) {
      SpentExact(p, a, ts);
    }
  }

  // A period is the frame time rounded down to whole nanoseconds.
  lemma PeriodOfRate(fps: int)
    requires 0 < fps < 60
    ensures 1_000_000_001 - fps <= Period(fps) * fps <= 1_000_000_000
  {
    QuotientBounds(1_000_000_000, fps);
  }

  // All but two of n frames fit in the time at this many frames a second, up to the rounding of
  // the frame time to nanoseconds.
  predicate AtMostRate(n: int, elapsed: int, fps: int) {
    (n - 2) * (1_000_000_001 - fps) <= elapsed * fps
  }

  // There is no room for n frames in the time at this many frames a second.
  predicate AtLeastRate(n: int, elapsed: int, fps: int) {
    elapsed * fps <= (n - 1) * 1_000_000_000
  }

  /** The rate of a fresh gate in frames per second: with n grants up to the last call, n - 2 of
      them fit at the configured rate in the time elapsed, and when calls are at most a frame
      time apart the time elapsed has no room for n frames. */
  lemma FramesPerSecond(fps: int, t0: nat, ts: seq<nat>, gap: nat)
    requires 0 < fps < 60 && Clock(t0) && Times(ts, t0)
    ensures AtMostRate(Grants(Fresh(fps), [t0] + ts), Last(ts, t0) - t0, fps)
    ensures GapsWithin(ts, t0, gap) && gap * fps <= 1_000_000_000 ==>
              AtLeastRate(Grants(Fresh(fps), [t0] + ts), Last(ts, t0) - t0, fps)
  {
    var n, elapsed, p := RateFacts(fps, t0, ts, gap);
    LowerRate(n, p, fps, elapsed);
    if GapsWithin(ts, t0, gap) && gap * fps <= 1_000_000_000 {
      UpperRate(n, p, fps, elapsed);
    }
  }

  lemma RateFacts(fps: int, t0: nat, ts: seq<nat>, gap: nat) returns (n: nat, elapsed: nat, p: nat)
    requires 0 < fps < 60 && Clock(t0) && Times(ts, t0)
    ensures 1 <= n == Grants(Fresh(fps), [t0] + ts) && elapsed == Last(ts, t0) - t0
    ensures 1_000_000_001 - fps <= p * fps <= 1_000_000_000 && (n - 2) * p <= elapsed
    ensures GapsWithin(ts, t0, gap) && gap * fps <= 1_000_000_000 ==> elapsed <= (n - 1) * p
  {
    n, elapsed, p := Grants(Fresh(fps), [t0] + ts), Last(ts, t0) - t0, Period(fps);
    FirstIsGranted(fps, t0, ts);
    PeriodOfRate(fps);
    RateBounds(fps, t0, ts);
    if GapsWithin(ts, t0, gap) && gap * fps <= 1_000_000_000 {
      WithinPeriod(fps, gap);
      WiderGaps(ts, t0, gap, p);
    }
  }

  lemma WithinPeriod(fps: int, gap: nat)
    requires 0 < fps < 60 && gap * fps <= 1_000_000_000
    ensures gap <= Period(fps)
  {
    QuotientNotBelow(1_000_000_000, fps, gap);
  }

  lemma WiderGaps(ts: seq<nat>, from: nat, gap: nat, wider: nat)
    requires GapsWithin(ts, from, gap) && gap <= wider
    ensures GapsWithin(ts, from, wider)
  {
  }

  lemma LowerRate(n: nat, p: nat, fps: nat, elapsed: nat)
    requires 1 <= n && (n - 2) * p <= elapsed && 0 < fps < 60 && 1_000_000_001 - fps <= p * fps
    ensures AtMostRate(n, elapsed, fps)
  {
    NonNegative(elapsed, fps);
    if 2 <= n {
      var m: nat := n - 2;
      Raises(m, 1_000_000_001 - fps, p * fps);
      Associates(m, p, fps);
      Grows(m * p, elapsed, fps);
    }
  }

  lemma UpperRate(n: nat, p: nat, fps: nat, elapsed: nat)
    requires 1 <= n && elapsed <= (n - 1) * p && p * fps <= 1_000_000_000
    ensures AtLeastRate(n, elapsed, fps)
  {
    var m: nat := n - 1;
    Grows(elapsed, m * p, fps);
    Associates(m, p, fps);
    Raises(m, p * fps, 1_000_000_000);
  }

  lemma Raises(m: nat, a: int, b: int)
    requires a <= b
    ensures m * a <= m * b
  {
    Grows(a, b, m);
  }

  lemma FirstIsGranted(fps: int, t0: nat, ts: seq<nat>)
    requires 0 < fps < 60 && Clock(t0) && Times(ts, t0)
    ensures 1 <= Grants(Fresh(fps), [t0] + ts)
  {
    SpentFromFresh(Period(fps), t0, ts);
    RunsTheArm(Fresh(fps), [t0] + ts);
    FirstCall(Period(fps), Account(0, 0), t0, ts);
    Smaller(0, Grants(Fresh(fps), [t0] + ts), Period(fps));
  }

  ghost predicate KeepsRate(fps: int)
    requires 0 < fps
  {
    forall t0: nat, ts: seq<nat> :: Clock(t0) && Times(ts, t0) ==> TwoPlusRate(fps, t0, ts)
  }

  /** Two frames plus the rate bound every run of a fresh gate exactly when it is configured
      below 60: from 60 on the gate lets any burst through. */
  lemma RateKeptIff(fps: int)
    requires 0 < fps <= SECOND
    ensures KeepsRate(fps) <==> fps < 60
  {
    if fps < 60 {
      forall t0: nat, ts: seq<nat> | Clock(t0) && Times(ts, t0) ensures TwoPlusRate(fps, t0, ts) {
        RateBounds(fps, t0, ts);
      }
    } else {
      Bypassed(Fresh(fps), [1] + [1, 1]);
      QuotientNotBelow(SECOND, fps, 1);
      assert !TwoPlusRate(fps, 1, [1, 1]);
      assert Times([1, 1], 1);
    }
  }

  // ---------- Later windows ----------

  // Calls in the window (from, to].
  ghost predicate InWindow(ts: seq<nat>, from: nat, to: nat) {
    from <= to && Times(ts, from + 1) && Last(ts, from) <= to
  }

  /** A window grants at most what is banked at its start plus its length allow. */
  lemma WindowBound(g: Gate, from: nat, ts: seq<nat>, to: nat)
    requires Thinning(g) && Running(Period(g.fps), g.account) && g.account.last <= from && InWindow(ts, from, to)
    ensures Grants(g, ts) * Period(g.fps) <= Bank(Period(g.fps), g.account, from) + (to - from)
  {
    SpentInWindow(Period(g.fps), g.account, from, ts, to);
    RunsTheArm(g, ts);
  }

  lemma SpentInWindow(p: nat, a: Account, from: nat, ts: seq<nat>, to: nat)
    requires Running(p, a) && a.last <= from && InWindow(ts, from, to)
    ensures Spent(p, a, ts) <= Bank(p, a, from) + (to - from)
  {
    if ts != [] {
      var first, rest := ts[0], ts[1..];
      assert ts == [first] + rest;
      FirstCall(p, a, first, rest);
      OfferSpends(p, a, first);
      SpentBound(p, Offer(p, a, first).0, rest);
      assert Last(rest, first) == Last(ts, from);
    }
  }

  // At most one grant plus one a period, for every call pattern in every window from `from`.
  ghost predicate OnePlusRate(g: Gate, from: nat) {
    Thinning(g) && forall ts: seq<nat>, to: nat :: InWindow(ts, from, to) ==> GrantsOnePlus(g, ts, to - from)
  }

  predicate GrantsOnePlus(g: Gate, ts: seq<nat>, length: int)
    requires Thinning(g)
  {
    (Grants(g, ts) - 1) * Period(g.fps) <= length
  }

  // In terms of what was spent.
  lemma OnePlusSpent(g: Gate, ts: seq<nat>, length: int)
    requires Thinning(g)
    ensures GrantsOnePlus(g, ts, length) <==> Spent(Period(g.fps), g.account, ts) - Period(g.fps) <= length
  {
    RunsTheArm(g, ts);
    Distribute(Grants(g, ts), -1, Period(g.fps));
  }

  /** A later window grants at most 1 + length/period whatever the calls, exactly when at most
      one period of credit is banked at its start. After a longer idle gap two frames can
      pass back to back, so the bound of one plus the rate fails there. */
  lemma WindowRateExactly(g: Gate, from: nat)
    requires Thinning(g) && Running(Period(g.fps), g.account)
    requires g.account.last <= from && Clock(from + 2 * Period(g.fps) + 1)
    ensures OnePlusRate(g, from) <==> Bank(Period(g.fps), g.account, from) <= Period(g.fps)
  {
    var p := Period(g.fps);
    if Bank(p, g.account, from) <= p {
      forall ts: seq<nat>, to: nat | InWindow(ts, from, to) ensures GrantsOnePlus(g, ts, to - from) {
        SpentInWindow(p, g.account, from, ts, to);
        OnePlusSpent(g, ts, to - from);
      }
    } else {
      var bank := Bank(p, g.account, from);
      var s := if bank == 2 * p then from + 1 else from + (2 * p - bank);
      BurstOfTwo(p, g.account, s);
      OnePlusSpent(g, [s, s], s - from);
      assert InWindow([s, s], from, s);
    }
  }

  lemma BurstOfTwo(p: nat, a: Account, s: nat)
    requires Running(p, a) && a.last < s && Clock(s) && Bank(p, a, s) == 2 * p
    ensures Spent(p, a, [s, s]) == 2 * p
  {
    assert [s, s] == [s] + [s];
    FirstCall(p, a, s, [s]);
    OfferSpends(p, a, s);
    var a1 := Offer(p, a, s).0;
    assert [s] == [s] + [];
    FirstCall(p, a1, s, []);
    OfferSpends(p, a1, s);
  }

  /** The failing side is reached by every fresh gate: its first call banks a period, so one
      plus the rate holds in the window that starts with that call and fails in every window
      that starts later without a call in between. */
  lemma FreshGateBursts(fps: int, t0: nat, from: nat)
    requires 0 < fps < 60 && Clock(t0) && t0 <= from && Clock(from + 2 * Period(fps) + 1)
    ensures OnePlusRate(After(Fresh(fps), [t0]), from) <==> from == t0
  {
    assert [t0] == [t0] + [];
    FirstCall(Period(fps), Account(0, 0), t0, []);
    RunsTheArm(Fresh(fps), [t0]);
    WindowRateExactly(After(Fresh(fps), [t0]), from);
  }

  lemma {:induction false} SpentInBurst(p: nat, a: Account, now: nat, n: nat)
    requires Running(p, a) && a.last <= now && Clock(now) && 2 * p <= now - a.last
    ensures Spent(p, a, seq(n, _ => now)) == if n == 0 then 0 else if n == 1 then p else p + p
    ensures ArmAfter(p, a, seq(n, _ => now)) == if n == 0 then a else Account(now, if n == 1 then p else 0)
  {
    if n > 0 {
      assert seq(n, _ => now)[..n - 1] == seq(n - 1, _ => now);
      SpentInBurst(p, a, now, n - 1);
      OfferSpends(p, ArmAfter(p, a, seq(n - 1, _ => now)), now);
    }
  }

  /** However long the gate was idle, of n calls at one instant it grants the first two: exactly
      two when the idle time was two frame times or more. */
  lemma BurstAfterIdle(g: Gate, now: nat, n: nat)
    requires Thinning(g) && Running(Period(g.fps), g.account) && g.account.last <= now && Clock(now)
    requires 2_000_000_000 <= (now - g.account.last) * g.fps
    ensures Grants(g, seq(n, _ => now)) == if n < 2 then n else 2
  {
    var p := Period(g.fps);
    var idle: nat := now - g.account.last;
    TwoPeriods(g.fps, idle);
    SpentInBurst(p, g.account, now, n);
    RunsTheArm(g, seq(n, _ => now));
    SameFactor(Grants(g, seq(n, _ => now)), if n < 2 then n else 2, p);
  }

  lemma TwoPeriods(fps: int, idle: nat)
    requires 0 < fps < 60 && 2_000_000_000 <= idle * fps
    ensures 2 * Period(fps) <= idle
  {
    var p := Period(fps);
    PeriodOfRate(fps);
    if idle < 2 * p {
      Grows(idle + 1, 2 * p, fps);
      OneMore(idle, fps);
      Associates(2, p, fps);
    }
  }

  lemma SameFactor(a: int, b: int, c: nat)
    requires 0 < c && a * c == b * c
    ensures a == b
  {
    if a < b {
      Grows(a + 1, b, c);
      OneMore(a, c);
    } else if b < a {
      Grows(b + 1, a, c);
      OneMore(b, c);
    }
  }

  /** When the clock went back the gate starts afresh: from that call on it does what a gate just
      configured would do. */
  lemma ClockBackStartsAfresh(g: Gate, now: nat, ts: seq<nat>)
    requires Thinning(g) && now < g.account.last
    ensures After(g, [now] + ts) == After(Fresh(g.fps), [now] + ts)
    ensures Grants(g, [now] + ts) == Grants(Fresh(g.fps), [now] + ts)
  {
    var p := Period(g.fps);
    FirstCall(p, g.account, now, ts);
    FirstCall(p, Account(0, 0), now, ts);
    RunsTheArm(g, [now] + ts);
    RunsTheArm(Fresh(g.fps), [now] + ts);
    SameFactor(Grants(g, [now] + ts), Grants(Fresh(g.fps), [now] + ts), p);
  }

  // ---------- Presentation timestamps ----------

  datatype Clockwork = Clockwork(t0: nat, lastPts: nat)

  /** Elapsed time rounded down to a frame boundary. */
  function Quantised(dur: nat, elapsed: nat): (q: nat)
    requires 0 < dur
    ensures q <= elapsed < q + dur
  {
    elapsed - elapsed % dur
  }

  /** The code's quotient times the frame time is that boundary. */
  lemma QuantisedIsWhole(dur: nat, elapsed: nat)
    requires 0 < dur
    ensures Quantised(dur, elapsed) == (elapsed / dur) * dur
  {
    QuotientBounds(elapsed, dur);
  }

  function NextPts(dur: nat, q: nat, prev: nat): nat {
    if q <= prev then (prev + dur) % U64 else q
  }

  /** One push: the first one starts the clock; the new timestamp is the last one of the result. */
  function Stamp(dur: nat, c: Clockwork, now: nat): Clockwork
    requires 0 < dur
  {
    var t0 := if c.t0 == 0 then now else c.t0;
    var prev := if c.t0 == 0 then 0 else c.lastPts;
    Clockwork(t0, NextPts(dur, Quantised(dur, (now - t0) % U64), prev))
  }

  class H265Hub {
    var started: bool
    var wired: bool  // pipeline and appsrc exist
    var inW: int
    var inH: int
    var fps: int
    var t0Ns: nat
    var lastPts: nat

    ghost function View(): Clockwork
      reads this
    {
      Clockwork(t0Ns, lastPts)
    }

    constructor (w: int, h: int, f: int)
      ensures inW == w && inH == h && fps == f && !started && !wired && View() == Clockwork(0, 0)
    {
      started, wired, inW, inH, fps, t0Ns, lastPts := false, false, w, h, f, 0, 0;
    }

    // Whether the pipeline can be made is given. One that is there already is stopped first.
    method Create(w: int, h: int, f: int, made: bool) returns (ok: bool)
      modifies this
      ensures ok == wired == made && inW == w && inH == h && fps == f
      ensures started == (old(started) && !old(wired))
      ensures View() == if made then Clockwork(0, 0) else old(View())
    {
      if wired {
        Stop();
      }
      inW, inH, fps, wired := w, h, f, made;
      if made {
        t0Ns, lastPts := 0, 0;
      }
      ok := made;
    }

    method Start(playing: bool) returns (ok: bool)
      modifies `started
      ensures ok == (wired && playing) && started == (ok || old(started))
    {
      ok := wired && playing;
      if ok {
        started := true;
      }
    }

    method Stop()
      modifies `started, `wired
      ensures !started && !wired
    {
      started, wired := false, false;
    }

    // A buffer is stamped when the hub runs, all sizes and the rate are usable and one frame
    // lasts at least a nanosecond.
    predicate Ready(buffer: bool, paused: bool)
      reads this
    {
      buffer && started && wired && 0 < inW && 0 < inH && 0 < fps <= SECOND && paused
    }

    // push_nvmm_rgba_buffer. Whether there is a buffer, whether the pipeline is paused or
    // playing and whether appsrc takes the buffer are given. A buffer that appsrc refuses has
    // used up its timestamp.
    method StampPts(buffer: bool, paused: bool, taken: bool, now: nat) returns (pushed: bool, pts: nat)
      modifies `t0Ns, `lastPts
      ensures pushed == (Ready(buffer, paused) && taken)
      ensures Ready(buffer, paused) ==> View() == Stamp(SECOND / fps, old(View()), now) && pts == lastPts
      ensures !Ready(buffer, paused) ==> View() == old(View())
    {
      pushed, pts := false, 0;
      if !buffer {
        return;
      }
      if !started || !wired || inW <= 0 || inH <= 0 || fps <= 0 {
        return;
      }
      var dur := SECOND / fps;
      QuotientNotBelow(SECOND, fps, 1);
      if dur == 0 {
        return;
      }
      if !paused {
        return;
      }
      pts := NextStamp(dur, now);
      pushed := taken;
    }

    // The clock starts with the first buffer; the timestamp is the frame boundary reached, or
    // one frame after the last one.
    method NextStamp(dur: nat, now: nat) returns (pts: nat)
      requires 0 < dur
      modifies `t0Ns, `lastPts
      ensures View() == Stamp(dur, old(View()), now) && pts == lastPts
    {
      if t0Ns == 0 {
        t0Ns, lastPts := now, 0;
      }
      var raw := (now - t0Ns) % U64;
      var q := (raw / dur) * dur;
      QuantisedIsWhole(dur, raw);
      pts := if q <= lastPts then (lastPts + dur) % U64 else q;
      lastPts := pts;
    }
  }
}
