/** Whole runs of the timestamp generator, alone and behind the credit gate. */
module PtsTimeline {
  import opened FpsGate
  import opened Products

  // Pushes at the given clock readings, oldest first.
  function Pushed(dur: nat, ts: seq<nat>): Clockwork
    requires 0 < dur
  {
    if ts == [] then Clockwork(0, 0) else Stamp(dur, Pushed(dur, ts[..|ts| - 1]), ts[|ts| - 1])
  }

  // Whole frames elapsed at push i since the first push.
  function Frames(dur: nat, ts: seq<nat>, i: nat): nat
    requires 0 < dur && i < |ts| && ts[0] <= ts[i]
  {
    (ts[i] - ts[0]) / dur
  }

  // Times never go back and no timestamp of the run reaches 2^64.
  ghost predicate Schedule(dur: nat, ts: seq<nat>) {
    && 0 < dur
    && (forall i :: 0 <= i < |ts| ==> 0 < ts[i] && ts[i] + |ts| * dur < U64)
    && (forall i, j :: 0 <= i <= j < |ts| ==> ts[i] <= ts[j])
  }

  // m is the largest of n and, over all pushes i so far, frames(i) + (pushes after i).
  ghost predicate IsPeak(dur: nat, ts: seq<nat>, m: nat)
    requires 0 < dur && forall i :: 0 <= i < |ts| ==> ts[0] <= ts[i]
  {
    && |ts| <= m
    && (forall i :: 0 <= i < |ts| ==> Frames(dur, ts, i) + (|ts| - 1 - i) <= m)
    && (m == |ts| || exists i :: 0 <= i < |ts| && m == Frames(dur, ts, i) + (|ts| - 1 - i))
  }

  lemma MultiplesCompare(a: nat, b: nat, dur: nat)
    requires 0 < dur
    ensures a * dur <= b * dur <==> a <= b
    ensures (a + 1) * dur == a * dur + dur
  {
    OneMore(a, dur);
    if a <= b {
      Grows(a, b, dur);
    } else {
      OneMore(b, dur);
      Grows(b + 1, a, dur);
    }
  }

  // In whole frames, a push moves to the next frame or jumps to the current one.
  lemma StampFrames(dur: nat, t0: nat, k: nat, now: nat)
    requires 0 < dur && 0 < t0 <= now < U64 && (k + 1) * dur < U64
    ensures var q := (now - t0) / dur;
            Stamp(dur, Clockwork(t0, k * dur), now) == Clockwork(t0, (if q <= k then k + 1 else q) * dur)
  {
    QuantisedIsWhole(dur, now - t0);
    assert (now - t0) % U64 == now - t0;
    NextPtsFrames(dur, (now - t0) / dur, k);
  }

  lemma NextPtsFrames(dur: nat, q: nat, k: nat)
    requires 0 < dur && (k + 1) * dur < U64
    ensures 0 <= q * dur && 0 <= k * dur
    ensures NextPts(dur, q * dur, k * dur) == (if q <= k then k + 1 else q) * dur
  {
    MultiplesCompare(q, k, dur);
    OneMore(k, dur);
    NonNegative(q, dur);
    NonNegative(k, dur);
  }

  /** The n-th timestamp is a whole number of frames, and that number is the closed-form peak
      over the whole history: the run's own count or the furthest any past push was ahead,
      one frame later for each push since. */
  lemma {:induction false} PtsIsPeak(dur: nat, ts: seq<nat>) returns (m: nat)
    requires Schedule(dur, ts) && ts != []
    ensures Pushed(dur, ts) == Clockwork(ts[0], m * dur)
    ensures IsPeak(dur, ts, m)
  {
    var n := |ts| - 1;
    if n == 0 {
      m := 1;
      FirstPush(dur, ts);
    } else {
      ShorterSchedule(dur, ts);
      var k := PtsIsPeak(dur, ts[..n]);
      var q := Frames(dur, ts, n);
      m := if q <= k then k + 1 else q;
      PeakFits(dur, ts, k, n);
      BelowU64(dur, ts, n);
      NextPush(dur, ts, k);
      PeakGrows(dur, ts, k, m);
    }
  }

  lemma NextPush(dur: nat, ts: seq<nat>, k: nat)
    requires 0 < dur && 1 < |ts| && 0 < ts[0] <= ts[|ts| - 1] < U64 && (k + 1) * dur < U64
    requires Pushed(dur, ts[..|ts| - 1]) == Clockwork(ts[0], k * dur)
    ensures var q := Frames(dur, ts, |ts| - 1);
            Pushed(dur, ts) == Clockwork(ts[0], (if q <= k then k + 1 else q) * dur)
  {
    StampFrames(dur, ts[0], k, ts[|ts| - 1]);
  }

  lemma BelowU64(dur: nat, ts: seq<nat>, i: nat)
    requires Schedule(dur, ts) && i < |ts|
    ensures ts[i] < U64
  {
    MultiplesCompare(|ts|, 0, dur);
  }

  lemma FirstPush(dur: nat, ts: seq<nat>)
    requires Schedule(dur, ts) && |ts| == 1
    ensures Pushed(dur, ts) == Clockwork(ts[0], 1 * dur) && IsPeak(dur, ts, 1)
  {
    assert Pushed(dur, ts[..0]) == Clockwork(0, 0);
    assert Quantised(dur, 0) == 0;
    assert ts[0] + |ts| * dur < U64;
  }

  lemma PeakGrows(dur: nat, ts: seq<nat>, k: nat, m: nat)
    requires Schedule(dur, ts) && 1 < |ts| && IsPeak(dur, ts[..|ts| - 1], k)
    requires m == if Frames(dur, ts, |ts| - 1) <= k then k + 1 else Frames(dur, ts, |ts| - 1)
    ensures IsPeak(dur, ts, m)
  {
    var n := |ts| - 1;
    forall i | 0 <= i < n ensures Frames(dur, ts[..n], i) == Frames(dur, ts, i) {
    }
    if m == k + 1 && k != n {
      var i :| 0 <= i < n && k == Frames(dur, ts[..n], i) + (n - 1 - i);
      assert m == Frames(dur, ts, i) + (n - i);
    }
  }

  lemma ShorterSchedule(dur: nat, ts: seq<nat>)
    requires Schedule(dur, ts) && ts != []
    ensures Schedule(dur, ts[..|ts| - 1])
  {
    MultiplesCompare(|ts| - 1, |ts|, dur);
  }

  // The next timestamp stays below 2^64.
  lemma PeakFits(dur: nat, ts: seq<nat>, k: nat, n: nat)
    requires Schedule(dur, ts) && n < |ts| && 0 < n
    requires IsPeak(dur, ts[..n], k)
    ensures (k + 1) * dur == k * dur + dur < U64
  {
    MultiplesCompare(k, 0, dur);
    if k == n {
      MultiplesCompare(n + 1, |ts|, dur);
      assert ts[0] + |ts| * dur < U64;
    } else {
      var i :| 0 <= i < n && k == Frames(dur, ts[..n], i) + (n - 1 - i);
      var f := Frames(dur, ts[..n], i);
      Distribute(f, n - i, dur);
      assert k + 1 == f + (n - i);
      MultiplesCompare(n - i, |ts|, dur);
      assert f * dur <= ts[i] by {
        QuantisedIsWhole(dur, ts[i] - ts[0]);
      }
    }
  }

  /** Timestamps are strictly increasing, by at least one frame a push. */
  lemma PtsStrictlyIncrease(dur: nat, ts: seq<nat>)
    requires Schedule(dur, ts) && 1 < |ts|
    ensures Pushed(dur, ts).lastPts >= Pushed(dur, ts[..|ts| - 1]).lastPts + dur
  {
    ShorterSchedule(dur, ts);
    var n := |ts| - 1;
    var k := PtsIsPeak(dur, ts[..n]);
    PeakFits(dur, ts, k, n);
    BelowU64(dur, ts, n);
    NextPush(dur, ts, k);
    if Frames(dur, ts, n) > k {
      Grows(k + 1, Frames(dur, ts, n), dur);
    }
  }

  // ---------- Behind the gate ----------

  datatype Pipe = Pipe(gate: Gate, clock: Clockwork)

  // A frame offered to the gate at `now`; `lost` says that it was dropped between a grant and
  // the stamp. A new viewer resets the gate.
  datatype Event = Offered(now: nat, lost: bool) | Reset

  /** One event of a stream whose gate and timestamp generator share a rate and a clock. */
  function Feed(fps: int, s: Pipe, e: Event): Pipe
    requires 0 < fps <= SECOND
  {
    match e
    case Offered(now, lost) =>
      var (gate, granted) := Allow(s.gate, now);
      Pipe(gate, if granted && !lost then Stamp(Frame(fps), s.clock, now) else s.clock)
    case Reset => Pipe(Fresh(s.gate.fps), s.clock)
  }

  // The duration of one frame, at least a nanosecond.
  function Frame(fps: int): (dur: nat)
    requires 0 < fps <= SECOND
    ensures 0 < dur <= SECOND
  {
    QuotientNotBelow(SECOND, fps, 1);
    SECOND / fps
  }

  function Fed(fps: int, es: seq<Event>): Pipe
    requires 0 < fps <= SECOND
  {
    if es == [] then Pipe(Fresh(fps), Clockwork(0, 0)) else Feed(fps, Fed(fps, es[..|es| - 1]), es[|es| - 1])
  }

  // The clock at the last frame offered.
  function LastOffer(es: seq<Event>): nat {
    if es == [] then 0 else if es[|es| - 1].Offered? then es[|es| - 1].now else LastOffer(es[..|es| - 1])
  }

  // The clock of the offers never goes back.
  predicate Ordered(es: seq<Event>) {
    es == [] || (Ordered(es[..|es| - 1]) && InOrder(LastOffer(es[..|es| - 1]), es[|es| - 1]))
  }

  predicate InOrder(last: nat, e: Event) {
    e.Offered? ==> last <= e.now && Clock(e.now)
  }

  function Resets(es: seq<Event>): nat {
    if es == [] then 0 else Resets(es[..|es| - 1]) + if es[|es| - 1].Reset? then 1 else 0
  }

  // Two frames, and two more for each reset.
  function Slack(dur: nat, es: seq<Event>): nat {
    if es == [] then 2 * dur else Slack(dur, es[..|es| - 1]) + if es[|es| - 1].Reset? then 2 * dur else 0
  }

  lemma {:induction false} SlackCounts(dur: nat, es: seq<Event>)
    ensures Slack(dur, es) == 2 * (1 + Resets(es)) * dur
  {
    if es != [] {
      SlackCounts(dur, es[..|es| - 1]);
      Distribute(2 * (1 + Resets(es[..|es| - 1])), 2, dur);
    }
  }

  // The timestamps have used up at most the time elapsed, the slack and no credit still in
  // hand; a gate that was just reset stands for two more frames.
  ghost predicate LeadOk(dur: nat, a: Account, c: Clockwork, last: nat, slack: nat) {
    && 0 < dur <= SECOND && 2 * dur <= slack
    && AccountOk(dur, a, last)
    && (c.t0 != 0 ==> 0 < c.t0 <= last && c.lastPts + InHand(dur, a) <= (last - c.t0) + slack)
  }

  // Just reset, or left by the last call.
  predicate AccountOk(dur: nat, a: Account, last: nat) {
    a == Account(0, 0) || (Running(dur, a) && a.last == last)
  }

  function InHand(dur: nat, a: Account): nat {
    if a.last == 0 then 2 * dur else a.credit
  }

  // A push moves to a frame boundary not after now, or one frame on.
  lemma StampBound(dur: nat, c: Clockwork, now: nat)
    requires 0 < dur <= SECOND && c.t0 <= now < U64
    ensures var c' := Stamp(dur, c, now);
            if c.t0 == 0 then c' == Clockwork(now, dur)
            else c'.t0 == c.t0 && (c'.lastPts <= now - c.t0 || c'.lastPts <= c.lastPts + dur)
  {
    var t0 := if c.t0 == 0 then now else c.t0;
    assert (now - t0) % U64 == now - t0;
    assert Quantised(dur, now - t0) <= now - t0;
    assert Quantised(dur, 0) == 0;
  }

  // What a call does to the account, in terms of what was in hand.
  lemma OfferInHand(dur: nat, a: Account, last: nat, now: nat)
    requires 0 < dur <= SECOND && AccountOk(dur, a, last) && last <= now && Clock(now)
    ensures var (a', granted) := Offer(dur, a, now);
      && AccountOk(dur, a', now) && 0 < a'.last
      && InHand(dur, a') + (if granted then dur else 0) <= InHand(dur, a) + (now - last)
      && (granted ==> a'.credit <= dur)
      && a'.credit <= 2 * dur
  {
    if a != Account(0, 0) {
      OfferSpends(dur, a, now);
    }
  }

  lemma OfferLead(dur: nat, a: Account, c: Clockwork, last: nat, slack: nat, now: nat, lost: bool)
    requires LeadOk(dur, a, c, last, slack) && last <= now && Clock(now)
    ensures var (a', granted) := Offer(dur, a, now);
            LeadOk(dur, a', if granted && !lost then Stamp(dur, c, now) else c, now, slack)
  {
    OfferInHand(dur, a, last, now);
    StampBound(dur, c, now);
    var (a', granted) := Offer(dur, a, now);
    LeadKept(dur, a, a', granted, c, if granted && !lost then Stamp(dur, c, now) else c, last, slack, now);
  }

  lemma LeadKept(dur: nat, a: Account, a': Account, granted: bool, c: Clockwork, c': Clockwork, last: nat, slack: nat, now: nat)
    requires LeadOk(dur, a, c, last, slack) && last <= now && Clock(now)
    requires AccountOk(dur, a', now) && 0 < a'.last
    requires InHand(dur, a') + (if granted then dur else 0) <= InHand(dur, a) + (now - last)
    requires granted ==> a'.credit <= dur
    requires c' == c || (granted && if c.t0 == 0 then c' == Clockwork(now, dur)
              else c'.t0 == c.t0 && (c'.lastPts <= now - c.t0 || c'.lastPts <= c.lastPts + dur))
    ensures LeadOk(dur, a', c', now, slack)
  {
  }

  lemma {:induction false} LeadInv(fps: int, es: seq<Event>)
    requires 0 < fps < 60 && Ordered(es)
    ensures Fed(fps, es).gate.fps == fps
    ensures LeadOk(Frame(fps), Fed(fps, es).gate.account, Fed(fps, es).clock, LastOffer(es), Slack(Frame(fps), es))
  {
    if es != [] {
      var before := es[..|es| - 1];
      LeadInv(fps, before);
      match es[|es| - 1]
      case Reset =>
      case Offered(now, lost) =>
        var s := Fed(fps, before);
        OfferLead(Frame(fps), s.gate.account, s.clock, LastOffer(before), Slack(Frame(fps), before), now, lost);
    }
  }

  /** Behind a gate of the same rate below 60 and the same clock, a timestamp leads the time
      elapsed since the first push by at most two frames, and by two more for every reset of
      the gate so far, whatever frames are lost between the gate and the stamp. */
  lemma LeadAfterResets(fps: int, es: seq<Event>)
    requires 0 < fps < 60 && Ordered(es)
    ensures LeadWithin(fps, es, 2 * (1 + Resets(es)) * Frame(fps))
  {
    LeadInv(fps, es);
    SlackCounts(Frame(fps), es);
  }

  // The timestamps are at most `slack` ahead of the time since the first push.
  predicate LeadWithin(fps: int, es: seq<Event>, slack: nat)
    requires 0 < fps <= SECOND
  {
    var c := Fed(fps, es).clock;
    c.t0 != 0 ==> c.lastPts <= (LastOffer(es) - c.t0) + slack
  }

  // Two frames at one instant, as a fresh gate grants them, then the same after each reset.
  function Bursts(now: nat, resets: nat): (es: seq<Event>) {
    var burst := [Offered(now, false), Offered(now, false)];
    if resets == 0 then burst else Bursts(now, resets - 1) + [Reset] + burst
  }

  lemma FedOneMore(fps: int, es: seq<Event>, e: Event)
    requires 0 < fps <= SECOND
    ensures Fed(fps, es + [e]) == Feed(fps, Fed(fps, es), e)
    ensures Resets(es + [e]) == Resets(es) + if e.Reset? then 1 else 0
    ensures LastOffer(es + [e]) == if e.Offered? then e.now else LastOffer(es)
    ensures Ordered(es + [e]) <==> Ordered(es) && InOrder(LastOffer(es), e)
  {
    assert (es + [e])[..|es|] == es;
  }

  // A reset gate grants two calls at one instant.
  lemma TwoGrants(fps: int, now: nat)
    requires 0 < fps < 60 && Clock(now)
    ensures Allow(Fresh(fps), now) == (Gate(fps, Account(now, Period(fps))), true)
    ensures Allow(Gate(fps, Account(now, Period(fps))), now) == (Gate(fps, Account(now, 0)), true)
  {
    OfferSpends(Period(fps), Account(now, Period(fps)), now);
  }

  // At the instant of the first push the timestamps advance one frame a push.
  lemma StampAgain(dur: nat, now: nat, pts: nat)
    requires 0 < dur && Clock(now) && pts + dur < U64
    ensures Stamp(dur, Clockwork(now, pts), now) == Clockwork(now, pts + dur)
    ensures pts == 0 ==> Stamp(dur, Clockwork(0, 0), now) == Clockwork(now, dur)
  {
    assert Quantised(dur, 0) == 0;
  }

  // What a burst does to a reset gate, and to timestamps that started at that instant.
  lemma BurstAdds(fps: int, es: seq<Event>, now: nat, pts: nat)
    requires 0 < fps < 60 && Clock(now) && pts + 2 * Frame(fps) < U64
    requires Fed(fps, es).gate == Fresh(fps) && Ordered(es) && LastOffer(es) <= now
    requires Fed(fps, es).clock == Clockwork(now, pts) || (pts == 0 && Fed(fps, es).clock == Clockwork(0, 0))
    ensures var es' := es + [Offered(now, false), Offered(now, false)];
            && Fed(fps, es') == Pipe(Gate(fps, Account(now, 0)), Clockwork(now, pts + 2 * Frame(fps)))
            && Ordered(es') && LastOffer(es') == now && Resets(es') == Resets(es)
  {
    var o := Offered(now, false);
    assert es + [o, o] == (es + [o]) + [o];
    FedOneMore(fps, es, o);
    FedOneMore(fps, es + [o], o);
    TwoGrants(fps, now);
    StampAgain(Frame(fps), now, pts);
    StampAgain(Frame(fps), now, pts + Frame(fps));
  }

  lemma {:induction false} BurstsLead(fps: int, now: nat, resets: nat)
    requires 0 < fps < 60 && Clock(now) && Slack(Frame(fps), Bursts(now, resets)) < U64
    ensures var es := Bursts(now, resets);
            && Ordered(es) && LastOffer(es) == now
            && Fed(fps, es) == Pipe(Gate(fps, Account(now, 0)), Clockwork(now, Slack(Frame(fps), es)))
  {
    var o := Offered(now, false);
    if resets == 0 {
      var none: seq<Event> := [];
      BurstAdds(fps, none, now, 0);
      assert none + [o, o] == [o, o] == Bursts(now, 0);
      SlackOfBurst(Frame(fps), none, o);
    } else {
      var es := Bursts(now, resets - 1);
      SlackOfBurst(Frame(fps), es + [Reset], o);
      FedOneMore(fps, es, Reset);
      BurstsLead(fps, now, resets - 1);
      BurstAdds(fps, es + [Reset], now, Slack(Frame(fps), es));
    }
  }

  lemma SlackOfBurst(dur: nat, es: seq<Event>, o: Event)
    requires o.Offered?
    ensures Slack(dur, es + [o, o]) == Slack(dur, es) && Resets(es + [o, o]) == Resets(es)
    ensures es != [] && es[|es| - 1].Reset? ==> Slack(dur, es) == Slack(dur, es[..|es| - 1]) + 2 * dur
  {
    assert (es + [o, o])[..|es| + 1] == es + [o];
    assert (es + [o])[..|es|] == es;
  }

  lemma {:induction false} BurstsReset(now: nat, resets: nat)
    ensures Resets(Bursts(now, resets)) == resets
  {
    var o := Offered(now, false);
    var es: seq<Event> := if resets == 0 then [] else Bursts(now, resets - 1) + [Reset];
    SlackOfBurst(1, es, o);
    if resets == 0 {
      assert es + [o, o] == Bursts(now, 0);
    } else {
      BurstsReset(now, resets - 1);
      assert es[..|es| - 1] == Bursts(now, resets - 1);
    }
  }

  /** The bound is reached: after any number of resets there is a run whose timestamps lead by
      the full two frames and two more for every reset. */
  lemma ResetsAddTwoFramesEach(fps: int, now: nat, resets: nat)
    requires 0 < fps < 60 && Clock(now) && 2 * (1 + resets) * Frame(fps) < U64
    ensures var es := Bursts(now, resets);
            && Ordered(es) && Resets(es) == resets && LastOffer(es) == now
            && Fed(fps, es).clock == Clockwork(now, 2 * (1 + resets) * Frame(fps))
  {
    BurstsReset(now, resets);
    SlackCounts(Frame(fps), Bursts(now, resets));
    BurstsLead(fps, now, resets);
  }

  // No run without a reset leads by more than two frames.
  ghost predicate LeadBounded(fps: int)
    requires 0 < fps <= SECOND
  {
    forall es: seq<Event> :: Ordered(es) && Resets(es) == 0 ==> LeadWithin(fps, es, 2 * Frame(fps))
  }

  /** Without resets the lead stays within two frames in every run exactly when the rate is
      below 60: from 60 on, which is also the rate a gate starts with, the gate lets every
      frame through. */
  lemma LeadAtMostTwoFramesIff(fps: int)
    requires 0 < fps <= SECOND
    ensures LeadBounded(fps) <==> fps < 60
  {
    if fps < 60 {
      forall es: seq<Event> | Ordered(es) && Resets(es) == 0 ensures LeadWithin(fps, es, 2 * Frame(fps)) {
        LeadAfterResets(fps, es);
      }
    } else {
      ThreeAtOnce(fps);
    }
  }

  // From a rate of 60 on every frame offered is stamped.
  lemma OpenGateAdds(fps: int, es: seq<Event>, now: nat, pts: nat)
    requires 60 <= fps <= SECOND && Clock(now) && pts + Frame(fps) < U64
    requires Fed(fps, es).gate == Fresh(fps) && Ordered(es) && LastOffer(es) <= now
    requires Fed(fps, es).clock == Clockwork(now, pts) || (pts == 0 && Fed(fps, es).clock == Clockwork(0, 0))
    ensures var es' := es + [Offered(now, false)];
            && Fed(fps, es') == Pipe(Fresh(fps), Clockwork(now, pts + Frame(fps)))
            && Ordered(es') && LastOffer(es') == now && Resets(es') == Resets(es)
  {
    FedOneMore(fps, es, Offered(now, false));
    StampAgain(Frame(fps), now, pts);
  }

  lemma ThreeAtOnce(fps: int)
    requires 60 <= fps <= SECOND
    ensures !LeadBounded(fps)
  {
    var o, dur := Offered(1, false), Frame(fps);
    var none: seq<Event> := [];
    OpenGateAdds(fps, none, 1, 0);
    OpenGateAdds(fps, none + [o], 1, dur);
    OpenGateAdds(fps, none + [o] + [o], 1, dur + dur);
    assert !LeadWithin(fps, none + [o] + [o] + [o], 2 * dur);
  }

  /** Without the gate there is no such bound: n pushes at one instant lead by n frames. */
  lemma {:induction false} UngatedLeadGrows(dur: nat, now: nat, n: nat)
    requires 0 < dur && Clock(now) && n * dur < U64
    ensures 0 < n ==> Pushed(dur, seq(n, _ => now)) == Clockwork(now, n * dur)
  {
    if n == 1 {
      assert seq(1, _ => now)[..0] == [];
      assert Pushed(dur, []) == Clockwork(0, 0);
      assert Stamp(dur, Clockwork(0, 0), now) == Clockwork(now, dur);
      assert 1 * dur == dur;
    } else if n > 1 {
      OneMore(n - 1, dur);
      UngatedLeadGrows(dur, now, n - 1);
      assert seq(n, _ => now)[..n - 1] == seq(n - 1, _ => now);
      NonNegative(n - 1, dur);
      StampFrames(dur, now, n - 1, now);
      QuotientBounds(0, dur);
    }
  }
}
