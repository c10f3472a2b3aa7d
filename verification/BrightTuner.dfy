/** The exposure and gain tuner: a small state machine that moves exposure to its middle value,
    then gain to its limit, then exposure to its limit. */
module BrightTuner {
  import opened Products

  const MIN_STEP := 20
  const EXPO_MIN := 100
  const EXPO_MID := 5000
  const EXPO_MAX := 1_000_000
  const GAIN_MIN := 10_000
  const GAIN_MID := 29_000
  const GAIN_MAX := 1_280_000
  const GAIN_STEPS: seq<int> := [1000, 5000, 10000, 15000, 20000, 25000, 30000, 35000, 40000, 45000]
  const EXPO_STEPS: seq<int> := [100, 1000, 2000, 3000, 4000, 5000, 6000, 7000, 8000, 9000]

  datatype Probe = Fine | TooBright | TooDark
  datatype Phase = StInit | St1 | St2 | St3   // St3 is declared but never entered
  datatype Config = Config(maxGainStep: int, maxExpoStep: int, cooldown: int, stableOk: int)
  datatype State = State(expo: int, gain: int, phase: Phase, okStreak: int, cooldown: int)
  datatype Request = Quiet | SetExposure(v: int) | SetGain(v: int)

  // The ranges the configuration is checked for.
  ghost predicate Accepted(c: Config) {
    0 < c.maxGainStep <= 200_000 && 0 < c.maxExpoStep <= 5000 && 0 <= c.cooldown <= 20 && 0 < c.stableOk <= 20
  }

  // ---------- Step sizes ----------

  function FloorLog2(x: int): (r: nat)
    decreases x
  {
    if x < 2 then 0 else 1 + FloorLog2(x / 2)
  }

  function Max(a: int, b: int): int {
    if a < b then b else a
  }

  function Min(a: int, b: int): int {
    if a < b then a else b
  }

  function BaseLevel(gain: int): (r: nat)
    ensures r <= 9
  {
    Min(9, Max(0, FloorLog2(Max(1, gain / GAIN_MIN))))
  }

  function Power2(n: nat): (r: nat)
    ensures 1 <= r
  {
    if n == 0 then 1 else 2 * Power2(n - 1)
  }

  lemma {:induction false} LogBounds(x: int)
    requires 1 <= x
    ensures Power2(FloorLog2(x)) <= x < Power2(FloorLog2(x) + 1)
    decreases x
  {
    if x >= 2 {
      LogBounds(x / 2);
    }
  }

  /** The tables have an entry for every level, and no gain within its limits uses the last two. */
  lemma LevelsInTable(gain: int)
    ensures BaseLevel(gain) < |GAIN_STEPS| == |EXPO_STEPS|
    ensures GAIN_MIN <= gain <= GAIN_MAX ==> BaseLevel(gain) <= 7
  {
    var ratio := Max(1, gain / GAIN_MIN);
    LogBounds(ratio);
    PowerGrows(8, Max(8, FloorLog2(ratio)));
    assert Power2(4) == 16;
    assert Power2(8) == 256;
  }

  lemma {:induction false} PowerGrows(a: nat, b: nat)
    requires a <= b
    ensures Power2(a) <= Power2(b)
    decreases b - a
  {
    if a < b {
      PowerGrows(a, b - 1);
    }
  }

  function ClampStep(v: int, max: int): int {
    if v < MIN_STEP then MIN_STEP else if v > max then max else v
  }

  // The multipliers, in tenths.
  function GainTenths(err: int): int {
    if err >= 8 then 35 else if err >= 6 then 25 else if err >= 4 then 18 else if err >= 2 then 12 else 10
  }

  function ExpoTenths(err: int): int {
    if err >= 8 then 30 else if err >= 6 then 20 else if err >= 4 then 16 else if err >= 2 then 11 else 10
  }

  function ScaledStep(base: int, tenths: int, err: int, max: int): int {
    var step := base * tenths / 10;
    ClampStep(if err < 3 then step / 2 else step, max)
  }

  /** A step is positive exactly from error level 1 on. */
  function GainStep(base: int, err: int, max: int): (step: int)
    ensures 0 < max ==> (0 < step <==> 1 <= err) && 0 <= step
  {
    if err <= 0 then 0 else ScaledStep(base, GainTenths(err), err, max)
  }

  function ExpoStep(base: int, err: int, max: int): (step: int)
    ensures 0 < max ==> (0 < step <==> 1 <= err) && 0 <= step
  {
    if err <= 0 then 0 else ScaledStep(base, ExpoTenths(err), err, max)
  }

  lemma ScaledStepGrows(base: int, a: int, b: int, errA: int, errB: int, max: int)
    requires 0 <= base && 0 <= a <= b && errA <= errB && 0 < max && MIN_STEP <= max
    ensures ScaledStep(base, a, errA, max) <= ScaledStep(base, b, errB, max)
    ensures MIN_STEP <= ScaledStep(base, a, errA, max) <= max
  {
    Grows(a, b, base);
  }

  /** The larger the error level, the larger the step, between the least step and the
      configured one. */
  lemma StepsGrowWithError(base: int, errA: int, errB: int, max: int)
    requires 0 <= base && 1 <= errA <= errB && MIN_STEP <= max
    ensures MIN_STEP <= GainStep(base, errA, max) <= GainStep(base, errB, max) <= max
    ensures MIN_STEP <= ExpoStep(base, errA, max) <= ExpoStep(base, errB, max) <= max
  {
    ScaledStepGrows(base, GainTenths(errA), GainTenths(errB), errA, errB, max);
    ScaledStepGrows(base, GainTenths(errB), GainTenths(errB), errB, errB, max);
    ScaledStepGrows(base, ExpoTenths(errA), ExpoTenths(errB), errA, errB, max);
    ScaledStepGrows(base, ExpoTenths(errB), ExpoTenths(errB), errB, errB, max);
  }

  lemma LevelOfOctave(gain: int, k: nat)
    requires k <= 7 && GAIN_MIN * Power2(k) <= gain < GAIN_MIN * Power2(k + 1)
    ensures BaseLevel(gain) == k
  {
    var ratio := gain / GAIN_MIN;
    assert Power2(k) <= ratio < Power2(k + 1);
    LogBounds(ratio);
    if FloorLog2(ratio) < k {
      PowerGrows(FloorLog2(ratio) + 1, k);
    } else if FloorLog2(ratio) > k {
      PowerGrows(k + 1, FloorLog2(ratio));
    }
  }

  /** The base steps of every octave of the gain, in numbers. */
  lemma BaseSteps(gain: int)
    requires 10_000 <= gain <= 1_280_000
    ensures GAIN_STEPS[BaseLevel(gain)] ==
            if gain < 20_000 then 1000 else if gain < 40_000 then 5000 else if gain < 80_000 then 10_000
            else if gain < 160_000 then 15_000 else if gain < 320_000 then 20_000 else if gain < 640_000 then 25_000
            else if gain < 1_280_000 then 30_000 else 35_000
    ensures EXPO_STEPS[BaseLevel(gain)] ==
            if gain < 20_000 then 100 else if gain < 40_000 then 1000 else if gain < 80_000 then 2000
            else if gain < 160_000 then 3000 else if gain < 320_000 then 4000 else if gain < 640_000 then 5000
            else if gain < 1_280_000 then 6000 else 7000
  {
    assert Power2(1) == 2 && Power2(2) == 4 && Power2(3) == 8 && Power2(4) == 16;
    assert Power2(5) == 32 && Power2(6) == 64 && Power2(7) == 128 && Power2(8) == 256;
    LevelOfOctave(gain, if gain < 20_000 then 0 else if gain < 40_000 then 1 else if gain < 80_000 then 2
                        else if gain < 160_000 then 3 else if gain < 320_000 then 4 else if gain < 640_000 then 5
                        else if gain < 1_280_000 then 6 else 7);
  }

  /** The share of the base step for every error band, in numbers, before both are held between
      20 and the configured step. */
  lemma ErrorBands(base: int, err: int, max: int)
    requires 1 <= err
    ensures GainStep(base, err, max) ==
            var step := if err == 1 then base / 2 else if err == 2 then base * 12 / 10 / 2 else if err == 3 then base * 12 / 10
                        else if err <= 5 then base * 18 / 10 else if err <= 7 then base * 25 / 10 else base * 35 / 10;
            if step < 20 then 20 else if step > max then max else step
    ensures ExpoStep(base, err, max) ==
            var step := if err == 1 then base / 2 else if err == 2 then base * 11 / 10 / 2 else if err == 3 then base * 11 / 10
                        else if err <= 5 then base * 16 / 10 else if err <= 7 then base * 20 / 10 else base * 30 / 10;
            if step < 20 then 20 else if step > max then max else step
  {
    assert base * 10 / 10 == base;
  }

  // Near either end of the exposure range a step is at most 50.
  function EdgeStep(expo: int, step: int): int {
    if expo <= EXPO_MIN + 500 || expo >= EXPO_MAX - 500 then Min(step, 50) else step
  }

  // One step towards a bound, not past it; nothing when the value is there already.
  function Towards(x: int, step: int, bound: int, down: bool): int {
    if down then (if x > bound then Max(x - step, bound) else x)
    else if x < bound then Min(x + step, bound) else x
  }

  function Requested(expo: int): int {
    if EXPO_MID - 2000 < expo < EXPO_MID + 2000 then EXPO_MID else expo
  }

  // ---------- One observation ----------

  predicate AtCorner(s: State, bright: bool) {
    if bright then s.expo <= EXPO_MIN && s.gain <= GAIN_MIN else s.expo >= EXPO_MAX && s.gain >= GAIN_MAX
  }

  predicate PastMiddle(s: State, bright: bool) {
    if bright then s.expo <= EXPO_MID else s.expo >= EXPO_MID
  }

  function GainBound(bright: bool): int {
    if bright then GAIN_MIN else GAIN_MAX
  }

  function ExpoBound(bright: bool): int {
    if bright then EXPO_MIN else EXPO_MAX
  }

  predicate GainDone(s: State, bright: bool) {
    if bright then s.gain <= GAIN_MIN else s.gain >= GAIN_MAX
  }

  predicate ExpoDone(s: State, bright: bool) {
    if bright then s.expo <= EXPO_MIN else s.expo >= EXPO_MAX
  }

  function TuneMiddle(c: Config, s: State, bright: bool, err: int): (State, Request) {
    if PastMiddle(s, bright) then (s.(phase := St1), Quiet)
    else
      var step := EdgeStep(s.expo, ExpoStep(EXPO_STEPS[BaseLevel(s.gain)], err, c.maxExpoStep));
      var expo := Towards(s.expo, step, EXPO_MID, bright);
      (s.(expo := expo, cooldown := c.cooldown), SetExposure(Requested(expo)))
  }

  function TuneGain(c: Config, s: State, bright: bool, err: int): (State, Request) {
    if GainDone(s, bright) then (s.(phase := St2), Quiet)
    else
      var step := GainStep(GAIN_STEPS[BaseLevel(s.gain)], err, c.maxGainStep);
      var gain := Towards(s.gain, step, GainBound(bright), bright);
      (s.(gain := gain, cooldown := c.cooldown), SetGain(gain))
  }

  function TuneExposure(c: Config, s: State, bright: bool, err: int): (State, Request) {
    var step := ExpoStep(EXPO_STEPS[BaseLevel(s.gain)], err, c.maxExpoStep);
    var edge := EdgeStep(s.expo, ClampStep(step, c.maxExpoStep));
    if bright && s.gain > GAIN_MIN + GAIN_MID && (s.expo <= EXPO_MID || s.expo - edge <= EXPO_MID)
    then (s.(phase := St1), Quiet)
    else if ExpoDone(s, bright) then (s.(phase := StInit), Quiet)
    else
      var expo := Towards(s.expo, edge, ExpoBound(bright), bright);
      (s.(expo := expo, cooldown := c.cooldown), SetExposure(Requested(expo)))
  }

  function TuneOk(c: Config, s: State): State {
    if s.okStreak + 1 >= c.stableOk then s.(phase := StInit, okStreak := 0)
    else s.(okStreak := s.okStreak + 1)
  }

  function Tune(c: Config, s: State, probe: Probe, err: int): (State, Request) {
    if probe.Fine? || AtCorner(s, probe.TooBright?) then (TuneOk(c, s), Quiet)
    else
      var t := s.(okStreak := 0);
      if t.cooldown > 0 then (t, Quiet)
      else
        match t.phase
        case StInit => TuneMiddle(c, t, probe.TooBright?, err)
        case St1 => TuneGain(c, t, probe.TooBright?, err)
        case St2 => TuneExposure(c, t, probe.TooBright?, err)
        case St3 => (t, Quiet)
  }

  // One turn of the frame loop: the cooldown ticks first.
  function Frame(c: Config, s: State, probe: Probe, err: int): (State, Request) {
    Tune(c, s.(cooldown := if s.cooldown > 0 then s.cooldown - 1 else s.cooldown), probe, err)
  }

  /** What is sent: a frame that changes the exposure or the gain sends the new value in that very
      frame, and what is sent is the new value, but for exposures strictly between 3000 and 7000,
      for which 5000 is sent. */
  lemma SendsWhatItSets(c: Config, s: State, probe: Probe, err: int)
    ensures var (t, r) := Frame(c, s, probe, err);
      && (t.expo != s.expo ==> r.SetExposure?) && (t.gain != s.gain ==> r.SetGain?)
      && (r.SetExposure? ==> r.v == if 3000 < t.expo < 7000 then 5000 else t.expo)
      && (r.SetGain? ==> r.v == t.gain)
      && (r != Quiet ==> t.cooldown == c.cooldown)
  {
  }

  // One frame of a picture that is too bright or too dark, with nothing to wait for.
  predicate Acts(s: State, bright: bool) {
    s.cooldown <= 1 && !AtCorner(s, bright)
  }

  // x moved by `step` towards `goal`, which it does not pass.
  ghost predicate MovedTowards(x: int, y: int, step: int, goal: int) {
    if x > goal then y == (if x - step < goal then goal else x - step)
    else if x < goal then y == (if x + step > goal then goal else x + step)
    else y == x
  }

  // Exposure steps are at most 50 up to 600 and from 999500 on.
  function NearEdge(expo: int, step: int): int {
    if (expo <= 600 || expo >= 999_500) && step > 50 then 50 else step
  }

  /** The first phase brings the exposure to 5000 and then hands over to the gain, the second the
      gain to its limit and then hands over to the exposure, each by the steps of the tables. */
  lemma FirstPhases(c: Config, s: State, bright: bool, err: int)
    requires Accepted(c) && InLimits(s) && Acts(s, bright)
    ensures var t, level := Frame(c, s, Side(bright), err).0, BaseLevel(s.gain);
      && (s.phase.StInit? && (if bright then s.expo <= 5000 else s.expo >= 5000) ==>
            t.phase == St1 && t.expo == s.expo && t.gain == s.gain)
      && (s.phase.StInit? && !(if bright then s.expo <= 5000 else s.expo >= 5000) ==>
            && t.phase == StInit && t.gain == s.gain
            && MovedTowards(s.expo, t.expo, NearEdge(s.expo, ExpoStep(EXPO_STEPS[level], err, c.maxExpoStep)), 5000))
      && (s.phase.St1? && s.gain == (if bright then 10_000 else 1_280_000) ==>
            t.phase == St2 && t.expo == s.expo && t.gain == s.gain)
      && (s.phase.St1? && s.gain != (if bright then 10_000 else 1_280_000) ==>
            && t.phase == St1 && t.expo == s.expo
            && MovedTowards(s.gain, t.gain, GainStep(GAIN_STEPS[level], err, c.maxGainStep),
                            if bright then 10_000 else 1_280_000))
  {
  }

  /** The last phase brings the exposure to its limit by at least the least step, and then starts
      over; too bright with a gain above 39000 it goes back to the gain rather than below 5000. */
  lemma LastPhase(c: Config, s: State, bright: bool, err: int)
    requires Accepted(c) && InLimits(s) && Acts(s, bright) && s.phase.St2?
    ensures var t, step := Frame(c, s, Side(bright), err).0, ExpoStep(EXPO_STEPS[BaseLevel(s.gain)], err, c.maxExpoStep);
            var moved := NearEdge(s.expo, if step < 20 then 20 else step);
      && t.gain == s.gain
      && (if bright && s.gain > 39_000 && s.expo - moved <= 5000 then t.phase == St1 && t.expo == s.expo
          else if s.expo == (if bright then 100 else 1_000_000) then t.phase == StInit && t.expo == s.expo
          else t.phase == St2 && MovedTowards(s.expo, t.expo, moved, if bright then 100 else 1_000_000))
  {
  }

  /** Nothing is done while the cooldown lasts; a fine picture is only counted, and after as many
      in a row as configured the tuner starts over. */
  lemma WaitsAndCounts(c: Config, s: State, probe: Probe, err: int)
    ensures var (t, r) := Frame(c, s, probe, err);
            var fine := probe.Fine? || (probe.TooBright? && s.expo <= 100 && s.gain <= 10_000)
                        || (probe.TooDark? && s.expo >= 1_000_000 && s.gain >= 1_280_000);
      && (!fine && s.cooldown > 1 ==> r == Quiet && (t.expo, t.gain, t.phase) == (s.expo, s.gain, s.phase))
      && (fine ==> r == Quiet && (t.expo, t.gain) == (s.expo, s.gain))
      && (fine && s.okStreak + 1 >= c.stableOk ==> t.phase == StInit && t.okStreak == 0)
      && (fine && s.okStreak + 1 < c.stableOk ==> t.phase == s.phase && t.okStreak == s.okStreak + 1)
      && (!fine ==> t.okStreak == 0)
      && (s.cooldown > 0 && r == Quiet ==> t.cooldown == s.cooldown - 1)
  {
  }

  // ---------- In place ----------

  class Tuner {
    const config: Config
    var expo: int
    var gain: int
    var phase: Phase
    var okStreak: int
    var cooldown: int

    function View(): State
      reads this
    {
      State(expo, gain, phase, okStreak, cooldown)
    }

    constructor (c: Config)
      ensures config == c && View() == State(5000, 29000, StInit, 0, 0)
    {
      config := c;
      expo, gain, phase, okStreak, cooldown := 5000, 29000, StInit, 0, 0;
    }

    method OneFrame(probe: Probe, err: int) returns (request: Request)
      modifies this
      ensures (View(), request) == Frame(config, old(View()), probe, err)
    {
      if cooldown > 0 {
        cooldown := cooldown - 1;
      }
      request := BrightTunning(probe, err);
    }

    method BrightTunning(probe: Probe, err: int) returns (request: Request)
      modifies this
      ensures (View(), request) == Tune(config, old(View()), probe, err)
    {
      request := Quiet;
      var bs := probe;
      if bs == TooBright && expo <= EXPO_MIN && gain <= GAIN_MIN {
        bs := Fine;
      }
      if bs == TooDark && expo >= EXPO_MAX && gain >= GAIN_MAX {
        bs := Fine;
      }
      if bs == Fine {
        okStreak := okStreak + 1;
        if okStreak >= config.stableOk {
          phase := StInit;
          okStreak := 0;
        }
        return;
      }
      okStreak := 0;
      if cooldown > 0 {
        return;
      }
      match phase
      case StInit => request := RunMiddle(bs, err);
      case St1 => request := RunGain(bs, err);
      case St2 => request := RunExposure(bs, err);
      case St3 =>
    }

    method RunMiddle(bs: Probe, err: int) returns (request: Request)
      requires bs != Fine
      modifies this
      ensures (View(), request) == TuneMiddle(config, old(View()), bs == TooBright, err)
    {
      var step := ExpoStep(EXPO_STEPS[BaseLevel(gain)], err, config.maxExpoStep);
      if (bs == TooBright && expo <= EXPO_MID) || (bs == TooDark && expo >= EXPO_MID) {
        phase := St1;
        return Quiet;
      }
      if expo <= EXPO_MIN + 500 {
        step := Min(step, 50);
      } else if expo >= EXPO_MAX - 500 {
        step := Min(step, 50);
      }
      if bs == TooBright && expo > EXPO_MID {
        expo := expo - step;
        if expo < EXPO_MID {
          expo := EXPO_MID;
        }
      } else if bs == TooDark && expo < EXPO_MID {
        expo := expo + step;
        if expo > EXPO_MID {
          expo := EXPO_MID;
        }
      }
      request := SetExposure(Requested(expo));
      cooldown := config.cooldown;
    }

    method RunGain(bs: Probe, err: int) returns (request: Request)
      requires bs != Fine
      modifies this
      ensures (View(), request) == TuneGain(config, old(View()), bs == TooBright, err)
    {
      var step := GainStep(GAIN_STEPS[BaseLevel(gain)], err, config.maxGainStep);
      if (bs == TooBright && gain <= GAIN_MIN) || (bs == TooDark && gain >= GAIN_MAX) {
        phase := St2;
        return Quiet;
      }
      if bs == TooBright && gain > GAIN_MIN {
        gain := gain - step;
        if gain < GAIN_MIN {
          gain := GAIN_MIN;
        }
      } else if bs == TooDark && gain < GAIN_MAX {
        gain := gain + step;
        if gain > GAIN_MAX {
          gain := GAIN_MAX;
        }
      }
      request := SetGain(gain);
      cooldown := config.cooldown;
    }

    method RunExposure(bs: Probe, err: int) returns (request: Request)
      requires bs != Fine
      modifies this
      ensures (View(), request) == TuneExposure(config, old(View()), bs == TooBright, err)
    {
      var step := ExpoStep(EXPO_STEPS[BaseLevel(gain)], err, config.maxExpoStep);
      step := ClampStep(step, config.maxExpoStep);
      if expo <= EXPO_MIN + 500 {
        step := Min(step, 50);
      } else if expo >= EXPO_MAX - 500 {
        step := Min(step, 50);
      }
      if bs == TooBright {
        if gain > GAIN_MIN + GAIN_MID {
          if expo <= EXPO_MID || expo - step <= EXPO_MID {
            phase := St1;
            return Quiet;
          }
        }
      }
      if (bs == TooBright && expo <= EXPO_MIN) || (bs == TooDark && expo >= EXPO_MAX) {
        phase := StInit;
        return Quiet;
      }
      if bs == TooBright && expo > EXPO_MIN {
        expo := expo - step;
        if expo < EXPO_MIN {
          expo := EXPO_MIN;
        }
      } else if bs == TooDark && expo < EXPO_MAX {
        expo := expo + step;
        if expo > EXPO_MAX {
          expo := EXPO_MAX;
        }
      }
      request := SetExposure(Requested(expo));
      cooldown := config.cooldown;
    }
  }

  // ---------- Limits ----------

  ghost predicate InLimits(s: State) {
    && EXPO_MIN <= s.expo <= EXPO_MAX
    && GAIN_MIN <= s.gain <= GAIN_MAX
    && 0 <= s.cooldown
    && s.phase != St3
  }

  ghost predicate RequestInLimits(r: Request) {
    match r
    case Quiet => true
    case SetExposure(v) => EXPO_MIN <= v <= EXPO_MAX
    case SetGain(v) => GAIN_MIN <= v <= GAIN_MAX
  }

  datatype Observation = Observation(probe: Probe, err: int)

  function Run(c: Config, s: State, seen: seq<Observation>): State {
    if seen == [] then s
    else
      var last := seen[|seen| - 1];
      Frame(c, Run(c, s, seen[..|seen| - 1]), last.probe, last.err).0
  }

  lemma FrameInLimits(c: Config, s: State, probe: Probe, err: int)
    requires Accepted(c) && InLimits(s)
    ensures InLimits(Frame(c, s, probe, err).0) && RequestInLimits(Frame(c, s, probe, err).1)
  {
  }

  /** Whatever is observed, exposure, gain and every value sent to the cameras stay within their
      limits, and the step tables are read within bounds. */
  lemma {:induction false} LimitsAreKept(c: Config, s: State, seen: seq<Observation>, probe: Probe, err: int)
    requires Accepted(c) && InLimits(s)
    ensures InLimits(Run(c, s, seen)) && BaseLevel(Run(c, s, seen).gain) <= 7
    ensures RequestInLimits(Frame(c, Run(c, s, seen), probe, err).1)
    decreases |seen|
  {
    if seen != [] {
      var last := seen[|seen| - 1];
      LimitsAreKept(c, s, seen[..|seen| - 1], last.probe, last.err);
      FrameInLimits(c, Run(c, s, seen[..|seen| - 1]), last.probe, last.err);
    }
    FrameInLimits(c, Run(c, s, seen), probe, err);
    LevelsInTable(Run(c, s, seen).gain);
  }

  // ---------- Reaching the corner ----------

  function Side(bright: bool): Probe {
    if bright then TooBright else TooDark
  }

  // How far exposure and gain are from the corner together.
  function Distance(s: State, bright: bool): int {
    if bright then s.expo - EXPO_MIN + (s.gain - GAIN_MIN)
    else EXPO_MAX - s.expo + (GAIN_MAX - s.gain)
  }

  // Phase changes before the next value moves.
  function Rank(s: State, bright: bool): nat {
    if GainDone(s, bright)
    then (match s.phase case StInit => 2 case St1 => 1 case _ => 0)
    else (match s.phase case St2 => 2 case StInit => 1 case _ => 0)
  }

  function Measure(c: Config, s: State, bright: bool): int {
    Distance(s, bright) * (c.cooldown + 3) + Rank(s, bright) + s.cooldown
  }

  // The states in which frames of this error level move something in the end.
  predicate Moves(s: State, bright: bool, err: int) {
    1 <= err || (GainDone(s, bright) && (s.phase.StInit? ==> PastMiddle(s, bright)))
  }

  // The states in which a frame of this error level changes no value and no phase.
  predicate Stuck(s: State, bright: bool, err: int) {
    err <= 0 && ((s.phase.StInit? && !PastMiddle(s, bright)) || (s.phase.St1? && !GainDone(s, bright)))
  }

  // One frame: the values come closer, or the phase does, or the cooldown ticks.
  lemma FrameProgress(c: Config, s: State, bright: bool, err: int)
    requires Accepted(c) && InLimits(s) && !AtCorner(s, bright) && !Stuck(s, bright, err)
    ensures var t := Frame(c, s, Side(bright), err).0;
            && (Moves(s, bright, err) ==> Moves(t, bright, err))
            && (|| (Distance(t, bright) < Distance(s, bright) && t.cooldown == c.cooldown)
                || (Distance(t, bright) == Distance(s, bright) && t.cooldown <= s.cooldown
                    && Rank(t, bright) <= Rank(s, bright)
                    && (t.cooldown < s.cooldown || Rank(t, bright) < Rank(s, bright))))
  {
  }

  lemma MeasureFalls(c: Config, s: State, bright: bool, err: int)
    requires Accepted(c) && InLimits(s) && !AtCorner(s, bright) && !Stuck(s, bright, err)
    ensures var t := Frame(c, s, Side(bright), err).0;
      && InLimits(t) && Measure(c, t, bright) < Measure(c, s, bright)
      && (Moves(s, bright, err) ==> Moves(t, bright, err))
  {
    var t := Frame(c, s, Side(bright), err).0;
    FrameInLimits(c, s, Side(bright), err);
    FrameProgress(c, s, bright, err);
    if Distance(t, bright) < Distance(s, bright) {
      OneMore(Distance(t, bright), c.cooldown + 3);
      Grows(Distance(t, bright) + 1, Distance(s, bright), c.cooldown + 3);
    }
  }

  lemma MeasureNonNegative(c: Config, s: State, bright: bool)
    requires Accepted(c) && InLimits(s)
    ensures 0 <= Measure(c, s, bright)
  {
    NonNegative(Distance(s, bright), c.cooldown + 3);
  }

  /** At the corner nothing is requested and nothing moves, for as long as the picture stays
      too bright (or too dark). */
  lemma CornerIsQuiet(c: Config, s: State, bright: bool, err: int)
    requires AtCorner(s, bright)
    ensures var (t, request) := Frame(c, s, Side(bright), err);
            request == Quiet && (t.expo, t.gain) == (s.expo, s.gain) && AtCorner(t, bright)
  {
  }

  // All observations say the same side, with error level at least one.
  ghost predicate Constant(seen: seq<Observation>, bright: bool) {
    forall i :: 0 <= i < |seen| ==> seen[i].probe == Side(bright) && 1 <= seen[i].err
  }

  // The measure falls by one a frame until the corner.
  lemma {:induction false} ProgressOverRun(c: Config, s: State, seen: seq<Observation>, bright: bool)
    requires Accepted(c) && InLimits(s) && Constant(seen, bright)
    ensures var t := Run(c, s, seen);
            InLimits(t) && (AtCorner(t, bright) || Measure(c, t, bright) + |seen| <= Measure(c, s, bright))
    decreases |seen|
  {
    if seen != [] {
      var before, last := Run(c, s, seen[..|seen| - 1]), seen[|seen| - 1];
      ProgressOverRun(c, s, seen[..|seen| - 1], bright);
      FrameInLimits(c, before, last.probe, last.err);
      if AtCorner(before, bright) {
        CornerIsQuiet(c, before, bright, last.err);
      } else {
        MeasureFalls(c, before, bright, last.err);
      }
    }
  }

  /** Under a constant too-bright or too-dark picture with error level at least one, from any
      state, the corner is reached within Measure frames; every later frame requests nothing. */
  lemma ReachesCornerAndStops(c: Config, s: State, seen: seq<Observation>, bright: bool, err: int)
    requires Accepted(c) && InLimits(s) && Constant(seen, bright)
    requires Measure(c, s, bright) < |seen|
    ensures AtCorner(Run(c, s, seen), bright)
    ensures Frame(c, Run(c, s, seen), Side(bright), err).1 == Quiet
  {
    ProgressOverRun(c, s, seen, bright);
    MeasureNonNegative(c, Run(c, s, seen), bright);
  }

  // ---------- Error level zero ----------

  function Repeat(c: Config, s: State, bright: bool, err: int, n: nat): State {
    if n == 0 then s else Frame(c, Repeat(c, s, bright, err, n - 1), Side(bright), err).0
  }

  // A frame from a state that moves, or from the corner.
  lemma MovesOn(c: Config, s: State, bright: bool, err: int)
    requires Accepted(c) && InLimits(s) && (AtCorner(s, bright) || Moves(s, bright, err))
    ensures var t := Frame(c, s, Side(bright), err).0;
      && InLimits(t)
      && (AtCorner(s, bright) ==> AtCorner(t, bright))
      && (!AtCorner(s, bright) ==> Moves(t, bright, err) && Measure(c, t, bright) < Measure(c, s, bright))
  {
    FrameInLimits(c, s, Side(bright), err);
    if AtCorner(s, bright) {
      CornerIsQuiet(c, s, bright, err);
    } else {
      MeasureFalls(c, s, bright, err);
    }
  }

  lemma {:induction false} MovesForever(c: Config, s: State, bright: bool, err: int, n: nat)
    requires Accepted(c) && InLimits(s) && Moves(s, bright, err)
    ensures var t := Repeat(c, s, bright, err, n);
            InLimits(t) && (AtCorner(t, bright)
                            || (Moves(t, bright, err) && Measure(c, t, bright) + n <= Measure(c, s, bright)))
  {
    if n > 0 {
      MovesForever(c, s, bright, err, n - 1);
      MovesOn(c, Repeat(c, s, bright, err, n - 1), bright, err);
    }
  }

  // A frame that cannot move anything leaves a state of the same kind.
  lemma StallStep(c: Config, s: State, bright: bool, err: int)
    requires Accepted(c) && InLimits(s) && !Moves(s, bright, err)
    ensures var t := Frame(c, s, Side(bright), err).0;
            !Moves(t, bright, err) && !AtCorner(t, bright)
  {
  }

  lemma {:induction false} StallsForever(c: Config, s: State, bright: bool, err: int, n: nat)
    requires Accepted(c) && InLimits(s) && !Moves(s, bright, err)
    ensures var t := Repeat(c, s, bright, err, n);
            InLimits(t) && !Moves(t, bright, err) && !AtCorner(t, bright)
  {
    if n > 0 {
      StallsForever(c, s, bright, err, n - 1);
      FrameInLimits(c, Repeat(c, s, bright, err, n - 1), Side(bright), err);
      StallStep(c, Repeat(c, s, bright, err, n - 1), bright, err);
    }
  }

  /** The corner is reached if and only if the error level is at least one, or the gain is at its
      limit already and exposure is not waiting to come to its middle value. (Error level zero
      gives the other two phases a step of zero; the last phase raises it to the least step.) */
  lemma ReachesCornerIff(c: Config, s: State, bright: bool, err: int)
    requires Accepted(c) && InLimits(s)
    ensures (exists n: nat :: AtCorner(Repeat(c, s, bright, err, n), bright)) <==> Moves(s, bright, err)
  {
    if Moves(s, bright, err) {
      MeasureNonNegative(c, s, bright);
      var n: nat := Measure(c, s, bright) + 1;
      MovesForever(c, s, bright, err, n);
      MeasureNonNegative(c, Repeat(c, s, bright, err, n), bright);
      assert AtCorner(Repeat(c, s, bright, err, n), bright);
    } else {
      forall n: nat ensures !AtCorner(Repeat(c, s, bright, err, n), bright) {
        StallsForever(c, s, bright, err, n);
      }
    }
  }

  // ---------- What is sent for ever ----------

  function RequestAt(c: Config, s: State, bright: bool, err: int, n: nat): Request {
    Frame(c, Repeat(c, s, bright, err, n), Side(bright), err).1
  }

  // The request a stuck state keeps making.
  function Stubborn(s: State): Request {
    if s.phase.StInit? then SetExposure(Requested(s.expo)) else SetGain(s.gain)
  }

  predicate SameValues(s: State, t: State) {
    t.expo == s.expo && t.gain == s.gain && t.phase == s.phase
  }

  lemma StuckStep(c: Config, s: State, bright: bool, err: int)
    requires Accepted(c) && InLimits(s) && Stuck(s, bright, err)
    ensures var (t, request) := Frame(c, s, Side(bright), err);
      && SameValues(s, t) && Stuck(t, bright, err)
      && request == (if s.cooldown > 1 then Quiet else Stubborn(s))
      && (s.cooldown > 1 ==> t.cooldown == s.cooldown - 1)
  {
  }

  lemma {:induction false} StuckForever(c: Config, s: State, bright: bool, err: int, start: nat, n: nat)
    requires Accepted(c) && InLimits(s) && start <= n && Stuck(Repeat(c, s, bright, err, start), bright, err)
    ensures var t := Repeat(c, s, bright, err, n);
      && InLimits(t) && Stuck(t, bright, err) && SameValues(Repeat(c, s, bright, err, start), t)
      && RequestAt(c, s, bright, err, n) in {Quiet, Stubborn(t)}
    decreases n
  {
    if n == start {
      RepeatInLimits(c, s, bright, err, n);
    } else {
      StuckForever(c, s, bright, err, start, n - 1);
      StuckStep(c, Repeat(c, s, bright, err, n - 1), bright, err);
      FrameInLimits(c, Repeat(c, s, bright, err, n - 1), Side(bright), err);
    }
    StuckStep(c, Repeat(c, s, bright, err, n), bright, err);
  }

  lemma {:induction false} RepeatInLimits(c: Config, s: State, bright: bool, err: int, n: nat)
    requires Accepted(c) && InLimits(s)
    ensures InLimits(Repeat(c, s, bright, err, n))
  {
    if n > 0 {
      RepeatInLimits(c, s, bright, err, n - 1);
      FrameInLimits(c, Repeat(c, s, bright, err, n - 1), Side(bright), err);
    }
  }

  // A stuck state sends once its cooldown is over.
  lemma {:induction false} SendsAgain(c: Config, s: State, bright: bool, err: int, n: nat) returns (m: nat)
    requires Accepted(c) && InLimits(s) && Stuck(Repeat(c, s, bright, err, n), bright, err)
    ensures n <= m && RequestAt(c, s, bright, err, m) == Stubborn(Repeat(c, s, bright, err, n))
    decreases Repeat(c, s, bright, err, n).cooldown
  {
    var t := Repeat(c, s, bright, err, n);
    RepeatInLimits(c, s, bright, err, n);
    StuckStep(c, t, bright, err);
    if t.cooldown > 1 {
      assert Repeat(c, s, bright, err, n + 1) == Frame(c, t, Side(bright), err).0;
      m := SendsAgain(c, s, bright, err, n + 1);
    } else {
      m := n;
    }
  }

  // From any state the corner or a stuck state is reached.
  lemma {:induction false} SettlesSomewhere(c: Config, s: State, bright: bool, err: int, n: nat) returns (m: nat)
    requires Accepted(c) && InLimits(s)
    ensures AtCorner(Repeat(c, s, bright, err, m), bright) || Stuck(Repeat(c, s, bright, err, m), bright, err)
    decreases Measure(c, Repeat(c, s, bright, err, n), bright)
  {
    var t := Repeat(c, s, bright, err, n);
    RepeatInLimits(c, s, bright, err, n);
    if AtCorner(t, bright) || Stuck(t, bright, err) {
      m := n;
    } else {
      MeasureNonNegative(c, t, bright);
      MeasureFalls(c, t, bright, err);
      assert Repeat(c, s, bright, err, n + 1) == Frame(c, t, Side(bright), err).0;
      m := SettlesSomewhere(c, s, bright, err, n + 1);
    }
  }

  lemma {:induction false} QuietFromCorner(c: Config, s: State, bright: bool, err: int, start: nat, n: nat)
    requires start <= n && AtCorner(Repeat(c, s, bright, err, start), bright)
    ensures AtCorner(Repeat(c, s, bright, err, n), bright) && RequestAt(c, s, bright, err, n) == Quiet
    decreases n
  {
    if n > start {
      QuietFromCorner(c, s, bright, err, start, n - 1);
      CornerIsQuiet(c, Repeat(c, s, bright, err, n - 1), bright, err);
    }
    CornerIsQuiet(c, Repeat(c, s, bright, err, n), bright, err);
  }

  // However long one waits, a request still comes.
  ghost predicate KeepsSending(c: Config, s: State, bright: bool, err: int) {
    forall n: nat :: SendsAfter(c, s, bright, err, n)
  }

  ghost predicate SendsAfter(c: Config, s: State, bright: bool, err: int, n: nat) {
    exists m: nat :: n <= m && RequestAt(c, s, bright, err, m) != Quiet
  }

  // From frame n on only that request is sent, or nothing.
  ghost predicate OnlySends(c: Config, s: State, bright: bool, err: int, n: nat, r: Request) {
    forall m: nat :: n <= m ==> RequestAt(c, s, bright, err, m) in {Quiet, r}
  }

  /** Under a constant picture the tuner goes on sending for ever exactly from the states from
      which it does not reach the corner, and what it sends is then, from some frame on, always
      the same value. */
  lemma SendsForEverIff(c: Config, s: State, bright: bool, err: int)
    requires Accepted(c) && InLimits(s)
    ensures KeepsSending(c, s, bright, err) <==> !Moves(s, bright, err)
    ensures exists n: nat, r: Request :: OnlySends(c, s, bright, err, n, r)
  {
    var start := SettlesSomewhere(c, s, bright, err, 0);
    var t := Repeat(c, s, bright, err, start);
    if AtCorner(t, bright) {
      CornerSendsNothing(c, s, bright, err, start);
    } else {
      StuckSends(c, s, bright, err, start);
    }
  }

  lemma CornerSendsNothing(c: Config, s: State, bright: bool, err: int, start: nat)
    requires Accepted(c) && InLimits(s) && AtCorner(Repeat(c, s, bright, err, start), bright)
    ensures !KeepsSending(c, s, bright, err) && Moves(s, bright, err)
    ensures OnlySends(c, s, bright, err, start, Quiet)
  {
    if !Moves(s, bright, err) {
      StallsForever(c, s, bright, err, start);
    }
    forall n: nat | start <= n ensures RequestAt(c, s, bright, err, n) == Quiet {
      QuietFromCorner(c, s, bright, err, start, n);
    }
    assert !SendsAfter(c, s, bright, err, start);
  }

  lemma StuckSends(c: Config, s: State, bright: bool, err: int, start: nat)
    requires Accepted(c) && InLimits(s) && Stuck(Repeat(c, s, bright, err, start), bright, err)
    ensures KeepsSending(c, s, bright, err) && !Moves(s, bright, err)
    ensures OnlySends(c, s, bright, err, start, Stubborn(Repeat(c, s, bright, err, start)))
  {
    forall n: nat ensures SendsAfter(c, s, bright, err, n) {
      var late := if n < start then start else n;
      StuckForever(c, s, bright, err, start, late);
      var m := SendsAgain(c, s, bright, err, late);
    }
    StuckSendsOnly(c, s, bright, err, start);
    if Moves(s, bright, err) {
      StaysMoving(c, s, bright, err, start);
    }
  }

  lemma StuckSendsOnly(c: Config, s: State, bright: bool, err: int, start: nat)
    requires Accepted(c) && InLimits(s) && Stuck(Repeat(c, s, bright, err, start), bright, err)
    ensures OnlySends(c, s, bright, err, start, Stubborn(Repeat(c, s, bright, err, start)))
  {
    forall m: nat | start <= m
      ensures RequestAt(c, s, bright, err, m) in {Quiet, Stubborn(Repeat(c, s, bright, err, start))}
    {
      StuckForever(c, s, bright, err, start, m);
    }
  }

  lemma {:induction false} StaysMoving(c: Config, s: State, bright: bool, err: int, n: nat)
    requires Accepted(c) && InLimits(s) && Moves(s, bright, err)
    ensures !Stuck(Repeat(c, s, bright, err, n), bright, err)
  {
    MovesForever(c, s, bright, err, n);
  }
}
