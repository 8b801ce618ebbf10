/**
  * The wave-driven A4988 motor agent (stepperdriver.py): one `motor` per
  * stepper with the modes idle / fastwave / slowstep, its position
  * bookkeeping in finest microsteps, slow stepping one tick at a time, the
  * `pulser` step train with ramp-up, cruise and ramp-down, the stop family,
  * and the `onewave` agent's merge of several step trains (`multiPulse`)
  * and its per-wave position updates (`_deleteWave`).
  *
  * The float ramp arithmetic of `pulser` is an oracle (`RampPlan`), the
  * aborts a controller raises while a train runs are an oracle over the
  * number of steps issued so far, and pin writes are a log of `PinOp`s.
  */
module StepperDriver {
  import opened Pulses

  datatype MotorMode = IdleMode | FastWave | SlowStep

  /** `pulseAbort`: None, 'softstop', 'hardstop' or 'crash'. */
  datatype Abort = NoAbort | SoftAbort | HardAbort | CrashAbort

  /** The `pins` setting: enable, direction and step pins and the step-level pins. */
  datatype DrivePins = DrivePins(enable: int, direction: int, step: nat, levels: seq<int>)

  /** A call of the parent's `setpin`, or a `gpio_trigger` pulse of the step pin. */
  datatype PinOp = SetPin(pin: int, value: int) | Trigger(pin: int, micros: int)

  /** `microstepset`: the step-level pin values for each microstep divisor. */
  const MicrostepSet: map<int, seq<int>> := map[1 := [0, 0, 0], 2 := [1, 0, 0], 4 := [0, 1, 0], 8 := [1, 1, 0], 16 := [1, 1, 1]]

  /** `max(microstepset.keys())`: positions count in sixteenths of a step. */
  const MaxMicrosteps: int := 16

  /** `MaxMicrosteps` is `max(microstepset.keys())`. */
  lemma {:induction false} MaxMicrostepsIsMaxKey()
    ensures MaxMicrosteps in MicrostepSet && forall w :: w in MicrostepSet ==> w <= MaxMicrosteps
  {
  }

  function Max(a: int, b: int): int
  {
    if a >= b then a else b
  }

  /** Python's `int(a / d)` for a positive whole `d`: the quotient truncated toward zero. */
  function TruncDiv(a: int, d: int): (q: int)
    requires d > 0
    ensures a >= 0 ==> q == a / d
    ensures a < 0 ==> q == -((-a) / d)
    ensures (if q < 0 then -q else q) * d <= (if a < 0 then -a else a)
  {
    if a >= 0 then DivBelow(a, d); a / d else DivBelow(-a, d); -((-a) / d)
  }

  lemma {:induction false} DivBelow(n: nat, d: int)
    requires d > 0
    ensures 0 <= n / d && (n / d) * d <= n
  {
    assert n == (n / d) * d + n % d;
  }

  /** `(p + change) % maxval` for a positive `maxval`: a position on the same turn residue, within one turn. */
  function Wrap(p: int, maxval: int): (r: int)
    requires maxval > 0
    ensures 0 <= r < maxval
    ensures r % maxval == p % maxval
  {
    p % maxval
  }

  lemma {:induction false} MulAtLeast(a: int, m: int)
    requires a >= 1 && m > 0
    ensures a * m >= m
  {
    if a > 1 {
      MulAtLeast(a - 1, m);
      assert a * m == (a - 1) * m + m;
    }
  }

  /** The remainder is the unique value in [0, m) that differs from `y` by whole turns. */
  lemma {:induction false} ModUnique(y: int, m: int, q: int, r: int)
    requires m > 0 && 0 <= r < m && y == q * m + r
    ensures y % m == r
  {
    var q0, r0 := y / m, y % m;
    assert y == q0 * m + r0;
    assert (q - q0) * m == r0 - r;
    if q - q0 >= 1 {
      MulAtLeast(q - q0, m);
      assert false;
    } else if q0 - q >= 1 {
      MulAtLeast(q0 - q, m);
      assert false;
    }
  }

  /** Wrapping before adding lands on the same position as wrapping after. */
  lemma {:induction false} ModAdd(a: int, b: int, m: int)
    requires m > 0
    ensures (a % m + b) % m == (a + b) % m
  {
    var c := a % m + b;
    assert a == (a / m) * m + a % m;
    assert c == (c / m) * m + c % m;
    assert a + b == (a / m + c / m) * m + c % m;
    ModUnique(a + b, m, a / m + c / m, c % m);
  }

  /**
    * `stepfactor` after `_set_ms_mode_dir`: the number of finest microsteps
    * one issued step moves, negative in reverse.
    */
  function StepFactor(microsteps: int, forward: bool): (f: int)
    requires microsteps in MicrostepSet
    ensures (f > 0) == forward && f != 0
    ensures (if f < 0 then -f else f) * microsteps == MaxMicrosteps
  {
    var s := MaxMicrosteps / microsteps;
    if forward then s else -s
  }

  /** The direction pin value: 0 for forward, 1 for reverse, swapped by `flipdir`. */
  function DirPinValue(forward: bool, flipdir: bool): (v: int)
    ensures v == 0 || v == 1
    ensures v == 1 <==> forward == flipdir
  {
    if flipdir then (if forward then 1 else 0) else (if forward then 0 else 1)
  }

  /**
    * The writes of `for slentry in range(len(mslevels))`: level i goes to
    * step-level pin i, until the pins run out (then IndexError).
    */
  function LevelOps(pins: seq<int>, levels: seq<int>): (ops: seq<PinOp>)
    ensures |ops| == if |levels| <= |pins| then |levels| else |pins|
    ensures forall i :: 0 <= i < |ops| ==> ops[i] == SetPin(pins[i], levels[i])
  {
    if pins == [] || levels == [] then []
    else [SetPin(pins[0], levels[0])] + LevelOps(pins[1..], levels[1..])
  }

  /** The step-level loop of `_set_ms_mode_dir`; `ok` is false when it ends in IndexError. */
  method LevelWrites(pins: seq<int>, levels: seq<int>) returns (ops: seq<PinOp>, ok: bool)
    ensures ok <==> |levels| <= |pins|
    ensures ops == LevelOps(pins, levels)
  {
    ops := [];
    var i := 0;
    while i < |levels|
      invariant 0 <= i <= |levels| && i <= |pins|
      invariant |ops| == i && forall k :: 0 <= k < i ==> ops[k] == SetPin(pins[k], levels[k])
    {
      if i >= |pins| {
        return ops, false;
      }
      ops := ops + [SetPin(pins[i], levels[i])];
      i := i + 1;
    }
    ok := true;
  }

  /** Every field of a `motor`, as one value. */
  datatype MotorState = MotorState(
    name: string, flipdir: bool, pins: DrivePins,
    mode: MotorMode, position: int, maxval: int, stepfactor: int, offset: int,
    slowLeft: int, slowPulse: int, abort: Abort, gensteps: int, hw: seq<PinOp>)

  /** `getpos`: in fastwave the position the last finished wave reached, wrapped; otherwise the stored position. */
  function ShownPos(s: MotorState): (p: int)
    requires s.maxval > 0
    ensures s.mode == FastWave ==> 0 <= p < s.maxval && p % s.maxval == (s.position + s.offset) % s.maxval
    ensures s.mode != FastWave ==> p == s.position
  {
    if s.mode == FastWave then Wrap(s.position + s.offset, s.maxval) else s.position
  }

  /**
    * `updatesettings`: the name changes in any mode; maxval, flipdir and
    * pins only in idle (the flag is false when they were refused). A changed
    * maxval re-wraps the position; new pins disable the drive.
    */
  function Resettled(s: MotorState, name: Option<string>, maxval: Option<int>, flipdir: Option<bool>, pins: Option<DrivePins>)
    : (r: (MotorState, bool))
    requires s.maxval > 0 && (maxval.Some? ==> maxval.value > 0)
    ensures r.1 <==> s.mode == IdleMode
    ensures r.0.name == (if name.Some? then name.value else s.name)
    ensures s.mode != IdleMode ==> r.0 == s.(name := r.0.name)
    ensures s.mode == IdleMode && maxval.Some? && maxval.value != s.maxval ==>
      r.0.maxval == maxval.value && 0 <= r.0.position < r.0.maxval && r.0.position % r.0.maxval == s.position % r.0.maxval
    ensures !(s.mode == IdleMode && maxval.Some? && maxval.value != s.maxval) ==> r.0.maxval == s.maxval && r.0.position == s.position
    ensures r.0.flipdir == (if s.mode == IdleMode && flipdir.Some? then flipdir.value else s.flipdir)
    ensures r.0.pins == (if s.mode == IdleMode && pins.Some? then pins.value else s.pins)
    ensures r.0.hw == s.hw + (if s.mode == IdleMode && pins.Some? then [SetPin(pins.value.enable, 1)] else [])
    ensures r.0.mode == s.mode && r.0.offset == s.offset && r.0.stepfactor == s.stepfactor && r.0.abort == s.abort
    ensures r.0.slowLeft == s.slowLeft && r.0.slowPulse == s.slowPulse && r.0.gensteps == s.gensteps
  {
    var s1 := s.(name := if name.Some? then name.value else s.name);
    if s.mode != IdleMode then (s1, false)
    else
      var s2 := if maxval.Some? && maxval.value != s.maxval then s1.(maxval := maxval.value, position := Wrap(s.position, maxval.value)) else s1;
      var s3 := if flipdir.Some? then s2.(flipdir := flipdir.value) else s2;
      var s4 := if pins.Some? then s3.(pins := pins.value, hw := s3.hw + [SetPin(pins.value.enable, 1)]) else s3;
      (s4, true)
  }

  /**
    * `_set_ms_mode_dir`: write the step-level pins and the direction pin and
    * set `stepfactor`. An unknown divisor fails in the failure branch's own
    * message formatting ("%d ... %d" with one value), a TypeError, before it
    * could return False; too few level pins give an IndexError after the
    * writes that fit.
    */
  function MsModeDir(s: MotorState, microsteps: int, forward: bool): (r: (MotorState, Result<()>))
    ensures microsteps !in MicrostepSet ==> r == (s, Err(TypeError))
    ensures microsteps in MicrostepSet && |s.pins.levels| < 3 ==>
      r.1 == Err(IndexError) && r.0 == s.(hw := s.hw + LevelOps(s.pins.levels, MicrostepSet[microsteps]))
    ensures r.1.Ok? <==> microsteps in MicrostepSet && |s.pins.levels| >= 3
    ensures r.1.Ok? ==>
      r.0 == s.(hw := r.0.hw, stepfactor := r.0.stepfactor)
      && (r.0.stepfactor > 0) == forward
      && (if r.0.stepfactor < 0 then -r.0.stepfactor else r.0.stepfactor) * microsteps == MaxMicrosteps
      && r.0.hw == s.hw + LevelOps(s.pins.levels, MicrostepSet[microsteps]) + [SetPin(s.pins.direction, DirPinValue(forward, s.flipdir))]
  {
    if microsteps !in MicrostepSet then (s, Err(TypeError))
    else
      var ops := LevelOps(s.pins.levels, MicrostepSet[microsteps]);
      if |s.pins.levels| < 3 then (s.(hw := s.hw + ops), Err(IndexError))
      else
        (s.(hw := s.hw + ops + [SetPin(s.pins.direction, DirPinValue(forward, s.flipdir))],
            stepfactor := StepFactor(microsteps, forward)), Ok(()))
  }

  /** `slowmovestop`: back to idle with the drive disabled (enable pin 1). */
  function SlowStopped(s: MotorState): (r: MotorState)
    ensures r.mode == IdleMode && r.hw == s.hw + [SetPin(s.pins.enable, 1)]
    ensures r.(mode := s.mode, hw := s.hw) == s
  {
    s.(mode := IdleMode, hw := s.hw + [SetPin(s.pins.enable, 1)])
  }

  /**
    * The steps left to issue for `slowmove`, as written: `int(totalsteps *
    * warp / max(microstepset.keys()))`, the largest divisor being 16, for a
    * positive `totalsteps`, else -1 (run until stopped).
    */
  function SlowStepsAsWritten(totalSteps: int, warp: int): (n: int)
    requires warp in MicrostepSet
    ensures totalSteps <= 0 ==> n == -1
    ensures totalSteps > 0 ==> n >= 0 && n * MaxMicrosteps <= totalSteps * warp < (n + 1) * MaxMicrosteps
  {
    if totalSteps > 0 then totalSteps * warp / MaxMicrosteps else -1
  }

  /**
    * `slowmovetick`: outside slowstep nothing happens; otherwise trigger the
    * step pin, move by `stepfactor`, count down a positive `slowLeft` and go
    * idle when it reaches 0.
    */
  function SlowTick(s: MotorState): (r: MotorState)
    requires s.maxval > 0
    ensures r.maxval == s.maxval && r.stepfactor == s.stepfactor && r.pins == s.pins
    ensures s.mode != SlowStep ==> r == s
    ensures s.mode == SlowStep ==>
      0 <= r.position < s.maxval && r.position % s.maxval == (s.position + s.stepfactor) % s.maxval
      && (r.mode == IdleMode <==> s.slowLeft == 1) && (r.mode != IdleMode ==> r.mode == SlowStep)
      && r.slowLeft == (if s.slowLeft > 0 then s.slowLeft - 1 else s.slowLeft)
  {
    if s.mode != SlowStep then s
    else
      var s1 := s.(hw := s.hw + [Trigger(s.pins.step, s.slowPulse)], position := Wrap(s.position + s.stepfactor, s.maxval));
      if s1.slowLeft > 0 then
        var s2 := s1.(slowLeft := s1.slowLeft - 1);
        if s2.slowLeft == 0 then SlowStopped(s2) else s2
      else s1
  }

  /** The state after `k` slow-move ticks. */
  function SlowTicks(s: MotorState, k: nat): (r: MotorState)
    requires s.maxval > 0
    ensures r.maxval == s.maxval && r.stepfactor == s.stepfactor
  {
    if k == 0 then s else SlowTick(SlowTicks(s, k - 1))
  }

  /**
    * A slow move with `n` >= 1 steps left issues exactly `n` steps: it stays
    * in slowstep until the last, then it is idle, `n` steps further on.
    */
  lemma {:induction false} SlowRunStops(s: MotorState, k: nat)
    requires s.maxval > 0 && s.mode == SlowStep && s.slowLeft >= 1 && k <= s.slowLeft
    ensures var r := SlowTicks(s, k);
      (r.mode == SlowStep <==> k < s.slowLeft) && (k == s.slowLeft ==> r.mode == IdleMode)
      && r.position == (if k == 0 then s.position else (s.position + k * s.stepfactor) % s.maxval)
      && r.slowLeft == s.slowLeft - k
  {
    if k > 0 {
      SlowRunStops(s, k - 1);
      var p := SlowTicks(s, k - 1);
      assert p.mode == SlowStep;
      if k - 1 == 0 {
        assert p == s;
      } else {
        ModAdd(s.position + (k - 1) * s.stepfactor, s.stepfactor, s.maxval);
        assert s.position + (k - 1) * s.stepfactor + s.stepfactor == s.position + k * s.stepfactor;
      }
    }
  }

  /** With no positive count left (-1 or 0) a slow move never stops by itself. */
  lemma {:induction false} SlowRunEndless(s: MotorState, k: nat)
    requires s.maxval > 0 && s.mode == SlowStep && s.slowLeft <= 0
    ensures SlowTicks(s, k).mode == SlowStep && SlowTicks(s, k).slowLeft == s.slowLeft
  {
    if k > 0 {
      SlowRunEndless(s, k - 1);
    }
  }

  /**
    * As written, a finite move shorter than one issued step (8 sixteenths in
    * full-step mode) leaves a count of 0; the tick counts down only while the
    * count is positive, so it stays 0 and the motor steps forever.
    */
  lemma {:induction false} ShortSlowMoveNeverEnds(s: MotorState, k: nat)
    requires s.maxval > 0 && s.mode == SlowStep && s.slowLeft == SlowStepsAsWritten(8, 1)
    ensures SlowTicks(s, k).mode == SlowStep
  {
    assert s.slowLeft == 0;
    SlowRunEndless(s, k);
  }

  /**
    * The ramp arithmetic of `pulser` as an oracle: the on-pulse delay of a
    * ramp-up step issued with `g` steps done, whether that step reached the
    * maximum rate (`tps > maxsr`), the cruise delay, and the delay of the
    * j-th ramp-down step (all after subtracting `pulseontime`).
    */
  datatype RampPlan = RampPlan(upDelay: nat -> int, capped: nat -> bool, cruiseDelay: int, downDelay: nat -> int)

  /** One step: set `on`, clear `off`, after `delay` microseconds. */
  datatype WaveStep = WaveStep(on: Mask, off: Mask, delay: int)

  /** The on/off yield pair of each step: on after the step's delay, off `onTime` later. */
  function Pairs(delays: seq<int>, mask: Mask, onTime: int): (r: seq<WaveStep>)
    ensures |r| == 2 * |delays|
  {
    if delays == [] then [] else [WaveStep(mask, {}, delays[0]), WaveStep({}, mask, onTime)] + Pairs(delays[1..], mask, onTime)
  }

  /** Step i of a train is yield 2i (its on-mask after its delay) and yield 2i+1 (its off-mask after `onTime`). */
  lemma {:induction false} PairsIndex(delays: seq<int>, mask: Mask, onTime: int, i: nat)
    requires i < |delays|
    ensures Pairs(delays, mask, onTime)[2 * i] == WaveStep(mask, {}, delays[i])
    ensures Pairs(delays, mask, onTime)[2 * i + 1] == WaveStep({}, mask, onTime)
  {
    if i > 0 {
      PairsIndex(delays[1..], mask, onTime, i - 1);
    }
  }

  lemma {:induction false} PairsAppend(a: seq<int>, b: seq<int>, mask: Mask, onTime: int)
    ensures Pairs(a + b, mask, onTime) == Pairs(a, mask, onTime) + Pairs(b, mask, onTime)
  {
    if a != [] {
      assert (a + b)[1..] == a[1..] + b;
      PairsAppend(a[1..], b, mask, onTime);
    } else {
      assert a + b == b;
    }
  }

  /**
    * The ramp-up loop entered with `g` steps issued: the delays of the steps
    * it issues and the count it ends at. It stops before a step when an abort
    * is seen, and after a step that reached the maximum rate or brought the
    * count to half the total.
    */
  function RampUp(t: int, plan: RampPlan, ab: nat -> Abort, g: nat): (r: (seq<int>, nat))
    ensures r.1 == g + |r.0|
    decreases if t - 2 * g > 0 then t - 2 * g else 0
  {
    if ab(g) != NoAbort then ([], g)
    else if plan.capped(g) || 2 * (g + 1) >= t then ([plan.upDelay(g)], g + 1)
    else
      var rest := RampUp(t, plan, ab, g + 1);
      ([plan.upDelay(g)] + rest.0, rest.1)
  }

  /** The cruise loop: up to `count` steps at the cruise delay while no abort is seen. */
  function Cruise(plan: RampPlan, ab: nat -> Abort, g: nat, count: int): (r: (seq<int>, nat))
    ensures r.1 == g + |r.0|
    decreases if count > 0 then count else 0
  {
    if count > 0 && ab(g) == NoAbort then
      var rest := Cruise(plan, ab, g + 1, count - 1);
      ([plan.cruiseDelay] + rest.0, rest.1)
    else ([], g)
  }

  /** The ramp-down loop: steps until the count reaches `total`, unless a hard stop or crash is seen. */
  function RampDown(plan: RampPlan, ab: nat -> Abort, g: nat, total: int, j: nat): (r: seq<int>)
    decreases if total - g > 0 then total - g else 0
  {
    if g < total && (ab(g) == NoAbort || ab(g) == SoftAbort) then [plan.downDelay(j)] + RampDown(plan, ab, g + 1, total, j + 1)
    else []
  }

  /** A whole step train: the delay of every step, the ramp-up step count, and whether it set the motor idle. */
  datatype Train = Train(delays: seq<int>, rampSteps: nat, idle: bool)

  /**
    * `pulser` from its first yield, with its step counter at `c0` once the
    * first step is out (1 here, 0 in stepwavetest.py): the first step at
    * delay 0, ramp-up, cruise for `t - 2*ramp` steps, ramp-down until the
    * counter reaches `t`; `ramp` is the counter after ramp-up. A soft stop seen
    * after ramp-up skips the cruise and ends at twice the ramp-up count, one
    * seen during the cruise ends `ramp` steps later; a hard stop or crash
    * ends the train at the next check, and only the one after the cruise
    * sets the motor idle.
    */
  function TrainOf(t: int, plan: RampPlan, ab: nat -> Abort, c0: nat): (tr: Train)
    ensures |tr.delays| + c0 >= tr.rampSteps + 1 && tr.rampSteps >= c0 && tr.delays[0] == 0
  {
    var up := RampUp(t, plan, ab, c0);
    var r := up.1;
    if ab(r) == HardAbort || ab(r) == CrashAbort then Train([0] + up.0, r, false)
    else
      var count := if ab(r) == SoftAbort then -1 else t - 2 * r;
      var cr := Cruise(plan, ab, r, count);
      var g := cr.1;
      if ab(g) == HardAbort || ab(g) == CrashAbort then Train([0] + up.0 + cr.0, r, true)
      else
        var total := if ab(g) == SoftAbort then g + r else t;
        Train([0] + up.0 + cr.0 + RampDown(plan, ab, g, total, 0), r, false)
  }

  ghost predicate NeverAborted(ab: nat -> Abort)
  {
    forall n: nat :: ab(n) == NoAbort
  }

  /** Ramp-up ends no later than the step that brings the count to half the total (and after at least one more step). */
  lemma {:induction false} RampUpEnds(t: int, plan: RampPlan, ab: nat -> Abort, g: nat)
    ensures var r := RampUp(t, plan, ab, g); r.1 <= Max(g + 1, (t + 1) / 2)
    ensures NeverAborted(ab) ==> RampUp(t, plan, ab, g).1 >= g + 1
    decreases if t - 2 * g > 0 then t - 2 * g else 0
  {
    if ab(g) == NoAbort && !(plan.capped(g) || 2 * (g + 1) >= t) {
      RampUpEnds(t, plan, ab, g + 1);
    }
  }

  lemma {:induction false} CruiseUnaborted(plan: RampPlan, ab: nat -> Abort, g: nat, count: int)
    requires NeverAborted(ab)
    ensures |Cruise(plan, ab, g, count).0| == Max(count, 0)
    decreases if count > 0 then count else 0
  {
    if count > 0 {
      CruiseUnaborted(plan, ab, g + 1, count - 1);
    }
  }

  lemma {:induction false} RampDownRuns(plan: RampPlan, ab: nat -> Abort, g: nat, total: int, j: nat)
    requires forall n: nat :: g <= n < total ==> ab(n) == NoAbort || ab(n) == SoftAbort
    ensures |RampDown(plan, ab, g, total, j)| == Max(total - g, 0)
    decreases if total - g > 0 then total - g else 0
  {
    if g < total {
      RampDownRuns(plan, ab, g + 1, total, j + 1);
    }
  }

  lemma {:induction false} RampDownAtMost(plan: RampPlan, ab: nat -> Abort, g: nat, total: int, j: nat)
    ensures |RampDown(plan, ab, g, total, j)| <= Max(total - g, 0)
    decreases if total - g > 0 then total - g else 0
  {
    if g < total && (ab(g) == NoAbort || ab(g) == SoftAbort) {
      RampDownAtMost(plan, ab, g + 1, total, j + 1);
    }
  }

  /** With no abort the train has exactly max(t, 2) steps and leaves the motor in fastwave. */
  lemma {:induction false} TrainUnaborted(t: int, plan: RampPlan, ab: nat -> Abort)
    requires NeverAborted(ab)
    ensures |TrainOf(t, plan, ab, 1).delays| == Max(t, 2) && !TrainOf(t, plan, ab, 1).idle
  {
    var up := RampUp(t, plan, ab, 1);
    RampUpEnds(t, plan, ab, 1);
    var r := up.1;
    assert ab(r) == NoAbort;
    var cr := Cruise(plan, ab, r, t - 2 * r);
    CruiseUnaborted(plan, ab, r, t - 2 * r);
    var g := cr.1;
    assert ab(g) == NoAbort;
    RampDownRuns(plan, ab, g, t, 0);
    if t < 2 {
      assert r == 2;
    }
  }

  /** When a cruise phase exists, ramp-down issues as many steps as ramp-up did. */
  lemma {:induction false} RampDownMirrorsRampUp(t: int, plan: RampPlan, ab: nat -> Abort)
    requires NeverAborted(ab)
    requires t > 2 * RampUp(t, plan, ab, 1).1
    ensures var r := RampUp(t, plan, ab, 1).1;
      var g := Cruise(plan, ab, r, t - 2 * r).1;
      |RampDown(plan, ab, g, t, 0)| == r
  {
    var r := RampUp(t, plan, ab, 1).1;
    CruiseUnaborted(plan, ab, r, t - 2 * r);
    var g := Cruise(plan, ab, r, t - 2 * r).1;
    RampDownRuns(plan, ab, g, t, 0);
  }

  /** The ramp-up loop, still running when the count reaches `k`, stops there when an abort first shows at `k`. */
  lemma {:induction false} RampUpReaches(t: int, plan: RampPlan, ab: nat -> Abort, g: nat, k: nat)
    requires 1 <= g <= k && ab(k) != NoAbort
    requires forall n: nat :: g <= n < k ==> ab(n) == NoAbort && !plan.capped(n)
    requires g == k || 2 * k < t
    ensures RampUp(t, plan, ab, g).1 == k
    decreases k - g
  {
    if g < k {
      RampUpReaches(t, plan, ab, g + 1, k);
    }
  }

  /** A soft stop first seen during ramp-up, after `k` steps, makes the whole train `2*k` steps. */
  lemma {:induction false} SoftStopInRampUp(t: int, plan: RampPlan, ab: nat -> Abort, k: nat)
    requires k >= 1
    requires forall n: nat :: n < k ==> ab(n) == NoAbort
    requires forall n: nat :: n >= k ==> ab(n) == SoftAbort
    requires forall n: nat :: 1 <= n < k ==> !plan.capped(n)
    requires k == 1 || 2 * k < t
    ensures |TrainOf(t, plan, ab, 1).delays| == 2 * k && !TrainOf(t, plan, ab, 1).idle
  {
    RampUpReaches(t, plan, ab, 1, k);
    var cr := Cruise(plan, ab, k, -1);
    assert cr == ([], k);
    RampDownRuns(plan, ab, k, 2 * k, 0);
  }

  /**
    * An abort never makes a train longer than max(t+1, 4) steps. It can
    * make it longer than the unaborted max(t, 2): a soft stop seen right
    * after the last ramp-up step makes the train twice the ramp-up, which is
    * t+1 for an odd t and 4 for t <= 2.
    */
  lemma {:induction false} TrainBound(t: int, plan: RampPlan, ab: nat -> Abort)
    ensures |TrainOf(t, plan, ab, 1).delays| <= Max(t + 1, 4)
  {
    var r := RampUp(t, plan, ab, 1).1;
    RampUpEnds(t, plan, ab, 1);
    HalfBound(t, r);
    var count := if ab(r) == SoftAbort then -1 else t - 2 * r;
    CruiseAtMost(plan, ab, r, count);
    var g := Cruise(plan, ab, r, count).1;
    var total := if ab(g) == SoftAbort then g + r else t;
    RampDownAtMost(plan, ab, g, total, 0);
    var n := |TrainOf(t, plan, ab, 1).delays|;
    TrainLength(t, plan, ab, r, g, total, n);
    TrainArith(t, r, g, n, ab(r) == SoftAbort, ab(g) == SoftAbort,
      ab(r) == HardAbort || ab(r) == CrashAbort, ab(g) == HardAbort || ab(g) == CrashAbort);
  }

  /** The arithmetic of `TrainBound`: ramp-up, cruise and ramp-down lengths against max(t+1, 4). */
  lemma {:induction false} TrainArith(t: int, r: int, g: int, n: int, softR: bool, softG: bool, stopR: bool, stopG: bool)
    requires 1 <= r <= g && 2 * r <= Max(t + 1, 4)
    requires softR ==> g == r
    requires !softR ==> g - r <= Max(t - 2 * r, 0)
    requires stopR ==> n == r
    requires !stopR && stopG ==> n == g
    requires !stopR && !stopG ==> n - g <= Max((if softG then g + r else t) - g, 0)
    ensures n <= Max(t + 1, 4)
  {
  }

  /** The length `n` of a train from its three phases: the step that ends each phase is where the count stands. */
  lemma {:induction false} TrainLength(t: int, plan: RampPlan, ab: nat -> Abort, r: nat, g: nat, total: int, n: int)
    requires r == RampUp(t, plan, ab, 1).1
    requires g == Cruise(plan, ab, r, if ab(r) == SoftAbort then -1 else t - 2 * r).1
    requires total == if ab(g) == SoftAbort then g + r else t
    requires n == |TrainOf(t, plan, ab, 1).delays|
    ensures ab(r) == HardAbort || ab(r) == CrashAbort ==> n == r
    ensures !(ab(r) == HardAbort || ab(r) == CrashAbort) && (ab(g) == HardAbort || ab(g) == CrashAbort) ==> n == g
    ensures !(ab(r) == HardAbort || ab(r) == CrashAbort) && !(ab(g) == HardAbort || ab(g) == CrashAbort) ==>
      n == g + |RampDown(plan, ab, g, total, 0)|
  {
  }

  /** A ramp-up that ends by half the total, doubled, stays within max(t+1, 4). */
  lemma {:induction false} HalfBound(t: int, r: int)
    requires r <= Max(2, (t + 1) / 2)
    ensures 2 * r <= Max(t + 1, 4)
  {
  }

  lemma {:induction false} CruiseAtMost(plan: RampPlan, ab: nat -> Abort, g: nat, count: int)
    ensures |Cruise(plan, ab, g, count).0| <= Max(count, 0)
    decreases if count > 0 then count else 0
  {
    if count > 0 && ab(g) == NoAbort {
      CruiseAtMost(plan, ab, g + 1, count - 1);
    }
  }

  /** The on/off yields of one step. */
  lemma {:induction false} PairsOne(d: int, mask: Mask, onTime: int)
    ensures Pairs([d], mask, onTime) == [WaveStep(mask, {}, d), WaveStep({}, mask, onTime)]
  {
    assert [d][1..] == [];
  }

  /** The ramp-up loop of `pulser` (entered after the first step): its yields and the count it ends at. */
  method RampUpLoop(t: int, plan: RampPlan, ab: nat -> Abort, c0: nat, mask: Mask, onTime: int) returns (out: seq<WaveStep>, g: nat)
    ensures out == Pairs(RampUp(t, plan, ab, c0).0, mask, onTime) && g == RampUp(t, plan, ab, c0).1
  {
    out := [];
    g := c0;
    ghost var ds: seq<int> := [];
    ghost var whole := RampUp(t, plan, ab, c0);
    var ramping := true;
    assert [] + whole.0 == whole.0;
    while ramping && ab(g) == NoAbort
      invariant g >= c0 && out == Pairs(ds, mask, onTime)
      invariant ramping ==> whole == (ds + RampUp(t, plan, ab, g).0, RampUp(t, plan, ab, g).1)
      invariant !ramping ==> whole == (ds, g)
      decreases ramping, if t - 2 * g > 0 then t - 2 * g else 0
    {
      var d := plan.upDelay(g);
      RampUpShift(t, plan, ab, g, ds, whole);
      PairsSnoc(ds, d, mask, onTime);
      ramping := !(plan.capped(g) || 2 * (g + 1) >= t);
      out := out + [WaveStep(mask, {}, d), WaveStep({}, mask, onTime)];
      ds := ds + [d];
      g := g + 1;
    }
    if ramping {
      assert RampUp(t, plan, ab, g) == ([], g);
      assert ds + [] == ds;
    }
  }

  /** One more step's on/off yields appended to those of the steps before it. */
  lemma {:induction false} PairsSnoc(ds: seq<int>, d: int, mask: Mask, onTime: int)
    ensures Pairs(ds + [d], mask, onTime) == Pairs(ds, mask, onTime) + [WaveStep(mask, {}, d), WaveStep({}, mask, onTime)]
  {
    PairsAppend(ds, [d], mask, onTime);
    PairsOne(d, mask, onTime);
  }

  /** One unaborted ramp-up step moves its delay from the pending ramp-up to the issued ones. */
  lemma {:induction false} RampUpShift(t: int, plan: RampPlan, ab: nat -> Abort, g: nat, ds: seq<int>, whole: (seq<int>, nat))
    requires ab(g) == NoAbort
    requires whole == (ds + RampUp(t, plan, ab, g).0, RampUp(t, plan, ab, g).1)
    ensures plan.capped(g) || 2 * (g + 1) >= t ==> whole == (ds + [plan.upDelay(g)], g + 1)
    ensures !(plan.capped(g) || 2 * (g + 1) >= t) ==>
      whole == ((ds + [plan.upDelay(g)]) + RampUp(t, plan, ab, g + 1).0, RampUp(t, plan, ab, g + 1).1)
  {
    var d := plan.upDelay(g);
    if !(plan.capped(g) || 2 * (g + 1) >= t) {
      var next := RampUp(t, plan, ab, g + 1);
      assert RampUp(t, plan, ab, g) == ([d] + next.0, next.1);
      assert ds + ([d] + next.0) == (ds + [d]) + next.0;
    }
  }

  /** The cruise loop of `pulser`: up to `count` steps at the cruise delay. */
  method CruiseLoop(plan: RampPlan, ab: nat -> Abort, g0: nat, count0: int, mask: Mask, onTime: int) returns (out: seq<WaveStep>, g: nat)
    ensures out == Pairs(Cruise(plan, ab, g0, count0).0, mask, onTime) && g == Cruise(plan, ab, g0, count0).1
  {
    out := [];
    g := g0;
    var count := count0;
    ghost var ds: seq<int> := [];
    assert ds + Cruise(plan, ab, g, count).0 == Cruise(plan, ab, g0, count0).0;
    while count > 0 && ab(g) == NoAbort
      invariant out == Pairs(ds, mask, onTime)
      invariant Cruise(plan, ab, g0, count0) == (ds + Cruise(plan, ab, g, count).0, Cruise(plan, ab, g, count).1)
      decreases if count > 0 then count else 0
    {
      count := count - 1;
      PairsSnoc(ds, plan.cruiseDelay, mask, onTime);
      CruiseShift(plan, ab, g, count, ds);
      out := out + [WaveStep(mask, {}, plan.cruiseDelay), WaveStep({}, mask, onTime)];
      ds := ds + [plan.cruiseDelay];
      g := g + 1;
    }
    assert Cruise(plan, ab, g, count) == ([], g);
    assert ds + [] == ds;
  }

  /** The ramp-down loop of `pulser`: steps until the count reaches `total`, unless a hard stop or crash shows. */
  method RampDownLoop(plan: RampPlan, ab: nat -> Abort, g0: nat, total: int, mask: Mask, onTime: int) returns (out: seq<WaveStep>, g: nat)
    ensures out == Pairs(RampDown(plan, ab, g0, total, 0), mask, onTime)
    ensures g == g0 + |RampDown(plan, ab, g0, total, 0)|
  {
    out := [];
    g := g0;
    var j: nat := 0;
    ghost var ds: seq<int> := [];
    while g < total && (ab(g) == NoAbort || ab(g) == SoftAbort)
      invariant out == Pairs(ds, mask, onTime) && g == g0 + |ds| && j == |ds|
      invariant RampDown(plan, ab, g0, total, 0) == ds + RampDown(plan, ab, g, total, j)
      decreases if total - g > 0 then total - g else 0
    {
      var d := plan.downDelay(j);
      PairsSnoc(ds, d, mask, onTime);
      RampDownShift(plan, ab, g, total, j, ds);
      out := out + [WaveStep(mask, {}, d), WaveStep({}, mask, onTime)];
      ds := ds + [d];
      g := g + 1;
      j := j + 1;
    }
    assert RampDown(plan, ab, g, total, j) == [];
    assert ds + [] == ds;
  }

  /** One unaborted cruise step moves its delay from the pending cruise to the issued ones. */
  lemma {:induction false} CruiseShift(plan: RampPlan, ab: nat -> Abort, g: nat, count: int, ds: seq<int>)
    requires count >= 0 && ab(g) == NoAbort
    ensures (ds + Cruise(plan, ab, g, count + 1).0, Cruise(plan, ab, g, count + 1).1)
      == ((ds + [plan.cruiseDelay]) + Cruise(plan, ab, g + 1, count).0, Cruise(plan, ab, g + 1, count).1)
  {
    var next := Cruise(plan, ab, g + 1, count);
    assert Cruise(plan, ab, g, count + 1) == ([plan.cruiseDelay] + next.0, next.1);
    assert ds + ([plan.cruiseDelay] + next.0) == (ds + [plan.cruiseDelay]) + next.0;
  }

  /** One ramp-down step moves its delay from the pending ramp-down to the issued ones. */
  lemma {:induction false} RampDownShift(plan: RampPlan, ab: nat -> Abort, g: nat, total: int, j: nat, ds: seq<int>)
    requires g < total && (ab(g) == NoAbort || ab(g) == SoftAbort)
    ensures ds + RampDown(plan, ab, g, total, j) == (ds + [plan.downDelay(j)]) + RampDown(plan, ab, g + 1, total, j + 1)
  {
    var next := RampDown(plan, ab, g + 1, total, j + 1);
    assert RampDown(plan, ab, g, total, j) == [plan.downDelay(j)] + next;
    assert ds + ([plan.downDelay(j)] + next) == (ds + [plan.downDelay(j)]) + next;
  }

  /**
    * `pulser` from its first yield to its end: the yields, the final step
    * count (`gensteps`) and whether it set the motor idle.
    */
  method PulseTrain(t: int, plan: RampPlan, ab: nat -> Abort, c0: nat, mask: Mask, onTime: int) returns (out: seq<WaveStep>, g: nat, idle: bool)
    ensures out == Pairs(TrainOf(t, plan, ab, c0).delays, mask, onTime)
    ensures g + 1 == c0 + |TrainOf(t, plan, ab, c0).delays| && idle == TrainOf(t, plan, ab, c0).idle
  {
    ghost var tr := TrainOf(t, plan, ab, c0);
    PairsOne(0, mask, onTime);
    out := [WaveStep(mask, {}, 0), WaveStep({}, mask, onTime)];
    var up, r := RampUpLoop(t, plan, ab, c0, mask, onTime);
    ghost var upd := RampUp(t, plan, ab, c0).0;
    PairsAppend([0], upd, mask, onTime);
    out := out + up;
    g := r;
    if ab(g) == HardAbort || ab(g) == CrashAbort {
      return out, g, false;
    }
    var count := t - 2 * g;
    if ab(g) == SoftAbort {
      count := -1;
    }
    var cruise, g2 := CruiseLoop(plan, ab, r, count, mask, onTime);
    ghost var crd := Cruise(plan, ab, r, count).0;
    PairsAppend([0] + upd, crd, mask, onTime);
    out := out + cruise;
    g := g2;
    if ab(g) == HardAbort || ab(g) == CrashAbort {
      return out, g, true;
    }
    var total := t;
    if ab(g) == SoftAbort {
      total := g + r;
    }
    var down, g3 := RampDownLoop(plan, ab, g, total, mask, onTime);
    PairsAppend([0] + upd + crd, RampDown(plan, ab, g, total, 0), mask, onTime);
    out := out + down;
    g := g3;
    idle := false;
  }

  /**
    * What `pulser` does after its mode check, from state `s0`: the
    * `maxsr > startsr` assertion, `_set_ms_mode_dir`, then the train of
    * `t = int(totalsteps / (16/warp))` steps with the drive enabled; the
    * motor ends in fastwave (or idle after a hard stop in the cruise) with
    * `gensteps` the number of steps issued.
    */
  ghost predicate TrainStarted(s0: MotorState, startsr: real, maxsr: real, totalSteps: int, onTime: int, forward: bool, warp: int,
                               plan: RampPlan, ab: nat -> Abort, s: MotorState, out: seq<WaveStep>, r: Result<()>)
  {
    if !(maxsr > startsr) then out == [] && r == Err(AssertionError) && s == s0
    else
      var m := MsModeDir(s0, warp, forward);
      if m.1.Err? then out == [] && r == m.1 && s == m.0
      else
        var tr := TrainOf(TruncDiv(totalSteps, MaxMicrosteps / warp), plan, ab, 1);
        r == Ok(()) && out == Pairs(tr.delays, PinBit(s0.pins.step), onTime)
        && s == m.0.(offset := 0, mode := if tr.idle then IdleMode else FastWave,
                     hw := m.0.hw + [SetPin(s0.pins.enable, 0)],
                     abort := ab(|tr.delays|), gensteps := |tr.delays|)
  }

  /** `pulsedone`: fold the train's steps into the position, clear the offset, go idle. */
  function Finished(s: MotorState, steps: int): (r: MotorState)
    requires s.maxval > 0
    ensures r.maxval == s.maxval && r.mode == IdleMode && r.offset == 0 && 0 <= r.position < s.maxval
  {
    s.(position := Wrap(s.position + steps * s.stepfactor, s.maxval), offset := 0, mode := IdleMode)
  }

  /**
    * Folding a finished train into the position moves it by the train's
    * steps, modulo `maxval`, and in fastwave the position `getpos` shows
    * after `pulsedone` is the one it showed after `pulsereached`.
    */
  lemma {:induction false} FinishedContinuous(s: MotorState, steps: int)
    requires s.maxval > 0
    ensures Finished(s, steps).position % s.maxval == (s.position + steps * s.stepfactor) % s.maxval
    ensures s.mode == FastWave ==> ShownPos(Finished(s, steps)) == ShownPos(s.(offset := steps * s.stepfactor))
  {
    var r := Finished(s, steps);
    assert r.position % s.maxval == (s.position + steps * s.stepfactor) % s.maxval;
  }

  datatype StopKind = Soft | Hard | Crash

  function StopAbort(k: StopKind): Abort
  {
    match k
    case Soft => SoftAbort
    case Hard => HardAbort
    case Crash => CrashAbort
  }

  /**
    * `softstop` / `hardstop` / `crashstop` of one motor, and whether the
    * motor is stopped on return. A fast train is only flagged to stop (and
    * only a soft stop reports a run-down to come); a slow move stops and an
    * idle motor has its drive disabled again.
    */
  function Stopping(s: MotorState, k: StopKind): (r: (MotorState, bool))
    ensures r.1 <==> !(k == Soft && s.mode == FastWave)
    ensures s.mode == FastWave ==> r.0 == s.(abort := StopAbort(k))
    ensures s.mode != FastWave ==> r.0 == SlowStopped(s)
    ensures r.0.position == s.position && r.0.maxval == s.maxval && r.0.mode != SlowStep
  {
    if s.mode == FastWave then (s.(abort := StopAbort(k)), k != Soft)
    else (SlowStopped(s), true)
  }

  /**
    * A stepper motor behind an A4988 driver (`motor`). Positions are in
    * sixteenth steps and wrap at `maxval`; `hw` logs the pin writes made
    * through the parent.
    */
  class Motor {
    var name: string
    var flipdir: bool
    var pins: DrivePins
    var mode: MotorMode
    var position: int
    var maxval: int
    var stepfactor: int
    var lastPulseOffset: int
    var slowStepsLeft: int
    var slowPulseTime: int
    var pulseAbort: Abort
    var gensteps: int
    var hw: seq<PinOp>

    ghost predicate Valid()
      reads this
    {
      maxval > 0
    }

    function State(): MotorState
      reads this
    {
      MotorState(name, flipdir, pins, mode, position, maxval, stepfactor, lastPulseOffset,
                 slowStepsLeft, slowPulseTime, pulseAbort, gensteps, hw)
    }

    /** A new motor is idle at position 0 with its drive disabled. */
    constructor (name: string, pins: DrivePins, maxval: int, flipdir: bool)
      requires maxval > 0
      ensures Valid()
      ensures State() == MotorState(name, flipdir, pins, IdleMode, 0, maxval, 0, 0, 0, 0, NoAbort, 0, [SetPin(pins.enable, 1)])
    {
      this.name := name;
      this.flipdir := flipdir;
      this.pins := pins;
      this.maxval := maxval;
      mode := IdleMode;
      position := 0;
      stepfactor := 0;
      lastPulseOffset := 0;
      slowStepsLeft := 0;
      slowPulseTime := 0;
      pulseAbort := NoAbort;
      gensteps := 0;
      hw := [SetPin(pins.enable, 1)];
    }

    /** `updatesettings`; `applied` is false when the mode refused the idle-only settings. */
    method UpdateSettings(newName: Option<string>, newMaxval: Option<int>, newFlipdir: Option<bool>, newPins: Option<DrivePins>)
      returns (applied: bool)
      requires Valid() && (newMaxval.Some? ==> newMaxval.value > 0)
      modifies this
      ensures Valid()
      ensures (State(), applied) == Resettled(old(State()), newName, newMaxval, newFlipdir, newPins)
    {
      if newName.Some? {
        name := newName.value;
      }
      applied := mode == IdleMode;
      if applied {
        Reconfigure(newMaxval, newFlipdir, newPins);
      }
    }

    /** The idle-only half of `updatesettings`. */
    method Reconfigure(newMaxval: Option<int>, newFlipdir: Option<bool>, newPins: Option<DrivePins>)
      requires maxval > 0 && (newMaxval.Some? ==> newMaxval.value > 0)
      modifies this
      ensures name == old(name) && mode == old(mode) && stepfactor == old(stepfactor) && lastPulseOffset == old(lastPulseOffset)
      ensures slowStepsLeft == old(slowStepsLeft) && slowPulseTime == old(slowPulseTime) && pulseAbort == old(pulseAbort) && gensteps == old(gensteps)
      ensures if newMaxval.Some? && newMaxval.value != old(maxval) then maxval == newMaxval.value && position == Wrap(old(position), maxval)
        else maxval == old(maxval) && position == old(position)
      ensures flipdir == if newFlipdir.Some? then newFlipdir.value else old(flipdir)
      ensures pins == if newPins.Some? then newPins.value else old(pins)
      ensures hw == old(hw) + if newPins.Some? then [SetPin(newPins.value.enable, 1)] else []
    {
      if newMaxval.Some? && newMaxval.value != maxval {
        maxval := newMaxval.value;
        position := Wrap(position, maxval);
      }
      if newFlipdir.Some? {
        flipdir := newFlipdir.value;
      }
      if newPins.Some? {
        pins := newPins.value;
        hw := hw + [SetPin(pins.enable, 1)];
      }
    }

    /** `incrementpos`: move and wrap into one turn. */
    method IncrementPos(change: int)
      requires Valid()
      modifies this
      ensures Valid()
      ensures State() == old(State()).(position := Wrap(old(position) + change, maxval))
    {
      position := (position + change) % maxval;
    }

    /** `getpos`. */
    method GetPos() returns (p: int)
      requires Valid()
      ensures p == ShownPos(State())
      ensures mode == FastWave ==> 0 <= p < maxval
    {
      if mode == FastWave {
        p := (position + lastPulseOffset) % maxval;
      } else {
        p := position;
      }
    }

    /**
      * `setpos` with the degrees already converted to steps: refused in
      * fastwave, otherwise the position is replaced as given (not wrapped).
      */
    method SetPos(steps: int) returns (ok: bool)
      requires Valid()
      modifies this
      ensures Valid()
      ensures ok <==> old(mode) != FastWave
      ensures State() == if ok then old(State()).(position := steps) else old(State())
    {
      if mode == FastWave {
        return false;
      }
      position := steps;
      ok := true;
    }

    /** `_set_ms_mode_dir`. */
    method SetMsModeDir(microsteps: int, forward: bool) returns (r: Result<()>)
      requires Valid()
      modifies this
      ensures Valid()
      ensures (State(), r) == MsModeDir(old(State()), microsteps, forward)
    {
      if microsteps !in MicrostepSet {
        return Err(TypeError);
      }
      var ops, ok := LevelWrites(pins.levels, MicrostepSet[microsteps]);
      hw := hw + ops;
      if !ok {
        return Err(IndexError);
      }
      hw := hw + [SetPin(pins.direction, DirPinValue(forward, flipdir))];
      stepfactor := MaxMicrosteps / microsteps;
      if !forward {
        stepfactor := -stepfactor;
      }
      r := Ok(());
    }

    /** `slowmovestop`. */
    method SlowMoveStop()
      modifies this
      ensures State() == SlowStopped(old(State()))
    {
      mode := IdleMode;
      hw := hw + [SetPin(pins.enable, 1)];
    }

    /** `slowmovetick`, without the scheduling of the next tick. */
    method SlowMoveTick()
      requires Valid()
      modifies this
      ensures Valid()
      ensures State() == SlowTick(old(State()))
    {
      if mode != SlowStep {
        return;
      }
      hw := hw + [Trigger(pins.step, slowPulseTime)];
      position := (position + stepfactor) % maxval;
      if slowStepsLeft > 0 {
        slowStepsLeft := slowStepsLeft - 1;
        if slowStepsLeft == 0 {
          SlowMoveStop();
          return;
        }
      }
    }

    /**
      * `slowmove`, corrected so that a finite move shorter than one issued
      * step does not start (as written it would count down from 0 and never
      * stop, see `ShortSlowMoveNeverEnds`). `Ok(false)` is a refusal: wrong
      * mode, or nothing to do. A started move issues its first step at once.
      */
    method SlowMove(stepRate: real, totalSteps: int, onTime: int, forward: bool, warp: int) returns (r: Result<bool>)
      requires Valid()
      modifies this
      ensures Valid()
      ensures old(mode) != IdleMode ==> r == Ok(false) && State() == old(State())
      ensures old(mode) == IdleMode ==>
        var m := MsModeDir(old(State()), warp, forward);
        if m.1.Err? then r == Err(m.1.error) && State() == m.0
        else
          var left := SlowStepsAsWritten(totalSteps, warp);
          if totalSteps > 0 && left == 0 then r == Ok(false) && State() == m.0
          else if stepRate == 0.0 then r == Err(ZeroDivisionError) && State() == m.0.(slowLeft := left)
          else r == Ok(true) && State() == SlowTick(m.0.(slowLeft := left, slowPulse := onTime, mode := SlowStep,
                                                         hw := m.0.hw + [SetPin(m.0.pins.enable, 0)]))
    {
      if mode != IdleMode {
        return Ok(false);
      }
      var e := SetMsModeDir(warp, forward);
      if e.Err? {
        return Err(e.error);
      }
      var left := if totalSteps > 0 then totalSteps * warp / MaxMicrosteps else -1;
      if totalSteps > 0 && left == 0 {
        return Ok(false);
      }
      slowStepsLeft := left;
      if stepRate == 0.0 {
        return Err(ZeroDivisionError);
      }
      slowPulseTime := onTime;
      hw := hw + [SetPin(pins.enable, 0)];
      mode := SlowStep;
      SlowMoveTick();
      r := Ok(true);
    }

    /**
      * `pulser`, run to its end with the aborts `ab` seen as the steps go
      * out. Refused in fastwave (an empty stream); a slow move is stopped
      * first; the train is `t = int(totalsteps / (16/warp))` steps long as
      * `TrainOf` describes, each step an on yield and an off yield.
      */
    method Pulser(startsr: real, maxsr: real, totalSteps: int, onTime: int, forward: bool, warp: int, plan: RampPlan, ab: nat -> Abort)
      returns (out: seq<WaveStep>, r: Result<()>)
      requires Valid()
      modifies this
      ensures Valid()
      ensures old(mode) == FastWave ==> out == [] && r == Ok(()) && State() == old(State())
      ensures old(mode) != FastWave ==>
        TrainStarted(if old(mode) == SlowStep then SlowStopped(old(State())) else old(State()),
                     startsr, maxsr, totalSteps, onTime, forward, warp, plan, ab, State(), out, r)
    {
      if mode == FastWave {
        return [], Ok(());
      }
      if mode == SlowStep {
        SlowMoveStop();
      }
      out, r := StartTrain(startsr, maxsr, totalSteps, onTime, forward, warp, plan, ab);
    }

    /** `pulser` once the mode check has passed. */
    method StartTrain(startsr: real, maxsr: real, totalSteps: int, onTime: int, forward: bool, warp: int, plan: RampPlan, ab: nat -> Abort)
      returns (out: seq<WaveStep>, r: Result<()>)
      requires Valid()
      modifies this
      ensures Valid()
      ensures TrainStarted(old(State()), startsr, maxsr, totalSteps, onTime, forward, warp, plan, ab, State(), out, r)
    {
      if !(maxsr > startsr) {
        return [], Err(AssertionError);
      }
      var e := SetMsModeDir(warp, forward);
      if e.Err? {
        return [], e;
      }
      var t := TruncDiv(totalSteps, MaxMicrosteps / warp);
      var g, idle;
      out, g, idle := PulseTrain(t, plan, ab, 1, PinBit(pins.step), onTime);
      BeginTrain(g, idle, ab(g));
      r := Ok(());
    }

    /** The motor's side of starting a step train of `g` steps: offset cleared, drive enabled, abort state and mode recorded. */
    method BeginTrain(g: nat, idle: bool, abort: Abort)
      requires Valid()
      modifies this
      ensures Valid()
      ensures State() == old(State()).(offset := 0, mode := if idle then IdleMode else FastWave,
                                       hw := old(hw) + [SetPin(pins.enable, 0)], abort := abort, gensteps := g)
    {
      lastPulseOffset := 0;
      mode := if idle then IdleMode else FastWave;
      hw := hw + [SetPin(pins.enable, 0)];
      gensteps := g;
      pulseAbort := abort;
    }

    /** `pulsereached`: the offset of the position the finished wave reached. */
    method PulseReached(steps: int)
      modifies this
      ensures State() == old(State()).(offset := steps * old(stepfactor))
    {
      lastPulseOffset := steps * stepfactor;
    }

    /** `pulsedone`. */
    method PulseDone(steps: int)
      requires Valid()
      modifies this
      ensures Valid()
      ensures State() == Finished(old(State()), steps)
    {
      IncrementPos(steps * stepfactor);
      lastPulseOffset := 0;
      mode := IdleMode;
    }

    /** `softstop`, `hardstop` and `crashstop`. */
    method Stop(k: StopKind) returns (done: bool)
      modifies this
      ensures (State(), done) == Stopping(old(State()), k)
    {
      if mode == FastWave {
        pulseAbort := StopAbort(k);
        return k != Soft;
      }
      if mode == SlowStep {
        SlowMoveStop();
      } else {
        hw := hw + [SetPin(pins.enable, 1)];
      }
      done := true;
    }
  }

  /** A step train handed to `multiPulse`, with the motor it drives. */
  datatype Stream = Stream(steps: seq<WaveStep>, id: string)

  /**
    * An entry of `nextpulses`: the time left until its bits are due, the
    * bits, the stream it reads and the index of that stream's next step.
    */
  datatype Lane = Lane(due: int, on: Mask, off: Mask, src: nat, next: nat)

  /** One yield of `multiPulse`: a merged step (or None at the end) and the motors whose trains just ended. */
  datatype MultiItem = MultiItem(step: Option<WaveStep>, done: Option<seq<string>>)

  /** The lane reads a stream of `ss` and has read at least its first step. */
  predicate LaneOk(ss: seq<Stream>, l: Lane)
  {
    l.src < |ss| && 1 <= l.next <= |ss[l.src].steps|
  }

  predicate LanesOk(ss: seq<Stream>, lanes: seq<Lane>)
  {
    forall i :: 0 <= i < |lanes| ==> LaneOk(ss, lanes[i])
  }

  function Side(w: WaveStep, on: bool): Mask
  {
    if on then w.on else w.off
  }

  /** The bits a round sets (`on`) or clears. */
  function RoundSide(rd: RoundOut, on: bool): Mask
  {
    if on then rd.on else rd.off
  }

  /** A pin edge at an absolute microsecond time: bit `pin` set (or cleared) at `time`. */
  datatype Edge = Edge(time: int, pin: nat)

  /** The edges of the bits of `m` fired at time `t`. */
  function Stamped(m: Mask, t: int): set<Edge>
  {
    set p | p in m :: Edge(t, p)
  }

  lemma {:induction false} StampedUnion(a: Mask, b: Mask, t: int)
    ensures Stamped(a + b, t) == Stamped(a, t) + Stamped(b, t)
  {
  }

  /**
    * The edges a train sets (`on`) or clears (`!on`): each step fires its
    * delay after the one before, the first its delay after `t`.
    */
  function StepEvents(steps: seq<WaveStep>, t: int, on: bool): set<Edge>
  {
    if steps == [] then {} else Stamped(Side(steps[0], on), t + steps[0].delay) + StepEvents(steps[1..], t + steps[0].delay, on)
  }

  /** The edges a lane has yet to fire, its time left counted from `now`: its pending step's and those of the rest of its stream. */
  function LaneEvents(ss: seq<Stream>, l: Lane, now: int, on: bool): set<Edge>
    requires l.src < |ss| && l.next <= |ss[l.src].steps|
  {
    Stamped(if on then l.on else l.off, now + l.due) + StepEvents(ss[l.src].steps[l.next..], now + l.due, on)
  }

  function LanesEvents(ss: seq<Stream>, lanes: seq<Lane>, now: int, on: bool): set<Edge>
    requires LanesOk(ss, lanes)
  {
    if lanes == [] then {} else LanesEvents(ss, lanes[..|lanes| - 1], now, on) + LaneEvents(ss, lanes[|lanes| - 1], now, on)
  }

  /** The lanes' stream indices, in order. */
  function Srcs(lanes: seq<Lane>): (r: seq<nat>)
    ensures |r| == |lanes|
  {
    if lanes == [] then [] else Srcs(lanes[..|lanes| - 1]) + [lanes[|lanes| - 1].src]
  }

  /** Every index of `srcs` names a stream of `ss`. */
  predicate SrcsIn(ss: seq<Stream>, srcs: seq<nat>)
  {
    forall i :: 0 <= i < |srcs| ==> srcs[i] < |ss|
  }

  /** The motor ids of the streams `srcs` names. */
  function IdsOf(ss: seq<Stream>, srcs: seq<nat>): (r: seq<string>)
    requires SrcsIn(ss, srcs)
    ensures |r| == |srcs|
  {
    if srcs == [] then [] else IdsOf(ss, srcs[..|srcs| - 1]) + [ss[srcs[|srcs| - 1]].id]
  }

  /** Steps still to read, one more per lane for its pending step. */
  function Pending(ss: seq<Stream>, lanes: seq<Lane>): nat
    requires LanesOk(ss, lanes)
  {
    if lanes == [] then 0
    else Pending(ss, lanes[..|lanes| - 1]) + (|ss[lanes[|lanes| - 1].src].steps| - lanes[|lanes| - 1].next + 1)
  }

  /** The smallest time left over the lanes. */
  function MinDue(lanes: seq<Lane>): (m: int)
    requires lanes != []
    ensures forall i :: 0 <= i < |lanes| ==> m <= lanes[i].due
    ensures exists i :: 0 <= i < |lanes| && lanes[i].due == m
  {
    var last := lanes[|lanes| - 1].due;
    if |lanes| == 1 then last
    else
      var m := MinDue(lanes[..|lanes| - 1]);
      if m <= last then m else last
  }

  /** The number of lanes due within `dt`. */
  function Fired(lanes: seq<Lane>, dt: int): nat
  {
    if lanes == [] then 0 else Fired(lanes[..|lanes| - 1], dt) + (if lanes[|lanes| - 1].due - dt <= 0 then 1 else 0)
  }

  /** One round's result so far: lanes kept, bits set and cleared, streams ended, and the next due time. */
  datatype RoundOut = RoundOut(kept: seq<Lane>, on: Mask, off: Mask, finished: seq<nat>, next: Option<int>)

  function MinWith(a: Option<int>, b: int): int
  {
    if a.Some? && a.value <= b then a.value else b
  }

  /**
    * The body of the round loop for one lane: take `dt` off its time left;
    * when that reaches 0 or less, OR in its bits and read its stream's next
    * step (or record the stream as ended); track the smallest time left.
    */
  function RoundStep(ss: seq<Stream>, acc: RoundOut, l: Lane, dt: int): RoundOut
    requires l.src < |ss| && l.next <= |ss[l.src].steps|
  {
    var due := l.due - dt;
    if due <= 0 then
      if l.next < |ss[l.src].steps| then
        var st := ss[l.src].steps[l.next];
        acc.(kept := acc.kept + [Lane(st.delay, st.on, st.off, l.src, l.next + 1)], on := acc.on + l.on, off := acc.off + l.off,
             next := Some(MinWith(acc.next, st.delay)))
      else acc.(on := acc.on + l.on, off := acc.off + l.off, finished := acc.finished + [l.src])
    else acc.(kept := acc.kept + [l.(due := due)], next := Some(MinWith(acc.next, due)))
  }

  /** One pass of `multiPulse`'s round loop over `nextpulses`. */
  function Round(ss: seq<Stream>, lanes: seq<Lane>, dt: int): RoundOut
    requires LanesOk(ss, lanes)
  {
    if lanes == [] then RoundOut([], {}, {}, [], None)
    else RoundStep(ss, Round(ss, lanes[..|lanes| - 1], dt), lanes[|lanes| - 1], dt)
  }

  /** What a round has built so far: valid lanes, ended streams, and the smallest time left as its next due time. */
  predicate RoundInv(ss: seq<Stream>, r: RoundOut)
  {
    LanesOk(ss, r.kept) && SrcsIn(ss, r.finished)
    && (r.next.None? <==> r.kept == [])
    && (r.kept != [] ==> r.next == Some(MinDue(r.kept)))
  }

  lemma {:induction false} StepKeeps(ss: seq<Stream>, acc: RoundOut, l: Lane, dt: int)
    requires LaneOk(ss, l) && RoundInv(ss, acc)
    ensures var r := RoundStep(ss, acc, l, dt);
      RoundInv(ss, r) && |r.kept| + |r.finished| == |acc.kept| + |acc.finished| + 1
  {
    var r := RoundStep(ss, acc, l, dt);
    var due := l.due - dt;
    if due > 0 {
      KeptSnoc(ss, acc, l.(due := due), r);
    } else if l.next < |ss[l.src].steps| {
      var st := ss[l.src].steps[l.next];
      KeptSnoc(ss, acc, Lane(st.delay, st.on, st.off, l.src, l.next + 1), r);
    } else {
      SrcsInAppend(ss, acc.finished, [l.src]);
    }
  }

  /** Keeping one more lane keeps the round's invariant, the lane's time left entering the running minimum. */
  lemma {:induction false} KeptSnoc(ss: seq<Stream>, acc: RoundOut, x: Lane, r: RoundOut)
    requires RoundInv(ss, acc) && LaneOk(ss, x)
    requires r.kept == acc.kept + [x] && r.next == Some(MinWith(acc.next, x.due)) && r.finished == acc.finished
    ensures RoundInv(ss, r)
  {
    var kept := r.kept;
    assert kept[..|kept| - 1] == acc.kept;
    assert LanesOk(ss, kept) by {
      forall i | 0 <= i < |kept|
        ensures LaneOk(ss, kept[i])
      {
        if i < |acc.kept| {
          assert kept[i] == acc.kept[i];
        }
      }
    }
  }

  /**
    * A round keeps every lane that is not exhausted, and the next due time
    * it yields is the smallest time left over the kept lanes (None, Python's
    * infinity, when none is kept).
    */
  lemma {:induction false} RoundKeeps(ss: seq<Stream>, lanes: seq<Lane>, dt: int)
    requires LanesOk(ss, lanes)
    ensures var r := Round(ss, lanes, dt);
      LanesOk(ss, r.kept) && |r.kept| + |r.finished| == |lanes|
      && SrcsIn(ss, r.finished)
      && (r.next.None? <==> r.kept == [])
      && (r.kept != [] ==> r.next == Some(MinDue(r.kept)))
  {
    if lanes != [] {
      var init := lanes[..|lanes| - 1];
      RoundKeeps(ss, init, dt);
      StepKeeps(ss, Round(ss, init, dt), lanes[|lanes| - 1], dt);
    }
  }

  /** Every lane due in the round uses up one pending step. */
  lemma {:induction false} RoundUsesUp(ss: seq<Stream>, lanes: seq<Lane>, dt: int)
    requires LanesOk(ss, lanes)
    ensures LanesOk(ss, Round(ss, lanes, dt).kept)
    ensures Pending(ss, Round(ss, lanes, dt).kept) + Fired(lanes, dt) == Pending(ss, lanes)
  {
    if lanes != [] {
      var init := lanes[..|lanes| - 1];
      RoundUsesUp(ss, init, dt);
      RoundKeeps(ss, init, dt);
      var a := Round(ss, init, dt);
      var r := Round(ss, lanes, dt);
      if r.kept != a.kept {
        assert r.kept[..|r.kept| - 1] == a.kept;
      }
    }
  }

  /** A lane due within `dt` fires. */
  lemma {:induction false} FiresDue(lanes: seq<Lane>, dt: int, i: nat)
    requires i < |lanes| && lanes[i].due <= dt
    ensures Fired(lanes, dt) >= 1
  {
    if i < |lanes| - 1 {
      FiresDue(lanes[..|lanes| - 1], dt, i);
    }
  }

  /** One lane of a round: it stays, or its stream is reported ended. */
  lemma {:induction false} StepSrcs(ss: seq<Stream>, acc: RoundOut, l: Lane, dt: int)
    requires LaneOk(ss, l)
    ensures var r := RoundStep(ss, acc, l, dt);
      multiset(Srcs(r.kept)) + multiset(r.finished) == multiset(Srcs(acc.kept)) + multiset(acc.finished) + multiset{l.src}
  {
    var r := RoundStep(ss, acc, l, dt);
    if r.kept != acc.kept {
      assert r.kept[..|r.kept| - 1] == acc.kept;
    } else {
      assert r.finished == acc.finished + [l.src];
    }
  }

  /** Each lane either stays or its stream is reported ended in this round. */
  lemma {:induction false} RoundSrcs(ss: seq<Stream>, lanes: seq<Lane>, dt: int)
    requires LanesOk(ss, lanes)
    ensures var r := Round(ss, lanes, dt); multiset(Srcs(r.kept)) + multiset(r.finished) == multiset(Srcs(lanes))
  {
    if lanes != [] {
      var init := lanes[..|lanes| - 1];
      RoundSrcs(ss, init, dt);
      StepSrcs(ss, Round(ss, init, dt), lanes[|lanes| - 1], dt);
    }
  }

  /**
    * The bits a round yields are exactly those of the lanes whose time left
    * reaches 0 or less within `dt`.
    */
  lemma {:induction false} RoundFires(ss: seq<Stream>, lanes: seq<Lane>, dt: int, on: bool, b: nat)
    requires LanesOk(ss, lanes)
    ensures var r := Round(ss, lanes, dt);
      b in (if on then r.on else r.off) <==> exists i :: 0 <= i < |lanes| && lanes[i].due <= dt && b in (if on then lanes[i].on else lanes[i].off)
  {
    if lanes != [] {
      var init := lanes[..|lanes| - 1];
      RoundFires(ss, init, dt, on, b);
      var l := lanes[|lanes| - 1];
      if exists i :: 0 <= i < |init| && init[i].due <= dt && b in (if on then init[i].on else init[i].off) {
        var i :| 0 <= i < |init| && init[i].due <= dt && b in (if on then init[i].on else init[i].off);
        assert lanes[i] == init[i];
      }
      if exists i :: 0 <= i < |lanes| && lanes[i].due <= dt && b in (if on then lanes[i].on else lanes[i].off) {
        var i :| 0 <= i < |lanes| && lanes[i].due <= dt && b in (if on then lanes[i].on else lanes[i].off);
        if i < |init| {
          assert init[i] == lanes[i];
        }
      }
    }
  }

  /**
    * One lane of a round run `dt` after `now`, when the lane is due no
    * earlier: the edges it fires at `now + dt` plus those it keeps are those
    * it had.
    */
  lemma {:induction false} StepEventsKept(ss: seq<Stream>, acc: RoundOut, l: Lane, dt: int, now: int, on: bool)
    requires LaneOk(ss, l) && LanesOk(ss, acc.kept) && dt <= l.due
    ensures var r := RoundStep(ss, acc, l, dt);
      LanesOk(ss, r.kept) &&
      Stamped(RoundSide(r, on), now + dt) + LanesEvents(ss, r.kept, now + dt, on)
      == Stamped(if on then acc.on else acc.off, now + dt) + LanesEvents(ss, acc.kept, now + dt, on) + LaneEvents(ss, l, now, on)
  {
    var steps := ss[l.src].steps;
    var before := Stamped(if on then acc.on else acc.off, now + dt);
    if l.due - dt > 0 {
      var w := l.(due := l.due - dt);
      assert RoundStep(ss, acc, l, dt).kept == acc.kept + [w];
      assert LaneEvents(ss, l, now, on) == LaneEvents(ss, w, now + dt, on);
      LanesSnoc(ss, acc.kept, w, now + dt, on);
    } else {
      var fired := Stamped(if on then l.on else l.off, now + dt);
      assert Stamped(if on then acc.on + l.on else acc.off + l.off, now + dt) == before + fired by {
        StampedUnion(if on then acc.on else acc.off, if on then l.on else l.off, now + dt);
      }
      if l.next < |steps| {
        var st := steps[l.next];
        var n := Lane(st.delay, st.on, st.off, l.src, l.next + 1);
        assert RoundStep(ss, acc, l, dt).kept == acc.kept + [n];
        assert LaneEvents(ss, l, now, on) == fired + LaneEvents(ss, n, now + dt, on) by {
          LaneFires(ss, l, now, on);
        }
        LanesSnoc(ss, acc.kept, n, now + dt, on);
      } else {
        assert RoundStep(ss, acc, l, dt).kept == acc.kept;
        assert LaneEvents(ss, l, now, on) == fired by {
          assert steps[l.next..] == [];
        }
      }
    }
  }

  /** A lane with a next step, timed from `t`, fires its bits when due, then what the lane on its next step fires. */
  lemma {:induction false} LaneFires(ss: seq<Stream>, l: Lane, t: int, on: bool)
    requires LaneOk(ss, l) && l.next < |ss[l.src].steps|
    ensures var st := ss[l.src].steps[l.next];
      LaneEvents(ss, l, t, on)
      == Stamped(if on then l.on else l.off, t + l.due) + LaneEvents(ss, Lane(st.delay, st.on, st.off, l.src, l.next + 1), t + l.due, on)
  {
    var rest := ss[l.src].steps[l.next..];
    assert rest[1..] == ss[l.src].steps[l.next + 1..];
  }

  /** The edges of lanes with one more at the end. */
  lemma {:induction false} LanesSnoc(ss: seq<Stream>, kept: seq<Lane>, x: Lane, t: int, on: bool)
    requires LanesOk(ss, kept) && LaneOk(ss, x)
    ensures LanesOk(ss, kept + [x]) && LanesEvents(ss, kept + [x], t, on) == LanesEvents(ss, kept, t, on) + LaneEvents(ss, x, t, on)
  {
    assert (kept + [x])[..|kept|] == kept;
  }

  /**
    * A round run `dt` after `now`, no lane being due earlier: the edges it
    * fires at `now + dt` plus those its kept lanes have yet to fire are
    * those the lanes had yet to fire.
    */
  lemma {:induction false} RoundEvents(ss: seq<Stream>, lanes: seq<Lane>, dt: int, now: int, on: bool)
    requires LanesOk(ss, lanes) && forall i :: 0 <= i < |lanes| ==> dt <= lanes[i].due
    ensures LanesOk(ss, Round(ss, lanes, dt).kept)
    ensures var r := Round(ss, lanes, dt);
      Stamped(RoundSide(r, on), now + dt) + LanesEvents(ss, r.kept, now + dt, on) == LanesEvents(ss, lanes, now, on)
  {
    if lanes != [] {
      var init := lanes[..|lanes| - 1];
      RoundEvents(ss, init, dt, now, on);
      StepEventsKept(ss, Round(ss, init, dt), lanes[|lanes| - 1], dt, now, on);
    }
  }

  /** There is always a lane due at the smallest time left. */
  lemma {:induction false} FiresMin(lanes: seq<Lane>)
    requires lanes != []
    ensures Fired(lanes, MinDue(lanes)) >= 1
  {
    var i :| 0 <= i < |lanes| && lanes[i].due == MinDue(lanes);
    FiresDue(lanes, MinDue(lanes), i);
  }

  /** The lanes name streams of `ss`. */
  lemma {:induction false} SrcsOk(ss: seq<Stream>, lanes: seq<Lane>)
    requires LanesOk(ss, lanes)
    ensures SrcsIn(ss, Srcs(lanes))
  {
    if lanes != [] {
      SrcsOk(ss, lanes[..|lanes| - 1]);
    }
  }

  /**
    * A round run at the smallest time left fires at least one lane, so it
    * uses up a pending step; the next time it yields is the smallest time
    * left over the lanes it keeps, or None when it keeps none.
    */
  lemma {:induction false} Progress(ss: seq<Stream>, lanes: seq<Lane>)
    requires LanesOk(ss, lanes) && lanes != []
    ensures var rd := Round(ss, lanes, MinDue(lanes));
      LanesOk(ss, rd.kept) && Pending(ss, rd.kept) < Pending(ss, lanes)
      && (SrcsIn(ss, rd.finished))
      && (rd.next.None? <==> rd.kept == []) && (rd.kept != [] ==> rd.next == Some(MinDue(rd.kept)))
  {
    RoundKeeps(ss, lanes, MinDue(lanes));
    RoundUsesUp(ss, lanes, MinDue(lanes));
    FiresMin(lanes);
  }

  /** The lanes `multiPulse` starts with: one per stream that yields a first step, in stream order. */
  function StartFrom(ss: seq<Stream>, n: nat): (lanes: seq<Lane>)
    requires n <= |ss|
    ensures LanesOk(ss, lanes)
  {
    if n == 0 then []
    else
      var init := StartFrom(ss, n - 1);
      var st := ss[n - 1].steps;
      if st == [] then init else init + [Lane(st[0].delay, st[0].on, st[0].off, n - 1, 1)]
  }

  function Start(ss: seq<Stream>): seq<Lane>
  {
    StartFrom(ss, |ss|)
  }

  /** The edges the first `n` streams set (`on`) or clear, every stream timed from 0. */
  function StreamEvents(ss: seq<Stream>, n: nat, on: bool): set<Edge>
    requires n <= |ss|
  {
    if n == 0 then {} else StreamEvents(ss, n - 1, on) + StepEvents(ss[n - 1].steps, 0, on)
  }

  /** The motor ids reported ended along a `multiPulse` output. */
  function DoneIds(items: seq<MultiItem>): seq<string>
  {
    if items == [] then [] else (if items[0].done.Some? then items[0].done.value else []) + DoneIds(items[1..])
  }

  /**
    * The edges set (`on`) or cleared along a `multiPulse` output whose first
    * yield fires at `t`, each later one the yielded delay after the one
    * before.
    */
  function OutEvents(items: seq<MultiItem>, t: int, on: bool): set<Edge>
  {
    if items == [] then {}
    else if items[0].step.Some? then Stamped(Side(items[0].step.value, on), t) + OutEvents(items[1..], t + items[0].step.value.delay, on)
    else OutEvents(items[1..], t, on)
  }

  /** The done part of a round's yield: None when no stream ended. */
  function DoneOf(ss: seq<Stream>, rd: RoundOut): Option<seq<string>>
    requires SrcsIn(ss, rd.finished)
  {
    if rd.finished == [] then None else Some(IdsOf(ss, rd.finished))
  }

  /**
    * What a round yields, as written: when no lane is left, only
    * `(None, ids)`, so the bits that round gathered are never yielded.
    */
  function YieldAsWritten(ss: seq<Stream>, rd: RoundOut): (r: seq<MultiItem>)
    requires SrcsIn(ss, rd.finished)
    ensures |r| == 1 && (r[0].step.None? <==> rd.next.None?)
  {
    if rd.next.None? then [MultiItem(None, Some(IdsOf(ss, rd.finished)))]
    else [MultiItem(Some(WaveStep(rd.on, rd.off, rd.next.value)), DoneOf(ss, rd))]
  }

  /**
    * What a round yields: its bits with the delay until the next lane is
    * due and the streams that ended; when no lane is left, its bits as a
    * step of delay 0 and then `(None, ids)`.
    */
  function Yield(ss: seq<Stream>, rd: RoundOut): (r: seq<MultiItem>)
    requires SrcsIn(ss, rd.finished)
    ensures |r| == (if rd.next.None? then 2 else 1) && r[0].step.Some?
    ensures rd.next.None? ==> r[1].step.None? && r[1].done.Some?
  {
    if rd.next.None? then [MultiItem(Some(WaveStep(rd.on, rd.off, 0)), None), MultiItem(None, Some(IdsOf(ss, rd.finished)))]
    else [MultiItem(Some(WaveStep(rd.on, rd.off, rd.next.value)), DoneOf(ss, rd))]
  }

  /** A round at the smallest time left uses up a pending step, and keeps no lane exactly when it has no next due time. */
  lemma {:induction false} Advances(ss: seq<Stream>, lanes: seq<Lane>)
    requires LanesOk(ss, lanes) && lanes != []
    ensures var rd := Round(ss, lanes, MinDue(lanes));
      LanesOk(ss, rd.kept) && Pending(ss, rd.kept) < Pending(ss, lanes)
      && SrcsIn(ss, rd.finished) && (rd.next.None? <==> rd.kept == [])
  {
    Progress(ss, lanes);
  }

  /** `multiPulse` from its current lanes, as written. */
  function MultiFromAsWritten(ss: seq<Stream>, lanes: seq<Lane>): (r: seq<MultiItem>)
    requires LanesOk(ss, lanes) && lanes != []
    ensures |r| >= 1
    decreases Pending(ss, lanes)
  {
    var rd := Round(ss, lanes, MinDue(lanes));
    Advances(ss, lanes);
    if rd.next.None? then YieldAsWritten(ss, rd) else YieldAsWritten(ss, rd) + MultiFromAsWritten(ss, rd.kept)
  }

  /** `multiPulse` from its current lanes, with the final round's bits yielded. */
  function MultiFrom(ss: seq<Stream>, lanes: seq<Lane>): (r: seq<MultiItem>)
    requires LanesOk(ss, lanes) && lanes != []
    ensures |r| >= 2 && r[0].step.Some?
    decreases Pending(ss, lanes)
  {
    var rd := Round(ss, lanes, MinDue(lanes));
    Advances(ss, lanes);
    if rd.next.None? then Yield(ss, rd) else Yield(ss, rd) + MultiFrom(ss, rd.kept)
  }

  /** One round of `multiPulse`, and the rest. */
  lemma {:induction false} MultiUnfold(ss: seq<Stream>, lanes: seq<Lane>)
    requires LanesOk(ss, lanes) && lanes != []
    ensures var rd := Round(ss, lanes, MinDue(lanes));
      LanesOk(ss, rd.kept) && Pending(ss, rd.kept) < Pending(ss, lanes)
      && (SrcsIn(ss, rd.finished))
      && (rd.next.None? <==> rd.kept == []) && (rd.kept != [] ==> rd.next == Some(MinDue(rd.kept)))
      && MultiFrom(ss, lanes) == Yield(ss, rd) + if rd.kept == [] then [] else MultiFrom(ss, rd.kept)
  {
    Progress(ss, lanes);
    var rd := Round(ss, lanes, MinDue(lanes));
    if rd.kept == [] {
      assert Yield(ss, rd) + [] == Yield(ss, rd);
    }
  }

  lemma {:induction false} DoneIdsAppend(a: seq<MultiItem>, b: seq<MultiItem>)
    ensures DoneIds(a + b) == DoneIds(a) + DoneIds(b)
  {
    if a != [] {
      assert (a + b)[1..] == a[1..] + b;
      DoneIdsAppend(a[1..], b);
    } else {
      assert a + b == b;
    }
  }

  /** Exactly the last item `multiPulse` yields lacks a step, and it carries the ids of the trains that ended. */
  lemma {:induction false} MultiSteps(ss: seq<Stream>, lanes: seq<Lane>)
    requires LanesOk(ss, lanes) && lanes != []
    ensures var r := MultiFrom(ss, lanes);
      (forall i :: 0 <= i < |r| - 1 ==> r[i].step.Some?) && Last(r).step.None? && Last(r).done.Some?
    decreases Pending(ss, lanes)
  {
    var rd := Round(ss, lanes, MinDue(lanes));
    MultiUnfold(ss, lanes);
    var y := Yield(ss, rd);
    if rd.kept != [] {
      var rest := MultiFrom(ss, rd.kept);
      MultiSteps(ss, rd.kept);
      StepsCons(y, rest);
      LastAppend(y, rest);
    }
  }

  /** An item with a step put in front of items whose only stepless one is the last keeps that shape. */
  lemma {:induction false} StepsCons(y: seq<MultiItem>, rest: seq<MultiItem>)
    requires |y| == 1 && y[0].step.Some? && rest != []
    requires forall i :: 0 <= i < |rest| - 1 ==> rest[i].step.Some?
    ensures var r := y + rest; forall i :: 0 <= i < |r| - 1 ==> r[i].step.Some?
  {
    var r := y + rest;
    forall i | 0 <= i < |r| - 1
      ensures r[i].step.Some?
    {
      if i > 0 {
        assert r[i] == rest[i - 1];
      }
    }
  }

  /** The merge as written also ends with its only stepless item. */
  lemma {:induction false} MultiEndsAsWritten(ss: seq<Stream>, lanes: seq<Lane>)
    requires LanesOk(ss, lanes) && lanes != []
    ensures Last(MultiFromAsWritten(ss, lanes)).step.None?
    decreases Pending(ss, lanes)
  {
    var rd := Round(ss, lanes, MinDue(lanes));
    Advances(ss, lanes);
    var y := YieldAsWritten(ss, rd);
    if rd.next.Some? {
      var rest := MultiFromAsWritten(ss, rd.kept);
      MultiEndsAsWritten(ss, rd.kept);
      LastAppend(y, rest);
    }
  }

  /** `multiPulse`: a RuntimeError (a StopIteration raised in a generator) when no stream yields anything. */
  function MultiOut(ss: seq<Stream>): Result<seq<MultiItem>>
  {
    if Start(ss) == [] then Err(RuntimeError) else Ok(MultiFrom(ss, Start(ss)))
  }

  lemma {:induction false} IdsAppend(ss: seq<Stream>, a: seq<nat>, b: seq<nat>)
    requires SrcsIn(ss, a)
    requires SrcsIn(ss, b)
    ensures IdsOf(ss, a + b) == IdsOf(ss, a) + IdsOf(ss, b)
    decreases |b|
  {
    if b != [] {
      var b0 := b[..|b| - 1];
      assert (a + b)[..|a + b| - 1] == a + b0;
      assert (a + b)[|a + b| - 1] == b[|b| - 1];
      IdsAppend(ss, a, b0);
      assert IdsOf(ss, a + b) == IdsOf(ss, a + b0) + [ss[b[|b| - 1]].id];
    } else {
      assert a + b == a;
    }
  }

  /** A sequence holding `x` is some sequence, then `x`, then some sequence. */
  lemma {:induction false} Split(b: seq<nat>, x: nat) returns (b1: seq<nat>, b2: seq<nat>)
    requires x in multiset(b)
    ensures b == b1 + [x] + b2
  {
    var j :| 0 <= j < |b| && b[j] == x;
    b1, b2 := b[..j], b[j + 1..];
    assert b == b1 + [x] + b2;
  }

  lemma {:induction false} MovedLast(b1: seq<nat>, x: nat, b2: seq<nat>)
    ensures multiset(b1 + [x] + b2) == multiset(b1 + b2 + [x])
  {
    calc {
      multiset(b1 + [x] + b2);
      multiset(b1) + multiset{x} + multiset(b2);
      multiset(b1 + b2 + [x]);
    }
  }

  lemma {:induction false} DropLast(a: seq<nat>, b: seq<nat>, x: nat)
    requires multiset(a + [x]) == multiset(b + [x])
    ensures multiset(a) == multiset(b)
  {
    calc {
      multiset(a);
      multiset(a + [x]) - multiset{x};
      multiset(b + [x]) - multiset{x};
      multiset(b);
    }
  }

  /** Streams listed in any order give the same ids, counted with multiplicity. */
  lemma {:induction false} IdsPerm(ss: seq<Stream>, a: seq<nat>, b: seq<nat>)
    requires SrcsIn(ss, a) && SrcsIn(ss, b)
    requires multiset(a) == multiset(b)
    ensures multiset(IdsOf(ss, a)) == multiset(IdsOf(ss, b))
    decreases |a|
  {
    if a == [] {
      assert |b| == |multiset(b)| == 0;
    } else {
      var x := a[|a| - 1];
      var a0 := a[..|a| - 1];
      assert a == a0 + [x];
      assert x in multiset(a);
      var b1, b2 := Split(b, x);
      var b0 := b1 + b2;
      MovedLast(b1, x, b2);
      DropLast(a0, b0, x);
      assert SrcsIn(ss, b1) && SrcsIn(ss, b2) by {
        forall i | 0 <= i < |b1| ensures b1[i] < |ss| { assert b1[i] == b[i]; }
        forall i | 0 <= i < |b2| ensures b2[i] < |ss| { assert b2[i] == b[|b1| + 1 + i]; }
      }
      IdsPerm(ss, a0, b0);
      IdsSplit(ss, b1, x, b2);
      IdsSplit(ss, a0, x, []);
      assert a0 + [x] + [] == a;
    }
  }

  /** The ids of `b1 + [x] + b2` are those of `b1 + b2` with the id of `x`. */
  lemma {:induction false} IdsSplit(ss: seq<Stream>, b1: seq<nat>, x: nat, b2: seq<nat>)
    requires SrcsIn(ss, b1) && SrcsIn(ss, b2) && x < |ss|
    ensures SrcsIn(ss, b1 + b2) && SrcsIn(ss, b1 + [x] + b2)
    ensures multiset(IdsOf(ss, b1 + [x] + b2)) == multiset(IdsOf(ss, b1 + b2)) + multiset{ss[x].id}
  {
    SrcsInAppend(ss, b1, b2);
    SrcsInAppend(ss, b1, [x]);
    SrcsInAppend(ss, b1 + [x], b2);
    IdsAppend(ss, b1, b2);
    IdsAppend(ss, b1 + [x], b2);
    IdsAppend(ss, b1, [x]);
    var i1, i2 := IdsOf(ss, b1), IdsOf(ss, b2);
    assert IdsOf(ss, [x]) == [ss[x].id];
    assert IdsOf(ss, b1 + [x] + b2) == i1 + [ss[x].id] + i2;
    assert multiset(i1 + [ss[x].id] + i2) == multiset(i1) + multiset{ss[x].id} + multiset(i2);
  }

  lemma {:induction false} SrcsInAppend(ss: seq<Stream>, a: seq<nat>, b: seq<nat>)
    requires SrcsIn(ss, a) && SrcsIn(ss, b)
    ensures SrcsIn(ss, a + b)
  {
    forall i | 0 <= i < |a + b|
      ensures (a + b)[i] < |ss|
    {
      if i < |a| {
        assert (a + b)[i] == a[i];
      } else {
        assert (a + b)[i] == b[i - |a|];
      }
    }
  }

  lemma {:induction false} YieldDone(ss: seq<Stream>, rd: RoundOut)
    requires SrcsIn(ss, rd.finished)
    ensures DoneIds(Yield(ss, rd)) == IdsOf(ss, rd.finished)
  {
    var y := Yield(ss, rd);
    if rd.next.None? {
      assert y[1..][1..] == [];
      assert DoneIds(y[1..]) == IdsOf(ss, rd.finished) + DoneIds([]);
    } else {
      assert y[1..] == [];
      if rd.finished == [] {
        assert IdsOf(ss, rd.finished) == [];
      }
    }
  }

  /** The ids of the streams a round ends and of the lanes it keeps are those of the lanes it ran. */
  lemma {:induction false} RoundIds(ss: seq<Stream>, lanes: seq<Lane>, dt: int)
    requires LanesOk(ss, lanes)
    ensures var rd := Round(ss, lanes, dt);
      LanesOk(ss, rd.kept)
      && (SrcsIn(ss, rd.finished))
      && (SrcsIn(ss, Srcs(rd.kept)))
      && (SrcsIn(ss, Srcs(lanes)))
      && multiset(IdsOf(ss, rd.finished)) + multiset(IdsOf(ss, Srcs(rd.kept))) == multiset(IdsOf(ss, Srcs(lanes)))
  {
    var rd := Round(ss, lanes, dt);
    RoundKeeps(ss, lanes, dt);
    RoundSrcs(ss, lanes, dt);
    SrcsOk(ss, lanes);
    SrcsOk(ss, rd.kept);
    var fin, ks := rd.finished, Srcs(rd.kept);
    assert multiset(fin + ks) == multiset(Srcs(lanes));
    IdsPerm(ss, fin + ks, Srcs(lanes));
    IdsAppend(ss, fin, ks);
  }

  /** Every stream `multiPulse` reads is reported ended exactly once. */
  lemma {:induction false} MultiDoneOnce(ss: seq<Stream>, lanes: seq<Lane>)
    requires LanesOk(ss, lanes) && lanes != []
    ensures SrcsIn(ss, Srcs(lanes))
    ensures multiset(DoneIds(MultiFrom(ss, lanes))) == multiset(IdsOf(ss, Srcs(lanes)))
    decreases Pending(ss, lanes)
  {
    var rd := Round(ss, lanes, MinDue(lanes));
    MultiUnfold(ss, lanes);
    RoundIds(ss, lanes, MinDue(lanes));
    var y := Yield(ss, rd);
    YieldDone(ss, rd);
    if rd.kept == [] {
      assert IdsOf(ss, Srcs(rd.kept)) == [];
      assert y + [] == y;
    } else {
      MultiDoneOnce(ss, rd.kept);
      DoneIdsAppend(y, MultiFrom(ss, rd.kept));
    }
  }

  /**
    * `multiPulse`'s output from lanes whose times left count from `now`,
    * its first yield at the smallest of them, fires every edge the lanes
    * have yet to fire, at that edge's time, and no other.
    */
  predicate Conserves(ss: seq<Stream>, lanes: seq<Lane>, now: int, on: bool)
    requires LanesOk(ss, lanes) && lanes != []
  {
    MergedEvents(ss, lanes, now, on) == OwedEvents(ss, lanes, now, on)
  }

  /** The edges the corrected merge fires from `lanes`, its first yield at the smallest time left. */
  function MergedEvents(ss: seq<Stream>, lanes: seq<Lane>, now: int, on: bool): set<Edge>
    requires LanesOk(ss, lanes) && lanes != []
  {
    OutEvents(MultiFrom(ss, lanes), now + MinDue(lanes), on)
  }

  /** The edges `lanes` have yet to fire, timed from `now`. */
  function OwedEvents(ss: seq<Stream>, lanes: seq<Lane>, now: int, on: bool): set<Edge>
    requires LanesOk(ss, lanes)
  {
    LanesEvents(ss, lanes, now, on)
  }

  /** The corrected merge conserves the edges of any lanes, by induction on what they have left. */
  lemma {:induction false} OutConserve(ss: seq<Stream>, lanes: seq<Lane>, now: int, on: bool)
    requires LanesOk(ss, lanes) && lanes != []
    ensures Conserves(ss, lanes, now, on)
    decreases Pending(ss, lanes), 1
  {
    if Round(ss, lanes, MinDue(lanes)).kept == [] {
      LastConserve(ss, lanes, now, on);
    } else {
      KeptConserve(ss, lanes, now, on);
    }
  }

  /** `OutConserve` when the first round keeps a lane: first for the lanes it keeps, then for all. */
  lemma {:induction false} KeptConserve(ss: seq<Stream>, lanes: seq<Lane>, now: int, on: bool)
    requires LanesOk(ss, lanes) && lanes != [] && Round(ss, lanes, MinDue(lanes)).kept != []
    ensures Conserves(ss, lanes, now, on)
    decreases Pending(ss, lanes), 0
  {
    var dt := MinDue(lanes);
    var rd := Round(ss, lanes, dt);
    assert LanesOk(ss, rd.kept) && Pending(ss, rd.kept) < Pending(ss, lanes) by {
      Advances(ss, lanes);
    }
    OutConserve(ss, rd.kept, now + dt, on);
    NextConserve(ss, lanes, rd, dt, now, now + dt, on);
  }

  /** `OutConserve` when the first round keeps no lane. */
  lemma {:induction false} LastConserve(ss: seq<Stream>, lanes: seq<Lane>, now: int, on: bool)
    requires LanesOk(ss, lanes) && lanes != [] && Round(ss, lanes, MinDue(lanes)).kept == []
    ensures Conserves(ss, lanes, now, on)
  {
    MultiUnfold(ss, lanes);
    var rd := Round(ss, lanes, MinDue(lanes));
    assert MultiFrom(ss, lanes) == Yield(ss, rd) + [];
    assert Yield(ss, rd) + [] == Yield(ss, rd);
    LastRoundEvents(ss, lanes, rd, MinDue(lanes), now, on);
  }

  /**
    * `OutConserve` from the same statement for the lanes the first round,
    * `rd`, keeps; that round fires at `t`.
    */
  lemma {:induction false} NextConserve(ss: seq<Stream>, lanes: seq<Lane>, rd: RoundOut, dt: int, now: int, t: int, on: bool)
    requires LanesOk(ss, lanes) && lanes != [] && dt == MinDue(lanes) && rd == Round(ss, lanes, dt) && t == now + dt
    requires rd.kept != [] && LanesOk(ss, rd.kept) && Conserves(ss, rd.kept, t, on)
    ensures Conserves(ss, lanes, now, on)
  {
    MergedStep(ss, lanes, rd, dt, now, t, on);
    OwedStep(ss, lanes, rd, dt, now, t, on);
  }

  /**
    * The merge fires the first round's edges at `t` and then what it fires
    * from the lanes that round keeps.
    */
  lemma {:induction false} MergedStep(ss: seq<Stream>, lanes: seq<Lane>, rd: RoundOut, dt: int, now: int, t: int, on: bool)
    requires LanesOk(ss, lanes) && lanes != [] && dt == MinDue(lanes) && rd == Round(ss, lanes, dt) && t == now + dt
    requires rd.kept != [] && LanesOk(ss, rd.kept)
    ensures MergedEvents(ss, lanes, now, on) == Stamped(RoundSide(rd, on), t) + MergedEvents(ss, rd.kept, t, on)
  {
    var all, rest, m := NextRound(ss, lanes, rd, dt);
    var later := t + m;
    YieldEventsMore(ss, rd, m, rest, all, t, later, on);
    MergedIs(ss, lanes, now, t, all, on);
    MergedIs(ss, rd.kept, t, later, rest, on);
  }

  /**
    * The output from `lanes`, `all`, is the first round's yield followed by
    * `rest`, the output from the lanes it keeps, and `m` is the delay to
    * their first yield.
    */
  lemma {:induction false} NextRound(ss: seq<Stream>, lanes: seq<Lane>, rd: RoundOut, dt: int) returns (all: seq<MultiItem>, rest: seq<MultiItem>, m: int)
    requires LanesOk(ss, lanes) && lanes != [] && dt == MinDue(lanes) && rd == Round(ss, lanes, dt)
    requires rd.kept != [] && LanesOk(ss, rd.kept)
    ensures all == MultiFrom(ss, lanes) && rest == MultiFrom(ss, rd.kept) && m == MinDue(rd.kept)
    ensures SrcsIn(ss, rd.finished) && rd.next == Some(m) && all == Yield(ss, rd) + rest
  {
    MultiUnfold(ss, lanes);
    all, rest, m := MultiFrom(ss, lanes), MultiFrom(ss, rd.kept), MinDue(rd.kept);
  }

  /** `MergedEvents` unfolded: the edges of the output `out`, its first yield at `first`. */
  lemma {:induction false} MergedIs(ss: seq<Stream>, lanes: seq<Lane>, now: int, first: int, out: seq<MultiItem>, on: bool)
    requires LanesOk(ss, lanes) && lanes != [] && first == now + MinDue(lanes) && out == MultiFrom(ss, lanes)
    ensures MergedEvents(ss, lanes, now, on) == OutEvents(out, first, on)
  {
  }

  /**
    * What the lanes owe is the first round's edges at `t` and then what the
    * lanes that round keeps owe.
    */
  lemma {:induction false} OwedStep(ss: seq<Stream>, lanes: seq<Lane>, rd: RoundOut, dt: int, now: int, t: int, on: bool)
    requires LanesOk(ss, lanes) && lanes != [] && dt == MinDue(lanes) && rd == Round(ss, lanes, dt) && t == now + dt
    requires LanesOk(ss, rd.kept)
    ensures OwedEvents(ss, lanes, now, on) == Stamped(RoundSide(rd, on), t) + OwedEvents(ss, rd.kept, t, on)
  {
    RoundEvents(ss, lanes, dt, now, on);
  }

  /** The last round: its yield fires what the lanes had yet to fire. */
  lemma {:induction false} LastRoundEvents(ss: seq<Stream>, lanes: seq<Lane>, rd: RoundOut, dt: int, now: int, on: bool)
    requires LanesOk(ss, lanes) && (forall i :: 0 <= i < |lanes| ==> dt <= lanes[i].due) && rd == Round(ss, lanes, dt)
    requires SrcsIn(ss, rd.finished) && rd.next.None? && rd.kept == []
    ensures OutEvents(Yield(ss, rd), now + dt, on) == LanesEvents(ss, lanes, now, on)
  {
    YieldEventsLast(ss, rd, now + dt, on);
    RoundEvents(ss, lanes, dt, now, on);
  }

  /** The last round's yield fires its bits at `t` and then nothing. */
  lemma {:induction false} YieldEventsLast(ss: seq<Stream>, rd: RoundOut, t: int, on: bool)
    requires SrcsIn(ss, rd.finished) && rd.next.None?
    ensures OutEvents(Yield(ss, rd), t, on) == Stamped(RoundSide(rd, on), t)
  {
    var y := Yield(ss, rd);
    assert y[1..][1..] == [];
    assert OutEvents(y[1..], t, on) == {};
  }

  /** Any other round's yield fires its bits at `t`, and what follows it fires the next due time later. */
  lemma {:induction false} YieldEventsMore(ss: seq<Stream>, rd: RoundOut, m: int, rest: seq<MultiItem>, all: seq<MultiItem>, t: int, later: int, on: bool)
    requires SrcsIn(ss, rd.finished) && rd.next == Some(m) && all == Yield(ss, rd) + rest && later == t + m
    ensures OutEvents(all, t, on) == Stamped(RoundSide(rd, on), t) + OutEvents(rest, later, on)
  {
    assert all[1..] == rest;
  }

  /** The starting lanes, timed from 0, hold between them every edge of every stream. */
  lemma {:induction false} StartEvents(ss: seq<Stream>, n: nat, on: bool)
    requires n <= |ss|
    ensures LanesEvents(ss, StartFrom(ss, n), 0, on) == StreamEvents(ss, n, on)
  {
    if n > 0 {
      StartEvents(ss, n - 1, on);
      var init := StartFrom(ss, n - 1);
      var st := ss[n - 1].steps;
      if st != [] {
        assert (init + [Lane(st[0].delay, st[0].on, st[0].off, n - 1, 1)])[..|init|] == init;
        assert st[1..] == st[1..];
      }
    }
  }

  /**
    * `multiPulse` merges its streams firing every edge of every stream at
    * its time and no other edge, its output timed from the earliest first
    * delay, and reports each stream that yields anything as ended exactly
    * once.
    */
  lemma {:induction false} MultiConserves(ss: seq<Stream>, on: bool)
    requires Start(ss) != []
    ensures MultiOut(ss).Ok?
    ensures OutEvents(MultiOut(ss).value, MinDue(Start(ss)), on) == StreamEvents(ss, |ss|, on)
    ensures SrcsIn(ss, Srcs(Start(ss)))
    ensures multiset(DoneIds(MultiOut(ss).value)) == multiset(IdsOf(ss, Srcs(Start(ss))))
  {
    var lanes := Start(ss);
    assert MultiOut(ss) == Ok(MultiFrom(ss, lanes));
    OutConserve(ss, lanes, 0, on);
    assert Conserves(ss, lanes, 0, on);
    StartEvents(ss, |ss|, on);
    MultiDoneOnce(ss, Start(ss));
    SrcsOk(ss, Start(ss));
  }

  /**
    * As written, a motor whose last step clears its step pin loses that
    * clear: one stream setting pin 5 and clearing it 10 microseconds later
    * yields the set but never the clear, so the as-written merge breaks
    * `MultiConserves`' statement.
    */
  lemma {:induction false} FinalClearDropped()
    ensures var ss := [Stream([WaveStep({5}, {}, 0), WaveStep({}, {5}, 10)], "ra")];
      MultiFromAsWritten(ss, Start(ss)) == [MultiItem(Some(WaveStep({5}, {}, 10)), None), MultiItem(None, Some(["ra"]))]
      && Edge(10, 5) in StreamEvents(ss, 1, false)
      && OutEvents(MultiFromAsWritten(ss, Start(ss)), MinDue(Start(ss)), false) == {}
  {
    FinalClearOutput();
    FinalClearNotYielded();
    FinalClearInStream();
  }

  lemma {:induction false} FinalClearNotYielded()
    ensures OutEvents([MultiItem(Some(WaveStep({5}, {}, 10)), None), MultiItem(None, Some(["ra"]))], 0, false) == {}
  {
    var out := [MultiItem(Some(WaveStep({5}, {}, 10)), None), MultiItem(None, Some(["ra"]))];
    assert out[1..][1..] == [];
    assert Stamped({}, 0) == {};
  }

  lemma {:induction false} FinalClearInStream()
    ensures Edge(10, 5) in StreamEvents([Stream([WaveStep({5}, {}, 0), WaveStep({}, {5}, 10)], "ra")], 1, false)
  {
    var st := [WaveStep({5}, {}, 0), WaveStep({}, {5}, 10)];
    assert st[1..][1..] == [];
    assert Edge(10, 5) in Stamped({5}, 10);
    assert Edge(10, 5) in StepEvents(st[1..], 0, false);
  }

  /** The as-written output on `FinalClearDropped`'s stream. */
  lemma {:induction false} FinalClearOutput()
    ensures var ss := [Stream([WaveStep({5}, {}, 0), WaveStep({}, {5}, 10)], "ra")];
      MultiFromAsWritten(ss, Start(ss)) == [MultiItem(Some(WaveStep({5}, {}, 10)), None), MultiItem(None, Some(["ra"]))]
      && MinDue(Start(ss)) == 0
  {
    var ss := [Stream([WaveStep({5}, {}, 0), WaveStep({}, {5}, 10)], "ra")];
    var l0 := Lane(0, {5}, {}, 0, 1);
    assert Start(ss) == [l0];
    var l1 := Lane(10, {}, {5}, 0, 2);
    assert Round(ss, [l0], 0) == RoundStep(ss, Round(ss, [], 0), l0, 0);
    assert Round(ss, [l0], 0) == RoundOut([l1], {5}, {}, [], Some(10));
    assert Round(ss, [l1], 10) == RoundStep(ss, Round(ss, [], 10), l1, 10);
    assert Round(ss, [l1], 10) == RoundOut([], {}, {5}, [0], None);
    assert IdsOf(ss, [0]) == ["ra"];
    assert MinDue([l0]) == 0 && MinDue([l1]) == 10;
    var last := [MultiItem(None, Some(["ra"]))];
    var first := MultiItem(Some(WaveStep({5}, {}, 10)), None);
    assert MultiFromAsWritten(ss, [l1]) == last + [];
    assert YieldAsWritten(ss, Round(ss, [l0], 0)) == [first];
    assert MultiFromAsWritten(ss, [l0]) == [first] + last;
  }

  /** One pass of `multiPulse`'s round loop. */
  method RunRound(ss: seq<Stream>, lanes: seq<Lane>, dt: int) returns (r: RoundOut)
    requires LanesOk(ss, lanes)
    ensures r == Round(ss, lanes, dt)
  {
    r := RoundOut([], {}, {}, [], None);
    for i := 0 to |lanes|
      invariant r == Round(ss, lanes[..i], dt)
    {
      var l := lanes[i];
      var due := l.due - dt;
      if due <= 0 {
        r := r.(on := r.on + l.on, off := r.off + l.off);
        if l.next < |ss[l.src].steps| {
          var st := ss[l.src].steps[l.next];
          if r.next.None? || st.delay < r.next.value {
            r := r.(next := Some(st.delay));
          }
          r := r.(kept := r.kept + [Lane(st.delay, st.on, st.off, l.src, l.next + 1)]);
        } else {
          r := r.(finished := r.finished + [l.src]);
        }
      } else {
        if r.next.None? || due < r.next.value {
          r := r.(next := Some(due));
        }
        r := r.(kept := r.kept + [l.(due := due)]);
      }
      assert lanes[..i + 1][..i] == lanes[..i];
    }
    assert lanes[..|lanes|] == lanes;
  }

  /** `multiPulse`'s first loop: the first step of each stream, and the smallest of their delays. */
  method StartLanes(ss: seq<Stream>) returns (lanes: seq<Lane>, due: Option<int>)
    ensures lanes == Start(ss)
    ensures due.None? <==> lanes == []
    ensures lanes != [] ==> due == Some(MinDue(lanes))
  {
    lanes, due := [], None;
    for k := 0 to |ss|
      invariant lanes == StartFrom(ss, k)
      invariant due.None? <==> lanes == []
      invariant lanes != [] ==> due == Some(MinDue(lanes))
    {
      if ss[k].steps != [] {
        var st := ss[k].steps[0];
        if due.None? || st.delay < due.value {
          due := Some(st.delay);
        }
        var more := lanes + [Lane(st.delay, st.on, st.off, k, 1)];
        assert more[..|lanes|] == lanes;
        lanes := more;
      }
    }
  }

  /** One round of `multiPulse` and what it yields; `last` when no lane is left. */
  method MergeRound(ss: seq<Stream>, lanes: seq<Lane>, dt: int) returns (items: seq<MultiItem>, last: bool, kept: seq<Lane>, next: int)
    requires LanesOk(ss, lanes) && lanes != [] && dt == MinDue(lanes)
    ensures last ==> MultiFrom(ss, lanes) == items
    ensures !last ==> LanesOk(ss, kept) && kept != [] && next == MinDue(kept) && Pending(ss, kept) < Pending(ss, lanes)
    ensures !last ==> MultiFrom(ss, lanes) == items + MultiFrom(ss, kept)
  {
    var rd := RunRound(ss, lanes, dt);
    MultiUnfold(ss, lanes);
    if rd.next.None? {
      items := [MultiItem(Some(WaveStep(rd.on, rd.off, 0)), None), MultiItem(None, Some(IdsOf(ss, rd.finished)))];
      assert MultiFrom(ss, lanes) == Yield(ss, rd) + [];
      return items, true, [], 0;
    }
    var done := if rd.finished == [] then None else Some(IdsOf(ss, rd.finished));
    items := [MultiItem(Some(WaveStep(rd.on, rd.off, rd.next.value)), done)];
    last, kept, next := false, rd.kept, rd.next.value;
  }

  lemma {:induction false} Regroup(a: seq<MultiItem>, b: seq<MultiItem>, c: seq<MultiItem>)
    ensures a + (b + c) == (a + b) + c
  {
  }

  /** `multiPulse`'s round loop, run until no lane is left. */
  method MergeLoop(ss: seq<Stream>, lanes0: seq<Lane>, dt0: int) returns (out: seq<MultiItem>)
    requires LanesOk(ss, lanes0) && lanes0 != [] && dt0 == MinDue(lanes0)
    ensures out == MultiFrom(ss, lanes0)
  {
    var lanes, dt := lanes0, dt0;
    out := [];
    ghost var total := MultiFrom(ss, lanes0);
    while true
      invariant LanesOk(ss, lanes) && lanes != [] && dt == MinDue(lanes)
      invariant total == out + MultiFrom(ss, lanes)
      decreases Pending(ss, lanes)
    {
      var items, last, kept, next := MergeRound(ss, lanes, dt);
      if last {
        return out + items;
      }
      Regroup(out, items, MultiFrom(ss, kept));
      out, lanes, dt := out + items, kept, next;
    }
  }

  /**
    * `multiPulse`: the merged steps and the ids of the motors it starts,
    * the value it gives `activewavemotors`.
    */
  method MergeTrains(ss: seq<Stream>) returns (r: Result<seq<MultiItem>>, active: seq<string>)
    ensures r == MultiOut(ss)
    ensures r.Ok? ==> SrcsIn(ss, Srcs(Start(ss))) && active == IdsOf(ss, Srcs(Start(ss)))
  {
    var lanes, due := StartLanes(ss);
    if lanes == [] {
      return Err(RuntimeError), [];
    }
    SrcsOk(ss, lanes);
    active := IdsOf(ss, Srcs(lanes));
    var out := MergeLoop(ss, lanes, due.value);
    r := Ok(out);
  }

}
