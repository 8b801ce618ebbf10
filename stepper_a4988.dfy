/**
  * Step/direction driver chips such as the A4988 (stepperA4988.py): the
  * pulse generator that turns a tick stream into timed GPIO pulses with the
  * motor's position, its hold-and-disable tail, and the driver's small
  * overrides of the base stepper.
  */
module StepperA4988 {
  import opened Pulses
  import opened GpioPins
  import opened StepperBase

  /**
    * What the generator reads from the motor before its loop: the step
    * pin's on/off masks and pulse length, the direction, enable and
    * microstep-level bits, the position change per step and the hold delay
    * in microseconds.
    */
  datatype Wiring = Wiring(
    name: string,
    stepOn: Mask, stepOff: Mask, pulseLen: int,
    dirF: (Mask, Mask), dirR: (Mask, Mask),
    enableBits: (Mask, Mask), disableBits: (Mask, Mask), levelBits: (Mask, Mask),
    posChange: int, holdDelay: int)

  /** The generator's `delay` variable: never set, `None` after an idle tick, or whole microseconds. */
  datatype LastDelay = NoTickYet | IdleDelay | Whole(us: int)

  /** The generator's loop variables, the pulses yielded so far, and the exception that ended it, if any. */
  datatype Gen = Gen(
    clock: int, carry: real, pos: int, dirMult: Option<int>, startup: bool, delay: LastDelay,
    out: seq<Pulse>, failed: Option<PyError>)

  predicate CarryOk(g: Gen) { 0.0 <= g.carry < 1.0 }

  /** One tick of the generator's loop. */
  function GenTick(w: Wiring, g: Gen, t: Tick): (r: Gen)
    requires CarryOk(g) && TickOk(t)
    ensures CarryOk(r)
  {
    if g.failed.Some? then g
    else match t
      case Idle =>
        g.(out := g.out + [Pulse({}, {}, g.clock, g.pos, w.name, NoOp)], delay := IdleDelay, carry := 0.0)
      case Interval(s) =>
        if g.dirMult.None? then g.(failed := Some(UnboundLocalError))
        else
          var (d, c) := SplitMicros(s, g.carry);
          var np := g.pos + g.dirMult.value * w.posChange;
          g.(pos := np, clock := g.clock + d, carry := c, delay := Whole(d),
             out := g.out + [Pulse(w.stepOn, w.stepOff, g.clock, np, w.name, Normal),
                             Pulse(w.stepOff, w.stepOn, g.clock + w.pulseLen, np, w.name, Normal)])
      case DirChange(ch, s) =>
        var mult := Some(if ch == 'F' then 1 else -1);
        if ch != 'F' && ch != 'R' then g.(dirMult := mult, failed := Some(KeyError))
        else
          var ctl := ControlBits(w, ch, g.startup);
          var (d, c) := SplitMicros(s, g.carry);
          g.(dirMult := mult, startup := false, clock := g.clock + d, carry := c, delay := Whole(d),
             out := g.out + [Pulse(ctl.0, ctl.1, g.clock, g.pos, w.name, Normal)])
  }

  /**
    * The direction pin's bits for 'F' or 'R'; the first direction pulse also
    * carries the drive-enable and microstep-level bits.
    */
  function ControlBits(w: Wiring, ch: char, startup: bool): (Mask, Mask)
  {
    var bits := if ch == 'F' then w.dirF else w.dirR;
    if startup then (bits.0 + w.enableBits.0 + w.levelBits.0, bits.1 + w.enableBits.1 + w.levelBits.1) else bits
  }

  function GenFrom(w: Wiring, start: int, ts: seq<Tick>): (r: Gen)
    requires TicksOk(ts)
    ensures CarryOk(r)
  {
    if |ts| == 0 then Gen(0, 0.0, start, None, true, NoTickYet, [], None)
    else GenTick(w, GenFrom(w, start, ts[..|ts| - 1]), ts[|ts| - 1])
  }

  lemma {:induction false} GenFromLast(w: Wiring, start: int, ts: seq<Tick>, i: nat)
    requires TicksOk(ts) && i < |ts|
    ensures TicksOk(ts[..i]) && TicksOk(ts[..i + 1])
    ensures GenFrom(w, start, ts[..i + 1]) == GenTick(w, GenFrom(w, start, ts[..i]), ts[i])
  {
    assert ts[..i + 1][..i] == ts[..i];
  }

  /**
    * After the tick source is exhausted: a completion marker at the clock,
    * then (unless the last delay was `None` or already covered the hold
    * delay) a no-op that pads the clock to the hold delay, the disable bits
    * 10 µs later and a final completion marker 10 µs after that. With no
    * tick at all `delay` was never bound.
    */
  function GenFinish(w: Wiring, g: Gen): Gen
  {
    if g.failed.Some? then g
    else
      var done := g.out + [Pulse({}, {}, g.clock, g.pos, w.name, Complete)];
      match g.delay
      case NoTickYet => g.(out := done, failed := Some(UnboundLocalError))
      case _ =>
        var padded := g.delay.Whole? && g.delay.us < w.holdDelay;
        var c1 := if padded then g.clock + (w.holdDelay - g.delay.us) else g.clock + 1;
        var pad := if padded then [Pulse({}, {}, c1, g.pos, w.name, Normal)] else [];
        g.(clock := c1 + 10,
           out := done + pad + [Pulse(w.disableBits.0, w.disableBits.1, c1 + 10, g.pos, w.name, Normal),
                                Pulse({}, {}, c1 + 20, g.pos, w.name, Complete)])
  }

  /** Everything the generator yields for a tick stream, and how it ended. */
  function PulseStream(w: Wiring, start: int, ts: seq<Tick>): Gen
    requires TicksOk(ts)
  {
    GenFinish(w, GenFrom(w, start, ts))
  }

  predicate NoIdle(ts: seq<Tick>) { forall i :: 0 <= i < |ts| ==> !ts[i].Idle? }

  /**
    * No drift: across ticks without an idle tick, clock plus carried
    * fraction grows by exactly the summed intervals in microseconds, so the
    * clock is the floor of the exact running total.
    */
  lemma {:induction false} NoDrift(w: Wiring, start: int, pre: seq<Tick>, seg: seq<Tick>)
    requires TicksOk(pre + seg) && NoIdle(seg)
    ensures TicksOk(pre)
    ensures var g0, g := GenFrom(w, start, pre), GenFrom(w, start, pre + seg);
      g.failed.None? ==>
        g.clock as real + g.carry == g0.clock as real + g0.carry + 1000000.0 * SumSecs(seg)
        && g.clock == (g0.clock as real + g0.carry + 1000000.0 * SumSecs(seg)).Floor
  {
    assert forall i :: 0 <= i < |pre| ==> pre[i] == (pre + seg)[i];
    if |seg| > 0 {
      var sp := seg[..|seg| - 1];
      assert (pre + seg)[..|pre + seg| - 1] == pre + sp;
      assert forall i :: 0 <= i < |sp| ==> sp[i] == seg[i];
      assert TicksOk(pre + sp) by {
        assert forall i :: 0 <= i < |pre + sp| ==> (pre + sp)[i] == (pre + seg)[i];
      }
      NoDrift(w, start, pre, sp);
    } else {
      assert pre + seg == pre;
    }
  }

  /**
    * With valid direction letters the generator fails exactly when a float
    * tick comes before any direction tick; otherwise its position is the
    * start plus `poschange` times the signed step count, and `dirmult` is
    * the last direction's sign.
    */
  lemma {:induction false} GenPosition(w: Wiring, start: int, ts: seq<Tick>)
    requires TicksOk(ts) && DirsValid(ts)
    ensures var g := GenFrom(w, start, ts);
      (g.failed.Some? <==> StepsBeforeDirection(ts))
      && (g.failed.None? ==> g.pos == start + w.posChange * SignedSteps(ts) && g.dirMult == LastDirSign(ts))
  {
    if |ts| > 0 {
      var prev := ts[..|ts| - 1];
      assert TicksOk(prev) && DirsValid(prev) by {
        assert forall i :: 0 <= i < |prev| ==> prev[i] == ts[i];
      }
      GenPosition(w, start, prev);
      var g := GenFrom(w, start, prev);
      if g.failed.None? && ts[|ts| - 1].Interval? && g.dirMult.Some? {
        var m := g.dirMult.value;
        StepMoves(start, w.posChange, SignedSteps(prev), m);
      }
    }
  }

  /** Every step interval is at least the step pulse length. */
  predicate IntervalsCoverPulse(w: Wiring, ts: seq<Tick>)
  {
    forall i :: 0 <= i < |ts| ==> ts[i].Interval? ==> ts[i].secs * 1000000.0 >= w.pulseLen as real
  }

  /**
    * When every step interval lasts at least the pulse length, the
    * generator's pulses are in time order and none is later than its clock:
    * the off edge of a step lands before the next pulse is issued.
    */
  lemma {:induction false} GenOrdered(w: Wiring, start: int, ts: seq<Tick>)
    requires TicksOk(ts) && w.pulseLen >= 0 && IntervalsCoverPulse(w, ts)
    ensures var g := GenFrom(w, start, ts); OrderedUpTo(g.out, g.clock)
  {
    if |ts| > 0 {
      var n := |ts| - 1;
      var prev := ts[..n];
      assert TicksOk(prev) && IntervalsCoverPulse(w, prev) by {
        assert forall i :: 0 <= i < |prev| ==> prev[i] == ts[i];
      }
      GenOrdered(w, start, prev);
      GenFromLast(w, start, ts, n);
      assert ts[..n + 1] == ts;
      var g := GenFrom(w, start, prev);
      var t := ts[n];
      var r := GenTick(w, g, t);
      assert GenFrom(w, start, ts) == r;
      if g.failed.None? && r.failed.None? {
        assert t.Interval? ==> t.secs * 1000000.0 >= w.pulseLen as real;
        var more := TickExtends(w, g, t);
        OrderedAppend(g.out, g.clock, more, r.clock);
      }
    }
  }

  /** One tick appends to the output pulses in time order, none before the old clock or after the new one. */
  lemma {:induction false} TickExtends(w: Wiring, g: Gen, t: Tick) returns (more: seq<Pulse>)
    requires CarryOk(g) && TickOk(t) && w.pulseLen >= 0 && g.failed.None?
    requires t.Interval? ==> t.secs * 1000000.0 >= w.pulseLen as real
    ensures var r := GenTick(w, g, t);
      r.failed.None? ==>
        r.out == g.out + more && TimeOrdered(more) && forall i :: 0 <= i < |more| ==> g.clock <= more[i].time <= r.clock
  {
    var r := GenTick(w, g, t);
    more := [];
    match t
    case Idle =>
      more := [Pulse({}, {}, g.clock, g.pos, w.name, NoOp)];
    case Interval(secs) =>
      if g.dirMult.Some? {
        var np := g.pos + g.dirMult.value * w.posChange;
        more := [Pulse(w.stepOn, w.stepOff, g.clock, np, w.name, Normal),
                 Pulse(w.stepOff, w.stepOn, g.clock + w.pulseLen, np, w.name, Normal)];
        assert r.clock >= g.clock + w.pulseLen;
      }
    case DirChange(ch, _) =>
      var ctl := ControlBits(w, ch, g.startup);
      more := [Pulse(ctl.0, ctl.1, g.clock, g.pos, w.name, Normal)];
  }

  /**
    * The whole stream, tail included, is in time order, and after a step
    * the drive is disabled no sooner than the hold delay after that step's
    * clock; the stream ends with the disable bits and, 10 µs later, a
    * completion marker.
    */
  lemma {:induction false} StreamTail(w: Wiring, start: int, ts: seq<Tick>)
    requires TicksOk(ts) && w.pulseLen >= 0 && IntervalsCoverPulse(w, ts)
    ensures var g, s := GenFrom(w, start, ts), PulseStream(w, start, ts);
      g.failed.None? && g.delay != NoTickYet ==>
        s.failed.None? && TimeOrdered(s.out) && |s.out| >= |g.out| + 3 && s.out[..|g.out|] == g.out
        && var n := |s.out|;
           s.out[n - 1].action == Complete && s.out[n - 1].time == s.out[n - 2].time + 10
           && (s.out[n - 2].on, s.out[n - 2].off) == w.disableBits
           && s.out[n - 2].time >= g.clock + 11
           && (g.delay.Whole? ==> s.out[n - 2].time >= g.clock - g.delay.us + w.holdDelay + 10)
           && forall i :: |g.out| <= i < n ==> s.out[i].pos == g.pos
  {
    GenOrdered(w, start, ts);
    var g := GenFrom(w, start, ts);
    if g.failed.None? && g.delay != NoTickYet {
      FinishTail(w, g);
    }
  }

  /** The tail the generator adds after an ordered run that stepped at least once. */
  lemma {:induction false} FinishTail(w: Wiring, g: Gen)
    requires g.failed.None? && g.delay != NoTickYet && OrderedUpTo(g.out, g.clock)
    ensures var s := GenFinish(w, g);
      s.failed.None? && TimeOrdered(s.out) && |s.out| >= |g.out| + 3 && s.out[..|g.out|] == g.out
      && var n := |s.out|;
         s.out[n - 1].action == Complete && s.out[n - 1].time == s.out[n - 2].time + 10
         && (s.out[n - 2].on, s.out[n - 2].off) == w.disableBits
         && s.out[n - 2].time >= g.clock + 11
         && (g.delay.Whole? ==> s.out[n - 2].time >= g.clock - g.delay.us + w.holdDelay + 10)
         && forall i :: |g.out| <= i < n ==> s.out[i].pos == g.pos
  {
    var s := GenFinish(w, g);
    var tail := s.out[|g.out|..];
    assert s.out == g.out + tail;
    assert TimeOrdered(tail);
    OrderedAppend(g.out, g.clock, tail, s.clock + 10);
  }

  /** The generator's loop and tail, yielding the same stream as `PulseStream`. */
  method GeneratePulses(w: Wiring, start: int, ticks: seq<Tick>) returns (out: seq<Pulse>, err: Option<PyError>)
    requires TicksOk(ticks)
    ensures out == PulseStream(w, start, ticks).out && err == PulseStream(w, start, ticks).failed
    ensures err.None? && DirsValid(ticks) ==>
      exists k :: 0 <= k < |out| && out[k].action == Complete && out[k].pos == start + w.posChange * SignedSteps(ticks)
  {
    var g := RunTicks(w, start, ticks);
    out, err := FinishStream(w, g);
    if err.None? && DirsValid(ticks) {
      GenPosition(w, start, ticks);
      assert out[|g.out|].action == Complete && out[|g.out|].pos == g.pos;
    }
  }

  /** The generator's tick loop, up to the exhaustion of the tick source or an exception. */
  method RunTicks(w: Wiring, start: int, ticks: seq<Tick>) returns (g: Gen)
    requires TicksOk(ticks)
    ensures g == GenFrom(w, start, ticks)
  {
    var usclock, overflow, newpos := 0, 0.0, start;
    var dirmult: Option<int> := None;
    var startup := true;
    var delay: LastDelay := NoTickYet;
    var out: seq<Pulse> := [];
    var i := 0;
    while i < |ticks|
      invariant 0 <= i <= |ticks|
      invariant Gen(usclock, overflow, newpos, dirmult, startup, delay, out, None) == GenFrom(w, start, ticks[..i])
    {
      GenFromLast(w, start, ticks, i);
      ghost var g0 := Gen(usclock, overflow, newpos, dirmult, startup, delay, out, None);
      ghost var next := GenTick(w, g0, ticks[i]);
      match ticks[i] {
        case Idle =>
          out := out + [Pulse({}, {}, usclock, newpos, w.name, NoOp)];
          delay, overflow := IdleDelay, 0.0;
          assert Gen(usclock, overflow, newpos, dirmult, startup, delay, out, None) == next;
        case Interval(s) =>
          if dirmult.None? {
            g := Gen(usclock, overflow, newpos, dirmult, startup, delay, out, Some(UnboundLocalError));
            GenStopped(w, start, ticks, i + 1);
            return;
          }
          var (d, c) := SplitMicros(s, overflow);
          delay, overflow := Whole(d), c;
          newpos := newpos + dirmult.value * w.posChange;
          out := out + [Pulse(w.stepOn, w.stepOff, usclock, newpos, w.name, Normal)];
          out := out + [Pulse(w.stepOff, w.stepOn, usclock + w.pulseLen, newpos, w.name, Normal)];
          assert out == next.out;
          usclock := usclock + d;
          assert Gen(usclock, overflow, newpos, dirmult, startup, delay, out, None) == next;
        case DirChange(ch, s) =>
          dirmult := Some(if ch == 'F' then 1 else -1);
          if ch != 'F' && ch != 'R' {
            g := Gen(usclock, overflow, newpos, dirmult, startup, delay, out, Some(KeyError));
            GenStopped(w, start, ticks, i + 1);
            return;
          }
          var dirbits := ControlBits(w, ch, startup);
          startup := false;
          out := out + [Pulse(dirbits.0, dirbits.1, usclock, newpos, w.name, Normal)];
          var (d, c) := SplitMicros(s, overflow);
          delay, overflow := Whole(d), c;
          usclock := usclock + d;
          assert Gen(usclock, overflow, newpos, dirmult, startup, delay, out, None) == next;
      }
      i := i + 1;
    }
    assert ticks[..i] == ticks;
    g := Gen(usclock, overflow, newpos, dirmult, startup, delay, out, None);
  }

  /** The generator's code after its loop: completion marker, hold padding, disable, final marker. */
  method FinishStream(w: Wiring, g: Gen) returns (out: seq<Pulse>, err: Option<PyError>)
    ensures out == GenFinish(w, g).out && err == GenFinish(w, g).failed
  {
    out, err := g.out, g.failed;
    if err.Some? {
      return;
    }
    var usclock, newpos, delay := g.clock, g.pos, g.delay;
    out := out + [Pulse({}, {}, usclock, newpos, w.name, Complete)];
    if delay == NoTickYet {
      err := Some(UnboundLocalError);
      return;
    }
    if delay.IdleDelay? || delay.us >= w.holdDelay {
      usclock := usclock + 1;
    } else {
      var dly := w.holdDelay - delay.us;
      usclock := usclock + dly;
      out := out + [Pulse({}, {}, usclock, newpos, w.name, Normal)];
    }
    usclock := usclock + 10;
    out := out + [Pulse(w.disableBits.0, w.disableBits.1, usclock, newpos, w.name, Normal)];
    out := out + [Pulse({}, {}, usclock + 10, newpos, w.name, Complete)];
  }

  /** Once the generator has raised, later ticks change nothing. */
  lemma {:induction false} GenStopped(w: Wiring, start: int, ts: seq<Tick>, i: nat)
    requires TicksOk(ts) && 0 < i <= |ts|
    requires GenFrom(w, start, ts[..i]).failed.Some?
    ensures TicksOk(ts[..i])
    ensures GenFrom(w, start, ts) == GenFrom(w, start, ts[..i])
    decreases |ts| - i
  {
    assert forall j :: 0 <= j < i ==> ts[..i][j] == ts[j];
    if i < |ts| {
      assert ts[..i + 1][..i] == ts[..i];
      assert forall j :: 0 <= j <= i ==> ts[..i + 1][j] == ts[j];
      GenStopped(w, start, ts, i + 1);
    } else {
      assert ts[..i] == ts;
    }
  }

  /** What one `trigger` of a step pin writes: a pulse at `vlist[1]` when the pin is assigned. */
  function TriggerOps(t: TriggerPin): (r: seq<HwOp>)
    reads t, t.out
    requires t.Valid()
    ensures |r| <= 1 && (r != [] <==> t.out.pinno >= 0)
  {
    if t.out.pinno >= 0 then [Trigger(t.out.pinno, t.pulseTime, t.out.vlist[1])] else []
  }

  /** The step pin's log over a soft run's actions: `fire` once per triggered step, in order. */
  function Fired(acts: seq<SoftAction>, fire: seq<HwOp>): seq<HwOp>
  {
    if |acts| == 0 then [] else Fired(acts[..|acts| - 1], fire) + if acts[|acts| - 1] == StepPulse then fire else []
  }

  /** One trigger of `op` per step of the run, and nothing else, reaches the step pin. */
  lemma {:induction false} FiredSteps(acts: seq<SoftAction>, op: HwOp)
    ensures |Fired(acts, [op])| == CountSteps(acts)
    ensures forall i :: 0 <= i < |Fired(acts, [op])| ==> Fired(acts, [op])[i] == op
  {
    if |acts| > 0 {
      FiredSteps(acts[..|acts| - 1], op);
    }
  }

  /** One more action of a run extends the step pin's log and the direction by that action alone. */
  lemma {:induction false} RunPrefix(acts: seq<SoftAction>, j: int, fire: seq<HwOp>, d: PinValue)
    requires 0 <= j < |acts|
    ensures Fired(acts[..j + 1], fire) == Fired(acts[..j], fire) + if acts[j] == StepPulse then fire else []
    ensures DirAfter(acts[..j + 1], d) == if SetsDirection(acts[j]) then Named([acts[j].dir]) else DirAfter(acts[..j], d)
  {
    assert acts[..j + 1][..j] == acts[..j];
  }

  /** Whether an action sets the direction pin: a direction tick with a letter `directionset` accepts. */
  predicate SetsDirection(a: SoftAction)
  {
    a.SetDirection? && (a.dir == 'F' || a.dir == 'R')
  }

  /** The direction pin's value after a soft run's actions, starting from `d`. */
  function DirAfter(acts: seq<SoftAction>, d: PinValue): PinValue
  {
    if |acts| == 0 then d
    else if SetsDirection(acts[|acts| - 1]) then Named([acts[|acts| - 1].dir])
    else DirAfter(acts[..|acts| - 1], d)
  }

  /** The direction pin ends at the last direction the run set. */
  lemma {:induction false} DirAfterLast(acts: seq<SoftAction>, d: PinValue, k: int)
    requires 0 <= k < |acts| && SetsDirection(acts[k])
    requires forall j :: k < j < |acts| ==> !SetsDirection(acts[j])
    ensures DirAfter(acts, d) == Named([acts[k].dir])
  {
    if k < |acts| - 1 {
      assert forall j :: k < j < |acts| - 1 ==> acts[..|acts| - 1][j] == acts[j];
      DirAfterLast(acts[..|acts| - 1], d, k);
    }
  }

  /** A run that sets no direction leaves the direction pin as it was. */
  lemma {:induction false} DirAfterNone(acts: seq<SoftAction>, d: PinValue)
    requires forall j :: 0 <= j < |acts| ==> !SetsDirection(acts[j])
    ensures DirAfter(acts, d) == d
  {
    if |acts| > 0 {
      assert forall j :: 0 <= j < |acts| - 1 ==> acts[..|acts| - 1][j] == acts[j];
      DirAfterNone(acts[..|acts| - 1], d);
    }
  }

  /** The microstep level bits the generator ORs into its first direction pulse (`usteppins.pinbits`). */
  datatype LevelBits = LevelBits(on: Mask, off: Mask)

  class A4988Stepper {
    const base: BaseStepper
    const step: TriggerPin
    const usteppins: UstepPinset

    ghost predicate Valid()
      reads this, base, base.driveEnable, base.direction, step, step.out, usteppins, usteppins.msPins
    {
      base.Valid() && step.Valid() && usteppins.Valid()
      && step.out != base.driveEnable && step.out != base.direction
      && step.out !in usteppins.msPins && base.driveEnable !in usteppins.msPins && base.direction !in usteppins.msPins
    }

    constructor (base: BaseStepper, step: TriggerPin, usteppins: UstepPinset)
      requires base.Valid() && step.Valid() && usteppins.Valid()
      requires step.out != base.driveEnable && step.out != base.direction
      requires step.out !in usteppins.msPins && base.driveEnable !in usteppins.msPins && base.direction !in usteppins.msPins
      ensures Valid() && this.base == base && this.step == step && this.usteppins == usteppins
    {
      this.base := base;
      this.step := step;
      this.usteppins := usteppins;
    }

    /** `getmaxusteplevel`: the microstep pin set's largest level. */
    function MaxUstepLevel(): (m: int)
      reads this, base, base.driveEnable, base.direction, step, step.out, usteppins, usteppins.msPins
      requires Valid()
      ensures m in usteppins.levels && forall i :: 0 <= i < |usteppins.levels| ==> usteppins.levels[i] <= m
    {
      usteppins.MaxUsteps()
    }

    /** `endstepping`: the drive is disabled; nothing else changes. */
    method EndStepping()
      requires Valid()
      modifies base.driveEnable
      ensures Valid() && base.driveEnable.value == Named("disable")
    {
      var _ := base.driveEnable.SetValue(Named("disable"));
    }

    /** The generator's reading of the pins: `getBits` of the direction and enable pins, the step pin's polarity. */
    function WiringOf(posChange: int, holdMicros: int, level: LevelBits): (w: Wiring)
      reads this, base, base.driveEnable, base.direction, step, step.out, usteppins, usteppins.msPins
      requires Valid() && base.direction.pinno >= 0 && base.driveEnable.pinno >= 0 && step.out.pinno >= 0
      ensures w.stepOn + w.stepOff == PinBit(step.out.pinno) && (w.stepOn == {} || w.stepOff == {})
      ensures w.stepOn != {} <==> step.out.vlist[0] == Level(0)
      ensures w.holdDelay == if holdMicros == 0 then 100 else holdMicros
    {
      var bit := PinBit(step.out.pinno);
      var stepa: Mask := if step.out.vlist[0] == Level(0) then bit else {};
      var stepb: Mask := if stepa == {} then bit else {};
      Wiring(base.name, stepa, stepb, step.pulseTime,
        base.direction.GetBits(Some(Named("F"))).value, base.direction.GetBits(Some(Named("R"))).value,
        base.driveEnable.GetBits(Some(Named("enable"))).value, base.driveEnable.GetBits(Some(Named("disable"))).value,
        (level.on, level.off), posChange, if holdMicros == 0 then 100 else holdMicros)
    }

    /**
      * `pulsegen`: records the targets, marks the tick generator active and
      * yields the pulse stream starting from the motor's raw position. An
      * unassigned direction pin (pinno -1) makes `1 << pinno` raise
      * ValueError once the targets are recorded and before the generator is
      * marked active; an unassigned step pin raises it just after.
      */
    method PulseGen(ticks: seq<Tick>, targetPos: int, targetDir: string, posChange: int, holdMicros: int, level: LevelBits)
      returns (out: seq<Pulse>, err: Option<PyError>)
      requires Valid() && TicksOk(ticks) && base.driveEnable.pinno >= 0
      modifies base
      ensures Valid()
      ensures base.targetRawPos == targetPos && base.targetDir == DirSignOf(targetDir)
      ensures base.tickGenActive == (base.direction.pinno >= 0 || old(base.tickGenActive))
      ensures base.rawPos == old(base.rawPos) && base.opmode == old(base.opmode)
      ensures base.direction.pinno < 0 || step.out.pinno < 0 ==> out == [] && err.Some? && err.value.ValueError?
      ensures base.direction.pinno >= 0 && step.out.pinno >= 0 ==>
        var s := PulseStream(WiringOf(posChange, holdMicros, level), old(base.rawPos), ticks); out == s.out && err == s.failed
    {
      if base.direction.pinno < 0 {
        base.Aim(targetPos, DirSignOf(targetDir));
        return [], Some(ValueError("negative shift count"));
      }
      base.AimTicks(targetPos, DirSignOf(targetDir));
      if step.out.pinno < 0 {
        return [], Some(ValueError("negative shift count"));
      }
      out, err := GeneratePulses(WiringOf(posChange, holdMicros, level), base.rawPos, ticks);
    }

    /** One action of the soft run: the step pin's `trigger`, or `directionset` with a letter it accepts. */
    method Act(a: SoftAction)
      requires Valid()
      modifies base.direction, step.out
      ensures Valid()
      ensures step.out.hw == old(step.out.hw) + if a == StepPulse then TriggerOps(step) else []
      ensures base.direction.value == if SetsDirection(a) then Named([a.dir]) else old(base.direction.value)
    {
      match a {
        case StepPulse => step.Fire();
        case SetDirection(d) =>
          if d == 'F' || d == 'R' {
            var _ := base.direction.SetValue(Named([d]));
          }
      }
    }

    /** The soft run's actions in order: the step pin triggered once per step, the direction pin set as the run directs. */
    method ActAll(actions: seq<SoftAction>)
      requires Valid()
      modifies base.direction, step.out
      ensures Valid()
      ensures step.out.hw == old(step.out.hw) + Fired(actions, TriggerOps(step))
      ensures base.direction.value == DirAfter(actions, old(base.direction.value))
    {
      for j := 0 to |actions|
        invariant Valid()
        invariant step.out.hw == old(step.out.hw) + Fired(actions[..j], TriggerOps(step))
        invariant base.direction.value == DirAfter(actions[..j], old(base.direction.value))
      {
        RunPrefix(actions, j, TriggerOps(step), old(base.direction.value));
        Act(actions[j]);
      }
      assert actions[..|actions|] == actions;
    }

    /**
      * `_softrun` for this driver: the step function is the step pin's
      * trigger, directions go to the direction pin, and on completion the
      * position is published, the drive disabled and the motor stopped.
      */
    method SoftRun(req: SoftRunRequest, ustepLevel: string, posChange: int, ticks: seq<Tick>) returns (failed: bool)
      requires Valid() && DirsValid(ticks)
      modifies base, base.driveEnable, base.direction, step.out
      ensures Valid()
      ensures failed <==> StepsBeforeDirection(ticks)
      ensures var acts := SoftRunFrom(old(base.rawPos), posChange, ticks).actions;
        step.out.hw == old(step.out.hw) + Fired(acts, TriggerOps(step))
        && base.direction.value == DirAfter(acts, old(base.direction.value))
      ensures failed ==>
        base.rawPos == old(base.rawPos) && base.opmode == old(base.opmode) && base.stepActive == old(base.stepActive)
        && base.driveEnable.value == Named("enable")
      ensures !failed ==>
        (base.rawPos == old(base.rawPos) + posChange * SignedSteps(ticks)
         && base.opmode == Stopped && !base.stepActive && base.driveEnable.value == Named("disable"))
    {
      var _ := base.BeginSoftRun(req, ustepLevel);
      var newPos, actions;
      newPos, actions, failed := SoftRunLoop(base.rawPos, posChange, ticks);
      ActAll(actions);
      if !failed {
        base.EndSoftRun(newPos);
        EndStepping();
      }
    }
  }
}
