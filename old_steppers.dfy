/**
  * The earlier all-in-one motor module (steppers.py): its tick tuples that
  * carry a repeat count, the pulse generators of its unipolar and A4988
  * drivers built on them, the microstep factors of its unipolar tables, and
  * the command queue of its base stepper with the motor thread's dispatch.
  * Its `pulsemerge` is the one of the motor group and is modelled there.
  */
module OldSteppers {
  import opened Pulses
  import opened StepperUnid

  /**
    * One tuple of the tick generator: a direction change ('F', 'R' or
    * none), the interval to the next step in seconds (`None` when the motor
    * is to stop), the position after the step, how many more steps follow
    * with the same interval, and the position change of each of them.
    */
  datatype TickTuple = TickTuple(dirChange: Option<char>, tickTime: Option<real>, newPos: int, repeat: nat, posChange: int)

  /** One step the generator takes: the tuple's direction change and interval with this step's position. */
  datatype Step = Step(dirChange: Option<char>, tickTime: Option<real>, pos: int)

  /** Intervals are never negative. */
  predicate TupleOk(t: TickTuple)
  {
    t.tickTime.Some? ==> t.tickTime.value >= 0.0
  }

  predicate TuplesOk(ts: seq<TickTuple>)
  {
    forall i :: 0 <= i < |ts| ==> TupleOk(ts[i])
  }

  predicate StepOk(s: Step)
  {
    s.tickTime.Some? ==> s.tickTime.value >= 0.0
  }

  predicate StepsOk(ss: seq<Step>)
  {
    forall i :: 0 <= i < |ss| ==> StepOk(ss[i])
  }

  /** `n` steps with the same direction change and interval, from position `p` on by `pc` each. */
  function Run(d: Option<char>, tt: Option<real>, p: int, pc: int, n: nat): (r: seq<Step>)
    ensures |r| == n
    ensures forall j :: 0 <= j < n ==> r[j] == Step(d, tt, p + j * pc)
    decreases n
  {
    if n == 0 then [] else [Step(d, tt, p)] + Run(d, tt, p + pc, pc, n - 1)
  }

  /** The steps one tuple stands for: its own and `repeat` more. */
  function Own(t: TickTuple): seq<Step>
  {
    Run(t.dirChange, t.tickTime, t.newPos, t.posChange, t.repeat + 1)
  }

  /** The steps a tuple stream stands for, in order. */
  function Expand(ts: seq<TickTuple>): (r: seq<Step>)
    requires TuplesOk(ts)
    ensures StepsOk(r)
  {
    if ts == [] then [] else Own(ts[0]) + Expand(ts[1..])
  }

  /** The number of steps: one per tuple plus its repeats. */
  function StepCount(ts: seq<TickTuple>): nat
  {
    if ts == [] then 0 else ts[0].repeat + 1 + StepCount(ts[1..])
  }

  lemma {:induction false} ExpandLength(ts: seq<TickTuple>)
    requires TuplesOk(ts)
    ensures |Expand(ts)| == StepCount(ts)
  {
    if ts != [] {
      ExpandLength(ts[1..]);
    }
  }

  /** `divmod(ticktime*1000000 + overflow, 1)`, with `None` resetting the carried fraction. */
  function Micros(tt: Option<real>, carry: real): (r: (Option<int>, real))
    requires (tt.Some? ==> tt.value >= 0.0) && 0.0 <= carry < 1.0
    ensures 0.0 <= r.1 < 1.0
    ensures tt.None? <==> r.0.None?
    ensures tt.Some? ==> r.0.value >= 0 && r.0.value as real + r.1 == tt.value * 1000000.0 + carry
  {
    if tt.None? then (None, 0.0)
    else
      var dc := SplitMicros(tt.value, carry);
      (Some(dc.0), dc.1)
  }

  /**
    * What the A4988 generator reads before its loop: the step pin's on and
    * off masks and pulse length, the direction bits for 'F' and 'R', and the
    * drive-enable bits.
    */
  datatype OldWiring = OldWiring(name: string, stepOn: Mask, stepOff: Mask, pulseLen: int,
                                 dirF: (Mask, Mask), dirR: (Mask, Mask), enable: (Mask, Mask))

  /** The direction bits of a step; the first direction change also carries the drive-enable bits. */
  function DirBits(w: OldWiring, ch: char, startup: bool): (Mask, Mask)
  {
    var b := if ch == 'F' then w.dirF else w.dirR;
    if startup then (b.0 + w.enable.0, b.1 + w.enable.1) else b
  }

  /** The A4988 generator's loop variables, the pulses yielded, whether it stopped, and the exception that ended it. */
  datatype AGen = AGen(clock: int, carry: real, startup: bool, out: seq<Pulse>, stopped: bool, failed: Option<PyError>)

  predicate Running(g: AGen)
  {
    !g.stopped && g.failed.None?
  }

  /**
    * One step of the A4988 generator: the step pin goes on at the clock
    * (with the direction bits when the step changes direction; an unknown
    * direction is a KeyError) and off `pulseLen` later, and the next step
    * comes `int(delay)` after this one; a `None` interval stops it.
    */
  function AStep(w: OldWiring, g: AGen, s: Step): (r: AGen)
    requires 0.0 <= g.carry < 1.0 && StepOk(s)
    ensures 0.0 <= r.carry < 1.0
  {
    if !Running(g) then g
    else
      var dc := Micros(s.tickTime, g.carry);
      if s.dirChange.Some? && s.dirChange.value != 'F' && s.dirChange.value != 'R' then g.(carry := dc.1, failed := Some(KeyError))
      else
        var on := if s.dirChange.None? then Pulse(w.stepOn, w.stepOff, g.clock, s.pos, w.name, Normal)
                  else
                    var b := DirBits(w, s.dirChange.value, g.startup);
                    Pulse(w.stepOn + b.0, w.stepOff + b.1, g.clock, s.pos, w.name, Normal);
        var off := Pulse(w.stepOff, w.stepOn, g.clock + w.pulseLen, s.pos, w.name, Normal);
        g.(carry := dc.1, startup := g.startup && s.dirChange.None?, out := g.out + [on, off],
           clock := if dc.0.None? then g.clock + w.pulseLen else g.clock + dc.0.value, stopped := dc.0.None?)
  }

  function AFrom(w: OldWiring, ss: seq<Step>): (g: AGen)
    requires StepsOk(ss)
    ensures 0.0 <= g.carry < 1.0
  {
    if ss == [] then AGen(0, 0.0, true, [], false, None)
    else AStep(w, AFrom(w, ss[..|ss| - 1]), ss[|ss| - 1])
  }

  lemma {:induction false} AFromLast(w: OldWiring, ss: seq<Step>, s: Step)
    requires StepsOk(ss) && StepOk(s)
    ensures StepsOk(ss + [s]) && AFrom(w, ss + [s]) == AStep(w, AFrom(w, ss), s)
  {
    assert (ss + [s])[..|ss|] == ss;
  }

  /** Once stopped or failed, later steps change nothing. */
  lemma {:induction false} AStays(w: OldWiring, a: seq<Step>, b: seq<Step>)
    requires StepsOk(a) && StepsOk(b) && !Running(AFrom(w, a))
    ensures StepsOk(a + b) && AFrom(w, a + b) == AFrom(w, a)
  {
    if b != [] {
      var b0 := b[..|b| - 1];
      AStays(w, a, b0);
      assert (a + b)[..|a + b| - 1] == a + b0;
    } else {
      assert a + b == a;
    }
  }

  /**
    * Every step yields an on and an off pulse at its position, the off
    * `pulseLen` after the on; while running, the clock runs `pulseLen`
    * ahead of no pulse: every pulse so far is at or before the clock plus
    * the pulse length.
    */
  lemma {:induction false} APairs(w: OldWiring, ss: seq<Step>)
    requires StepsOk(ss)
    ensures var g := AFrom(w, ss);
      |g.out| % 2 == 0 && |g.out| <= 2 * |ss|
      && (Running(g) ==> |g.out| == 2 * |ss|)
      && forall k :: 0 <= k < |g.out| / 2 ==>
           g.out[2 * k].pos == ss[k].pos && g.out[2 * k + 1].pos == ss[k].pos
           && g.out[2 * k + 1].time == g.out[2 * k].time + w.pulseLen
  {
    if ss != [] {
      var p := ss[..|ss| - 1];
      APairs(w, p);
      assert forall k :: 0 <= k < |p| ==> p[k] == ss[k];
    }
  }

  /** The sum of the intervals of steps none of which stops, in seconds. */
  function StepSecs(ss: seq<Step>): real
  {
    if ss == [] then 0.0
    else StepSecs(ss[..|ss| - 1]) + (var s := ss[|ss| - 1]; if s.tickTime.Some? then s.tickTime.value else 0.0)
  }

  /**
    * No drift: while running, the clock plus the carried fraction is
    * exactly the sum of the intervals in microseconds, so every step starts
    * at the floor of the exact time.
    */
  lemma {:induction false} ANoDrift(w: OldWiring, ss: seq<Step>)
    requires StepsOk(ss)
    ensures var g := AFrom(w, ss);
      Running(g) ==> g.clock as real + g.carry == 1000000.0 * StepSecs(ss) && g.clock == (1000000.0 * StepSecs(ss)).Floor
  {
    if ss != [] {
      var p := ss[..|ss| - 1];
      ANoDrift(w, p);
      var g := AFrom(w, ss);
      if Running(g) {
        assert Running(AFrom(w, p));
      }
    }
  }

  /** A direction change the generator knows: 'F' or 'R'. */
  predicate Turns(s: Step)
  {
    s.dirChange == Some('F') || s.dirChange == Some('R')
  }

  /** The enable bits go out with the first direction change taken while running, and with no later one. */
  lemma {:induction false} EnableOnce(w: OldWiring, ss: seq<Step>)
    requires StepsOk(ss)
    ensures AFrom(w, ss).startup <==> forall k :: 0 <= k < |ss| ==> !(Turns(ss[k]) && Running(AFrom(w, ss[..k])))
  {
    if ss != [] {
      var p := ss[..|ss| - 1];
      EnableOnce(w, p);
      assert forall k :: 0 <= k < |p| ==> p[k] == ss[k] && p[..k] == ss[..k];
    }
  }

  /** The steps still owed by the current tuple after this one: `repeat` more, each `pc` further on. */
  function Owed(cur: TickTuple, newPos: int, repeat: nat): seq<Step>
  {
    Run(cur.dirChange, cur.tickTime, newPos + cur.posChange, cur.posChange, repeat)
  }

  /** The first of the steps a tuple still owes, and those after it. */
  lemma {:induction false} OwedUnfold(cur: TickTuple, newPos: int, repeat: nat)
    requires repeat > 0
    ensures Owed(cur, newPos, repeat) == [Step(cur.dirChange, cur.tickTime, newPos + cur.posChange)] + Owed(cur, newPos + cur.posChange, repeat - 1)
  {
  }

  lemma {:induction false} ExpandUnfold(ts: seq<TickTuple>, i: nat)
    requires TuplesOk(ts) && i < |ts|
    ensures TuplesOk(ts[i..]) && TuplesOk(ts[i + 1..])
    ensures Expand(ts[i..]) == [Step(ts[i].dirChange, ts[i].tickTime, ts[i].newPos)] + Owed(ts[i], ts[i].newPos, ts[i].repeat) + Expand(ts[i + 1..])
  {
    assert ts[i..][1..] == ts[i + 1..];
  }

  lemma {:induction false} Regroup(done: seq<Step>, s: Step, rest: seq<Step>)
    ensures done + ([s] + rest) == (done + [s]) + rest
  {
  }

  /** The pulses of one step of the A4988 generator, and its loop variables after it. */
  method AEmit(w: OldWiring, usclock: int, overflow: real, startup: bool, out: seq<Pulse>, s: Step)
    returns (clock': int, carry': real, startup': bool, out': seq<Pulse>, stop: bool, err: Option<PyError>)
    requires 0.0 <= overflow < 1.0 && StepOk(s)
    ensures AStep(w, AGen(usclock, overflow, startup, out, false, None), s) == AGen(clock', carry', startup', out', stop, err)
  {
    var dc := Micros(s.tickTime, overflow);
    carry' := dc.1;
    if s.dirChange.Some? && s.dirChange.value != 'F' && s.dirChange.value != 'R' {
      return usclock, carry', startup, out, false, Some(KeyError);
    }
    var on: Pulse;
    if s.dirChange.Some? {
      var b := DirBits(w, s.dirChange.value, startup);
      on := Pulse(w.stepOn + b.0, w.stepOff + b.1, usclock, s.pos, w.name, Normal);
    } else {
      on := Pulse(w.stepOn, w.stepOff, usclock, s.pos, w.name, Normal);
    }
    startup' := startup && s.dirChange.None?;
    clock' := usclock + w.pulseLen;
    out' := out + [on, Pulse(w.stepOff, w.stepOn, clock', s.pos, w.name, Normal)];
    stop := dc.0.None?;
    err := None;
    if !stop {
      clock' := clock' + dc.0.value - w.pulseLen;
    }
  }

  /**
    * The step the tick loop of both generators takes next: another repeat
    * of the current tuple (counting `repeat` down and adding its position
    * change) or the next tuple; `more` is false at the end of the tuples.
    */
  method NextTick(ts: seq<TickTuple>, i: nat, cur: TickTuple, newpos: int, repeat: nat)
    returns (more: bool, i': nat, cur': TickTuple, newpos': int, repeat': nat)
    requires TuplesOk(ts) && i <= |ts| && (i == 0 ==> repeat == 0) && (i > 0 ==> cur == ts[i - 1])
    ensures i' <= |ts| && (i' == 0 ==> repeat' == 0) && (i' > 0 ==> cur' == ts[i' - 1])
    ensures TuplesOk(ts[i..]) && TuplesOk(ts[i'..])
    ensures more ==> i' > 0 && (i' > i || (i' == i && repeat' < repeat))
    ensures more ==> Owed(cur, newpos, repeat) + Expand(ts[i..])
                     == [Step(cur'.dirChange, cur'.tickTime, newpos')] + (Owed(cur', newpos', repeat') + Expand(ts[i'..]))
    ensures !more ==> Owed(cur, newpos, repeat) + Expand(ts[i..]) == []
  {
    assert TuplesOk(ts[i..]);
    if repeat > 0 {
      OwedUnfold(cur, newpos, repeat);
      return true, i, cur, newpos + cur.posChange, repeat - 1;
    }
    if i == |ts| {
      assert ts[i..] == [];
      assert Owed(cur, newpos, repeat) == [];
      return false, i, cur, newpos, repeat;
    }
    ExpandUnfold(ts, i);
    assert Owed(cur, newpos, repeat) == [];
    return true, i + 1, ts[i], ts[i].newPos, ts[i].repeat;
  }

  /**
    * `A4988stepper.pulsegen` from its tick loop: a tuple's repeats are
    * taken one at a time by counting `repeat` down and adding `poschange`
    * to the position; each step yields the on pulse (with the direction
    * bits on a direction change) and the off pulse; a `None` interval or
    * the end of the tuples ends it.
    */
  method APulseGen(w: OldWiring, ts: seq<TickTuple>) returns (out: seq<Pulse>, err: Option<PyError>)
    requires TuplesOk(ts)
    ensures out == AFrom(w, Expand(ts)).out && err == AFrom(w, Expand(ts)).failed
  {
    var usclock, overflow, startup := 0, 0.0, true;
    out := [];
    var i, repeat := 0, 0;
    var cur := TickTuple(None, None, 0, 0, 0);
    var newpos := 0;
    ghost var done: seq<Step> := [];
    ghost var e := Expand(ts);
    assert ts[0..] == ts;
    while true
      invariant i <= |ts| && 0.0 <= overflow < 1.0
      invariant (i == 0 ==> repeat == 0) && (i > 0 ==> cur == ts[i - 1])
      invariant StepsOk(done) && TuplesOk(ts[i..]) && e == done + (Owed(cur, newpos, repeat) + Expand(ts[i..]))
      invariant AFrom(w, done) == AGen(usclock, overflow, startup, out, false, None)
      decreases |ts| - i, repeat
    {
      var more;
      more, i, cur, newpos, repeat := NextTick(ts, i, cur, newpos, repeat);
      if !more {
        assert done + [] == done;
        return out, None;
      }
      ghost var rest := Owed(cur, newpos, repeat) + Expand(ts[i..]);
      var s := Step(cur.dirChange, cur.tickTime, newpos);
      Regroup(done, s, rest);
      assert TupleOk(cur);
      AFromLast(w, done, s);
      var stop: bool;
      usclock, overflow, startup, out, stop, err := AEmit(w, usclock, overflow, startup, out, s);
      done := done + [s];
      if stop || err.Some? {
        AStays(w, done, rest);
        return;
      }
    }
  }

  /** `stepa`/`stepb`: the step pin's bit goes on when its first level is 0, and off otherwise. */
  function StepMasks(pinno: nat, firstLevel: int): (r: (Mask, Mask))
    ensures firstLevel == 0 ==> r == (PinBit(pinno), {})
    ensures firstLevel != 0 ==> r == ({}, PinBit(pinno))
  {
    var stepa := if firstLevel == 0 then PinBit(pinno) else {};
    var stepb := if stepa == {} then PinBit(pinno) else {};
    (stepa, stepb)
  }

  /** The start of both generators: the opmode lookup raises KeyError for a command other than goto or run. */
  predicate MovingCommand(command: string)
  {
    command == "goto" || command == "run"
  }

  /** `A4988stepper.pulsegen` with its command: a KeyError before any pulse, or the generator above. */
  method A4988PulseGen(w: OldWiring, command: string, ts: seq<TickTuple>) returns (out: seq<Pulse>, err: Option<PyError>)
    requires TuplesOk(ts)
    ensures !MovingCommand(command) ==> out == [] && err == Some(KeyError)
    ensures MovingCommand(command) ==> out == AFrom(w, Expand(ts)).out && err == AFrom(w, Expand(ts)).failed
  {
    if !MovingCommand(command) {
      return [], Some(KeyError);
    }
    out, err := APulseGen(w, ts);
  }

  /**
    * The unipolar generator's loop variables: the clock and carried
    * fraction, the table direction (`None` while `tabinc` is unbound), the
    * motor's `stepindex`, the pulses yielded, whether it stopped and the
    * exception that ended it.
    */
  datatype DGen = DGen(clock: int, carry: real, tabInc: Option<int>, index: nat, out: seq<Pulse>, stopped: bool, failed: Option<PyError>)

  predicate DRunning(g: DGen)
  {
    !g.stopped && g.failed.None?
  }

  /**
    * One step of `directstepper.pulsegen`: a direction change sets `tabinc`
    * (+1 for 'F', -1 for anything else); the step yields the row masks at
    * `stepindex` (IndexError past the end) at the clock; a `None` interval
    * stops it; otherwise the clock advances and `stepindex` moves one row,
    * wrapping at the 4 drive pins; an unbound `tabinc` there is an
    * UnboundLocalError.
    */
  function DStep(name: string, stepbits: seq<(Mask, Mask)>, g: DGen, s: Step): (r: DGen)
    requires 0.0 <= g.carry < 1.0 && StepOk(s)
    ensures 0.0 <= r.carry < 1.0
  {
    if !DRunning(g) then g
    else
      var dc := Micros(s.tickTime, g.carry);
      var ti := if s.dirChange.Some? then Some(if s.dirChange.value == 'F' then 1 else -1) else g.tabInc;
      if g.index >= |stepbits| then g.(carry := dc.1, tabInc := ti, failed := Some(IndexError))
      else
        var bits := stepbits[g.index];
        var g1 := g.(carry := dc.1, tabInc := ti, out := g.out + [Pulse(bits.0, bits.1, g.clock, s.pos, name, Normal)]);
        if dc.0.None? then g1.(stopped := true)
        else if ti.None? then g1.(clock := g.clock + dc.0.value, failed := Some(UnboundLocalError))
        else g1.(clock := g.clock + dc.0.value, index := NextGenIndex(g.index, ti.value))
  }

  function DFrom(name: string, stepbits: seq<(Mask, Mask)>, index: nat, ss: seq<Step>): (g: DGen)
    requires StepsOk(ss)
    ensures 0.0 <= g.carry < 1.0
  {
    if ss == [] then DGen(0, 0.0, None, index, [], false, None)
    else DStep(name, stepbits, DFrom(name, stepbits, index, ss[..|ss| - 1]), ss[|ss| - 1])
  }

  lemma {:induction false} DFromLast(name: string, stepbits: seq<(Mask, Mask)>, index: nat, ss: seq<Step>, s: Step)
    requires StepsOk(ss) && StepOk(s)
    ensures StepsOk(ss + [s]) && DFrom(name, stepbits, index, ss + [s]) == DStep(name, stepbits, DFrom(name, stepbits, index, ss), s)
  {
    assert (ss + [s])[..|ss|] == ss;
  }

  lemma {:induction false} DStays(name: string, stepbits: seq<(Mask, Mask)>, index: nat, a: seq<Step>, b: seq<Step>)
    requires StepsOk(a) && StepsOk(b) && !DRunning(DFrom(name, stepbits, index, a))
    ensures StepsOk(a + b) && DFrom(name, stepbits, index, a + b) == DFrom(name, stepbits, index, a)
  {
    if b != [] {
      var b0 := b[..|b| - 1];
      DStays(name, stepbits, index, a, b0);
      assert (a + b)[..|a + b| - 1] == a + b0;
    } else {
      assert a + b == a;
    }
  }

  /** Whether the first step carries a direction change, which `tabinc` needs before the first interval is taken. */
  predicate StartsWithDirection(ss: seq<Step>)
  {
    ss != [] ==> ss[0].dirChange.Some?
  }

  /**
    * Started inside a table of at least four rows, the generator never
    * raises IndexError, and raises UnboundLocalError exactly when a first
    * step with no direction change is not the last step taken; it yields one
    * pulse per step taken, at that step's position, and its phase index
    * stays below 4 or at its start.
    */
  lemma {:induction false} DIndexInRange(name: string, stepbits: seq<(Mask, Mask)>, index: nat, ss: seq<Step>)
    requires StepsOk(ss) && |stepbits| >= 4 && index < |stepbits|
    ensures var g := DFrom(name, stepbits, index, ss);
      g.failed != Some(IndexError) && g.index < |stepbits| && (g.index < 4 || g.index <= index)
      && (g.failed.Some? ==> g.failed == Some(UnboundLocalError) && !StartsWithDirection(ss))
      && (ss != [] && g.tabInc.None? ==> !StartsWithDirection(ss))
      && |g.out| <= |ss| && (DRunning(g) ==> |g.out| == |ss|)
      && forall k :: 0 <= k < |g.out| ==> g.out[k].pos == ss[k].pos
  {
    if ss != [] {
      var p := ss[..|ss| - 1];
      DIndexInRange(name, stepbits, index, p);
      assert forall k :: 0 <= k < |p| ==> p[k] == ss[k];
      if p != [] {
        assert p[0] == ss[0];
      }
    }
  }

  /** With a direction on its first step, the generator runs until an interval is `None` or the steps end. */
  lemma {:induction false} DNeverFails(name: string, stepbits: seq<(Mask, Mask)>, index: nat, ss: seq<Step>)
    requires StepsOk(ss) && |stepbits| >= 4 && index < |stepbits| && StartsWithDirection(ss)
    ensures DFrom(name, stepbits, index, ss).failed.None?
  {
    DIndexInRange(name, stepbits, index, ss);
  }

  /** The pulse of one step of the unipolar generator, and its loop variables after it. */
  method DEmit(name: string, stepbits: seq<(Mask, Mask)>, usclock: int, overflow: real, tabInc: Option<int>, index: nat, out: seq<Pulse>, s: Step)
    returns (clock': int, carry': real, tabInc': Option<int>, index': nat, out': seq<Pulse>, stop: bool, err: Option<PyError>)
    requires 0.0 <= overflow < 1.0 && StepOk(s)
    ensures DStep(name, stepbits, DGen(usclock, overflow, tabInc, index, out, false, None), s)
            == DGen(clock', carry', tabInc', index', out', stop, err)
  {
    var dc := Micros(s.tickTime, overflow);
    carry', tabInc', index', clock', out', stop, err := dc.1, tabInc, index, usclock, out, false, None;
    if s.dirChange.Some? {
      tabInc' := Some(if s.dirChange.value == 'F' then 1 else -1);
    }
    if index >= |stepbits| {
      err := Some(IndexError);
      return;
    }
    out' := out + [Pulse(stepbits[index].0, stepbits[index].1, usclock, s.pos, name, Normal)];
    if dc.0.None? {
      stop := true;
      return;
    }
    clock' := usclock + dc.0.value;
    if tabInc'.None? {
      err := Some(UnboundLocalError);
      return;
    }
    index' := NextGenIndex(index, tabInc'.value);
  }

  /**
    * `directstepper.pulsegen` from its tick loop, on the motor's
    * `stepindex`: repeats are taken one at a time as in the A4988
    * generator; each step yields the current row's masks; the final
    * `stepindex` is left on the motor.
    */
  method DPulseGen(name: string, stepbits: seq<(Mask, Mask)>, command: string, index: nat, ts: seq<TickTuple>)
    returns (out: seq<Pulse>, err: Option<PyError>, index': nat)
    requires TuplesOk(ts)
    ensures !MovingCommand(command) ==> out == [] && err == Some(KeyError) && index' == index
    ensures MovingCommand(command) ==>
      var g := DFrom(name, stepbits, index, Expand(ts));
      out == g.out && err == g.failed && index' == g.index
  {
    if !MovingCommand(command) {
      return [], Some(KeyError), index;
    }
    var usclock, overflow, tabInc := 0, 0.0, None;
    out, index' := [], index;
    var i, repeat := 0, 0;
    var cur := TickTuple(None, None, 0, 0, 0);
    var newpos := 0;
    ghost var done: seq<Step> := [];
    ghost var e := Expand(ts);
    assert ts[0..] == ts;
    while true
      invariant i <= |ts| && 0.0 <= overflow < 1.0
      invariant (i == 0 ==> repeat == 0) && (i > 0 ==> cur == ts[i - 1])
      invariant StepsOk(done) && TuplesOk(ts[i..]) && e == done + (Owed(cur, newpos, repeat) + Expand(ts[i..]))
      invariant DFrom(name, stepbits, index, done) == DGen(usclock, overflow, tabInc, index', out, false, None)
      decreases |ts| - i, repeat
    {
      var more;
      more, i, cur, newpos, repeat := NextTick(ts, i, cur, newpos, repeat);
      if !more {
        assert done + [] == done;
        return out, None, index';
      }
      ghost var rest := Owed(cur, newpos, repeat) + Expand(ts[i..]);
      var s := Step(cur.dirChange, cur.tickTime, newpos);
      Regroup(done, s, rest);
      assert TupleOk(cur);
      DFromLast(name, stepbits, index, done, s);
      var stop: bool;
      usclock, overflow, tabInc, index', out, stop, err := DEmit(name, stepbits, usclock, overflow, tabInc, index', out, s);
      done := done + [s];
      if stop || err.Some? {
        DStays(name, stepbits, index, done, rest);
        return;
      }
    }
  }

  /**
    * The factors of the unipolar tables in this module: the same rows as
    * the unipolar driver's tables, but counted the other way round (single
    * and double 4, two 2, four 1).
    */
  const OldFactors: map<string, int> := map["single" := 4, "double" := 4, "two" := 2, "four" := 1]

  function OldFactorList(): seq<int>
  {
    seq(|TableNames|, i requires 0 <= i < |TableNames| => OldFactors[TableNames[i]])
  }

  lemma {:induction false} OldFactorsBounded()
    ensures forall n :: n in OldFactors ==> OldFactors[n] <= 4
    ensures "single" in OldFactors && OldFactors["single"] == 4
  {
  }

  /** `ustepdefuni.maxusteps`: the largest factor of the tables, 4. */
  function MaxUsteps(): (m: int)
    ensures m == 4
    ensures forall n :: n in OldFactors ==> OldFactors[n] <= m
    ensures exists n :: n in OldFactors && OldFactors[n] == m
  {
    var fs := OldFactorList();
    assert fs == [4, 4, 2, 1];
    var m := MaxOf(fs);
    assert m == 4 by {
      assert fs[0] <= m && m in fs;
    }
    OldFactorsBounded();
    m
  }

  /** The two modules' factors are reciprocal on the same tables: their product is the largest factor, 4. */
  lemma {:induction false} FactorsReciprocal()
    ensures OldFactors.Keys == UstepTables.Keys
    ensures forall n :: n in OldFactors ==> OldFactors[n] * UstepTables[n].factor == 4
  {
  }

  /** `opmodes`, by index: 0 closed, 1 stopped, 2 going, 3 moving. */
  datatype OldOpMode = OClosed | OStopped | Going | Moving

  /** The `mode` of a declared step mode. */
  datatype RunKind = WaveMode | SoftwareMode | UnknownMode

  /** `commands`. */
  const OldCommands: seq<string> := ["none", "close", "stop", "goto", "run"]

  /** The keyword arguments `dothis` queues for `_command`. */
  datatype Command = Command(command: string, targetPos: Option<int>, targetDir: Option<string>, stepMode: Option<string>)

  /** What one pass of the motor thread's loop does. */
  datatype Outcome =
    | Exit                                                  // 'close': opmode index 0 ends the loop
    | Halted                                                // 'stop' or nothing pending: `_thrun_stopped`
    | Ran(kind: RunKind, cmd: Command, during: OldOpMode)   // goto or run, in 'going' or 'moving'

  /**
    * One pass of `_thrunner`'s loop on the pending command. Anything other
    * than close or stop looks up its step mode first: a missing one is a
    * TypeError (`getattr` with `None`), an unknown one an AttributeError.
    */
  function Dispatch(modes: map<string, RunKind>, pending: Option<Command>): (r: Result<Outcome>)
    ensures pending.None? ==> r == Ok(Halted)
    ensures r.Ok? && r.value.Ran? ==>
      pending == Some(r.value.cmd) && r.value.cmd.stepMode.Some? && r.value.cmd.stepMode.value in modes
      && r.value.kind == modes[r.value.cmd.stepMode.value]
      && (r.value.during == Going <==> r.value.cmd.command == "goto")
      && r.value.during in {Going, Moving}
    ensures r.Err? ==> pending.Some? && pending.value.command !in {"close", "stop"}
  {
    var cmd := if pending.None? then "stop" else pending.value.command;
    if cmd == "close" then Ok(Exit)
    else if cmd == "stop" then Ok(Halted)
    else if pending.value.stepMode.None? then Err(TypeError)
    else if pending.value.stepMode.value !in modes then Err(AttributeError)
    else Ok(Ran(modes[pending.value.stepMode.value], pending.value, if cmd == "goto" then Going else Moving))
  }

  /** A pending command that is only ever cleared after it ran or was stopped, never taken while one is pending. */
  function PendingRank(pending: Option<Command>): nat
  {
    if pending.Some? then 1 else 0
  }

  /**
    * The passes of the motor thread from a pending command and a queue:
    * after a stop it waits for the next queued command (and blocks for
    * good when there is none); after a run nothing is pending; a close or
    * an exception ends the thread.
    */
  function Trace(modes: map<string, RunKind>, pending: Option<Command>, q: seq<Command>): (t: seq<Result<Outcome>>)
    ensures |t| > 0 && t[0] == Dispatch(modes, pending)
    decreases |q|, PendingRank(pending)
  {
    var r := Dispatch(modes, pending);
    if r.Err? || r.value.Exit? then [r]
    else if r.value.Halted? then
      (if q == [] then [r] else [r] + Trace(modes, Some(q[0]), q[1..]))
    else [r] + Trace(modes, None, q)
  }

  /** A queue `dothis` can build: known commands other than 'none', and goto/run with a declared step mode. */
  predicate Queueable(modes: map<string, RunKind>, c: Command)
  {
    c.command in OldCommands[1..]
    && (c.command in {"goto", "run"} ==> c.stepMode.Some? && c.stepMode.value in modes)
  }

  /** The goto and run commands of `q` before its first close, in order. */
  function MovesBeforeClose(q: seq<Command>): seq<Command>
  {
    if q == [] || q[0].command == "close" then []
    else (if q[0].command in {"goto", "run"} then [q[0]] else []) + MovesBeforeClose(q[1..])
  }

  /** The commands the runs of a trace carried out, in order. */
  function RunsOf(t: seq<Result<Outcome>>): seq<Command>
  {
    if t == [] then []
    else (if t[0].Ok? && t[0].value.Ran? then [t[0].value.cmd] else []) + RunsOf(t[1..])
  }

  lemma {:induction false} RunsOfAppend(a: seq<Result<Outcome>>, b: seq<Result<Outcome>>)
    ensures RunsOf(a + b) == RunsOf(a) + RunsOf(b)
  {
    if a != [] {
      assert (a + b)[0] == a[0];
      assert (a + b)[1..] == a[1..] + b;
      RunsOfAppend(a[1..], b);
    } else {
      assert a + b == b;
    }
  }

  /** Whether a close was queued. */
  predicate Closes(q: seq<Command>)
  {
    exists i :: 0 <= i < |q| && q[i].command == "close"
  }

  lemma {:induction false} ClosesCons(q: seq<Command>)
    requires q != []
    ensures Closes(q) <==> q[0].command == "close" || Closes(q[1..])
  {
    if Closes(q) && q[0].command != "close" {
      var i :| 0 <= i < |q| && q[i].command == "close";
      assert q[1..][i - 1].command == "close";
    }
    if Closes(q[1..]) {
      var i :| 0 <= i < |q[1..]| && q[1..][i].command == "close";
      assert q[i + 1].command == "close";
    }
  }

  /** The first pass of the thread and the passes after it. */
  lemma {:induction false} TraceUnfold(modes: map<string, RunKind>, p: Option<Command>, q: seq<Command>)
    ensures var r := Dispatch(modes, p);
      ((r.Err? || r == Ok(Exit) || (r == Ok(Halted) && q == [])) ==> Trace(modes, p, q) == [r])
      && (r == Ok(Halted) && q != [] ==> Trace(modes, p, q) == [r] + Trace(modes, Some(q[0]), q[1..]))
      && (r.Ok? && r.value.Ran? ==> Trace(modes, p, q) == [r] + Trace(modes, None, q))
  {
  }

  /** The thread's passes from a queued command that has just become pending. */
  lemma {:induction false} TraceFrom(modes: map<string, RunKind>, c: Command, q: seq<Command>)
    requires Queueable(modes, c)
    ensures c.command == "close" ==> Trace(modes, Some(c), q) == [Ok(Exit)]
    ensures c.command == "stop" ==> Trace(modes, Some(c), q) == Trace(modes, None, q)
    ensures c.command in {"goto", "run"} ==>
      Trace(modes, Some(c), q) == [Ok(Ran(modes[c.stepMode.value], c, if c.command == "goto" then Going else Moving))] + Trace(modes, None, q)
  {
  }

  /**
    * From a stopped motor, the thread runs exactly the queued goto and run
    * commands before the first close, in the order they were queued.
    */
  lemma {:induction false} TraceRunsQueue(modes: map<string, RunKind>, q: seq<Command>)
    requires forall i :: 0 <= i < |q| ==> Queueable(modes, q[i])
    ensures RunsOf(Trace(modes, None, q)) == MovesBeforeClose(q)
  {
    var t := Trace(modes, None, q);
    if q == [] {
      assert t == [Ok(Halted)];
      assert RunsOf(t) == [] + RunsOf([]);
    } else {
      var c := q[0];
      var rest := Trace(modes, Some(c), q[1..]);
      assert t == [Ok(Halted)] + rest;
      RunsOfAppend([Ok(Halted)], rest);
      assert RunsOf([Ok(Halted)]) == [] + RunsOf([]);
      assert forall i :: 0 <= i < |q[1..]| ==> q[1..][i] == q[i + 1];
      TraceRunsQueue(modes, q[1..]);
      TraceFrom(modes, c, q[1..]);
      if c.command in {"goto", "run"} {
        var r := Ok(Ran(modes[c.stepMode.value], c, if c.command == "goto" then Going else Moving));
        RunsOfAppend([r], Trace(modes, None, q[1..]));
        assert RunsOf([r]) == [c] + RunsOf([]);
      } else if c.command == "close" {
        assert RunsOf(rest) == [] + RunsOf([]);
      }
    }
  }

  /** On such a queue no pass of the thread raises. */
  lemma {:induction false} TraceNeverRaises(modes: map<string, RunKind>, q: seq<Command>)
    requires forall i :: 0 <= i < |q| ==> Queueable(modes, q[i])
    ensures var t := Trace(modes, None, q); forall i :: 0 <= i < |t| ==> t[i].Ok?
  {
    var t := Trace(modes, None, q);
    if q != [] {
      var c := q[0];
      var rest := Trace(modes, Some(c), q[1..]);
      assert t == [Ok(Halted)] + rest;
      assert forall i :: 0 <= i < |q[1..]| ==> q[1..][i] == q[i + 1];
      TraceNeverRaises(modes, q[1..]);
      TraceFrom(modes, c, q[1..]);
      assert forall i :: 0 <= i < |rest| ==> rest[i].Ok?;
      assert forall i :: 1 <= i < |t| ==> t[i] == rest[i - 1];
    }
  }

  /**
    * On such a queue the thread ends its loop exactly when a close was
    * queued; otherwise it is left waiting, stopped.
    */
  lemma {:induction false} TraceEndsAtClose(modes: map<string, RunKind>, q: seq<Command>)
    requires forall i :: 0 <= i < |q| ==> Queueable(modes, q[i])
    ensures var t := Trace(modes, None, q);
      (Last(t) == Ok(Exit) <==> Closes(q)) && (Last(t) != Ok(Exit) ==> Last(t) == Ok(Halted))
  {
    var t := Trace(modes, None, q);
    if q == [] {
      assert t == [Ok(Halted)];
    } else {
      var c := q[0];
      var rest := Trace(modes, Some(c), q[1..]);
      assert t == [Ok(Halted)] + rest;
      LastAppend([Ok(Halted)], rest);
      assert forall i :: 0 <= i < |q[1..]| ==> q[1..][i] == q[i + 1];
      TraceEndsAtClose(modes, q[1..]);
      ClosesCons(q);
      TraceFrom(modes, c, q[1..]);
      var after := Trace(modes, None, q[1..]);
      if c.command in {"goto", "run"} {
        var r := Ok(Ran(modes[c.stepMode.value], c, if c.command == "goto" then Going else Moving));
        LastAppend([r], after);
      }
    }
  }

  /**
    * The command side of `basestepper`: the declared step modes, the
    * opmode the thread shows, the command the thread is to act on next,
    * and the queue `dothis` feeds.
    */
  class OldStepper {
    const modes: map<string, RunKind>
    var opmode: OldOpMode
    var pending: Option<Command>
    var cmndq: seq<Command>

    /** The constructor queues a stop, and the thread starts in 'stopped' with nothing pending. */
    constructor (modes: map<string, RunKind>)
      ensures this.modes == modes && opmode == OStopped && pending == None
      ensures cmndq == [Command("stop", None, None, None)]
    {
      this.modes := modes;
      opmode := OStopped;
      pending := None;
      cmndq := [Command("stop", None, None, None)];
    }

    /**
      * `dothis`: an unknown command fails its assertion; the validation of
      * goto and run is guarded by `command is ('goto','run')`, which is
      * never true, so it never runs; every command but 'none' is queued,
      * and goto and run then look up their step mode's kind, raising
      * TypeError for none and AttributeError for an undeclared one after
      * the command was queued.
      */
    method DoThis(command: string, targetPos: Option<int>, targetDir: Option<string>, stepMode: Option<string>)
      returns (r: Result<Option<RunKind>>)
      modifies this
      ensures opmode == old(opmode) && pending == old(pending)
      ensures command !in OldCommands ==> r == Err(AssertionError) && cmndq == old(cmndq)
      ensures command == "none" ==> r == Ok(None) && cmndq == old(cmndq)
      ensures command in OldCommands[1..] ==> cmndq == old(cmndq) + [Command(command, targetPos, targetDir, stepMode)]
      ensures command in {"close", "stop"} ==> r == Ok(None)
      ensures command in {"goto", "run"} ==>
        if stepMode.None? then r == Err(TypeError)
        else if stepMode.value !in modes then r == Err(AttributeError)
        else r == Ok(Some(modes[stepMode.value]))
    {
      if command !in OldCommands {
        return Err(AssertionError);
      }
      if command != "none" {
        cmndq := cmndq + [Command(command, targetPos, targetDir, stepMode)];
        if command == "goto" || command == "run" {
          if stepMode.None? {
            return Err(TypeError);
          }
          if stepMode.value !in modes {
            return Err(AttributeError);
          }
          return Ok(Some(modes[stepMode.value]));
        }
      }
      r := Ok(None);
    }

    /** `_thwaitq` taking the next queued call, which is `_command`: the command becomes pending. */
    method TakeQueued()
      requires cmndq != []
      modifies this
      ensures pending == Some(old(cmndq)[0]) && cmndq == old(cmndq)[1..] && opmode == old(opmode)
    {
      pending := Some(cmndq[0]);
      cmndq := cmndq[1..];
    }

    /**
      * One pass of `_thrunner`'s loop: close sets opmode 0; stop clears
      * the pending command; goto and run show 'going' or 'moving' while
      * they run, clear the pending command and leave the motor 'stopped'.
      */
    method RunnerStep() returns (r: Result<Outcome>)
      requires opmode != OClosed
      modifies this
      ensures r == Dispatch(modes, old(pending)) && cmndq == old(cmndq)
      ensures r == Ok(Exit) ==> opmode == OClosed && pending == old(pending)
      ensures r == Ok(Halted) ==> opmode == old(opmode) && pending == None
      ensures r.Ok? && r.value.Ran? ==> opmode == OStopped && pending == None
      ensures r.Err? ==> opmode == old(opmode) && pending == old(pending)
    {
      var cmd := if pending.None? then "stop" else pending.value.command;
      if cmd == "close" {
        opmode := OClosed;
        return Ok(Exit);
      }
      if cmd == "stop" {
        pending := None;
        return Ok(Halted);
      }
      if pending.value.stepMode.None? {
        return Err(TypeError);
      }
      if pending.value.stepMode.value !in modes {
        return Err(AttributeError);
      }
      var kind := modes[pending.value.stepMode.value];
      opmode := if cmd == "goto" then Going else Moving;
      var comdetails := pending.value;
      pending := None;
      r := Ok(Ran(kind, comdetails, opmode));
      opmode := OStopped;
    }

    /**
      * One pass of `_thrunner` followed, after a stop, by `_thrun_stopped`
      * taking the next queued command; `goOn` is false when the loop ends
      * or the thread would block on an empty queue.
      */
    method Pass() returns (r: Result<Outcome>, goOn: bool)
      requires opmode != OClosed
      modifies this
      ensures Trace(modes, old(pending), old(cmndq)) == [r] + if goOn then Trace(modes, pending, cmndq) else []
      ensures goOn ==>
        opmode != OClosed && (|cmndq| < |old(cmndq)| || (|cmndq| == |old(cmndq)| && PendingRank(pending) < PendingRank(old(pending))))
      ensures !goOn ==> (r == Ok(Exit) <==> opmode == OClosed)
    {
      TraceUnfold(modes, pending, cmndq);
      r := RunnerStep();
      if r.Err? || r == Ok(Exit) {
        return r, false;
      }
      if r == Ok(Halted) {
        if cmndq == [] {
          return r, false;
        }
        TakeQueued();
      }
      goOn := true;
    }

    /**
      * `_thrunner` with `_thrun_stopped` taking the next queued command
      * whenever nothing is pending: it stops at a close, at an exception,
      * or where the real thread would block on an empty queue.
      */
    method Runner() returns (trace: seq<Result<Outcome>>)
      requires opmode != OClosed
      modifies this
      ensures trace == Trace(modes, old(pending), old(cmndq))
      ensures (trace[|trace| - 1] == Ok(Exit)) == (opmode == OClosed)
    {
      trace := [];
      ghost var want := Trace(modes, pending, cmndq);
      while true
        invariant opmode != OClosed
        invariant want == trace + Trace(modes, pending, cmndq)
        decreases |cmndq|, PendingRank(pending)
      {
        var r, goOn := Pass();
        if !goOn {
          trace := trace + [r];
          return;
        }
        assert want == (trace + [r]) + Trace(modes, pending, cmndq);
        trace := trace + [r];
      }
    }
  }
}
