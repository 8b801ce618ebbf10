/**
  * The driver-independent part of a stepper motor (stepperbase.py): command
  * dispatch over the operating modes closed / stopped / softrun / dmarun and
  * the position bookkeeping of software stepping.
  */
module StepperBase {
  import opened Pulses
  import opened GpioPins

  datatype OpMode = Closed | Stopped | SoftRunning | DmaRunning

  /** The `mode` of a step mode: stepped from software, by DMA waves, or neither. */
  datatype StepKind = Software | Wave | OtherKind

  /** What `dothis` returns: nothing, or the string 'wave'. */
  datatype Reply = NoReply | WaveReply

  /** The arguments a software-stepping thread is started with. */
  datatype SoftRunRequest = SoftRunRequest(stepMode: string, command: string, targetPos: Option<int>, targetDir: Option<string>)

  const Commands: seq<string> := ["none", "close", "stop", "goto", "run", "onegoto", "setpos"]

  /** `1 if targetdir == 'fwd' else -1`. */
  function DirSignOf(targetDir: string): (d: int)
    ensures d == 1 || d == -1
    ensures d == 1 <==> targetDir == "fwd"
  {
    if targetDir == "fwd" then 1 else -1
  }

  class BaseStepper {
    const name: string
    /** The step modes declared for this motor and the kind of each. */
    const stepModes: map<string, StepKind>
    /** `drive_enable`: values 'enable' / 'disable'. */
    const driveEnable: OutPin
    /** `direction`: values 'F' / 'R'. */
    const direction: OutPin
    var opmode: OpMode
    var stepActive: bool
    var targetRawPos: int
    var targetDir: int
    var rawPos: int
    var updateTickerParams: bool
    var tickGenActive: bool
    var activeStepMode: string
    /** The software-stepping thread started by the last `dothis`, if any. */
    var softRun: Option<SoftRunRequest>

    ghost predicate Valid()
      reads this, driveEnable, direction
    {
      driveEnable != direction
      && driveEnable.Valid() && Named("enable") in driveEnable.vlist && Named("disable") in driveEnable.vlist
      && direction.Valid() && Named("F") in direction.vlist && Named("R") in direction.vlist
    }

    constructor (name: string, stepModes: map<string, StepKind>, driveEnable: OutPin, direction: OutPin)
      requires driveEnable != direction && driveEnable.Valid() && direction.Valid()
      requires Named("enable") in driveEnable.vlist && Named("disable") in driveEnable.vlist
      requires Named("F") in direction.vlist && Named("R") in direction.vlist
      ensures Valid() && this.name == name && this.stepModes == stepModes
      ensures this.driveEnable == driveEnable && this.direction == direction
      ensures opmode == Stopped && !stepActive && targetRawPos == 0 && targetDir == 1 && rawPos == 0
      ensures softRun == None
    {
      this.name := name;
      this.stepModes := stepModes;
      this.driveEnable := driveEnable;
      this.direction := direction;
      opmode := Stopped;
      stepActive := false;
      targetRawPos := 0;
      targetDir := 1;
      rawPos := 0;
      updateTickerParams := false;
      tickGenActive := false;
      activeStepMode := "-";
      softRun := None;
    }

    /**
      * `dothis`. The early return compares with the string 'None', not the
      * command 'none'. The drive is disabled by stop/close only when the
      * motor is already stopped or closed; a running motor is only asked to
      * stop by clearing `stepActive`.
      */
    method DoThis(command: string, targetPos: Option<int>, targetDir: Option<string>, stepMode: Option<string>)
      returns (r: Result<Reply>)
      requires Valid()
      modifies this, driveEnable
      ensures Valid()
      ensures command == "None" ==> r == Ok(NoReply) && unchanged(this, driveEnable)
      ensures command != "None" && old(opmode) == Closed ==> r.Err? && r.error.ValueError? && unchanged(this, driveEnable)
      ensures command != "None" && old(opmode) != Closed && command !in Commands ==> r == Err(AssertionError) && unchanged(this, driveEnable)
      // goto / onegoto / run from 'stopped': validate, then start software stepping or hand over to waves
      ensures command in ["goto", "onegoto", "run"] && old(opmode) == Stopped ==>
        if stepMode.None? || stepMode.value !in stepModes then r.Err? && r.error.ValueError? && unchanged(this, driveEnable)
        else if command == "run" && (targetDir.None? || targetDir.value !in ["fwd", "rev"]) then r == Err(AssertionError) && unchanged(this, driveEnable)
        else if command != "run" && targetPos.None? then r == Err(AssertionError) && unchanged(this, driveEnable)
        else match stepModes[stepMode.value]
          case Software =>
            r == Ok(NoReply) && opmode == SoftRunning && stepActive
            && softRun == Some(SoftRunRequest(stepMode.value, command, targetPos, targetDir))
            && rawPos == old(rawPos) && targetRawPos == old(targetRawPos) && this.targetDir == old(this.targetDir)
            && unchanged(driveEnable)
          case Wave => r == Ok(WaveReply) && unchanged(this, driveEnable)
          case OtherKind => r == Err(NotImplementedError) && unchanged(this, driveEnable)
      // goto / onegoto / run while moving: only the targets the step generator watches change
      ensures command in ["goto", "onegoto", "run"] && old(opmode) in {SoftRunning, DmaRunning} ==>
        r == Ok(NoReply) && updateTickerParams && opmode == old(opmode) && stepActive == old(stepActive)
        && targetRawPos == (if targetPos.Some? then targetPos.value else old(targetRawPos))
        && this.targetDir == (if targetDir.Some? then DirSignOf(targetDir.value) else old(this.targetDir))
        && rawPos == old(rawPos) && unchanged(driveEnable)
      ensures command in ["close", "stop"] && old(opmode) == Stopped ==>
        r == Ok(NoReply) && driveEnable.value == Named("disable") && opmode == old(opmode) && stepActive == old(stepActive)
      ensures command in ["close", "stop"] && old(opmode) in {SoftRunning, DmaRunning} ==>
        r == Ok(NoReply) && !stepActive && opmode == old(opmode) && unchanged(driveEnable)
      ensures command == "setpos" && old(opmode) == Stopped ==>
        (if targetPos.None? then r == Err(TypeError) else r == Ok(NoReply) && rawPos == targetPos.value)
        && opmode == old(opmode)
      ensures command == "setpos" && old(opmode) in {SoftRunning, DmaRunning} ==>
        r.Err? && r.error.ValueError? && unchanged(this, driveEnable)
      ensures command == "none" && old(opmode) != Closed ==> r == Ok(NoReply) && unchanged(this, driveEnable)
    {
      if command == "None" {
        return Ok(NoReply);
      }
      var curmode := opmode;
      if curmode == Closed {
        return Err(ValueError("motor is closed - cannot respond."));
      }
      if command !in Commands {
        return Err(AssertionError);
      }
      if command in ["goto", "onegoto", "run"] {
        if curmode == Stopped {
          if stepMode.None? || stepMode.value !in stepModes {
            return Err(ValueError("stepmode error: stepmode not found"));
          }
          if command == "run" && (targetDir.None? || targetDir.value !in ["fwd", "rev"]) {
            return Err(AssertionError);
          }
          if (command == "goto" || command == "onegoto") && targetPos.None? {
            return Err(AssertionError);
          }
          match stepModes[stepMode.value]
          case Software =>
            stepActive := true;
            opmode := SoftRunning;
            softRun := Some(SoftRunRequest(stepMode.value, command, targetPos, targetDir));
            r := Ok(NoReply);
          case Wave =>
            return Ok(WaveReply);
          case OtherKind =>
            return Err(NotImplementedError);
        } else {
          if targetPos.Some? {
            targetRawPos := targetPos.value;
          }
          if targetDir.Some? {
            this.targetDir := DirSignOf(targetDir.value);
          }
          updateTickerParams := true;
          r := Ok(NoReply);
        }
      } else if command == "close" || command == "stop" {
        if curmode == Stopped || curmode == Closed {
          var _ := driveEnable.SetValue(Named("disable"));
        } else if curmode == SoftRunning || curmode == DmaRunning {
          stepActive := false;
        }
        r := Ok(NoReply);
      } else if command == "setpos" {
        if curmode == Stopped {
          if targetPos.None? {
            return Err(TypeError);
          }
          rawPos := targetPos.value;
          r := Ok(NoReply);
        } else {
          return Err(ValueError("cannot set position in this mode"));
        }
      } else {
        r := Ok(NoReply);
      }
    }

    /**
      * `dmarun`: a wave step mode marks the motor active in 'dmarun' and the
      * caller gets the motor's pulse generator (result true); any other
      * kind changes nothing and gives `None` (result false).
      */
    method DmaRun(stepMode: string) returns (r: Result<bool>)
      modifies this
      ensures stepMode !in stepModes ==> r == Err(AttributeError) && unchanged(this)
      ensures stepMode in stepModes && stepModes[stepMode] == Wave ==>
        r == Ok(true) && stepActive && opmode == DmaRunning && rawPos == old(rawPos)
      ensures stepMode in stepModes && stepModes[stepMode] != Wave ==> r == Ok(false) && unchanged(this)
    {
      if stepMode !in stepModes {
        return Err(AttributeError);
      }
      if stepModes[stepMode] == Wave {
        stepActive := true;
        opmode := DmaRunning;
        return Ok(true);
      }
      return Ok(false);
    }

    /** `waitstop`, once the stepping thread has ended: drive disabled, motor closed. */
    method WaitStop()
      requires Valid()
      modifies this, driveEnable
      ensures Valid() && opmode == Closed && driveEnable.value == Named("disable")
      ensures rawPos == old(rawPos) && stepActive == old(stepActive)
    {
      var _ := driveEnable.SetValue(Named("disable"));
      opmode := Closed;
    }

    /** The targets `pulsegen` records first: position and direction. */
    method Aim(targetPos: int, dir: int)
      requires Valid()
      modifies this`targetRawPos, this`targetDir
      ensures Valid() && targetRawPos == targetPos && targetDir == dir
    {
      targetRawPos := targetPos;
      targetDir := dir;
    }

    /** The targets `pulsegen` records before it generates: position and direction, with tick generation on. */
    method AimTicks(targetPos: int, dir: int)
      requires Valid()
      modifies this`targetRawPos, this`targetDir, this`tickGenActive
      ensures Valid() && targetRawPos == targetPos && targetDir == dir && tickGenActive
    {
      targetRawPos := targetPos;
      targetDir := dir;
      tickGenActive := true;
    }

    /** The step mode a coil driver's `pulsegen` runs in, with the motor marked active. */
    method ArmStepMode(level: string)
      requires Valid()
      modifies this`activeStepMode, this`stepActive
      ensures Valid() && activeStepMode == level && stepActive
    {
      activeStepMode := level;
      stepActive := true;
    }

    /**
      * The opening of `_softrun`: the targets, the active step mode and
      * 'enable' on the drive; `enabled` tells whether that changed the
      * drive's value, and so whether its watchers are notified.
      */
    method BeginSoftRun(req: SoftRunRequest, ustepLevel: string) returns (enabled: bool)
      requires Valid()
      modifies this, driveEnable
      ensures Valid() && driveEnable.value == Named("enable")
      ensures enabled <==> old(driveEnable.value) != Named("enable")
      ensures targetRawPos == (if req.targetPos.Some? then req.targetPos.value else old(targetRawPos))
      ensures targetDir == (if req.targetDir.Some? then DirSignOf(req.targetDir.value) else -1)
      ensures activeStepMode == ustepLevel
      ensures opmode == old(opmode) && rawPos == old(rawPos) && stepActive == old(stepActive)
    {
      if req.targetPos.Some? {
        targetRawPos := req.targetPos.value;
      }
      targetDir := if req.targetDir.Some? then DirSignOf(req.targetDir.value) else -1;
      activeStepMode := ustepLevel;
      enabled := driveEnable.SetValue(Named("enable"));
    }

    /**
      * The close of `_softrun` once the tick source is exhausted: the
      * accumulated position is published, the motor is 'stopped' and no
      * longer active. The driver's `endstepping` runs alongside.
      */
    method EndSoftRun(newPos: int)
      requires Valid()
      modifies this
      ensures Valid()
      ensures rawPos == newPos && opmode == Stopped && !stepActive
      ensures targetRawPos == old(targetRawPos) && targetDir == old(targetDir)
    {
      rawPos := newPos;
      opmode := Stopped;
      stepActive := false;
    }
  }

  /** What the software-stepping loop does for one tick: trigger a step, or set the direction pin. */
  datatype SoftAction = StepPulse | SetDirection(dir: char)

  /** The loop variables of `_softrun`: position, direction sign (unbound until the first direction tick), actions so far. */
  datatype SoftState = SoftState(pos: int, sign: Option<int>, actions: seq<SoftAction>, failed: bool)

  /**
    * One tick of the `_softrun` loop. A float tick triggers a step and adds
    * `poschange*dirsign`; before any direction tick `dirsign` is unbound and
    * the thread dies right after the trigger. `None` only waits.
    */
  function SoftStep(s: SoftState, t: Tick, posChange: int): SoftState
  {
    if s.failed then s
    else match t
      case Idle => s
      case Interval(_) =>
        if s.sign.None? then s.(actions := s.actions + [StepPulse], failed := true)
        else s.(pos := s.pos + posChange * s.sign.value, actions := s.actions + [StepPulse])
      case DirChange(d, _) => s.(sign := Some(if d == 'F' then 1 else -1), actions := s.actions + [SetDirection(d)])
  }

  function SoftRunFrom(start: int, posChange: int, ts: seq<Tick>): SoftState
  {
    if |ts| == 0 then SoftState(start, None, [], false)
    else SoftStep(SoftRunFrom(start, posChange, ts[..|ts| - 1]), ts[|ts| - 1], posChange)
  }

  /** The sign of the last direction tick among `ts`. */
  function LastDirSign(ts: seq<Tick>): Option<int>
  {
    if |ts| == 0 then None
    else match ts[|ts| - 1]
      case DirChange(d, _) => Some(if d == 'F' then 1 else -1)
      case _ => LastDirSign(ts[..|ts| - 1])
  }

  /** Some float tick comes before any direction tick. */
  predicate StepsBeforeDirection(ts: seq<Tick>)
  {
    |ts| > 0
    && (StepsBeforeDirection(ts[..|ts| - 1]) || (ts[|ts| - 1].Interval? && LastDirSign(ts[..|ts| - 1]).None?))
  }

  /** One more signed step moves the position by `poschange` once more. */
  lemma {:induction false} StepMoves(start: int, posChange: int, steps: int, m: int)
    ensures start + posChange * steps + m * posChange == start + posChange * (steps + m)
    ensures start + posChange * steps + posChange * m == start + posChange * (steps + m)
  {
  }

  /** The sum, over the float ticks, of the direction sign in force at each. */
  function SignedSteps(ts: seq<Tick>): int
  {
    if |ts| == 0 then 0
    else
      var prev := ts[..|ts| - 1];
      SignedSteps(prev) + if ts[|ts| - 1].Interval? && LastDirSign(prev).Some? then LastDirSign(prev).value else 0
  }

  function CountIntervals(ts: seq<Tick>): nat
  {
    if |ts| == 0 then 0 else CountIntervals(ts[..|ts| - 1]) + if ts[|ts| - 1].Interval? then 1 else 0
  }

  function CountSteps(acts: seq<SoftAction>): nat
  {
    if |acts| == 0 then 0 else CountSteps(acts[..|acts| - 1]) + if acts[|acts| - 1] == StepPulse then 1 else 0
  }

  /**
    * The software-stepping loop fails exactly when a float tick precedes
    * every direction tick; otherwise the final position is the start plus
    * `poschange` times the signed step count, and one step is triggered per
    * float tick.
    */
  lemma {:induction false} SoftRunPosition(start: int, posChange: int, ts: seq<Tick>)
    ensures !StepsBeforeDirection(ts) ==> SoftRunFrom(start, posChange, ts).sign == LastDirSign(ts)
    ensures SoftRunFrom(start, posChange, ts).failed <==> StepsBeforeDirection(ts)
    ensures !StepsBeforeDirection(ts) ==>
      SoftRunFrom(start, posChange, ts).pos == start + posChange * SignedSteps(ts)
      && CountSteps(SoftRunFrom(start, posChange, ts).actions) == CountIntervals(ts)
  {
    SoftRunSign(start, posChange, ts);
    SoftRunPos(start, posChange, ts);
    SoftRunCount(start, posChange, ts);
  }

  lemma {:induction false} SoftRunSign(start: int, posChange: int, ts: seq<Tick>)
    ensures !StepsBeforeDirection(ts) ==> SoftRunFrom(start, posChange, ts).sign == LastDirSign(ts)
    ensures SoftRunFrom(start, posChange, ts).failed <==> StepsBeforeDirection(ts)
  {
    if |ts| > 0 {
      var prev := ts[..|ts| - 1];
      var t := ts[|ts| - 1];
      SoftRunSign(start, posChange, prev);
      assert SoftRunFrom(start, posChange, ts) == SoftStep(SoftRunFrom(start, posChange, prev), t, posChange);
      assert LastDirSign(ts) == if t.DirChange? then Some(if t.dir == 'F' then 1 else -1) else LastDirSign(prev);
    } else {
      assert !StepsBeforeDirection(ts);
    }
  }

  lemma {:induction false} SoftRunPos(start: int, posChange: int, ts: seq<Tick>)
    ensures !StepsBeforeDirection(ts) ==> SoftRunFrom(start, posChange, ts).pos == start + posChange * SignedSteps(ts)
  {
    if |ts| > 0 {
      var prev := ts[..|ts| - 1];
      var t := ts[|ts| - 1];
      SoftRunPos(start, posChange, prev);
      SoftRunSign(start, posChange, prev);
      SoftRunSign(start, posChange, ts);
      var s := SoftRunFrom(start, posChange, prev);
      assert SoftRunFrom(start, posChange, ts) == SoftStep(s, t, posChange);
      assert SignedSteps(ts) == SignedSteps(prev) + if t.Interval? && LastDirSign(prev).Some? then LastDirSign(prev).value else 0;
      if !s.failed && t.Interval? && LastDirSign(prev).Some? {
        StepMoves(start, posChange, SignedSteps(prev), LastDirSign(prev).value);
      }
    }
  }

  lemma {:induction false} SoftRunCount(start: int, posChange: int, ts: seq<Tick>)
    ensures !StepsBeforeDirection(ts) ==> CountSteps(SoftRunFrom(start, posChange, ts).actions) == CountIntervals(ts)
  {
    if |ts| > 0 {
      var prev := ts[..|ts| - 1];
      var t := ts[|ts| - 1];
      SoftRunCount(start, posChange, prev);
      SoftRunSign(start, posChange, ts);
      SoftRunSign(start, posChange, prev);
      var s := SoftRunFrom(start, posChange, prev);
      assert SoftRunFrom(start, posChange, ts) == SoftStep(s, t, posChange);
      assert CountIntervals(ts) == CountIntervals(prev) + if t.Interval? then 1 else 0;
      if !s.failed {
        match t
        case Idle =>
        case Interval(_) =>
          assert CountSteps(s.actions + [StepPulse]) == CountSteps(s.actions) + 1 by {
            assert (s.actions + [StepPulse])[..|s.actions|] == s.actions;
          }
        case DirChange(d, _) =>
          assert CountSteps(s.actions + [SetDirection(d)]) == CountSteps(s.actions) by {
            assert (s.actions + [SetDirection(d)])[..|s.actions|] == s.actions;
          }
      }
    }
  }

  /**
    * The tick loop of `_softrun`: the final position, the step triggers and
    * direction settings in order, and whether the thread died.
    */
  method SoftRunLoop(start: int, posChange: int, ticks: seq<Tick>) returns (newPos: int, actions: seq<SoftAction>, failed: bool)
    ensures failed <==> StepsBeforeDirection(ticks)
    ensures !failed ==> newPos == start + posChange * SignedSteps(ticks) && CountSteps(actions) == CountIntervals(ticks)
    ensures var s := SoftRunFrom(start, posChange, ticks); newPos == s.pos && actions == s.actions && failed == s.failed
  {
    newPos, actions, failed := start, [], false;
    var dirSign: Option<int> := None;
    var i := 0;
    while i < |ticks| && !failed
      invariant 0 <= i <= |ticks|
      invariant SoftState(newPos, dirSign, actions, failed) == SoftRunFrom(start, posChange, ticks[..i])
    {
      assert ticks[..i + 1][..i] == ticks[..i];
      match ticks[i] {
        case Idle =>
        case Interval(_) =>
          actions := actions + [StepPulse];
          if dirSign.None? {
            failed := true;
          } else {
            newPos := newPos + posChange * dirSign.value;
          }
        case DirChange(d, _) =>
          dirSign := Some(if d == 'F' then 1 else -1);
          actions := actions + [SetDirection(d)];
      }
      i := i + 1;
    }
    FailedStaysFailed(start, posChange, ticks, i);
    SoftRunPosition(start, posChange, ticks);
  }

  /** Once the loop has died, later ticks change nothing. */
  lemma {:induction false} FailedStaysFailed(start: int, posChange: int, ts: seq<Tick>, i: nat)
    requires i <= |ts|
    requires i < |ts| ==> SoftRunFrom(start, posChange, ts[..i]).failed
    ensures SoftRunFrom(start, posChange, ts) == SoftRunFrom(start, posChange, ts[..i])
    decreases |ts| - i
  {
    if i < |ts| {
      assert ts[..i + 1][..i] == ts[..i];
      if i + 1 < |ts| {
        FailedStaysFailed(start, posChange, ts, i + 1);
      } else {
        assert ts[..i + 1] == ts;
      }
    } else {
      assert ts[..i] == ts;
    }
  }
}
