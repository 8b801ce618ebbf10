/**
  * GPIO output pins, trigger pins and the microstep-level pin set
  * (gpiopins.py). The pigpio connection is represented by the list of calls
  * each pin has made on it.
  */
module GpioPins {
  import opened Pulses

  /** A value a pin can take: the levels 0/1 or a name such as 'F' or 'enable'. */
  datatype PinValue = Level(n: int) | Named(s: string)

  /** A call made on the pigpio connection. */
  datatype HwOp =
    | SetOutput(pin: int)
    | SetInput(pin: int)
    | Write(pin: int, level: int)
    | Trigger(pin: int, micros: int, pulseValue: PinValue)
    | Pwm(pin: int, duty: int)

  /** The `value` dict given to an output pin; absent keys are `None`. */
  datatype PinConfig = PinConfig(pinno: int, vlist: Option<seq<PinValue>>, closeValue: Option<PinValue>, value: Option<PinValue>)

  function VList(c: PinConfig): seq<PinValue>
  {
    if c.vlist.Some? then c.vlist.value else [Level(0), Level(1)]
  }

  /**
    * The assertions of `gpio_out_pin.__init__`, in the order it makes them.
    * On success the result is the pin's initial value.
    */
  function ValidateOutPin(c: PinConfig): (r: Result<PinValue>)
    ensures r.Ok? <==>
      |VList(c)| == 2
      && (c.closeValue.Some? ==> c.closeValue.value in VList(c))
      && (c.value.None? || c.value.value in VList(c))
      && -1 <= c.pinno <= 31
    ensures r.Ok? ==> r.value in VList(c)
    ensures r.Ok? ==> r.value == (if c.value.Some? then c.value.value else VList(c)[0])
  {
    var vl := VList(c);
    if |vl| != 2 then Err(AssertionError)
    else if c.closeValue.Some? && c.closeValue.value !in vl then Err(AssertionError)
    else
      var v := if c.value.Some? then c.value.value else vl[0];
      if v !in vl then Err(AssertionError)
      else if !(-1 <= c.pinno <= 31) then Err(AssertionError)
      else Ok(v)
  }

  /**
    * The (bits on, bits off) pair for driving a pin to `v` in a wave: `None`
    * when there is no physical pin, otherwise the pin bit on the side chosen
    * by whether `v` is the low value `vlist[0]`.
    */
  function BitsFor(pinno: int, low: PinValue, v: PinValue): (r: Option<(Mask, Mask)>)
    ensures r.None? <==> pinno < 0
    ensures r.Some? ==> (r.value.0 == {} || r.value.1 == {})
    ensures r.Some? ==> r.value.0 + r.value.1 == PinBit(pinno)
    ensures r.Some? ==> (r.value.0 == PinBit(pinno) <==> v != low)
  {
    if pinno < 0 then None
    else
      var bim := PinBit(pinno);
      if v == low then Some(({}, bim)) else Some((bim, {}))
  }

  class OutPin {
    const pinno: int
    const vlist: seq<PinValue>
    const closeValue: Option<PinValue>
    var value: PinValue
    /** The calls this pin has made on the pigpio connection, oldest first. */
    var hw: seq<HwOp>

    ghost predicate Valid()
      reads this
    {
      |vlist| == 2 && value in vlist && -1 <= pinno <= 31
      && (closeValue.Some? ==> closeValue.value in vlist)
    }

    /** `vlist.index(value)`: 0 drives the pin low, 1 high. */
    function Index(): (i: int)
      reads this
      requires Valid()
      ensures 0 <= i < 2 && vlist[i] == value
      ensures i == 1 ==> value != vlist[0]
    {
      if value == vlist[0] then 0 else 1
    }

    /**
      * A pin is set to output and written only when pinno > 0, so pin 0 is
      * never initialised although it can be written later.
      */
    constructor (c: PinConfig)
      requires ValidateOutPin(c).Ok?
      ensures Valid()
      ensures pinno == c.pinno && vlist == VList(c) && closeValue == c.closeValue
      ensures value == ValidateOutPin(c).value
      ensures hw == if pinno > 0 then [SetOutput(pinno), Write(pinno, Index())] else []
    {
      pinno := c.pinno;
      vlist := VList(c);
      closeValue := c.closeValue;
      value := ValidateOutPin(c).value;
      hw := [];
      new;
      if pinno > 0 {
        hw := [SetOutput(pinno)];
        SetPin(Index());
      }
    }

    /** Writes the level only when there is a physical pin (pinno >= 0). */
    method SetPin(level: int)
      modifies this`hw
      ensures hw == old(hw) + if pinno >= 0 then [Write(pinno, level)] else []
    {
      if pinno >= 0 {
        hw := hw + [Write(pinno, level)];
      }
    }

    /** The write `setValue` makes when the value was `before`: the current level, only if it changed and the pin exists. */
    function WritesSince(before: PinValue): (ops: seq<HwOp>)
      reads this
      requires Valid()
      ensures |ops| <= 1 && (ops != [] <==> before != value && pinno >= 0)
    {
      if before != value && pinno >= 0 then [Write(pinno, Index())] else []
    }

    /** Returns whether the value changed; the pin is written only then. */
    method SetValue(v: PinValue) returns (changed: bool)
      requires Valid() && v in vlist
      modifies this
      ensures Valid() && value == v
      ensures changed <==> old(value) != v
      ensures hw == old(hw) + if changed && pinno >= 0 then [Write(pinno, Index())] else []
      ensures hw == old(hw) + WritesSince(old(value))
    {
      changed := value != v;
      value := v;
      if changed {
        SetPin(Index());
      }
    }

    /** The calls `shutdown` makes on the connection. */
    function ShutdownOps(): seq<HwOp>
      requires |vlist| == 2
    {
      if pinno < 0 then []
      else if closeValue.None? then [SetInput(pinno)]
      else [Write(pinno, if closeValue.value == vlist[0] then 0 else 1)]
    }

    /** Back to input mode, or to `closeValue` when one was configured. */
    method Shutdown()
      requires Valid()
      modifies this`hw
      ensures hw == old(hw) + ShutdownOps()
      ensures pinno < 0 ==> hw == old(hw)
      ensures pinno >= 0 && closeValue.None? ==> hw == old(hw) + [SetInput(pinno)]
      ensures pinno >= 0 && closeValue.Some? ==>
        hw == old(hw) + [Write(pinno, if closeValue.value == vlist[0] then 0 else 1)]
    {
      if pinno >= 0 {
        if closeValue.None? {
          hw := hw + [SetInput(pinno)];
        } else {
          SetPin(if closeValue.value == vlist[0] then 0 else 1);
        }
      }
    }

    /** The wave bits for `v`, or for the current value when `v` is `None`. */
    function GetBits(v: Option<PinValue>): (r: Option<(Mask, Mask)>)
      reads this
      requires Valid()
      ensures r.None? <==> pinno < 0
      ensures r.Some? ==> (r.value.0 == {} || r.value.1 == {}) && r.value.0 + r.value.1 == PinBit(pinno)
      ensures r.Some? ==> (r.value.1 == PinBit(pinno) <==> (if v.None? then value else v.value) == vlist[0])
    {
      BitsFor(pinno, vlist[0], if v.None? then value else v.value)
    }

    /** Drives the pin to `vlist[1]` for `micros` microseconds. */
    method TriggerPulse(micros: int)
      requires Valid()
      modifies this`hw
      ensures hw == old(hw) + if pinno >= 0 then [Trigger(pinno, micros, vlist[1])] else []
    {
      if pinno >= 0 {
        hw := hw + [Trigger(pinno, micros, vlist[1])];
      }
    }
  }

  /** The `value` dict of a trigger pin: an output pin's keys plus pulse time and polarity. */
  datatype TriggerConfig = TriggerConfig(pinno: int, pulseTime: int, pulse1: Option<bool>, closeValue: Option<PinValue>, value: Option<PinValue>)

  /**
    * The output-pin configuration a trigger pin passes on: `pulsetime` is
    * dropped and `vlist` is (0,1) unless `pulse1` is given as false.
    */
  function TriggerOutConfig(t: TriggerConfig): (c: PinConfig)
    ensures c.vlist.Some? && |c.vlist.value| == 2
    ensures c.vlist.value[0] == Level(0) <==> t.pulse1 != Some(false)
    ensures {c.vlist.value[0], c.vlist.value[1]} == {Level(0), Level(1)}
    ensures c.pinno == t.pinno && c.closeValue == t.closeValue && c.value == t.value
  {
    var vl := if t.pulse1 == Some(false) then [Level(1), Level(0)] else [Level(0), Level(1)];
    PinConfig(t.pinno, Some(vl), t.closeValue, t.value)
  }

  class TriggerPin {
    const out: OutPin
    const pulseTime: int

    ghost predicate Valid()
      reads this, out
    {
      out.Valid()
    }

    constructor (t: TriggerConfig)
      requires ValidateOutPin(TriggerOutConfig(t)).Ok?
      ensures Valid() && fresh(out) && pulseTime == t.pulseTime
      ensures out.pinno == t.pinno && out.vlist == VList(TriggerOutConfig(t))
    {
      pulseTime := t.pulseTime;
      out := new OutPin(TriggerOutConfig(t));
    }

    /** One pulse of `pulseTime` microseconds at `vlist[1]`, when the pin exists. */
    method Fire()
      requires Valid()
      modifies out`hw
      ensures Valid()
      ensures out.hw == old(out.hw) + if out.pinno >= 0 then [Trigger(out.pinno, pulseTime, out.vlist[1])] else []
    {
      out.TriggerPulse(pulseTime);
    }
  }

  /**
    * The setup dict of a microstep pin set: one output-pin config per pin,
    * the levels (microsteps per step) in the dict's key order with the pin
    * values of each, and the optional initial level.
    */
  datatype UstepConfig = UstepConfig(pins: seq<PinConfig>, levels: seq<int>, levelPins: map<int, seq<PinValue>>, value: Option<int>)

  ghost predicate LevelsWellFormed(u: UstepConfig)
  {
    (forall i, j :: 0 <= i < j < |u.levels| ==> u.levels[i] != u.levels[j])
    && (forall k :: k in u.levels ==> k in u.levelPins) && (forall k :: k in u.levelPins ==> k in u.levels)
  }

  /** Every level value is one the pin it goes to accepts. */
  predicate LevelValuesAccepted(u: UstepConfig)
    requires forall i :: 0 <= i < |u.pins| ==> ValidateOutPin(u.pins[i]).Ok?
  {
    forall k, i :: k in u.levelPins && 0 <= i < |u.levelPins[k]| && i < |u.pins| ==> u.levelPins[k][i] in VList(u.pins[i])
  }

  /**
    * The checks of `usteplevel_pinset.__init__`: every level lists one value
    * per pin, the initial level is a known one, and every pin config is
    * valid. Without a 'value' key the default expression is a `dict_keys`
    * object, which is unhashable, so the membership test raises TypeError.
    */
  function ValidateUstep(u: UstepConfig): (r: Result<int>)
    requires LevelsWellFormed(u)
    ensures r.Ok? <==>
      (forall k :: k in u.levelPins ==> |u.levelPins[k]| == |u.pins|)
      && u.value.Some? && u.value.value in u.levels
      && (forall i :: 0 <= i < |u.pins| ==> ValidateOutPin(u.pins[i]).Ok?)
    ensures u.value.None? && (forall k :: k in u.levelPins ==> |u.levelPins[k]| == |u.pins|) ==> r == Err(TypeError)
    ensures r.Ok? ==> r.value in u.levelPins && |u.levels| > 0
  {
    if exists k :: k in u.levelPins && |u.levelPins[k]| != |u.pins| then Err(AssertionError)
    else if u.value.None? then Err(TypeError)
    else
      var v := u.value.value;
      if v !in u.levels then Err(AssertionError)
      else if exists i :: 0 <= i < |u.pins| && !ValidateOutPin(u.pins[i]).Ok? then Err(AssertionError)
      else Ok(v)
  }

  class UstepPinset {
    const levels: seq<int>
    const levelPins: map<int, seq<PinValue>>
    const msPins: seq<OutPin>
    const maxMicrosteps: int
    var value: int

    ghost predicate Valid()
      reads this, msPins
    {
      |levels| > 0
      && (forall k :: k in levels ==> k in levelPins) && (forall k :: k in levelPins ==> k in levels)
      && (forall k :: k in levelPins ==> |levelPins[k]| == |msPins|)
      && (forall i, j :: 0 <= i < j < |msPins| ==> msPins[i] != msPins[j])
      && (forall i :: 0 <= i < |msPins| ==> msPins[i].Valid())
      && (forall k, i :: k in levelPins && 0 <= i < |msPins| ==> levelPins[k][i] in msPins[i].vlist)
      && value in levelPins
      && maxMicrosteps == MaxOf(levels)
    }

    /** The level values currently on the pins. */
    function PinValues(): (s: seq<PinValue>)
      reads this, msPins
      ensures |s| == |msPins|
    {
      seq(|msPins|, i reads msPins requires 0 <= i < |msPins| => msPins[i].value)
    }

    constructor (u: UstepConfig)
      requires LevelsWellFormed(u) && ValidateUstep(u).Ok? && LevelValuesAccepted(u)
      ensures Valid() && value == u.value.value
      ensures levels == u.levels && levelPins == u.levelPins && |msPins| == |u.pins|
      ensures forall i :: 0 <= i < |msPins| ==> fresh(msPins[i]) && msPins[i].pinno == u.pins[i].pinno
      ensures PinValues() == levelPins[value]
    {
      levels := u.levels;
      levelPins := u.levelPins;
      maxMicrosteps := MaxOf(u.levels);
      value := u.value.value;
      var made: seq<OutPin> := [];
      while |made| < |u.pins|
        invariant |made| <= |u.pins|
        invariant forall i :: 0 <= i < |made| ==> fresh(made[i]) && made[i].Valid()
        invariant forall i :: 0 <= i < |made| ==> made[i].pinno == u.pins[i].pinno && made[i].vlist == VList(u.pins[i])
        invariant forall i, j :: 0 <= i < j < |made| ==> made[i] != made[j]
      {
        var p := new OutPin(u.pins[|made|]);
        made := made + [p];
      }
      msPins := made;
      new;
      var ok := SetValue(u.value.value, true);
    }

    /** The largest level. */
    function MaxUsteps(): (m: int)
      reads this, msPins
      requires Valid()
      ensures m in levels && forall i :: 0 <= i < |levels| ==> levels[i] <= m
    {
      maxMicrosteps
    }

    /**
      * Only an agent of the application's agent class may set the level;
      * then every level pin is set to its value for that level.
      */
    method SetValue(v: int, knownAgent: bool) returns (ok: bool)
      requires Valid() && v in levelPins
      modifies this, msPins
      ensures Valid() && ok == knownAgent
      ensures ok ==> value == v && PinValues() == levelPins[v]
      ensures ok ==> forall i :: 0 <= i < |msPins| ==> msPins[i].hw == old(msPins[i].hw) + msPins[i].WritesSince(old(msPins[i].value))
      ensures !ok ==> value == old(value) && PinValues() == old(PinValues())
      ensures !ok ==> forall i :: 0 <= i < |msPins| ==> msPins[i].hw == old(msPins[i].hw)
    {
      if !knownAgent {
        return false;
      }
      value := v;
      var vset := levelPins[v];
      ghost var hw0 := seq(|msPins|, j reads msPins requires 0 <= j < |msPins| => msPins[j].hw);
      ghost var val0 := seq(|msPins|, j reads msPins requires 0 <= j < |msPins| => msPins[j].value);
      var i := 0;
      while i < |vset|
        invariant 0 <= i <= |vset| == |msPins| == |hw0| == |val0|
        invariant value == v
        invariant forall j, k :: 0 <= j < k < |msPins| ==> msPins[j] != msPins[k]
        invariant forall j :: 0 <= j < |msPins| ==> msPins[j].Valid()
        invariant forall j :: 0 <= j < i ==> msPins[j].value == vset[j] && msPins[j].hw == hw0[j] + msPins[j].WritesSince(val0[j])
        invariant forall j :: i <= j < |msPins| ==> msPins[j].hw == hw0[j] && msPins[j].value == val0[j]
      {
        var _ := msPins[i].SetValue(vset[i]);
        i := i + 1;
      }
      ok := true;
      assert PinValues() == vset by {
        forall j | 0 <= j < |msPins| ensures PinValues()[j] == vset[j] { }
      }
    }

    /** Shuts every level pin down, in order; only their call logs change. */
    method Shutdown()
      requires Valid()
      modifies msPins
      ensures Valid()
      ensures forall i :: 0 <= i < |msPins| ==> msPins[i].hw == old(msPins[i].hw) + msPins[i].ShutdownOps()
      ensures forall i :: 0 <= i < |msPins| ==> msPins[i].value == old(msPins[i].value)
    {
      for i := 0 to |msPins|
        invariant Valid()
        invariant forall j :: 0 <= j < i ==> msPins[j].hw == old(msPins[j].hw) + msPins[j].ShutdownOps()
        invariant forall j :: i <= j < |msPins| ==> msPins[j].hw == old(msPins[j].hw)
        invariant forall j :: 0 <= j < |msPins| ==> msPins[j].value == old(msPins[j].value)
      {
        msPins[i].Shutdown();
      }
    }
  }
}
