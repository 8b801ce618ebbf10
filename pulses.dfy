/**
  * Values shared by the pulse generators, the pulse merges and the wave builder:
  * GPIO bit masks, the pulse record a generator yields, the tick a motion
  * planner feeds a generator, and the exceptions the Python code can raise.
  */
module Pulses {

  datatype Option<T> = None | Some(value: T)

  /** The Python exceptions that end an operation of the modelled code. */
  datatype PyError =
    | AssertionError
    | ValueError(msg: string)
    | TypeError
    | KeyError
    | AttributeError
    | NameError
    | IndexError
    | RuntimeError
    | NotImplementedError
    | UnboundLocalError
    | ZeroDivisionError

  datatype Result<T> = Ok(value: T) | Err(error: PyError)

  /**
    * A GPIO bit mask, as the set of the Broadcom pin numbers whose bits are
    * set: Python's `|` on masks is union here, `&` is intersection and the
    * mask 0 is the empty set.
    */
  type Mask = set<nat>

  /** `1 << pinno`. */
  function PinBit(p: nat): (m: Mask)
    ensures p in m && |m| == 1
  {
    {p}
  }

  /** The action field (index 5) of a pulse: 0 normal, -1 action complete, 1 no-op. */
  datatype Action = Normal | Complete | NoOp

  /**
    * The 6-tuple a pulse generator yields: bits to set, bits to clear, the
    * microsecond time of the pulse, the motor's raw position after it, the
    * motor's name and the action.
    */
  datatype Pulse = Pulse(on: Mask, off: Mask, time: int, pos: int, motor: string, action: Action)

  /**
    * One item of a motion planner's tick stream: `None` (the motor is
    * stationary), a float step interval in seconds, or a (direction, interval)
    * tuple. Intervals are exact non-negative reals here.
    */
  datatype Tick = Idle | Interval(secs: real) | DirChange(dir: char, secs: real)

  predicate TickOk(t: Tick)
  {
    match t
    case Idle => true
    case Interval(s) => s >= 0.0
    case DirChange(_, s) => s >= 0.0
  }

  predicate TicksOk(ts: seq<Tick>)
  {
    forall i :: 0 <= i < |ts| ==> TickOk(ts[i])
  }

  /** Every direction tick names 'F' or 'R'. */
  predicate DirsValid(ts: seq<Tick>)
  {
    forall i :: 0 <= i < |ts| ==> ts[i].DirChange? ==> ts[i].dir == 'F' || ts[i].dir == 'R'
  }

  /**
    * `divmod(secs*1000000 + carry, 1)`: the whole microseconds to wait and the
    * fraction of a microsecond carried to the next interval.
    */
  function SplitMicros(secs: real, carry: real): (r: (int, real))
    requires secs >= 0.0 && 0.0 <= carry < 1.0
    ensures r.0 >= 0 && 0.0 <= r.1 < 1.0
    ensures r.0 as real + r.1 == secs * 1000000.0 + carry
  {
    var x := secs * 1000000.0 + carry;
    (x.Floor, x - x.Floor as real)
  }

  /** The total of the intervals of `ts`, in seconds. */
  function SumSecs(ts: seq<Tick>): real
  {
    if |ts| == 0 then 0.0
    else SumSecs(ts[..|ts| - 1]) + match ts[|ts| - 1] { case Idle => 0.0 case Interval(s) => s case DirChange(_, s) => s }
  }

  /** Python's `max` of a non-empty list of ints. */
  function MaxOf(s: seq<int>): (m: int)
    requires |s| > 0
    ensures m in s
    ensures forall i :: 0 <= i < |s| ==> s[i] <= m
  {
    if |s| == 1 then s[0]
    else
      var rest := MaxOf(s[1..]);
      if s[0] >= rest then s[0] else rest
  }

  /** Times that never decrease along a pulse list. */
  predicate TimeOrdered(ps: seq<Pulse>)
  {
    forall i, j :: 0 <= i < j < |ps| ==> ps[i].time <= ps[j].time
  }

  /** The pulses so far are in time order and none is later than the clock. */
  predicate OrderedUpTo(out: seq<Pulse>, clock: int)
  {
    TimeOrdered(out) && forall i :: 0 <= i < |out| ==> out[i].time <= clock
  }

  lemma {:induction false} OrderedAppend(out: seq<Pulse>, clock: int, more: seq<Pulse>, clock2: int)
    requires OrderedUpTo(out, clock) && clock <= clock2
    requires TimeOrdered(more) && forall i :: 0 <= i < |more| ==> clock <= more[i].time <= clock2
    ensures OrderedUpTo(out + more, clock2)
  {
  }

  /** The last element of a non-empty sequence. */
  function Last<T>(s: seq<T>): T
    requires s != []
  {
    s[|s| - 1]
  }

  lemma {:induction false} LastAppend<T>(a: seq<T>, b: seq<T>)
    requires b != []
    ensures Last(a + b) == Last(b)
  {
  }
}
