/**
  * Unipolar motors whose four coils are switched directly, for example
  * through a ULN2003 (stepperunid.py): the built-in coil phase tables,
  * software stepping through PWM duty cycles, and the DMA pulse generator
  * that switches each coil fully on or off.
  */
module StepperUnid {
  import opened Pulses
  import opened GpioPins
  import opened StepperBase

  /** A microstep table: microsteps per step and one row of four coil duty values per phase. */
  datatype UstepTable = UstepTable(factor: int, rows: seq<seq<int>>)

  /** The table names in the order the tables are declared. */
  const TableNames: seq<string> := ["single", "double", "two", "four"]

  const UstepTables: map<string, UstepTable> := map[
    "single" := UstepTable(1, [[255, 0, 0, 0], [0, 255, 0, 0], [0, 0, 255, 0], [0, 0, 0, 255]]),
    "double" := UstepTable(1, [[255, 255, 0, 0], [0, 255, 255, 0], [0, 0, 255, 255], [255, 0, 0, 255]]),
    "two" := UstepTable(2, [[255, 0, 0, 0], [128, 128, 0, 0], [0, 255, 0, 0], [0, 128, 128, 0],
                            [0, 0, 255, 0], [0, 0, 128, 128], [0, 0, 0, 255], [128, 0, 0, 128]]),
    "four" := UstepTable(4, [[255, 0, 0, 0], [192, 64, 0, 0], [128, 128, 0, 0], [64, 192, 0, 0],
                             [0, 255, 0, 0], [0, 192, 64, 0], [0, 128, 128, 0], [0, 64, 192, 0],
                             [0, 0, 255, 0], [0, 0, 192, 64], [0, 0, 128, 128], [0, 0, 64, 192],
                             [0, 0, 0, 255], [64, 0, 0, 192], [128, 0, 0, 128], [192, 0, 0, 64]])
  ]

  /** Every built-in table has at least four rows of four duty values. */
  predicate TableShapeOk(t: UstepTable)
  {
    |t.rows| >= 4 && forall k :: 0 <= k < |t.rows| ==> |t.rows[k]| == 4
  }

  lemma {:induction false} TablesWellShaped()
    ensures forall n :: n in UstepTables <==> n in TableNames
    ensures forall n :: n in UstepTables ==> TableShapeOk(UstepTables[n])
  {
    assert UstepTables.Keys == {"single", "double", "two", "four"};
    forall n | n in UstepTables
      ensures TableShapeOk(UstepTables[n])
    {
      var rows := UstepTables[n].rows;
      assert forall k :: 0 <= k < |rows| ==> |rows[k]| == 4;
    }
  }

  function Factors(): seq<int>
  {
    seq(|TableNames|, i requires 0 <= i < |TableNames| => UstepTables[TableNames[i]].factor)
  }

  /** `getmaxusteplevel`: the largest factor of the built-in tables, which is 4. */
  function MaxUstepLevel(): (m: int)
    ensures m == 4
    ensures forall n :: n in UstepTables ==> UstepTables[n].factor <= m
  {
    assert Factors() == [1, 1, 2, 4];
    assert UstepTables.Keys == {"single", "double", "two", "four"};
    MaxOf(Factors())
  }

  /** `getusteplevel`: the named table's factor; an unknown name raises KeyError. */
  function UstepLevel(name: string): (r: Result<int>)
    ensures r.Ok? <==> name in TableNames
    ensures r.Ok? ==> r.value in {1, 2, 4} && r.value <= MaxUstepLevel()
  {
    if name in UstepTables then Ok(UstepTables[name].factor) else Err(KeyError)
  }

  /** The constructor's checks: exactly four drive pins, each with 0 < pin < 32. */
  function ValidateDrivePins(pins: seq<int>): (r: Result<seq<int>>)
    ensures r.Ok? <==> |pins| == 4 && forall i :: 0 <= i < |pins| ==> 0 < pins[i] < 32
    ensures r.Ok? ==> r.value == pins
  {
    if |pins| != 4 then Err(AssertionError)
    else if exists i :: 0 <= i < |pins| && !(0 < pins[i] < 32) then Err(AssertionError)
    else Ok(pins)
  }

  /** `pinbits`: the bit of each drive pin, in pin order. */
  function PinBits(pins: seq<nat>): (bits: seq<Mask>)
    ensures |bits| == |pins| && forall i :: 0 <= i < |pins| ==> bits[i] == PinBit(pins[i])
  {
    seq(|pins|, i requires 0 <= i < |pins| => PinBit(pins[i]))
  }

  /** The (on, off) masks for one table row: a coil's bit goes to the on mask iff its value exceeds 127. */
  function RowMasks(vals: seq<int>, bits: seq<Mask>): (Mask, Mask)
    requires |bits| <= |vals|
  {
    if |bits| == 0 then ({}, {})
    else
      var n := |bits| - 1;
      var m := RowMasks(vals, bits[..n]);
      if vals[n] > 127 then (m.0 + bits[n], m.1) else (m.0, m.1 + bits[n])
  }

  /** The pins of the first `k` coils whose value is above 127. */
  function OnSet(vals: seq<int>, pins: seq<nat>, k: nat): set<nat>
    requires k <= |pins| <= |vals|
  {
    set i | 0 <= i < k && vals[i] > 127 :: pins[i]
  }

  /** The pins of the first `k` coils whose value is at most 127. */
  function OffSet(vals: seq<int>, pins: seq<nat>, k: nat): set<nat>
    requires k <= |pins| <= |vals|
  {
    set i | 0 <= i < k && vals[i] <= 127 :: pins[i]
  }

  lemma {:induction false} OnOffSetsGrow(vals: seq<int>, pins: seq<nat>, k: nat)
    requires 0 < k <= |pins| <= |vals|
    ensures OnSet(vals, pins, k) == OnSet(vals, pins, k - 1) + (if vals[k - 1] > 127 then {pins[k - 1]} else {})
    ensures OffSet(vals, pins, k) == OffSet(vals, pins, k - 1) + (if vals[k - 1] > 127 then {} else {pins[k - 1]})
    ensures vals[k - 1] > 127 ==> OffSet(vals, pins, k) == OffSet(vals, pins, k - 1)
    ensures vals[k - 1] <= 127 ==> OnSet(vals, pins, k) == OnSet(vals, pins, k - 1)
  {
    forall x | x in OnSet(vals, pins, k)
      ensures x in OnSet(vals, pins, k - 1) + (if vals[k - 1] > 127 then {pins[k - 1]} else {})
    {
      var i :| 0 <= i < k && vals[i] > 127 && pins[i] == x;
      if i < k - 1 {
        assert x in OnSet(vals, pins, k - 1);
      }
    }
    forall x | x in OffSet(vals, pins, k)
      ensures x in OffSet(vals, pins, k - 1) + (if vals[k - 1] > 127 then {} else {pins[k - 1]})
    {
      var i :| 0 <= i < k && vals[i] <= 127 && pins[i] == x;
      if i < k - 1 {
        assert x in OffSet(vals, pins, k - 1);
      }
    }
  }

  /**
    * The masks built from the first `k` pin bits are the pins of the first
    * `k` coils, split by whether their value is above 127.
    */
  lemma {:induction false} RowMasksSets(vals: seq<int>, pins: seq<nat>, bits: seq<Mask>)
    requires |bits| <= |pins| <= |vals|
    requires forall i :: 0 <= i < |bits| ==> bits[i] == {pins[i]}
    ensures RowMasks(vals, bits) == (OnSet(vals, pins, |bits|), OffSet(vals, pins, |bits|))
  {
    var k := |bits|;
    if k == 0 {
      assert OnSet(vals, pins, 0) == {} && OffSet(vals, pins, 0) == {};
    } else {
      RowMasksSets(vals, pins, bits[..k - 1]);
      OnOffSetsGrow(vals, pins, k);
      var m := RowMasks(vals, bits[..k - 1]);
      assert bits[k - 1] == {pins[k - 1]};
      if vals[k - 1] > 127 {
        assert RowMasks(vals, bits) == (m.0 + {pins[k - 1]}, m.1);
      } else {
        assert RowMasks(vals, bits) == (m.0, m.1 + {pins[k - 1]});
      }
    }
  }

  /**
    * With distinct drive pins, every row's on and off masks are disjoint,
    * together they are exactly the drive pins' bits, and a pin is in the on
    * mask iff its coil's value is above 127, else in the off mask.
    */
  lemma {:induction false} StepBitsMeaning(row: seq<int>, pins: seq<nat>)
    requires |pins| <= |row|
    requires forall i, j :: 0 <= i < j < |pins| ==> pins[i] != pins[j]
    ensures var m := RowMasks(row, PinBits(pins));
      m.0 * m.1 == {} && m.0 + m.1 == (set i | 0 <= i < |pins| :: pins[i])
      && forall i :: 0 <= i < |pins| ==> (pins[i] in m.0 <==> row[i] > 127) && (pins[i] in m.1 <==> row[i] <= 127)
  {
    RowMasksAll(row, pins);
    OnOffMeaning(row, pins);
  }

  lemma {:induction false} RowMasksAll(row: seq<int>, pins: seq<nat>)
    requires |pins| <= |row|
    ensures RowMasks(row, PinBits(pins)) == (OnSet(row, pins, |pins|), OffSet(row, pins, |pins|))
  {
    RowMasksSets(row, pins, PinBits(pins));
  }

  /** With distinct pins, the on and off sets split the pins by their coil's value. */
  lemma {:induction false} OnOffMeaning(row: seq<int>, pins: seq<nat>)
    requires |pins| <= |row|
    requires forall i, j :: 0 <= i < j < |pins| ==> pins[i] != pins[j]
    ensures var on, off := OnSet(row, pins, |pins|), OffSet(row, pins, |pins|);
      on * off == {} && on + off == (set i | 0 <= i < |pins| :: pins[i])
      && forall i :: 0 <= i < |pins| ==> (pins[i] in on <==> row[i] > 127) && (pins[i] in off <==> row[i] <= 127)
  {
    forall i | 0 <= i < |pins|
      ensures (pins[i] in OnSet(row, pins, |pins|) <==> row[i] > 127) && (pins[i] in OffSet(row, pins, |pins|) <==> row[i] <= 127)
    {
      CoilSide(row, pins, i);
    }
    OnOffDisjoint(row, pins);
  }

  /** With distinct pins, a coil's pin is in the on set exactly when its value is above 127, else in the off set. */
  lemma {:induction false} CoilSide(row: seq<int>, pins: seq<nat>, i: nat)
    requires |pins| <= |row| && i < |pins|
    requires forall i, j :: 0 <= i < j < |pins| ==> pins[i] != pins[j]
    ensures pins[i] in OnSet(row, pins, |pins|) <==> row[i] > 127
    ensures pins[i] in OffSet(row, pins, |pins|) <==> row[i] <= 127
  {
    if pins[i] in OnSet(row, pins, |pins|) {
      var j :| 0 <= j < |pins| && row[j] > 127 && pins[j] == pins[i];
      assert j == i;
    }
    if pins[i] in OffSet(row, pins, |pins|) {
      var j :| 0 <= j < |pins| && row[j] <= 127 && pins[j] == pins[i];
      assert j == i;
    }
  }

  lemma {:induction false} OnOffDisjoint(row: seq<int>, pins: seq<nat>)
    requires |pins| <= |row|
    requires forall i, j :: 0 <= i < j < |pins| ==> pins[i] != pins[j]
    ensures OnSet(row, pins, |pins|) * OffSet(row, pins, |pins|) == {}
  {
    forall p | p in OnSet(row, pins, |pins|)
      ensures p !in OffSet(row, pins, |pins|)
    {
      var j :| 0 <= j < |pins| && row[j] > 127 && pins[j] == p;
      CoilSide(row, pins, j);
    }
  }

  /** The pulse generator's table of (on, off) masks, one entry per row of the active table. */
  method StepBits(rows: seq<seq<int>>, pins: seq<nat>) returns (stepbits: seq<(Mask, Mask)>)
    requires forall k :: 0 <= k < |rows| ==> |rows[k]| >= |pins|
    ensures |stepbits| == |rows|
    ensures forall k :: 0 <= k < |rows| ==> stepbits[k] == RowMasks(rows[k], PinBits(pins))
  {
    var pinbits := PinBits(pins);
    stepbits := [];
    for k := 0 to |rows|
      invariant |stepbits| == k
      invariant forall j :: 0 <= j < k ==> stepbits[j] == RowMasks(rows[j], pinbits)
    {
      var onb: Mask, offb: Mask := {}, {};
      for ix := 0 to |pinbits|
        invariant (onb, offb) == RowMasks(rows[k], pinbits[..ix])
      {
        assert pinbits[..ix + 1][..ix] == pinbits[..ix];
        if rows[k][ix] > 127 {
          onb := onb + pinbits[ix];
        } else {
          offb := offb + pinbits[ix];
        }
      }
      assert pinbits[..|pinbits|] == pinbits;
      stepbits := stepbits + [(onb, offb)];
    }
  }

  /** The PWM writes `stepmotor` makes: one per coil whose new value differs from the last one written, in coil order. */
  function ChangedWrites(last: seq<Option<int>>, row: seq<int>, pins: seq<int>): seq<HwOp>
    requires |last| == |row| == |pins|
  {
    if |row| == 0 then []
    else
      var n := |row| - 1;
      ChangedWrites(last[..n], row[..n], pins[..n]) + if last[n] != Some(row[n]) then [Pwm(pins[n], row[n])] else []
  }

  /**
    * A coil's new value is written iff it differs from the remembered one:
    * with nothing remembered every coil is written in order, and writing
    * the row just written again writes nothing.
    */
  lemma {:induction false} ChangedWritesMeaning(last: seq<Option<int>>, row: seq<int>, pins: seq<int>)
    requires |last| == |row| == |pins|
    ensures |ChangedWrites(last, row, pins)| <= |row|
    ensures (forall i :: 0 <= i < |last| ==> last[i].None?) ==>
      ChangedWrites(last, row, pins) == seq(|row|, i requires 0 <= i < |row| => Pwm(pins[i], row[i]))
    ensures (forall i :: 0 <= i < |last| ==> last[i] == Some(row[i])) ==> ChangedWrites(last, row, pins) == []
    ensures forall i :: 0 <= i < |row| && last[i] != Some(row[i]) ==> Pwm(pins[i], row[i]) in ChangedWrites(last, row, pins)
  {
    ChangedWritesLength(last, row, pins);
    if forall i :: 0 <= i < |last| ==> last[i].None? {
      ChangedWritesAllNew(last, row, pins);
    }
    if forall i :: 0 <= i < |last| ==> last[i] == Some(row[i]) {
      ChangedWritesSame(last, row, pins);
    }
    forall i | 0 <= i < |row| && last[i] != Some(row[i])
      ensures Pwm(pins[i], row[i]) in ChangedWrites(last, row, pins)
    {
      ChangedWritesCovers(last, row, pins, i);
    }
  }

  lemma {:induction false} ChangedWritesLength(last: seq<Option<int>>, row: seq<int>, pins: seq<int>)
    requires |last| == |row| == |pins|
    ensures |ChangedWrites(last, row, pins)| <= |row|
  {
    if |row| > 0 {
      var n := |row| - 1;
      ChangedWritesLength(last[..n], row[..n], pins[..n]);
    }
  }

  lemma {:induction false} ChangedWritesAllNew(last: seq<Option<int>>, row: seq<int>, pins: seq<int>)
    requires |last| == |row| == |pins|
    requires forall i :: 0 <= i < |last| ==> last[i].None?
    ensures ChangedWrites(last, row, pins) == seq(|row|, i requires 0 <= i < |row| => Pwm(pins[i], row[i]))
  {
    if |row| > 0 {
      var n := |row| - 1;
      assert forall i :: 0 <= i < n ==> last[..n][i].None?;
      ChangedWritesAllNew(last[..n], row[..n], pins[..n]);
    }
  }

  lemma {:induction false} ChangedWritesSame(last: seq<Option<int>>, row: seq<int>, pins: seq<int>)
    requires |last| == |row| == |pins|
    requires forall i :: 0 <= i < |last| ==> last[i] == Some(row[i])
    ensures ChangedWrites(last, row, pins) == []
  {
    if |row| > 0 {
      var n := |row| - 1;
      assert forall i :: 0 <= i < n ==> last[..n][i] == Some(row[..n][i]);
      ChangedWritesSame(last[..n], row[..n], pins[..n]);
    }
  }

  lemma {:induction false} ChangedWritesCovers(last: seq<Option<int>>, row: seq<int>, pins: seq<int>, i: nat)
    requires |last| == |row| == |pins| && i < |row| && last[i] != Some(row[i])
    ensures Pwm(pins[i], row[i]) in ChangedWrites(last, row, pins)
  {
    var n := |row| - 1;
    if i < n {
      assert last[..n][i] == last[i] && row[..n][i] == row[i] && pins[..n][i] == pins[i];
      ChangedWritesCovers(last[..n], row[..n], pins[..n], i);
    }
  }

  /**
    * The loop of `stepmotor` that brings the coils to a table row: it
    * writes the coils whose value changed and returns the new remembered
    * values, which are the row itself.
    */
  method CoilWrites(last: seq<Option<int>>, row: seq<int>, pins: seq<int>) returns (now: seq<Option<int>>, writes: seq<HwOp>)
    requires |last| == |row| == |pins|
    ensures |now| == |row| && forall i :: 0 <= i < |row| ==> now[i] == Some(row[i])
    ensures writes == ChangedWrites(last, row, pins)
  {
    now, writes := last, [];
    for ix := 0 to |row|
      invariant |now| == |row|
      invariant forall i :: 0 <= i < ix ==> now[i] == Some(row[i])
      invariant forall i :: ix <= i < |row| ==> now[i] == last[i]
      invariant writes == ChangedWrites(last[..ix], row[..ix], pins[..ix])
    {
      assert last[..ix + 1][..ix] == last[..ix] && row[..ix + 1][..ix] == row[..ix] && pins[..ix + 1][..ix] == pins[..ix];
      if Some(row[ix]) != now[ix] {
        now := now[ix := Some(row[ix])];
        writes := writes + [Pwm(pins[ix], row[ix])];
      }
    }
    assert last[..|row|] == last && row[..|row|] == row && pins[..|row|] == pins;
  }

  /** The next phase index of `stepmotor`: forward wraps to 0 at the table length, backward wraps to the last row. */
  function NextPhase(six: int, forward: bool, len: int): int
  {
    if forward then (if six + 1 >= len then 0 else six + 1)
    else (if six - 1 < 0 then len - 1 else six - 1)
  }

  /**
    * From a phase inside the table, `stepmotor` moves one row forward or
    * back modulo the table length. From a phase at or past the end, left by
    * an earlier, longer table, a forward step restarts at row 0 and a
    * backward step stays outside the table.
    */
  lemma {:induction false} NextPhaseModulo(six: int, forward: bool, len: int)
    requires len > 0 && six >= 0
    ensures six < len ==> NextPhase(six, forward, len) == if forward then (six + 1) % len else (six - 1 + len) % len
    ensures six >= len ==> (NextPhase(six, forward, len) < len <==> forward || six == len)
  {
  }

  /** The pulse generator's loop variables, the pulses so far, and the exception that ended it, if any. */
  datatype UGen = UGen(clock: int, carry: real, pos: int, tabInc: Option<int>, stepIndex: nat, out: seq<Pulse>, failed: Option<PyError>)

  /** The generator's phase index after a step: it wraps at the number of drive pins (4), not at the table length. */
  function NextGenIndex(six: nat, tabInc: int): nat
  {
    if tabInc > 0 then (if six + 1 >= 4 then 0 else six + 1)
    else (if six == 0 then 4 - 1 else six - 1)
  }

  /**
    * Inside rows 0-3 the generator's index moves modulo 4 whatever the table
    * length; from further out a forward step restarts at 0 and a backward
    * step moves one row back.
    */
  lemma {:induction false} NextGenIndexModulo(six: nat, tabInc: int)
    ensures six < 4 ==> NextGenIndex(six, tabInc) == if tabInc > 0 then (six + 1) % 4 else (six + 3) % 4
    ensures six >= 4 ==> NextGenIndex(six, tabInc) == if tabInc > 0 then 0 else six - 1
  {
  }

  /**
    * One tick of the generator's loop. A float tick with no direction yet
    * raises UnboundLocalError (`tabinc` is unbound); a phase index past the
    * end of the table raises IndexError.
    */
  function UGenTick(name: string, stepbits: seq<(Mask, Mask)>, posChange: int, g: UGen, t: Tick): (r: UGen)
    requires 0.0 <= g.carry < 1.0 && TickOk(t)
    ensures 0.0 <= r.carry < 1.0
  {
    if g.failed.Some? then g
    else match t
      case Idle =>
        g.(out := g.out + [Pulse({}, {}, g.clock, g.pos, name, NoOp)], clock := g.clock + 100000)
      case Interval(s) =>
        var (d, c) := SplitMicros(s, g.carry);
        if g.tabInc.None? then g.(carry := c, failed := Some(UnboundLocalError))
        else
          var np := g.pos + g.tabInc.value * posChange;
          if g.stepIndex >= |stepbits| then g.(carry := c, pos := np, failed := Some(IndexError))
          else
            var bits := stepbits[g.stepIndex];
            g.(carry := c, pos := np, clock := g.clock + d, stepIndex := NextGenIndex(g.stepIndex, g.tabInc.value),
               out := g.out + [Pulse(bits.0, bits.1, g.clock, np, name, Normal)])
      case DirChange(ch, s) =>
        var (d, c) := SplitMicros(s, g.carry);
        g.(tabInc := Some(if ch == 'F' then 1 else -1), carry := c, clock := g.clock + d,
           out := g.out + [Pulse({}, {}, g.clock, g.pos, name, Normal)])
  }

  /** The generator's state after the ticks `ts`, from position `start` and phase index `index`. */
  function UGenFrom(name: string, stepbits: seq<(Mask, Mask)>, posChange: int, start: int, index: nat, ts: seq<Tick>): (r: UGen)
    requires TicksOk(ts)
    ensures 0.0 <= r.carry < 1.0
  {
    if |ts| == 0 then UGen(0, 0.0, start, None, index, [], None)
    else UGenTick(name, stepbits, posChange, UGenFrom(name, stepbits, posChange, start, index, ts[..|ts| - 1]), ts[|ts| - 1])
  }

  /** When the tick source is exhausted: two completion markers, at the clock and 1 µs later. */
  function UGenFinish(name: string, g: UGen): UGen
  {
    if g.failed.Some? then g
    else g.(out := g.out + [Pulse({}, {}, g.clock, g.pos, name, Complete), Pulse({}, {}, g.clock + 1, g.pos, name, Complete)])
  }

  lemma {:induction false} UGenFromLast(name: string, stepbits: seq<(Mask, Mask)>, posChange: int, start: int, index: nat, ts: seq<Tick>, i: nat)
    requires TicksOk(ts) && i < |ts|
    ensures TicksOk(ts[..i]) && TicksOk(ts[..i + 1])
    ensures UGenFrom(name, stepbits, posChange, start, index, ts[..i + 1])
      == UGenTick(name, stepbits, posChange, UGenFrom(name, stepbits, posChange, start, index, ts[..i]), ts[i])
  {
    assert ts[..i + 1][..i] == ts[..i];
  }

  lemma {:induction false} PrefixTicksOk(ts: seq<Tick>, n: nat)
    requires TicksOk(ts) && n <= |ts|
    ensures TicksOk(ts[..n])
  {
    assert forall i :: 0 <= i < n ==> ts[..n][i] == ts[i];
  }

  function CountIdle(ts: seq<Tick>): nat
  {
    if |ts| == 0 then 0 else CountIdle(ts[..|ts| - 1]) + if ts[|ts| - 1].Idle? then 1 else 0
  }

  /**
    * Started inside a table of at least four rows, the generator fails
    * exactly when a float tick precedes every direction tick; otherwise its
    * position is the start plus `poschange` times the signed step count,
    * `tabinc` is the last direction's sign and the phase index stays inside
    * the table (at most the larger of its start and 3).
    */
  lemma {:induction false} UGenPosition(name: string, stepbits: seq<(Mask, Mask)>, posChange: int, start: int, index: nat, ts: seq<Tick>)
    requires TicksOk(ts) && |stepbits| >= 4 && index < |stepbits|
    ensures var g := UGenFrom(name, stepbits, posChange, start, index, ts);
      (g.failed.Some? <==> StepsBeforeDirection(ts))
      && (g.failed.None? ==>
            g.pos == start + posChange * SignedSteps(ts) && g.tabInc == LastDirSign(ts)
            && g.stepIndex <= if index > 3 then index else 3)
  {
    if |ts| > 0 {
      var n := |ts| - 1;
      var prev := ts[..n];
      PrefixTicksOk(ts, n);
      UGenPosition(name, stepbits, posChange, start, index, prev);
      UGenFromLast(name, stepbits, posChange, start, index, ts, n);
      assert ts[..n + 1] == ts;
      var g := UGenFrom(name, stepbits, posChange, start, index, prev);
      if g.failed.None? && ts[n].Interval? && g.tabInc.Some? {
        var m := g.tabInc.value;
        StepMoves(start, posChange, SignedSteps(prev), m);
      }
    }
  }

  /**
    * No drift: until it fails, the generator's clock plus the carried
    * fraction of a microsecond is exactly 100000 µs per idle tick plus the
    * summed intervals; idle ticks do not reset the carry.
    */
  lemma {:induction false} UGenNoDrift(name: string, stepbits: seq<(Mask, Mask)>, posChange: int, start: int, index: nat, ts: seq<Tick>)
    requires TicksOk(ts)
    ensures var g := UGenFrom(name, stepbits, posChange, start, index, ts);
      g.failed.None? ==> g.clock as real + g.carry == 100000.0 * CountIdle(ts) as real + 1000000.0 * SumSecs(ts)
  {
    if |ts| > 0 {
      var n := |ts| - 1;
      PrefixTicksOk(ts, n);
      UGenNoDrift(name, stepbits, posChange, start, index, ts[..n]);
      UGenFromLast(name, stepbits, posChange, start, index, ts, n);
      assert ts[..n + 1] == ts;
    }
  }

  /** The generator's pulses are in time order and none is later than its clock. */
  lemma {:induction false} UGenOrdered(name: string, stepbits: seq<(Mask, Mask)>, posChange: int, start: int, index: nat, ts: seq<Tick>)
    requires TicksOk(ts)
    ensures var g := UGenFrom(name, stepbits, posChange, start, index, ts); OrderedUpTo(g.out, g.clock)
  {
    if |ts| > 0 {
      var n := |ts| - 1;
      PrefixTicksOk(ts, n);
      UGenOrdered(name, stepbits, posChange, start, index, ts[..n]);
      UGenFromLast(name, stepbits, posChange, start, index, ts, n);
      assert ts[..n + 1] == ts;
      var g := UGenFrom(name, stepbits, posChange, start, index, ts[..n]);
      var r := UGenTick(name, stepbits, posChange, g, ts[n]);
      if g.failed.None? && r.failed.None? {
        var more := r.out[|g.out|..];
        assert r.out == g.out + more;
        OrderedAppend(g.out, g.clock, more, r.clock);
      }
    }
  }

  /**
    * The phase index wraps at 4, so when it starts inside rows 0-3 every
    * pulse uses one of the first four rows or no bits at all: the 8- and
    * 16-row tables are never stepped through past their fourth row.
    */
  lemma {:induction false} OnlyFirstFourRows(name: string, stepbits: seq<(Mask, Mask)>, posChange: int, start: int, index: nat, ts: seq<Tick>)
    requires TicksOk(ts) && |stepbits| >= 4 && index < 4
    ensures var g := UGenFrom(name, stepbits, posChange, start, index, ts);
      g.stepIndex < 4 && forall i :: 0 <= i < |g.out| ==> (g.out[i].on, g.out[i].off) in stepbits[..4] + [({}, {})]
  {
    if |ts| > 0 {
      var n := |ts| - 1;
      PrefixTicksOk(ts, n);
      OnlyFirstFourRows(name, stepbits, posChange, start, index, ts[..n]);
      UGenFromLast(name, stepbits, posChange, start, index, ts, n);
      assert ts[..n + 1] == ts;
      var g := UGenFrom(name, stepbits, posChange, start, index, ts[..n]);
      if g.failed.None? && g.stepIndex < |stepbits| {
        assert stepbits[g.stepIndex] == (stepbits[..4] + [({}, {})])[g.stepIndex];
      }
    }
  }

  /**
    * A phase index left past the end of the table (by software stepping
    * through a longer table) makes the first float tick after a direction
    * tick raise IndexError.
    */
  lemma {:induction false} StaleIndexFails(name: string, stepbits: seq<(Mask, Mask)>, posChange: int, start: int, index: nat, s1: real, s2: real)
    requires index >= |stepbits| && s1 >= 0.0 && s2 >= 0.0
    ensures TicksOk([DirChange('F', s1), Interval(s2)])
    ensures UGenFrom(name, stepbits, posChange, start, index, [DirChange('F', s1), Interval(s2)]).failed == Some(IndexError)
  {
    var ts := [DirChange('F', s1), Interval(s2)];
    assert TicksOk(ts);
    UGenFromLast(name, stepbits, posChange, start, index, ts, 0);
    UGenFromLast(name, stepbits, posChange, start, index, ts, 1);
    assert ts[..0] == [] && ts[..2] == ts;
    var g1 := UGenFrom(name, stepbits, posChange, start, index, ts[..1]);
    assert g1.tabInc == Some(1) && g1.stepIndex == index && g1.failed.None?;
  }

  /** Once the generator has raised, later ticks change nothing. */
  lemma {:induction false} UGenStopped(name: string, stepbits: seq<(Mask, Mask)>, posChange: int, start: int, index: nat, ts: seq<Tick>, i: nat)
    requires TicksOk(ts) && 0 < i <= |ts|
    requires UGenFrom(name, stepbits, posChange, start, index, ts[..i]).failed.Some?
    ensures TicksOk(ts[..i])
    ensures UGenFrom(name, stepbits, posChange, start, index, ts) == UGenFrom(name, stepbits, posChange, start, index, ts[..i])
    decreases |ts| - i
  {
    PrefixTicksOk(ts, i);
    if i < |ts| {
      UGenFromLast(name, stepbits, posChange, start, index, ts, i);
      UGenStopped(name, stepbits, posChange, start, index, ts, i + 1);
    } else {
      assert ts[..i] == ts;
    }
  }

  /** The generator's tick loop. */
  method RunUnidTicks(name: string, stepbits: seq<(Mask, Mask)>, posChange: int, start: int, index: nat, ticks: seq<Tick>)
    returns (g: UGen)
    requires TicksOk(ticks)
    ensures g == UGenFrom(name, stepbits, posChange, start, index, ticks)
  {
    var usclock, overflow, newpos, six := 0, 0.0, start, index;
    var tabinc: Option<int> := None;
    var out: seq<Pulse> := [];
    var i := 0;
    while i < |ticks|
      invariant 0 <= i <= |ticks|
      invariant UGen(usclock, overflow, newpos, tabinc, six, out, None) == UGenFrom(name, stepbits, posChange, start, index, ticks[..i])
    {
      UGenFromLast(name, stepbits, posChange, start, index, ticks, i);
      ghost var next := UGenTick(name, stepbits, posChange, UGen(usclock, overflow, newpos, tabinc, six, out, None), ticks[i]);
      match ticks[i] {
        case Idle =>
          out := out + [Pulse({}, {}, usclock, newpos, name, NoOp)];
          usclock := usclock + 100000;
          assert UGen(usclock, overflow, newpos, tabinc, six, out, None) == next;
        case Interval(s) =>
          var (d, c) := SplitMicros(s, overflow);
          overflow := c;
          if tabinc.None? {
            g := UGen(usclock, overflow, newpos, tabinc, six, out, Some(UnboundLocalError));
            UGenStopped(name, stepbits, posChange, start, index, ticks, i + 1);
            return;
          }
          newpos := newpos + tabinc.value * posChange;
          if six >= |stepbits| {
            g := UGen(usclock, overflow, newpos, tabinc, six, out, Some(IndexError));
            UGenStopped(name, stepbits, posChange, start, index, ticks, i + 1);
            return;
          }
          out := out + [Pulse(stepbits[six].0, stepbits[six].1, usclock, newpos, name, Normal)];
          usclock := usclock + d;
          ghost var six0 := six;
          if tabinc.value > 0 {
            six := six + 1;
            if six >= 4 {
              six := 0;
            }
          } else if six == 0 {
            six := 4 - 1;
          } else {
            six := six - 1;
          }
          assert six == NextGenIndex(six0, tabinc.value);
          assert UGen(usclock, overflow, newpos, tabinc, six, out, None) == next;
        case DirChange(ch, s) =>
          tabinc := Some(if ch == 'F' then 1 else -1);
          var (d, c) := SplitMicros(s, overflow);
          overflow := c;
          out := out + [Pulse({}, {}, usclock, newpos, name, Normal)];
          usclock := usclock + d;
          assert UGen(usclock, overflow, newpos, tabinc, six, out, None) == next;
      }
      i := i + 1;
    }
    assert ticks[..i] == ticks;
    g := UGen(usclock, overflow, newpos, tabinc, six, out, None);
  }


  /** Each built-in table has at least four rows, every row a duty value per coil. */
  lemma {:induction false} TableShape(level: string)
    requires level in UstepTables
    ensures TableShapeOk(UstepTables[level])
  {
    if level == "single" {
      assert UstepTables[level] == UstepTables["single"];
    } else if level == "double" {
      assert UstepTables[level] == UstepTables["double"];
    } else if level == "two" {
      assert UstepTables[level] == UstepTables["two"];
    } else {
      assert UstepTables[level] == UstepTables["four"];
    }
  }

  /** The writes that make each of the four coil pins an output driven low, in coil order. */
  function CoilOutputs(pins: seq<nat>): (ops: seq<HwOp>)
    requires |pins| >= 4
    ensures |ops| == 8 && forall j :: 0 <= j < 4 ==> ops[2 * j] == SetOutput(pins[j]) && ops[2 * j + 1] == Write(pins[j], 0)
  {
    [SetOutput(pins[0]), Write(pins[0], 0), SetOutput(pins[1]), Write(pins[1], 0),
     SetOutput(pins[2]), Write(pins[2], 0), SetOutput(pins[3]), Write(pins[3], 0)]
  }

  /** The duty-cycle writes that set each of the four coils to `duty`, in coil order. */
  function CoilDuties(pins: seq<nat>, duty: int): (ops: seq<HwOp>)
    requires |pins| >= 4
    ensures |ops| == 4 && forall j :: 0 <= j < 4 ==> ops[j] == Pwm(pins[j], duty)
  {
    [Pwm(pins[0], duty), Pwm(pins[1], duty), Pwm(pins[2], duty), Pwm(pins[3], duty)]
  }

  /**
    * What `stepmotor` and the direction setting act on during `_softrun`:
    * the phase index, the coil values last written, the direction pin's
    * value and the coil writes made so far.
    */
  datatype Coils = Coils(index: nat, last: seq<Option<int>>, dir: PinValue, writes: seq<HwOp>)

  /** The coil values remembered once `row` has been written. */
  function Remember(row: seq<int>): (r: seq<Option<int>>)
    ensures |r| == |row| && forall i :: 0 <= i < |row| ==> r[i] == Some(row[i])
  {
    seq(|row|, i requires 0 <= i < |row| => Some(row[i]))
  }

  /**
    * One `stepmotor` call on table `t`: the phase moves one row forward for
    * direction 'F' and one back otherwise; a phase outside the table raises
    * IndexError after it has been stored, else the changed coils are written.
    */
  function StepCoils(c: Coils, t: UstepTable, pins: seq<nat>): (r: (Coils, Option<PyError>))
    requires TableShapeOk(t) && |pins| == 4 && |c.last| == 4
    ensures |r.0.last| == 4 && r.0.dir == c.dir
    ensures r.1.Some? <==> r.0.index >= |t.rows|
  {
    var six := NextPhase(c.index, c.dir == Named("F"), |t.rows|);
    if six >= |t.rows| then (c.(index := six), Some(IndexError))
    else (Coils(six, Remember(t.rows[six]), c.dir, c.writes + ChangedWrites(c.last, t.rows[six], pins)), None)
  }

  /** One action of the `_softrun` loop: a step, or a direction 'F' or 'R' given to the direction pin. */
  function ActCoils(c: Coils, t: UstepTable, pins: seq<nat>, a: SoftAction): (r: (Coils, Option<PyError>))
    requires TableShapeOk(t) && |pins| == 4 && |c.last| == 4
    ensures |r.0.last| == 4
  {
    match a
    case StepPulse => StepCoils(c, t, pins)
    case SetDirection(d) => (if d == 'F' || d == 'R' then c.(dir := Named([d])) else c, None)
  }

  /**
    * The actions of the `_softrun` loop in order, ending at the first one
    * that raises: the exception ends the thread, so no later action runs.
    */
  function ActionsFrom(c: Coils, t: UstepTable, pins: seq<nat>, actions: seq<SoftAction>): (r: (Coils, Option<PyError>))
    requires TableShapeOk(t) && |pins| == 4 && |c.last| == 4
    ensures |r.0.last| == 4
    decreases |actions|
  {
    if actions == [] then (c, None)
    else
      var n := ActCoils(c, t, pins, actions[0]);
      if n.1.Some? then n else ActionsFrom(n.0, t, pins, actions[1..])
  }

  /**
    * The actions only add coil writes, and the only exception is the
    * IndexError of a phase left outside the table.
    */
  lemma {:induction false} ActionsWrites(c: Coils, t: UstepTable, pins: seq<nat>, actions: seq<SoftAction>)
    requires TableShapeOk(t) && |pins| == 4 && |c.last| == 4
    ensures var r := ActionsFrom(c, t, pins, actions);
      |r.0.writes| >= |c.writes| && r.0.writes[..|c.writes|] == c.writes
      && (r.1.Some? ==> r.1 == Some(IndexError) && r.0.index >= |t.rows|)
    decreases |actions|
  {
    if actions != [] {
      var n := ActCoils(c, t, pins, actions[0]);
      if n.1.None? {
        ActionsWrites(n.0, t, pins, actions[1..]);
        var w := ActionsFrom(n.0, t, pins, actions[1..]).0.writes;
        assert n.0.writes[..|c.writes|] == c.writes;
        assert w[..|c.writes|] == w[..|n.0.writes|][..|c.writes|];
      }
    }
  }

  /** Started from a phase inside the table, no action of the loop raises. */
  lemma {:induction false} ActionsInTable(c: Coils, t: UstepTable, pins: seq<nat>, actions: seq<SoftAction>)
    requires TableShapeOk(t) && |pins| == 4 && |c.last| == 4 && c.index < |t.rows|
    ensures ActionsFrom(c, t, pins, actions).1.None?
    decreases |actions|
  {
    if actions != [] {
      var n := ActCoils(c, t, pins, actions[0]);
      NextPhaseModulo(c.index, c.dir == Named("F"), |t.rows|);
      ActionsInTable(n.0, t, pins, actions[1..]);
    }
  }

  /**
    * A phase index more than one past the end of the table, left by an
    * earlier, longer table, makes the first step taken with a direction
    * other than 'F' raise IndexError, and nothing is written.
    */
  lemma {:induction false} StaleStepRaises(c: Coils, t: UstepTable, pins: seq<nat>)
    requires TableShapeOk(t) && |pins| == 4 && |c.last| == 4 && c.index > |t.rows|
    ensures ActionsFrom(c, t, pins, [SetDirection('R'), StepPulse]) == (Coils(c.index - 1, c.last, Named("R"), c.writes), Some(IndexError))
  {
    var d := c.(dir := Named("R"));
    assert [SetDirection('R'), StepPulse][1..] == [StepPulse];
    assert ActCoils(c, t, pins, SetDirection('R')) == (d, None);
    assert ActionsFrom(d, t, pins, [StepPulse]) == StepCoils(d, t, pins);
  }

  /** The masks the generator uses for a table: one (on, off) pair per row. */
  function TableMasks(t: UstepTable, pins: seq<nat>): (m: seq<(Mask, Mask)>)
    requires forall k :: 0 <= k < |t.rows| ==> |t.rows[k]| >= |pins|
    ensures |m| == |t.rows|
  {
    seq(|t.rows|, k requires 0 <= k < |t.rows| => RowMasks(t.rows[k], PinBits(pins)))
  }

  lemma {:induction false} TableMasksMeaning(stepbits: seq<(Mask, Mask)>, t: UstepTable, pins: seq<nat>)
    requires forall k :: 0 <= k < |t.rows| ==> |t.rows[k]| >= |pins|
    requires |stepbits| == |t.rows| && forall k :: 0 <= k < |t.rows| ==> stepbits[k] == RowMasks(t.rows[k], PinBits(pins))
    ensures stepbits == TableMasks(t, pins)
  {
  }

  /** The generator proper: the active table's masks, the tick loop, then two completion markers unless it failed. */
  method UnidStream(name: string, t: UstepTable, pins: seq<nat>, posChange: int, start: int, index: nat, ticks: seq<Tick>)
    returns (out: seq<Pulse>, err: Option<PyError>, six: nat)
    requires TicksOk(ticks) && forall k :: 0 <= k < |t.rows| ==> |t.rows[k]| >= |pins|
    ensures var g := UGenFinish(name, UGenFrom(name, TableMasks(t, pins), posChange, start, index, ticks));
      out == g.out && err == g.failed && six == g.stepIndex
  {
    var stepbits := StepBits(t.rows, pins);
    TableMasksMeaning(stepbits, t, pins);
    var g := RunUnidTicks(name, stepbits, posChange, start, index, ticks);
    out, err, six := g.out, g.failed, g.stepIndex;
    if err.None? {
      out := out + [Pulse({}, {}, g.clock, g.pos, name, Complete), Pulse({}, {}, g.clock + 1, g.pos, name, Complete)];
    }
  }

  class DirectStepper {
    const base: BaseStepper
    const pins: seq<nat>
    /** Index into the active table of the phase last energised. */
    var stepIndex: nat
    var activeTable: Option<UstepTable>
    /** The duty value last written to each coil, `None` when unknown. */
    var lastPinVals: seq<Option<int>>
    /** The calls made on the pigpio connection for the coils, oldest first. */
    var pio: seq<HwOp>

    ghost predicate Valid()
      reads this, base, base.driveEnable, base.direction
    {
      base.Valid() && ValidateDrivePins(pins).Ok? && |lastPinVals| == 4
      && (activeTable.Some? ==> TableShapeOk(activeTable.value))
    }

    /**
      * Construction takes pins that pass the drive-pin checks, starts at
      * phase 0 with no table and no coil value known, and, as the drive
      * starts disabled, sets every coil's duty cycle to 0.
      */
    constructor (base: BaseStepper, pins: seq<nat>)
      requires base.Valid() && ValidateDrivePins(pins).Ok?
      ensures Valid() && this.base == base && this.pins == pins
      ensures stepIndex == 0 && activeTable == None && lastPinVals == [None, None, None, None]
      ensures pio == [Pwm(pins[0], 0), Pwm(pins[1], 0), Pwm(pins[2], 0), Pwm(pins[3], 0)]
    {
      this.base := base;
      this.pins := pins;
      stepIndex := 0;
      activeTable := None;
      lastPinVals := [None, None, None, None];
      pio := [Pwm(pins[0], 0), Pwm(pins[1], 0), Pwm(pins[2], 0), Pwm(pins[3], 0)];
    }

    /**
      * `output_enable`, run when the drive enable changes: every coil gets
      * the hold power on 'enable' and 0 otherwise, but always 0 while no
      * table has been selected.
      */
    method OutputEnable(newValue: string, holdPower: int)
      requires Valid()
      modifies this`pio
      ensures Valid()
      ensures var duty := if activeTable.None? || newValue != "enable" then 0 else holdPower;
        pio == old(pio) + [Pwm(pins[0], duty), Pwm(pins[1], duty), Pwm(pins[2], duty), Pwm(pins[3], duty)]
    {
      var powlevel := if newValue == "enable" then holdPower else 0;
      var tableSelected := activeTable.Some?;
      ghost var ops := CoilDuties(pins, if tableSelected then powlevel else 0);
      for pix := 0 to 4
        invariant pio == old(pio) + ops[..pix]
      {
        assert ops[..pix + 1] == ops[..pix] + [ops[pix]];
        pio := pio + [Pwm(pins[pix], if tableSelected then powlevel else 0)];
      }
      assert ops[..4] == ops;
    }

    /** `endstepping`: every coil's duty cycle goes to 0. */
    method EndStepping()
      requires Valid()
      modifies this`pio
      ensures Valid()
      ensures pio == old(pio) + [Pwm(pins[0], 0), Pwm(pins[1], 0), Pwm(pins[2], 0), Pwm(pins[3], 0)]
    {
      ghost var ops := CoilDuties(pins, 0);
      for pix := 0 to 4
        invariant pio == old(pio) + ops[..pix]
      {
        assert ops[..pix + 1] == ops[..pix] + [ops[pix]];
        pio := pio + [Pwm(pins[pix], 0)];
      }
      assert ops[..4] == ops;
    }

    /**
      * `getstepfunc`: selects the table named by the step mode's microstep
      * level and forgets the coil values, so the next step writes every coil.
      */
    method GetStepFunc(level: string) returns (r: Result<bool>)
      requires Valid()
      modifies this`activeTable, this`lastPinVals
      ensures Valid()
      ensures level !in UstepTables ==> r == Err(KeyError) && activeTable == old(activeTable) && lastPinVals == old(lastPinVals)
      ensures level in UstepTables ==>
        (r == Ok(true) && activeTable == Some(UstepTables[level]) && lastPinVals == [None, None, None, None])
    {
      if level !in UstepTables {
        return Err(KeyError);
      }
      TableShape(level);
      activeTable := Some(UstepTables[level]);
      for i := 0 to |lastPinVals|
        invariant activeTable == Some(UstepTables[level])
        invariant |lastPinVals| == 4
        invariant forall j :: 0 <= j < i ==> lastPinVals[j].None?
      {
        lastPinVals := lastPinVals[i := None];
      }
      assert lastPinVals == [None, None, None, None];
      r := Ok(true);
    }

    /**
      * `stepmotor`: one phase forward for direction 'F', otherwise one back,
      * then a PWM write for each coil whose value changed. A phase index left
      * past the end by an earlier, longer table makes a backward step raise
      * IndexError, after the index has been stored.
      */
    method StepMotor() returns (err: Option<PyError>)
      requires Valid() && activeTable.Some?
      modifies this`stepIndex, this`lastPinVals, this`pio
      ensures Valid()
      ensures var rows := activeTable.value.rows;
        var six := NextPhase(old(stepIndex), base.direction.value == Named("F"), |rows|);
        stepIndex == six
        && if six >= |rows| then err == Some(IndexError) && pio == old(pio) && lastPinVals == old(lastPinVals)
           else
             err.None? && (forall i :: 0 <= i < 4 ==> lastPinVals[i] == Some(rows[six][i]))
             && pio == old(pio) + ChangedWrites(old(lastPinVals), rows[six], pins)
    {
      var valtable := activeTable.value.rows;
      var six := stepIndex;
      if base.direction.value == Named("F") {
        six := six + 1;
        if six >= |valtable| {
          six := 0;
        }
      } else {
        six := six - 1;
        if six < 0 {
          six := |valtable| - 1;
        }
      }
      stepIndex := six;
      if six >= |valtable| {
        return Some(IndexError);
      }
      var now, writes := CoilWrites(lastPinVals, valtable[six], pins);
      lastPinVals := now;
      pio := pio + writes;
      err := None;
    }

    /**
      * `pulsegen`: looks up the table (KeyError for an unknown level),
      * records the step mode and targets, puts each coil pin in output mode
      * driven low, builds the row masks, and runs the generator from the
      * motor's raw position; the generator keeps its phase index in
      * `stepIndex` as it goes, also when it raises.
      */
    method PulseGen(level: string, ticks: seq<Tick>, targetPos: int, targetDir: string, posChange: int)
      returns (out: seq<Pulse>, err: Option<PyError>)
      requires Valid() && TicksOk(ticks)
      modifies this`stepIndex, this`pio, base
      ensures Valid()
      ensures level !in UstepTables ==> err == Some(KeyError) && out == [] && pio == old(pio)
      ensures level !in UstepTables ==> unchanged(base)
      ensures level in UstepTables ==>
        base.targetRawPos == targetPos && base.targetDir == DirSignOf(targetDir) && base.activeStepMode == level
        && base.tickGenActive && base.stepActive && base.rawPos == old(base.rawPos)
        && pio == old(pio) + [SetOutput(pins[0]), Write(pins[0], 0), SetOutput(pins[1]), Write(pins[1], 0),
                              SetOutput(pins[2]), Write(pins[2], 0), SetOutput(pins[3]), Write(pins[3], 0)]
      ensures level in UstepTables ==>
        var g := UGenFinish(base.name, UGenFrom(base.name, TableMasks(UstepTables[level], pins), posChange, old(base.rawPos), old(stepIndex), ticks));
        out == g.out && err == g.failed && stepIndex == g.stepIndex
    {
      if level !in UstepTables {
        return [], Some(KeyError);
      }
      TableShape(level);
      out, err := StartTicks(level, UstepTables[level], ticks, targetPos, targetDir, posChange);
    }

    /** The rest of `pulsegen` once the step mode's table `activetable` is found. */
    method StartTicks(level: string, activetable: UstepTable, ticks: seq<Tick>, targetPos: int, targetDir: string, posChange: int)
      returns (out: seq<Pulse>, err: Option<PyError>)
      requires Valid() && TicksOk(ticks) && TableShapeOk(activetable)
      modifies this`stepIndex, this`pio, base
      ensures Valid()
      ensures base.targetRawPos == targetPos && base.targetDir == DirSignOf(targetDir) && base.activeStepMode == level
        && base.tickGenActive && base.stepActive && base.rawPos == old(base.rawPos)
        && pio == old(pio) + CoilOutputs(pins)
      ensures var g := UGenFinish(base.name, UGenFrom(base.name, TableMasks(activetable, pins), posChange, old(base.rawPos), old(stepIndex), ticks));
        out == g.out && err == g.failed && stepIndex == g.stepIndex
    {
      base.AimTicks(targetPos, DirSignOf(targetDir));
      base.ArmStepMode(level);
      DriveLow();
      var six;
      out, err, six := UnidStream(base.name, activetable, pins, posChange, base.rawPos, stepIndex, ticks);
      stepIndex := six;
    }

    /** Every coil pin made an output and driven low, in coil order. */
    method DriveLow()
      requires Valid()
      modifies this`pio
      ensures Valid() && pio == old(pio) + CoilOutputs(pins)
    {
      ghost var ops := CoilOutputs(pins);
      for i := 0 to 4
        invariant pio == old(pio) + ops[..2 * i]
      {
        assert ops[..2 * i + 2] == ops[..2 * i] + [SetOutput(pins[i]), Write(pins[i], 0)];
        pio := pio + [SetOutput(pins[i]), Write(pins[i], 0)];
      }
      assert ops[..8] == ops;
    }

    /**
      * The opening of `_softrun` for this driver: the drive is enabled,
      * notifying `output_enable` when that changed it, then the level's
      * table is selected.
      */
    method Begin(req: SoftRunRequest, level: string, holdPower: int)
      requires Valid() && level in UstepTables
      modifies this`activeTable, this`lastPinVals, this`pio, base, base.driveEnable
      ensures Valid() && activeTable == Some(UstepTables[level]) && lastPinVals == [None, None, None, None]
      ensures base.rawPos == old(base.rawPos) && base.opmode == old(base.opmode) && base.stepActive == old(base.stepActive)
      ensures old(base.driveEnable.value) != Named("enable") ==>
        pio == old(pio) + CoilDuties(pins, if old(activeTable).None? then 0 else holdPower)
      ensures old(base.driveEnable.value) == Named("enable") ==> pio == old(pio)
    {
      var enabled := base.BeginSoftRun(req, level);
      if enabled {
        OutputEnable("enable", holdPower);
      }
      var _ := GetStepFunc(level);
    }

    /** The coil state that `ActionsFrom` describes. */
    ghost function CoilsNow(): Coils
      reads this, base.direction
    {
      Coils(stepIndex, lastPinVals, base.direction.value, pio)
    }

    /**
      * The triggers and direction settings of the `_softrun` loop, in order,
      * up to the first `stepmotor` call that raises; that exception is
      * returned and ends the run.
      */
    method RunActions(actions: seq<SoftAction>) returns (err: Option<PyError>)
      requires Valid() && activeTable.Some?
      modifies this`stepIndex, this`lastPinVals, this`pio, base.direction
      ensures Valid()
      ensures (CoilsNow(), err) == ActionsFrom(old(CoilsNow()), activeTable.value, pins, actions)
    {
      ghost var t := activeTable.value;
      ghost var start := CoilsNow();
      err := None;
      var j := 0;
      while j < |actions| && err.None?
        invariant Valid() && activeTable == Some(t) && 0 <= j <= |actions|
        invariant err.None? ==> ActionsFrom(start, t, pins, actions) == ActionsFrom(CoilsNow(), t, pins, actions[j..])
        invariant err.Some? ==> ActionsFrom(start, t, pins, actions) == (CoilsNow(), err)
        decreases |actions| - j
      {
        assert actions[j..][0] == actions[j] && actions[j..][1..] == actions[j + 1..];
        ghost var before := CoilsNow();
        match actions[j] {
          case StepPulse =>
            err := StepMotor();
            if err.None? {
              assert lastPinVals == Remember(t.rows[stepIndex]);
            }
          case SetDirection(d) =>
            if d == 'F' || d == 'R' {
              var _ := base.direction.SetValue(Named([d]));
            }
        }
        assert (CoilsNow(), err) == ActCoils(before, t, pins, actions[j]);
        j := j + 1;
      }
    }

    /**
      * `_softrun` for this driver: enabling the drive notifies
      * `output_enable` when it was not enabled before, which sets the
      * coils' duty cycles while the previous table (if any) is still
      * active; the step function is `stepmotor` on the table for the step
      * mode's level, directions go to the direction setting. Only when the
      * thread runs to the end is the position published, the motor stopped
      * and every coil switched off: a step before any direction (`failed`)
      * or an IndexError from `stepmotor` (`err`) ends the thread first.
      */
    method SoftRun(req: SoftRunRequest, level: string, holdPower: int, posChange: int, ticks: seq<Tick>)
      returns (failed: bool, err: Option<PyError>)
      requires Valid() && DirsValid(ticks) && level in UstepTables
      modifies this, base, base.driveEnable, base.direction
      ensures Valid()
      ensures failed <==> StepsBeforeDirection(ticks)
      ensures var enabling := if old(base.driveEnable.value) != Named("enable")
                              then CoilDuties(pins, if old(activeTable).None? then 0 else holdPower) else [];
        var r := ActionsFrom(Coils(old(stepIndex), [None, None, None, None], old(base.direction.value), old(pio) + enabling),
                             UstepTables[level], pins, SoftRunFrom(old(base.rawPos), posChange, ticks).actions);
        err == r.1 && stepIndex == r.0.index && lastPinVals == r.0.last && base.direction.value == r.0.dir
        && pio == if failed || err.Some? then r.0.writes else r.0.writes + CoilDuties(pins, 0)
      ensures failed || err.Some? ==>
        base.rawPos == old(base.rawPos) && base.opmode == old(base.opmode) && base.stepActive == old(base.stepActive)
      ensures !failed && err.None? ==>
        base.rawPos == old(base.rawPos) + posChange * SignedSteps(ticks) && base.opmode == Stopped && !base.stepActive
    {
      ghost var enabling := if base.driveEnable.value != Named("enable")
                            then CoilDuties(pins, if activeTable.None? then 0 else holdPower) else [];
      ghost var c0 := Coils(stepIndex, [None, None, None, None], base.direction.value, pio + enabling);
      Begin(req, level, holdPower);
      assert CoilsNow() == c0;
      var newPos, actions;
      newPos, actions, failed := SoftRunLoop(base.rawPos, posChange, ticks);
      err := RunActions(actions);
      ghost var r := ActionsFrom(c0, UstepTables[level], pins, actions);
      assert CoilsNow() == r.0 && err == r.1;
      if !failed && err.None? {
        base.EndSoftRun(newPos);
        EndStepping();
      }
    }
  }
}
