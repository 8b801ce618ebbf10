/**
  * The multi-motor controller of steppergroup.py: the controller mode, and
  * the fast-stepping thread that cuts the merged pulse stream into pigpio
  * waves, keeps at most `max_waves` of them queued, and retires them as
  * the hardware moves on, publishing each motor's position and completion.
  */
module StepperGroup {
  import opened Pulses
  import opened PulseMerge

  datatype ControllerMode = ClosedMode | Off | FastStep

  /** `pigpio.pulse`: the bits to set, the bits to clear and the microseconds to the next entry. */
  datatype WavePulse = WavePulse(on: Mask, off: Mask, delay: int)

  /** The pigpio wave calls the fast-stepping thread makes, in order. */
  datatype WaveOp =
    | ClearWaves
    | AddGeneric(pulses: seq<WavePulse>)
    | CreateAndPad(percent: int)
    | SendOneShotSync(id: int)
    | DeleteWave(id: int)

  /** Python's `100 // maxwaves` for positive `maxwaves`. */
  function WavePercent(maxWaves: nat): (p: nat)
    requires maxWaves > 0
    ensures p * maxWaves <= 100 < (p + 1) * maxWaves
  {
    100 / maxWaves
  }

  /**
    * The wave entry for merged pulse `i`: its bits and the time to the next
    * merged pulse, or 1 µs for the last pulse of the stream.
    */
  function Entry(ps: seq<Pulse>, i: nat): WavePulse
    requires i < |ps|
  {
    WavePulse(ps[i].on, ps[i].off, if i + 1 < |ps| then ps[i + 1].time - ps[i].time else 1)
  }

  /** Writes entry `n` of a (possibly recycled) buffer: appended when the buffer is that short, overwritten otherwise. */
  function Put(buff: seq<WavePulse>, n: nat, e: WavePulse): (r: seq<WavePulse>)
    requires n <= |buff|
    ensures |r| == if n == |buff| then n + 1 else |buff|
    ensures r[n] == e && forall i :: 0 <= i < |buff| && i != n ==> r[i] == buff[i]
  {
    if n == |buff| then buff + [e] else buff[n := e]
  }

  /** The wave entries of merged pulses `a` up to `b`. */
  function Entries(ps: seq<Pulse>, a: nat, b: nat): (es: seq<WavePulse>)
    requires a <= b <= |ps|
    ensures |es| == b - a
    decreases b - a
  {
    if a == b then [] else Entries(ps, a, b - 1) + [Entry(ps, b - 1)]
  }

  lemma {:induction false} EntriesIndex(ps: seq<Pulse>, a: nat, b: nat)
    requires a <= b <= |ps|
    ensures forall i :: 0 <= i < b - a ==> Entries(ps, a, b)[i] == Entry(ps, a + i)
    decreases b - a
  {
    if a < b {
      EntriesIndex(ps, a, b - 1);
    }
  }

  lemma {:induction false} EntriesSplit(ps: seq<Pulse>, a: nat, b: nat, c: nat)
    requires a <= b <= c <= |ps|
    ensures Entries(ps, a, c) == Entries(ps, a, b) + Entries(ps, b, c)
    decreases c - b
  {
    if b < c {
      EntriesSplit(ps, a, b, c - 1);
    }
  }

  /** The pulses handed to `wave_add_generic`, in order. */
  function AddedPulses(ops: seq<WaveOp>): seq<WavePulse>
  {
    if |ops| == 0 then []
    else AddedPulses(ops[..|ops| - 1]) + match ops[|ops| - 1] { case AddGeneric(ws) => ws case _ => [] }
  }

  lemma {:induction false} AddedPulsesAppend(a: seq<WaveOp>, b: seq<WaveOp>)
    ensures AddedPulses(a + b) == AddedPulses(a) + AddedPulses(b)
    decreases |b|
  {
    if |b| > 0 {
      AddedPulsesAppend(a, b[..|b| - 1]);
      assert (a + b)[..|a + b| - 1] == a + b[..|b| - 1];
      assert (a + b)[|a + b| - 1] == b[|b| - 1];
    } else {
      assert a + b == a;
    }
  }

  /**
    * The loop variables of one buffer fill: `nextbuffi`, the index of
    * `thisp` in the merged stream, `bufftime`, the buffer and `moredata`.
    */
  datatype Fill = Fill(n: nat, k: nat, budget: int, buff: seq<WavePulse>, more: bool)

  /**
    * The buffer-filling loop from state `st` on: each round writes `thisp`'s
    * entry, with the delay to the next merged pulse; the end of the stream
    * writes delay 1 and clears `moredata`; a negative delay fails the
    * assertion; the buffer closes at `maxPulses` entries or once the delays
    * have used up `bufftime`.
    */
  function FillFrom(ps: seq<Pulse>, maxPulses: nat, st: Fill): (r: Result<Fill>)
    requires st.more && st.k < |ps| && st.n <= maxPulses && st.n <= |st.buff|
    ensures r.Ok? ==> st.k <= r.value.k <= |ps| && st.n <= r.value.n <= maxPulses && r.value.n <= |r.value.buff|
    ensures r.Ok? && r.value.more ==> r.value.k < |ps|
    decreases maxPulses - st.n
  {
    if st.n == maxPulses then Ok(st)
    else
      var buff := Put(st.buff, st.n, Entry(ps, st.k));
      if st.k + 1 == |ps| then Ok(Fill(st.n + 1, st.k + 1, st.budget, buff, false))
      else
        var d := ps[st.k + 1].time - ps[st.k].time;
        if d < 0 then Err(AssertionError)
        else if st.budget - d <= 0 then Ok(Fill(st.n + 1, st.k + 1, st.budget - d, buff, true))
        else FillFrom(ps, maxPulses, Fill(st.n + 1, st.k + 1, st.budget - d, buff, true))
  }

  predicate FillStart(ps: seq<Pulse>, maxPulses: nat, st: Fill)
  {
    st.more && st.k < |ps| && st.n <= maxPulses && st.n <= |st.buff|
  }

  /**
    * A fill writes one entry per merged pulse it passes, at consecutive
    * buffer slots, each with the delay to the following pulse (1 for the
    * stream's last).
    */
  lemma {:induction false} FillEntries(ps: seq<Pulse>, maxPulses: nat, st: Fill)
    requires FillStart(ps, maxPulses, st)
    ensures var r := FillFrom(ps, maxPulses, st);
      r.Ok? ==>
        var f := r.value;
        f.k - st.k == f.n - st.n
        && (st.n < maxPulses ==> st.n < f.n)
        && (forall i :: st.n <= i < f.n ==> f.buff[i] == Entry(ps, st.k + (i - st.n)))
    decreases maxPulses - st.n
  {
    if st.n < maxPulses && st.k + 1 < |ps| {
      var d := ps[st.k + 1].time - ps[st.k].time;
      if d >= 0 && st.budget - d > 0 {
        var next := Fill(st.n + 1, st.k + 1, st.budget - d, Put(st.buff, st.n, Entry(ps, st.k)), true);
        assert FillFrom(ps, maxPulses, st) == FillFrom(ps, maxPulses, next);
        FillEntries(ps, maxPulses, next);
        FillKeeps(ps, maxPulses, next);
        var r := FillFrom(ps, maxPulses, next);
        if r.Ok? {
          var f := r.value;
          forall i | st.n <= i < f.n
            ensures f.buff[i] == Entry(ps, st.k + (i - st.n))
          {
            if i == st.n {
              assert f.buff[i] == next.buff[i];
            }
          }
        }
      }
    }
  }

  /**
    * A recycled buffer keeps its length unless the fill outgrows it, and
    * the slots the fill does not write keep their old entries: only the
    * first `nextbuffi` entries are new.
    */
  lemma {:induction false} FillKeeps(ps: seq<Pulse>, maxPulses: nat, st: Fill)
    requires FillStart(ps, maxPulses, st)
    ensures var r := FillFrom(ps, maxPulses, st);
      r.Ok? ==>
        var f := r.value;
        |f.buff| == (if f.n <= |st.buff| then |st.buff| else f.n)
        && (forall i :: 0 <= i < |st.buff| && !(st.n <= i < f.n) ==> f.buff[i] == st.buff[i])
    decreases maxPulses - st.n
  {
    if st.n < maxPulses && st.k + 1 < |ps| {
      var d := ps[st.k + 1].time - ps[st.k].time;
      if d >= 0 && st.budget - d > 0 {
        FillKeeps(ps, maxPulses, Fill(st.n + 1, st.k + 1, st.budget - d, Put(st.buff, st.n, Entry(ps, st.k)), true));
      }
    }
  }

  function MinNat(a: nat, b: nat): nat
  {
    if a <= b then a else b
  }

  /**
    * Where a fill stops: `moredata` is cleared exactly when the stream is
    * used up; otherwise the buffer is full or its delays have reached the
    * time budget, which they had not at any earlier pulse. The budget left
    * is the start budget less the time the buffer spans.
    */
  lemma {:induction false} FillCloses(ps: seq<Pulse>, maxPulses: nat, st: Fill)
    requires FillStart(ps, maxPulses, st)
    ensures var r := FillFrom(ps, maxPulses, st);
      r.Ok? ==>
        var f := r.value;
        (f.more <==> f.k < |ps|)
        && (f.more ==> f.n == maxPulses || f.budget <= 0)
        && f.budget == st.budget - (ps[MinNat(f.k, |ps| - 1)].time - ps[st.k].time)
        && (forall j :: st.k < j < f.k && j < |ps| ==> st.budget - (ps[j].time - ps[st.k].time) > 0)
    decreases maxPulses - st.n
  {
    if st.n < maxPulses && st.k + 1 < |ps| {
      var d := ps[st.k + 1].time - ps[st.k].time;
      if d >= 0 && st.budget - d > 0 {
        var next := Fill(st.n + 1, st.k + 1, st.budget - d, Put(st.buff, st.n, Entry(ps, st.k)), true);
        assert FillFrom(ps, maxPulses, st) == FillFrom(ps, maxPulses, next);
        FillCloses(ps, maxPulses, next);
        var r := FillFrom(ps, maxPulses, next);
        if r.Ok? {
          var f := r.value;
          assert st.budget - (ps[st.k + 1].time - ps[st.k].time) > 0;
          assert forall j :: next.k < j < f.k && j < |ps| ==> next.budget - (ps[j].time - ps[next.k].time) > 0;
        }
      }
    }
  }

  /**
    * The `assert dtime >= 0` fails only on a pair of merged pulses out of
    * time order, so it never fails on an ordered stream.
    */
  lemma {:induction false} FillAssertion(ps: seq<Pulse>, maxPulses: nat, st: Fill)
    requires FillStart(ps, maxPulses, st)
    ensures var r := FillFrom(ps, maxPulses, st);
      r.Err? ==> r.error == AssertionError && exists j :: st.k <= j && j + 1 < |ps| && ps[j + 1].time < ps[j].time
    ensures TimeOrdered(ps) ==> FillFrom(ps, maxPulses, st).Ok?
    decreases maxPulses - st.n
  {
    if st.n < maxPulses && st.k + 1 < |ps| {
      var d := ps[st.k + 1].time - ps[st.k].time;
      if d >= 0 && st.budget - d > 0 {
        FillAssertion(ps, maxPulses, Fill(st.n + 1, st.k + 1, st.budget - d, Put(st.buff, st.n, Entry(ps, st.k)), true));
      }
    }
  }

  /** The merged stream of streams that are each in time order never trips the delay assertion. */
  lemma {:induction false} MergedFillsCleanly(srcs: seq<seq<Pulse>>, maxPulses: nat, st: Fill)
    requires AllOrdered(srcs) && FillStart(Untag(Merged(srcs)), maxPulses, st)
    ensures FillFrom(Untag(Merged(srcs)), maxPulses, st).Ok?
  {
    MergedOrdered(srcs);
    FillAssertion(Untag(Merged(srcs)), maxPulses, st);
  }

  /** For each motor, its last pulse among `ps[lo..hi]` (`mposns`). */
  function Record(ps: seq<Pulse>, lo: nat, hi: nat): map<string, Pulse>
    requires lo <= hi <= |ps|
    decreases hi - lo
  {
    if hi == lo then map[] else Record(ps, lo, hi - 1)[ps[hi - 1].motor := ps[hi - 1]]
  }

  /**
    * `Record` holds exactly the motors with a pulse in the range, each
    * mapped to its own last pulse there.
    */
  lemma {:induction false} RecordMeaning(ps: seq<Pulse>, lo: nat, hi: nat)
    requires lo <= hi <= |ps|
    ensures forall m :: m in Record(ps, lo, hi) <==> exists i :: lo <= i < hi && ps[i].motor == m
    ensures forall m :: m in Record(ps, lo, hi) ==>
      exists i :: (lo <= i < hi && Record(ps, lo, hi)[m] == ps[i] && ps[i].motor == m
        && forall j :: i < j < hi ==> ps[j].motor != m)
  {
    RecordKeys(ps, lo, hi);
    RecordLast(ps, lo, hi);
  }

  lemma {:induction false} RecordKeys(ps: seq<Pulse>, lo: nat, hi: nat)
    requires lo <= hi <= |ps|
    ensures forall m :: m in Record(ps, lo, hi) <==> exists i :: lo <= i < hi && ps[i].motor == m
    decreases hi - lo
  {
    if hi > lo {
      RecordKeys(ps, lo, hi - 1);
    }
  }

  lemma {:induction false} RecordLast(ps: seq<Pulse>, lo: nat, hi: nat)
    requires lo <= hi <= |ps|
    ensures forall m :: m in Record(ps, lo, hi) ==>
      exists i :: (lo <= i < hi && Record(ps, lo, hi)[m] == ps[i] && ps[i].motor == m
        && forall j :: i < j < hi ==> ps[j].motor != m)
    decreases hi - lo
  {
    if hi > lo {
      RecordLast(ps, lo, hi - 1);
      var prev := Record(ps, lo, hi - 1);
      var r := Record(ps, lo, hi);
      assert r == prev[ps[hi - 1].motor := ps[hi - 1]];
      forall m | m in r
        ensures exists i :: lo <= i < hi && r[m] == ps[i] && ps[i].motor == m && forall j :: i < j < hi ==> ps[j].motor != m
      {
        if m != ps[hi - 1].motor {
          var i :| lo <= i < hi - 1 && prev[m] == ps[i] && ps[i].motor == m
            && forall j :: i < j < hi - 1 ==> ps[j].motor != m;
          assert r[m] == ps[i];
        } else {
          assert r[m] == ps[hi - 1];
        }
      }
    }
  }

  /**
    * `mposns` as written: line 153 runs after `thisp = nextp` and is skipped
    * by either break, so it records the pulses after the buffer's first
    * entry, plus the pulse after its last entry when the buffer closed on
    * its pulse count.
    */
  function AsWrittenEnds(ps: seq<Pulse>, maxPulses: nat, k0: nat, f: Fill): map<string, Pulse>
    requires k0 < f.k <= |ps| && (f.more ==> f.k < |ps|)
  {
    Record(ps, k0 + 1, if f.more && f.n == maxPulses && f.budget > 0 then f.k + 1 else f.k)
  }

  /**
    * The buffer's end positions as the retirement code reads them: for each
    * motor, its last pulse among the buffer's entries.
    */
  function BufferEnds(ps: seq<Pulse>, k0: nat, f: Fill): map<string, Pulse>
    requires k0 <= f.k <= |ps|
  {
    Record(ps, k0, f.k)
  }

  /**
    * A motor's completion pulse that lands first in a buffer, after the
    * previous buffer closed on time, is recorded by no buffer as written:
    * motor "b" is never stopped. Recording each entry's own pulse records it.
    */
  lemma {:induction false} CompletionLostAtBoundary(p0: Pulse, p1: Pulse)
    requires p0 == Pulse({}, {}, 0, 0, "a", Normal) && p1 == Pulse({4}, {}, 600000, 7, "b", Complete)
    ensures var ps := [p0, p1];
      var r1 := FillFrom(ps, 1000, Fill(0, 0, 500000, [], true));
      r1.Ok? && r1.value.k == 1 && r1.value.more
      && var r2 := FillFrom(ps, 1000, Fill(0, 1, 500000, [], true));
      r2.Ok? && r2.value.k == 2 && !r2.value.more
      && "b" !in AsWrittenEnds(ps, 1000, 0, r1.value) && "b" !in AsWrittenEnds(ps, 1000, 1, r2.value)
      && BufferEnds(ps, 1, r2.value)["b"] == p1
  {
    var ps := [p0, p1];
    assert Put([], 0, Entry(ps, 0)) == [WavePulse({}, {}, 600000)];
    assert Put([], 0, Entry(ps, 1)) == [WavePulse({4}, {}, 1)];
    assert FillFrom(ps, 1000, Fill(0, 0, 500000, [], true)) == Ok(Fill(1, 1, -100000, [WavePulse({}, {}, 600000)], true));
    assert FillFrom(ps, 1000, Fill(0, 1, 500000, [], true)) == Ok(Fill(1, 2, 500000, [WavePulse({4}, {}, 1)], false));
    assert Record(ps, 1, 1) == map[];
    assert Record(ps, 2, 2) == map[];
    assert Record(ps, 1, 2) == map["b" := p1];
  }

  /**
    * One buffer fill, with `mposns` recording each entry's own pulse. With
    * `thisp` already `None` the first subscript fails.
    */
  method FillBuffer(ps: seq<Pulse>, k: nat, maxPulses: nat, maxTime: int, reuse: seq<WavePulse>)
    returns (r: Result<Fill>, mposns: map<string, Pulse>)
    ensures k >= |ps| ==> r == Err(TypeError)
    ensures k < |ps| ==> r == FillFrom(ps, maxPulses, Fill(0, k, maxTime, reuse, true))
    ensures r.Ok? ==> k <= r.value.k <= |ps| && mposns == BufferEnds(ps, k, r.value)
  {
    if k >= |ps| {
      return Err(TypeError), map[];
    }
    ghost var start := Fill(0, k, maxTime, reuse, true);
    var thisp, n, bufftime, buff := k, 0, maxTime, reuse;
    var stop := false;
    mposns := map[];
    r := Err(TypeError);
    while n < maxPulses && !stop
      invariant k <= thisp <= |ps| && n <= maxPulses && n <= |buff|
      invariant !stop ==> thisp < |ps| && n == thisp - k
      invariant !stop ==> FillFrom(ps, maxPulses, start) == FillFrom(ps, maxPulses, Fill(n, thisp, bufftime, buff, true))
      invariant stop ==> r == FillFrom(ps, maxPulses, start) && (r.Ok? ==> r.value.k == thisp)
      invariant mposns == Record(ps, k, thisp)
      decreases maxPulses - n, if stop then 0 else 1
    {
      var e := WavePulse(ps[thisp].on, ps[thisp].off, 1);
      if thisp + 1 == |ps| {
        buff := Put(buff, n, e);
        mposns := mposns[ps[thisp].motor := ps[thisp]];
        n, thisp := n + 1, thisp + 1;
        r, stop := Ok(Fill(n, thisp, bufftime, buff, false)), true;
      } else {
        var dtime := ps[thisp + 1].time - ps[thisp].time;
        if dtime < 0 {
          r, stop := Err(AssertionError), true;
        } else {
          buff := Put(buff, n, e.(delay := dtime));
          mposns := mposns[ps[thisp].motor := ps[thisp]];
          n, thisp, bufftime := n + 1, thisp + 1, bufftime - dtime;
          if bufftime <= 0 {
            r, stop := Ok(Fill(n, thisp, bufftime, buff, true)), true;
          }
        }
      }
    }
    if !stop {
      r := Ok(Fill(n, thisp, bufftime, buff, true));
    }
  }

  /**
    * One buffer of the filling loop: the oldest saved buffer is recycled
    * (or a new one started) and filled from `thisp` on. Its first `n`
    * entries are those of the merged pulses it passes, and `mposns` holds
    * each motor's last pulse among them.
    */
  method NextBuffer(ps: seq<Pulse>, k: nat, maxPulses: nat, maxTime: int, saved: seq<seq<WavePulse>>)
    returns (r: Result<Fill>, mposns: map<string, Pulse>, saved2: seq<seq<WavePulse>>)
    requires maxPulses >= 1
    ensures saved2 == if |saved| > 0 then saved[1..] else saved
    ensures k >= |ps| ==> r == Err(TypeError)
    ensures r.Ok? ==>
      var f := r.value;
      k < f.k <= |ps| && f.n == f.k - k && f.n <= |f.buff| && f.buff[..f.n] == Entries(ps, k, f.k)
      && (f.more <==> f.k < |ps|) && mposns == Record(ps, k, f.k)
  {
    var reuse: seq<WavePulse> := [];
    saved2 := saved;
    if |saved2| > 0 {
      reuse := saved2[0];
      saved2 := saved2[1..];
    }
    r, mposns := FillBuffer(ps, k, maxPulses, maxTime, reuse);
    if r.Ok? {
      ghost var start := Fill(0, k, maxTime, reuse, true);
      FillEntries(ps, maxPulses, start);
      FillCloses(ps, maxPulses, start);
      SentEntries(ps, k, r.value.buff, r.value.n);
    }
  }

  /** How many waves at the front of `pending` are retired: those before the one now transmitting. */
  function RetireCount(pending: seq<int>, current: int): nat
  {
    if |pending| == 0 || pending[0] == current then 0 else 1 + RetireCount(pending[1..], current)
  }

  /**
    * Retirement stops at the first occurrence of the transmitting wave, or
    * retires everything when it is not queued.
    */
  lemma {:induction false} RetireCountMeaning(pending: seq<int>, current: int)
    ensures RetireCount(pending, current) <= |pending|
    ensures forall i :: 0 <= i < RetireCount(pending, current) ==> pending[i] != current
    ensures RetireCount(pending, current) < |pending| ==> pending[RetireCount(pending, current)] == current
    ensures current !in pending <==> RetireCount(pending, current) == |pending|
  {
    if |pending| > 0 && pending[0] != current {
      RetireCountMeaning(pending[1..], current);
      assert forall i :: 1 <= i < |pending| ==> pending[i] == pending[1..][i - 1];
    }
  }

  /** Each motor's `rawposn` after a wave's end positions are published. */
  function PublishPositions(rawPos: map<string, int>, ends: map<string, Pulse>): (r: map<string, int>)
    ensures r.Keys == rawPos.Keys + ends.Keys
    ensures forall m :: m in ends ==> r[m] == ends[m].pos
    ensures forall m :: m in rawPos && m !in ends ==> r[m] == rawPos[m]
  {
    map m | m in rawPos.Keys + ends.Keys :: if m in ends then ends[m].pos else rawPos[m]
  }

  /** The motors whose last pulse in a wave is an action-complete pulse. */
  function Completed(ends: map<string, Pulse>): (s: set<string>)
    ensures forall m :: m in s <==> m in ends && ends[m].action == Complete
  {
    set m | m in ends && ends[m].action == Complete
  }

  function Deletes(ids: seq<int>): (ops: seq<WaveOp>)
    ensures |ops| == |ids| && forall i :: 0 <= i < |ids| ==> ops[i] == DeleteWave(ids[i])
  {
    if |ids| == 0 then [] else [DeleteWave(ids[0])] + Deletes(ids[1..])
  }

  /**
    * The controller: its mode and the wave settings it was built with
    * (`wavepulses` at least 100, `max_wave_time` 1000..1000000 µs,
    * `max_waves` 2..9).
    */
  class MultiMotor {
    var mode: ControllerMode
    const wavePulses: nat
    const maxWaveTime: nat
    const maxWaves: nat

    ghost predicate Valid()
      reads this
    {
      wavePulses >= 100 && 1000 <= maxWaveTime <= 1000000 && 2 <= maxWaves <= 9
    }

    constructor (wavePulses: nat, maxWaveTime: nat, maxWaves: nat)
      requires wavePulses >= 100 && 1000 <= maxWaveTime <= 1000000 && 2 <= maxWaves <= 9
      ensures Valid() && mode == Off
      ensures this.wavePulses == wavePulses && this.maxWaveTime == maxWaveTime && this.maxWaves == maxWaves
    {
      this.wavePulses := wavePulses;
      this.maxWaveTime := maxWaveTime;
      this.maxWaves := maxWaves;
      mode := Off;
    }

    /**
      * `runfast`: fast stepping starts only from 'off'. The thread it starts
      * is a `FastStepRun`.
      */
    method RunFast() returns (r: Result<()>)
      modifies this
      ensures old(mode) == Off ==> r == Ok(()) && mode == FastStep
      ensures old(mode) == ClosedMode ==> r == Err(ValueError("controller is closed")) && mode == old(mode)
      ensures old(mode) == FastStep ==> r == Err(ValueError("fast stepping already active")) && mode == old(mode)
    {
      if mode == Off {
        mode := FastStep;
        r := Ok(());
      } else if mode == ClosedMode {
        r := Err(ValueError("controller is closed"));
      } else {
        r := Err(ValueError("fast stepping already active"));
      }
    }

    /** The end of the fast-stepping thread. */
    method EndFastStep()
      modifies this
      ensures mode == Off
    {
      mode := Off;
    }

    /** `cleanstop`, once every motor is closed. */
    method CleanStop()
      modifies this
      ensures mode == ClosedMode
    {
      mode := ClosedMode;
    }
  }

  /**
    * The state of one fast-stepping thread: the merged stream and the index
    * of `thisp` in it, `moredata`, the four wave lists, and the motors'
    * published positions and stopped set.
    */
  class FastStepRun {
    const merged: seq<Pulse>
    const maxPulses: nat
    const maxWaveTime: nat
    const maxWaves: nat
    var thisp: nat
    var moreData: bool
    /** `pendingbufs`: the ids of the waves sent and not yet retired, oldest first. */
    var pending: seq<int>
    /** `buffends`: the end positions of each pending wave. */
    var buffEnds: seq<map<string, Pulse>>
    /** `sentbuffs`: the buffer each pending wave was built from. */
    var sent: seq<seq<WavePulse>>
    /** `savedbuffs`: retired buffers kept for reuse. */
    var saved: seq<seq<WavePulse>>
    var rawPos: map<string, int>
    var stopped: set<string>
    /** The pigpio wave calls made so far. */
    var hw: seq<WaveOp>

    ghost predicate Valid()
      reads this
    {
      maxPulses >= 1 && maxWaves >= 1 && |pending| == |buffEnds| <= |sent| && thisp <= |merged|
    }

    /** The thread's start: `thisp` is the first merged pulse and pigpio's waves are cleared. */
    constructor (merged: seq<Pulse>, maxPulses: nat, maxWaveTime: nat, maxWaves: nat, rawPos: map<string, int>)
      requires maxPulses >= 1 && maxWaves >= 1
      ensures Valid() && this.merged == merged && this.maxPulses == maxPulses
      ensures this.maxWaveTime == maxWaveTime && this.maxWaves == maxWaves
      ensures thisp == 0 && moreData && pending == [] && buffEnds == [] && sent == [] && saved == []
      ensures this.rawPos == rawPos && stopped == {} && hw == [ClearWaves]
    {
      this.merged := merged;
      this.maxPulses := maxPulses;
      this.maxWaveTime := maxWaveTime;
      this.maxWaves := maxWaves;
      thisp := 0;
      moreData := true;
      pending, buffEnds, sent, saved := [], [], [], [];
      this.rawPos := rawPos;
      stopped := {};
      hw := [ClearWaves];
    }

    /**
      * Sends the first `n` entries of a filled buffer as one wave: the
      * wave id pigpio returns is the parameter `waveId`. The buffer, the
      * id and the end positions join the three queues together.
      */
    method SendWave(buff: seq<WavePulse>, n: nat, ends: map<string, Pulse>, waveId: int)
      requires Valid() && n <= |buff|
      modifies this
      ensures Valid()
      ensures n > 0 ==>
        pending == old(pending) + [waveId] && buffEnds == old(buffEnds) + [ends] && sent == old(sent) + [buff]
        && hw == old(hw) + [AddGeneric(buff[..n]), CreateAndPad(WavePercent(maxWaves)), SendOneShotSync(waveId)]
      ensures n == 0 ==> pending == old(pending) && buffEnds == old(buffEnds) && sent == old(sent) && hw == old(hw)
      ensures saved == old(saved) && thisp == old(thisp) && moreData == old(moreData)
      ensures rawPos == old(rawPos) && stopped == old(stopped)
    {
      if n > 0 {
        hw := hw + [AddGeneric(buff[..n]), CreateAndPad(WavePercent(maxWaves)), SendOneShotSync(waveId)];
        sent := sent + [buff];
        pending := pending + [waveId];
        buffEnds := buffEnds + [ends];
      }
    }

    /**
      * The filling loop: while fewer than `max_waves` waves are pending and
      * the stream lasts, fill a buffer (recycling the oldest saved one) and
      * send it. `waveIds` are the ids pigpio hands out, in order.
      */
    method FillWaves(waveIds: seq<int>) returns (r: Result<()>)
      requires Valid() && |waveIds| >= maxWaves
      modifies this
      ensures Valid()
      ensures |pending| >= |old(pending)| && old(thisp) <= thisp && |hw| >= |old(hw)| && hw[..|old(hw)|] == old(hw)
      ensures r.Ok? ==> (|old(pending)| <= maxWaves ==> |pending| <= maxWaves) && (moreData ==> |pending| >= maxWaves)
      ensures r.Ok? && old(moreData) && !moreData ==> thisp == |merged|
      ensures r.Ok? ==> AddedPulses(hw[|old(hw)|..]) == Entries(merged, old(thisp), thisp)
      ensures pending[..|old(pending)|] == old(pending) && buffEnds[..|old(pending)|] == old(buffEnds)
      ensures rawPos == old(rawPos) && stopped == old(stopped)
    {
      var j := 0;
      while |pending| < maxWaves && moreData
        invariant Valid() && old(thisp) <= thisp && |old(pending)| <= |pending|
        invariant |old(hw)| <= |hw| && hw[..|old(hw)|] == old(hw)
        invariant !old(moreData) ==> !moreData && thisp == old(thisp)
        invariant !moreData && old(moreData) ==> thisp == |merged|
        invariant AddedPulses(hw[|old(hw)|..]) == Entries(merged, old(thisp), thisp)
        invariant pending[..|old(pending)|] == old(pending) && buffEnds[..|old(pending)|] == old(buffEnds)
        invariant rawPos == old(rawPos) && stopped == old(stopped)
        invariant |old(pending)| >= maxWaves ==> pending == old(pending)
        invariant |old(pending)| < maxWaves ==> |pending| <= maxWaves
        decreases maxWaves - |pending|
      {
        ghost var hw0, thisp0, pending0, ends0 := hw, thisp, pending, buffEnds;
        var id := if j < |waveIds| then waveIds[j] else 0;
        r := FillOneWave(id);
        if r.Err? {
          return;
        }
        AddedChain(old(hw), hw0, hw);
        assert hw[..|old(hw)|] == hw0[..|old(hw)|];
        EntriesSplit(merged, old(thisp), thisp0, thisp);
        assert pending[..|old(pending)|] == pending0[..|old(pending)|];
        assert buffEnds[..|old(pending)|] == ends0[..|old(pending)|];
        j := j + 1;
      }
      r := Ok(());
    }

    /**
      * One round of the filling loop: fill a buffer from `thisp` on,
      * recycling the oldest saved buffer, and send it as wave `waveId`. The
      * wave's end positions are each motor's last pulse in it.
      */
    method FillOneWave(waveId: int) returns (r: Result<()>)
      requires Valid() && moreData
      modifies this
      ensures Valid()
      ensures old(thisp) <= thisp && |hw| >= |old(hw)| && hw[..|old(hw)|] == old(hw)
      ensures |pending| >= |old(pending)| && pending[..|old(pending)|] == old(pending) && buffEnds[..|old(pending)|] == old(buffEnds)
      ensures r.Ok? ==>
        old(thisp) < thisp && (!moreData ==> thisp == |merged|)
        && pending == old(pending) + [waveId] && buffEnds == old(buffEnds) + [Record(merged, old(thisp), thisp)]
        && AddedPulses(hw[|old(hw)|..]) == Entries(merged, old(thisp), thisp)
      ensures rawPos == old(rawPos) && stopped == old(stopped)
    {
      var fill, mposns, saved2 := NextBuffer(merged, thisp, maxPulses, maxWaveTime, saved);
      saved := saved2;
      if fill.Err? {
        return Err(fill.error);
      }
      var f := fill.value;
      ghost var hw0 := hw;
      thisp := f.k;
      moreData := f.more;
      SendWave(f.buff, f.n, mposns, waveId);
      NewOps(old(hw), hw0, hw, f.buff[..f.n], WavePercent(maxWaves), waveId);
      r := Ok(());
    }

    /**
      * Retirement: while a wave is pending and the front is not the one now
      * transmitting (`current`, from `wave_tx_at`), delete it and move its
      * buffer to the saved list; then publish the end positions of the last
      * wave retired, stopping the motors whose last pulse there completes
      * their action.
      */
    method Retire(current: int)
      requires Valid()
      modifies this
      ensures Valid()
      ensures var rc := RetireCount(old(pending), current);
        rc <= |old(pending)|
        && pending == old(pending)[rc..] && buffEnds == old(buffEnds)[rc..] && sent == old(sent)[rc..]
        && saved == old(saved) + old(sent)[..rc] && hw == old(hw) + Deletes(old(pending)[..rc])
        && (rc > 0 ==> rawPos == PublishPositions(old(rawPos), old(buffEnds)[rc - 1])
                       && stopped == old(stopped) + Completed(old(buffEnds)[rc - 1]))
        && (rc == 0 ==> rawPos == old(rawPos) && stopped == old(stopped))
      ensures pending == [] || pending[0] == current
      ensures thisp == old(thisp) && moreData == old(moreData)
    {
      RetireCountMeaning(pending, current);
      var pend, ends, snt, svd, deleted, endposns := PopRetired(pending, buffEnds, sent, saved, current);
      pending := pend;
      buffEnds := ends;
      sent := snt;
      saved := svd;
      hw := hw + Deletes(deleted);
      if endposns.Some? {
        PublishEnds(endposns.value);
      }
    }

    /** A retired wave's end positions become the motors' positions, and motors whose train completed are stopped. */
    method PublishEnds(ends: map<string, Pulse>)
      modifies this`rawPos, this`stopped
      ensures rawPos == PublishPositions(old(rawPos), ends) && stopped == old(stopped) + Completed(ends)
    {
      rawPos := PublishPositions(rawPos, ends);
      stopped := stopped + Completed(ends);
    }

    /**
      * One pass of the final drain: `current` 9999, or a transmitting wave
      * behind the front, retires the front wave and publishes its end
      * positions; the front wave still transmitting changes nothing; a
      * `current` not queued makes `pendingbufs.index` raise.
      */
    method DrainStep(current: int) returns (r: Result<()>)
      requires Valid()
      modifies this
      ensures Valid()
      ensures old(pending) == [] ==> r == Ok(()) && unchanged(this)
      ensures old(pending) != [] && current != 9999 && current !in old(pending) ==>
        r.Err? && r.error.ValueError? && unchanged(this)
      ensures old(pending) != [] && current != 9999 && current == old(pending)[0] ==> r == Ok(()) && unchanged(this)
      ensures old(pending) != [] && (current == 9999 || (current in old(pending) && current != old(pending)[0])) ==>
        r == Ok(()) && pending == old(pending)[1..] && buffEnds == old(buffEnds)[1..]
        && hw == old(hw) + [DeleteWave(old(pending)[0])]
        && rawPos == PublishPositions(old(rawPos), old(buffEnds)[0])
        && stopped == old(stopped) + Completed(old(buffEnds)[0])
        && sent == old(sent) && saved == old(saved)
      ensures thisp == old(thisp) && moreData == old(moreData)
    {
      if |pending| == 0 {
        return Ok(());
      }
      if current != 9999 && current !in pending {
        return Err(ValueError("is not in list"));
      }
      if current == 9999 || current != pending[0] {
        var donebuf := pending[0];
        pending := pending[1..];
        hw := hw + [DeleteWave(donebuf)];
        var endposns := buffEnds[0];
        buffEnds := buffEnds[1..];
        PublishEnds(endposns);
      }
      r := Ok(());
    }

    /**
      * `_threadfaststep` after its start: while the stream lasts, fill
      * waves and then retire the finished ones; once it is used up, drain
      * the pending waves one pass at a time. `waveIds` are the ids pigpio
      * hands out in each filling pass, and `currents` its `wave_tx_at`
      * answers, one per retirement or drain pass; the run stops early,
      * without `done`, when the answers run out.
      */
    method Run(waveIds: seq<int>, currents: seq<int>) returns (r: Result<()>, done: bool)
      requires Valid() && |waveIds| >= maxWaves
      modifies this
      ensures Valid()
      ensures |hw| >= |old(hw)| && hw[..|old(hw)|] == old(hw) && old(thisp) <= thisp
      ensures r.Ok? ==> AddedPulses(hw[|old(hw)|..]) == Entries(merged, old(thisp), thisp)
      ensures done ==> r.Ok? && !moreData && pending == []
      ensures done && old(moreData) ==> thisp == |merged| && AddedPulses(hw[|old(hw)|..]) == Entries(merged, old(thisp), |merged|)
    {
      var c := 0;
      r, done := Ok(()), false;
      while moreData && c < |currents|
        invariant Valid() && c <= |currents| && r.Ok?
        invariant |hw| >= |old(hw)| && hw[..|old(hw)|] == old(hw) && old(thisp) <= thisp
        invariant AddedPulses(hw[|old(hw)|..]) == Entries(merged, old(thisp), thisp)
        invariant old(moreData) && !moreData ==> thisp == |merged|
        invariant !old(moreData) ==> !moreData
        decreases |currents| - c, if moreData then 1 else 0
      {
        ghost var hw0, thisp0 := hw, thisp;
        r := FillWaves(waveIds);
        if r.Err? {
          return;
        }
        AddedChain(old(hw), hw0, hw);
        EntriesSplit(merged, old(thisp), thisp0, thisp);
        if |pending| > 0 {
          ghost var hw1, pending1 := hw, pending;
          Retire(currents[c]);
          DeletesSendNothing(old(hw), hw1, hw, pending1[..RetireCount(pending1, currents[c])]);
          c := c + 1;
        }
      }
      if moreData {
        return;
      }
      while |pending| > 0 && c < |currents|
        invariant Valid() && c <= |currents| && r.Ok? && !moreData
        invariant |hw| >= |old(hw)| && hw[..|old(hw)|] == old(hw) && old(thisp) <= thisp
        invariant AddedPulses(hw[|old(hw)|..]) == Entries(merged, old(thisp), thisp)
        invariant old(moreData) ==> thisp == |merged|
        decreases |currents| - c
      {
        ghost var hw1, pending1 := hw, pending;
        r := DrainStep(currents[c]);
        c := c + 1;
        if r.Err? {
          return;
        }
        DeletesSendNothing(old(hw), hw1, hw, if hw == hw1 then [] else [pending1[0]]);
      }
      done := |pending| == 0;
    }
  }

  /** A pigpio call log that only gained wave deletions sent no further pulses. */
  lemma {:induction false} DeletesSendNothing(h0: seq<WaveOp>, h1: seq<WaveOp>, h2: seq<WaveOp>, ids: seq<int>)
    requires |h0| <= |h1| && h1[..|h0|] == h0
    requires h2 == h1 + Deletes(ids)
    ensures |h0| <= |h2| && h2[..|h0|] == h0 && AddedPulses(h2[|h0|..]) == AddedPulses(h1[|h0|..])
  {
    assert h2[|h0|..] == h1[|h0|..] + Deletes(ids);
    AddedPulsesAppend(h1[|h0|..], Deletes(ids));
    DeletesAddNoPulses(ids);
  }

  /** Wave deletions carry no pulses. */
  lemma {:induction false} DeletesAddNoPulses(ids: seq<int>)
    ensures AddedPulses(Deletes(ids)) == []
  {
    if |ids| > 0 {
      DeletesAddNoPulses(ids[1..]);
      assert Deletes(ids) == [DeleteWave(ids[0])] + Deletes(ids[1..]);
      AddedPulsesAppend([DeleteWave(ids[0])], Deletes(ids[1..]));
      assert [DeleteWave(ids[0])][..0] == [];
    }
  }

  /**
    * The popping loop of retirement: the front waves before the one now
    * transmitting leave `pendingbufs`, `buffends` and `sentbuffs` together,
    * their buffers join the saved list, and the end positions of the last
    * one popped are kept for publishing.
    */
  method PopRetired(pending: seq<int>, buffEnds: seq<map<string, Pulse>>, sent: seq<seq<WavePulse>>,
                    saved: seq<seq<WavePulse>>, current: int)
    returns (pend: seq<int>, ends: seq<map<string, Pulse>>, snt: seq<seq<WavePulse>>, svd: seq<seq<WavePulse>>,
             deleted: seq<int>, endposns: Option<map<string, Pulse>>)
    requires |pending| == |buffEnds| <= |sent|
    ensures var rc := RetireCount(pending, current);
      rc <= |pending|
      && pend == pending[rc..] && ends == buffEnds[rc..] && snt == sent[rc..]
      && svd == saved + sent[..rc] && deleted == pending[..rc]
      && endposns == if rc == 0 then None else Some(buffEnds[rc - 1])
  {
    RetireCountMeaning(pending, current);
    ghost var rc := RetireCount(pending, current);
    pend, ends, snt, svd, deleted, endposns := pending, buffEnds, sent, saved, [], None;
    var i := 0;
    while |pend| > 0 && current != pend[0]
      invariant i <= rc
      invariant pend == pending[i..] && ends == buffEnds[i..] && snt == sent[i..]
      invariant svd == saved + sent[..i] && deleted == pending[..i]
      invariant endposns == if i == 0 then None else Some(buffEnds[i - 1])
      decreases |pend|
    {
      var donebuf := pend[0];
      pend := pend[1..];
      deleted := deleted + [donebuf];
      endposns := Some(ends[0]);
      ends := ends[1..];
      svd := svd + [snt[0]];
      snt := snt[1..];
      assert pending[..i + 1] == pending[..i] + [donebuf];
      assert sent[..i + 1] == sent[..i] + [sent[i]];
      i := i + 1;
    }
    if |pend| > 0 {
      assert pend[0] == pending[i];
    }
  }

  /** The first `n` slots of a filled buffer are the entries of the `n` merged pulses from `k`. */
  lemma {:induction false} SentEntries(ps: seq<Pulse>, k: nat, buff: seq<WavePulse>, n: nat)
    requires k + n <= |ps| && n <= |buff|
    requires forall i :: 0 <= i < n ==> buff[i] == Entry(ps, k + i)
    ensures buff[..n] == Entries(ps, k, k + n)
  {
    EntriesIndex(ps, k, k + n);
  }

  /** Sending a wave, or not sending one, extends the added pulses by the wave's pulses. */
  lemma {:induction false} NewOps(h0: seq<WaveOp>, h1: seq<WaveOp>, h2: seq<WaveOp>, ws: seq<WavePulse>, pct: int, id: int)
    requires |h0| <= |h1|
    requires h2 == h1 + [AddGeneric(ws), CreateAndPad(pct), SendOneShotSync(id)] || (|ws| == 0 && h2 == h1)
    ensures |h0| <= |h2| && AddedPulses(h2[|h0|..]) == AddedPulses(h1[|h0|..]) + ws
  {
    if h2 == h1 {
      assert ws == [];
    } else {
      var sent := [AddGeneric(ws), CreateAndPad(pct), SendOneShotSync(id)];
      assert h2[|h0|..] == h1[|h0|..] + sent;
      AddedPulsesAppend(h1[|h0|..], sent);
      assert sent[..2][..1] == [AddGeneric(ws)] && sent[..2] == sent[..|sent| - 1];
      assert AddedPulses([AddGeneric(ws)]) == ws by {
        assert [AddGeneric(ws)][..0] == [];
      }
      assert AddedPulses(sent[..2]) == ws;
      assert AddedPulses(sent) == ws;
    }
  }

  lemma {:induction false} AddedChain(h0: seq<WaveOp>, h1: seq<WaveOp>, h2: seq<WaveOp>)
    requires |h0| <= |h1| <= |h2| && h2[..|h1|] == h1
    ensures AddedPulses(h2[|h0|..]) == AddedPulses(h1[|h0|..]) + AddedPulses(h2[|h1|..])
  {
    assert h2[|h0|..] == h1[|h0|..] + h2[|h1|..];
    AddedPulsesAppend(h1[|h0|..], h2[|h1|..]);
  }

  lemma {:induction false} DeletesAppend(a: seq<int>, b: seq<int>)
    ensures Deletes(a + b) == Deletes(a) + Deletes(b)
  {
    if |a| > 0 {
      assert (a + b)[1..] == a[1..] + b;
      DeletesAppend(a[1..], b);
    } else {
      assert a + b == b;
    }
  }
}
