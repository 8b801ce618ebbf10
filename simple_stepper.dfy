/**
  * The single-file stepper controller (simplestepper.py): the check its
  * A4988 generator makes on the direction pin before it starts, the
  * generator itself (the earlier module's, behind that check), and the
  * fast-stepping thread that cuts the merged pulse stream into pigpio waves
  * of at most `wavepulses` entries, keeps at most three of them queued, and
  * publishes each motor's position when a wave is retired.
  */
module SimpleStepper {
  import opened Pulses
  import opened GpioPins
  import opened StepperGroup
  import opened OldSteppers

  /**
    * The direction check of `stepper.pulsegen`: the masks `getBits` gives
    * for 'F' and 'R' must equal those computed from where 'F' stands in the
    * pin's `vlist`. `1 << pinno` raises ValueError for an unassigned pin,
    * and so does `vlist.index('F')` when 'F' is not a value of the pin; a
    * mismatch fails the assertion. On success the result is `setdir`.
    */
  function DirCheck(pinno: int, vlist: seq<PinValue>): (r: Result<((Mask, Mask), (Mask, Mask))>)
    requires |vlist| == 2
    ensures r.Ok? ==>
      pinno >= 0
      && r.value.0 == BitsFor(pinno, vlist[0], Named("F")).value
      && r.value.1 == BitsFor(pinno, vlist[0], Named("R")).value
  {
    if pinno < 0 then Err(ValueError("negative shift count"))
    else if Named("F") !in vlist then Err(ValueError("'F' is not in list"))
    else
      var setF := BitsFor(pinno, vlist[0], Named("F")).value;
      var setR := BitsFor(pinno, vlist[0], Named("R")).value;
      var bit := PinBit(pinno);
      var fAtOne := vlist[0] != Named("F");
      var xF := if fAtOne then (bit, {}) else ({}, bit);
      var xR := if fAtOne then ({}, bit) else (bit, {});
      if xF != setF || xR != setR then Err(AssertionError)
      else Ok((setF, setR))
  }

  /**
    * The check passes exactly for an assigned pin whose first value is 'F',
    * or whose values are 'R' then 'F'; the two directions then drive the
    * pin to opposite levels.
    */
  lemma {:induction false} DirCheckPasses(pinno: int, vlist: seq<PinValue>)
    requires |vlist| == 2
    ensures DirCheck(pinno, vlist).Ok? <==>
      pinno >= 0 && (vlist[0] == Named("F") || (vlist[0] == Named("R") && vlist[1] == Named("F")))
    ensures DirCheck(pinno, vlist).Ok? ==>
      var d := DirCheck(pinno, vlist).value;
      d.0.0 == d.1.1 && d.0.1 == d.1.0 && d.0.0 + d.0.1 == PinBit(pinno) && (d.0.0 == {} || d.0.1 == {})
    ensures pinno >= 0 && vlist[0] != Named("F") && vlist[0] != Named("R") ==> DirCheck(pinno, vlist).Err?
  {
    if pinno >= 0 && Named("F") in vlist {
      assert vlist[0] != Named("F") ==> vlist[1] == Named("F");
      var bit := PinBit(pinno);
      assert bit != {};
    }
  }

  /**
    * `stepper.pulsegen`: the opmode lookup (KeyError for a command other
    * than goto or run), the direction check, the step pin's masks (`1 <<
    * pinno` raises ValueError for an unassigned step pin), then the A4988
    * generator of the earlier module on the tick tuples.
    */
  method SimplePulseGen(name: string, command: string, dirPin: int, dirValues: seq<PinValue>,
                        stepPin: int, stepFirstLevel: int, pulseLen: int, enable: (Mask, Mask), ts: seq<TickTuple>)
    returns (out: seq<Pulse>, err: Option<PyError>)
    requires |dirValues| == 2 && TuplesOk(ts)
    ensures !MovingCommand(command) ==> out == [] && err == Some(KeyError)
    ensures MovingCommand(command) && DirCheck(dirPin, dirValues).Err? ==>
      out == [] && err == Some(DirCheck(dirPin, dirValues).error)
    ensures MovingCommand(command) && DirCheck(dirPin, dirValues).Ok? && stepPin < 0 ==>
      out == [] && err.Some? && err.value.ValueError?
    ensures MovingCommand(command) && DirCheck(dirPin, dirValues).Ok? && stepPin >= 0 ==>
      var d := DirCheck(dirPin, dirValues).value;
      var sm := StepMasks(stepPin, stepFirstLevel);
      var g := AFrom(OldWiring(name, sm.0, sm.1, pulseLen, d.0, d.1, enable), Expand(ts));
      out == g.out && err == g.failed
  {
    if !MovingCommand(command) {
      return [], Some(KeyError);
    }
    var d := DirCheck(dirPin, dirValues);
    if d.Err? {
      return [], Some(d.error);
    }
    if stepPin < 0 {
      return [], Some(ValueError("negative shift count"));
    }
    var sm := StepMasks(stepPin, stepFirstLevel);
    out, err := APulseGen(OldWiring(name, sm.0, sm.1, pulseLen, d.value.0, d.value.1, enable), ts);
  }

  /** The entries of consecutive waves, joined in order. */
  function Flatten(bs: seq<seq<WavePulse>>): seq<WavePulse>
  {
    if bs == [] then [] else Flatten(bs[..|bs| - 1]) + bs[|bs| - 1]
  }

  lemma {:induction false} FlattenLast(bs: seq<seq<WavePulse>>, b: seq<WavePulse>)
    ensures Flatten(bs + [b]) == Flatten(bs) + b
  {
    assert (bs + [b])[..|bs|] == bs;
  }

  /**
    * One buffer of `_threadfaststep`, with `thisp` at merged pulse `k`:
    * each entry carries `thisp`'s bits and the time to the next merged
    * pulse, the end of the stream writes delay 1 and clears `moredata`;
    * the buffer closes at `wavepulses` entries. `mposns` records the
    * pulses taken as `nextp`, so a buffer's first pulse is recorded by the
    * buffer before it, and the stream's first pulse by none.
    */
  method FillOne(ps: seq<Pulse>, k: nat, wavePulses: nat) returns (buff: seq<WavePulse>, k': nat, more: bool, ends: map<string, Pulse>)
    requires 0 < wavePulses && k < |ps|
    ensures k' == k + |buff| && 0 < |buff| <= wavePulses && k' <= |ps|
    ensures buff == Entries(ps, k, k')
    ensures more <==> k' < |ps|
    ensures more ==> |buff| == wavePulses
    ensures ends == Record(ps, k + 1, if more then k' + 1 else k')
  {
    buff, k', more, ends := [], k, true, map[];
    while |buff| < wavePulses
      invariant k' == k + |buff| < |ps| && |buff| <= wavePulses
      invariant buff == Entries(ps, k, k')
      invariant ends == Record(ps, k + 1, k' + 1)
      decreases wavePulses - |buff|
    {
      if k' + 1 == |ps| {
        buff := buff + [WavePulse(ps[k'].on, ps[k'].off, 1)];
        return buff, k' + 1, false, ends;
      }
      buff := buff + [WavePulse(ps[k'].on, ps[k'].off, ps[k' + 1].time - ps[k'].time)];
      k' := k' + 1;
      ends := ends[ps[k'].motor := ps[k']];
    }
  }

  /**
    * The delays of the buffers from `k` on add up to the time from `thisp`
    * to the pulse after the buffer, plus 1 µs at the end of the stream.
    */
  function Duration(es: seq<WavePulse>): int
  {
    if es == [] then 0 else Duration(es[..|es| - 1]) + es[|es| - 1].delay
  }

  lemma {:induction false} EntriesDuration(ps: seq<Pulse>, a: nat, b: nat)
    requires a < b <= |ps|
    ensures Duration(Entries(ps, a, b)) == if b < |ps| then ps[b].time - ps[a].time else ps[b - 1].time - ps[a].time + 1
    decreases b - a
  {
    var es := Entries(ps, a, b);
    assert es[..|es| - 1] == Entries(ps, a, b - 1);
    if a < b - 1 {
      EntriesDuration(ps, a, b - 1);
    }
  }

  /** Publishing two consecutive ranges' end positions is publishing their union's. */
  lemma {:induction false} RecordSplit(ps: seq<Pulse>, a: nat, b: nat, c: nat)
    requires a <= b <= c <= |ps|
    ensures Record(ps, a, c) == Record(ps, a, b) + Record(ps, b, c)
    decreases c - b
  {
    if b < c {
      RecordSplit(ps, a, b, c - 1);
    }
  }

  lemma {:induction false} PublishTwice(raw: map<string, int>, ps: seq<Pulse>, a: nat, b: nat, c: nat)
    requires a <= b <= c <= |ps|
    ensures PublishPositions(PublishPositions(raw, Record(ps, a, b)), Record(ps, b, c)) == PublishPositions(raw, Record(ps, a, c))
  {
    RecordSplit(ps, a, b, c);
  }

  /**
    * The poll of `_threadfaststep` against the wave now transmitting:
    * `9999` (none) or a later queued wave retires the oldest one; the oldest
    * itself retires nothing; a wave that is not queued raises ValueError in
    * `pendingbufs.index`.
    */
  function PollRetires(pending: seq<int>, current: int): (r: Result<bool>)
    requires |pending| > 0
    ensures r.Err? <==> current != 9999 && current !in pending
    ensures r == Ok(false) <==> current != 9999 && current == pending[0]
  {
    if current == 9999 then Ok(true)
    else if current !in pending then Err(ValueError("not in list"))
    else Ok(current != pending[0])
  }

  /** The fast-stepping thread's state: `thisp`'s index, `moredata`, the waves sent, the queued wave ids with their `buffends`, and the published positions. */
  datatype Window = Window(k: nat, more: bool, sent: seq<seq<WavePulse>>, pending: seq<int>, ends: seq<map<string, Pulse>>, posns: map<string, int>)

  function Retired(w: Window): int
  {
    |w.sent| - |w.pending|
  }

  /**
    * What the thread keeps true: the waves sent are the merged stream's
    * entries up to `thisp`, each of 1 to `wavepulses` entries; at most three
    * are queued, the newest ones, in order; `marks` cut the stream into the
    * ranges each wave's `buffends` records; and the published positions are
    * those recorded by the retired waves.
    */
  ghost predicate WindowOk(ps: seq<Pulse>, wavePulses: nat, raw: map<string, int>, w: Window, marks: seq<nat>)
  {
    SentOk(ps, wavePulses, w) && QueueOk(w) && MarksOk(ps, w, marks) && EndsOk(ps, raw, w, marks)
  }

  ghost predicate SentOk(ps: seq<Pulse>, wavePulses: nat, w: Window)
  {
    0 < wavePulses && 0 < |ps| && w.k <= |ps| && (w.more <==> w.k < |ps|)
    && Flatten(w.sent) == Entries(ps, 0, w.k)
    && (forall i :: 0 <= i < |w.sent| ==> 0 < |w.sent[i]| <= wavePulses)
  }

  ghost predicate QueueOk(w: Window)
  {
    |w.pending| == |w.ends| <= 3 && |w.pending| <= |w.sent|
    && (forall j :: 0 <= j < |w.pending| ==> w.pending[j] == Retired(w) + j)
  }

  ghost predicate MarksOk(ps: seq<Pulse>, w: Window, marks: seq<nat>)
  {
    |marks| == |w.sent| + 1 && marks[0] == 1
    && (forall i :: 0 <= i <= |w.sent| ==> 1 <= marks[i] <= |ps|)
    && (forall i :: 0 <= i < |w.sent| ==> marks[i] <= marks[i + 1])
    && marks[|w.sent|] == (if w.more then w.k + 1 else |ps|)
  }

  ghost predicate EndsOk(ps: seq<Pulse>, raw: map<string, int>, w: Window, marks: seq<nat>)
    requires QueueOk(w) && MarksOk(ps, w, marks)
  {
    (forall j :: 0 <= j < |w.pending| ==> w.ends[j] == Record(ps, marks[Retired(w) + j], marks[Retired(w) + j + 1]))
    && w.posns == PublishPositions(raw, Record(ps, 1, marks[Retired(w)]))
  }

  /** The thread's start: `thisp` is the first merged pulse and nothing is sent. */
  lemma {:induction false} WindowStart(ps: seq<Pulse>, wavePulses: nat, raw: map<string, int>)
    requires 0 < wavePulses && 0 < |ps|
    ensures WindowOk(ps, wavePulses, raw, Window(0, true, [], [], [], raw), [1])
  {
    var m := PublishPositions(raw, Record(ps, 1, 1));
    assert m == raw;
  }

  /** The window after queueing the buffer of merged pulses `w.k` up to `k'` with its `buffends`. */
  function Sent(w: Window, buff: seq<WavePulse>, k': nat, more: bool, ends: map<string, Pulse>): Window
  {
    Window(k', more, w.sent + [buff], w.pending + [|w.sent|], w.ends + [ends], w.posns)
  }

  /** What `FillOne` promises about a buffer taken from `thisp` at `k`. */
  predicate Filled(ps: seq<Pulse>, wavePulses: nat, k: nat, buff: seq<WavePulse>, k': nat, more: bool, ends: map<string, Pulse>)
  {
    k' == k + |buff| && 0 < |buff| <= wavePulses && k' <= |ps| && k < |ps|
    && buff == Entries(ps, k, k') && (more <==> k' < |ps|)
    && ends == Record(ps, k + 1, if more then k' + 1 else k')
  }

  lemma {:induction false} SentKeeps(ps: seq<Pulse>, wavePulses: nat, w: Window, buff: seq<WavePulse>, k': nat, more: bool, ends: map<string, Pulse>)
    requires SentOk(ps, wavePulses, w) && QueueOk(w) && w.more && |w.pending| < 3
    requires Filled(ps, wavePulses, w.k, buff, k', more, ends)
    ensures SentOk(ps, wavePulses, Sent(w, buff, k', more, ends)) && QueueOk(Sent(w, buff, k', more, ends))
  {
    EntriesSplit(ps, 0, w.k, k');
    FlattenLast(w.sent, buff);
  }

  lemma {:induction false} MarksKeep(ps: seq<Pulse>, wavePulses: nat, raw: map<string, int>, w: Window, marks: seq<nat>,
                  buff: seq<WavePulse>, k': nat, more: bool, ends: map<string, Pulse>)
    requires WindowOk(ps, wavePulses, raw, w, marks) && w.more && |w.pending| < 3
    requires Filled(ps, wavePulses, w.k, buff, k', more, ends)
    ensures var w' := Sent(w, buff, k', more, ends);
      var marks' := marks + [if more then k' + 1 else |ps|];
      MarksOk(ps, w', marks') && (forall i :: 0 <= i <= |w.sent| ==> marks'[i] == marks[i])
  {
  }

  lemma {:induction false} EndsKeep(ps: seq<Pulse>, wavePulses: nat, raw: map<string, int>, w: Window, marks: seq<nat>,
                 buff: seq<WavePulse>, k': nat, more: bool, ends: map<string, Pulse>)
    requires WindowOk(ps, wavePulses, raw, w, marks) && w.more && |w.pending| < 3
    requires Filled(ps, wavePulses, w.k, buff, k', more, ends)
    ensures var w' := Sent(w, buff, k', more, ends);
      var marks' := marks + [if more then k' + 1 else |ps|];
      WindowOk(ps, wavePulses, raw, w', marks')
  {
    SentKeeps(ps, wavePulses, w, buff, k', more, ends);
    MarksKeep(ps, wavePulses, raw, w, marks, buff, k', more, ends);
    var w' := Sent(w, buff, k', more, ends);
    EndsNext(ps, raw, w, marks, w', marks + [if more then k' + 1 else |ps|]);
  }

  /** Queuing one more wave, whose `buffends` records the range the new mark closes, keeps every queued wave's record right. */
  lemma {:induction false} EndsNext(ps: seq<Pulse>, raw: map<string, int>, w: Window, marks: seq<nat>, w': Window, marks': seq<nat>)
    requires QueueOk(w) && MarksOk(ps, w, marks) && EndsOk(ps, raw, w, marks) && w.more
    requires QueueOk(w') && MarksOk(ps, w', marks')
    requires |w'.sent| == |w.sent| + 1 && |w'.pending| == |w.pending| + 1 && w'.posns == w.posns
    requires forall i :: 0 <= i < |marks| ==> marks'[i] == marks[i]
    requires forall j :: 0 <= j < |w.pending| ==> w'.ends[j] == w.ends[j]
    requires w'.ends[|w.pending|] == Record(ps, marks'[|w.sent|], marks'[|w.sent| + 1])
    ensures EndsOk(ps, raw, w', marks')
  {
    var r := Retired(w);
    assert marks'[r] == marks[r];
    forall j | 0 <= j < |w'.pending|
      ensures w'.ends[j] == Record(ps, marks'[Retired(w') + j], marks'[Retired(w') + j + 1])
    {
      EndsNextAt(ps, raw, w, marks, w', marks', j);
    }
  }

  lemma {:induction false} EndsNextAt(ps: seq<Pulse>, raw: map<string, int>, w: Window, marks: seq<nat>, w': Window, marks': seq<nat>, j: nat)
    requires QueueOk(w) && MarksOk(ps, w, marks) && EndsOk(ps, raw, w, marks)
    requires QueueOk(w') && MarksOk(ps, w', marks')
    requires |w'.sent| == |w.sent| + 1 && |w'.pending| == |w.pending| + 1
    requires forall i :: 0 <= i < |marks| ==> marks'[i] == marks[i]
    requires forall j :: 0 <= j < |w.pending| ==> w'.ends[j] == w.ends[j]
    requires w'.ends[|w.pending|] == Record(ps, marks'[|w.sent|], marks'[|w.sent| + 1])
    requires j < |w'.pending|
    ensures w'.ends[j] == Record(ps, marks'[Retired(w') + j], marks'[Retired(w') + j + 1])
  {
    var r := Retired(w);
    if j < |w.pending| {
      assert w.ends[j] == Record(ps, marks[r + j], marks[r + j + 1]);
      assert marks'[r + j] == marks[r + j] && marks'[r + j + 1] == marks[r + j + 1];
    }
  }

  /** One round of the inner loop: fill a buffer from `thisp` and queue it as the next wave with its `buffends`. */
  method SendOne(ps: seq<Pulse>, wavePulses: nat, ghost raw: map<string, int>, w: Window, ghost marks: seq<nat>)
    returns (w': Window, ghost marks': seq<nat>)
    requires WindowOk(ps, wavePulses, raw, w, marks) && w.more && |w.pending| < 3
    ensures WindowOk(ps, wavePulses, raw, w', marks')
    ensures Retired(w') == Retired(w) && w'.posns == w.posns && w.k < w'.k
    ensures |w'.pending| == |w.pending| + 1
  {
    var buff, k', more, ends := FillOne(ps, w.k, wavePulses);
    EndsKeep(ps, wavePulses, raw, w, marks, buff, k', more, ends);
    marks' := marks + [if more then k' + 1 else |ps|];
    w' := Window(k', more, w.sent + [buff], w.pending + [|w.sent|], w.ends + [ends], w.posns);
  }

  /**
    * The inner loop of `_threadfaststep`: while fewer than three waves are
    * queued and there is more data, fill a buffer and send it as the next
    * wave, recording its `buffends`.
    */
  method FillWindow(ps: seq<Pulse>, wavePulses: nat, ghost raw: map<string, int>, w: Window, ghost marks: seq<nat>)
    returns (w': Window, ghost marks': seq<nat>)
    requires WindowOk(ps, wavePulses, raw, w, marks)
    ensures WindowOk(ps, wavePulses, raw, w', marks')
    ensures w'.more ==> |w'.pending| == 3
    ensures w.more ==> |w'.pending| > 0
    ensures Retired(w') == Retired(w) && w'.posns == w.posns
  {
    w', marks' := w, marks;
    while |w'.pending| < 3 && w'.more
      invariant WindowOk(ps, wavePulses, raw, w', marks')
      invariant Retired(w') == Retired(w) && w'.posns == w.posns
      invariant w.more ==> |w'.pending| > 0 || w'.more
      decreases |ps| - w'.k
    {
      w', marks' := SendOne(ps, wavePulses, raw, w', marks');
    }
  }

  /**
    * One poll: retire the oldest queued wave when the hardware has moved
    * past it, publishing the positions its `buffends` recorded.
    */
  method PollWindow(ps: seq<Pulse>, wavePulses: nat, ghost raw: map<string, int>, w: Window, ghost marks: seq<nat>, current: int)
    returns (w': Window, err: Option<PyError>)
    requires WindowOk(ps, wavePulses, raw, w, marks) && |w.pending| > 0
    ensures WindowOk(ps, wavePulses, raw, w', marks)
    ensures err == (if PollRetires(w.pending, current).Err? then Some(PollRetires(w.pending, current).error) else None)
    ensures PollRetires(w.pending, current) == Ok(true) ==>
      w' == w.(pending := w.pending[1..], ends := w.ends[1..], posns := PublishPositions(w.posns, w.ends[0]))
    ensures PollRetires(w.pending, current) != Ok(true) ==> w' == w
  {
    var r := PollRetires(w.pending, current);
    w' := w;
    err := None;
    if r.Err? {
      err := Some(r.error);
    } else if r.value {
      w' := w.(pending := w.pending[1..], ends := w.ends[1..], posns := PublishPositions(w.posns, w.ends[0]));
      PopKeeps(ps, wavePulses, raw, w, marks, w');
    }
  }

  /** Retiring the oldest queued wave and publishing its `buffends` keeps the thread's invariant. */
  lemma {:induction false} PopKeeps(ps: seq<Pulse>, wavePulses: nat, raw: map<string, int>, w: Window, marks: seq<nat>, w': Window)
    requires WindowOk(ps, wavePulses, raw, w, marks) && |w.pending| > 0
    requires w'.k == w.k && w'.more == w.more && w'.sent == w.sent
    requires w'.pending == w.pending[1..] && w'.ends == w.ends[1..] && w'.posns == PublishPositions(w.posns, w.ends[0])
    ensures WindowOk(ps, wavePulses, raw, w', marks)
  {
    var r0 := Retired(w);
    PublishTwice(raw, ps, 1, marks[r0], marks[r0 + 1]);
    assert Retired(w') == r0 + 1;
    assert QueueOk(w');
    assert EndsOk(ps, raw, w', marks);
  }

  /**
    * The main loop of `_threadfaststep`: while there is more data, top the
    * queue up to three waves and poll once. It stops early when the answers
    * of `wave_tx_at` run out or a poll fails.
    */
  method SendAll(ps: seq<Pulse>, wavePulses: nat, currents: seq<int>, ghost raw: map<string, int>, w0: Window, ghost marks0: seq<nat>)
    returns (w: Window, ghost marks: seq<nat>, c: nat, stop: bool, err: Option<PyError>)
    requires WindowOk(ps, wavePulses, raw, w0, marks0)
    ensures WindowOk(ps, wavePulses, raw, w, marks) && c <= |currents|
    ensures !stop ==> err.None? && !w.more
  {
    w, marks, c, stop, err := w0, marks0, 0, false, None;
    while w.more && !stop
      invariant WindowOk(ps, wavePulses, raw, w, marks) && c <= |currents|
      invariant !stop ==> err.None?
      decreases |currents| - c, if stop then 0 else 1
    {
      w, marks := FillWindow(ps, wavePulses, raw, w, marks);
      if c == |currents| {
        stop := true;
      } else {
        w, err := PollWindow(ps, wavePulses, raw, w, marks, currents[c]);
        c := c + 1;
        stop := err.Some?;
      }
    }
  }

  /**
    * `_threadfaststep` on the merged stream `ps`, with `currents` the
    * successive answers of `wave_tx_at`: it fills and sends waves, keeping
    * at most three queued, polls once per round, then drains the queue.
    * An empty stream fails on `thisp[0]` (TypeError); an unqueued current
    * wave raises ValueError; the run is cut short when the answers run out.
    * A finished run sent every merged pulse's entry exactly once, in order,
    * and published, for each motor, its last pulse's position after the
    * stream's first pulse.
    */
  method FastStep(ps: seq<Pulse>, wavePulses: nat, currents: seq<int>, raw: map<string, int>)
    returns (sent: seq<seq<WavePulse>>, posns: map<string, int>, finished: bool, err: Option<PyError>)
    requires 0 < wavePulses
    ensures ps == [] ==> sent == [] && posns == raw && !finished && err == Some(TypeError)
    ensures forall i :: 0 <= i < |sent| ==> 0 < |sent[i]| <= wavePulses
    ensures ps != [] ==> exists k :: 0 <= k <= |ps| && Flatten(sent) == Entries(ps, 0, k)
    ensures finished ==>
      err.None? && Flatten(sent) == Entries(ps, 0, |ps|)
      && posns == PublishPositions(raw, Record(ps, 1, |ps|))
  {
    if ps == [] {
      return [], raw, false, Some(TypeError);
    }
    WindowStart(ps, wavePulses, raw);
    var w := Window(0, true, [], [], [], raw);
    ghost var marks: seq<nat> := [1];
    var c, stop;
    w, marks, c, stop, err := SendAll(ps, wavePulses, currents, raw, w, marks);
    while |w.pending| > 0 && !stop
      invariant WindowOk(ps, wavePulses, raw, w, marks) && c <= |currents|
      invariant !stop ==> err.None? && !w.more
      decreases |currents| - c, if stop then 0 else 1
    {
      if c == |currents| {
        stop := true;
      } else {
        w, err := PollWindow(ps, wavePulses, raw, w, marks, currents[c]);
        c := c + 1;
        stop := err.Some?;
      }
    }
    sent, posns, finished := w.sent, w.posns, !stop;
    assert Flatten(sent) == Entries(ps, 0, w.k);
  }
}
