/**
  * The test bed for wave-driven stepping (stepwavetest.py): the agent's
  * timer queue, a `motor` with its microstep pins and its `pulser` step
  * train, the `onewave` agent's merge of several trains (`multiPulse`), the
  * scaling `wavepulsemaker` applies to each motor's parameters, and the
  * agent's stop requests.
  *
  * The ramp arithmetic of `pulser` is the same oracle (`RampPlan`) as in
  * the wave-driven motor agent; only its step counter starts at 0 here.
  */
module WaveTest {
  import opened Pulses
  import opened StepperDriver

  /** Due times in strictly increasing order: the earliest is first, none twice. */
  predicate StrictlySorted(s: seq<real>)
  {
    forall i, j :: 0 <= i < j < |s| ==> s[i] < s[j]
  }

  /**
    * `heapq.heappush(timervals, due)`: the due time joins the queue and the
    * earliest stays first. (The heap is kept here as the sorted sequence of
    * the same due times; `timervals[0]` is the earliest in both.)
    */
  method PushDue(s: seq<real>, x: real) returns (r: seq<real>)
    requires StrictlySorted(s) && x !in s
    ensures StrictlySorted(r) && |r| == |s| + 1
    ensures forall y :: y in r <==> y in s || y == x
  {
    var i := 0;
    while i < |s| && s[i] < x
      invariant 0 <= i <= |s|
      invariant forall k :: 0 <= k < i ==> s[k] < x
    {
      i := i + 1;
    }
    assert forall k :: i <= k < |s| ==> x < s[k] by {
      forall k | i <= k < |s|
        ensures x < s[k]
      {
        assert s[i] >= x && s[i] != x;
        assert i == k || s[i] < s[k];
      }
    }
    r := s[..i] + [x] + s[i..];
    InsertSorted(s, x, i);
  }

  /** Putting `x` between the due times before it and those after it keeps the queue sorted and adds only `x`. */
  lemma {:induction false} InsertSorted(s: seq<real>, x: real, i: nat)
    requires StrictlySorted(s) && i <= |s|
    requires forall k :: 0 <= k < i ==> s[k] < x
    requires forall k :: i <= k < |s| ==> x < s[k]
    ensures var r := s[..i] + [x] + s[i..];
      StrictlySorted(r) && |r| == |s| + 1 && forall y :: y in r <==> y in s || y == x
  {
    var r := s[..i] + [x] + s[i..];
    forall a, b | 0 <= a < b < |r|
      ensures r[a] < r[b]
    {
      if b < i {
        assert r[a] == s[a] && r[b] == s[b];
      } else if b == i {
        assert r[a] == s[a];
      } else if a < i {
        assert r[a] == s[a] && r[b] == s[b - 1];
      } else if a == i {
        assert r[b] == s[b - 1];
      } else {
        assert r[a] == s[a - 1] && r[b] == s[b - 1];
      }
    }
    assert s == s[..i] + s[i..];
  }

  /** The earliest due time is the first. */
  lemma {:induction false} FirstIsEarliest(s: seq<real>, y: real)
    requires StrictlySorted(s) && y in s
    ensures s[0] <= y
  {
  }

  lemma {:induction false} NoKeys(m: map<real, string>, s: seq<real>)
    requires s == [] && forall t :: t in s <==> t in m
    ensures m == map[]
  {
    assert forall t :: t !in m;
  }

  /** The timer part of `simpleAgent`: the queue of due times and the handler of each. */
  class SimpleAgent {
    var timerVals: seq<real>
    var timers: map<real, string>

    ghost predicate Valid()
      reads this
    {
      StrictlySorted(timerVals) && forall t :: t in timerVals <==> t in timers
    }

    constructor ()
      ensures Valid() && timerVals == [] && timers == map[]
    {
      timerVals := [];
      timers := map[];
    }

    /** The time the agent waits for: the earliest due time, if any timer is set. */
    function NextDue(): (d: Option<real>)
      requires Valid()
      reads this
      ensures d.None? <==> timers == map[]
      ensures d.Some? ==> d.value in timers && forall t :: t in timers ==> d.value <= t
    {
      if timerVals == [] then
        NoKeys(timers, timerVals);
        None
      else
        assert forall t :: t in timers ==> t in timerVals;
        assert timerVals[0] in timers;
        Some(timerVals[0])
    }

    /**
      * `setpollat`: a due time already set fails the assertion; otherwise
      * the handler is recorded and the time queued.
      */
    method SetPollAt(due: real, handler: string) returns (r: Result<()>)
      requires Valid()
      modifies this
      ensures Valid()
      ensures old(due in timers) ==> r == Err(AssertionError) && timers == old(timers) && timerVals == old(timerVals)
      ensures old(due !in timers) ==> r == Ok(()) && timers == old(timers)[due := handler]
    {
      if due in timers {
        return Err(AssertionError);
      }
      timers := timers[due := handler];
      timerVals := PushDue(timerVals, due);
      r := Ok(());
    }

    /**
      * `agentRun` when the wait for a message times out: the earliest due
      * time is popped and its handler taken out of `timers` to be run. With
      * no timer set the agent waits without a timeout, and nothing fires.
      */
    method TimerExpired() returns (fired: Option<(real, string)>)
      requires Valid()
      modifies this
      ensures Valid()
      ensures old(timers) == map[] ==> fired.None? && timers == old(timers) && timerVals == old(timerVals)
      ensures old(timers) != map[] ==>
        fired.Some? && fired.value.0 in old(timers) && fired.value.1 == old(timers)[fired.value.0]
        && (forall t :: t in old(timers) ==> fired.value.0 <= t)
        && timers == old(timers) - {fired.value.0}
    {
      if timerVals == [] {
        NoKeys(timers, timerVals);
        return None;
      }
      var due := timerVals[0];
      assert forall t :: t in timers ==> t in timerVals;
      var h := timers[due];
      assert forall t :: t in timerVals[1..] ==> t in timerVals && t != due;
      timerVals := timerVals[1..];
      timers := timers - {due};
      fired := Some((due, h));
    }
  }

  /**
    * `pulser`'s step train: its counter `tot_ticks` does not count the first
    * step, so with no abort it issues max(t+1, 2) steps.
    */
  lemma {:induction false} TestTrainUnaborted(t: int, plan: RampPlan, ab: nat -> Abort)
    requires NeverAborted(ab)
    ensures |TrainOf(t, plan, ab, 0).delays| == Max(t + 1, 2)
  {
    var up := RampUp(t, plan, ab, 0);
    RampUpEnds(t, plan, ab, 0);
    var r := up.1;
    assert ab(r) == NoAbort;
    CruiseUnaborted(plan, ab, r, t - 2 * r);
    var g := Cruise(plan, ab, r, t - 2 * r).1;
    assert ab(g) == NoAbort;
    RampDownRuns(plan, ab, g, t, 0);
  }

  /** For two or more steps asked, the test bed's `pulser` issues one step more than the motor agent's. */
  lemma {:induction false} OneStepMore(t: int, plan: RampPlan, ab: nat -> Abort)
    requires NeverAborted(ab) && t >= 2
    ensures |TrainOf(t, plan, ab, 0).delays| == |TrainOf(t, plan, ab, 1).delays| + 1
  {
    TestTrainUnaborted(t, plan, ab);
    TrainUnaborted(t, plan, ab);
  }

  /** The agent's `setpin`: the pin writes made, in order, by the agent and all its motors. */
  class PinLog {
    var writes: seq<PinOp>

    constructor ()
      ensures writes == []
    {
      writes := [];
    }
  }

  /** A stepwavetest `motor`: its pins, mode and abort request; its pin writes go to its parent's `setpin`. */
  class WaveMotor {
    const name: string
    const pins: DrivePins
    const hw: PinLog
    var mode: MotorMode
    var pulseAbort: Abort

    /** `__init__`: idle, with the drive disabled (enable pin 1). */
    constructor (name: string, pins: DrivePins, parent: PinLog)
      modifies parent
      ensures this.name == name && this.pins == pins && hw == parent
      ensures mode == IdleMode && pulseAbort == NoAbort && parent.writes == old(parent.writes) + [SetPin(pins.enable, 1)]
    {
      this.name := name;
      this.pins := pins;
      hw := parent;
      mode := IdleMode;
      pulseAbort := NoAbort;
      new;
      parent.writes := parent.writes + [SetPin(pins.enable, 1)];
    }

    /** `_enabledrive`: the enable pin is active low. */
    method EnableDrive(enable: bool)
      modifies hw
      ensures hw.writes == old(hw.writes) + [SetPin(pins.enable, if enable then 0 else 1)]
    {
      hw.writes := hw.writes + [SetPin(pins.enable, if enable then 0 else 1)];
    }

    /** `_setdir`: 0 for forward, 1 for reverse. */
    method SetDir(forward: bool)
      modifies hw
      ensures hw.writes == old(hw.writes) + [SetPin(pins.direction, if forward then 0 else 1)]
    {
      hw.writes := hw.writes + [SetPin(pins.direction, if forward then 0 else 1)];
    }

    /**
      * `_set_ms_mode`: only a key of `microstepset` is accepted, and its
      * level values go to the step-level pins. For any other value the
      * failure message's "%d ... %d" formatting with a single value raises
      * TypeError before False could be returned; too few level pins raise
      * IndexError after the writes that fit.
      */
    method SetMsMode(microsteps: int) returns (r: Result<()>)
      modifies hw
      ensures microsteps !in MicrostepSet ==> r == Err(TypeError) && hw.writes == old(hw.writes)
      ensures microsteps in MicrostepSet ==>
        hw.writes == old(hw.writes) + LevelOps(pins.levels, MicrostepSet[microsteps])
        && (r == if |pins.levels| >= 3 then Ok(()) else Err(IndexError))
    {
      if microsteps !in MicrostepSet {
        return Err(TypeError);
      }
      var ops, ok := LevelWrites(pins.levels, MicrostepSet[microsteps]);
      hw.writes := hw.writes + ops;
      r := if ok then Ok(()) else Err(IndexError);
    }

    /** `_enabledrive(True)`, `_setdir(forward)` and `_set_ms_mode(warp)` for one entry of `wavepulsemaker`. */
    method Ready(s: Scaled) returns (e: Result<()>)
      modifies hw
      ensures hw.writes == old(hw.writes) + Prepare(pins, s).0 && e == Prepare(pins, s).1
    {
      ghost var before := hw.writes;
      ghost var first := [SetPin(pins.enable, 0), SetPin(pins.direction, if s.forward then 0 else 1)];
      EnableDrive(true);
      SetDir(s.forward);
      assert hw.writes == before + first;
      e := SetMsMode(s.warp);
      if s.warp in MicrostepSet {
        ghost var levels := LevelOps(pins.levels, MicrostepSet[s.warp]);
        assert (before + first) + levels == before + (first + levels);
      }
    }

    /**
      * `pulser`, run to its end with the aborts `ab` seen as the steps go
      * out. Refused in fastwave (an empty stream). The mode is never set to
      * fastwave (the assignment is written as a comparison), and every way
      * out of the train sets it idle.
      */
    method Pulser(t: int, plan: RampPlan, ab: nat -> Abort, onTime: int) returns (out: seq<WaveStep>)
      modifies this`mode, this`pulseAbort
      ensures old(mode) == FastWave ==> out == [] && mode == FastWave && pulseAbort == old(pulseAbort)
      ensures old(mode) != FastWave ==>
        var tr := TrainOf(t, plan, ab, 0);
        out == Pairs(tr.delays, PinBit(pins.step), onTime) && mode == IdleMode
        && pulseAbort == ab(|tr.delays| - 1)
    {
      if mode == FastWave {
        return [];
      }
      var ticks, idle;
      out, ticks, idle := PulseTrain(t, plan, ab, 0, PinBit(pins.step), onTime);
      pulseAbort := ab(ticks);
      mode := IdleMode;
    }
  }

  /** One event of the test bed's `multiPulse`: a yielded step, or a `notifycomplete` call for a stream. */
  datatype WaveEvent = Yielded(step: WaveStep) | Notified(id: string)

  /** The `notifycomplete` calls for the streams `srcs` names, in order. */
  function Notes(ss: seq<Stream>, srcs: seq<nat>): (r: seq<WaveEvent>)
    requires SrcsIn(ss, srcs)
    ensures |r| == |srcs|
  {
    if srcs == [] then [] else Notes(ss, srcs[..|srcs| - 1]) + [Notified(ss[srcs[|srcs| - 1]].id)]
  }

  /**
    * `multiPulse` from its current live lanes, `ended` naming the streams
    * that ran out in the round before. Each round first notifies those
    * streams, then fires the lanes due; it yields only while some lane is
    * left, so the bits of the last round and the streams ending in it are
    * never passed on.
    */
  function TestMultiFrom(ss: seq<Stream>, lanes: seq<Lane>, ended: seq<nat>): (r: seq<WaveEvent>)
    requires LanesOk(ss, lanes) && lanes != [] && SrcsIn(ss, ended)
    decreases Pending(ss, lanes)
  {
    var rd := Round(ss, lanes, MinDue(lanes));
    Progress(ss, lanes);
    Notes(ss, ended) + if rd.next.None? then [] else [Yielded(WaveStep(rd.on, rd.off, rd.next.value))] + TestMultiFrom(ss, rd.kept, rd.finished)
  }

  /** Some stream yields nothing at all. */
  predicate SomeEmpty(ss: seq<Stream>)
  {
    exists k :: 0 <= k < |ss| && ss[k].steps == []
  }

  /**
    * `multiPulse` as `wavepulsemaker` runs it: a stream that yields nothing
    * makes the start-up loop call `notifycomplete(pg[2])` on a pair, an
    * IndexError; with no stream at all, the StopIteration it raises is a
    * RuntimeError.
    */
  function TestMultiOut(ss: seq<Stream>): (r: Result<seq<WaveEvent>>)
    ensures SomeEmpty(ss) ==> r == Err(IndexError)
    ensures ss == [] ==> r == Err(RuntimeError)
  {
    if SomeEmpty(ss) then Err(IndexError)
    else if Start(ss) == [] then Err(RuntimeError)
    else Ok(TestMultiFrom(ss, Start(ss), []))
  }

  /** The steps yielded along a test-bed `multiPulse` output. */
  function TestSteps(es: seq<WaveEvent>): seq<WaveStep>
  {
    if es == [] then [] else (if es[0].Yielded? then [es[0].step] else []) + TestSteps(es[1..])
  }

  /** The stream ids notified along a test-bed `multiPulse` output. */
  function TestNotified(es: seq<WaveEvent>): seq<string>
  {
    if es == [] then [] else (if es[0].Notified? then [es[0].id] else []) + TestNotified(es[1..])
  }

  /** The steps yielded along a motor-agent `multiPulse` output. */
  function DriverSteps(items: seq<MultiItem>): seq<WaveStep>
  {
    if items == [] then [] else (if items[0].step.Some? then [items[0].step.value] else []) + DriverSteps(items[1..])
  }

  lemma {:induction false} TestStepsAppend(a: seq<WaveEvent>, b: seq<WaveEvent>)
    ensures TestSteps(a + b) == TestSteps(a) + TestSteps(b)
    ensures TestNotified(a + b) == TestNotified(a) + TestNotified(b)
  {
    if a != [] {
      assert (a + b)[1..] == a[1..] + b;
      TestStepsAppend(a[1..], b);
    } else {
      assert a + b == b;
    }
  }

  lemma {:induction false} DriverStepsAppend(a: seq<MultiItem>, b: seq<MultiItem>)
    ensures DriverSteps(a + b) == DriverSteps(a) + DriverSteps(b)
  {
    if a != [] {
      assert (a + b)[1..] == a[1..] + b;
      DriverStepsAppend(a[1..], b);
    } else {
      assert a + b == b;
    }
  }

  lemma {:induction false} NotesMeaning(ss: seq<Stream>, srcs: seq<nat>)
    requires SrcsIn(ss, srcs)
    ensures TestSteps(Notes(ss, srcs)) == [] && TestNotified(Notes(ss, srcs)) == IdsOf(ss, srcs)
  {
    if srcs != [] {
      var init := srcs[..|srcs| - 1];
      NotesMeaning(ss, init);
      var last := [Notified(ss[srcs[|srcs| - 1]].id)];
      TestStepsAppend(Notes(ss, init), last);
      assert last[1..] == [];
    }
  }

  /**
    * The test bed's `multiPulse` yields the same steps as the motor agent's
    * as written, both losing the last round's bits.
    */
  lemma {:induction false} SameStepsAsDriver(ss: seq<Stream>, lanes: seq<Lane>, ended: seq<nat>)
    requires LanesOk(ss, lanes) && lanes != [] && SrcsIn(ss, ended)
    ensures TestSteps(TestMultiFrom(ss, lanes, ended)) == DriverSteps(MultiFromAsWritten(ss, lanes))
    decreases Pending(ss, lanes)
  {
    var rd := Round(ss, lanes, MinDue(lanes));
    Progress(ss, lanes);
    NotesMeaning(ss, ended);
    var y := YieldAsWritten(ss, rd);
    if rd.next.None? {
      assert Notes(ss, ended) + [] == Notes(ss, ended);
      assert TestMultiFrom(ss, lanes, ended) == Notes(ss, ended);
      assert MultiFromAsWritten(ss, lanes) == y + [];
      assert y == [MultiItem(None, Some(IdsOf(ss, rd.finished)))];
      assert y[1..] == [];
      assert DriverSteps(y) == [] + DriverSteps([]);
    } else {
      var mine := [Yielded(WaveStep(rd.on, rd.off, rd.next.value))];
      var rest := TestMultiFrom(ss, rd.kept, rd.finished);
      SameStepsAsDriver(ss, rd.kept, rd.finished);
      assert TestMultiFrom(ss, lanes, ended) == Notes(ss, ended) + (mine + rest);
      TestStepsAppend(Notes(ss, ended), mine + rest);
      TestStepsAppend(mine, rest);
      assert mine[1..] == [];
      assert MultiFromAsWritten(ss, lanes) == y + MultiFromAsWritten(ss, rd.kept);
      DriverStepsAppend(y, MultiFromAsWritten(ss, rd.kept));
      assert y[1..] == [];
    }
  }

  /** The streams that run out in the last round, whose completion is never notified. */
  function LastEnded(ss: seq<Stream>, lanes: seq<Lane>): (r: seq<nat>)
    requires LanesOk(ss, lanes) && lanes != []
    ensures SrcsIn(ss, r)
    decreases Pending(ss, lanes)
  {
    var rd := Round(ss, lanes, MinDue(lanes));
    Progress(ss, lanes);
    if rd.next.None? then rd.finished else LastEnded(ss, rd.kept)
  }

  /**
    * No stream is notified twice: the notified streams and those ending in
    * the last round are, between them, exactly the streams read.
    */
  lemma {:induction false} NotifiedOnce(ss: seq<Stream>, lanes: seq<Lane>, ended: seq<nat>)
    requires LanesOk(ss, lanes) && lanes != [] && SrcsIn(ss, ended)
    ensures SrcsIn(ss, Srcs(lanes))
    ensures multiset(TestNotified(TestMultiFrom(ss, lanes, ended))) + multiset(IdsOf(ss, LastEnded(ss, lanes)))
      == multiset(IdsOf(ss, ended)) + multiset(IdsOf(ss, Srcs(lanes)))
    decreases Pending(ss, lanes), 1
  {
    if Round(ss, lanes, MinDue(lanes)).next.None? {
      NotifiedLast(ss, lanes, ended);
    } else {
      NotifiedStep(ss, lanes, ended);
    }
  }

  /** `NotifiedOnce` for a round that yields, from the same for the rounds after it. */
  lemma {:induction false} NotifiedStep(ss: seq<Stream>, lanes: seq<Lane>, ended: seq<nat>)
    requires LanesOk(ss, lanes) && lanes != [] && SrcsIn(ss, ended)
    requires Round(ss, lanes, MinDue(lanes)).next.Some?
    ensures SrcsIn(ss, Srcs(lanes))
    ensures multiset(TestNotified(TestMultiFrom(ss, lanes, ended))) + multiset(IdsOf(ss, LastEnded(ss, lanes)))
      == multiset(IdsOf(ss, ended)) + multiset(IdsOf(ss, Srcs(lanes)))
    decreases Pending(ss, lanes), 0
  {
    var rd := Round(ss, lanes, MinDue(lanes));
    Progress(ss, lanes);
    RoundIds(ss, lanes, MinDue(lanes));
    NotifiedOnce(ss, rd.kept, rd.finished);
    NotifiedRound(ss, lanes, ended, rd);
    Regroup(IdsOf(ss, ended), TestNotified(TestMultiFrom(ss, rd.kept, rd.finished)), IdsOf(ss, LastEnded(ss, rd.kept)),
            IdsOf(ss, rd.finished), IdsOf(ss, Srcs(rd.kept)), IdsOf(ss, Srcs(lanes)));
  }

  /** The last round: the streams ended before it are notified, and those it ends are not. */
  lemma {:induction false} NotifiedLast(ss: seq<Stream>, lanes: seq<Lane>, ended: seq<nat>)
    requires LanesOk(ss, lanes) && lanes != [] && SrcsIn(ss, ended)
    requires Round(ss, lanes, MinDue(lanes)).next.None?
    ensures SrcsIn(ss, Srcs(lanes))
    ensures multiset(TestNotified(TestMultiFrom(ss, lanes, ended))) + multiset(IdsOf(ss, LastEnded(ss, lanes)))
      == multiset(IdsOf(ss, ended)) + multiset(IdsOf(ss, Srcs(lanes)))
  {
    var rd := Round(ss, lanes, MinDue(lanes));
    Progress(ss, lanes);
    RoundIds(ss, lanes, MinDue(lanes));
    LastRound(ss, lanes, ended, rd);
    assert IdsOf(ss, Srcs(rd.kept)) == [];
  }

  lemma {:induction false} LastRound(ss: seq<Stream>, lanes: seq<Lane>, ended: seq<nat>, rd: RoundOut)
    requires LanesOk(ss, lanes) && lanes != [] && SrcsIn(ss, ended)
    requires rd == Round(ss, lanes, MinDue(lanes)) && rd.next.None? && rd.kept == [] && SrcsIn(ss, rd.finished)
    ensures TestNotified(TestMultiFrom(ss, lanes, ended)) == IdsOf(ss, ended)
    ensures LastEnded(ss, lanes) == rd.finished
  {
    NotesMeaning(ss, ended);
    assert Notes(ss, ended) + [] == Notes(ss, ended);
  }

  /** The notifications of a round that yields: those of the streams ended before it, then the rest. */
  lemma {:induction false} NotifiedRound(ss: seq<Stream>, lanes: seq<Lane>, ended: seq<nat>, rd: RoundOut)
    requires LanesOk(ss, lanes) && lanes != [] && SrcsIn(ss, ended)
    requires rd == Round(ss, lanes, MinDue(lanes)) && rd.next.Some?
    requires LanesOk(ss, rd.kept) && rd.kept != [] && SrcsIn(ss, rd.finished)
    ensures TestNotified(TestMultiFrom(ss, lanes, ended)) == IdsOf(ss, ended) + TestNotified(TestMultiFrom(ss, rd.kept, rd.finished))
    ensures LastEnded(ss, lanes) == LastEnded(ss, rd.kept)
  {
    NotesMeaning(ss, ended);
    var mine := [Yielded(WaveStep(rd.on, rd.off, rd.next.value))];
    var rest := TestMultiFrom(ss, rd.kept, rd.finished);
    MultiFromRound(ss, lanes, ended, rd);
    NotifiedSplit(Notes(ss, ended), mine, rest);
    LastEndedRound(ss, lanes, rd);
  }

  /** One round of the test generator: its notes, its step, then the rest. */
  lemma {:induction false} MultiFromRound(ss: seq<Stream>, lanes: seq<Lane>, ended: seq<nat>, rd: RoundOut)
    requires LanesOk(ss, lanes) && lanes != [] && SrcsIn(ss, ended)
    requires rd == Round(ss, lanes, MinDue(lanes)) && rd.next.Some?
    requires LanesOk(ss, rd.kept) && rd.kept != [] && SrcsIn(ss, rd.finished)
    ensures TestMultiFrom(ss, lanes, ended)
      == Notes(ss, ended) + ([Yielded(WaveStep(rd.on, rd.off, rd.next.value))] + TestMultiFrom(ss, rd.kept, rd.finished))
  {
  }

  lemma {:induction false} LastEndedRound(ss: seq<Stream>, lanes: seq<Lane>, rd: RoundOut)
    requires LanesOk(ss, lanes) && lanes != []
    requires rd == Round(ss, lanes, MinDue(lanes)) && rd.next.Some?
    requires LanesOk(ss, rd.kept) && rd.kept != []
    ensures LastEnded(ss, lanes) == LastEnded(ss, rd.kept)
  {
  }

  lemma {:induction false} NotifiedSplit(notes: seq<WaveEvent>, mine: seq<WaveEvent>, rest: seq<WaveEvent>)
    requires |mine| == 1 && mine[0].Yielded?
    ensures TestNotified(notes + (mine + rest)) == TestNotified(notes) + TestNotified(rest)
  {
    TestStepsAppend(notes, mine + rest);
    assert (mine + rest)[0] == mine[0] && (mine + rest)[1..] == rest;
  }

  lemma {:induction false} Regroup(here: seq<string>, rest: seq<string>, last: seq<string>, fin: seq<string>, kept: seq<string>, all: seq<string>)
    requires multiset(rest) + multiset(last) == multiset(fin) + multiset(kept)
    requires multiset(fin) + multiset(kept) == multiset(all)
    ensures multiset(here + rest) + multiset(last) == multiset(here) + multiset(all)
  {
  }

  /**
    * A single stream of one step yields nothing and is never notified: its
    * one round runs the stream out and leaves no lane.
    */
  lemma {:induction false} OneStepYieldsNothing()
    ensures TestMultiOut([Stream([WaveStep({5}, {}, 0)], "ra")]) == Ok([])
  {
    var ss := [Stream([WaveStep({5}, {}, 0)], "ra")];
    var l0 := Lane(0, {5}, {}, 0, 1);
    assert Start(ss) == [l0];
    assert Round(ss, [l0], 0) == RoundStep(ss, Round(ss, [], 0), l0, 0);
    assert Round(ss, [l0], 0) == RoundOut([], {5}, {}, [0], None);
    assert MinDue([l0]) == 0;
    assert !SomeEmpty(ss);
    assert TestMultiFrom(ss, [l0], []) == Notes(ss, []) + [];
  }

  /**
    * One motor's entry of `pulseparams`; absent keys are None, and `others`
    * names the entry's remaining keys, which go to `pulser` unchanged.
    */
  datatype PulseParams = PulseParams(motor: string, warp: Option<int>, totalSteps: Option<int>, startsr: Option<real>, maxsr: Option<real>,
                                     forward: Option<bool>, others: set<string>)

  /** The parameters `pulser` is given for one motor, with the warp it is stepped at and its direction. */
  datatype Scaled = Scaled(motor: string, warp: int, totalSteps: Option<int>, startsr: real, maxsr: real, forward: bool,
                           others: set<string>)

  /** The parameters of `pulser` besides `startsr`, `maxsr` and `totalsteps`; none has a default. */
  const PulserOthers: set<string> := {"overreach", "ramp", "pulseontime"}

  /**
    * `pulser(**paramset)` binds its arguments: every parameter given, as it
    * has no defaults, and no other key; otherwise the call raises TypeError.
    */
  predicate Binds(s: Scaled)
  {
    s.totalSteps.Some? && s.others == PulserOthers
  }

  function Or<T>(o: Option<T>, d: T): T
  {
    if o.Some? then o.value else d
  }

  /**
    * `wavepulsemaker`'s checks and scaling of one entry: the motor must be
    * known and the warp (default 2) at least 1; a warp other than 1
    * multiplies `totalsteps`, `startsr` and `maxsr` (defaults 3000, 50 and
    * 100) by the warp; then `maxsr` and `startsr` must both be present
    * (KeyError) and `maxsr > startsr`.
    */
  function ScaleParams(motors: set<string>, p: PulseParams): (r: Result<Scaled>)
    ensures p.motor !in motors ==> r == Err(AssertionError)
    ensures r.Ok? ==> r.value.motor == p.motor
  {
    if p.motor !in motors then Err(AssertionError)
    else
      var warp := Or(p.warp, 2);
      if warp < 1 then Err(AssertionError)
      else
        var q := if warp != 1 then
          p.(totalSteps := Some(Or(p.totalSteps, 3000) * warp), startsr := Some(Or(p.startsr, 50.0) * warp as real),
             maxsr := Some(Or(p.maxsr, 100.0) * warp as real))
          else p;
        if q.maxsr.None? || q.startsr.None? then Err(KeyError)
        else if !(q.maxsr.value > q.startsr.value) then Err(AssertionError)
        else Ok(Scaled(p.motor, warp, q.totalSteps, q.startsr.value, q.maxsr.value, Or(p.forward, true), p.others))
  }

  /** What a scaled entry holds. */
  lemma {:induction false} ScaleParamsMeans(motors: set<string>, p: PulseParams)
    ensures var r := ScaleParams(motors, p);
      (r.Ok? ==> r.value.warp == Or(p.warp, 2) >= 1 && r.value.maxsr > r.value.startsr && r.value.forward == Or(p.forward, true)
                 && r.value.others == p.others)
      && (r.Ok? && r.value.warp != 1 ==>
        r.value.totalSteps == Some(Or(p.totalSteps, 3000) * r.value.warp)
        && r.value.startsr == Or(p.startsr, 50.0) * r.value.warp as real && r.value.maxsr == Or(p.maxsr, 100.0) * r.value.warp as real)
      && (r.Ok? && r.value.warp == 1 ==>
        r.value.totalSteps == p.totalSteps && p.startsr == Some(r.value.startsr) && p.maxsr == Some(r.value.maxsr))
  {
  }

  /** Scaling never changes which rate is the larger: a warp above 1 keeps `maxsr > startsr` when the given rates had it. */
  lemma {:induction false} ScalingKeepsOrder(motors: set<string>, p: PulseParams)
    requires p.motor in motors && Or(p.warp, 2) > 1
    ensures ScaleParams(motors, p).Ok? <==> Or(p.maxsr, 100.0) > Or(p.startsr, 50.0)
  {
    var w := Or(p.warp, 2) as real;
    var a, b := Or(p.maxsr, 100.0), Or(p.startsr, 50.0);
    assert a * w > b * w <==> a > b by {
      if a > b {
        assert (a - b) * w > 0.0;
      } else {
        assert (b - a) * w >= 0.0;
      }
    }
  }

  /**
    * The checks and scaling of `wavepulsemaker`'s parameter loop, leaving
    * out the pin writes between entries: the first failing entry's error, or
    * every entry scaled.
    */
  function ScaleAll(motors: set<string>, ps: seq<PulseParams>): (r: Result<seq<Scaled>>)
    ensures r.Ok? ==> |r.value| == |ps| && forall i :: 0 <= i < |ps| ==> ScaleParams(motors, ps[i]) == Ok(r.value[i])
    ensures r.Err? ==> exists i :: 0 <= i < |ps| && ScaleParams(motors, ps[i]) == Err(r.error)
  {
    if ps == [] then Ok([])
    else
      var first := ScaleParams(motors, ps[0]);
      if first.Err? then Err(first.error)
      else
        var rest := ScaleAll(motors, ps[1..]);
        if rest.Err? then
          assert forall i :: 0 <= i < |ps| - 1 ==> ps[1..][i] == ps[i + 1];
          Err(rest.error)
        else
          assert forall i :: 1 <= i < |ps| ==> ps[i] == ps[1..][i - 1];
          Ok([first.value] + rest.value)
  }

  /** A scaled entry with the last `ScaleParams` result added at the end. */
  lemma {:induction false} ScaleAllSnoc(motors: set<string>, ps: seq<PulseParams>, p: PulseParams)
    ensures var init := ScaleAll(motors, ps);
      ScaleAll(motors, ps + [p])
      == if init.Err? then init
         else if ScaleParams(motors, p).Err? then Err(ScaleParams(motors, p).error)
         else Ok(init.value + [ScaleParams(motors, p).value])
  {
    if ps == [] {
      assert ps + [p] == [p] && [p][1..] == [];
      if ScaleParams(motors, p).Ok? {
        assert [ScaleParams(motors, p).value] + [] == [] + [ScaleParams(motors, p).value];
      }
    } else {
      assert (ps + [p])[1..] == ps[1..] + [p];
      ScaleAllSnoc(motors, ps[1..], p);
      var first := ScaleParams(motors, ps[0]);
      if first.Ok? && ScaleAll(motors, ps[1..]).Ok? && ScaleParams(motors, p).Ok? {
        assert [first.value] + (ScaleAll(motors, ps[1..]).value + [ScaleParams(motors, p).value])
          == ([first.value] + ScaleAll(motors, ps[1..]).value) + [ScaleParams(motors, p).value];
      }
    }
  }

  /**
    * The pin writes of `_enabledrive(True)`, `_setdir(forward)` and
    * `_set_ms_mode(warp)` for one scaled entry, and whether the last of them
    * raised.
    */
  function Prepare(dp: DrivePins, s: Scaled): (seq<PinOp>, Result<()>)
  {
    var first := [SetPin(dp.enable, 0), SetPin(dp.direction, if s.forward then 0 else 1)];
    if s.warp !in MicrostepSet then (first, Err(TypeError))
    else (first + LevelOps(dp.levels, MicrostepSet[s.warp]), if |dp.levels| >= 3 then Ok(()) else Err(IndexError))
  }

  /** What `wavepulsemaker`'s loop has done: the entries ready so far or the error it raised, and the pin writes made. */
  datatype Made = Made(result: Result<seq<Scaled>>, ops: seq<PinOp>)

  /**
    * One entry of `wavepulsemaker`'s loop: it is checked and scaled, then
    * its motor's drive is enabled, its direction set and its microstep level
    * set, and last `pulser` is called with the entry's remaining keys, which
    * raises TypeError when they do not bind; after an error nothing more
    * happens.
    */
  function MakeStep(pins: map<string, DrivePins>, m: Made, p: PulseParams): Made
  {
    if m.result.Err? then m
    else
      var sc := ScaleParams(pins.Keys, p);
      if sc.Err? then Made(Err(sc.error), m.ops)
      else
        var pr := Prepare(pins[sc.value.motor], sc.value);
        if pr.1.Err? then Made(Err(pr.1.error), m.ops + pr.0)
        else if !Binds(sc.value) then Made(Err(TypeError), m.ops + pr.0)
        else Made(Ok(m.result.value + [sc.value]), m.ops + pr.0)
  }

  /**
    * A scaled entry whose motor has pins, whose warp is a microstep level,
    * whose motor has three level pins and whose arguments bind to `pulser`.
    */
  predicate Fits(pins: map<string, DrivePins>, s: Scaled)
  {
    s.motor in pins && s.warp in MicrostepSet && |pins[s.motor].levels| >= 3 && Binds(s)
  }

  /** `wavepulsemaker`'s loop over the entries, the first error ending it. */
  function MakeAll(pins: map<string, DrivePins>, ps: seq<PulseParams>): Made
  {
    if ps == [] then Made(Ok([]), []) else MakeStep(pins, MakeAll(pins, ps[..|ps| - 1]), ps[|ps| - 1])
  }

  lemma {:induction false} MakeAllSnoc(pins: map<string, DrivePins>, ps: seq<PulseParams>, i: nat)
    requires i < |ps|
    ensures MakeAll(pins, ps[..i + 1]) == MakeStep(pins, MakeAll(pins, ps[..i]), ps[i])
  {
    var q := ps[..i + 1];
    assert q[..|q| - 1] == ps[..i];
  }

  /**
    * The loop succeeds exactly when every entry scales, every scaled warp is
    * a microstep level the motor's pins can take and every entry's arguments
    * bind to `pulser`, and then it gives every entry scaled; a failing scale
    * is always an error of the loop.
    */
  lemma {:induction false} MakeAllScales(pins: map<string, DrivePins>, ps: seq<PulseParams>)
    ensures MakeAll(pins, ps).result.Ok? <==>
      ScaleAll(pins.Keys, ps).Ok? && forall i :: 0 <= i < |ps| ==> Fits(pins, ScaleAll(pins.Keys, ps).value[i])
    ensures MakeAll(pins, ps).result.Ok? ==> MakeAll(pins, ps).result == ScaleAll(pins.Keys, ps)
  {
    if ps != [] {
      var init := ps[..|ps| - 1];
      var p := ps[|ps| - 1];
      assert ps == init + [p];
      MakeAllScales(pins, init);
      ScaleAllSnoc(pins.Keys, init, p);
      var m := MakeAll(pins, init);
      var ia := ScaleAll(pins.Keys, init);
      var all := ScaleAll(pins.Keys, ps);
      assert MakeAll(pins, ps) == MakeStep(pins, m, p);
      if all.Ok? {
        assert ia.Ok? && all.value == ia.value + [all.value[|init|]];
        assert forall i :: 0 <= i < |init| ==> all.value[i] == ia.value[i];
        if m.result.Ok? {
          assert m.result == ia;
        }
      } else if m.result.Ok? {
        assert ia.Ok?;
      }
    }
  }

  /** Once an entry raised, the later entries change nothing. */
  lemma {:induction false} MakeAllStops(pins: map<string, DrivePins>, ps: seq<PulseParams>, k: nat)
    requires k <= |ps| && MakeAll(pins, ps[..k]).result.Err?
    ensures MakeAll(pins, ps) == MakeAll(pins, ps[..k])
    decreases |ps| - k
  {
    if k == |ps| {
      assert ps[..k] == ps;
    } else {
      var init := ps[..|ps| - 1];
      assert init[..k] == ps[..k];
      MakeAllStops(pins, init, k);
    }
  }

  /** The pin writes of the scaled entries `ss`, prepared one after the other. */
  function PrepareAll(pins: map<string, DrivePins>, ss: seq<Scaled>): seq<PinOp>
    requires forall i :: 0 <= i < |ss| ==> ss[i].motor in pins
  {
    if ss == [] then [] else PrepareAll(pins, ss[..|ss| - 1]) + Prepare(pins[ss[|ss| - 1].motor], ss[|ss| - 1]).0
  }

  /**
    * A loop that succeeds writes, in order, each entry's enable, direction
    * and microstep-level pins and nothing else.
    */
  lemma {:induction false} MakeAllWrites(pins: map<string, DrivePins>, ps: seq<PulseParams>)
    requires MakeAll(pins, ps).result.Ok?
    ensures var ss := MakeAll(pins, ps).result.value;
      (forall i :: 0 <= i < |ss| ==> ss[i].motor in pins) && MakeAll(pins, ps).ops == PrepareAll(pins, ss)
  {
    if ps != [] {
      var init := ps[..|ps| - 1];
      MakeAllWrites(pins, init);
      var ss := MakeAll(pins, ps).result.value;
      var si := MakeAll(pins, init).result.value;
      assert ss == si + [ss[|ss| - 1]];
      assert ss[..|ss| - 1] == si;
    }
  }

  /**
    * A warp of 3 passes the scaling but is no microstep level: `_set_ms_mode`
    * raises, after the drive was enabled and the direction set.
    */
  lemma {:induction false} WarpThreeRaises()
    ensures var pins := map["ra" := DrivePins(1, 2, 3, [4, 5, 6])];
      var ps := [PulseParams("ra", Some(3), None, None, None, None, PulserOthers)];
      ScaleAll(pins.Keys, ps).Ok? && MakeAll(pins, ps) == Made(Err(TypeError), [SetPin(1, 0), SetPin(2, 0)])
  {
    var pins := map["ra" := DrivePins(1, 2, 3, [4, 5, 6])];
    var ps := [PulseParams("ra", Some(3), None, None, None, None, PulserOthers)];
    assert ps[..0] == [];
    var sc := Scaled("ra", 3, Some(9000), 150.0, 300.0, true, PulserOthers);
    assert ScaleParams(pins.Keys, ps[0]) == Ok(sc);
    assert ps[1..] == [];
    assert 3 !in MicrostepSet;
    assert Prepare(pins["ra"], sc) == ([SetPin(1, 0), SetPin(2, 0)], Err(TypeError));
    assert MakeAll(pins, ps[..0]) == Made(Ok([]), []);
    assert [] + [SetPin(1, 0), SetPin(2, 0)] == [SetPin(1, 0), SetPin(2, 0)];
  }

  /**
    * A warp other than 1 always supplies `totalsteps`, so then only the
    * entry's other keys decide whether `pulser` binds; at warp 1 the entry
    * must give `totalsteps` itself.
    */
  lemma {:induction false} BindsScaled(motors: set<string>, p: PulseParams)
    requires ScaleParams(motors, p).Ok?
    ensures var s := ScaleParams(motors, p).value;
      (s.warp != 1 ==> (Binds(s) <==> p.others == PulserOthers))
      && (s.warp == 1 ==> (Binds(s) <==> p.totalSteps.Some? && p.others == PulserOthers))
  {
    ScaleParamsMeans(motors, p);
  }

  /**
    * A warp-1 entry without `totalsteps` passes the checks and gets its
    * enable, direction and level writes, then the `pulser` call raises
    * TypeError.
    */
  lemma {:induction false} UnboundPulserRaises()
    ensures var pins := map["ra" := DrivePins(1, 2, 3, [4, 5, 6])];
      var ps := [PulseParams("ra", Some(1), None, Some(50.0), Some(100.0), Some(true), PulserOthers)];
      ScaleAll(pins.Keys, ps).Ok?
      && MakeAll(pins, ps) == Made(Err(TypeError), [SetPin(1, 0), SetPin(2, 0), SetPin(4, 0), SetPin(5, 0), SetPin(6, 0)])
  {
    var pins := map["ra" := DrivePins(1, 2, 3, [4, 5, 6])];
    var ps := [PulseParams("ra", Some(1), None, Some(50.0), Some(100.0), Some(true), PulserOthers)];
    assert ps[..0] == [] && ps[1..] == [];
    var sc := Scaled("ra", 1, None, 50.0, 100.0, true, PulserOthers);
    assert ScaleParams(pins.Keys, ps[0]) == Ok(sc);
    assert 1 in MicrostepSet && MicrostepSet[1] == [0, 0, 0];
    assert LevelOps([4, 5, 6], [0, 0, 0]) == [SetPin(4, 0), SetPin(5, 0), SetPin(6, 0)];
    assert [SetPin(1, 0), SetPin(2, 0)] + [SetPin(4, 0), SetPin(5, 0), SetPin(6, 0)]
      == [SetPin(1, 0), SetPin(2, 0), SetPin(4, 0), SetPin(5, 0), SetPin(6, 0)];
    assert Prepare(pins["ra"], sc) == ([SetPin(1, 0), SetPin(2, 0), SetPin(4, 0), SetPin(5, 0), SetPin(6, 0)], Ok(()));
    assert !Binds(sc);
    assert MakeAll(pins, ps[..0]) == Made(Ok([]), []);
  }

  /** The `onewave` agent's stop state and its motors. */
  class OneWave {
    const hw: PinLog
    var activeAction: Option<string>
    var pulseAbort: Abort
    var motors: map<string, WaveMotor>

    /** Each motor is its own object and writes its pins through this agent. */
    ghost predicate Valid()
      reads this
    {
      (forall a, b :: a in motors && b in motors && a != b ==> motors[a] != motors[b])
      && forall n :: n in motors ==> motors[n].hw == hw
    }

    constructor (ms: map<string, WaveMotor>, log: PinLog)
      requires forall a, b :: a in ms && b in ms && a != b ==> ms[a] != ms[b]
      requires forall n :: n in ms ==> ms[n].hw == log
      ensures Valid() && motors == ms && hw == log && activeAction == None && pulseAbort == NoAbort
    {
      hw := log;
      motors := ms;
      activeAction := None;
      pulseAbort := NoAbort;
    }

    /** `softstop`: while an action runs, every motor is asked for a soft stop. */
    method SoftStop()
      requires Valid()
      modifies motors.Values
      ensures forall n :: n in motors ==> motors[n].pulseAbort == if activeAction.Some? then SoftAbort else old(motors[n].pulseAbort)
      ensures forall n :: n in motors ==> motors[n].mode == old(motors[n].mode)
      ensures hw.writes == old(hw.writes)
    {
      if activeAction.None? {
        return;
      }
      var todo := motors.Keys;
      while todo != {}
        invariant todo <= motors.Keys
        invariant forall n :: n in motors && n !in todo ==> motors[n].pulseAbort == SoftAbort
        invariant forall n :: n in todo ==> motors[n].pulseAbort == old(motors[n].pulseAbort)
        invariant forall n :: n in motors ==> motors[n].mode == old(motors[n].mode)
        decreases |todo|
      {
        var n :| n in todo;
        motors[n].pulseAbort := SoftAbort;
        todo := todo - {n};
      }
    }

    /**
      * `crashstop`: while an action runs, the crash request is set on the
      * agent itself, once per motor, and never on a motor, so no running
      * train sees it.
      */
    method CrashStop()
      modifies this`pulseAbort
      ensures pulseAbort == if activeAction.Some? && motors != map[] then CrashAbort else old(pulseAbort)
      ensures forall n :: n in motors ==> motors[n].pulseAbort == old(motors[n].pulseAbort)
    {
      if activeAction.Some? {
        var todo := motors.Keys;
        while todo != {}
          invariant todo <= motors.Keys
          invariant pulseAbort == if todo == motors.Keys then old(pulseAbort) else CrashAbort
          decreases |todo|
        {
          var n :| n in todo;
          pulseAbort := CrashAbort;
          todo := todo - {n};
        }
      }
    }

    /** The pins of each motor. */
    function PinsOf(): map<string, DrivePins>
      reads this
    {
      map n | n in motors :: motors[n].pins
    }

    /**
      * `wavepulsemaker` up to the merge: the action is recorded, and each
      * entry in turn is checked and scaled, then its motor's drive is
      * enabled, its direction set and its microstep level set, and its
      * `pulser` generator is created, which raises TypeError when the entry's
      * keys do not bind to its parameters; the first error ends the loop.
      * (Creating the generator runs none of its body.)
      */
    method WavePulseMaker(ps: seq<PulseParams>) returns (r: Result<seq<Scaled>>)
      requires Valid()
      modifies this`activeAction, hw
      ensures activeAction == Some("wavepulsemaker")
      ensures r == MakeAll(PinsOf(), ps).result && hw.writes == old(hw.writes) + MakeAll(PinsOf(), ps).ops
    {
      activeAction := Some("wavepulsemaker");
      ghost var pins := PinsOf();
      var done: seq<Scaled> := [];
      assert ps[..0] == [];
      assert old(hw.writes) + [] == old(hw.writes);
      for i := 0 to |ps|
        invariant activeAction == Some("wavepulsemaker") && pins == PinsOf()
        invariant MakeAll(pins, ps[..i]).result == Ok(done)
        invariant hw.writes == old(hw.writes) + MakeAll(pins, ps[..i]).ops
      {
        MakeAllSnoc(pins, ps, i);
        var e := Entry(pins, ps[i], MakeAll(pins, ps[..i]), old(hw.writes));
        if e.Err? {
          MakeAllStops(pins, ps, i + 1);
          return Err(e.error);
        }
        done := done + [e.value];
      }
      assert ps[..|ps|] == ps;
      r := Ok(done);
    }

    /**
      * One entry of `wavepulsemaker`'s loop, after the entries `m` before it
      * made their writes on top of `base`: scaling, the pin writes, then the
      * `pulser` call's argument binding.
      */
    method Entry(ghost pins: map<string, DrivePins>, p: PulseParams, ghost m: Made, ghost base: seq<PinOp>)
      returns (e: Result<Scaled>)
      requires Valid() && pins == PinsOf() && m.result.Ok? && hw.writes == base + m.ops
      modifies hw
      ensures MakeStep(pins, m, p).result == if e.Ok? then Ok(m.result.value + [e.value]) else Err(e.error)
      ensures hw.writes == base + MakeStep(pins, m, p).ops
    {
      var s := ScaleParams(motors.Keys, p);
      assert pins.Keys == motors.Keys;
      if s.Err? {
        return Err(s.error);
      }
      var mo := motors[s.value.motor];
      assert pins[s.value.motor] == mo.pins && mo.hw == hw;
      var r := mo.Ready(s.value);
      assert (base + m.ops) + Prepare(mo.pins, s.value).0 == base + (m.ops + Prepare(mo.pins, s.value).0);
      e := if r.Err? then Err(r.error) else if !Binds(s.value) then Err(TypeError) else Ok(s.value);
    }
  }
}
