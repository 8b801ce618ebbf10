/**
  * The `onewave` agent of stepperdriver.py: the motors it drives, the
  * merged wave it builds from their step trains, the end positions it
  * records for each wave sent, and what retiring a finished wave does to
  * each motor and to the list of motors still waving.
  */
module WaveAgents {
  import opened Pulses
  import opened StepperDriver

  /** The `onewave` agent's mode. */
  datatype AgentMode = AgentIdle | Waving

  /** An `mposns` entry: the motor's `gensteps` when the wave was created, and whether its train ended in that wave. */
  datatype WaveEnd = WaveEnd(steps: int, done: bool)

  /** No two names share a motor. */
  predicate Distinct(ms: map<string, Motor>)
  {
    forall a, b :: a in ms && b in ms && a != b ==> ms[a] != ms[b]
  }

  /** What a retired wave does to one motor: `pulsedone` when its train ended, `pulsereached` otherwise. */
  function WaveEnded(s: MotorState, e: WaveEnd): (r: MotorState)
    requires s.maxval > 0
    ensures r.maxval == s.maxval
  {
    if e.done then Finished(s, e.steps) else s.(offset := e.steps * s.stepfactor)
  }

  /** The motors a retired wave finishes. */
  function DoneIn(ends: map<string, WaveEnd>): set<string>
  {
    set n | n in ends && ends[n].done
  }

  /** `activewavemotors` less the motors in `gone`, in order. */
  function Without(ids: seq<string>, gone: set<string>): seq<string>
  {
    if ids == [] then [] else (if ids[0] in gone then [] else [ids[0]]) + Without(ids[1..], gone)
  }

  /** A motor stays in `activewavemotors` exactly when it was there and is not gone. */
  lemma {:induction false} WithoutMeans(ids: seq<string>, gone: set<string>, x: string)
    ensures x in Without(ids, gone) <==> x in ids && x !in gone
  {
    if ids != [] {
      WithoutMeans(ids[1..], gone, x);
      assert x in ids <==> x == ids[0] || x in ids[1..];
    }
  }

  lemma {:induction false} WithoutNothing(ids: seq<string>)
    ensures Without(ids, {}) == ids
  {
    if ids != [] {
      WithoutNothing(ids[1..]);
      assert ids == [ids[0]] + ids[1..];
    }
  }

  /** Removing motors one at a time is removing them all at once. */
  lemma {:induction false} WithoutTwice(ids: seq<string>, g1: set<string>, g2: set<string>)
    ensures Without(Without(ids, g1), g2) == Without(ids, g1 + g2)
  {
    if ids != [] {
      WithoutTwice(ids[1..], g1, g2);
      var head := if ids[0] in g1 then [] else [ids[0]];
      WithoutAppend(head, Without(ids[1..], g1), g2);
      if ids[0] !in g1 {
        assert head[1..] == [];
      }
    }
  }

  lemma {:induction false} WithoutAppend(a: seq<string>, b: seq<string>, gone: set<string>)
    ensures Without(a + b, gone) == Without(a, gone) + Without(b, gone)
  {
    if a != [] {
      assert (a + b)[1..] == a[1..] + b;
      WithoutAppend(a[1..], b, gone);
    } else {
      assert a + b == b;
    }
  }

  /** `softstop`, `hardstop` or `crashstop` on motor `n` and no other. */
  method StopOne(ms: map<string, Motor>, n: string, k: StopKind) returns (done: bool)
    requires Distinct(ms) && n in ms
    modifies ms[n]
    ensures ms[n].State() == Stopping(old(ms[n].State()), k).0
    ensures done <==> !(k == Soft && old(ms[n].mode) == FastWave)
    ensures forall j :: j in ms && j != n ==> ms[j].State() == old(ms[j].State())
  {
    done := ms[n].Stop(k);
  }

  /** `softstop`, `hardstop` or `crashstop` on every motor; `alldone` when every motor reports done. */
  method StopMotors(ms: map<string, Motor>, k: StopKind) returns (alldone: bool)
    requires Distinct(ms)
    modifies ms.Values
    ensures forall n :: n in ms ==> ms[n].State() == Stopping(old(ms[n].State()), k).0
    ensures alldone <==> k != Soft || forall n :: n in ms ==> old(ms[n].mode) != FastWave
  {
    var todo := ms.Keys;
    alldone := true;
    while todo != {}
      invariant todo <= ms.Keys
      invariant forall n :: n in ms && n !in todo ==> ms[n].State() == Stopping(old(ms[n].State()), k).0
      invariant forall n :: n in todo ==> ms[n].State() == old(ms[n].State())
      invariant alldone <==> k != Soft || forall n :: n in ms && n !in todo ==> old(ms[n].mode) != FastWave
      decreases |todo|
    {
      var n :| n in todo;
      var done := StopOne(ms, n, k);
      alldone := done && alldone;
      Shrinks(todo, n);
      todo := todo - {n};
    }
  }

  /** The names whose wave end says their train is over, among those already handled. */
  ghost predicate GoneSoFar(gone: set<string>, ends: map<string, WaveEnd>, todo: set<string>)
  {
    forall x :: x in gone <==> x in ends && ends[x].done && x !in todo
  }

  lemma {:induction false} GoneAll(ends: map<string, WaveEnd>, gone: set<string>)
    requires GoneSoFar(gone, ends, {})
    ensures gone == DoneIn(ends)
  {
  }

  lemma {:induction false} DropStep(ids: seq<string>, gone: set<string>, n: string, done: bool)
    ensures (if done then Without(Without(ids, gone), {n}) else Without(ids, gone)) == Without(ids, if done then gone + {n} else gone)
  {
    if done {
      WithoutTwice(ids, gone, {n});
    }
  }

  /** The active-list half of `_deleteWave`'s loop: drop every motor whose train ended in the wave. */
  method DropFinished(ends: map<string, WaveEnd>, active0: seq<string>) returns (active: seq<string>)
    ensures active == Without(active0, DoneIn(ends))
  {
    var todo := ends.Keys;
    active := active0;
    ghost var gone: set<string> := {};
    WithoutNothing(active0);
    while todo != {}
      invariant todo <= ends.Keys
      invariant GoneSoFar(gone, ends, todo)
      invariant active == Without(active0, gone)
      decreases |todo|
    {
      var n :| n in todo;
      DropStep(active0, gone, n, ends[n].done);
      if ends[n].done {
        active := Without(active, {n});
        gone := gone + {n};
      }
      todo := todo - {n};
    }
    GoneAll(ends, gone);
  }

  /** One pass of the motor half of `_deleteWave`'s loop: the wave end of motor `n` and no other. */
  method RetireMotor(ms: map<string, Motor>, n: string, e: WaveEnd)
    requires Distinct(ms) && n in ms && ms[n].Valid()
    modifies ms[n]
    ensures ms[n].State() == WaveEnded(old(ms[n].State()), e)
    ensures forall k :: k in ms && k != n ==> ms[k].State() == old(ms[k].State()) && ms[k].Valid() == old(ms[k].Valid())
    ensures ms[n].Valid()
  {
    if e.done {
      ms[n].PulseDone(e.steps);
    } else {
      ms[n].PulseReached(e.steps);
    }
  }

  lemma {:induction false} Shrinks(todo: set<string>, n: string)
    requires n in todo
    ensures |todo - {n}| < |todo|
  {
    assert todo == (todo - {n}) + {n};
  }

  /** The motor half of `_deleteWave`'s loop: `pulsedone` or `pulsereached` on each motor of the wave. */
  method ApplyWaveEnds(ms: map<string, Motor>, ends: map<string, WaveEnd>)
    requires Distinct(ms) && ends.Keys <= ms.Keys
    requires forall n :: n in ms ==> ms[n].Valid()
    modifies ms.Values
    ensures forall n :: n in ends ==> old(ms[n].Valid()) && ms[n].State() == WaveEnded(old(ms[n].State()), ends[n])
    ensures forall n :: n in ms && n !in ends ==> ms[n].State() == old(ms[n].State())
    ensures forall n :: n in ms ==> ms[n].Valid()
  {
    var todo := ends.Keys;
    while todo != {}
      invariant todo <= ends.Keys
      invariant forall n :: n in ends && n !in todo ==> ms[n].State() == WaveEnded(old(ms[n].State()), ends[n])
      invariant forall n :: n in ms && (n !in ends || n in todo) ==> ms[n].State() == old(ms[n].State())
      invariant forall n :: n in ms ==> ms[n].Valid()
      decreases |todo|
    {
      var n :| n in todo;
      RetireMotor(ms, n, ends[n]);
      Shrinks(todo, n);
      todo := todo - {n};
    }
  }

  /**
    * The wave agent (`onewave`): the motors it drives, the end positions
    * recorded for each wave sent, the motors still in the current wave and
    * the wave being waited on. Waves themselves are pigpio's and are not
    * part of this model.
    */
  class WaveAgent {
    var mode: AgentMode
    var motors: map<string, Motor>
    var waveEnds: map<int, map<string, WaveEnd>>
    var activeWaveMotors: seq<string>
    var pendingWave: Option<int>

    ghost predicate Valid()
      reads this, motors.Values
    {
      Distinct(motors) && (forall n :: n in motors ==> motors[n].Valid())
      && forall w :: w in waveEnds ==> waveEnds[w].Keys <= motors.Keys
    }

    constructor (ms: map<string, Motor>)
      requires Distinct(ms) && forall n :: n in ms ==> ms[n].Valid()
      ensures Valid()
      ensures motors == ms && mode == AgentIdle && waveEnds == map[] && activeWaveMotors == [] && pendingWave == None
    {
      motors := ms;
      mode := AgentIdle;
      waveEnds := map[];
      activeWaveMotors := [];
      pendingWave := None;
    }

    /**
      * `softstop` and `hardstop`: every motor is told to stop, and the agent
      * goes idle only when every motor reports done; `crashstop` names an
      * undefined variable and raises NameError before doing anything.
      */
    method StopAll(k: StopKind) returns (r: Result<()>)
      requires Valid()
      modifies this, motors.Values
      ensures Valid()
      ensures motors == old(motors) && waveEnds == old(waveEnds) && activeWaveMotors == old(activeWaveMotors) && pendingWave == old(pendingWave)
      ensures k == Crash ==> r == Err(NameError) && mode == old(mode) && forall n :: n in motors ==> motors[n].State() == old(motors[n].State())
      ensures k != Crash ==> r == Ok(())
      ensures k != Crash ==> (forall n :: n in motors ==> motors[n].State() == Stopping(old(motors[n].State()), k).0)
      ensures k != Crash ==> mode == if k == Hard || forall n :: n in motors ==> old(motors[n].mode) != FastWave then AgentIdle else old(mode)
    {
      if k == Crash {
        return Err(NameError);
      }
      var alldone := StopMotors(motors, k);
      forall n | n in motors
        ensures motors[n].Valid()
      {
        assert motors[n].State().maxval == old(motors[n].State()).maxval;
      }
      if alldone {
        mode := AgentIdle;
      }
      r := Ok(());
    }

    /**
      * `_deleteWave`: the recorded ends of the wave that finished are taken
      * out and applied to each motor; a missing entry raises KeyError.
      */
    method DeleteWave() returns (r: Result<()>)
      requires Valid()
      modifies this, motors.Values
      ensures Valid()
      ensures motors == old(motors) && mode == old(mode) && pendingWave == old(pendingWave)
      ensures !(old(pendingWave).Some? && old(pendingWave).value in old(waveEnds)) ==>
        r == Err(KeyError) && waveEnds == old(waveEnds) && activeWaveMotors == old(activeWaveMotors)
        && forall n :: n in motors ==> motors[n].State() == old(motors[n].State())
      ensures old(pendingWave).Some? && old(pendingWave).value in old(waveEnds) ==>
        var ends := old(waveEnds)[old(pendingWave).value];
        r == Ok(()) && waveEnds == old(waveEnds) - {old(pendingWave).value}
        && activeWaveMotors == Without(old(activeWaveMotors), DoneIn(ends))
        && forall n :: n in motors ==> motors[n].State() == if n in ends then WaveEnded(old(motors[n].State()), ends[n]) else old(motors[n].State())
    {
      if pendingWave.None? || pendingWave.value !in waveEnds {
        return Err(KeyError);
      }
      var ends := waveEnds[pendingWave.value];
      assert pendingWave.value in waveEnds;
      assert forall w :: w in waveEnds ==> waveEnds[w].Keys <= motors.Keys;
      assert ends.Keys <= motors.Keys;
      ApplyWaveEnds(motors, ends);
      activeWaveMotors := DropFinished(ends, activeWaveMotors);
      waveEnds := waveEnds - {pendingWave.value};
      r := Ok(());
    }

    /** `multiPulse` as the agent runs it: on success it records the motors in the wave as `activewavemotors`. */
    method MultiPulse(ss: seq<Stream>) returns (r: Result<seq<MultiItem>>)
      modifies this
      ensures r == MultiOut(ss)
      ensures motors == old(motors) && mode == old(mode) && waveEnds == old(waveEnds) && pendingWave == old(pendingWave)
      ensures r.Err? ==> activeWaveMotors == old(activeWaveMotors)
      ensures r.Ok? ==> SrcsIn(ss, Srcs(Start(ss))) && activeWaveMotors == IdsOf(ss, Srcs(Start(ss)))
    {
      var active;
      r, active := MergeTrains(ss);
      if r.Ok? {
        activeWaveMotors := active;
      }
    }
  }
}
