/**
  * The angle handling of the equatorial mount agent `smartmount`
  * (equMountDriver.py): which side of the meridian a motor position is on,
  * the fold of the two motor angles back to hour angle and declination, the
  * two motor positions that point at one place in the sky, the state check
  * before a move and the choice of which motors a goto moves.
  *
  * Angles are degrees as `real`. The move times `_bestmovetime` computes
  * from the motors' float ramp settings are a parameter.
  */
module EquMount {
  import opened Pulses
  import opened StepperDriver

  /** Python's `x % 360` on floats: the remainder after taking off whole turns, never negative. */
  function Mod360(x: real): (r: real)
    ensures 0.0 <= r < 360.0
    ensures 0.0 <= x < 360.0 ==> r == x
    ensures 360.0 <= x < 720.0 ==> r == x - 360.0
  {
    var q := (x / 360.0).Floor;
    x - 360.0 * q as real
  }

  /** Python's `x % 180` on floats. */
  function Mod180(x: real): (r: real)
    ensures 0.0 <= r < 180.0
    ensures 0.0 <= x < 180.0 ==> r == x
    ensures 180.0 <= x < 360.0 ==> r == x - 180.0
  {
    var q := (x / 180.0).Floor;
    x - 180.0 * q as real
  }

  /**
    * `aboveeqh`: with the hour-angle motor on the near side (at most 90 or at
    * least 270), the declination motor is above the equator when below 90 or
    * above 270; on the far side, when strictly between 90 and 270.
    */
  predicate AboveEqh(hapos: real, decpos: real)
  {
    if hapos <= 90.0 || hapos >= 270.0 then decpos < 90.0 || decpos > 270.0
    else 90.0 < decpos < 270.0
  }

  /**
    * `quick360`: a move of more than half a turn is taken the other way
    * round. The result is the same angle, and for a move within a turn and a
    * half either way it is at most half a turn.
    */
  function Quick360(move: real): (r: real)
    ensures r == move || r == move - 360.0 || r == move + 360.0
    ensures -540.0 <= move <= 540.0 ==> -180.0 <= r <= 180.0
    ensures -180.0 <= move <= 180.0 ==> r == move
  {
    if move > 180.0 then move - 360.0
    else if move < -180.0 then move + 360.0
    else move
  }

  /** The place a pair of motor positions points at: hour angle `lh` and declination `dec`. */
  datatype SkyPlace = SkyPlace(lh: real, dec: real)

  /** A target for the two motors, as `motorPair` gives it. */
  datatype MotorPair = MotorPair(ramot: real, decmot: real)

  /**
    * The fold `getStateTicker` applies to the motor positions before it
    * reports them: a declination motor past the pole (over 90, up to 270)
    * points at 180 minus its angle on the other side of the meridian, so
    * the hour angle moves by half a turn; past 270 it is a negative
    * declination.
    */
  function FoldPair(p: MotorPair): (s: SkyPlace)
    ensures 0.0 <= p.decmot < 360.0 ==> -90.0 <= s.dec <= 90.0
    ensures s.lh == p.ramot || s.lh == Mod360(p.ramot + 180.0)
  {
    if p.decmot <= 90.0 then SkyPlace(p.ramot, p.decmot)
    else if p.decmot <= 270.0 then SkyPlace(Mod360(p.ramot + 180.0), 180.0 - p.decmot)
    else SkyPlace(p.ramot, p.decmot - 360.0)
  }

  /** Whether `_convertlocal` wants the declination motor above the equator: the hour angle is not strictly between 90 and 270. */
  predicate TargetAbove(hours: real)
  {
    !(90.0 < hours < 270.0)
  }

  /** The two declination motor angles `_convertlocal` tries for a declination, from `(dec + 90) % 180 - 90`. */
  function DecCandidates(dec: real): (ds: seq<real>)
    ensures |ds| == 2
  {
    var decwrap := Mod180(dec + 90.0) - 90.0;
    if dec >= 0.0 then [decwrap, 180.0 - decwrap] else [360.0 + decwrap, 180.0 - decwrap]
  }

  /** The two hour-angle motor angles `_convertlocal` tries: the hour angle and its opposite, both taken mod 360. */
  function RaCandidates(hours: real): (rs: seq<real>)
    ensures |rs| == 2 && forall i :: 0 <= i < 2 ==> 0.0 <= rs[i] < 360.0
  {
    [Mod360(hours), Mod360(hours + 180.0)]
  }

  /** The candidate pairs in the order `_convertlocal` tries them, hour-angle angle in the outer loop. */
  function Candidates(hours: real, dec: real): (cs: seq<MotorPair>)
    ensures |cs| == 4
  {
    var rs, ds := RaCandidates(hours), DecCandidates(dec);
    [MotorPair(rs[0], ds[0]), MotorPair(rs[0], ds[1]), MotorPair(rs[1], ds[0]), MotorPair(rs[1], ds[1])]
  }

  /** The candidates whose side of the equator agrees with the side the hour angle asks for. */
  function Agreeing(hours: real, cs: seq<MotorPair>): (r: seq<MotorPair>)
    ensures forall p :: p in r <==> p in cs && AboveEqh(p.ramot, p.decmot) == TargetAbove(hours)
    ensures |r| <= |cs|
  {
    if cs == [] then []
    else
      var last := cs[|cs| - 1];
      Agreeing(hours, cs[..|cs| - 1]) + if AboveEqh(last.ramot, last.decmot) == TargetAbove(hours) then [last] else []
  }

  /** The agreeing candidates of four, one by one. */
  lemma {:induction false} AgreeingFour(hours: real, cs: seq<MotorPair>)
    requires |cs| == 4
    ensures Agreeing(hours, cs) == Kept(hours, cs[0]) + Kept(hours, cs[1]) + Kept(hours, cs[2]) + Kept(hours, cs[3])
  {
    assert cs[..1][..0] == [];
    assert Agreeing(hours, cs[..1]) == Kept(hours, cs[0]);
    assert cs[..2][..1] == cs[..1];
    assert Agreeing(hours, cs[..2]) == Agreeing(hours, cs[..1]) + Kept(hours, cs[1]);
    assert cs[..3][..2] == cs[..2];
    assert Agreeing(hours, cs[..3]) == Agreeing(hours, cs[..2]) + Kept(hours, cs[2]);
    assert cs[..3] == cs[..|cs| - 1];
  }

  /** A candidate alone if it agrees, else nothing. */
  function Kept(hours: real, c: MotorPair): seq<MotorPair>
  {
    if AboveEqh(c.ramot, c.decmot) == TargetAbove(hours) then [c] else []
  }

  /**
    * `_convertlocal`: the motor positions that point at hour angle `hours`
    * and declination `dec`, tried by two nested loops over the hour-angle
    * and declination candidates and kept when their side of the equator
    * agrees with the hour angle's.
    */
  method ConvertLocal(hours: real, dec: real) returns (sols: seq<MotorPair>)
    ensures sols == Agreeing(hours, Candidates(hours, dec))
  {
    var targetAbove := !(90.0 < hours < 270.0);
    var decs := DecCandidates(dec);
    var rams := RaCandidates(hours);
    ghost var cs := Candidates(hours, dec);
    sols := [];
    for i := 0 to 2
      invariant sols == Agreeing(hours, cs[..2 * i])
    {
      for j := 0 to 2
        invariant sols == Agreeing(hours, cs[..2 * i + j])
      {
        CandidateAt(hours, dec, i, j);
        AgreeingSnoc(hours, cs, 2 * i + j);
        if AboveEqh(rams[i], decs[j]) == targetAbove {
          sols := sols + [MotorPair(rams[i], decs[j])];
        }
      }
    }
    assert cs[..4] == cs;
  }

  /** The candidate tried at hour-angle index `i` and declination index `j`. */
  lemma {:induction false} CandidateAt(hours: real, dec: real, i: int, j: int)
    requires 0 <= i < 2 && 0 <= j < 2
    ensures Candidates(hours, dec)[2 * i + j] == MotorPair(RaCandidates(hours)[i], DecCandidates(dec)[j])
  {
  }

  /** One more candidate either joins the agreeing ones or is dropped. */
  lemma {:induction false} AgreeingSnoc(hours: real, cs: seq<MotorPair>, k: int)
    requires 0 <= k < |cs|
    ensures Agreeing(hours, cs[..k + 1]) == Agreeing(hours, cs[..k]) + Kept(hours, cs[k])
  {
    assert cs[..k + 1][..k] == cs[..k];
  }

  /** The hour-angle motor angle half a turn from `h`. */
  lemma {:induction false} OppositeHour(h: real)
    requires 0.0 <= h < 360.0
    ensures Mod360(h + 180.0) == if h < 180.0 then h + 180.0 else h - 180.0
    ensures Mod360(Mod360(h + 180.0) + 180.0) == h
  {
  }

  /**
    * Away from the poles and from the two hour angles on the horizon of the
    * meridian flip (90 and 270), a place has exactly two motor positions:
    * the hour angle itself with the declination motor on the near side, and
    * the opposite hour angle with the declination motor past the pole; and
    * each of them folds back to the place asked for.
    */
  lemma {:induction false} ConvertLocalRoundTrip(hours: real, dec: real)
    requires 0.0 <= hours < 360.0 && hours != 90.0 && hours != 270.0
    requires -90.0 < dec < 90.0
    ensures var sols := Agreeing(hours, Candidates(hours, dec));
      |sols| == 2
      && sols[0] == MotorPair(hours, if dec >= 0.0 then dec else 360.0 + dec)
      && sols[1] == MotorPair(Mod360(hours + 180.0), 180.0 - dec)
      && forall i :: 0 <= i < 2 ==> FoldPair(sols[i]) == SkyPlace(hours, dec)
  {
    OppositeHour(hours);
    var near := MotorPair(hours, if dec >= 0.0 then dec else 360.0 + dec);
    var far := MotorPair(Mod360(hours + 180.0), 180.0 - dec);
    var cs := Candidates(hours, dec);
    if dec >= 0.0 {
      assert cs == [near, MotorPair(hours, 180.0 - dec), MotorPair(far.ramot, dec), far];
    } else {
      assert cs == [near, MotorPair(hours, 180.0 - dec), MotorPair(far.ramot, 360.0 + dec), far];
    }
    AgreeingFour(hours, cs);
  }

  /**
    * At the pole (declination 90) the `%` sends the declination to -90:
    * only one pair survives, and it points at the opposite pole. A goto to
    * it then fails on the missing second solution.
    */
  lemma {:induction false} PoleHasOneSolution()
    ensures Agreeing(0.0, Candidates(0.0, 90.0)) == [MotorPair(0.0, -90.0)]
    ensures FoldPair(MotorPair(0.0, -90.0)).dec == -90.0
  {
    var cs := Candidates(0.0, 90.0);
    assert cs == [MotorPair(0.0, -90.0), MotorPair(0.0, 270.0), MotorPair(180.0, -90.0), MotorPair(180.0, 270.0)];
    AgreeingFour(0.0, cs);
  }

  /** One motor as `_resolveLocationParams` sees it. */
  datatype MountMotor = MountMotor(mname: string, motmode: MotorMode)

  /** The mode names the motors report. */
  function ModeName(m: MotorMode): string
  {
    match m
    case IdleMode => "idle"
    case FastWave => "fastwave"
    case SlowStep => "slowstep"
  }

  /** A motor can take a new target only when stepping slowly or idle. */
  predicate CanMove(m: MountMotor)
  {
    m.motmode == SlowStep || m.motmode == IdleMode
  }

  /** The failure messages `_resolveLocationParams` collects, one per motor that cannot move, in motor order. */
  function Fails(ms: seq<MountMotor>): (fs: seq<string>)
    ensures |fs| <= |ms|
  {
    if ms == [] then []
    else Fails(ms[..|ms| - 1]) + (var m := ms[|ms| - 1]; if CanMove(m) then [] else [m.mname + " cannot goto from state " + ModeName(m.motmode)])
  }

  /** There is no failure message exactly when every motor can move. */
  lemma {:induction false} FailsEmpty(ms: seq<MountMotor>)
    ensures Fails(ms) == [] <==> forall i :: 0 <= i < |ms| ==> CanMove(ms[i])
  {
    if ms != [] {
      FailsEmpty(ms[..|ms| - 1]);
      assert forall i :: 0 <= i < |ms| - 1 ==> ms[..|ms| - 1][i] == ms[i];
    }
  }

  /**
    * `_resolveLocationParams`: the motors are checked in turn; any that
    * cannot move makes the request fail (`None`) with one message per such
    * motor; otherwise the target built from the request (`makeGeom`, a
    * parameter here) is returned.
    */
  method ResolveLocationParams<G>(motors: seq<MountMotor>, geom: G) returns (target: Option<G>, fails: seq<string>)
    ensures fails == Fails(motors)
    ensures target == if forall i :: 0 <= i < |motors| ==> CanMove(motors[i]) then Some(geom) else None
  {
    fails := [];
    for i := 0 to |motors|
      invariant fails == Fails(motors[..i])
    {
      assert motors[..i + 1][..i] == motors[..i];
      if !(motors[i].motmode in {SlowStep, IdleMode}) {
        fails := fails + [motors[i].mname + " cannot goto from state " + ModeName(motors[i].motmode)];
      }
    }
    assert motors[..|motors|] == motors;
    FailsEmpty(motors);
    if |fails| > 0 {
      return None, fails;
    }
    target := Some(geom);
  }

  /** One motor's part of a move definition: how long it takes, the signed move in degrees, the signed step count and the target angle. */
  datatype MotorMove = MotorMove(motor: string, time: real, move: real, steps: int, target: real)

  /** A move request for one motor, as `wavepulsemaker` takes it: the motor's fast defaults with direction and step count set. */
  datatype MoveParams = MoveParams(motor: string, forward: bool, totalSteps: int)

  /** The longest of the motors' move times. */
  function MoveTime(md: seq<MotorMove>): (t: real)
    ensures forall i :: 0 <= i < |md| ==> md[i].time <= t
    ensures md != [] ==> exists i :: 0 <= i < |md| && md[i].time == t
  {
    if md == [] then 0.0
    else
      var rest := MoveTime(md[1..]);
      assert forall i :: 1 <= i < |md| ==> md[i] == md[1..][i - 1];
      if md[1..] == [] || md[0].time >= rest then md[0].time else rest
  }

  /**
    * The choice between the two solutions of a local-equatorial target:
    * the first when its slower motor is strictly faster than the second's,
    * else the second. The choice is never slower than the other.
    */
  function ChooseMove(m1: seq<MotorMove>, m2: seq<MotorMove>): (r: seq<MotorMove>)
    ensures r == m1 || r == m2
    ensures MoveTime(r) <= MoveTime(m1) && MoveTime(r) <= MoveTime(m2)
  {
    if MoveTime(m1) < MoveTime(m2) then m1 else m2
  }

  /**
    * The move parameters `goto` builds: only motors moving more than 16
    * steps either way are asked to move, forward exactly when the move in
    * degrees is not negative.
    */
  function MoveParamsOf(md: seq<MotorMove>): (ps: seq<MoveParams>)
  {
    if md == [] then []
    else
      var rest := MoveParamsOf(md[1..]);
      var m := md[0];
      if m.steps > 16 || m.steps < -16 then [MoveParams(m.motor, m.move >= 0.0, m.steps)] + rest else rest
  }

  /** A motor is moved exactly when its step count is over 16 either way, with the direction and step count of its move. */
  lemma {:induction false} MoveParamsMeaning(md: seq<MotorMove>, p: MoveParams)
    ensures p in MoveParamsOf(md) <==>
      exists i :: 0 <= i < |md| && (md[i].steps > 16 || md[i].steps < -16) && p == MoveParams(md[i].motor, md[i].move >= 0.0, md[i].steps)
  {
    if md != [] {
      MoveParamsMeaning(md[1..], p);
      assert forall i :: 1 <= i < |md| ==> md[i] == md[1..][i - 1];
      if p in MoveParamsOf(md[1..]) {
        var i :| 0 <= i < |md[1..]| && (md[1..][i].steps > 16 || md[1..][i].steps < -16)
          && p == MoveParams(md[1..][i].motor, md[1..][i].move >= 0.0, md[1..][i].steps);
        assert md[i + 1] == md[1..][i];
      }
    }
  }

  /**
    * `gotoendtimes` after the loop of `goto`: an entry for exactly the
    * motors that move more than 16 steps, each `now` plus the move time of
    * one of that motor's moves.
    */
  ghost predicate EndTimes(md: seq<MotorMove>, now: real, endTimes: map<string, real>) {
    (forall n :: n in endTimes <==> exists i :: 0 <= i < |md| && md[i].motor == n && (md[i].steps > 16 || md[i].steps < -16))
    && (forall n :: n in endTimes ==>
      exists i :: 0 <= i < |md| && md[i].motor == n && (md[i].steps > 16 || md[i].steps < -16) && endTimes[n] == md[i].time + now)
  }

  /**
    * The loop of `goto` over a move definition: move parameters for the
    * motors that move more than 16 steps, and the time each of those is due
    * to finish, `now` plus its move time.
    */
  method GotoMoves(md: seq<MotorMove>, now: real) returns (ps: seq<MoveParams>, endTimes: map<string, real>)
    ensures ps == MoveParamsOf(md)
    ensures EndTimes(md, now, endTimes)
  {
    ps := [];
    endTimes := map[];
    for i := 0 to |md|
      invariant MoveParamsOf(md) == ps + MoveParamsOf(md[i..])
      invariant forall n :: n in endTimes <==> exists k :: 0 <= k < i && md[k].motor == n && (md[k].steps > 16 || md[k].steps < -16)
      invariant forall n :: n in endTimes ==>
        exists k :: 0 <= k < i && md[k].motor == n && (md[k].steps > 16 || md[k].steps < -16) && endTimes[n] == md[k].time + now
    {
      assert md[i..][1..] == md[i + 1..];
      var m := md[i];
      if m.steps > 16 || m.steps < -16 {
        ps := ps + [MoveParams(m.motor, m.move >= 0.0, m.steps)];
        endTimes := endTimes[m.motor := m.time + now];
      }
    }
    assert md[|md|..] == [];
  }

  /** A goto target: motor angles, or a place in the sky as hour angle and declination. */
  datatype Target = Motors(pair: MotorPair) | Local(hours: real, dec: real)

  /**
    * `goto` after the state check: the move definition comes from the
    * target (for a place in the sky, the faster of its two motor
    * solutions; `best` stands for `_bestmovetime`), and the moves are sent
    * to `wavepulsemaker` unless only a calculation was asked for or no
    * motor needs to move. A place with fewer than two solutions fails on
    * the missing one, before `gotoendtimes` (here `oldEnds`) is touched.
    * `now` stands for `time.time()`, and `ends` is the new `gotoendtimes`,
    * stored even when only a calculation was asked for.
    */
  method Goto(target: Target, best: MotorPair -> seq<MotorMove>, calcOnly: bool, now: real, oldEnds: map<string, real>)
    returns (r: Result<Option<seq<MoveParams>>>, ends: map<string, real>)
    ensures target.Motors? ==> r == Ok(var ps := MoveParamsOf(best(target.pair)); if ps != [] && !calcOnly then Some(ps) else None)
    ensures target.Motors? ==> EndTimes(best(target.pair), now, ends)
    ensures target.Local? ==> (r.Err? <==> |Agreeing(target.hours, Candidates(target.hours, target.dec))| < 2)
    ensures target.Local? && r.Ok? ==>
      var sols := Agreeing(target.hours, Candidates(target.hours, target.dec));
      var md := ChooseMove(best(sols[0]), best(sols[1]));
      r.value == (var ps := MoveParamsOf(md); if ps != [] && !calcOnly then Some(ps) else None) && EndTimes(md, now, ends)
    ensures r.Err? ==> ends == oldEnds
  {
    var md: seq<MotorMove>;
    if target.Motors? {
      md := best(target.pair);
    } else {
      var sols := ConvertLocal(target.hours, target.dec);
      if |sols| < 2 {
        return Err(IndexError), oldEnds;
      }
      var m1, m2 := best(sols[0]), best(sols[1]);
      md := if MoveTime(m1) < MoveTime(m2) then m1 else m2;
    }
    var ps;
    ps, ends := GotoMoves(md, now);
    if |ps| > 0 && !calcOnly {
      return Ok(Some(ps)), ends;
    }
    return Ok(None), ends;
  }
}
