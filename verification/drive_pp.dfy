/**
 * The pure-pursuit drive node: the path built from the generated trajectory,
 * the adaptive lookahead-radius search, the bearing and heading-error
 * arithmetic, the PID controller state and the differential wheel mapping.
 *
 * The module-level globals of the node (`pp.path`, `integrator`,
 * `last_error`, `last_time`) are the fields of one `Controller` object. The
 * live position and heading are inputs of `Controller.Tick`, the wall clock
 * is two time parameters and the lookahead query of the pure-pursuit object
 * is an oracle.
 */
module DrivePP {
  import opened Wrappers
  import opened RealMath
  import TrajectoryGen

  datatype Point = Point(x: real, y: real)

  /** Wheel angular rates in rad/s, as published on the motors topic. */
  datatype WheelCommand = WheelCommand(left: real, right: real)

  /** The controller state carried from one tick to the next. */
  datatype PidState = PidState(integrator: real, lastError: real, lastTime: real)

  /** The pure-pursuit lookahead query: given the path, the vehicle position and
      a search radius, a point of the path at that radius, or none. */
  type Lookahead = (seq<Point>, Point, real) -> Option<Point>

  const Kp: real := 0.001
  const Ki: real := 0.00001
  const Kd: real := 0.0001
  const MaxP: real := 0.25
  const DrivePower: real := 1.5
  const WheelRadius: real := 0.0635
  const MinTimeDiff: real := 0.001

  const BaseRadius: real := 3.0
  const RadiusGrowth: real := 1.25
  const MaxRadius: real := 6.0
  /** How many radii of the geometric search are within `MaxRadius`. */
  const MaxTries: nat := 4

  // ---------------------------------------------------------------------------
  // Heading arithmetic

  /** The compass heading published for an IMU yaw: `360 - degrees(yaw)`.
      Up to whole turns it is the yaw negated, so the extra 360 never
      changes a wrapped heading error. */
  function HeadingFromYaw(m: Math, yaw: real): (heading: real)
    ensures Wrap(heading) == Wrap(-m.degrees(yaw))
  {
    WrapPeriodic(-m.degrees(yaw));
    360.0 - m.degrees(yaw)
  }

  /** The heading error against a published heading: the extra 360 drops
      out, so the wrapped error is the one against the negated yaw. */
  lemma YawHeadingError(m: Math, yaw: real, b: real)
    ensures Wrap(b - HeadingFromYaw(m, yaw)) == Wrap(b + m.degrees(yaw))
  {
    assert b - HeadingFromYaw(m, yaw) == (b + m.degrees(yaw)) - 360.0;
    WrapPeriodic(b + m.degrees(yaw) - 360.0);
  }

  /** Bearing normalisation: a non-positive angle is moved up by one turn. */
  function NormalizeBearing(a: real): (b: real)
    ensures -180.0 < a <= 180.0 ==> 0.0 < b <= 360.0
    ensures IsInteger((b - a) / 360.0)
    ensures a > 0.0 ==> b == a
  {
    assert (a + 360.0 - a) / 360.0 == 1.0;
    if a <= 0.0 then a + 360.0 else a
  }

  /** The bearing in degrees from the vehicle to the lookahead point. */
  function DesiredBearing(m: Math, pos: Point, target: Point): (b: real)
    ensures Lawful(m) ==> 0.0 < b <= 360.0
  {
    NormalizeBearing(m.degrees(m.atan2(target.y - pos.y, target.x - pos.x)))
  }

  /** The heading error wrapped by `(delta + 180) % 360 - 180`, with Python's
      floored modulus: it lands in [-180, 180) and differs from `delta` by
      whole turns. */
  function Wrap(delta: real): (r: real)
    ensures -180.0 <= r < 180.0
    ensures IsInteger((r - delta) / 360.0)
  {
    var a := delta + 180.0;
    var r := FloorMod(a, 360.0) - 180.0;
    assert r - delta == FloorMod(a, 360.0) - a;
    r
  }

  /** `Wrap(delta)` is the only value in [-180, 180) that differs from `delta`
      by whole turns. */
  lemma {:induction false} WrapUnique(delta: real, r: real)
    requires -180.0 <= r < 180.0
    requires IsInteger((r - delta) / 360.0)
    ensures r == Wrap(delta)
  {
    var w := Wrap(delta);
    var k1 := ((w - delta) / 360.0).Floor;
    var k2 := ((r - delta) / 360.0).Floor;
    assert w == delta + 360.0 * k1 as real;
    assert r == delta + 360.0 * k2 as real;
    assert r - w == 360.0 * (k2 - k1) as real;
    assert -1 < k2 - k1 < 1;
  }

  /** Adding one full turn does not change the wrapped error. */
  lemma WrapPeriodic(delta: real)
    ensures Wrap(delta + 360.0) == Wrap(delta)
  {
    var w := Wrap(delta + 360.0);
    var k := ((w - (delta + 360.0)) / 360.0).Floor;
    assert (w - delta) / 360.0 == (k + 1) as real;
    WrapUnique(delta, w);
  }

  /** The error between the bearing to the lookahead point and the heading. */
  function HeadingError(m: Math, pos: Point, target: Point, heading: real): (error: real)
    ensures -180.0 <= error < 180.0
    ensures IsInteger((error - (DesiredBearing(m, pos, target) - heading)) / 360.0)
  {
    Wrap(DesiredBearing(m, pos, target) - heading)
  }

  // ---------------------------------------------------------------------------
  // PID controller

  /** The elapsed time since the previous tick, floored at 1 ms. */
  function TimeDiff(lastTime: real, now: real): (dt: real)
    ensures dt >= MinTimeDiff
    ensures dt >= now - lastTime
    ensures dt == now - lastTime || dt == MinTimeDiff
  {
    Max(now - lastTime, MinTimeDiff)
  }

  /** The proportional term with the source's cap. The cap multiplies `P` by
      `MaxP / P`, so a capped term is `+MaxP` whatever the sign of the error. */
  function ClampP(error: real): (p: real)
    ensures -MaxP <= p <= MaxP
    ensures Abs(Kp * error) > MaxP ==> p == MaxP
    ensures Abs(Kp * error) <= MaxP ==> p == Kp * error
  {
    var p := Kp * error;
    if Abs(p) > MaxP then p * (MaxP / p) else p
  }

  /** The controller state after one tick with error `error`: the integrator
      accumulates `error * dt` with no anti-windup, the error and the clock
      reading are kept for the next tick. */
  function PidStep(s: PidState, error: real, now: real, later: real): (s': PidState)
    ensures s'.lastError == error && s'.lastTime == later
    ensures s'.integrator - s.integrator == error * TimeDiff(s.lastTime, now)
  {
    PidState(s.integrator + error * TimeDiff(s.lastTime, now), error, later)
  }

  /** The controller state after a run of ticks that all see the same error,
      tick `k` reading the clock at `clock[k].0` and keeping `clock[k].1`. */
  function PidRun(s: PidState, error: real, clock: seq<(real, real)>): (s': PidState)
    decreases |clock|
    ensures |clock| > 0 ==> s'.lastError == error && s'.lastTime == clock[|clock| - 1].1
    ensures |clock| == 0 ==> s' == s
  {
    if |clock| == 0 then s else PidRun(PidStep(s, error, clock[0].0, clock[0].1), error, clock[1..])
  }

  /** No anti-windup: a steady error of one sign moves the integrator by at
      least `error * 1 ms` per tick in that direction, without bound. */
  lemma {:induction false} IntegratorWindup(s: PidState, error: real, clock: seq<(real, real)>)
    decreases |clock|
    ensures error >= 0.0 ==>
              PidRun(s, error, clock).integrator >= s.integrator + |clock| as real * error * MinTimeDiff
    ensures error <= 0.0 ==>
              PidRun(s, error, clock).integrator <= s.integrator + |clock| as real * error * MinTimeDiff
  {
    if |clock| > 0 {
      var s1 := PidStep(s, error, clock[0].0, clock[0].1);
      var dt := TimeDiff(s.lastTime, clock[0].0);
      IntegratorWindup(s1, error, clock[1..]);
      assert error * dt - error * MinTimeDiff == error * (dt - MinTimeDiff);
      if error >= 0.0 {
        MulNonneg(error, dt - MinTimeDiff);
      } else {
        MulNonneg(-error, dt - MinTimeDiff);
      }
      MulSucc(|clock| - 1, error * MinTimeDiff);
    }
  }

  /** The turn power of one tick: the capped P term, the I term on the updated
      integrator and the D term on the error slope. */
  function TurnPower(s: PidState, error: real, now: real): real
  {
    var dt := TimeDiff(s.lastTime, now);
    var slope := (error - s.lastError) / dt;
    ClampP(error) + Ki * (s.integrator + error * dt) + Kd * slope
  }

  /** Differential drive: the common drive power and the turn power become
      left and right wheel rates; both are recovered from the rates. */
  function WheelRates(drive: real, turn: real): (c: WheelCommand)
    ensures (c.left + c.right) / 2.0 * WheelRadius == drive
    ensures (c.right - c.left) / 2.0 * WheelRadius == turn
  {
    WheelCommand((drive - turn) / WheelRadius, (drive + turn) / WheelRadius)
  }

  // ---------------------------------------------------------------------------
  // Lookahead search

  /** The k-th radius tried: 3 m, grown by a factor 1.25 per retry. */
  function SearchRadius(k: nat): (r: real)
    ensures r >= BaseRadius
    ensures k == 0 ==> r == 3.0
    ensures k == 1 ==> r == 3.75
    ensures k == 2 ==> r == 4.6875
    ensures k == 3 ==> r == 5.859375
  {
    if k == 0 then BaseRadius else SearchRadius(k - 1) * RadiusGrowth
  }

  /** Exactly the first `MaxTries` radii (3, 3.75, 4.6875 and 5.859375) are
      within the 6 m bound. */
  lemma {:induction false} RadiusWithinBound(k: nat)
    ensures SearchRadius(k) <= MaxRadius <==> k < MaxTries
  {
    if k > MaxTries {
      RadiusWithinBound(k - 1);
    } else {
      assert SearchRadius(3) == 5.859375;
    }
  }

  /** The query at the `j`-th radius of the search. */
  function Probe(la: Lookahead, path: seq<Point>, pos: Point, j: nat): Option<Point>
  {
    la(path, pos, SearchRadius(j))
  }

  /** The first point the search finds from radius index `k` on, if any. */
  function FirstLookahead(la: Lookahead, path: seq<Point>, pos: Point, k: nat): (r: Option<Point>)
    requires k <= MaxTries
    decreases MaxTries - k
    ensures r.None? <==> forall j :: k <= j < MaxTries ==> Probe(la, path, pos, j).None?
    ensures r.Some? ==> exists j :: k <= j < MaxTries && r == Probe(la, path, pos, j)
  {
    if k == MaxTries then None
    else
      var hit := Probe(la, path, pos, k);
      if hit.Some? then hit else FirstLookahead(la, path, pos, k + 1)
  }

  /** Skipping radii that find nothing does not change the search result. */
  lemma {:induction false} FirstLookaheadSkip(la: Lookahead, path: seq<Point>, pos: Point, k: nat, c: nat)
    requires k <= c <= MaxTries
    requires forall j :: k <= j < c ==> Probe(la, path, pos, j).None?
    ensures FirstLookahead(la, path, pos, k) == FirstLookahead(la, path, pos, c)
    decreases c - k
  {
    if k < c {
      FirstLookaheadSkip(la, path, pos, k + 1, c);
    }
  }

  /** The retry loop of the drive node: query at growing radii until a point
      is found or the radius passes 6 m. `calls` is the number of queries. */
  method FindLookahead(la: Lookahead, path: seq<Point>, pos: Point) returns (found: Option<Point>, calls: nat)
    ensures 1 <= calls <= MaxTries
    ensures found == Probe(la, path, pos, calls - 1)
    ensures forall j :: 0 <= j < calls - 1 ==> Probe(la, path, pos, j).None?
    ensures found.None? ==> calls == MaxTries
    ensures found == FirstLookahead(la, path, pos, 0)
  {
    found := None;
    var radius := BaseRadius;
    calls := 0;
    while found.None? && radius <= MaxRadius
      invariant calls <= MaxTries
      invariant radius == SearchRadius(calls)
      invariant calls == 0 ==> found.None?
      invariant calls > 0 ==> found == Probe(la, path, pos, calls - 1)
      invariant forall j :: 0 <= j < calls - 1 ==> Probe(la, path, pos, j).None?
      decreases MaxTries - calls
    {
      RadiusWithinBound(calls);
      found := la(path, pos, radius);
      radius := radius * RadiusGrowth;
      calls := calls + 1;
    }
    RadiusWithinBound(calls);
    FirstLookaheadSkip(la, path, pos, 0, calls - 1);
  }

  // ---------------------------------------------------------------------------
  // The controller object

  class Controller {
    /** The pure-pursuit path. */
    var path: seq<Point>
    var integrator: real
    var lastError: real
    var lastTime: real

    function State(): PidState
      reads this
    {
      PidState(integrator, lastError, lastTime)
    }

    /** The node at start-up: an empty path, a zero integrator and error, and
        the clock reading taken when the module is loaded. */
    constructor (startTime: real)
      ensures path == []
      ensures State() == PidState(0.0, 0.0, startTime)
    {
      path := [];
      integrator, lastError, lastTime := 0.0, 0.0, startTime;
    }

    /** Rebuild the path from the trajectory rows: one point per row, its
        `(x, y)` columns, in row order. */
    method GeneratePursuitPath(instructions: seq<TrajectoryGen.TrajectoryPoint>)
      modifies this`path
      ensures |path| == |instructions|
      ensures forall i :: 0 <= i < |instructions| ==>
                path[i] == Point(instructions[i].x, instructions[i].y)
    {
      path := [];
      var i := 0;
      while i < |instructions|
        invariant 0 <= i <= |instructions|
        invariant |path| == i
        invariant forall j :: 0 <= j < i ==> path[j] == Point(instructions[j].x, instructions[j].y)
      {
        path := path + [Point(instructions[i].x, instructions[i].y)];
        i := i + 1;
      }
    }

    /** The PID part of a tick that found a lookahead point: the heading error
        towards `target`, the integrator, slope and turn power, and the new
        error and clock reading. */
    method Steer(cur: Point, target: Point, heading: real, now: real, later: real, m: Math)
      returns (turnPower: real)
      modifies this`integrator, this`lastError, this`lastTime
      ensures State() == PidStep(old(State()), HeadingError(m, cur, target, heading), now, later)
      ensures turnPower == TurnPower(old(State()), HeadingError(m, cur, target, heading), now)
    {
      var headingToLa := NormalizeBearing(m.degrees(m.atan2(target.y - cur.y, target.x - cur.x)));
      var delta := Wrap(headingToLa - heading);
      var error := delta;
      var timeDiff := TimeDiff(lastTime, now);
      integrator := integrator + error * timeDiff;
      var slope := (error - lastError) / timeDiff;
      var p := ClampP(error);
      var i := Ki * integrator;
      var d := Kd * slope;
      turnPower := p + i + d;
      lastError := error;
      lastTime := later;
    }

    /** One control tick. Without a position or a heading, or when no radius
        finds a lookahead point, nothing changes and no command is produced.
        Otherwise the PID state advances by one step and a wheel command is
        produced. `now` and `later` are the two clock readings of the tick. */
    method Tick(pos: Option<Point>, heading: Option<real>, now: real, later: real, la: Lookahead, m: Math)
      returns (cmd: Option<WheelCommand>)
      modifies this`integrator, this`lastError, this`lastTime
      ensures pos.None? || heading.None? || FirstLookahead(la, path, pos.value, 0).None? ==>
                cmd.None? && State() == old(State())
      ensures pos.Some? && heading.Some? && FirstLookahead(la, path, pos.value, 0).Some? ==>
                var error := HeadingError(m, pos.value, FirstLookahead(la, path, pos.value, 0).value, heading.value);
                && State() == PidStep(old(State()), error, now, later)
                && cmd == Some(WheelRates(DrivePower, TurnPower(old(State()), error, now)))
    {
      cmd := None;
      if pos.None? || heading.None? {
        return;
      }
      var lookahead, _ := FindLookahead(la, path, pos.value);
      if lookahead.Some? {
        var turnPower := Steer(pos.value, lookahead.value, heading.value, now, later, m);
        cmd := Some(WheelRates(DrivePower, turnPower));
      }
    }
  }
}
