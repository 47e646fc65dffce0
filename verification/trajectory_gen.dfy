/**
 * The offline trajectory generator: it walks the ordered waypoint list and
 * stitches straight-line and turn segments into one list of time-stamped
 * trajectory points.
 *
 * The module-level list `traj_pts` of the generator is the field `pts` of a
 * `TrajectoryBuilder`. Each operation is a method that appends to it, proved
 * against a function that gives the points it appends (or the reason it
 * appends none); the properties are stated on those functions.
 *
 * Python exceptions raised by the source before a segment appends anything
 * (a division by zero, `traj_pts[-1]` of an empty list) are the `Fault`s
 * `ZeroDivision` and `NoPreviousPoint`; like the source's -1 they stop the
 * generation and leave the points already appended in place.
 */
module TrajectoryGen {
  import opened Wrappers
  import opened Stitching
  import opened RealMath

  /** The `type` field of a waypoint. */
  datatype Kind = Start | Straight | TurnEnd | EndPt

  datatype Waypoint = Waypoint(id: int, x: real, y: real, heading: real, speed: real, kind: Kind)

  /** The robot limits `max_speed`, `max_accel` and the turn step `hdg_eps`. */
  datatype Config = Config(maxSpeed: real, maxAccel: real, hdgEps: real)

  datatype TrajectoryPoint = TrajectoryPoint(t: real, x: real, y: real, vel: real, accel: real, hdg: real)

  /** Why a segment appended nothing: the overshoot error of a straight line,
      or an exception of the source. */
  datatype Fault = Unreachable(fromId: int, toId: int) | ZeroDivision | NoPreviousPoint

  /** The source's `0` / `-1` segment results, with the reason for `-1`. */
  type Status = Outcome<Fault>

  datatype SegmentKind = LineSegment | TurnSegment

  // ---------------------------------------------------------------------------
  // Shared quantities

  predicate IsStraightLine(curKind: Kind, nextKind: Kind)
  {
    curKind == TurnEnd || nextKind == EndPt
  }

  /** The time the next segment starts: 0 for an empty list, else the time of
      the last point. */
  function StartTime(prev: seq<TrajectoryPoint>): (t0: real)
    ensures |prev| == 0 ==> t0 == 0.0
    ensures |prev| > 0 ==> t0 == prev[|prev| - 1].t
  {
    if |prev| == 0 then 0.0 else prev[|prev| - 1].t
  }

  /** A waypoint speed capped by the robot's maximum speed. */
  function ClampedSpeed(cfg: Config, w: Waypoint): (v: real)
    ensures v <= cfg.maxSpeed && v <= w.speed
    ensures v == w.speed || v == cfg.maxSpeed
  {
    Min(w.speed, cfg.maxSpeed)
  }

  function Distance(m: Math, x1: real, y1: real, x2: real, y2: real): real
  {
    m.sqrt((x1 - x2) * (x1 - x2) + (y1 - y2) * (y1 - y2))
  }

  /** The position `dist` from `(x, y)` along the heading `h` (in degrees). */
  function Advance(m: Math, x: real, y: real, h: real, dist: real): (real, real)
  {
    (x + dist * m.cos(m.radians(h)), y + dist * m.sin(m.radians(h)))
  }

  // ---------------------------------------------------------------------------
  // Straight lines

  /** The distance covered while ramping from the current to the next speed. */
  function RampDistance(cfg: Config, cur: Waypoint, next: Waypoint): real
    requires cfg.maxAccel != 0.0
  {
    var curVel := ClampedSpeed(cfg, cur);
    var tCruise := (ClampedSpeed(cfg, next) - curVel) / cfg.maxAccel;
    curVel * tCruise + 0.5 * cfg.maxAccel * tCruise * tCruise
  }

  /** The start of a straight line: `cur`, or the last point when `cur` ends
      a turn. */
  function LineStart(prev: seq<TrajectoryPoint>, cur: Waypoint): (start: (real, real))
    requires cur.kind == TurnEnd ==> |prev| > 0
    ensures cur.kind == TurnEnd ==> start == (Last(prev).x, Last(prev).y)
    ensures cur.kind != TurnEnd ==> start == (cur.x, cur.y)
  {
    if cur.kind == TurnEnd then (prev[|prev| - 1].x, prev[|prev| - 1].y) else (cur.x, cur.y)
  }

  /** The points a straight line from `cur` to `next` appends after `prev`, or
      why it appends none: `cur` ends a turn but there is no point yet, a zero
      acceleration limit, a ramp to the next speed longer than the line, or a
      zero next speed. */
  function StraightLine(cfg: Config, m: Math, prev: seq<TrajectoryPoint>, cur: Waypoint, next: Waypoint)
    : (r: Result<seq<TrajectoryPoint>, Fault>)
    ensures cur.kind == TurnEnd && prev == [] ==> r == Failure(NoPreviousPoint)
    ensures cfg.maxAccel == 0.0 && !(cur.kind == TurnEnd && prev == []) ==> r == Failure(ZeroDivision)
    ensures r.Failure? && r.error.Unreachable? ==>
              && r.error == Unreachable(cur.id, next.id) && cfg.maxAccel != 0.0
              && Distance(m, LineStart(prev, cur).0, LineStart(prev, cur).1, next.x, next.y)
                   < RampDistance(cfg, cur, next)
    ensures !(cur.kind == TurnEnd && prev == []) && cfg.maxAccel != 0.0
            && Distance(m, LineStart(prev, cur).0, LineStart(prev, cur).1, next.x, next.y)
                 < RampDistance(cfg, cur, next)
            ==> r == Failure(Unreachable(cur.id, next.id))
    ensures r.Success? ==> |r.value| == 3
    ensures r.Success? <==>
              && !(cur.kind == TurnEnd && prev == []) && cfg.maxAccel != 0.0
              && Distance(m, LineStart(prev, cur).0, LineStart(prev, cur).1, next.x, next.y)
                   >= RampDistance(cfg, cur, next)
              && ClampedSpeed(cfg, next) != 0.0
    ensures r == Failure(ZeroDivision) ==> cfg.maxAccel == 0.0 || ClampedSpeed(cfg, next) == 0.0
    ensures r == Failure(NoPreviousPoint) ==> cur.kind == TurnEnd && prev == []
  {
    if cur.kind == TurnEnd && |prev| == 0 then Failure(NoPreviousPoint)
    else
      var (x1, y1) := LineStart(prev, cur);
      var hdg := cur.heading;
      var dist := Distance(m, x1, y1, next.x, next.y);
      var curVel := ClampedSpeed(cfg, cur);
      var nextVel := ClampedSpeed(cfg, next);
      var t0 := StartTime(prev);
      if cfg.maxAccel == 0.0 then Failure(ZeroDivision)
      else
        var tCruise := (nextVel - curVel) / cfg.maxAccel;
        var distAtCruise := RampDistance(cfg, cur, next);
        var distRemain := dist - distAtCruise;
        if distRemain < 0.0 then Failure(Unreachable(cur.id, next.id))
        else
          var (xCruise, yCruise) := Advance(m, x1, y1, hdg, distAtCruise);
          if nextVel == 0.0 then Failure(ZeroDivision)
          else
            var tf := distRemain / nextVel;
            Success([TrajectoryPoint(t0, x1, y1, curVel, cfg.maxAccel, hdg),
                     TrajectoryPoint(t0 + tCruise, xCruise, yCruise, nextVel, 0.0, hdg),
                     TrajectoryPoint(t0 + tf, next.x, next.y, nextVel, 0.0, hdg)])
  }

  /** The three points of a successful straight line. The ramp start is at
      the line's start, at the start time, with the current capped speed and
      the full acceleration. The ramp end is the ramp distance along the
      waypoint heading, `(v_next - v_cur) / a` later, at the next capped speed.
      The goal is exactly `next`, stamped with the remaining distance over the
      next speed after the start time. All points keep the heading of `cur`
      and stay within the speed limit. */
  lemma StraightLinePoints(cfg: Config, m: Math, prev: seq<TrajectoryPoint>, cur: Waypoint, next: Waypoint)
    requires StraightLine(cfg, m, prev, cur, next).Success?
    ensures var r := StraightLine(cfg, m, prev, cur, next).value;
            && r[0].x == LineStart(prev, cur).0 && r[0].y == LineStart(prev, cur).1
            && r[0].t == StartTime(prev) && r[0].vel == ClampedSpeed(cfg, cur) && r[0].accel == cfg.maxAccel
    ensures var r := StraightLine(cfg, m, prev, cur, next).value;
            && r[1].t == r[0].t + (r[1].vel - r[0].vel) / cfg.maxAccel
            && r[1].vel == ClampedSpeed(cfg, next) && r[1].accel == 0.0
            && r[1].x == r[0].x + RampDistance(cfg, cur, next) * m.cos(m.radians(cur.heading))
            && r[1].y == r[0].y + RampDistance(cfg, cur, next) * m.sin(m.radians(cur.heading))
    ensures var r := StraightLine(cfg, m, prev, cur, next).value;
            && r[2].x == next.x && r[2].y == next.y
            && r[2].vel == ClampedSpeed(cfg, next) && r[2].accel == 0.0
            && r[2].t == r[0].t + (Distance(m, r[0].x, r[0].y, next.x, next.y) - RampDistance(cfg, cur, next)) / r[2].vel
    ensures forall p :: p in StraightLine(cfg, m, prev, cur, next).value ==> p.vel <= cfg.maxSpeed && p.hdg == cur.heading
  {
  }

  /** With a positive acceleration limit, the ramp end is stamped before the
      ramp start exactly when the robot slows down. */
  lemma RampEndOrder(cfg: Config, m: Math, prev: seq<TrajectoryPoint>, cur: Waypoint, next: Waypoint)
    requires StraightLine(cfg, m, prev, cur, next).Success?
    requires cfg.maxAccel > 0.0
    ensures var r := StraightLine(cfg, m, prev, cur, next).value;
            r[1].t < r[0].t <==> ClampedSpeed(cfg, next) < ClampedSpeed(cfg, cur)
  {
    SlowerIffNegative(ClampedSpeed(cfg, next) - ClampedSpeed(cfg, cur), cfg.maxAccel);
  }

  lemma SlowerIffNegative(dv: real, a: real)
    requires a != 0.0
    ensures a > 0.0 ==> (dv / a < 0.0 <==> dv < 0.0)
  {
  }

  /** The goal time is `t0 + remaining / v`: it leaves out the ramp time, so
      it can come before the ramp end. Here, 2 m from rest at 1 m/s to 2 m/s
      with 1 m/s^2: the ramp ends at t = 1 and the goal is stamped t = 0.25. */
  lemma GoalBeforeRampEnd(m: Math)
    requires m.sqrt(4.0) == 2.0
    ensures var r := StraightLine(Config(2.0, 1.0, 5.0), m, [],
                                  Waypoint(1, 0.0, 0.0, 0.0, 1.0, Start),
                                  Waypoint(2, 2.0, 0.0, 0.0, 2.0, EndPt));
            r.Success? && r.value[1].t == 1.0 && r.value[2].t == 0.25
  {
    var cfg := Config(2.0, 1.0, 5.0);
    var cur := Waypoint(1, 0.0, 0.0, 0.0, 1.0, Start);
    var next := Waypoint(2, 2.0, 0.0, 0.0, 2.0, EndPt);
    assert Distance(m, 0.0, 0.0, 2.0, 0.0) == 2.0;
    assert RampDistance(cfg, cur, next) == 1.5;
  }

  // ---------------------------------------------------------------------------
  // Turns

  /** The heading step, with the sign of the heading change. */
  function SignedStep(hdgEps: real, hdgDiff: real): (eps: real)
    ensures Abs(eps) == Abs(hdgEps)
    ensures hdgEps > 0.0 ==> (eps < 0.0 <==> hdgDiff < 0.0)
  {
    if hdgDiff < 0.0 then -hdgEps else hdgEps
  }

  /** The number of turn points: `floor(hdg_diff / eps) + 1` with the signed
      step. For a positive step it is at least one, and the total heading
      change `n * hdg_eps` passes the requested change by more than nothing
      and at most one step. */
  function TurnSteps(hdgDiff: real, hdgEps: real): (n: int)
    requires hdgEps != 0.0
    ensures hdgEps > 0.0 ==> n >= 1
    ensures hdgEps > 0.0 ==> Abs(hdgDiff) < n as real * hdgEps <= Abs(hdgDiff) + hdgEps
  {
    var eps := SignedStep(hdgEps, hdgDiff);
    var n := (hdgDiff / eps).Floor + 1;
    assert hdgEps > 0.0 ==> Abs(hdgDiff) < n as real * hdgEps <= Abs(hdgDiff) + hdgEps by {
      if hdgEps > 0.0 {
        assert hdgDiff / eps == Abs(hdgDiff) / hdgEps;
        FloorBounds(Abs(hdgDiff), hdgEps);
        assert n as real * hdgEps == (Abs(hdgDiff) / hdgEps).Floor as real * hdgEps + hdgEps;
      }
    }
    n
  }

  /** The time stamp of the j-th turn point (counting from 0) of `n`. */
  function TurnTime(t0: real, tf: real, n: nat, j: int): real
    requires n > 0
  {
    (j + 1) as real * (tf - t0) / n as real + t0
  }

  /** The last turn point is stamped `tf`, and the stamps rise strictly when
      `tf > t0` (and never fall when `tf >= t0`). */
  lemma {:induction false} TurnTimes(t0: real, tf: real, n: nat, i: int, j: int)
    requires n > 0
    ensures TurnTime(t0, tf, n, n - 1) == tf
    ensures tf > t0 && i < j ==> TurnTime(t0, tf, n, i) < TurnTime(t0, tf, n, j)
    ensures tf >= t0 && i <= j ==> TurnTime(t0, tf, n, i) <= TurnTime(t0, tf, n, j)
    ensures tf >= t0 && 0 <= i ==> t0 <= TurnTime(t0, tf, n, i)
  {
    var d := (tf - t0) / n as real;
    assert n as real * d == tf - t0;
    var ti, tj := TurnTime(t0, tf, n, i), TurnTime(t0, tf, n, j);
    MulDiv((i + 1) as real, tf - t0, n as real);
    MulDiv((j + 1) as real, tf - t0, n as real);
    assert ti == (i + 1) as real * d + t0;
    assert tj == (j + 1) as real * d + t0;
    if tf > t0 && i < j {
      assert d > 0.0;
      MulLess((i + 1) as real, (j + 1) as real, d);
    }
    if tf >= t0 && i <= j {
      assert d >= 0.0;
      MulNonneg((j - i) as real, d);
      assert tj - ti == (j - i) as real * d;
    }
    if tf >= t0 && 0 <= i {
      assert d >= 0.0;
      MulNonneg((i + 1) as real, d);
    }
  }

  /** Consecutive turn points are one chord apart along the heading of the
      later one. */
  predicate ArcStepAt(m: Math, segLen: real, r: seq<TrajectoryPoint>, k: int)
    requires 0 < k < |r|
  {
    && r[k].x == r[k - 1].x + segLen * m.cos(m.radians(r[k].hdg))
    && r[k].y == r[k - 1].y + segLen * m.sin(m.radians(r[k].hdg))
  }

  /** The walk of the turn: the first point is one chord from `(x, y)` and
      each later one is one chord from the one before it, each along its own
      heading. */
  predicate ChordWalk(m: Math, segLen: real, r: seq<TrajectoryPoint>, x: real, y: real)
  {
    && (|r| > 0 ==>
          && r[0].x == x + segLen * m.cos(m.radians(r[0].hdg))
          && r[0].y == y + segLen * m.sin(m.radians(r[0].hdg)))
    && forall k :: 0 < k < |r| ==> ArcStepAt(m, segLen, r, k)
  }

  /** The k-th point (from 0) has turned by `k + 1` steps of `eps` from `hdg`. */
  predicate TurnHeadings(r: seq<TrajectoryPoint>, hdg: real, eps: real)
  {
    forall k :: 0 <= k < |r| ==> r[k].hdg == hdg + (k + 1) as real * eps
  }

  /** Every point moves at `vel` with no acceleration. */
  predicate SteadySpeed(r: seq<TrajectoryPoint>, vel: real)
  {
    forall k :: 0 <= k < |r| ==> r[k].vel == vel && r[k].accel == 0.0
  }

  /** The k-th point (from 0) is the `(i + k)`-th of the `n` turn stamps. */
  predicate TurnStamps(r: seq<TrajectoryPoint>, t0: real, tf: real, n: nat, i: nat)
  {
    forall k :: 0 <= k < |r| ==> i + k < n && r[k].t == TurnTime(t0, tf, n, i + k)
  }

  /** No stamp precedes `t0` and no stamp is earlier than one before it. */
  predicate StampsFrom(r: seq<TrajectoryPoint>, t0: real)
  {
    forall j, k :: 0 <= j <= k < |r| ==> t0 <= r[j].t <= r[k].t
  }

  /** The stamps rise strictly. */
  predicate StampsRise(r: seq<TrajectoryPoint>)
  {
    forall j, k :: 0 <= j < k < |r| ==> r[j].t < r[k].t
  }

  /** The turn points `i .. n-1`, starting from position `(x, y)` and heading
      `hdg`: each step turns by `eps`, advances one chord of length `segLen`
      along the new heading and is stamped `TurnTime`. */
  function ArcPoints(m: Math, x: real, y: real, hdg: real, eps: real, segLen: real, vel: real,
                     t0: real, tf: real, i: nat, n: nat): (r: seq<TrajectoryPoint>)
    decreases n - i
    ensures |r| == if i < n then n - i else 0
  {
    if i >= n then []
    else
      var h := hdg + eps;
      var (nx, ny) := Advance(m, x, y, h, segLen);
      [TrajectoryPoint(TurnTime(t0, tf, n, i), nx, ny, vel, 0.0, h)] + ArcPoints(m, nx, ny, h, eps, segLen, vel, t0, tf, i + 1, n)
  }

  /** One step of the turn: the first point turns by `eps` and advances one
      chord along the new heading, and the rest of the turn continues from it. */
  lemma ArcPointsStep(m: Math, x: real, y: real, hdg: real, eps: real, segLen: real, vel: real,
                      t0: real, tf: real, i: nat, n: nat)
    requires i < n
    ensures var (nx, ny) := Advance(m, x, y, hdg + eps, segLen);
            ArcPoints(m, x, y, hdg, eps, segLen, vel, t0, tf, i, n) ==
              [TrajectoryPoint(TurnTime(t0, tf, n, i), nx, ny, vel, 0.0, hdg + eps)] +
              ArcPoints(m, nx, ny, hdg + eps, eps, segLen, vel, t0, tf, i + 1, n)
  {
  }

  /** The headings of the turn points advance by `eps` per point. */
  lemma {:induction false} ArcPointsHeadings(m: Math, x: real, y: real, hdg: real, eps: real, segLen: real, vel: real,
                                             t0: real, tf: real, i: nat, n: nat)
    decreases n - i
    ensures TurnHeadings(ArcPoints(m, x, y, hdg, eps, segLen, vel, t0, tf, i, n), hdg, eps)
  {
    var r := ArcPoints(m, x, y, hdg, eps, segLen, vel, t0, tf, i, n);
    if i < n {
      var h := hdg + eps;
      var (nx, ny) := Advance(m, x, y, h, segLen);
      var rest := ArcPoints(m, nx, ny, h, eps, segLen, vel, t0, tf, i + 1, n);
      assert r[0] == TrajectoryPoint(TurnTime(t0, tf, n, i), nx, ny, vel, 0.0, h);
      assert r[1..] == rest;
      ArcPointsHeadings(m, nx, ny, h, eps, segLen, vel, t0, tf, i + 1, n);
      forall k | 0 < k < |r|
        ensures r[k].hdg == hdg + (k + 1) as real * eps
      {
        assert r[k] == rest[k - 1];
        MulSucc(k, eps);
      }
    }
  }

  /** The turn points keep the speed `vel`, have no acceleration and carry
      consecutive turn stamps from the `i`-th on. */
  lemma {:induction false} ArcPointsTimes(m: Math, x: real, y: real, hdg: real, eps: real, segLen: real, vel: real,
                                          t0: real, tf: real, i: nat, n: nat)
    decreases n - i
    ensures SteadySpeed(ArcPoints(m, x, y, hdg, eps, segLen, vel, t0, tf, i, n), vel)
    ensures TurnStamps(ArcPoints(m, x, y, hdg, eps, segLen, vel, t0, tf, i, n), t0, tf, n, i)
  {
    var r := ArcPoints(m, x, y, hdg, eps, segLen, vel, t0, tf, i, n);
    if i < n {
      var h := hdg + eps;
      var (nx, ny) := Advance(m, x, y, h, segLen);
      var rest := ArcPoints(m, nx, ny, h, eps, segLen, vel, t0, tf, i + 1, n);
      assert r[0] == TrajectoryPoint(TurnTime(t0, tf, n, i), nx, ny, vel, 0.0, h);
      assert r[1..] == rest;
      ArcPointsTimes(m, nx, ny, h, eps, segLen, vel, t0, tf, i + 1, n);
      forall k | 0 < k < |r|
        ensures r[k].vel == vel && r[k].accel == 0.0
        ensures i + k < n && r[k].t == TurnTime(t0, tf, n, i + k)
      {
        assert r[k] == rest[k - 1];
        assert (i + 1) + (k - 1) == i + k;
      }
    }
  }

  /** The turn points walk one chord at a time from `(x, y)`. */
  lemma {:induction false} ArcPointsSteps(m: Math, x: real, y: real, hdg: real, eps: real, segLen: real, vel: real,
                                          t0: real, tf: real, i: nat, n: nat)
    decreases n - i
    ensures ChordWalk(m, segLen, ArcPoints(m, x, y, hdg, eps, segLen, vel, t0, tf, i, n), x, y)
  {
    if i < n {
      var h := hdg + eps;
      var (nx, ny) := Advance(m, x, y, h, segLen);
      ArcPointsStep(m, x, y, hdg, eps, segLen, vel, t0, tf, i, n);
      ArcPointsSteps(m, nx, ny, h, eps, segLen, vel, t0, tf, i + 1, n);
      ChordWalkCons(m, segLen, TrajectoryPoint(TurnTime(t0, tf, n, i), nx, ny, vel, 0.0, h),
                    ArcPoints(m, nx, ny, h, eps, segLen, vel, t0, tf, i + 1, n), x, y);
    }
  }

  /** A point one chord from `(x, y)` followed by a walk from that point is
      a walk from `(x, y)`. */
  lemma ChordWalkCons(m: Math, segLen: real, p: TrajectoryPoint, rest: seq<TrajectoryPoint>, x: real, y: real)
    requires p.x == x + segLen * m.cos(m.radians(p.hdg)) && p.y == y + segLen * m.sin(m.radians(p.hdg))
    requires ChordWalk(m, segLen, rest, p.x, p.y)
    ensures ChordWalk(m, segLen, [p] + rest, x, y)
  {
    var r := [p] + rest;
    forall k | 1 < k < |r|
      ensures ArcStepAt(m, segLen, r, k)
    {
      assert r[k] == rest[k - 1] && r[k - 1] == rest[k - 2];
      assert ArcStepAt(m, segLen, rest, k - 1);
    }
    if 1 < |r| {
      assert r[1] == rest[0];
    }
  }

  /** The mean of the two capped waypoint speeds, the turn's constant speed. */
  function AverageSpeed(cfg: Config, cur: Waypoint, next: Waypoint): (v: real)
    ensures v <= cfg.maxSpeed
  {
    (ClampedSpeed(cfg, cur) + ClampedSpeed(cfg, next)) / 2.0
  }

  /** The time the turn ends: the half circle through both waypoints is swept
      over `|hdg_diff| / 360` of a turn at the average speed. */
  function TurnEndTime(cfg: Config, m: Math, prev: seq<TrajectoryPoint>, cur: Waypoint, next: Waypoint): (tf: real)
    requires AverageSpeed(cfg, cur, next) != 0.0
    ensures Lawful(m) && AverageSpeed(cfg, cur, next) > 0.0 ==> tf >= StartTime(prev)
  {
    var radius := Distance(m, cur.x, cur.y, next.x, next.y) / 2.0;
    var avgVel := AverageSpeed(cfg, cur, next);
    var hdgDiff := next.heading - cur.heading;
    var tf := (2.0 * m.pi * radius / avgVel) * (Abs(hdgDiff) / 360.0) + StartTime(prev);
    assert Lawful(m) && avgVel > 0.0 ==> 2.0 * m.pi * radius / avgVel >= 0.0 by {
      if Lawful(m) && avgVel > 0.0 {
        assert radius >= 0.0;
        assert 2.0 * m.pi * radius >= 0.0;
      }
    }
    tf
  }

  /** The length of one chord of the turn: the arc length split evenly over
      the turn points (no chord is used when there is no point). */
  function ChordLength(cfg: Config, m: Math, prev: seq<TrajectoryPoint>, cur: Waypoint, next: Waypoint): real
    requires AverageSpeed(cfg, cur, next) != 0.0 && cfg.hdgEps != 0.0
  {
    var arcLen := (TurnEndTime(cfg, m, prev, cur, next) - StartTime(prev)) * AverageSpeed(cfg, cur, next);
    var numSegs := TurnSteps(next.heading - cur.heading, cfg.hdgEps);
    if numSegs == 0 then 0.0 else arcLen / numSegs as real
  }

  /** The points a turn from `cur` to `next` appends after `prev`, or why it
      appends none: a zero average speed, a zero heading step or a zero number
      of turn points is a division by zero of the source. Otherwise the turn
      starts at `cur`'s own coordinates and heading and appends one point per
      step (none when the step count is negative). */
  function Turn(cfg: Config, m: Math, prev: seq<TrajectoryPoint>, cur: Waypoint, next: Waypoint)
    : (r: Result<seq<TrajectoryPoint>, Fault>)
    ensures r.Failure? ==> r.error == ZeroDivision
    ensures r.Failure? <==>
              || AverageSpeed(cfg, cur, next) == 0.0
              || cfg.hdgEps == 0.0
              || TurnSteps(next.heading - cur.heading, cfg.hdgEps) == 0
  {
    var avgVel := AverageSpeed(cfg, cur, next);
    var hdgDiff := next.heading - cur.heading;
    if avgVel == 0.0 then Failure(ZeroDivision)
    else if SignedStep(cfg.hdgEps, hdgDiff) == 0.0 then Failure(ZeroDivision)
    else if TurnSteps(hdgDiff, cfg.hdgEps) == 0 then Failure(ZeroDivision)
    else
      Success(ArcPoints(m, cur.x, cur.y, cur.heading, SignedStep(cfg.hdgEps, hdgDiff),
                        ChordLength(cfg, m, prev, cur, next), avgVel, StartTime(prev),
                        TurnEndTime(cfg, m, prev, cur, next), 0, Max0(TurnSteps(hdgDiff, cfg.hdgEps))))
  }

  /** The shape of a successful turn. With a positive heading step it appends
      `TurnSteps` points, at least one. The k-th (from 0) has turned by `k + 1`
      signed steps from `cur`'s heading; all move at the average speed, which
      is within the speed limit, with no acceleration; they walk one chord at
      a time from `cur`. */
  lemma TurnPoints(cfg: Config, m: Math, prev: seq<TrajectoryPoint>, cur: Waypoint, next: Waypoint)
    requires Turn(cfg, m, prev, cur, next).Success?
    ensures AverageSpeed(cfg, cur, next) != 0.0 && cfg.hdgEps != 0.0
    ensures |Turn(cfg, m, prev, cur, next).value| == Max0(TurnSteps(next.heading - cur.heading, cfg.hdgEps))
    ensures cfg.hdgEps > 0.0 ==> |Turn(cfg, m, prev, cur, next).value| >= 1
    ensures TurnHeadings(Turn(cfg, m, prev, cur, next).value, cur.heading,
                         SignedStep(cfg.hdgEps, next.heading - cur.heading))
    ensures SteadySpeed(Turn(cfg, m, prev, cur, next).value, AverageSpeed(cfg, cur, next))
    ensures AverageSpeed(cfg, cur, next) <= cfg.maxSpeed
    ensures ChordWalk(m, ChordLength(cfg, m, prev, cur, next), Turn(cfg, m, prev, cur, next).value, cur.x, cur.y)
  {
    var hdgDiff := next.heading - cur.heading;
    var n := Max0(TurnSteps(hdgDiff, cfg.hdgEps));
    var eps := SignedStep(cfg.hdgEps, hdgDiff);
    var avgVel := AverageSpeed(cfg, cur, next);
    var t0 := StartTime(prev);
    var tf := TurnEndTime(cfg, m, prev, cur, next);
    var segLen := ChordLength(cfg, m, prev, cur, next);
    assert Turn(cfg, m, prev, cur, next).value == ArcPoints(m, cur.x, cur.y, cur.heading, eps, segLen, avgVel, t0, tf, 0, n);
    ArcPointsHeadings(m, cur.x, cur.y, cur.heading, eps, segLen, avgVel, t0, tf, 0, n);
    ArcPointsTimes(m, cur.x, cur.y, cur.heading, eps, segLen, avgVel, t0, tf, 0, n);
    ArcPointsSteps(m, cur.x, cur.y, cur.heading, eps, segLen, avgVel, t0, tf, 0, n);
  }

  /** The time stamps of a successful turn split its duration evenly: the last
      point is stamped with the turn's end time; with a positive speed and a
      lawful `sqrt` the stamps never fall and never precede the start time; if
      the turn lasts a positive time they rise strictly. */
  lemma TurnTiming(cfg: Config, m: Math, prev: seq<TrajectoryPoint>, cur: Waypoint, next: Waypoint)
    requires Turn(cfg, m, prev, cur, next).Success?
    ensures |Turn(cfg, m, prev, cur, next).value| > 0 ==>
              Last(Turn(cfg, m, prev, cur, next).value).t == TurnEndTime(cfg, m, prev, cur, next)
    ensures Lawful(m) && AverageSpeed(cfg, cur, next) > 0.0 ==>
              StampsFrom(Turn(cfg, m, prev, cur, next).value, StartTime(prev))
    ensures TurnEndTime(cfg, m, prev, cur, next) > StartTime(prev) ==>
              StampsRise(Turn(cfg, m, prev, cur, next).value)
  {
    var hdgDiff := next.heading - cur.heading;
    var n := Max0(TurnSteps(hdgDiff, cfg.hdgEps));
    var eps := SignedStep(cfg.hdgEps, hdgDiff);
    var avgVel := AverageSpeed(cfg, cur, next);
    var t0 := StartTime(prev);
    var tf := TurnEndTime(cfg, m, prev, cur, next);
    var segLen := ChordLength(cfg, m, prev, cur, next);
    var r := Turn(cfg, m, prev, cur, next).value;
    assert r == ArcPoints(m, cur.x, cur.y, cur.heading, eps, segLen, avgVel, t0, tf, 0, n);
    ArcPointsTimes(m, cur.x, cur.y, cur.heading, eps, segLen, avgVel, t0, tf, 0, n);
    if n > 0 {
      TurnTimes(t0, tf, n, 0, 0);
    }
    if Lawful(m) && avgVel > 0.0 {
      forall j, k | 0 <= j <= k < n ensures t0 <= r[j].t <= r[k].t {
        TurnTimes(t0, tf, n, j, k);
      }
    }
    if tf > t0 {
      forall j, k | 0 <= j < k < n ensures r[j].t < r[k].t {
        TurnTimes(t0, tf, n, j, k);
      }
    }
  }

  /** The last point of a non-empty list. */
  function Last(r: seq<TrajectoryPoint>): TrajectoryPoint
    requires |r| > 0
  {
    r[|r| - 1]
  }

  /** The iteration count of `range(n)`: none for a negative `n`. */
  function Max0(n: int): nat
  {
    if n < 0 then 0 else n
  }

  // ---------------------------------------------------------------------------
  // Stitching

  /** The segment kind of a waypoint pair: the first pair (no previous type)
      and every pair that `IsStraightLine` accepts is a straight line, every
      other pair a turn. */
  function ChooseSegment(lastType: Option<Kind>, curKind: Kind, nextKind: Kind): (s: SegmentKind)
    ensures lastType.None? ==> s == LineSegment
    ensures s == TurnSegment <==> lastType.Some? && curKind != TurnEnd && nextKind != EndPt
  {
    if lastType.None? || IsStraightLine(curKind, nextKind) then LineSegment else TurnSegment
  }

  /** The type of the waypoint handled before index `i`, if any. */
  function LastType(wps: seq<Waypoint>, i: nat): Option<Kind>
    requires i <= |wps|
  {
    if i == 0 then None else Some(wps[i - 1].kind)
  }

  /** The segment from waypoint `i` to waypoint `i + 1`, after `prev`. */
  function SegmentAt(cfg: Config, m: Math, prev: seq<TrajectoryPoint>, wps: seq<Waypoint>, i: nat)
    : Result<seq<TrajectoryPoint>, Fault>
    requires i + 1 < |wps|
  {
    match ChooseSegment(LastType(wps, i), wps[i].kind, wps[i + 1].kind)
    case LineSegment => StraightLine(cfg, m, prev, wps[i], wps[i + 1])
    case TurnSegment => Turn(cfg, m, prev, wps[i], wps[i + 1])
  }

  /** The pair step of the waypoint list `wps`: pair `k` is `SegmentAt`.
      `Walk` only takes a step while `k + 1 < |wps|`, so the other branch is
      never taken; it only gives the lambda a value there and models no
      behaviour of the generator. */
  function PairSegments(cfg: Config, m: Math, wps: seq<Waypoint>): PairStep<TrajectoryPoint, Fault>
  {
    (p: seq<TrajectoryPoint>, k: nat) =>
      if k + 1 < |wps| then SegmentAt(cfg, m, p, wps, k) else Failure(ZeroDivision)
  }

  /** The point list and status after stitching the pairs of `wps` from
      waypoint `i` on, starting with the list `prev`. It only appends, and
      with fewer than two waypoints left it appends nothing. `StitchStep`
      gives one step of it and `StitchRun` the whole run, down to the pair
      whose failure stops it. */
  function Stitch(cfg: Config, m: Math, prev: seq<TrajectoryPoint>, wps: seq<Waypoint>, i: nat)
    : (r: (seq<TrajectoryPoint>, Status))
    ensures prev <= r.0
    ensures i + 1 >= |wps| ==> r == (prev, Ok)
  {
    Walk(PairSegments(cfg, m, wps), |wps|, prev, i)
  }

  /** The segments appended by the successful pairs of stitching `wps` from
      pair `i` on, in order. */
  ghost function RunSegments(cfg: Config, m: Math, prev: seq<TrajectoryPoint>, wps: seq<Waypoint>, i: nat)
    : seq<seq<TrajectoryPoint>>
  {
    WalkSegments(PairSegments(cfg, m, wps), |wps|, prev, i)
  }

  /** The `k`-th run segment is what pair `i + k` appends to `prev` followed
      by the run segments before it. */
  ghost predicate RunStep(cfg: Config, m: Math, prev: seq<TrajectoryPoint>, wps: seq<Waypoint>, i: nat,
                          segs: seq<seq<TrajectoryPoint>>, k: nat)
    requires k < |segs|
  {
    i + k + 1 < |wps| && SegmentAt(cfg, m, prev + Concat(segs[..k]), wps, i + k) == Success(segs[k])
  }

  /** The whole stitching run from pair `i`. With `j = i + |segs|` for the run
      segments `segs`: every pair from `i` to `j - 1` succeeds, each on the
      list built so far, and the result is `prev` followed by their segments
      in order. The status is Ok exactly when `j` is the last waypoint (every
      pair was stitched); otherwise pair `j` is the first that fails, on the
      final list, and its fault is the status. */
  lemma StitchRun(cfg: Config, m: Math, prev: seq<TrajectoryPoint>, wps: seq<Waypoint>, i: nat)
    ensures forall k: nat :: k < |RunSegments(cfg, m, prev, wps, i)| ==>
              RunStep(cfg, m, prev, wps, i, RunSegments(cfg, m, prev, wps, i), k)
    ensures Stitch(cfg, m, prev, wps, i).0 == prev + Concat(RunSegments(cfg, m, prev, wps, i))
    ensures Stitch(cfg, m, prev, wps, i).1 == Ok <==> i + |RunSegments(cfg, m, prev, wps, i)| + 1 >= |wps|
    ensures Stitch(cfg, m, prev, wps, i).1.Failed? ==> i + |RunSegments(cfg, m, prev, wps, i)| + 1 < |wps|
    ensures Stitch(cfg, m, prev, wps, i).1.Failed? ==>
              && SegmentAt(cfg, m, Stitch(cfg, m, prev, wps, i).0, wps, i + |RunSegments(cfg, m, prev, wps, i)|).Failure?
              && SegmentAt(cfg, m, Stitch(cfg, m, prev, wps, i).0, wps, i + |RunSegments(cfg, m, prev, wps, i)|).error
                   == Stitch(cfg, m, prev, wps, i).1.fault
  {
    StitchSteps(cfg, m, prev, wps, i);
    StitchEnd(cfg, m, prev, wps, i);
    StitchStop(cfg, m, prev, wps, i);
  }

  /** Every run segment is the success of its pair on the list built so far. */
  lemma StitchSteps(cfg: Config, m: Math, prev: seq<TrajectoryPoint>, wps: seq<Waypoint>, i: nat)
    ensures forall k: nat :: k < |RunSegments(cfg, m, prev, wps, i)| ==>
              RunStep(cfg, m, prev, wps, i, RunSegments(cfg, m, prev, wps, i), k)
  {
    var step := PairSegments(cfg, m, wps);
    var segs := RunSegments(cfg, m, prev, wps, i);
    WalkShape(step, |wps|, prev, i);
    forall k: nat | k < |segs|
      ensures RunStep(cfg, m, prev, wps, i, segs, k)
    {
      RunStepOfWalk(cfg, m, prev, wps, i, segs, k);
    }
  }

  /** A stitching run appends its run segments, and ends Ok exactly when they
      reach the last waypoint. */
  lemma StitchEnd(cfg: Config, m: Math, prev: seq<TrajectoryPoint>, wps: seq<Waypoint>, i: nat)
    ensures Stitch(cfg, m, prev, wps, i).0 == prev + Concat(RunSegments(cfg, m, prev, wps, i))
    ensures Stitch(cfg, m, prev, wps, i).1 == Ok <==> i + |RunSegments(cfg, m, prev, wps, i)| + 1 >= |wps|
  {
    WalkShape(PairSegments(cfg, m, wps), |wps|, prev, i);
  }

  /** A failed stitching run stops at the pair after its last segment. */
  lemma StitchStop(cfg: Config, m: Math, prev: seq<TrajectoryPoint>, wps: seq<Waypoint>, i: nat)
    ensures Stitch(cfg, m, prev, wps, i).1.Failed? ==> i + |RunSegments(cfg, m, prev, wps, i)| + 1 < |wps|
    ensures Stitch(cfg, m, prev, wps, i).1.Failed? ==>
              && SegmentAt(cfg, m, Stitch(cfg, m, prev, wps, i).0, wps, i + |RunSegments(cfg, m, prev, wps, i)|).Failure?
              && SegmentAt(cfg, m, Stitch(cfg, m, prev, wps, i).0, wps, i + |RunSegments(cfg, m, prev, wps, i)|).error
                   == Stitch(cfg, m, prev, wps, i).1.fault
  {
    StitchStopStep(cfg, m, prev, wps, i);
    var r := Stitch(cfg, m, prev, wps, i);
    if r.1.Failed? {
      PairFailure(cfg, m, wps, r.0, i + |RunSegments(cfg, m, prev, wps, i)|, r.1.fault);
    }
  }

  /** A failed stitching run stops at a failing pair step after its last
      segment. */
  lemma StitchStopStep(cfg: Config, m: Math, prev: seq<TrajectoryPoint>, wps: seq<Waypoint>, i: nat)
    ensures Stitch(cfg, m, prev, wps, i).1.Failed? ==> i + |RunSegments(cfg, m, prev, wps, i)| + 1 < |wps|
    ensures Stitch(cfg, m, prev, wps, i).1.Failed? ==>
              && PairSegments(cfg, m, wps)(Stitch(cfg, m, prev, wps, i).0, i + |RunSegments(cfg, m, prev, wps, i)|).Failure?
              && PairSegments(cfg, m, wps)(Stitch(cfg, m, prev, wps, i).0, i + |RunSegments(cfg, m, prev, wps, i)|).error
                   == Stitch(cfg, m, prev, wps, i).1.fault
  {
    var step := PairSegments(cfg, m, wps);
    assert Stitch(cfg, m, prev, wps, i) == Walk(step, |wps|, prev, i);
    assert RunSegments(cfg, m, prev, wps, i) == WalkSegments(step, |wps|, prev, i);
    WalkStop(step, |wps|, prev, i);
  }

  /** One stitching step: a failing pair ends the run with the list as it
      was; a successful one continues from the next pair on the longer list. */
  lemma StitchStep(cfg: Config, m: Math, prev: seq<TrajectoryPoint>, wps: seq<Waypoint>, i: nat)
    requires i + 1 < |wps|
    ensures SegmentAt(cfg, m, prev, wps, i).Failure? ==>
              Stitch(cfg, m, prev, wps, i) == (prev, Failed(SegmentAt(cfg, m, prev, wps, i).error))
    ensures SegmentAt(cfg, m, prev, wps, i).Success? ==>
              Stitch(cfg, m, prev, wps, i) == Stitch(cfg, m, prev + SegmentAt(cfg, m, prev, wps, i).value, wps, i + 1)
  {
    PairSegmentsAt(cfg, m, wps, prev, i);
  }

  /** The pair step of `wps` at a pair of `wps` is `SegmentAt`. */
  lemma PairSegmentsAt(cfg: Config, m: Math, wps: seq<Waypoint>, p: seq<TrajectoryPoint>, k: nat)
    requires k + 1 < |wps|
    ensures PairSegments(cfg, m, wps)(p, k) == SegmentAt(cfg, m, p, wps, k)
  {
  }

  /** A walk step of the pair step of `wps` is a run step. */
  lemma RunStepOfWalk(cfg: Config, m: Math, prev: seq<TrajectoryPoint>, wps: seq<Waypoint>, i: nat,
                      segs: seq<seq<TrajectoryPoint>>, k: nat)
    requires k < |segs| && WalkStep(PairSegments(cfg, m, wps), |wps|, prev, i, segs, k)
    ensures RunStep(cfg, m, prev, wps, i, segs, k)
  {
    PairSegmentsAt(cfg, m, wps, prev + Concat(segs[..k]), i + k);
  }

  /** A failing pair step of `wps` is a failing segment. */
  lemma PairFailure(cfg: Config, m: Math, wps: seq<Waypoint>, p: seq<TrajectoryPoint>, k: nat, fault: Fault)
    requires k + 1 < |wps|
    requires PairSegments(cfg, m, wps)(p, k).Failure? && PairSegments(cfg, m, wps)(p, k).error == fault
    ensures SegmentAt(cfg, m, p, wps, k).Failure? && SegmentAt(cfg, m, p, wps, k).error == fault
  {
    PairSegmentsAt(cfg, m, wps, p, k);
  }

  /** Which segment each pair becomes: the first pair, a pair out of a turn
      end and a pair into the end point are straight lines; every other pair
      is a turn. */
  lemma SegmentChoice(cfg: Config, m: Math, prev: seq<TrajectoryPoint>, wps: seq<Waypoint>, i: nat)
    requires i + 1 < |wps|
    ensures i == 0 || wps[i].kind == TurnEnd || wps[i + 1].kind == EndPt ==>
              SegmentAt(cfg, m, prev, wps, i) == StraightLine(cfg, m, prev, wps[i], wps[i + 1])
    ensures i > 0 && wps[i].kind != TurnEnd && wps[i + 1].kind != EndPt ==>
              SegmentAt(cfg, m, prev, wps, i) == Turn(cfg, m, prev, wps[i], wps[i + 1])
  {
  }

  /** Continuity of a straight line with the list before it: its first point
      carries the time of the last point emitted (0 on an empty list); when
      `cur` ends a turn it starts exactly at the last point emitted, and
      otherwise at `cur`. */
  lemma LineContinuity(cfg: Config, m: Math, prev: seq<TrajectoryPoint>, cur: Waypoint, next: Waypoint)
    requires StraightLine(cfg, m, prev, cur, next).Success?
    ensures |StraightLine(cfg, m, prev, cur, next).value| == 3
    ensures prev == [] ==> StraightLine(cfg, m, prev, cur, next).value[0].t == 0.0
    ensures prev != [] ==> StraightLine(cfg, m, prev, cur, next).value[0].t == Last(prev).t
    ensures cur.kind == TurnEnd ==>
              && prev != []
              && StraightLine(cfg, m, prev, cur, next).value[0].x == Last(prev).x
              && StraightLine(cfg, m, prev, cur, next).value[0].y == Last(prev).y
    ensures cur.kind != TurnEnd ==>
              StraightLine(cfg, m, prev, cur, next).value[0].x == cur.x
              && StraightLine(cfg, m, prev, cur, next).value[0].y == cur.y
  {
    StraightLinePoints(cfg, m, prev, cur, next);
  }

  /** Continuity along a stitching run: a pair out of a turn end starts its
      segment at the position and time of the last point emitted before it. */
  lemma StitchContinuity(cfg: Config, m: Math, prev: seq<TrajectoryPoint>, wps: seq<Waypoint>, i: nat, k: nat)
    requires k < |RunSegments(cfg, m, prev, wps, i)|
    ensures i + k + 1 < |wps|
    ensures wps[i + k].kind == TurnEnd ==>
              var before := prev + Concat(RunSegments(cfg, m, prev, wps, i)[..k]);
              var seg := RunSegments(cfg, m, prev, wps, i)[k];
              && before != [] && |seg| == 3
              && seg[0].x == Last(before).x && seg[0].y == Last(before).y && seg[0].t == Last(before).t
  {
    StitchRun(cfg, m, prev, wps, i);
    var segs := RunSegments(cfg, m, prev, wps, i);
    assert RunStep(cfg, m, prev, wps, i, segs, k);
    var before := prev + Concat(segs[..k]);
    if wps[i + k].kind == TurnEnd {
      SegmentChoice(cfg, m, before, wps, i + k);
      LineContinuity(cfg, m, before, wps[i + k], wps[i + k + 1]);
    }
  }

  /** Every point a segment appends is within the speed limit. */
  lemma SegmentSpeedLimit(cfg: Config, m: Math, prev: seq<TrajectoryPoint>, wps: seq<Waypoint>, i: nat)
    requires i + 1 < |wps|
    requires SegmentAt(cfg, m, prev, wps, i).Success?
    ensures forall p :: p in SegmentAt(cfg, m, prev, wps, i).value ==> p.vel <= cfg.maxSpeed
  {
    if ChooseSegment(LastType(wps, i), wps[i].kind, wps[i + 1].kind) == TurnSegment {
      TurnPoints(cfg, m, prev, wps[i], wps[i + 1]);
      var r := Turn(cfg, m, prev, wps[i], wps[i + 1]).value;
      forall p | p in r ensures p.vel <= cfg.maxSpeed {
        var k :| 0 <= k < |r| && r[k] == p;
      }
    }
  }

  /** Stitching keeps every point within the speed limit: if the points
      before it are, so is the whole list. */
  lemma {:induction false} StitchSpeedLimit(cfg: Config, m: Math, prev: seq<TrajectoryPoint>, wps: seq<Waypoint>, i: nat)
    requires forall p :: p in prev ==> p.vel <= cfg.maxSpeed
    decreases |wps| - i
    ensures forall p :: p in Stitch(cfg, m, prev, wps, i).0 ==> p.vel <= cfg.maxSpeed
  {
    if i + 1 < |wps| {
      var seg := SegmentAt(cfg, m, prev, wps, i);
      if seg.Success? {
        SegmentSpeedLimit(cfg, m, prev, wps, i);
        StitchSpeedLimit(cfg, m, prev + seg.value, wps, i + 1);
      }
    }
  }

  /** The two-waypoint course of `GoalBeforeRampEnd` stitches into exactly
      its one straight line: three points, the goal `(2, 0)` stamped 0.25. */
  lemma TwoWaypointCourse(m: Math)
    requires m.sqrt(4.0) == 2.0
    ensures var wps := [Waypoint(1, 0.0, 0.0, 0.0, 1.0, Start), Waypoint(2, 2.0, 0.0, 0.0, 2.0, EndPt)];
            var r := Stitch(Config(2.0, 1.0, 5.0), m, [], wps, 0);
            && r.1 == Ok && |r.0| == 3
            && r.0[2].t == 0.25 && r.0[2].x == 2.0 && r.0[2].y == 0.0
  {
    var cfg := Config(2.0, 1.0, 5.0);
    var wps := [Waypoint(1, 0.0, 0.0, 0.0, 1.0, Start), Waypoint(2, 2.0, 0.0, 0.0, 2.0, EndPt)];
    GoalBeforeRampEnd(m);
    var line := StraightLine(cfg, m, [], wps[0], wps[1]);
    StraightLinePoints(cfg, m, [], wps[0], wps[1]);
    assert ChooseSegment(LastType(wps, 0), Start, EndPt) == LineSegment;
    assert SegmentAt(cfg, m, [], wps, 0) == line && line.Success?;
    assert [] + line.value == line.value;
    assert Stitch(cfg, m, [], wps, 0) == Stitch(cfg, m, line.value, wps, 1);
  }

  // ---------------------------------------------------------------------------
  // The generator object

  class TrajectoryBuilder {
    /** The trajectory points appended so far (`traj_pts`). */
    var pts: seq<TrajectoryPoint>

    /** A generator with no points yet. */
    constructor ()
      ensures pts == []
    {
      pts := [];
    }

    /** Append the straight line from `cur` to `next`, or nothing with the
        reason it fails. */
    method CreateStraightLine(cfg: Config, m: Math, cur: Waypoint, next: Waypoint) returns (status: Status)
      modifies this
      ensures StraightLine(cfg, m, old(pts), cur, next).Success? ==>
                pts == old(pts) + StraightLine(cfg, m, old(pts), cur, next).value && status == Ok
      ensures StraightLine(cfg, m, old(pts), cur, next).Failure? ==>
                pts == old(pts) && status == Failed(StraightLine(cfg, m, old(pts), cur, next).error)
    {
      if cur.kind == TurnEnd && |pts| == 0 {
        return Failed(NoPreviousPoint);
      }
      var (x1, y1) := LineStart(pts, cur);
      var hdg := cur.heading;
      var dist := Distance(m, x1, y1, next.x, next.y);
      var curVel := ClampedSpeed(cfg, cur);
      var nextVel := ClampedSpeed(cfg, next);
      var t0 := StartTime(pts);
      if cfg.maxAccel == 0.0 {
        return Failed(ZeroDivision);
      }
      var tCruise := (nextVel - curVel) / cfg.maxAccel;
      var distAtCruise := RampDistance(cfg, cur, next);
      var distRemain := dist - distAtCruise;
      if distRemain < 0.0 {
        return Failed(Unreachable(cur.id, next.id));
      }
      var (xCruise, yCruise) := Advance(m, x1, y1, hdg, distAtCruise);
      if nextVel == 0.0 {
        return Failed(ZeroDivision);
      }
      var tf := distRemain / nextVel;
      ghost var line := [TrajectoryPoint(t0, x1, y1, curVel, cfg.maxAccel, hdg),
                         TrajectoryPoint(t0 + tCruise, xCruise, yCruise, nextVel, 0.0, hdg),
                         TrajectoryPoint(t0 + tf, next.x, next.y, nextVel, 0.0, hdg)];
      assert StraightLine(cfg, m, pts, cur, next) == Success(line);
      pts := pts + [TrajectoryPoint(t0, x1, y1, curVel, cfg.maxAccel, hdg)];
      pts := pts + [TrajectoryPoint(t0 + tCruise, xCruise, yCruise, nextVel, 0.0, hdg)];
      pts := pts + [TrajectoryPoint(t0 + tf, next.x, next.y, nextVel, 0.0, hdg)];
      assert pts == old(pts) + line;
      status := Ok;
    }

    /** The turn loop: `numSegs` times (never for a negative count), turn by
        `eps`, advance one chord along the new heading and append the point
        with its stamp. */
    method AppendArc(m: Math, x0: real, y0: real, hdg0: real, eps: real, segLen: real, vel: real,
                     t0: real, tf: real, numSegs: int)
      modifies this
      ensures pts == old(pts) + ArcPoints(m, x0, y0, hdg0, eps, segLen, vel, t0, tf, 0, Max0(numSegs))
    {
      ghost var n := Max0(numSegs);
      var x, y, hdg := x0, y0, hdg0;
      var i := 0;
      while i < numSegs
        invariant 0 <= i <= n
        invariant pts + ArcPoints(m, x, y, hdg, eps, segLen, vel, t0, tf, i, n) ==
                    old(pts) + ArcPoints(m, x0, y0, hdg0, eps, segLen, vel, t0, tf, 0, n)
      {
        ArcPointsStep(m, x, y, hdg, eps, segLen, vel, t0, tf, i, n);
        var t := TurnTime(t0, tf, numSegs, i);
        hdg := hdg + eps;
        var (xNew, yNew) := Advance(m, x, y, hdg, segLen);
        x, y := xNew, yNew;
        pts := pts + [TrajectoryPoint(t, xNew, yNew, vel, 0.0, hdg)];
        i := i + 1;
      }
    }

    /** Append the turn from `cur` to `next` point by point, or nothing with
        the reason it fails. */
    method CreateTurn(cfg: Config, m: Math, cur: Waypoint, next: Waypoint) returns (status: Status)
      modifies this
      ensures Turn(cfg, m, old(pts), cur, next).Success? ==>
                pts == old(pts) + Turn(cfg, m, old(pts), cur, next).value && status == Ok
      ensures Turn(cfg, m, old(pts), cur, next).Failure? ==>
                pts == old(pts) && status == Failed(Turn(cfg, m, old(pts), cur, next).error)
    {
      var avgVel := AverageSpeed(cfg, cur, next);
      var hdgDiff := next.heading - cur.heading;
      var t0 := StartTime(pts);
      if avgVel == 0.0 {
        return Failed(ZeroDivision);
      }
      var tf := TurnEndTime(cfg, m, pts, cur, next);
      var eps := SignedStep(cfg.hdgEps, hdgDiff);
      if eps == 0.0 {
        return Failed(ZeroDivision);
      }
      var numSegs := TurnSteps(hdgDiff, cfg.hdgEps);
      if numSegs == 0 {
        return Failed(ZeroDivision);
      }
      var segLen := ChordLength(cfg, m, pts, cur, next);
      assert Turn(cfg, m, pts, cur, next) ==
               Success(ArcPoints(m, cur.x, cur.y, cur.heading, eps, segLen, avgVel, t0, tf, 0, Max0(numSegs)));
      AppendArc(m, cur.x, cur.y, cur.heading, eps, segLen, avgVel, t0, tf, numSegs);
      status := Ok;
    }

    /** Stitch the whole waypoint list: walk the pairs in order, choosing the
        segment kind from the previous waypoint's type, and stop at the first
        failure with the points appended so far kept. */
    method Generate(cfg: Config, m: Math, wps: seq<Waypoint>) returns (status: Status)
      modifies this
      ensures (pts, status) == Stitch(cfg, m, old(pts), wps, 0)
    {
      var lastType: Option<Kind> := None;
      var i := 0;
      while i < |wps|
        invariant 0 <= i <= |wps|
        invariant i + 1 <= |wps| || |wps| == 0
        invariant lastType == LastType(wps, i)
        invariant Stitch(cfg, m, pts, wps, i) == Stitch(cfg, m, old(pts), wps, 0)
      {
        var curType := wps[i].kind;
        if i == |wps| - 1 {
          break;
        }
        var nextType := wps[i + 1].kind;
        StitchStep(cfg, m, pts, wps, i);
        SegmentChoice(cfg, m, pts, wps, i);
        var result;
        if lastType.None? || IsStraightLine(curType, nextType) {
          result := CreateStraightLine(cfg, m, wps[i], wps[i + 1]);
        } else {
          result := CreateTurn(cfg, m, wps[i], wps[i + 1]);
        }
        if result.Failed? {
          return result;
        }
        lastType := Some(curType);
        i := i + 1;
      }
      status := Ok;
    }
  }
}
