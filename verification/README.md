# NRC trajectory stitcher and pure-pursuit control tick, in Dafny

This project models two pieces of the NRC autonomous-vehicle software.

- **The offline trajectory generator** (`trajectory_gen/main.py`). It walks the
  ordered waypoint list of a course. For each adjacent pair it picks a straight
  line or a circular-arc turn, and appends time-stamped trajectory points to the
  module-level list `traj_pts`.
  - A straight line appends three points: ramp start, ramp end and goal.
  - A turn appends one point per heading step.
  - The first infeasible or failing segment stops the walk. The points already
    appended stay in the list.
- **The control tick of the pure-pursuit drive node**
  (`nrc_ws/src/nrc_nav/src/nrc_drive_pp.py`). The node builds its path from
  the trajectory rows. On each timer tick, `generate_motor_command` does the
  following:
  - it waits for a position and a heading;
  - it searches for a lookahead point at radii 3 m, 3.75 m, … while the radius
    is at most 6 m;
  - it turns the bearing to that point into a wrapped heading error;
  - it runs a PID step on the global integrator, last error and last time;
  - it maps the turn power to left and right wheel rates.

All quantities are Dafny `real`s. No floating-point rounding is modelled.
`sqrt`, `cos`, `sin`, `radians`, `degrees`, `atan2` and `pi` are uninterpreted.
They are fields of a `RealMath.Math` record that each operation receives.
`RealMath.Lawful` holds the only facts about them that any property needs:
- `sqrt` is never negative;
- `pi` is positive;
- `degrees(atan2(y, x))` lies in (-180, 180].

Files:

- `wrappers.dfy`: `Option` and `Result`.
- `real_math.dfy`: the `Math` record, Python's `min`, `max`, `abs` and the
  floored float `%`, and small arithmetic lemmas.
- `stitching.dfy`: module `Stitching`, the stitching loop for any pair step
  (`Walk`) and the lemma that decomposes a run into its successful pairs and
  the pair that stops it. `TrajectoryGen.Stitch` is this loop with the
  segment of each waypoint pair as the step.
- `trajectory_gen.dfy`: module `TrajectoryGen`, in two layers.
  - The specification functions state the points each segment appends, or the
    reason it appends none: `StraightLine`, `Turn`, `ArcPoints`, `Stitch`.
    Lemmas about them give the properties.
  - The class `TrajectoryBuilder` has one field, `pts`, for `traj_pts`. Its
    methods follow the source statement by statement. Each is proved to
    leave `pts` as the specification functions say.
- `drive_pp.dfy`: module `DrivePP`. It holds the bearing, wrap, clamp, PID
  and wheel-rate arithmetic, the radius search (a loop proved against
  `FirstLookahead`), and the class `Controller`.
  - The fields of `Controller` are the node's globals: `path`, `integrator`,
    `lastError` and `lastTime`.
  - The tick takes the position and heading as `Option`s. It takes the two
    `time.time()` readings as `now` (line 112) and `later` (line 128), and
    the pure-pursuit lookahead query as an oracle function.

Python exceptions are modelled as values of `TrajectoryGen.Fault`:
- `ZeroDivision` is a division by zero (a zero `max_accel`, next speed,
  average turn speed, `hdg_eps` or turn step count).
- `NoPreviousPoint` is `traj_pts[-1]` on an empty list.

Each is raised before the failing segment appends anything. Its effect on
`traj_pts` is therefore the same as the source's `-1`, and the model stops
the walk with `Status.Failed`.

## Model

| member | source | states |
|---|---|---|
| RealMath.Min | trajectory_gen/main.py:122-123 | Python `min`: no larger than either argument and equal to one of them |
| RealMath.FloorMod | nrc_ws/src/nrc_nav/src/nrc_drive_pp.py:108 | Python float `%` with a positive divisor: the result is in [0, n) and differs from the dividend by a whole multiple of n |
| TrajectoryGen.ClampedSpeed | trajectory_gen/main.py:122-123 | an endpoint speed is capped by `max_speed`: it is at most both values and equals one of them |
| TrajectoryGen.StraightLine | trajectory_gen/main.py:99-162 | failure cases: a turn end with no previous point, a zero acceleration limit, an overshoot (`dist - dist_at_cruise < 0`), always reported as `Unreachable` with both waypoint ids whatever the next speed; a zero next speed; on success exactly 3 points, with the ramp fitting into the line |
| TrajectoryGen.LineContinuity | trajectory_gen/main.py:105-151 | a successful straight line's first point carries the time of the last point already emitted (0 on an empty list); out of a turn end it starts exactly at that last point, otherwise at `cur` |
| TrajectoryGen.StraightLinePoints | trajectory_gen/main.py:143-160 | the three points field by field: ramp start at the line start, time t0, current speed, full acceleration; ramp end at `t0 + (v_next - v_cur)/a`, next speed, no acceleration, ramp distance along the heading; goal exactly at `next`, time `t0 + remaining/v_next`; every point within the speed limit and on `cur`'s heading |
| TrajectoryGen.RampEndOrder | trajectory_gen/main.py:130-156 | with a positive acceleration limit, the ramp end is stamped before the ramp start exactly when the robot slows down |
| TrajectoryGen.GoalBeforeRampEnd | trajectory_gen/main.py:147-159 | a concrete line (2 m from 1 m/s to 2 m/s at 1 m/s²) whose goal (t = 0.25) is stamped before its ramp end (t = 1): the goal time leaves out the ramp time |
| TrajectoryGen.SignedStep | trajectory_gen/main.py:204-205 | the heading step keeps the magnitude of `hdg_eps` and, for a positive `hdg_eps`, is negative exactly when the heading change is |
| TrajectoryGen.TurnSteps | trajectory_gen/main.py:208 | `floor(hdg_diff / eps) + 1` is at least 1 for a positive `hdg_eps`, and `n * hdg_eps` exceeds `abs(hdg_diff)` by more than 0 and at most one step |
| TrajectoryGen.TurnTimes | trajectory_gen/main.py:217 | the stamp of the last of n turn points is `tf`; stamps rise strictly when `tf > t0`, never fall when `tf >= t0`, and never precede `t0` |
| TrajectoryGen.ArcPoints | trajectory_gen/main.py:216-224 | the turn loop from step i to n appends n - i points (none for i >= n) |
| TrajectoryGen.ArcPointsHeadings | trajectory_gen/main.py:218-223 | the k-th turn point has heading `hdg1 + (k+1)·eps` |
| TrajectoryGen.ArcPointsTimes | trajectory_gen/main.py:217-223 | every turn point moves at the average speed with zero acceleration, and the k-th carries the (i+k)-th turn stamp |
| TrajectoryGen.ArcPointsSteps | trajectory_gen/main.py:218-222 | the turn points walk one chord at a time, each along its own (already rotated) heading, starting from `cur`'s coordinates |
| TrajectoryGen.AverageSpeed | trajectory_gen/main.py:191-193 | the turn speed, the mean of the two capped speeds, is within the speed limit |
| TrajectoryGen.TurnEndTime | trajectory_gen/main.py:185-200 | with a lawful `sqrt`/`pi` and a positive average speed, the turn ends no earlier than it starts |
| TrajectoryGen.Turn | trajectory_gen/main.py:165-226 | a turn fails (division by zero) exactly when the average speed, the heading step or the step count is zero; otherwise it appends the turn loop's points |
| TrajectoryGen.TurnPoints | trajectory_gen/main.py:191-224 | a successful turn appends `max(num_segs, 0)` points, at least one for a positive `hdg_eps`; their headings, speeds, zero accelerations and chord walk from `cur` |
| TrajectoryGen.TurnTiming | trajectory_gen/main.py:199-217 | the last turn point is stamped `tf`; the stamps never fall and never precede t0 (positive speed, lawful math); they rise strictly when the turn takes positive time |
| TrajectoryGen.SegmentChoice | trajectory_gen/main.py:252-258 | the segment of pair i is the straight line from `wps[i]` to `wps[i+1]` when i is the first pair, `wps[i]` is a turn end or `wps[i+1]` is the end point, and the turn between them in every other case |
| TrajectoryGen.Stitch | trajectory_gen/main.py:229-265 | stitching only appends (the old list is a prefix); with fewer than two waypoints left it appends nothing and ends Ok |
| TrajectoryGen.StitchStep | trajectory_gen/main.py:249-262 | one pass of the loop: a failing pair ends the run with the list unchanged and its fault as the status; a successful pair continues from the next waypoint on the list with its segment appended |
| TrajectoryGen.StitchRun | trajectory_gen/main.py:239-262 | with j = i plus the number of run segments: pairs i to j-1 all succeed, each on the list built before it; the result is the old list followed by their segments in order; the status is Ok exactly when j is the last waypoint; otherwise pair j is the first to fail, on the final list, and its fault is the status |
| TrajectoryGen.StitchContinuity | trajectory_gen/main.py:104-111 | along a stitching run, a pair out of a turn end starts its three-point line at the position and time of the last point emitted before it |
| Stitching.WalkShape | trajectory_gen/main.py:239-262 | the same decomposition for the loop over any pair step: successful steps in order, the result their concatenation after the old list, Ok exactly when the last waypoint is reached, otherwise the next pair fails with the status's fault |
| TrajectoryGen.SegmentSpeedLimit | trajectory_gen/main.py:191-193 | every point of a successful segment, straight or turn, is within the speed limit |
| TrajectoryGen.StitchSpeedLimit | trajectory_gen/main.py:239-262 | if the list starts within the speed limit, the whole stitched list is |
| TrajectoryGen.TwoWaypointCourse | trajectory_gen/main.py:229-265 | a start/end course stitches into exactly its one straight line: status Ok, three points, the goal at (2, 0) |
| TrajectoryGen.TrajectoryBuilder.constructor | trajectory_gen/main.py:18 | `traj_pts` starts empty |
| TrajectoryGen.TrajectoryBuilder.CreateStraightLine | trajectory_gen/main.py:99-162 | on success appends exactly `StraightLine`'s three points and returns Ok; on failure appends nothing and returns the fault |
| TrajectoryGen.TrajectoryBuilder.AppendArc | trajectory_gen/main.py:211-224 | the turn loop appends exactly `ArcPoints` (nothing for a negative count) |
| TrajectoryGen.TrajectoryBuilder.CreateTurn | trajectory_gen/main.py:165-226 | on success appends exactly `Turn`'s points and returns Ok; on a division by zero appends nothing |
| TrajectoryGen.TrajectoryBuilder.Generate | trajectory_gen/main.py:229-265 | the final list and status are those of `Stitch` from the first waypoint: pairs in order, the last waypoint never a `cur`, stop at the first failure with earlier points kept |
| DrivePP.HeadingFromYaw | nrc_ws/src/nrc_nav/src/nrc_drive_pp.py:67-70 | the published heading `360 - degrees(yaw)` wraps to the same angle as `-degrees(yaw)` |
| DrivePP.YawHeadingError | nrc_ws/src/nrc_nav/src/nrc_drive_pp.py:67-70 | for any bearing b, the wrapped error `b - heading` against the published heading equals the wrapped `b + degrees(yaw)`: the added full turn never changes the error |
| DrivePP.NormalizeBearing | nrc_ws/src/nrc_nav/src/nrc_drive_pp.py:99-101 | an angle in (-180, 180] is moved into (0, 360]; the result differs by whole turns and a positive angle is kept |
| DrivePP.DesiredBearing | nrc_ws/src/nrc_nav/src/nrc_drive_pp.py:99-101 | with a lawful `atan2`, `heading_to_la` lies in (0, 360] |
| DrivePP.Wrap | nrc_ws/src/nrc_nav/src/nrc_drive_pp.py:107-108 | the wrapped error lies in [-180, 180) and differs from `delta` by whole turns |
| DrivePP.WrapUnique | nrc_ws/src/nrc_nav/src/nrc_drive_pp.py:108 | the wrapped error is the only value in [-180, 180) that differs from `delta` by whole turns |
| DrivePP.WrapPeriodic | nrc_ws/src/nrc_nav/src/nrc_drive_pp.py:108 | adding 360 to `delta` does not change the wrapped error |
| DrivePP.HeadingError | nrc_ws/src/nrc_nav/src/nrc_drive_pp.py:99-108 | the error toward the lookahead point lies in [-180, 180) and differs from bearing minus heading by whole turns |
| DrivePP.TimeDiff | nrc_ws/src/nrc_nav/src/nrc_drive_pp.py:112 | `time_diff` is at least 0.001 and at least the elapsed time, and equals one of them |
| DrivePP.ClampP | nrc_ws/src/nrc_nav/src/nrc_drive_pp.py:116-120 | `abs(P) <= 0.25`; when `abs(0.001·error) > 0.25`, P is exactly +0.25 whatever the sign; otherwise `0.001·error` |
| DrivePP.IntegratorWindup | nrc_ws/src/nrc_nav/src/nrc_drive_pp.py:112-113 | no anti-windup: over n ticks with the same non-negative error e the integrator rises by at least n·e·0.001 (the floor on `time_diff`), and with a non-positive error it falls by at least as much, so a steady error winds it up without bound |
| DrivePP.WheelRates | nrc_ws/src/nrc_nav/src/nrc_drive_pp.py:124-135 | the wheel rates give back the drive power as their mean and the turn power as their half-difference (times the wheel radius) |
| DrivePP.SearchRadius | nrc_ws/src/nrc_nav/src/nrc_drive_pp.py:86-91 | the radii tried are 3, 3.75, 4.6875 and 5.859375 m for the first four tries, and never below 3 m |
| DrivePP.RadiusWithinBound | nrc_ws/src/nrc_nav/src/nrc_drive_pp.py:89-91 | a radius is within 6 m exactly for the first four tries (3, 3.75, 4.6875, 5.859375) |
| DrivePP.FirstLookahead | nrc_ws/src/nrc_nav/src/nrc_drive_pp.py:84-91 | the search finds nothing exactly when every one of the remaining radii finds nothing; a found point is the answer of one of them |
| DrivePP.FirstLookaheadSkip | nrc_ws/src/nrc_nav/src/nrc_drive_pp.py:89-91 | radii that find nothing do not change the search result |
| DrivePP.FindLookahead | nrc_ws/src/nrc_nav/src/nrc_drive_pp.py:84-91 | the retry loop makes 1 to 4 queries, stops at the first hit (all earlier queries found nothing), makes all 4 when nothing is found, and returns `FirstLookahead` |
| DrivePP.Controller.constructor | nrc_ws/src/nrc_nav/src/nrc_drive_pp.py:18-28 | start-up state: empty path, zero integrator and last error, last time the load-time clock reading |
| DrivePP.Controller.GeneratePursuitPath | nrc_ws/src/nrc_nav/src/nrc_drive_pp.py:30-37 | the path is exactly the rows' `(x, y)` in row order, one point per row |
| DrivePP.Controller.Steer | nrc_ws/src/nrc_nav/src/nrc_drive_pp.py:98-128 | the PID state advances by `PidStep` on the heading error toward the lookahead point; the turn power is P + I + D on that step |
| DrivePP.Controller.Tick | nrc_ws/src/nrc_nav/src/nrc_drive_pp.py:72-137 | with no position or heading, or no lookahead point at any radius, no state changes and no command; otherwise the PID state advances by one step on the heading error toward the first point found and the command is the wheel mapping of drive power 1.5 and the turn power |

## Notes on the code

The model follows the statements of the code wherever a comment beside them
says something else.
- The heading error is wrapped by `(delta + 180) % 360 - 180`
  (`nrc_drive_pp.py:108`). It lands in [-180, 180): a difference of exactly
  180 becomes -180 (`DrivePP.Wrap`).
- The comment at `nrc_drive_pp.py:119` says the cap keeps the sign of P. The
  statement under it multiplies P by `0.25 / P`, so a capped P is +0.25 for
  either sign of the error (`DrivePP.ClampP`).
- The comment at `main.py:260` says a failing segment cancels the
  generation. The points of the earlier segments stay in `traj_pts` and are
  exported (`TrajectoryGen.StitchRun`).
- The goal point of a straight line is stamped `t0 + remaining / v_next`
  (`main.py:147`). That leaves out the ramp time, so the goal can be stamped
  before the ramp end (`TrajectoryGen.GoalBeforeRampEnd`).
- A straight line's ramp-end point is advanced along `cur`'s own waypoint
  heading (`main.py:143-144`), not along the bearing between the two
  waypoints.
- The published heading is `360 - degrees(yaw)` (`nrc_drive_pp.py:70`),
  which is not confined to [0, 360); `DrivePP.YawHeadingError` shows that
  the extra turn never changes the wrapped error.
- The comments at `nrc_drive_pp.py:85` and `:88` speak of a 0.4 m start and a
  2 m bound; the code starts at 3 m and stops above 6 m, as modelled.

## Left out

- Plotting (`plot_traj_points`, `plot_course`, `draw_pp`, `setup_pyplot`, `SHOW_PLOTS`): visualisation only.
- JSON configuration loading, CSV export and reading the trajectory file (`genfromtxt`): file I/O.
  The configuration is the `Config` record, and the rows are `TrajectoryPoint`s.
- ROS subscribers, the publisher, the timer and `rospy.spin`: message-bus plumbing.
  `receive_position` and `receive_heading` only store their inputs. They are the `pos` and `heading` arguments of `Controller.Tick`.
  `HeadingFromYaw` models the conversion.
- The internals of `PurePursuit` (`add_point`, `get_lookahead_point`) are not part of this model.
  The lookahead query is an oracle function of the path, the position and the radius.
  It has no internal progress state.
- `time.time()`: the two readings of a tick are the parameters `now` and `later`. The load-time reading is the constructor's `startTime`.
- Floating-point rounding, overflow, NaN and infinities: all arithmetic is exact on reals.
  `sqrt`, `cos`, `sin`, `radians`, `degrees`, `atan2` and `pi` are uninterpreted, with the range facts of `Lawful` only.
- `spline_fit` (a no-op) and `interpolate_path` (never called).
- The `Segment` class and `course_x`/`course_y`/`course_segs`: display only.
- The waypoint `type` is one of the four kinds `start`, `straight`, `turn_end` and `end_pt`. The segment rule treats any other string like `straight`, so no other kind is modelled.
- Python exceptions (`ZeroDivisionError`, the `IndexError` of `traj_pts[-1]`) are `Fault` values in a `Failed` status.
  In the source they end the program rather than returning.
  The status out-parameters of `CreateStraightLine`, `CreateTurn` and `Generate` stand for the source's 0 / -1 results and for `simple_trajectory_generation`'s plain `return`.
- TrajectoryGen.Stitch: its own contract says only that stitching appends and what an exhausted list gives; which pair stops a run and with what fault is stated by `StitchRun`, over the run segments.
- The timer period (`nrc_drive_pp.py:165`): the comment says 10 Hz for a 0.01 s duration; scheduling is not modelled, each call of `Controller.Tick` is one tick.
