/** The direct serial controller of the arm (control.py): command builders, the PID
    set-up, single moves and straight-line moves through evenly spaced waypoints.

    Writing a command is recorded in `sent`; the reply line the controller reads after
    each command is discarded by the source and is not modelled. */
module ArmControl {
  import opened Wrappers
  import opened Numerics
  import opened Geometry
  import opened Kinematics

  /** The JSON commands this controller writes. */
  datatype ControlCommand =
    | EndPosition(x: real, y: real, z: real, t: real, g: real, spd: real)
    | ZeroArm
    | Pid(joint: int, p: real, i: real)
    | Joints(command: Command)

  /** The `T` field of each command. */
  function Code(c: ControlCommand): int {
    match c
    case EndPosition(_, _, _, _, _, _) => 104
    case ZeroArm => 100
    case Pid(_, _, _) => 108
    case Joints(command) => command.t
  }

  const DefaultWristAngle: real := 3.1415 / 2.0
  const DefaultGripAngle: real := 3.14
  const DefaultGap: real := 10.0

  /** The command of `set_end_position`: `T = 104` with the target and the tool angles. */
  function EndPositionCommand(x: real, y: real, z: real, t: real := DefaultWristAngle,
                              g: real := DefaultGripAngle, speed: real := 0.0)
    : (c: ControlCommand)
    ensures Code(c) == 104
    ensures c.EndPosition? && c.x == x && c.y == y && c.z == z && c.t == t && c.g == g && c.spd == speed
  {
    EndPosition(x, y, z, t, g, speed)
  }

  /** With no tool angles and speed given: t = 3.1415 / 2, g = 3.14 and spd = 0. */
  lemma EndPositionDefaults(x: real, y: real, z: real)
    ensures EndPositionCommand(x, y, z) == EndPosition(x, y, z, 3.1415 / 2.0, 3.14, 0.0)
  {
  }

  /** The six PID commands of `setPID`: joints 1 to 6 in order, each with the same gains. */
  function PidCommands(p: real, i: real): (r: seq<ControlCommand>)
    ensures |r| == 6
    ensures forall k :: 0 <= k < 6 ==> r[k] == Pid(k + 1, p, i) && Code(r[k]) == 108
  {
    seq(6, k requires 0 <= k < 6 => Pid(k + 1, p, i))
  }

  // ---- straight-line waypoints ----

  /** `np.linspace(start, end, n)`: `n` evenly spaced points from `start`, the last one
      `end` itself when there are at least two; a single point is `start`. */
  function Linspace(start: Point3D, end: Point3D, n: nat): (r: seq<Point3D>)
    requires n >= 1
    ensures |r| == n && r[0] == start
    ensures n >= 2 ==> r[n - 1] == end
    ensures forall k :: 0 <= k < n && n >= 2 ==>
              r[k] == Lerp3(start, end, k as real / (n - 1) as real)
  {
    LerpEnds(start, end);
    assert n >= 2 ==> (n - 1) as real / (n - 1) as real == 1.0;
    seq(n, k requires 0 <= k < n =>
          if n == 1 then start else Lerp3(start, end, k as real / (n - 1) as real))
  }

  /** Every waypoint lies on the segment from `start` to `end`. */
  lemma LinspaceOnSegment(start: Point3D, end: Point3D, n: nat, k: nat)
    requires n >= 2 && k < n
    ensures exists t :: 0.0 <= t <= 1.0 && Linspace(start, end, n)[k] == Lerp3(start, end, t)
  {
    var t := k as real / (n - 1) as real;
    DivAtMost(k as real, (n - 1) as real, 1.0);
    DivAtLeast(k as real, (n - 1) as real, 0.0);
    assert Linspace(start, end, n)[k] == Lerp3(start, end, t);
  }

  /** `point_number = max(1, int(distance / gap) + 1)`. */
  function WaypointCount(m: Oracle, start: Point3D, end: Point3D, gap: real): (n: nat)
    requires gap != 0.0
    ensures n >= 1
    ensures n == if Trunc(Distance3(m, start, end) / gap) + 1 > 1
                 then Trunc(Distance3(m, start, end) / gap) + 1 else 1
  {
    var k := Trunc(Distance3(m, start, end) / gap) + 1;
    if k > 1 then k else 1
  }

  /** The waypoints of `move_to_position_straight`, as written. */
  function Waypoints(m: Oracle, start: Point3D, end: Point3D, gap: real): (r: seq<Point3D>)
    requires gap != 0.0
    ensures |r| == WaypointCount(m, start, end, gap) && r[0] == start
    ensures |r| >= 2 ==> r[|r| - 1] == end
  {
    Linspace(start, end, WaypointCount(m, start, end, gap))
  }

  /** As written, a move shorter than one gap (but not empty) has the single waypoint
      `start`: the end point is never commanded. With `gap = 10`, `start = (0, 0, 0)`
      and `end = (5, 0, 0)`, the only waypoint is the origin. */
  lemma ShortMoveMissesEnd(m: Oracle, start: Point3D, end: Point3D, gap: real)
    requires gap > 0.0 && ExactSqrtAt(m, SquaredDistance3(start, end))
    requires 0.0 < SquaredDistance3(start, end) < gap * gap
    ensures Waypoints(m, start, end, gap) == [start]
    ensures start != end
  {
    var d := Distance3(m, start, end);
    assert d * d == SquaredDistance3(start, end);
    SquareWithin(d, gap);
    assert d < gap;
    DivAtMost(d, gap, 1.0);
    DivAtLeast(d, gap, 0.0);
    assert Trunc(d / gap) == 0;
  }

  /** The smallest case of the finding above, with its numbers filled in. */
  lemma ShortMoveExample(m: Oracle)
    requires ExactSqrtAt(m, 25.0)
    ensures Waypoints(m, Point3D(0.0, 0.0, 0.0), Point3D(5.0, 0.0, 0.0), 10.0)
            == [Point3D(0.0, 0.0, 0.0)]
  {
    ShortMoveMissesEnd(m, Point3D(0.0, 0.0, 0.0), Point3D(5.0, 0.0, 0.0), 10.0);
  }

  /** The evidently intended count: at least two waypoints, so the move ends at `end`. */
  function WaypointCountIntended(m: Oracle, start: Point3D, end: Point3D, gap: real): (n: nat)
    requires gap != 0.0
    ensures n >= 2
  {
    var k := Trunc(Distance3(m, start, end) / gap) + 1;
    if k > 2 then k else 2
  }

  /** The corrected waypoints: they start at `start` and always finish at `end`. */
  function WaypointsIntended(m: Oracle, start: Point3D, end: Point3D, gap: real)
    : (r: seq<Point3D>)
    requires gap != 0.0
    ensures |r| >= 2 && r[0] == start && r[|r| - 1] == end
  {
    Linspace(start, end, WaypointCountIntended(m, start, end, gap))
  }

  /** The correction only changes the one-waypoint case: for a move of at least one
      gap both give the same waypoints. */
  lemma IntendedAgreesOnLongMoves(m: Oracle, start: Point3D, end: Point3D, gap: real)
    requires gap != 0.0
    requires WaypointCount(m, start, end, gap) >= 2
    ensures WaypointsIntended(m, start, end, gap) == Waypoints(m, start, end, gap)
  {
    assert WaypointCountIntended(m, start, end, gap) == WaypointCount(m, start, end, gap);
  }

  /** The joint commands for a list of points, in order, up to the first point the
      inverse kinematics cannot reach, with the error raised there. */
  function PlanCommands(m: Oracle, points: seq<Point3D>)
    : (r: (seq<Command>, Option<AngleError>))
    ensures |r.0| <= |points|
    ensures forall i :: 0 <= i < |r.0| ==>
              AngleCommand(m, points[i].x, points[i].y, points[i].z) == Ok(r.0[i])
    ensures r.1.None? ==> |r.0| == |points|
    ensures r.1.Some? ==>
      |r.0| < |points| &&
      AngleCommand(m, points[|r.0|].x, points[|r.0|].y, points[|r.0|].z) == Err(r.1.value)
  {
    if points == [] then ([], None)
    else
      var init := PlanCommands(m, points[..|points| - 1]);
      var p := points[|points| - 1];
      if init.1.Some? then init
      else
        var c := AngleCommand(m, p.x, p.y, p.z);
        if c.Err? then (init.0, Some(c.error)) else (init.0 + [c.value], None)
  }

  function JointsOf(cs: seq<Command>): (r: seq<ControlCommand>)
    ensures |r| == |cs| && forall i :: 0 <= i < |cs| ==> r[i] == Joints(cs[i])
  {
    seq(|cs|, i requires 0 <= i < |cs| => Joints(cs[i]))
  }

  /** `RoArmControl`: the port is opened by the constructor (not modelled). */
  class RoArmControl {
    var sent: seq<ControlCommand>
    const m: Oracle

    constructor (m: Oracle)
      ensures sent == [] && this.m == m
    {
      sent := [];
      this.m := m;
    }

    /** `send_command` */
    method SendCommand(c: ControlCommand)
      modifies this
      ensures sent == old(sent) + [c]
    {
      sent := sent + [c];
    }

    /** `set_end_position` */
    method SetEndPosition(x: real, y: real, z: real, t: real := DefaultWristAngle,
                          g: real := DefaultGripAngle, speed: real := 0.0)
      modifies this
      ensures sent == old(sent) + [EndPositionCommand(x, y, z, t, g, speed)]
    {
      SendCommand(EndPositionCommand(x, y, z, t, g, speed));
    }

    /** `zero`: exactly `{"T": 100}`. */
    method Zero()
      modifies this
      ensures sent == old(sent) + [ZeroArm]
    {
      SendCommand(ZeroArm);
    }

    /** `setPID(P=8, I=0)` */
    method SetPid(p: real := 8.0, i: real := 0.0)
      modifies this
      ensures sent == old(sent) + PidCommands(p, i)
    {
      var joint := 1;
      while joint < 7
        invariant 1 <= joint <= 7
        invariant sent == old(sent) + PidCommands(p, i)[..joint - 1]
      {
        assert PidCommands(p, i)[..joint] == PidCommands(p, i)[..joint - 1] + [Pid(joint, p, i)];
        SendCommand(Pid(joint, p, i));
        joint := joint + 1;
      }
      assert PidCommands(p, i)[..6] == PidCommands(p, i);
    }

    /** `move_to_position`: exactly the command `anglecommandgenerator(x, y, z)`; an
        unreachable target raises before anything is written. */
    method MoveToPosition(x: real, y: real, z: real) returns (r: Result<(), AngleError>)
      modifies this
      ensures var c := AngleCommand(m, x, y, z);
        && (c.Ok? ==> r.Ok? && sent == old(sent) + [Joints(c.value)])
        && (c.Err? ==> r == Err(c.error) && sent == old(sent))
    {
      var c := AngleCommand(m, x, y, z);
      if c.Err? {
        return Err(c.error);
      }
      SendCommand(Joints(c.value));
      r := Ok(());
    }

    /** `move_to_position_straight` with the corrected waypoint count: one joint command
        per waypoint, in order, up to the first waypoint out of reach. When every
        waypoint is reachable the last command sent is the one for `end`. */
    method MoveToPositionStraight(start: Point3D, end: Point3D, gap: real := DefaultGap)
      returns (r: Result<(), AngleError>)
      requires gap != 0.0
      modifies this
      ensures var plan := PlanCommands(m, WaypointsIntended(m, start, end, gap));
        && sent == old(sent) + JointsOf(plan.0)
        && (r.Err? <==> plan.1.Some?)
      ensures r.Ok? ==>
        |sent| > |old(sent)| &&
        sent[|sent| - 1] == Joints(AngleCommand(m, end.x, end.y, end.z).value)
    {
      r := SendPlan(WaypointsIntended(m, start, end, gap));
      if r.Ok? {
        StraightEndsAtTarget(m, start, end, gap);
      }
    }

    /** `move_to_position_straight` as written: the same loop over the written
        waypoints, so a move shorter than one gap commands `start` alone. */
    method MoveToPositionStraightAsWritten(start: Point3D, end: Point3D, gap: real := DefaultGap)
      returns (r: Result<(), AngleError>)
      requires gap != 0.0
      modifies this
      ensures var plan := PlanCommands(m, Waypoints(m, start, end, gap));
        && sent == old(sent) + JointsOf(plan.0)
        && (r.Err? <==> plan.1.Some?)
      ensures gap > 0.0 && ExactSqrtAt(m, SquaredDistance3(start, end))
              && 0.0 < SquaredDistance3(start, end) < gap * gap && r.Ok? ==>
        sent == old(sent) + [Joints(AngleCommand(m, start.x, start.y, start.z).value)]
    {
      r := SendPlan(Waypoints(m, start, end, gap));
      if gap > 0.0 && ExactSqrtAt(m, SquaredDistance3(start, end))
         && 0.0 < SquaredDistance3(start, end) < gap * gap && r.Ok? {
        ShortMoveMissesEnd(m, start, end, gap);
        PlanComplete(m, [start]);
      }
    }

    /** The loop of `move_to_position_straight`: one joint command per point, in
        order, stopping at the first point out of reach. */
    method SendPlan(points: seq<Point3D>) returns (r: Result<(), AngleError>)
      modifies this
      ensures sent == old(sent) + JointsOf(PlanCommands(m, points).0)
      ensures r.Err? <==> PlanCommands(m, points).1.Some?
    {
      var k := 0;
      while k < |points|
        invariant 0 <= k <= |points|
        invariant PlanCommands(m, points[..k]).1.None?
        invariant sent == old(sent) + JointsOf(PlanCommands(m, points[..k]).0)
      {
        var p := points[k];
        var c := AngleCommand(m, p.x, p.y, p.z);
        PlanStep(m, points, k);
        if c.Err? {
          PlanStops(m, points, k + 1);
          assert PlanCommands(m, points) == (PlanCommands(m, points[..k]).0, Some(c.error));
          return Err(c.error);
        }
        SendCommand(Joints(c.value));
        k := k + 1;
      }
      assert points[..k] == points;
      r := Ok(());
    }
  }

  /** A straight move whose every waypoint is reachable commands the target last. */
  lemma StraightEndsAtTarget(m: Oracle, start: Point3D, end: Point3D, gap: real)
    requires gap != 0.0
    requires PlanCommands(m, WaypointsIntended(m, start, end, gap)).1.None?
    ensures var js := JointsOf(PlanCommands(m, WaypointsIntended(m, start, end, gap)).0);
      |js| > 0 && js[|js| - 1] == Joints(AngleCommand(m, end.x, end.y, end.z).value)
  {
    PlanComplete(m, WaypointsIntended(m, start, end, gap));
  }

  /** One more point extends the plan by its command, or ends it with its error. */
  lemma PlanStep(m: Oracle, points: seq<Point3D>, k: nat)
    requires k < |points| && PlanCommands(m, points[..k]).1.None?
    ensures var p := points[k];
      var c := AngleCommand(m, p.x, p.y, p.z);
      && (c.Err? ==> PlanCommands(m, points[..k + 1]) == (PlanCommands(m, points[..k]).0, Some(c.error)))
      && (c.Ok? ==> PlanCommands(m, points[..k + 1]) == (PlanCommands(m, points[..k]).0 + [c.value], None))
      && (c.Ok? ==> JointsOf(PlanCommands(m, points[..k + 1]).0)
                    == JointsOf(PlanCommands(m, points[..k]).0) + [Joints(c.value)])
  {
    assert points[..k + 1][..k] == points[..k];
    assert points[..k + 1][k] == points[k];
  }

  /** A plan that reaches every point ends with the command for the last point. */
  lemma PlanComplete(m: Oracle, points: seq<Point3D>)
    requires |points| > 0 && PlanCommands(m, points).1.None?
    ensures var cs := PlanCommands(m, points).0;
      var p := points[|points| - 1];
      |JointsOf(cs)| > 0 && JointsOf(cs)[|cs| - 1] == Joints(AngleCommand(m, p.x, p.y, p.z).value)
  {
  }

  /** Once the plan of a prefix has failed, longer prefixes fail the same way. */
  lemma {:induction false} PlanStops(m: Oracle, points: seq<Point3D>, k: nat)
    requires k <= |points|
    requires PlanCommands(m, points[..k]).1.Some?
    ensures PlanCommands(m, points) == PlanCommands(m, points[..k])
    decreases |points| - k
  {
    if k < |points| {
      assert points[..k + 1][..k] == points[..k];
      PlanStops(m, points, k + 1);
    } else {
      assert points[..k] == points;
    }
  }
}
