/** The safety checker and the guard and state logic of the improved robot controller
    (IgemArm_Optimized_v2.0/robot_controller_improved.py).

    The serial link is a reply oracle: `reply(n)` is what the arm answers to the n-th
    command written (counting from 0), already decoded from JSON, or `None` for an
    empty line or text that is not JSON. Reports to the global error handler go to a
    shared `ErrorHandler` object, with a fixed tag in place of the formatted message. */
module RobotControl {
  import opened Wrappers
  import opened Numerics
  import opened Geometry
  import opened Configuration
  import opened ErrorHandling
  import opened Kinematics

  datatype RobotState =
    | Disconnected | Idle | Moving | Calibrating | Treating | Failed | EmergencyStopped

  datatype JointAngles = JointAngles(
    base: real, shoulder: real, elbow: real, wrist: real, roll: real, hand: real)

  datatype JointLoads = JointLoads(
    baseLoad: real, shoulderLoad: real, elbowLoad: real, wrist1Load: real, wrist2Load: real)

  /** `RobotStatus`; the `last_update` timestamp is not modelled. */
  datatype RobotStatus = RobotStatus(
    state: RobotState, position: Point3D, angles: JointAngles, loads: JointLoads,
    isConnected: bool, errorMessage: string)

  /** `RobotStatus()` after `__post_init__`. */
  const DefaultStatus := RobotStatus(
    Disconnected, Point3D(0.0, 0.0, 0.0),
    JointAngles(0.0, 0.0, 0.0, 0.0, 0.0, 0.0), JointLoads(0.0, 0.0, 0.0, 0.0, 0.0),
    false, "")

  // ---- SafetyChecker ----

  /** `check_position`: the first axis, in the order x, y, z, whose coordinate lies
      outside its inclusive interval; `None` when the point is in the box. */
  function CheckPosition(b: Bounds, p: Point3D): (r: Option<Axis>)
    ensures r.None? <==> InBox(b, p)
    ensures r == Some(X) <==> !b.x.Contains(p.x)
    ensures r == Some(Y) <==> b.x.Contains(p.x) && !b.y.Contains(p.y)
    ensures r == Some(Z) <==> b.x.Contains(p.x) && b.y.Contains(p.y) && !b.z.Contains(p.z)
  {
    if !b.x.Contains(p.x) then Some(X)
    else if !b.y.Contains(p.y) then Some(Y)
    else if !b.z.Contains(p.z) then Some(Z)
    else None
  }

  /** The joint angles in the field order the checker visits them. */
  function AngleValues(a: JointAngles): seq<real> {
    [a.base, a.shoulder, a.elbow, a.wrist, a.roll, a.hand]
  }

  /** `max_joint_angles`: pi for every joint but the shoulder, which gets pi / 2. */
  const AngleLimits: seq<real> := [Pi, Pi / 2.0, Pi, Pi, Pi, Pi]

  function LoadValues(l: JointLoads): seq<real> {
    [l.baseLoad, l.shoulderLoad, l.elbowLoad, l.wrist1Load, l.wrist2Load]
  }

  /** `max_joint_loads`: 1000 except 500 for the two wrist loads. */
  const LoadLimits: seq<real> := [1000.0, 1000.0, 1000.0, 500.0, 500.0]

  /** The first position, from `from` on, whose value exceeds its limit in absolute value. */
  function FirstOverLimit(values: seq<real>, limits: seq<real>, from: nat): (r: Option<nat>)
    requires |values| == |limits| && from <= |values|
    ensures r.None? <==> forall i :: from <= i < |values| ==> Abs(values[i]) <= limits[i]
    ensures r.Some? ==>
      && from <= r.value < |values|
      && Abs(values[r.value]) > limits[r.value]
      && forall i :: from <= i < r.value ==> Abs(values[i]) <= limits[i]
    decreases |values| - from
  {
    if from == |values| then None
    else if Abs(values[from]) > limits[from] then Some(from)
    else FirstOverLimit(values, limits, from + 1)
  }

  /** The early-return loop of `check_joint_angles` and `check_joint_loads`. */
  method ScanLimits(values: seq<real>, limits: seq<real>) returns (r: Option<nat>)
    requires |values| == |limits|
    ensures r == FirstOverLimit(values, limits, 0)
  {
    var i := 0;
    while i < |values|
      invariant 0 <= i <= |values|
      invariant FirstOverLimit(values, limits, 0) == FirstOverLimit(values, limits, i)
    {
      if Abs(values[i]) > limits[i] {
        return Some(i);
      }
      i := i + 1;
    }
    return None;
  }

  /** `check_joint_angles`: the index, in field order, of the first joint out of range. */
  method CheckJointAngles(a: JointAngles) returns (r: Option<nat>)
    ensures r == FirstOverLimit(AngleValues(a), AngleLimits, 0)
  {
    r := ScanLimits(AngleValues(a), AngleLimits);
  }

  /** `check_joint_loads`: the index, in field order, of the first load out of range. */
  method CheckJointLoads(l: JointLoads) returns (r: Option<nat>)
    ensures r == FirstOverLimit(LoadValues(l), LoadLimits, 0)
  {
    r := ScanLimits(LoadValues(l), LoadLimits);
  }

  /** The default status has every joint angle and load within its limit. */
  lemma DefaultStatusWithinLimits()
    ensures FirstOverLimit(AngleValues(DefaultStatus.angles), AngleLimits, 0).None?
    ensures FirstOverLimit(LoadValues(DefaultStatus.loads), LoadLimits, 0).None?
  {
    var a := AngleValues(DefaultStatus.angles);
    var l := LoadValues(DefaultStatus.loads);
    assert forall i :: 0 <= i < |a| ==> Abs(a[i]) <= AngleLimits[i];
    assert forall i :: 0 <= i < |l| ==> Abs(l[i]) <= LoadLimits[i];
  }

  /** What `check_movement_safety` concludes, with the failing axis. */
  datatype PathVerdict =
    | PathSafe | StartUnsafe(axis: Axis) | EndUnsafe(axis: Axis) | MidpointUnsafe(axis: Axis)

  /** `steps = int(distance / 10)` when the move is longer than 100 mm, else no samples. */
  function SampleCount(m: Oracle, start: Point3D, end: Point3D): nat {
    var d := Distance3(m, start, end);
    if d > 100.0 then Trunc(d / 10.0) else 0
  }

  /** The point at `t = i / steps` along the move. */
  function Sample(start: Point3D, end: Point3D, i: nat, steps: nat): Point3D
    requires steps > 0
  {
    Lerp3(start, end, i as real / steps as real)
  }

  /** The first failing axis among the samples `i .. steps - 1`, in order. */
  function FirstUnsafeSample(b: Bounds, start: Point3D, end: Point3D, steps: nat, i: nat)
    : Option<Axis>
    decreases steps - i
  {
    if i >= steps then None
    else
      var c := CheckPosition(b, Sample(start, end, i, steps));
      if c.Some? then c else FirstUnsafeSample(b, start, end, steps, i + 1)
  }

  /** The verdict of `check_movement_safety`: start, then end, then the samples
      `t = i / steps` for `1 <= i < steps`. */
  function MovementSafety(m: Oracle, b: Bounds, start: Point3D, end: Point3D): PathVerdict {
    var s := CheckPosition(b, start);
    var e := CheckPosition(b, end);
    var mid := FirstUnsafeSample(b, start, end, SampleCount(m, start, end), 1);
    if s.Some? then StartUnsafe(s.value)
    else if e.Some? then EndUnsafe(e.value)
    else if mid.Some? then MidpointUnsafe(mid.value)
    else PathSafe
  }

  /** `check_movement_safety`. */
  method CheckMovementSafety(m: Oracle, b: Bounds, start: Point3D, end: Point3D)
    returns (v: PathVerdict)
    ensures v == MovementSafety(m, b, start, end)
  {
    var s := CheckPosition(b, start);
    if s.Some? {
      return StartUnsafe(s.value);
    }
    var e := CheckPosition(b, end);
    if e.Some? {
      return EndUnsafe(e.value);
    }
    var steps := SampleCount(m, start, end);
    var mid := FirstUnsafeSample(b, start, end, steps, 1);
    assert MovementSafety(m, b, start, end) == if mid.Some? then MidpointUnsafe(mid.value) else PathSafe;
    var i: int := 1;
    while i < steps
      invariant 1 <= i
      invariant mid == FirstUnsafeSample(b, start, end, steps, i)
      decreases steps - i
    {
      var c := CheckPosition(b, Sample(start, end, i, steps));
      if c.Some? {
        return MidpointUnsafe(c.value);
      }
      i := i + 1;
    }
    return PathSafe;
  }

  /** Between two points of the box, no sample leaves the box. */
  lemma {:induction false} SamplesInBox(b: Bounds, start: Point3D, end: Point3D, steps: nat, i: nat)
    requires InBox(b, start) && InBox(b, end)
    ensures FirstUnsafeSample(b, start, end, steps, i).None?
    decreases steps - i
  {
    if i < steps {
      var t := i as real / steps as real;
      assert 0.0 <= t <= 1.0 by {
        DivAtMost(i as real, steps as real, 1.0);
      }
      BoxConvex(b, start, end, t);
      SamplesInBox(b, start, end, steps, i + 1);
    }
  }

  /** The workspace is a box, hence convex, so the sampled path check never finds a
      fault the two endpoint checks did not: the move is safe exactly when both ends
      are in the box, and otherwise the verdict names the start or the end. */
  lemma MovementReducesToEndpoints(m: Oracle, b: Bounds, start: Point3D, end: Point3D)
    ensures MovementSafety(m, b, start, end) == PathSafe <==> InBox(b, start) && InBox(b, end)
    ensures !MovementSafety(m, b, start, end).MidpointUnsafe?
  {
    if InBox(b, start) && InBox(b, end) {
      SamplesInBox(b, start, end, SampleCount(m, start, end), 1);
    }
  }

  // ---- telemetry frames ----

  /** A decoded JSON object whose values are numbers. */
  type Frame = map<string, real>

  /** `data.get(key, 0)` */
  function Get(data: Frame, key: string): real {
    if key in data then data[key] else 0.0
  }

  /** The `T` code of a position feedback frame. */
  const FeedbackCode: real := 1051.0

  /** `_update_status_from_data`: a feedback frame (`T == 1051`) replaces the position,
      the joint angles from `b s e t r g` and the loads from `tB tS tE tT tR`, a missing
      key reading as 0; every other frame leaves the status alone. */
  function ApplyTelemetry(s: RobotStatus, data: Frame): (r: RobotStatus)
    ensures !("T" in data && data["T"] == FeedbackCode) ==> r == s
    ensures r.state == s.state && r.isConnected == s.isConnected
  {
    if "T" in data && data["T"] == FeedbackCode then
      s.(position := Point3D(Get(data, "x"), Get(data, "y"), Get(data, "z")),
         angles := JointAngles(Get(data, "b"), Get(data, "s"), Get(data, "e"),
                               Get(data, "t"), Get(data, "r"), Get(data, "g")),
         loads := JointLoads(Get(data, "tB"), Get(data, "tS"), Get(data, "tE"),
                             Get(data, "tT"), Get(data, "tR")))
    else s
  }

  /** The feedback frame the arm sends for a given position, angles and loads. */
  function FeedbackFrame(p: Point3D, a: JointAngles, l: JointLoads): Frame {
    map["T" := FeedbackCode, "x" := p.x, "y" := p.y, "z" := p.z,
        "b" := a.base, "s" := a.shoulder, "e" := a.elbow, "t" := a.wrist,
        "r" := a.roll, "g" := a.hand,
        "tB" := l.baseLoad, "tS" := l.shoulderLoad, "tE" := l.elbowLoad,
        "tT" := l.wrist1Load, "tR" := l.wrist2Load]
  }

  /** Decoding inverts the arm's encoding: a feedback frame sets exactly the position,
      angles and loads it carries. */
  lemma TelemetryRoundTrip(s: RobotStatus, p: Point3D, a: JointAngles, l: JointLoads)
    ensures ApplyTelemetry(s, FeedbackFrame(p, a, l)) == s.(position := p, angles := a, loads := l)
  {
    var f := FeedbackFrame(p, a, l);
    assert "T" in f && f["T"] == FeedbackCode;
    assert Get(f, "x") == p.x && Get(f, "y") == p.y && Get(f, "z") == p.z;
    assert Get(f, "b") == a.base && Get(f, "s") == a.shoulder && Get(f, "e") == a.elbow;
    assert Get(f, "t") == a.wrist && Get(f, "r") == a.roll && Get(f, "g") == a.hand;
    assert Get(f, "tB") == l.baseLoad && Get(f, "tS") == l.shoulderLoad;
    assert Get(f, "tE") == l.elbowLoad && Get(f, "tT") == l.wrist1Load;
    assert Get(f, "tR") == l.wrist2Load;
  }

  /** A feedback frame sets every field of the position, angles and loads: to the value
      its key carries when the frame has the key, and to 0 when it does not. The error
      message is kept. */
  lemma TelemetryPartialFrame(s: RobotStatus, data: Frame)
    requires "T" in data && data["T"] == FeedbackCode
    ensures var r := ApplyTelemetry(s, data);
      && r.errorMessage == s.errorMessage
      && r.position.x == (if "x" in data then data["x"] else 0.0)
      && r.position.y == (if "y" in data then data["y"] else 0.0)
      && r.position.z == (if "z" in data then data["z"] else 0.0)
      && r.angles.base == (if "b" in data then data["b"] else 0.0)
      && r.angles.shoulder == (if "s" in data then data["s"] else 0.0)
      && r.angles.elbow == (if "e" in data then data["e"] else 0.0)
      && r.angles.wrist == (if "t" in data then data["t"] else 0.0)
      && r.angles.roll == (if "r" in data then data["r"] else 0.0)
      && r.angles.hand == (if "g" in data then data["g"] else 0.0)
      && r.loads.baseLoad == (if "tB" in data then data["tB"] else 0.0)
      && r.loads.shoulderLoad == (if "tS" in data then data["tS"] else 0.0)
      && r.loads.elbowLoad == (if "tE" in data then data["tE"] else 0.0)
      && r.loads.wrist1Load == (if "tT" in data then data["tT"] else 0.0)
      && r.loads.wrist2Load == (if "tR" in data then data["tR"] else 0.0)
  {
  }

  /** A bare feedback frame `{"T": 1051}` zeroes the position, the angles and the loads. */
  lemma BareFeedbackZeroes(s: RobotStatus)
    ensures var r := ApplyTelemetry(s, map["T" := FeedbackCode]);
      && r.position == Point3D(0.0, 0.0, 0.0)
      && r.angles == JointAngles(0.0, 0.0, 0.0, 0.0, 0.0, 0.0)
      && r.loads == JointLoads(0.0, 0.0, 0.0, 0.0, 0.0)
  {
  }

  /** The position in a reply to `{"T": 105}`: present only when the reply is an object
      holding all of `x`, `y` and `z`. */
  function PositionOf(response: Option<Frame>): (r: Option<Point3D>)
    ensures r.Some? <==> response.Some? && "x" in response.value && "y" in response.value
                         && "z" in response.value
  {
    if response.Some? && "x" in response.value && "y" in response.value && "z" in response.value
    then Some(Point3D(response.value["x"], response.value["y"], response.value["z"]))
    else None
  }

  /** A position reply reads back the position it reports. */
  lemma PositionRoundTrip(p: Point3D, a: JointAngles, l: JointLoads)
    ensures PositionOf(Some(FeedbackFrame(p, a, l))) == Some(p)
  {
    var f := FeedbackFrame(p, a, l);
    assert "x" in f && "y" in f && "z" in f;
  }

  /** Python's truth test on a decoded reply: present and not the empty object. */
  predicate Answered(response: Option<Frame>) {
    response.Some? && response.value != map[]
  }

  // ---- the controller ----

  /** The commands the controller writes. */
  datatype Outgoing = QueryPosition | MoveJoints(command: Command) | Stop

  const NotConnectedMessage := "robot not connected"
  const ConnectFailedMessage := "robot connection failed"
  const OutOfWorkspaceMessage := "target outside workspace"
  const UnsafePathMessage := "movement path unsafe"
  const MoveFailedMessage := "move failed"

  /** One `handle_error` report: one record added, recovery attempted. */
  twostate predicate Reported(h: ErrorHandler, e: ErrorInfo)
    reads h
  {
    && h.maxHistorySize > 0
    && h.history == Pushed(old(h.history), e, h.maxHistorySize)
    && h.strategies == AfterRecovery(old(h.strategies), e)
  }

  twostate predicate Quiet(h: ErrorHandler)
    reads h
  {
    h.history == old(h.history) && h.strategies == old(h.strategies)
  }

  /** Several `handle_error` reports in order. */
  twostate predicate ReportedAll(h: ErrorHandler, es: seq<ErrorInfo>)
    reads h
  {
    && h.maxHistorySize > 0
    && h.history == PushedAll(old(h.history), es, h.maxHistorySize)
    && h.strategies == RecoveredAll(old(h.strategies), es)
  }

  /** What moves made past the connection guard did: the commands written, the errors
      reported, the result, and whether the state was set to IDLE on the way. */
  datatype MoveOutcome = MoveOutcome(written: seq<Outgoing>, reports: seq<ErrorInfo>, ok: bool, idle: bool)

  /** One outcome followed by the next. */
  function Then(first: MoveOutcome, next: MoveOutcome): MoveOutcome {
    MoveOutcome(first.written + next.written, first.reports + next.reports, next.ok, first.idle || next.idle)
  }

  /** `speed or default`: a missing or zero value falls back to the default. */
  function OrDefault(v: Option<real>, default: real): real {
    if v.None? || v.value == 0.0 then default else v.value
  }

  /** The sub-targets of a smooth move: `t = i / steps` for `i = 1 .. steps`. */
  function SubTargets(start: Point3D, end: Point3D, steps: int): (r: seq<Point3D>)
    ensures |r| == if steps > 0 then steps else 0
  {
    if steps <= 0 then []
    else seq(steps, i requires 0 <= i < steps => Sample(start, end, i + 1, steps))
  }

  /** The last sub-target is the target itself, and between two points of the box
      every sub-target is in the box. */
  lemma SubTargetsReachTarget(b: Bounds, start: Point3D, end: Point3D, steps: int)
    requires steps > 0
    ensures SubTargets(start, end, steps)[steps - 1] == end
    ensures InBox(b, start) && InBox(b, end) ==>
              forall i :: 0 <= i < steps ==> InBox(b, SubTargets(start, end, steps)[i])
  {
    assert (steps as real) / (steps as real) == 1.0;
    LerpEnds(start, end);
    if InBox(b, start) && InBox(b, end) {
      forall i | 0 <= i < steps
        ensures InBox(b, SubTargets(start, end, steps)[i])
      {
        var t := (i + 1) as real / steps as real;
        DivAtMost((i + 1) as real, steps as real, 1.0);
        DivAtLeast((i + 1) as real, steps as real, 0.0);
        BoxConvex(b, start, end, t);
      }
    }
  }

  class Controller {
    var isConnected: bool
    var status: RobotStatus
    /** Every command written to the serial port, in order. */
    var sent: seq<Outgoing>

    const bounds: Bounds
    const defaultSpeed: real
    const defaultAcceleration: real
    const m: Oracle
    const reply: nat -> Option<Frame>
    /** The global error handler that `handle_error` reports to. */
    const errors: ErrorHandler

    ghost predicate Valid()
      reads this, errors
    {
      errors.Valid()
    }

    /** `ImprovedRobotController(...)`: settings from the robot configuration, the
        default status, then a connection attempt (the corrected one, see
        `ConnectIntended`). */
    constructor (config: SystemConfig, m: Oracle, reply: nat -> Option<Frame>,
                 errors: ErrorHandler, portOpens: bool)
      requires errors.Valid()
      modifies errors
      ensures Valid()
      ensures this.errors == errors && this.reply == reply && this.m == m
      ensures bounds == config.robot.workspaceBounds
      ensures isConnected <==> portOpens && reply(0).Some?
      ensures isConnected ==> status == DefaultStatus.(state := Idle, isConnected := true)
      ensures !isConnected ==> status == DefaultStatus
      ensures sent == (if portOpens then [QueryPosition] else [])
      ensures defaultSpeed == config.robot.defaultSpeed
      ensures defaultAcceleration == config.robot.defaultAcceleration
      ensures !portOpens ==> Reported(errors, ErrorInfo(CommunicationError, ConnectFailedMessage))
      ensures portOpens ==> Quiet(errors)
    {
      isConnected := false;
      status := DefaultStatus;
      sent := [];
      bounds := config.robot.workspaceBounds;
      defaultSpeed := config.robot.defaultSpeed;
      defaultAcceleration := config.robot.defaultAcceleration;
      this.m := m;
      this.reply := reply;
      this.errors := errors;
      new;
      var ok := ConnectIntended(portOpens);
    }

    /** `ImprovedRobotController(...)` as written: the connection attempt is `connect`,
        whose probe is refused while the controller is still disconnected, so a new
        controller is never connected and the refusal is reported. */
    constructor AsWritten(config: SystemConfig, m: Oracle, reply: nat -> Option<Frame>,
                          errors: ErrorHandler, portOpens: bool)
      requires errors.Valid()
      modifies errors
      ensures Valid()
      ensures this.errors == errors && this.reply == reply && this.m == m
      ensures bounds == config.robot.workspaceBounds
      ensures !isConnected && status == DefaultStatus && sent == []
      ensures !portOpens ==> Reported(errors, ErrorInfo(CommunicationError, ConnectFailedMessage))
      ensures portOpens ==> Reported(errors, ErrorInfo(CommunicationError, NotConnectedMessage))
      ensures defaultSpeed == config.robot.defaultSpeed
      ensures defaultAcceleration == config.robot.defaultAcceleration
    {
      isConnected := false;
      status := DefaultStatus;
      sent := [];
      bounds := config.robot.workspaceBounds;
      defaultSpeed := config.robot.defaultSpeed;
      defaultAcceleration := config.robot.defaultAcceleration;
      this.m := m;
      this.reply := reply;
      this.errors := errors;
      new;
      var ok := Connect(portOpens);
    }

    /** `_send_command` under its communication decorator: refused and reported while
        disconnected (the wrapper returns None), otherwise written and answered. */
    method Send(c: Outgoing) returns (response: Option<Frame>)
      requires Valid()
      modifies this, errors
      ensures Valid()
      ensures isConnected == old(isConnected) && status == old(status)
      ensures old(isConnected) ==>
        sent == old(sent) + [c] && response == reply(|old(sent)|) && Quiet(errors)
      ensures !old(isConnected) ==>
        && sent == old(sent) && response.None?
        && Reported(errors, ErrorInfo(CommunicationError, NotConnectedMessage))
    {
      if !isConnected {
        var _ := errors.HandleError(CommunicationError, NotConnectedMessage);
        response := None;
      } else {
        response := reply(|sent|);
        sent := sent + [c];
      }
    }

    /** `connect` as written. The probe goes through `_send_command`, which refuses
        while `is_connected` is still False, so from a disconnected controller the
        attempt always fails. A port that will not open is reported. */
    method Connect(portOpens: bool) returns (ok: bool)
      requires Valid()
      modifies this, errors
      ensures Valid()
      ensures !old(isConnected) ==> !ok && !isConnected && status == old(status) && sent == old(sent)
      ensures !portOpens ==>
        !ok && !isConnected && status == old(status) && sent == old(sent)
        && Reported(errors, ErrorInfo(CommunicationError, ConnectFailedMessage))
      ensures ok <==> portOpens && old(isConnected) && reply(|old(sent)|).Some?
      ensures ok ==> isConnected && status == old(status).(state := Idle, isConnected := true)
      ensures !ok ==> !isConnected && status == old(status)
      ensures portOpens && !old(isConnected) ==>
        Reported(errors, ErrorInfo(CommunicationError, NotConnectedMessage))
      ensures portOpens && old(isConnected) ==>
        sent == old(sent) + [QueryPosition] && Quiet(errors)
    {
      if !portOpens {
        isConnected := false;
        var _ := errors.HandleError(CommunicationError, ConnectFailedMessage);
        return false;
      }
      var response := Send(QueryPosition);
      if response.Some? {
        isConnected := true;
        status := status.(isConnected := true, state := Idle);
        ok := true;
      } else {
        isConnected := false;
        ok := false;
      }
    }

    /** `connect` as evidently intended: once the port is open the probe is written to
        it, and the arm counts as connected exactly when it answers. */
    method ConnectIntended(portOpens: bool) returns (ok: bool)
      requires Valid()
      modifies this, errors
      ensures Valid()
      ensures ok <==> portOpens && reply(|old(sent)|).Some?
      ensures isConnected == ok
      ensures ok ==> status == old(status).(state := Idle, isConnected := true)
      ensures !ok ==> status == old(status)
      ensures sent == old(sent) + (if portOpens then [QueryPosition] else [])
      ensures !portOpens ==> Reported(errors, ErrorInfo(CommunicationError, ConnectFailedMessage))
      ensures portOpens ==> Quiet(errors)
    {
      if !portOpens {
        isConnected := false;
        var _ := errors.HandleError(CommunicationError, ConnectFailedMessage);
        return false;
      }
      isConnected := true;
      var response := Send(QueryPosition);
      if response.Some? {
        status := status.(isConnected := true, state := Idle);
        ok := true;
      } else {
        isConnected := false;
        ok := false;
      }
    }

    /** `disconnect`: the threads and the port are closed (not modelled) and both
        connection flags drop. */
    method Disconnect()
      modifies this
      ensures !isConnected && status == old(status).(isConnected := false, state := Disconnected)
      ensures sent == old(sent)
    {
      isConnected := false;
      status := status.(isConnected := false, state := Disconnected);
    }

    /** `get_current_position`: a `{"T": 105}` query and the position in its reply. */
    method GetCurrentPosition() returns (p: Option<Point3D>)
      requires Valid()
      modifies this, errors
      ensures Valid()
      ensures isConnected == old(isConnected) && status == old(status)
      ensures old(isConnected) ==>
        sent == old(sent) + [QueryPosition] && p == PositionOf(reply(|old(sent)|)) && Quiet(errors)
      ensures !old(isConnected) ==>
        && sent == old(sent) && p.None?
        && Reported(errors, ErrorInfo(CommunicationError, NotConnectedMessage))
    {
      var response := Send(QueryPosition);
      p := PositionOf(response);
    }

    /** `emergency_stop`: the state becomes EMERGENCY_STOP and a `{"T": 999}` is sent.
        Nothing else consults this state. */
    method EmergencyStop()
      requires Valid()
      modifies this, errors
      ensures Valid()
      ensures status == old(status).(state := EmergencyStopped)
      ensures isConnected == old(isConnected)
      ensures sent == old(sent) + (if old(isConnected) then [Stop] else [])
      ensures old(isConnected) ==> Quiet(errors)
      ensures !old(isConnected) ==> Reported(errors, ErrorInfo(CommunicationError, NotConnectedMessage))
    {
      status := status.(state := EmergencyStopped);
      var _ := Send(Stop);
    }

    /** `_update_status_from_data` */
    method UpdateStatusFromData(data: Frame)
      modifies this
      ensures status == ApplyTelemetry(old(status), data)
      ensures isConnected == old(isConnected) && sent == old(sent)
    {
      status := ApplyTelemetry(status, data);
    }

    /** One `move_to_position` call on a connected controller whose replies are read
        from index `n` on: a target outside the box is refused; otherwise the arm's
        position is queried, an unsafe path is refused, and the angle command is written
        unless the inverse kinematics fails; the call succeeds when the arm answers it. */
    ghost function MoveStep(n: nat, target: Point3D, speed: Option<real>, acceleration: Option<real>): (o: MoveOutcome)
      ensures o.ok ==> InBox(bounds, target) && o.reports == [] && o.idle
      ensures !InBox(bounds, target) ==> o.written == [] && !o.idle
      ensures InBox(bounds, target) ==> |o.written| > 0 && o.written[0] == QueryPosition
      ensures |o.reports| <= 1 && (o.reports == [] <==> |o.written| == 2)
    {
      if !InBox(bounds, target) then
        MoveOutcome([], [ErrorInfo(BoundaryError, OutOfWorkspaceMessage)], false, false)
      else
        var here := PositionOf(reply(n));
        if here.Some? && MovementSafety(m, bounds, here.value, target) != PathSafe then
          MoveOutcome([QueryPosition], [ErrorInfo(BoundaryError, UnsafePathMessage)], false, false)
        else
          var command := AngleCommand(m, target.x, target.y, target.z,
                                      OrDefault(speed, defaultSpeed),
                                      OrDefault(acceleration, defaultAcceleration));
          if command.Err? then
            MoveOutcome([QueryPosition], [ErrorInfo(RobotControlError, MoveFailedMessage)], false, true)
          else
            MoveOutcome([QueryPosition, MoveJoints(command.value)], [], Answered(reply(n + 1)), true)
    }

    /** The sub-moves of `move_to_position_smooth` from reply index `n` on: each
        sub-target in turn, stopping after the first that fails. */
    ghost function SmoothTrace(n: nat, subs: seq<Point3D>, speed: Option<real>): (o: MoveOutcome)
      ensures o.ok ==> o.reports == []
      decreases |subs|
    {
      if subs == [] then MoveOutcome([], [], true, false)
      else
        var first := MoveStep(n, subs[0], speed, None);
        if !first.ok then first
        else Then(first, SmoothTrace(n + |first.written|, subs[1..], speed))
    }

    /** The checks and the command of `move_to_position` once the controller is
        connected and the target is in the box. */
    method GuardedMove(target: Point3D, speed: Option<real>, acceleration: Option<real>)
      returns (ok: bool)
      requires Valid() && isConnected && InBox(bounds, target)
      modifies this, errors
      ensures Valid()
      ensures isConnected
      ensures var here := PositionOf(reply(|old(sent)|));
        if here.Some? && MovementSafety(m, bounds, here.value, target) != PathSafe then
          && !ok && sent == old(sent) + [QueryPosition] && status == old(status)
          && Reported(errors, ErrorInfo(BoundaryError, UnsafePathMessage))
        else
          var command := AngleCommand(m, target.x, target.y, target.z,
                                      OrDefault(speed, defaultSpeed),
                                      OrDefault(acceleration, defaultAcceleration));
          && status == old(status).(state := Idle)
          && (command.Err? ==>
                && !ok && sent == old(sent) + [QueryPosition]
                && Reported(errors, ErrorInfo(RobotControlError, MoveFailedMessage)))
          && (command.Ok? ==>
                && sent == old(sent) + [QueryPosition, MoveJoints(command.value)]
                && (ok <==> Answered(reply(|old(sent)| + 1)))
                && Quiet(errors))
    {
      var here := GetCurrentPosition();
      if here.Some? {
        var verdict := CheckMovementSafety(m, bounds, here.value, target);
        if verdict != PathSafe {
          var _ := errors.HandleError(BoundaryError, UnsafePathMessage);
          return false;
        }
      }
      status := status.(state := Moving);
      var command := AngleCommand(m, target.x, target.y, target.z,
                                  OrDefault(speed, defaultSpeed),
                                  OrDefault(acceleration, defaultAcceleration));
      if command.Err? {
        var _ := errors.HandleError(RobotControlError, MoveFailedMessage);
        ok := false;
      } else {
        var response := Send(MoveJoints(command.value));
        ok := Answered(response);
      }
      status := status.(state := Idle);
    }

    /** `move_to_position`: refused and reported when disconnected or when the target
        is outside the box, in that order, with no command written. Past those guards
        the state ends IDLE whatever it was before, an emergency stop included. */
    method MoveToPosition(x: real, y: real, z: real, speed: Option<real>, acceleration: Option<real>)
      returns (ok: bool)
      requires Valid()
      modifies this, errors
      ensures Valid()
      ensures isConnected == old(isConnected)
      ensures !old(isConnected) ==>
        && !ok && sent == old(sent) && status == old(status)
        && Reported(errors, ErrorInfo(CommunicationError, NotConnectedMessage))
      ensures old(isConnected) && !InBox(bounds, Point3D(x, y, z)) ==>
        && !ok && sent == old(sent) && status == old(status)
        && Reported(errors, ErrorInfo(BoundaryError, OutOfWorkspaceMessage))
      ensures ok ==> old(isConnected) && InBox(bounds, Point3D(x, y, z))
                     && status == old(status).(state := Idle)
      ensures old(isConnected) ==>
        var o := MoveStep(|old(sent)|, Point3D(x, y, z), speed, acceleration);
        && sent == old(sent) + o.written && ok == o.ok
        && status == (if o.idle then old(status).(state := Idle) else old(status))
        && ReportedAll(errors, o.reports)
    {
      if !isConnected {
        var _ := errors.HandleError(CommunicationError, NotConnectedMessage);
        ok := false;
      } else if CheckPosition(bounds, Point3D(x, y, z)).Some? {
        var _ := errors.HandleError(BoundaryError, OutOfWorkspaceMessage);
        ok := false;
      } else {
        ok := GuardedMove(Point3D(x, y, z), speed, acceleration);
      }
    }

    /** `move_to_position_smooth`: from the position the arm reports, one move per
        sub-target `t = i / steps`, `i = 1 .. steps`, stopping at the first that fails. */
    method MoveToPositionSmooth(x: real, y: real, z: real, steps: int, speed: Option<real>)
      returns (ok: bool)
      requires Valid()
      modifies this, errors
      ensures Valid()
      ensures isConnected == old(isConnected)
      ensures !old(isConnected) ==>
        && !ok && sent == old(sent) && status == old(status)
        && Reported(errors, ErrorInfo(CommunicationError, NotConnectedMessage))
      ensures old(isConnected) && PositionOf(reply(|old(sent)|)).None? ==>
        && !ok && sent == old(sent) + [QueryPosition]
        && status == old(status) && Quiet(errors)
      ensures old(isConnected) && PositionOf(reply(|old(sent)|)).Some? ==>
        var subs := SubTargets(PositionOf(reply(|old(sent)|)).value, Point3D(x, y, z), steps);
        var run := SmoothTrace(|old(sent)| + 1, subs, speed);
        && sent == old(sent) + [QueryPosition] + run.written
        && ok == run.ok
        && status == (if run.idle then old(status).(state := Idle) else old(status))
        && ReportedAll(errors, run.reports)
    {
      var here := GetCurrentPosition();
      if here.None? {
        return false;
      }
      ghost var history1, strategies1 := errors.history, errors.strategies;
      assert history1 == old(errors.history) && strategies1 == old(errors.strategies);
      assert |sent| == |old(sent)| + 1 && status == old(status);
      ok := SmoothLoop(here.value, Point3D(x, y, z), steps, speed);
    }

    /** One sub-move of a smooth move: `move_to_position` on a connected controller with
        the default acceleration. */
    method SubMove(p: Point3D, speed: Option<real>) returns (success: bool)
      requires Valid() && isConnected
      modifies this, errors
      ensures Valid() && isConnected
      ensures var step := MoveStep(|old(sent)|, p, speed, None);
        && sent == old(sent) + step.written && success == step.ok
        && status == (if step.idle then old(status).(state := Idle) else old(status))
        && errors.history == PushedAll(old(errors.history), step.reports, errors.maxHistorySize)
        && errors.strategies == RecoveredAll(old(errors.strategies), step.reports)
    {
      success := MoveToPosition(p.x, p.y, p.z, speed, None);
      assert Point3D(p.x, p.y, p.z) == p;
    }

    /** The state after the sub-moves `done` of a smooth move, from the log, status
        and error record it started with. */
    ghost predicate SmoothState(base: seq<Outgoing>, status0: RobotStatus, history0: seq<ErrorInfo>,
                                strategies0: seq<Strategy>, done: MoveOutcome)
      reads this, errors
    {
      && Valid() && isConnected
      && sent == base + done.written
      && status == (if done.idle then status0.(state := Idle) else status0)
      && errors.history == PushedAll(history0, done.reports, errors.maxHistorySize)
      && errors.strategies == RecoveredAll(strategies0, done.reports)
    }

    /** The sub-move loop of `move_to_position_smooth`, once the start is known. */
    method SmoothLoop(here: Point3D, target: Point3D, steps: int, speed: Option<real>) returns (ok: bool)
      requires Valid() && isConnected
      modifies this, errors
      ensures Valid() && isConnected
      ensures var run := SmoothTrace(|old(sent)|, SubTargets(here, target, steps), speed);
        && sent == old(sent) + run.written
        && ok == run.ok
        && status == (if run.idle then old(status).(state := Idle) else old(status))
        && ReportedAll(errors, run.reports)
    {
      ghost var subs := SubTargets(here, target, steps);
      ghost var base, status0 := sent, status;
      ghost var history0, strategies0 := errors.history, errors.strategies;
      ghost var done := MoveOutcome([], [], true, false);
      ghost var run := SmoothTrace(|base|, subs, speed);
      assert subs[0..] == subs;
      ThenFromNothing(run);
      var i := 1;
      while i <= steps
        invariant 1 <= i && i - 1 <= |subs|
        invariant SmoothState(base, status0, history0, strategies0, done)
        invariant Then(done, SmoothTrace(|sent|, subs[i - 1..], speed)) == run
      {
        var p := Sample(here, target, i, steps);
        var success;
        success, done := SmoothStep(p, speed, base, status0, history0, strategies0, subs, i - 1, done);
        if !success {
          assert done == run;
          return false;
        }
        i := i + 1;
      }
      assert subs[i - 1..] == [];
      assert SmoothTrace(|sent|, subs[i - 1..], speed) == MoveOutcome([], [], true, false);
      ThenNothing(done);
      assert run == done.(ok := true);
      ok := true;
    }

    /** One turn of the smooth-move loop: the sub-move to `subs[k]`, after which the
        state follows the outcome so far, and either the rest of the run remains or,
        when it failed, the run is over. */
    method SmoothStep(p: Point3D, speed: Option<real>, ghost base: seq<Outgoing>,
                      ghost status0: RobotStatus, ghost history0: seq<ErrorInfo>,
                      ghost strategies0: seq<Strategy>, ghost subs: seq<Point3D>, ghost k: nat,
                      ghost done: MoveOutcome)
      returns (success: bool, ghost after: MoveOutcome)
      requires k < |subs| && p == subs[k]
      requires SmoothState(base, status0, history0, strategies0, done)
      requires Then(done, SmoothTrace(|sent|, subs[k..], speed)) == SmoothTrace(|base|, subs, speed)
      modifies this, errors
      ensures SmoothState(base, status0, history0, strategies0, after)
      ensures after.ok == success
      ensures success ==>
        Then(after, SmoothTrace(|sent|, subs[k + 1..], speed)) == SmoothTrace(|base|, subs, speed)
      ensures !success ==> after == SmoothTrace(|base|, subs, speed)
    {
      ghost var sentBefore := sent;
      ghost var step := MoveStep(|sent|, p, speed, None);
      success := SubMove(p, speed);
      ReportsAppend(history0, strategies0, done.reports, step.reports, errors.maxHistorySize);
      SmoothAdvances(this, |base|, subs, k, speed, done, |sentBefore|, |sent|, step);
      SentGrows(base, done.written, step.written, sentBefore, sent);
      after := Then(done, step);
    }
  }

  /** Nothing done yet: the outcome is the remaining run's. */
  lemma ThenFromNothing(a: MoveOutcome)
    ensures Then(MoveOutcome([], [], true, false), a) == a
  {
    assert [] + a.written == a.written && [] + a.reports == a.reports;
  }

  /** Nothing left to do: the run is what was done, and it succeeded. */
  lemma ThenNothing(a: MoveOutcome)
    ensures Then(a, MoveOutcome([], [], true, false)) == a.(ok := true)
  {
    assert a.written + [] == a.written && a.reports + [] == a.reports;
  }

  /** The log after one more sub-move. */
  lemma SentGrows(base: seq<Outgoing>, done: seq<Outgoing>, step: seq<Outgoing>,
                  before: seq<Outgoing>, after: seq<Outgoing>)
    requires before == base + done && after == before + step
    ensures after == base + (done + step)
  {
  }

  /** Outcomes compose associatively. */
  lemma ThenAssoc(a: MoveOutcome, b: MoveOutcome, c: MoveOutcome)
    ensures Then(Then(a, b), c) == Then(a, Then(b, c))
  {
    assert (a.written + b.written) + c.written == a.written + (b.written + c.written);
    assert (a.reports + b.reports) + c.reports == a.reports + (b.reports + c.reports);
  }

  /** One more sub-move taken: the outcome so far followed by the remaining sub-moves
      is still the whole run; a failed sub-move ends it. */
  lemma SmoothAdvances(c: Controller, start: nat, subs: seq<Point3D>, k: nat, speed: Option<real>,
                       done: MoveOutcome, n: nat, next: nat, step: MoveOutcome)
    requires k < |subs|
    requires Then(done, c.SmoothTrace(n, subs[k..], speed)) == c.SmoothTrace(start, subs, speed)
    requires step == c.MoveStep(n, subs[k], speed, None) && next == n + |step.written|
    ensures step.ok ==> Then(Then(done, step), c.SmoothTrace(next, subs[k + 1..], speed))
                          == c.SmoothTrace(start, subs, speed)
    ensures !step.ok ==> Then(done, step) == c.SmoothTrace(start, subs, speed)
  {
    SmoothStepUnfolds(c, n, subs, k, speed);
    if step.ok {
      ThenAssoc(done, step, c.SmoothTrace(next, subs[k + 1..], speed));
    }
  }

  /** The remaining sub-moves from index `k` on: the move to `subs[k]`, then, when it
      succeeds, the rest. */
  lemma SmoothStepUnfolds(c: Controller, n: nat, subs: seq<Point3D>, k: nat, speed: Option<real>)
    requires k < |subs|
    ensures var step := c.MoveStep(n, subs[k], speed, None);
      c.SmoothTrace(n, subs[k..], speed)
        == if step.ok then Then(step, c.SmoothTrace(n + |step.written|, subs[k + 1..], speed)) else step
  {
    assert subs[k..][0] == subs[k] && subs[k..][1..] == subs[k + 1..];
  }

  /** The sub-move to `p` went through: `p` was in the box and had an angle command,
      and the two commands written were a position query and that command. */
  ghost predicate MovedTo(c: Controller, p: Point3D, speed: Option<real>, query: Outgoing, move: Outgoing) {
    var command := AngleCommand(c.m, p.x, p.y, p.z, OrDefault(speed, c.defaultSpeed),
                                c.defaultAcceleration);
    && InBox(c.bounds, p) && command.Ok?
    && query == QueryPosition && move == MoveJoints(command.value)
  }

  /** A smooth move that succeeds has moved to every sub-target in order, each with a
      position query followed by its angle command, with nothing reported. */
  lemma {:induction false} SmoothTraceSucceeds(c: Controller, n: nat, subs: seq<Point3D>,
                                               speed: Option<real>)
    ensures var run := c.SmoothTrace(n, subs, speed);
      run.ok ==>
        && run.reports == [] && |run.written| == 2 * |subs|
        && forall k :: 0 <= k < |subs| ==>
             MovedTo(c, subs[k], speed, run.written[2 * k], run.written[2 * k + 1])
    decreases |subs|
  {
    if subs != [] {
      var first := c.MoveStep(n, subs[0], speed, None);
      var rest := c.SmoothTrace(n + |first.written|, subs[1..], speed);
      var run := c.SmoothTrace(n, subs, speed);
      if first.ok && run.ok {
        SmoothTraceSucceeds(c, n + |first.written|, subs[1..], speed);
        MoveStepSucceeds(c, n, subs[0], speed);
        assert run == Then(first, rest);
        MovedToShift(c, subs, speed, first.written, rest.written);
      }
    }
  }

  /** The first sub-move's two commands followed by those of the rest: every sub-target
      is matched with its own pair of commands. */
  lemma MovedToShift(c: Controller, subs: seq<Point3D>, speed: Option<real>,
                     pair: seq<Outgoing>, rest: seq<Outgoing>)
    requires |subs| > 0 && |pair| == 2 && |rest| == 2 * (|subs| - 1)
    requires MovedTo(c, subs[0], speed, pair[0], pair[1])
    requires forall k :: 0 <= k < |subs| - 1 ==>
               MovedTo(c, subs[1..][k], speed, rest[2 * k], rest[2 * k + 1])
    ensures forall k :: 0 <= k < |subs| ==>
              MovedTo(c, subs[k], speed, (pair + rest)[2 * k], (pair + rest)[2 * k + 1])
  {
    forall k | 1 <= k < |subs|
      ensures MovedTo(c, subs[k], speed, (pair + rest)[2 * k], (pair + rest)[2 * k + 1])
    {
      assert subs[k] == subs[1..][k - 1];
      assert (pair + rest)[2 * k] == rest[2 * (k - 1)];
      assert (pair + rest)[2 * k + 1] == rest[2 * (k - 1) + 1];
    }
  }

  /** A sub-move that succeeds had its target in the box and an angle command, and
      wrote a position query followed by that command. */
  lemma MoveStepSucceeds(c: Controller, n: nat, p: Point3D, speed: Option<real>)
    ensures var step := c.MoveStep(n, p, speed, None);
      step.ok ==> |step.written| == 2 && MovedTo(c, p, speed, step.written[0], step.written[1])
  {
  }

  /** A smooth move that fails had at least one sub-target and reported at most one
      error, the one that stopped it. */
  lemma {:induction false} SmoothTraceFails(c: Controller, n: nat, subs: seq<Point3D>,
                                            speed: Option<real>)
    ensures var run := c.SmoothTrace(n, subs, speed);
      !run.ok ==> subs != [] && |run.reports| <= 1
    decreases |subs|
  {
    if subs != [] {
      var first := c.MoveStep(n, subs[0], speed, None);
      if first.ok {
        SmoothTraceFails(c, n + |first.written|, subs[1..], speed);
      }
    }
  }

  /** The default status is not a safe position: the origin lies below the default
      box (z must be at least 50). */
  lemma DefaultPositionOutsideBox()
    ensures CheckPosition(DefaultBounds, DefaultStatus.position) == Some(Z)
  {
  }

  /** A corner of the default box that the arm cannot reach: with an exact `sqrt`,
      the inverse kinematics fails there with an `acos` domain error, so a connected
      controller that passes every guard still refuses the move. */
  lemma BoxCornerUnreachable(m: Oracle)
    requires ExactSqrtAt(m, SquaredReach(400.0, 200.0, 300.0))
    requires ExactSqrtAt(m, 400.0 * 400.0 + 200.0 * 200.0)
    ensures InBox(DefaultBounds, Point3D(400.0, 200.0, 300.0))
    ensures AngleCommand(m, 400.0, 200.0, 300.0, 0.08, 10.0) == Err(AcosDomain)
  {
    ShoulderDefinedIff(m, 400.0, 200.0, 300.0);
    assert !InReach(400.0, 200.0, 300.0);
  }
}
