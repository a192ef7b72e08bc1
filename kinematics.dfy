/** Closed-form inverse kinematics of the arm and the joint-angle command built from it
    (countbyhand.py).

    The arm is a two-link chain: an upper arm of 238.7127 mm and a forearm of 145 mm. The
    base turns to the planar angle of the target, the elbow angle follows from the law
    of cosines on the reach, and the shoulder angle combines the elevation of the target
    with the angle the upper arm makes with the reach line. */
module Kinematics {
  import opened Wrappers
  import opened Numerics

  /** `l1`, the upper-arm length. */
  const UpperArm: real := 238.7127
  /** `l2`, the forearm length. */
  const Forearm: real := 145.0
  /** The mounting offset subtracted from both the elbow and the shoulder angle. */
  const JointOffset: real := 0.12600731876944798
  /** The shoulder formula writes a right angle with the literal `3.1415926 / 2`. */
  const RightAngleLiteral: real := 3.1415926 / 2.0
  /** The `T` code of a joint-angle command. */
  const JointAnglesCode: int := 102
  /** The fixed gripper angle of every command. */
  const HandAngle: real := 3.14
  /** The wrist keeps the tool this far from the sum of the other two joints. */
  const WristOffset: real := 0.1
  const DefaultSpeed: real := 0.0
  const DefaultAcc: real := 10.0

  /** Why Python raises in `calculate_shoulder_angle`: a division by a zero reach
      (`ZeroDivisionError`) or an `acos` argument outside [-1, 1] (`ValueError`). */
  datatype AngleError = ZeroReach | AcosDomain

  /** `calculate_all_angles`' dictionary. */
  datatype Angles = Angles(base: real, shoulder: real, elbow: real)

  /** The `T = 102` command dictionary built by `anglecommandgenerator`. */
  datatype Command = Command(
    t: int, base: real, shoulder: real, elbow: real, wrist: real,
    roll: real, hand: real, spd: real, acc: real)

  /** `x**2 + y**2 + z**2`: the squared reach of a target. */
  function SquaredReach(x: real, y: real, z: real): real {
    x * x + y * y + z * z
  }

  /** The squared reaches the two links can span: from (l1 - l2)^2 to (l1 + l2)^2. */
  predicate InReach(x: real, y: real, z: real) {
    (UpperArm - Forearm) * (UpperArm - Forearm) <= SquaredReach(x, y, z)
      <= (UpperArm + Forearm) * (UpperArm + Forearm)
  }

  predicate InAcosDomain(u: real) {
    -1.0 <= u <= 1.0
  }

  // ---- cartesian_to_polar ----

  /** The planar angle of `(x, y)`, in radians, or in degrees moved into [0, 360) when
      `degrees` is set. Only the angle is returned; the radius is computed and dropped. */
  function CartesianToPolar(m: Oracle, x: real, y: real, degrees: bool): real {
    var theta := m.atan2(y, x);
    if !degrees then theta
    else if Degrees(theta) < 0.0 then Degrees(theta) + 360.0
    else Degrees(theta)
  }

  /** In degrees the angle lies in [0, 360) and names the same direction as the radian
      angle: it differs from it, once converted, by zero or one full turn. */
  lemma PolarDegreesRange(m: Oracle, x: real, y: real)
    requires Atan2Range(m)
    ensures 0.0 <= CartesianToPolar(m, x, y, true) < 360.0
    ensures CartesianToPolar(m, x, y, true) - Degrees(CartesianToPolar(m, x, y, false))
              in {0.0, 360.0}
  {
    var theta := m.atan2(y, x);
    assert -Pi <= theta <= Pi;
    assert Degrees(Pi) == 180.0;
  }

  // ---- calculate_elbow_angle ----

  /** The law-of-cosines value `(l1^2 + l2^2 - l3^2) / (2 l1 l2)` clamped into [-1, 1];
      it is left alone when it is already there. */
  function ElbowCosine(m: Oracle, x: real, y: real, z: real): (c: real)
    ensures InAcosDomain(c)
    ensures var l3 := m.sqrt(SquaredReach(x, y, z));
            var raw := (UpperArm * UpperArm + Forearm * Forearm - l3 * l3)
                       / (2.0 * UpperArm * Forearm);
            InAcosDomain(raw) ==> c == raw
  {
    var l3 := m.sqrt(SquaredReach(x, y, z));
    Clamp((UpperArm * UpperArm + Forearm * Forearm - l3 * l3) / (2.0 * UpperArm * Forearm),
          -1.0, 1.0)
  }

  /** `calculate_elbow_angle`: the exterior angle at the elbow, less the offset. It
      never raises, because of the clamp. */
  function ElbowAngle(m: Oracle, x: real, y: real, z: real): real {
    Pi - m.acos(ElbowCosine(m, x, y, z)) - JointOffset
  }

  /** The elbow angle lies in [-offset, pi - offset] for every target. */
  lemma ElbowRange(m: Oracle, x: real, y: real, z: real)
    requires AcosRange(m)
    ensures -JointOffset <= ElbowAngle(m, x, y, z) <= Pi - JointOffset
  {
    var c := ElbowCosine(m, x, y, z);
    assert 0.0 <= m.acos(c) <= Pi;
  }

  /** For a reachable target the elbow angle is exact: the interior angle it encodes
      closes the triangle of the two links over the reach, by the law of cosines. */
  lemma ElbowLawOfCosines(m: Oracle, x: real, y: real, z: real)
    requires ExactSqrtAt(m, SquaredReach(x, y, z)) && AcosInverse(m)
    requires InReach(x, y, z)
    ensures var interior := Pi - (ElbowAngle(m, x, y, z) + JointOffset);
            UpperArm * UpperArm + Forearm * Forearm
              - 2.0 * UpperArm * Forearm * m.cos(interior) == SquaredReach(x, y, z)
  {
    var s := SquaredReach(x, y, z);
    var l3 := m.sqrt(s);
    assert l3 * l3 == s;
    var raw := (UpperArm * UpperArm + Forearm * Forearm - s) / (2.0 * UpperArm * Forearm);
    assert InAcosDomain(raw);
    var c := ElbowCosine(m, x, y, z);
    assert c == raw;
    assert Pi - (ElbowAngle(m, x, y, z) + JointOffset) == m.acos(c);
    assert m.cos(m.acos(c)) == c;
  }

  // ---- calculate_shoulder_angle ----

  /** `distance`, the reach of the target. */
  function Reach(m: Oracle, x: real, y: real, z: real): real {
    m.sqrt(SquaredReach(x, y, z))
  }

  /** The cosine of the elevation angle: planar distance over reach. */
  function ElevationCosine(m: Oracle, x: real, y: real, z: real): real
    requires Reach(m, x, y, z) != 0.0
  {
    m.sqrt(x * x + y * y) / Reach(m, x, y, z)
  }

  /** The cosine of the angle between the upper arm and the reach line. */
  function UpperArmCosine(d: real): real
    requires d != 0.0
  {
    (UpperArm * UpperArm + d * d - Forearm * Forearm) / (2.0 * UpperArm * d)
  }

  /** `calculate_shoulder_angle`, with no clamp: it fails where Python raises. */
  function ShoulderAngle(m: Oracle, x: real, y: real, z: real): Result<real, AngleError> {
    var d := Reach(m, x, y, z);
    if d == 0.0 then Err(ZeroReach)
    else if !InAcosDomain(ElevationCosine(m, x, y, z)) || !InAcosDomain(UpperArmCosine(d))
    then Err(AcosDomain)
    else Ok(RightAngleLiteral
            - (m.acos(UpperArmCosine(d)) + JointOffset + m.acos(ElevationCosine(m, x, y, z))))
  }

  /** With an exact `sqrt` the elevation cosine is always a valid `acos` argument. */
  lemma ElevationInDomain(m: Oracle, x: real, y: real, z: real)
    requires ExactSqrtAt(m, SquaredReach(x, y, z)) && ExactSqrtAt(m, x * x + y * y)
    requires Reach(m, x, y, z) != 0.0
    ensures InAcosDomain(ElevationCosine(m, x, y, z))
  {
    var p := x * x + y * y;
    var d := Reach(m, x, y, z);
    var b := m.sqrt(p);
    SumSquaresNonNeg(x, y);
    SquareNonNeg(z);
    assert b * b == p;
    assert d * d == SquaredReach(x, y, z);
    SquareMonotone(b, d);
    DivAtMost(b, d, 1.0);
    DivAtLeast(b, d, -1.0);
  }

  /** The upper-arm cosine is a valid `acos` argument exactly when the reach lies
      between l1 - l2 and l1 + l2. */
  lemma UpperArmInDomain(d: real)
    requires d > 0.0
    ensures InAcosDomain(UpperArmCosine(d)) <==> UpperArm - Forearm <= d <= UpperArm + Forearm
  {
    var n := UpperArm * UpperArm + d * d - Forearm * Forearm;
    var den := 2.0 * UpperArm * d;
    DivAtMost(n, den, 1.0);
    DivAtLeast(n, den, -1.0);
    assert n - den == (d - UpperArm) * (d - UpperArm) - Forearm * Forearm;
    SquareWithin(d - UpperArm, Forearm);
    assert n + den == (d + UpperArm) * (d + UpperArm) - Forearm * Forearm;
    MulPos(d + UpperArm - Forearm, d + UpperArm + Forearm);
    assert (d + UpperArm - Forearm) * (d + UpperArm + Forearm)
        == (d + UpperArm) * (d + UpperArm) - Forearm * Forearm;
  }

  /** A non-negative reach lies between two non-negative bounds exactly when its
      square lies between theirs. */
  lemma ReachBetween(d: real, lo: real, hi: real)
    requires 0.0 <= d && 0.0 <= lo && 0.0 <= hi
    ensures lo <= d <= hi <==> lo * lo <= d * d <= hi * hi
  {
    if lo <= d <= hi {
      SquareWithin(d, hi);
      SquareWithin(lo, d);
    }
    if lo * lo <= d * d <= hi * hi {
      SquareMonotone(lo, d);
      SquareMonotone(d, hi);
    }
  }

  /** With an exact `sqrt` the shoulder angle is defined exactly for the reachable
      targets, and fails with `AcosDomain` for every other target but the origin. */
  lemma ShoulderDefinedIff(m: Oracle, x: real, y: real, z: real)
    requires ExactSqrtAt(m, SquaredReach(x, y, z)) && ExactSqrtAt(m, x * x + y * y)
    ensures ShoulderAngle(m, x, y, z).Ok? <==> InReach(x, y, z)
    ensures ShoulderAngle(m, x, y, z) == Err(ZeroReach) <==> SquaredReach(x, y, z) == 0.0
  {
    var s := SquaredReach(x, y, z);
    var d := Reach(m, x, y, z);
    SumSquaresNonNeg(x, y);
    SquareNonNeg(z);
    assert d * d == s;
    if d != 0.0 {
      ElevationInDomain(m, x, y, z);
      UpperArmInDomain(d);
      ReachBetween(d, UpperArm - Forearm, UpperArm + Forearm);
      assert s != 0.0;
    }
  }

  /** For a defined shoulder angle: both `acos` values lie in [0, pi], which bounds
      the shoulder to [right angle - offset - 2 pi, right angle - offset]. */
  lemma ShoulderRange(m: Oracle, x: real, y: real, z: real)
    requires AcosRange(m)
    requires ShoulderAngle(m, x, y, z).Ok?
    ensures RightAngleLiteral - JointOffset - 2.0 * Pi <= ShoulderAngle(m, x, y, z).value
              <= RightAngleLiteral - JointOffset
  {
    var d := Reach(m, x, y, z);
    assert 0.0 <= m.acos(UpperArmCosine(d)) <= Pi;
    assert 0.0 <= m.acos(ElevationCosine(m, x, y, z)) <= Pi;
  }

  // ---- calculate_all_angles and anglecommandgenerator ----

  /** `calculate_all_angles`: base from the radian form of the planar angle, then the
      shoulder, then the elbow; only the shoulder can raise. */
  function AllAngles(m: Oracle, x: real, y: real, z: real): (r: Result<Angles, AngleError>)
    ensures r.Ok? <==> ShoulderAngle(m, x, y, z).Ok?
    ensures r.Err? ==> r.error == ShoulderAngle(m, x, y, z).error
    ensures r.Ok? ==> r.value.base == m.atan2(y, x) && r.value.elbow == ElbowAngle(m, x, y, z)
  {
    var base := CartesianToPolar(m, x, y, false);
    var shoulder := ShoulderAngle(m, x, y, z);
    if shoulder.Err? then Err(shoulder.error)
    else Ok(Angles(base, shoulder.value, ElbowAngle(m, x, y, z)))
  }

  /** `anglecommandgenerator(x, y, z, speed, acc)`. */
  function AngleCommand(m: Oracle, x: real, y: real, z: real,
                        speed: real := DefaultSpeed, acc: real := DefaultAcc)
    : (r: Result<Command, AngleError>)
    ensures r.Ok? <==> ShoulderAngle(m, x, y, z).Ok?
    ensures r.Ok? ==>
      && r.value.t == JointAnglesCode
      && r.value.roll == r.value.base
      && r.value.hand == HandAngle
      && r.value.spd == speed && r.value.acc == acc
      && r.value.wrist + r.value.elbow + r.value.shoulder == Pi - WristOffset
  {
    var angles := AllAngles(m, x, y, z);
    if angles.Err? then Err(angles.error)
    else
      var a := angles.value;
      Ok(Command(JointAnglesCode, a.base, a.shoulder, a.elbow,
                 Pi - a.elbow - a.shoulder - WristOffset, a.base, HandAngle, speed, acc))
  }

  /** The command carries the three computed joint angles unchanged, and it exists
      (with an exact `sqrt`) exactly for the reachable targets. */
  lemma CommandAngles(m: Oracle, x: real, y: real, z: real, speed: real, acc: real)
    requires ExactSqrtAt(m, SquaredReach(x, y, z)) && ExactSqrtAt(m, x * x + y * y)
    ensures AngleCommand(m, x, y, z, speed, acc).Ok? <==> InReach(x, y, z)
    ensures AngleCommand(m, x, y, z, speed, acc).Ok? ==>
      var c := AngleCommand(m, x, y, z, speed, acc).value;
      && c.base == CartesianToPolar(m, x, y, false)
      && c.shoulder == ShoulderAngle(m, x, y, z).value
      && c.elbow == ElbowAngle(m, x, y, z)
  {
    ShoulderDefinedIff(m, x, y, z);
  }

  /** Called with no speed and acceleration, the command has spd 0 and acc 10. */
  lemma CommandDefaults(m: Oracle, x: real, y: real, z: real)
    requires AngleCommand(m, x, y, z).Ok?
    ensures AngleCommand(m, x, y, z).value.spd == 0.0
    ensures AngleCommand(m, x, y, z).value.acc == 10.0
  {
  }
}
