/** The system configuration: its dataclass defaults, its validity rules and the
    configuration manager that updates it (IgemArm_Optimized_v2.0/config.py). */
module Configuration {
  import opened Wrappers
  import opened Geometry

  datatype CameraConfig = CameraConfig(
    offsetX: real, offsetY: real, nozzleHeight: real, deviceId: int,
    resolution: (int, int), fps: int)

  datatype ImageProcessingConfig = ImageProcessingConfig(
    hsvRed1Lower: (int, int, int), hsvRed1Upper: (int, int, int),
    hsvRed2Lower: (int, int, int), hsvRed2Upper: (int, int, int),
    contourEpsilonFactor: real, minContourArea: int,
    gaussianBlurKernel: (int, int), claheClipLimit: real, claheTileGridSize: (int, int))

  datatype CalibrationConfig = CalibrationConfig(
    distanceMm: real, maxAttempts: int, minSuccessful: int,
    minPixelDistance: real, maxPixelDistance: real, stabilityChecks: int,
    maxCvThreshold: real)

  datatype RobotConfig = RobotConfig(
    port: string, baudrate: int, timeout: real, pidP: real, pidI: real,
    defaultSpeed: real, defaultAcceleration: real, workspaceBounds: Bounds)

  datatype TreatmentConfig = TreatmentConfig(
    movementSpeed: real, treatmentTime: real, radiusStep: real, minTreatmentDistance: real)

  datatype SystemConfig = SystemConfig(
    camera: CameraConfig, imageProcessing: ImageProcessingConfig,
    calibration: CalibrationConfig, robot: RobotConfig, treatment: TreatmentConfig,
    logLevel: string, enableLogging: bool, dataSavePath: string)

  // ---- the dataclass defaults ----

  const DefaultCamera := CameraConfig(55.0, -30.0, 95.0, 0, (640, 480), 30)

  const DefaultImageProcessing := ImageProcessingConfig(
    (0, 70, 50), (10, 255, 255), (170, 70, 50), (180, 255, 255),
    0.002, 100, (3, 3), 1.5, (8, 8))

  const DefaultCalibration := CalibrationConfig(40.0, 5, 3, 10.0, 200.0, 3, 0.1)

  /** `RobotConfig.__post_init__` fills in the workspace box when none is given. */
  const DefaultBounds := Bounds(Interval(-200.0, 400.0), Interval(-200.0, 200.0),
                                Interval(50.0, 300.0))

  const DefaultRobot := RobotConfig("COM3", 115200, 1.0, 8.0, 0.0, 0.08, 10.0, DefaultBounds)

  const DefaultTreatment := TreatmentConfig(50.0, 0.5, 5.0, 1.0)

  // ---- validate_config ----

  datatype Axis = X | Y | Z

  /** The first rule a configuration breaks, in the order they are checked. */
  datatype ConfigError = NegativeDeviceId | NonPositiveBaudrate | NonPositiveDistance
                       | EmptyAxis(axis: Axis)

  /** The bound entries in the order the default dictionary lists them. */
  function AxisInterval(b: Bounds, a: Axis): Interval {
    match a
    case X => b.x
    case Y => b.y
    case Z => b.z
  }

  /** `validate_config`, reporting the rule that fails instead of logging it; the
      method's `True` is `None`. */
  function FirstConfigError(c: SystemConfig): (r: Option<ConfigError>)
    ensures r.None? <==>
      && c.camera.deviceId >= 0
      && c.robot.baudrate > 0
      && c.calibration.distanceMm > 0.0
      && (forall a: Axis :: AxisInterval(c.robot.workspaceBounds, a).lo
                              < AxisInterval(c.robot.workspaceBounds, a).hi)
    ensures r == Some(NegativeDeviceId) <==> c.camera.deviceId < 0
    ensures r.Some? && r.value.EmptyAxis? ==>
      var i := AxisInterval(c.robot.workspaceBounds, r.value.axis);
      i.lo >= i.hi
  {
    var b := c.robot.workspaceBounds;
    if c.camera.deviceId < 0 then Some(NegativeDeviceId)
    else if c.robot.baudrate <= 0 then Some(NonPositiveBaudrate)
    else if c.calibration.distanceMm <= 0.0 then Some(NonPositiveDistance)
    else if b.x.lo >= b.x.hi then Some(EmptyAxis(X))
    else if b.y.lo >= b.y.hi then Some(EmptyAxis(Y))
    else if b.z.lo >= b.z.hi then Some(EmptyAxis(Z))
    else None
  }

  predicate ValidateConfig(c: SystemConfig) {
    FirstConfigError(c).None?
  }

  /** `SystemConfig()`: every section at its dataclass default. The default passes
      validation and its workspace box is the one `RobotConfig` fills in. */
  function DefaultConfig(): (c: SystemConfig)
    ensures ValidateConfig(c)
    ensures c.robot.workspaceBounds.x == Interval(-200.0, 400.0)
    ensures c.robot.workspaceBounds.y == Interval(-200.0, 200.0)
    ensures c.robot.workspaceBounds.z == Interval(50.0, 300.0)
  {
    SystemConfig(DefaultCamera, DefaultImageProcessing, DefaultCalibration, DefaultRobot,
                 DefaultTreatment, "INFO", true, "./data")
  }

  // ---- building and updating from a dictionary ----

  /** The keys a configuration dictionary may carry; an absent key is `None`. Each
      section arrives already built from its own sub-dictionary. */
  datatype ConfigDict = ConfigDict(
    camera: Option<CameraConfig>, imageProcessing: Option<ImageProcessingConfig>,
    calibration: Option<CalibrationConfig>, robot: Option<RobotConfig>,
    treatment: Option<TreatmentConfig>, logLevel: Option<string>,
    enableLogging: Option<bool>, dataSavePath: Option<string>)

  function OrElse<T>(o: Option<T>, d: T): T {
    if o.Some? then o.value else d
  }

  /** `SystemConfig(**d)`: `__post_init__` puts the default in every missing section. */
  function MakeSystemConfig(d: ConfigDict): (c: SystemConfig)
    ensures d.camera.None? ==> c.camera == DefaultCamera
    ensures d.imageProcessing.None? ==> c.imageProcessing == DefaultImageProcessing
    ensures d.calibration.None? ==> c.calibration == DefaultCalibration
    ensures d.robot.None? ==> c.robot == DefaultRobot
    ensures d.treatment.None? ==> c.treatment == DefaultTreatment
  {
    SystemConfig(OrElse(d.camera, DefaultCamera), OrElse(d.imageProcessing, DefaultImageProcessing),
                 OrElse(d.calibration, DefaultCalibration), OrElse(d.robot, DefaultRobot),
                 OrElse(d.treatment, DefaultTreatment), OrElse(d.logLevel, "INFO"),
                 OrElse(d.enableLogging, true), OrElse(d.dataSavePath, "./data"))
  }

  /** `_update_config_from_dict`: each key present replaces its part of `c`. */
  function UpdateFromDict(c: SystemConfig, d: ConfigDict): SystemConfig {
    SystemConfig(OrElse(d.camera, c.camera), OrElse(d.imageProcessing, c.imageProcessing),
                 OrElse(d.calibration, c.calibration), OrElse(d.robot, c.robot),
                 OrElse(d.treatment, c.treatment), OrElse(d.logLevel, c.logLevel),
                 OrElse(d.enableLogging, c.enableLogging), OrElse(d.dataSavePath, c.dataSavePath))
  }

  const EmptyDict := ConfigDict(None, None, None, None, None, None, None, None)

  /** Loading a dictionary into the default configuration gives the configuration built
      from that dictionary, an empty dictionary changes nothing, and a later load of
      the same dictionary changes nothing more. */
  lemma UpdateFromDictLaws(c: SystemConfig, d: ConfigDict)
    ensures UpdateFromDict(DefaultConfig(), d) == MakeSystemConfig(d)
    ensures UpdateFromDict(c, EmptyDict) == c
    ensures UpdateFromDict(UpdateFromDict(c, d), d) == UpdateFromDict(c, d)
  {
  }

  /** Every part the dictionary leaves out keeps its value, and every part it names
      takes the dictionary's value. */
  lemma UpdateFromDictFrame(c: SystemConfig, d: ConfigDict)
    ensures var r := UpdateFromDict(c, d);
      && (d.camera.None? ==> r.camera == c.camera)
      && (d.camera.Some? ==> r.camera == d.camera.value)
      && (d.robot.None? ==> r.robot == c.robot)
      && (d.robot.Some? ==> r.robot == d.robot.value)
      && (d.calibration.None? ==> r.calibration == c.calibration)
      && (d.calibration.Some? ==> r.calibration == d.calibration.value)
      && (d.imageProcessing.None? ==> r.imageProcessing == c.imageProcessing)
      && (d.imageProcessing.Some? ==> r.imageProcessing == d.imageProcessing.value)
      && (d.treatment.None? ==> r.treatment == c.treatment)
      && (d.treatment.Some? ==> r.treatment == d.treatment.value)
      && (d.logLevel.None? ==> r.logLevel == c.logLevel)
      && (d.logLevel.Some? ==> r.logLevel == d.logLevel.value)
      && (d.enableLogging.None? ==> r.enableLogging == c.enableLogging)
      && (d.enableLogging.Some? ==> r.enableLogging == d.enableLogging.value)
      && (d.dataSavePath.None? ==> r.dataSavePath == c.dataSavePath)
      && (d.dataSavePath.Some? ==> r.dataSavePath == d.dataSavePath.value)
  {
  }

  // ---- update_config ----

  /** One keyword argument of `update_config`: a top-level attribute of the
      configuration with its new value, or a key that names no attribute. */
  datatype Assignment =
    | SetCamera(camera: CameraConfig)
    | SetImageProcessing(imageProcessing: ImageProcessingConfig)
    | SetCalibration(calibration: CalibrationConfig)
    | SetRobot(robot: RobotConfig)
    | SetTreatment(treatment: TreatmentConfig)
    | SetLogLevel(logLevel: string)
    | SetEnableLogging(enableLogging: bool)
    | SetDataSavePath(dataSavePath: string)
    | Unknown(key: string)

  /** `setattr` for a known attribute; an unknown key is logged and skipped. */
  function Assign(c: SystemConfig, a: Assignment): (r: SystemConfig)
    ensures a.Unknown? ==> r == c
  {
    match a
    case SetCamera(v) => c.(camera := v)
    case SetImageProcessing(v) => c.(imageProcessing := v)
    case SetCalibration(v) => c.(calibration := v)
    case SetRobot(v) => c.(robot := v)
    case SetTreatment(v) => c.(treatment := v)
    case SetLogLevel(v) => c.(logLevel := v)
    case SetEnableLogging(v) => c.(enableLogging := v)
    case SetDataSavePath(v) => c.(dataSavePath := v)
    case Unknown(_) => c
  }

  /** The assignments applied in order. */
  function AssignAll(c: SystemConfig, kwargs: seq<Assignment>): SystemConfig {
    if kwargs == [] then c else Assign(AssignAll(c, kwargs[..|kwargs| - 1]), kwargs[|kwargs| - 1])
  }

  function KnownOnly(kwargs: seq<Assignment>): (r: seq<Assignment>)
    ensures forall a :: a in r ==> !a.Unknown?
    ensures forall a :: a in r <==> a in kwargs && !a.Unknown?
  {
    if kwargs == [] then []
    else
      var rest := KnownOnly(kwargs[..|kwargs| - 1]);
      var last := kwargs[|kwargs| - 1];
      if last.Unknown? then rest else rest + [last]
  }

  /** Unknown keys have no effect: dropping them changes nothing. */
  lemma {:induction false} UnknownKeysIgnored(c: SystemConfig, kwargs: seq<Assignment>)
    ensures AssignAll(c, kwargs) == AssignAll(c, KnownOnly(kwargs))
  {
    if kwargs != [] {
      var init := kwargs[..|kwargs| - 1];
      var last := kwargs[|kwargs| - 1];
      UnknownKeysIgnored(c, init);
      if !last.Unknown? {
        var known := KnownOnly(init) + [last];
        assert known[..|known| - 1] == KnownOnly(init);
      }
    }
  }

  /** An attribute no assignment names keeps its value; only the logging level is
      stated, the other attributes follow the same pattern. */
  lemma {:induction false} UnassignedKept(c: SystemConfig, kwargs: seq<Assignment>)
    requires forall a :: a in kwargs ==> !a.SetLogLevel?
    requires forall a :: a in kwargs ==> !a.SetRobot?
    ensures AssignAll(c, kwargs).logLevel == c.logLevel
    ensures AssignAll(c, kwargs).robot == c.robot
  {
    if kwargs != [] {
      UnassignedKept(c, kwargs[..|kwargs| - 1]);
      assert kwargs[|kwargs| - 1] in kwargs;
    }
  }

  /** The configuration manager: the configuration it holds and the operations that
      replace it. Saving to and loading from the JSON file are not part of this model. */
  class ConfigManager {
    var config: SystemConfig

    /** `ConfigManager()` starts from `SystemConfig()`. */
    constructor ()
      ensures config == DefaultConfig()
    {
      config := DefaultConfig();
    }

    /** `update_config(**kwargs)`: sets each known attribute in turn and skips the
        unknown keys. */
    method UpdateConfig(kwargs: seq<Assignment>)
      modifies this
      ensures config == AssignAll(old(config), kwargs)
    {
      var i := 0;
      while i < |kwargs|
        invariant 0 <= i <= |kwargs|
        invariant config == AssignAll(old(config), kwargs[..i])
      {
        assert kwargs[..i + 1][..i] == kwargs[..i];
        config := Assign(config, kwargs[i]);
        i := i + 1;
      }
      assert kwargs[..i] == kwargs;
    }

    /** `reset_to_default`. */
    method ResetToDefault()
      modifies this
      ensures config == DefaultConfig()
      ensures ValidateConfig(config)
    {
      config := DefaultConfig();
    }

    /** `_update_config_from_dict`. */
    method UpdateConfigFromDict(d: ConfigDict)
      modifies this
      ensures config == UpdateFromDict(old(config), d)
    {
      var c := config;
      var camera, imageProcessing, calibration, robot, treatment :=
        c.camera, c.imageProcessing, c.calibration, c.robot, c.treatment;
      var logLevel, enableLogging, dataSavePath := c.logLevel, c.enableLogging, c.dataSavePath;
      if d.camera.Some? { camera := d.camera.value; }
      if d.imageProcessing.Some? { imageProcessing := d.imageProcessing.value; }
      if d.calibration.Some? { calibration := d.calibration.value; }
      if d.robot.Some? { robot := d.robot.value; }
      if d.treatment.Some? { treatment := d.treatment.value; }
      if d.logLevel.Some? { logLevel := d.logLevel.value; }
      if d.enableLogging.Some? { enableLogging := d.enableLogging.value; }
      if d.dataSavePath.Some? { dataSavePath := d.dataSavePath.value; }
      config := SystemConfig(camera, imageProcessing, calibration, robot, treatment,
                             logLevel, enableLogging, dataSavePath);
    }

    /** `validate_config`. */
    method ValidateCurrent() returns (ok: bool)
      ensures ok <==> ValidateConfig(config)
    {
      ok := FirstConfigError(config).None?;
    }
  }
}
