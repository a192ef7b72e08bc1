/** Pixel/physical coordinate conversion and calibration bookkeeping of
    IgemArm_Optimized_v2.0/coordinate_transformer.py.

    The forward chain takes a camera pixel to the arm's frame: subtract the image
    centre, flip Y (image Y grows downwards), rotate clockwise by the calibration
    angle, scale, translate, and append the nozzle height as Z. Its inverse undoes the
    steps in reverse order. Errors the source passes to the global error handler are
    returned alongside the value. */
module CoordinateTransform {
  import opened Wrappers
  import opened Numerics
  import opened Geometry
  import opened ErrorHandling

  /** `CalibrationData`; the timestamp is not modelled. */
  datatype CalibrationData = CalibrationData(
    scaleFactor: real,
    rotationAngle: real,
    translationOffset: Point2D,
    confidence: real)

  /** `CalibrationData.is_valid` */
  predicate IsValid(c: CalibrationData) {
    c.scaleFactor > 0.0 && c.confidence > 0.5 && Abs(c.rotationAngle) < Pi
  }

  /** A value together with the error, if any, that was reported while computing it. */
  datatype Reported<T> = Reported(value: T, error: Option<ErrorType>)

  /** `_rotate_point`: the clockwise rotation used by the transformer. */
  function RotatePoint(m: Oracle, p: Point2D, angle: real): Point2D {
    Point2D(p.x * m.cos(angle) + p.y * m.sin(angle), -p.x * m.sin(angle) + p.y * m.cos(angle))
  }

  /** `_rotate_points` of the calibration manager: the counter-clockwise rotation
      (row vectors times the transposed rotation matrix). */
  function RotateCcw(m: Oracle, p: Point2D, angle: real): Point2D {
    Point2D(p.x * m.cos(angle) - p.y * m.sin(angle), p.x * m.sin(angle) + p.y * m.cos(angle))
  }

  function FlipY(p: Point2D): Point2D {
    Point2D(p.x, -p.y)
  }

  /** Steps 1-5 of `pixel_to_physical`. */
  function ToPhysical(m: Oracle, cal: CalibrationData, center: Point2D, p: Point2D): Point2D {
    Add(Scale(RotatePoint(m, FlipY(Sub(p, center)), cal.rotationAngle), cal.scaleFactor),
        cal.translationOffset)
  }

  /** Steps 1-6 of `physical_to_pixel`; the division needs a non-zero scale. */
  function ToPixel(m: Oracle, cal: CalibrationData, center: Point2D, q: Point2D): Point2D
    requires cal.scaleFactor != 0.0
  {
    Add(FlipY(RotatePoint(m, Div(Sub(q, cal.translationOffset), cal.scaleFactor), -cal.rotationAngle)),
        center)
  }

  lemma RotateBackArith(x: real, y: real, c: real, s: real)
    requires c * c + s * s == 1.0
    ensures (x * c + y * s) * c + (-x * s + y * c) * (-s) == x
    ensures -(x * c + y * s) * (-s) + (-x * s + y * c) * c == y
  {
    assert (x * c + y * s) * c + (-x * s + y * c) * (-s) == x * (c * c + s * s);
    assert -(x * c + y * s) * (-s) + (-x * s + y * c) * c == y * (c * c + s * s);
  }

  /** Rotating by an angle and then by its negation, or the other way round, gives the
      point back. */
  lemma {:induction false} RotateInverse(m: Oracle, p: Point2D, angle: real)
    requires UnitCircleAt(m, angle)
    ensures RotatePoint(m, RotatePoint(m, p, angle), -angle) == p
    ensures RotatePoint(m, RotatePoint(m, p, -angle), angle) == p
  {
    RotateBackArith(p.x, p.y, m.cos(angle), m.sin(angle));
    RotateBackArith(p.x, p.y, m.cos(angle), -m.sin(angle));
  }

  /** The calibration fit's counter-clockwise rotation is the transformer's clockwise
      rotation by the negated angle. */
  lemma RotateCcwIsNegatedRotate(m: Oracle, p: Point2D, angle: real)
    requires UnitCircleAt(m, angle)
    ensures RotateCcw(m, p, angle) == RotatePoint(m, p, -angle)
  {
  }

  lemma {:induction false} RotationPreservesNorm(m: Oracle, p: Point2D, angle: real)
    requires UnitCircleAt(m, angle)
    ensures SquaredNorm2(RotatePoint(m, p, angle)) == SquaredNorm2(p)
    ensures SquaredNorm2(RotateCcw(m, p, angle)) == SquaredNorm2(p)
  {
    var c, s := m.cos(angle), m.sin(angle);
    assert SquaredNorm2(RotatePoint(m, p, angle))
      == (p.x * p.x + p.y * p.y) * (c * c + s * s);
    assert SquaredNorm2(RotateCcw(m, p, angle))
      == (p.x * p.x + p.y * p.y) * (c * c + s * s);
  }

  /** The conversion is an exact algebraic bijection: `physical_to_pixel` undoes
      `pixel_to_physical` and vice versa, for any non-zero scale. */
  lemma {:induction false} ConversionRoundTrip(m: Oracle, cal: CalibrationData, center: Point2D, p: Point2D, q: Point2D)
    requires cal.scaleFactor != 0.0 && UnitCircleAt(m, cal.rotationAngle)
    ensures ToPixel(m, cal, center, ToPhysical(m, cal, center, p)) == p
    ensures ToPhysical(m, cal, center, ToPixel(m, cal, center, q)) == q
  {
    var a, s, t := cal.rotationAngle, cal.scaleFactor, cal.translationOffset;
    var r := RotatePoint(m, FlipY(Sub(p, center)), a);
    AddSubInverse(Scale(r, s), t);
    ScaleDivInverse(r, s);
    RotateInverse(m, FlipY(Sub(p, center)), a);
    AddSubInverse(Sub(p, center), center);

    var d := Div(Sub(q, t), s);
    RotateInverse(m, d, a);
    ScaleDivInverse(Sub(q, t), s);
    AddSubInverse(q, t);
  }

  // ---- accuracy report of `validate_transformation` ----

  /** The dictionary `validate_transformation` returns on success. */
  datatype Accuracy = Accuracy(
    meanErrorPixels: real,
    maxErrorPixels: real,
    stdErrorPixels: real,
    meanErrorMm: real,
    isAccurate: bool)

  /** The two ways `validate_transformation` does not produce a report: an error
      dictionary for lists of different lengths, and the ValueError `np.max` raises on
      an empty list. */
  datatype ValidationError = CountMismatch | NoPoints

  /** `np.std`: the square root of the mean squared deviation from the mean. */
  function StdDev(m: Oracle, errors: seq<real>): real
    requires |errors| > 0
  {
    var mu := Mean(errors);
    m.sqrt(Mean(seq(|errors|, i requires 0 <= i < |errors| => (errors[i] - mu) * (errors[i] - mu))))
  }

  /** The report built from the per-point errors; `scale` is the stored scale factor,
      or 0 when there is no calibration. */
  function AccuracyOf(m: Oracle, errors: seq<real>, scale: real): (r: Accuracy)
    requires |errors| > 0
    ensures r.isAccurate <==> r.meanErrorPixels < 2.0
    ensures r.meanErrorMm == r.meanErrorPixels * scale
    ensures forall i :: 0 <= i < |errors| ==> errors[i] <= r.maxErrorPixels
  {
    var mu := Mean(errors);
    Accuracy(mu, MaxOf(errors), StdDev(m, errors), mu * scale, mu < 2.0)
  }

  /** For distances (never negative) the mean error lies between 0 and the maximum. */
  lemma AccuracyOrdered(m: Oracle, errors: seq<real>, scale: real)
    requires |errors| > 0 && forall i :: 0 <= i < |errors| ==> errors[i] >= 0.0
    ensures 0.0 <= AccuracyOf(m, errors, scale).meanErrorPixels <= AccuracyOf(m, errors, scale).maxErrorPixels
  {
    MeanBetween(errors);
  }

  /** Errors that are all zero give a perfect report. */
  lemma {:induction false} ZeroErrorsAccurate(m: Oracle, errors: seq<real>, scale: real)
    requires |errors| > 0 && forall i :: 0 <= i < |errors| ==> errors[i] == 0.0
    requires m.sqrt(0.0) == 0.0
    ensures AccuracyOf(m, errors, scale) == Accuracy(0.0, 0.0, 0.0, 0.0, true)
  {
    SumOfZeros(errors);
    assert Mean(errors) == 0.0;
    var mu := Mean(errors);
    var sq := seq(|errors|, i requires 0 <= i < |errors| => (errors[i] - mu) * (errors[i] - mu));
    SumOfZeros(sq);
    assert Mean(sq) == 0.0;
    assert MaxOf(errors) in errors;
  }

  // ---- the transformer object ----

  class Transformer {
    var calibration: Option<CalibrationData>
    var imageCenter: Option<Point2D>
    /** `config.robot.workspace_bounds` and `config.camera.nozzle_height`. */
    const bounds: Bounds
    const nozzleHeight: real
    /** The floating-point library. */
    const m: Oracle

    /** Only valid calibration data is ever stored. */
    ghost predicate Valid()
      reads this
    {
      calibration.Some? ==> IsValid(calibration.value)
    }

    /** `CoordinateTransformer.__init__`: neither a calibration nor an image centre. */
    constructor (bounds: Bounds, nozzleHeight: real, m: Oracle)
      ensures Valid()
      ensures calibration == None && imageCenter == None
      ensures this.bounds == bounds && this.nozzleHeight == nozzleHeight && this.m == m
    {
      this.bounds := bounds;
      this.nozzleHeight := nozzleHeight;
      this.m := m;
      calibration := None;
      imageCenter := None;
    }

    /** `set_image_center`: the centre of a `width` x `height` image (true division). */
    method SetImageCenter(width: int, height: int)
      modifies this
      ensures imageCenter == Some(Point2D(width as real / 2.0, height as real / 2.0))
      ensures calibration == old(calibration)
    {
      imageCenter := Some(Point2D(width as real / 2.0, height as real / 2.0));
    }

    /** `set_calibration_data`: valid data replaces the stored calibration wholesale;
        invalid data is reported and leaves it unchanged. */
    method SetCalibrationData(data: CalibrationData) returns (report: Option<ErrorType>)
      requires Valid()
      modifies this
      ensures Valid()
      ensures IsValid(data) ==> calibration == Some(data) && report == None
      ensures !IsValid(data) ==> calibration == old(calibration) && report == Some(CalibrationError)
      ensures imageCenter == old(imageCenter)
    {
      if !IsValid(data) {
        return Some(CalibrationError);
      }
      calibration := Some(data);
      report := None;
    }

    /** `pixel_to_physical`: the origin when the calibration or the image centre is
        missing; otherwise the converted point at the nozzle height, which is returned
        even when it lies outside the workspace (that is only reported). */
    function PixelToPhysical(p: Point2D): (r: Reported<Point3D>)
      reads this
      ensures calibration.None? ==> r == Reported(Point3D(0.0, 0.0, 0.0), Some(CalibrationError))
      ensures calibration.Some? && imageCenter.None? ==>
        r == Reported(Point3D(0.0, 0.0, 0.0), Some(ImageProcessingError))
      ensures calibration.Some? && imageCenter.Some? ==>
        && (var q := ToPhysical(m, calibration.value, imageCenter.value, p);
            r.value == Point3D(q.x, q.y, nozzleHeight))
        && (r.error.Some? <==> !InBox(bounds, r.value))
        && (r.error.Some? ==> r.error.value == BoundaryError)
    {
      if calibration.None? then Reported(Point3D(0.0, 0.0, 0.0), Some(CalibrationError))
      else if imageCenter.None? then Reported(Point3D(0.0, 0.0, 0.0), Some(ImageProcessingError))
      else
        var q := ToPhysical(m, calibration.value, imageCenter.value, p);
        var point := Point3D(q.x, q.y, nozzleHeight);
        Reported(point, if InBox(bounds, point) then None else Some(BoundaryError))
    }

    /** `physical_to_pixel`: Z is ignored; the origin is returned and reported when
        the calibration or the image centre is missing. */
    function PhysicalToPixel(q: Point3D): (r: Reported<Point2D>)
      requires Valid()
      reads this
      ensures calibration.None? || imageCenter.None? ==>
        r == Reported(Point2D(0.0, 0.0), Some(CalibrationError))
      ensures calibration.Some? && imageCenter.Some? ==> r.error == None
    {
      if calibration.None? || imageCenter.None? then Reported(Point2D(0.0, 0.0), Some(CalibrationError))
      else Reported(ToPixel(m, calibration.value, imageCenter.value, Point2D(q.x, q.y)), None)
    }

    /** Converting a pixel to the arm's frame and back gives the pixel again. */
    lemma {:induction false} PixelRoundTrip(p: Point2D)
      requires Valid() && calibration.Some? && imageCenter.Some?
      requires UnitCircleAt(m, calibration.value.rotationAngle)
      ensures PhysicalToPixel(PixelToPhysical(p).value) == Reported(p, None)
    {
      ConversionRoundTrip(m, calibration.value, imageCenter.value, p, p);
    }

    /** `batch_transform`: one conversion per input point, in order. */
    method BatchTransform(pixels: seq<Point2D>) returns (points: seq<Point3D>, reports: seq<Option<ErrorType>>)
      ensures |points| == |pixels| && |reports| == |pixels|
      ensures forall i :: 0 <= i < |pixels| ==>
        points[i] == PixelToPhysical(pixels[i]).value && reports[i] == PixelToPhysical(pixels[i]).error
    {
      points, reports := [], [];
      if pixels == [] {
        return;
      }
      for i := 0 to |pixels|
        invariant |points| == i && |reports| == i
        invariant forall j :: 0 <= j < i ==>
          points[j] == PixelToPhysical(pixels[j]).value && reports[j] == PixelToPhysical(pixels[j]).error
      {
        var r := PixelToPhysical(pixels[i]);
        points := points + [r.value];
        reports := reports + [r.error];
      }
    }

    /** The per-point error `validate_transformation` measures: the pixel distance
        between a pixel and the back-converted physical point. */
    function BackProjectionError(pixel: Point2D, physical: Point3D): real
      requires Valid()
      reads this
    {
      Distance2(m, pixel, PhysicalToPixel(physical).value)
    }

    /** `validate_transformation` */
    method ValidateTransformation(pixels: seq<Point2D>, physicals: seq<Point3D>)
      returns (r: Result<Accuracy, ValidationError>)
      requires Valid()
      ensures |pixels| != |physicals| ==> r == Err(CountMismatch)
      ensures |pixels| == |physicals| == 0 ==> r == Err(NoPoints)
      ensures |pixels| == |physicals| > 0 ==>
        r.Ok? && r.value == AccuracyOf(m,
          seq(|pixels|, i requires 0 <= i < |pixels| && i < |physicals| && Valid() reads this =>
            BackProjectionError(pixels[i], physicals[i])),
          if calibration.Some? then calibration.value.scaleFactor else 0.0)
    {
      if |pixels| != |physicals| {
        return Err(CountMismatch);
      }
      var errors: seq<real> := [];
      for i := 0 to |pixels|
        invariant |errors| == i
        invariant forall j :: 0 <= j < i ==> errors[j] == BackProjectionError(pixels[j], physicals[j])
      {
        errors := errors + [BackProjectionError(pixels[i], physicals[i])];
      }
      if errors == [] {
        return Err(NoPoints);
      }
      var scale := if calibration.Some? then calibration.value.scaleFactor else 0.0;
      assert errors == seq(|pixels|, i requires 0 <= i < |pixels| && i < |physicals| && Valid() reads this =>
            BackProjectionError(pixels[i], physicals[i]));
      r := Ok(AccuracyOf(m, errors, scale));
    }

    /** Validating points against their own conversions finds no error at all. */
    lemma {:induction false} SelfValidationExact(pixels: seq<Point2D>, i: nat)
      requires Valid() && calibration.Some? && imageCenter.Some?
      requires UnitCircleAt(m, calibration.value.rotationAngle) && m.sqrt(0.0) == 0.0
      requires i < |pixels|
      ensures BackProjectionError(pixels[i], PixelToPhysical(pixels[i]).value) == 0.0
    {
      PixelRoundTrip(pixels[i]);
      assert PhysicalToPixel(PixelToPhysical(pixels[i]).value).value == pixels[i];
      assert SquaredNorm2(Sub(pixels[i], pixels[i])) == 0.0;
      }

    /** Validating the pixels of a batch against the batch's own conversions yields a
        perfect report. */
    lemma {:induction false} SelfValidationAccurate(pixels: seq<Point2D>)
      requires Valid() && calibration.Some? && imageCenter.Some?
      requires UnitCircleAt(m, calibration.value.rotationAngle) && m.sqrt(0.0) == 0.0
      requires |pixels| > 0
      ensures AccuracyOf(m,
          seq(|pixels|, i requires 0 <= i < |pixels| && Valid() reads this =>
            BackProjectionError(pixels[i], PixelToPhysical(pixels[i]).value)),
          calibration.value.scaleFactor)
        == Accuracy(0.0, 0.0, 0.0, 0.0, true)
    {
      var errors := seq(|pixels|, i requires 0 <= i < |pixels| && Valid() reads this =>
        BackProjectionError(pixels[i], PixelToPhysical(pixels[i]).value));
      forall i | 0 <= i < |pixels|
        ensures errors[i] == 0.0
      {
        SelfValidationExact(pixels, i);
      }
      ZeroErrorsAccurate(m, errors, calibration.value.scaleFactor);
    }

    /** `get_transformation_matrix`: the identity without a calibration. */
    function GetTransformationMatrix(): (r: seq<seq<real>>)
      reads this
      ensures |r| == 3 && forall i :: 0 <= i < 3 ==> |r[i]| == 3
      ensures calibration.None? ==> r == [[1.0, 0.0, 0.0], [0.0, 1.0, 0.0], [0.0, 0.0, 1.0]]
      ensures calibration.Some? ==> r == MatrixOf(m, calibration.value)
    {
      if calibration.None? then [[1.0, 0.0, 0.0], [0.0, 1.0, 0.0], [0.0, 0.0, 1.0]]
      else MatrixOf(m, calibration.value)
    }
  }

  /** The homogeneous matrix of scale, rotation and translation that
      `get_transformation_matrix` reports for a calibration. Applied to a point it
      performs the counter-clockwise rotation of the calibration fit, then scales and
      translates. */
  function MatrixOf(m: Oracle, cal: CalibrationData): (r: seq<seq<real>>)
    ensures |r| == 3 && forall i :: 0 <= i < 3 ==> |r[i]| == 3
    ensures r[2] == [0.0, 0.0, 1.0]
    ensures forall p :: (ApplyMatrix(r, p) ==
      Add(Scale(RotateCcw(m, p, cal.rotationAngle), cal.scaleFactor), cal.translationOffset))
  {
    var c := m.cos(cal.rotationAngle);
    var s := m.sin(cal.rotationAngle);
    var k := cal.scaleFactor;
    var t := cal.translationOffset;
    var r := [[k * c, -k * s, t.x], [k * s, k * c, t.y], [0.0, 0.0, 1.0]];
    assert forall p :: ApplyMatrix(r, p) == Add(Scale(RotateCcw(m, p, cal.rotationAngle), k), t) by {
      forall p ensures ApplyMatrix(r, p) == Add(Scale(RotateCcw(m, p, cal.rotationAngle), k), t) {
        MatrixApplies(m, cal.rotationAngle, k, t, p);
      }
    }
    r
  }

  /** The matrix of an angle, a scale and an offset maps a point by rotation, scale
      and translation. */
  lemma MatrixApplies(m: Oracle, angle: real, k: real, t: Point2D, p: Point2D)
    ensures var c := m.cos(angle);
      var s := m.sin(angle);
      ApplyMatrix([[k * c, -k * s, t.x], [k * s, k * c, t.y], [0.0, 0.0, 1.0]], p)
        == Add(Scale(RotateCcw(m, p, angle), k), t)
  {
    MatrixArith(p.x, p.y, m.cos(angle), m.sin(angle), k);
  }

  lemma MatrixArith(x: real, y: real, c: real, s: real, k: real)
    ensures (k * c) * x + (-k * s) * y == (x * c - y * s) * k
    ensures (k * s) * x + (k * c) * y == (x * s + y * c) * k
  {
  }

  /** The matrix applied to the homogeneous point `(x, y, 1)`. */
  function ApplyMatrix(r: seq<seq<real>>, p: Point2D): Point2D
    requires |r| >= 2 && |r[0]| == 3 && |r[1]| == 3
  {
    Point2D(r[0][0] * p.x + r[0][1] * p.y + r[0][2], r[1][0] * p.x + r[1][1] * p.y + r[1][2])
  }

  /** The reported matrix is not the map `pixel_to_physical` applies: with a zero angle
      and the image centre at the origin, it keeps the sign of Y where the conversion
      flips it, so the two disagree at every pixel off the X axis. */
  lemma {:induction false} MatrixOmitsFlip(m: Oracle, cal: CalibrationData, p: Point2D)
    requires cal.rotationAngle == 0.0 && m.cos(0.0) == 1.0 && m.sin(0.0) == 0.0
    requires cal.scaleFactor > 0.0 && p.y != 0.0
    ensures ApplyMatrix(MatrixOf(m, cal), p) != ToPhysical(m, cal, Point2D(0.0, 0.0), p)
  {
    MulPos(cal.scaleFactor, if p.y > 0.0 then p.y else -p.y);
  }

  // ---- calibration fit (`CalibrationManager`) ----

  /** `np.linalg.norm` of one row. */
  function Norm(m: Oracle, p: Point2D): real {
    m.sqrt(SquaredNorm2(p))
  }

  /** `np.median`, a law it obeys: the median of a list of equal values is that value. */
  ghost predicate MedianOfConstant(median: seq<real> -> real) {
    forall s: seq<real> :: |s| > 0 && (forall i :: 0 <= i < |s| ==> s[i] == s[0]) ==> median(s) == s[0]
  }

  /** Only pixel rows whose rotated norm exceeds 1e-6 give a ratio. */
  predicate UsableForScale(m: Oracle, pixel: Point2D, angle: real) {
    Norm(m, RotateCcw(m, pixel, angle)) > 0.000001
  }

  /** One row's ratio of physical norm to rotated pixel norm. */
  function Ratio(m: Oracle, pixel: Point2D, physical: Point2D, angle: real): real
    requires UsableForScale(m, pixel, angle)
  {
    Norm(m, physical) / Norm(m, RotateCcw(m, pixel, angle))
  }

  /** `physical_norm[valid] / pixel_norm[valid]` of `_calculate_scale_factor`, in row
      order. */
  function ScaleRatios(m: Oracle, pixels: seq<Point2D>, physicals: seq<Point2D>, angle: real): (r: seq<real>)
    requires |pixels| == |physicals|
    ensures |r| <= |pixels|
    ensures r == [] <==> forall i :: 0 <= i < |pixels| ==> !UsableForScale(m, pixels[i], angle)
  {
    if pixels == [] then []
    else
      var rest := ScaleRatios(m, pixels[1..], physicals[1..], angle);
      assert forall i :: 1 <= i < |pixels| ==> pixels[i] == pixels[1..][i - 1];
      if UsableForScale(m, pixels[0], angle) then [Ratio(m, pixels[0], physicals[0], angle)] + rest
      else rest
  }

  /** When every usable row has the same ratio, every entry of the list is that ratio. */
  lemma {:induction false} RatiosAllEqual(m: Oracle, pixels: seq<Point2D>, physicals: seq<Point2D>,
                                          angle: real, k: real)
    requires |pixels| == |physicals|
    requires forall i :: 0 <= i < |pixels| && UsableForScale(m, pixels[i], angle) ==>
      Ratio(m, pixels[i], physicals[i], angle) == k
    ensures forall j :: 0 <= j < |ScaleRatios(m, pixels, physicals, angle)| ==>
      ScaleRatios(m, pixels, physicals, angle)[j] == k
  {
    if pixels != [] {
      assert forall i :: 1 <= i < |pixels| ==> pixels[i] == pixels[1..][i - 1] && physicals[i] == physicals[1..][i - 1];
      RatiosAllEqual(m, pixels[1..], physicals[1..], angle, k);
    }
  }

  /** `_calculate_scale_factor`: 1.0 when no row is usable, otherwise the median of the
      ratios of physical to rotated pixel norms. */
  function ScaleFactor(m: Oracle, median: seq<real> -> real, pixels: seq<Point2D>,
                       physicals: seq<Point2D>, angle: real): (k: real)
    requires |pixels| == |physicals|
    ensures (forall i :: 0 <= i < |pixels| ==> !UsableForScale(m, pixels[i], angle)) ==> k == 1.0
  {
    var ratios := ScaleRatios(m, pixels, physicals, angle);
    if ratios == [] then 1.0 else median(ratios)
  }

  /** sqrt(k^2 n) = k sqrt(n) for k >= 0: the norm of a scaled row. */
  lemma {:induction false} NormScale(m: Oracle, p: Point2D, k: real)
    requires k >= 0.0 && ExactSqrt(m)
    ensures Norm(m, Scale(p, k)) == k * Norm(m, p)
  {
    var n := SquaredNorm2(p);
    assert SquaredNorm2(Scale(p, k)) == (k * k) * n;
    SquareNonNeg(p.x);
    SquareNonNeg(p.y);
    SquareNonNeg(k);
    MulNonNeg(k * k, n);
    var a := m.sqrt((k * k) * n);
    var root := m.sqrt(n);
    assert ExactSqrtAt(m, (k * k) * n) && ExactSqrtAt(m, n);
    var b := k * root;
    MulNonNeg(k, root);
    assert b * b == (k * k) * (root * root);
    SquareMonotone(a, b);
    SquareMonotone(b, a);
  }

  lemma ScaledRatio(k: real, x: real)
    requires x > 0.0
    ensures (k * x) / x == k
  {
  }

  /** On exact data, where every centred physical point is the rotated pixel point
      scaled by `k > 0`, every ratio is `k`, so the fitted scale factor is `k` whenever
      some row is usable. */
  lemma {:induction false} ScaleFactorRecoversScale(m: Oracle, median: seq<real> -> real,
      pixels: seq<Point2D>, physicals: seq<Point2D>, angle: real, k: real)
    requires |pixels| == |physicals| && k > 0.0
    requires ExactSqrt(m) && MedianOfConstant(median)
    requires forall i :: 0 <= i < |pixels| ==> physicals[i] == Scale(RotateCcw(m, pixels[i], angle), k)
    requires exists i :: 0 <= i < |pixels| && UsableForScale(m, pixels[i], angle)
    ensures ScaleFactor(m, median, pixels, physicals, angle) == k
  {
    forall i | 0 <= i < |pixels| && UsableForScale(m, pixels[i], angle)
      ensures Ratio(m, pixels[i], physicals[i], angle) == k
    {
      var rotated := RotateCcw(m, pixels[i], angle);
      NormScale(m, rotated, k);
      ScaledRatio(k, Norm(m, rotated));
    }
    RatiosAllEqual(m, pixels, physicals, angle, k);
    var ratios := ScaleRatios(m, pixels, physicals, angle);
    assert ratios != [];
    assert forall j :: 0 <= j < |ratios| ==> ratios[j] == ratios[0];
  }

  /** The translation of `_calculate_transformation`: it sends the rotated and scaled
      pixel centroid exactly onto the physical centroid. */
  function FitTranslation(m: Oracle, pixelCenter: Point2D, physicalCenter: Point2D,
                          scale: real, angle: real): (t: Point2D)
    ensures Add(Scale(RotateCcw(m, pixelCenter, angle), scale), t) == physicalCenter
  {
    Sub(physicalCenter, Scale(RotateCcw(m, pixelCenter, angle), scale))
  }

  /** The fitted map of the calibration: rotate counter-clockwise, scale, translate. */
  function FittedMap(m: Oracle, p: Point2D, scale: real, angle: real, t: Point2D): Point2D {
    Add(Scale(RotateCcw(m, p, angle), scale), t)
  }

  /** Per-point residuals `|scale * R p + t - q|` of `_calculate_confidence`. */
  function Residuals(m: Oracle, pixels: seq<Point2D>, physicals: seq<Point2D>,
                     scale: real, angle: real, t: Point2D): (r: seq<real>)
    requires |pixels| == |physicals|
    ensures |r| == |pixels|
  {
    seq(|pixels|, i requires 0 <= i < |pixels| =>
      Norm(m, Sub(FittedMap(m, pixels[i], scale, angle, t), physicals[i])))
  }

  /** `_calculate_confidence` from the residuals: `min(max(0, 1 - mean/10), 1 - max/50)`. */
  function Confidence(errors: seq<real>): real
    requires |errors| > 0
  {
    Min(Max(0.0, 1.0 - Mean(errors) / 10.0), 1.0 - MaxOf(errors) / 50.0)
  }

  /** Confidence never exceeds 1 for distances. */
  lemma ConfidenceAtMostOne(errors: seq<real>)
    requires |errors| > 0 && forall i :: 0 <= i < |errors| ==> errors[i] >= 0.0
    ensures Confidence(errors) <= 1.0
  {
    MeanBetween(errors);
  }

  /** A confidence above 0.5, which `is_valid` demands, means exactly a mean residual
      below 5 and a largest residual below 25. */
  lemma ConfidenceAboveHalfIff(errors: seq<real>)
    requires |errors| > 0 && forall i :: 0 <= i < |errors| ==> errors[i] >= 0.0
    ensures Confidence(errors) > 0.5 <==> Mean(errors) < 5.0 && MaxOf(errors) < 25.0
  {
    MeanBetween(errors);
  }

  /** The confidence is not clamped below: one residual of 60 gives -0.2. */
  lemma ConfidenceCanBeNegative()
    ensures Confidence([60.0]) < 0.0
  {
    assert Mean([60.0]) == 60.0;
    assert MaxOf([60.0]) == 60.0;
  }

  /** Residuals that are all zero give full confidence. */
  lemma {:induction false} ZeroResidualsFullConfidence(errors: seq<real>)
    requires |errors| > 0 && forall i :: 0 <= i < |errors| ==> errors[i] == 0.0
    ensures Confidence(errors) == 1.0
  {
    SumOfZeros(errors);
    assert MaxOf(errors) in errors;
  }

  /** Exact data fitted exactly gives full confidence. */
  lemma {:induction false} ExactFitFullConfidence(m: Oracle, pixels: seq<Point2D>, physicals: seq<Point2D>,
                                                  scale: real, angle: real, t: Point2D)
    requires |pixels| == |physicals| > 0 && m.sqrt(0.0) == 0.0
    requires forall i :: 0 <= i < |pixels| ==> physicals[i] == FittedMap(m, pixels[i], scale, angle, t)
    ensures Confidence(Residuals(m, pixels, physicals, scale, angle, t)) == 1.0
  {
    var r := Residuals(m, pixels, physicals, scale, angle, t);
    forall i | 0 <= i < |r|
      ensures r[i] == 0.0
    {
      var q := physicals[i];
      assert r[i] == Norm(m, Sub(q, q));
      assert SquaredNorm2(Sub(q, q)) == 0.0;
    }
    ZeroResidualsFullConfidence(r);
  }

  class CalibrationManager {
    const transformer: Transformer
    var points: seq<(Point2D, Point3D)>

    constructor (transformer: Transformer)
      ensures this.transformer == transformer && points == []
    {
      this.transformer := transformer;
      points := [];
    }

    /** `add_calibration_point` */
    method AddCalibrationPoint(pixel: Point2D, physical: Point3D)
      modifies this
      ensures points == old(points) + [(pixel, physical)]
    {
      points := points + [(pixel, physical)];
    }

    /** `perform_calibration` as written. With fewer than two points it reports and
        returns None. Otherwise `_calculate_transformation` stamps its result with
        `time.time()`, but `time` is not imported in that file, so the NameError lands
        in the `except` branch: the result is again None. Either way the transformer is
        left alone (this method modifies nothing) and a calibration error is reported. */
    method PerformCalibration() returns (r: Option<CalibrationData>, report: ErrorType)
      ensures r == None && report == CalibrationError
    {
      if |points| < 2 {
        return None, CalibrationError;
      }
      return None, CalibrationError;
    }
  }
}
