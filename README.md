# IgemArm: a verified model of the arm's geometry, safety and control logic

IgemArm drives a desktop robot arm (a RoArm-style six-joint arm on a serial link)
that treats a wound. A camera finds the red wound region. The region's contour is
converted from pixels into the arm's millimetre frame. A planner cuts the shape into
concentric circles around the arm's base. An inverse-kinematics builder turns each
target point into a joint-angle command. A safety checker, a controller, a
configuration manager and an error handler guard every move.

This project models that pipeline in Dafny over the reals. It proves what each step
promises. Trigonometry and square roots are not computed: every function that needs
them takes an `Oracle` (`sqrt`, `cos`, `sin`, `acos`, `atan2`). Each proof names, as
a precondition, only the law it needs:

- `sqrt(d)^2 = d` at a point, or everywhere;
- `cos^2 + sin^2 = 1` and the parity of `cos`/`sin`;
- `acos` in `[0, pi]` and `cos(acos u) = u`;
- `atan2` in `[-pi, pi]`.

The serial link is a reply oracle `reply: nat -> Option<Frame>`: the decoded answer
to the n-th command written. The camera and OpenCV are replaced by the contour data
they deliver (`RawContour`).

Modules, one per source file, plus shared helpers:

| module | file | models |
|---|---|---|
| `Wrappers`, `Numerics`, `Geometry`, `Sorting` | `wrappers.dfy`, `numerics.dfy`, `geometry.dfy`, `sorting.dfy` | Option/Result, the oracle and its laws, clamping and sums, points and boxes, a stable sort |
| `CoordinateTransform` | `coordinate_transformer.dfy` | `CoordinateTransformer` and `CalibrationManager` |
| `LegacyConvert` | `coordinate_convert.dfy` | the older script transform and its text loader |
| `CirclePlanner` | `circle_planner.dfy` | circle/segment intersection and the radius sweep |
| `Kinematics` | `kinematics.dfy` | the closed-form joint angles and the T=102 command |
| `Configuration` | `config.dfy` | the configuration defaults, validation and manager |
| `ErrorHandling` | `error_handler.dfy` | the error handler, its strategies and its decorator |
| `RobotControl` | `robot_controller.dfy` | the safety checker and the improved controller |
| `ArmControl` | `control.dfy` | the simple serial controller and its straight-line move |
| `ImageProcessing` | `image_processor.dfy` | contour filtering, confidence, best-contour and stable detection |

Objects whose fields the Python code updates are classes:

- `ErrorHandler`, `Transformer`, `CalibrationManager`, `ConfigManager`, `Controller`
  and `RoArmControl`;
- their methods state their whole new state.

Loops in the source are methods with loop invariants, each proved equal to a
specification function. Examples: `FilterContours`, `SelectBestContour`,
`DetectWoundStable`, `Frange`, `CutBand`, `ScanLimits`, `BatchTransform`,
`MoveToPositionSmooth`. The properties are proved about those functions.

## Model

| member | source | states |
|---|---|---|
| `Numerics.Clamp` | countbyhand.py:43 | the clamped value lies in `[lo, hi]` and equals the input when the input already does |
| `Geometry.AddSubInverse` | IgemArm_Optimized_v2.0/coordinate_transformer.py:25-32 | point subtraction undoes point addition |
| `Geometry.ScaleDivInverse` | IgemArm_Optimized_v2.0/coordinate_transformer.py:33-40 | dividing by a non-zero scalar undoes multiplying by it |
| `Geometry.BoxConvex` | IgemArm_Optimized_v2.0/robot_controller_improved.py:94-109 | every point on the segment between two points of an inclusive box is in the box |
| `Sorting.SortBy` | WenxingCircle.py:105 | the result is sorted by the key, is a permutation of the input and has its length, and it is stable: for every key, the elements with that key keep their input order |
| `Sorting.InsertByStable` | WenxingCircle.py:105 | inserting into a sorted list puts the new element in front of all elements with the same key and leaves their order alone, which is what makes the sort stable |
| `Sorting.Dedup` | WenxingCircle.py:93 | the result holds each element of the input exactly once, and nothing else |
| `ErrorHandling.Execute` | IgemArm_Optimized_v2.0/error_handler.py:70-85 | a communication retry succeeds only below `max_retries` and then counts one more retry; boundary and calibration recovery always succeed; a failed attempt changes nothing |
| `ErrorHandling.RetryCountBounded` | IgemArm_Optimized_v2.0/error_handler.py:62-85 | the retry counter never decreases and never exceeds `max_retries`; at the limit every attempt fails |
| `ErrorHandling.BuiltinStrategiesPartition` | IgemArm_Optimized_v2.0/error_handler.py:67-68 | each built-in strategy handles exactly one error type: communication, boundary or calibration |
| `ErrorHandling.FirstRecoverer` | IgemArm_Optimized_v2.0/error_handler.py:183-198 | the index found is the first, in registration order, of a strategy that can handle the error and whose attempt succeeds; none is found only when no strategy does |
| `ErrorHandling.RecoverySucceedsIff` | IgemArm_Optimized_v2.0/error_handler.py:183-198 | recovery succeeds exactly when some registered strategy handles the error and recovers |
| `ErrorHandling.SliceStart` | IgemArm_Optimized_v2.0/error_handler.py:200-203 | the start index of Python's `history[-limit:]`, including a zero or negative limit |
| `ErrorHandling.Pushed` | IgemArm_Optimized_v2.0/error_handler.py:175-181 | the new record is last; below capacity it is appended; at capacity the oldest record is evicted; the bound is kept |
| `ErrorHandling.CountsSumToLength` | IgemArm_Optimized_v2.0/error_handler.py:211-218 | the per-type counts add up to the history length |
| `ErrorHandling.ErrorHandler.constructor` | IgemArm_Optimized_v2.0/error_handler.py:127-136 | empty history; the three built-in strategies in order, with the retry count at 0 of 3 |
| `ErrorHandling.ErrorHandler.RegisterRecoveryStrategy` | IgemArm_Optimized_v2.0/error_handler.py:138-141 | the strategy is appended last; the history is unchanged |
| `ErrorHandling.ErrorHandler.AddToHistory` | IgemArm_Optimized_v2.0/error_handler.py:175-181 | the history becomes `Pushed` of the old history, so it stays within 100 records |
| `ErrorHandling.ErrorHandler.AttemptRecovery` | IgemArm_Optimized_v2.0/error_handler.py:183-198 | the result is whether a first recoverer exists in registration order; only that strategy changes, by its successful attempt |
| `ErrorHandling.ErrorHandler.HandleError` | IgemArm_Optimized_v2.0/error_handler.py:143-161 | exactly one record is pushed before recovery; the result and the strategies' new state are those of the recovery |
| `ErrorHandling.ErrorHandler.GetErrorHistory` | IgemArm_Optimized_v2.0/error_handler.py:200-203 | a suffix of the history: the last `limit` records for a positive limit, all of them for 0, all but the first `-limit` for a negative one |
| `ErrorHandling.ErrorHandler.ClearErrorHistory` | IgemArm_Optimized_v2.0/error_handler.py:205-209 | the history is empty; the strategies are kept |
| `ErrorHandling.ErrorHandler.GetErrorStatistics` | IgemArm_Optimized_v2.0/error_handler.py:211-218 | a type is a key exactly when it occurs in the history, and maps to its number of occurrences |
| `ErrorHandling.ErrorHandler.Decorated` | IgemArm_Optimized_v2.0/error_handler.py:237-260 | a returned value passes through and the handler is untouched; a raise pushes one record and updates the strategies by the recovery attempt, then is swallowed (None), and re-raised only with `reraise` set and recovery failed |
| `ErrorHandling.PushedAll` | IgemArm_Optimized_v2.0/error_handler.py:175-181 | several records pushed in order: a history within its bound stays within it, and the last record pushed is last |
| `ErrorHandling.ReportsAppend` | IgemArm_Optimized_v2.0/error_handler.py:143-181 | reporting one run of errors and then another leaves the history and the strategies as reporting both runs in order does |
| `CoordinateTransform.RotateInverse` | IgemArm_Optimized_v2.0/coordinate_transformer.py:174-182 | rotating by an angle and then by its negation is the identity, in either order |
| `CoordinateTransform.RotateCcwIsNegatedRotate` | IgemArm_Optimized_v2.0/coordinate_transformer.py:364-370 | the calibration's counter-clockwise rotation is the transformer's clockwise rotation by the negated angle |
| `CoordinateTransform.RotationPreservesNorm` | IgemArm_Optimized_v2.0/coordinate_transformer.py:174-182 | both rotations keep the squared length of a point |
| `CoordinateTransform.ConversionRoundTrip` | IgemArm_Optimized_v2.0/coordinate_transformer.py:105-124 | with a positive scale, pixel→physical→pixel and physical→pixel→physical are both the identity |
| `CoordinateTransform.AccuracyOf` | IgemArm_Optimized_v2.0/coordinate_transformer.py:220-235 | accurate exactly when the mean pixel error is below 2; the millimetre error is the pixel error times the scale; the maximum bounds every error |
| `CoordinateTransform.AccuracyOrdered` | IgemArm_Optimized_v2.0/coordinate_transformer.py:220-235 | for distances, `0 <= mean <= max` |
| `CoordinateTransform.ZeroErrorsAccurate` | IgemArm_Optimized_v2.0/coordinate_transformer.py:220-235 | all-zero errors give a zero, accurate report |
| `CoordinateTransform.Transformer.constructor` | IgemArm_Optimized_v2.0/coordinate_transformer.py:70-74 | no calibration and no image centre; the workspace box and nozzle height come from the configuration |
| `CoordinateTransform.Transformer.SetImageCenter` | IgemArm_Optimized_v2.0/coordinate_transformer.py:76-79 | the image centre becomes `(w/2, h/2)`; the calibration is unchanged |
| `CoordinateTransform.Transformer.SetCalibrationData` | IgemArm_Optimized_v2.0/coordinate_transformer.py:81-91 | valid data (scale > 0, confidence > 0.5, angle within pi) replaces the calibration wholesale; invalid data leaves it unchanged and reports a calibration error |
| `CoordinateTransform.Transformer.PixelToPhysical` | IgemArm_Optimized_v2.0/coordinate_transformer.py:93-138 | the origin, reported, without calibration or image centre; otherwise the chain centre→flip Y→rotate→scale→translate with z equal to the nozzle height, returned even when outside the box, and reported exactly then |
| `CoordinateTransform.Transformer.PhysicalToPixel` | IgemArm_Optimized_v2.0/coordinate_transformer.py:140-172 | the origin, reported, without calibration or image centre; otherwise an unreported inverse conversion that ignores z |
| `CoordinateTransform.Transformer.PixelRoundTrip` | IgemArm_Optimized_v2.0/coordinate_transformer.py:93-172 | `physical_to_pixel(pixel_to_physical(p)) == p`, unreported |
| `CoordinateTransform.Transformer.BatchTransform` | IgemArm_Optimized_v2.0/coordinate_transformer.py:194-205 | same length, and element i is the conversion of pixel i, in order |
| `CoordinateTransform.Transformer.ValidateTransformation` | IgemArm_Optimized_v2.0/coordinate_transformer.py:207-235 | error on a count mismatch or an empty list; otherwise the accuracy of the per-point back-projection errors |
| `CoordinateTransform.Transformer.SelfValidationExact` | IgemArm_Optimized_v2.0/coordinate_transformer.py:207-235 | a pixel validated against its own conversion has zero error (exact sqrt) |
| `CoordinateTransform.Transformer.SelfValidationAccurate` | IgemArm_Optimized_v2.0/coordinate_transformer.py:207-235 | validating pixels against their own conversions reports zero error and accurate |
| `CoordinateTransform.Transformer.GetTransformationMatrix` | IgemArm_Optimized_v2.0/coordinate_transformer.py:237-253 | the 3x3 identity without calibration, otherwise `MatrixOf` the calibration |
| `CoordinateTransform.MatrixOf` | IgemArm_Optimized_v2.0/coordinate_transformer.py:243-253 | a homogeneous 3x3 matrix that maps a point by rotation, scale and offset |
| `CoordinateTransform.MatrixOmitsFlip` | IgemArm_Optimized_v2.0/coordinate_transformer.py:237-253 | for some point, the reported matrix disagrees with the conversion, which negates Y first |
| `CoordinateTransform.ScaleRatios` | IgemArm_Optimized_v2.0/coordinate_transformer.py:346-362 | the ratios are empty exactly when no pixel is usable (non-zero length after rotation) |
| `CoordinateTransform.RatiosAllEqual` | IgemArm_Optimized_v2.0/coordinate_transformer.py:346-362 | for physical points that are an exact rotate-and-scale of the pixels, every ratio equals the scale |
| `CoordinateTransform.ScaleFactor` | IgemArm_Optimized_v2.0/coordinate_transformer.py:346-362 | the fallback 1.0 when no pixel is usable |
| `CoordinateTransform.NormScale` | IgemArm_Optimized_v2.0/coordinate_transformer.py:346-362 | scaling by `k >= 0` scales the length by `k` |
| `CoordinateTransform.ScaleFactorRecoversScale` | IgemArm_Optimized_v2.0/coordinate_transformer.py:346-362 | the median of the ratios recovers the true scale of an exact fit |
| `CoordinateTransform.FitTranslation` | IgemArm_Optimized_v2.0/coordinate_transformer.py:312-315 | the translation sends the rotated, scaled pixel centroid exactly onto the physical centroid |
| `CoordinateTransform.Residuals` | IgemArm_Optimized_v2.0/coordinate_transformer.py:372-380 | one residual per point pair |
| `CoordinateTransform.ConfidenceAtMostOne` | IgemArm_Optimized_v2.0/coordinate_transformer.py:381-389 | for non-negative residuals the confidence is at most 1 |
| `CoordinateTransform.ConfidenceAboveHalfIff` | IgemArm_Optimized_v2.0/coordinate_transformer.py:381-389 | confidence exceeds 0.5 exactly when the mean residual is below 5 and the largest is below 25 |
| `CoordinateTransform.ConfidenceCanBeNegative` | IgemArm_Optimized_v2.0/coordinate_transformer.py:381-389 | a residual of 60 gives a negative confidence: there is no clamp below |
| `CoordinateTransform.ZeroResidualsFullConfidence` | IgemArm_Optimized_v2.0/coordinate_transformer.py:381-389 | zero residuals give confidence 1 |
| `CoordinateTransform.ExactFitFullConfidence` | IgemArm_Optimized_v2.0/coordinate_transformer.py:372-389 | an exact rotate-scale-translate fit gives confidence 1 |
| `CoordinateTransform.CalibrationManager.constructor` | IgemArm_Optimized_v2.0/coordinate_transformer.py:258-261 | bound to the transformer, with no points |
| `CoordinateTransform.CalibrationManager.AddCalibrationPoint` | IgemArm_Optimized_v2.0/coordinate_transformer.py:263-267 | the pair is appended last |
| `CoordinateTransform.CalibrationManager.PerformCalibration` | IgemArm_Optimized_v2.0/coordinate_transformer.py:269-292 | always None with a calibration error, and the transformer is untouched |
| `LegacyConvert.SplitOn` | CoordinateConvert__XY.py:18-19 | no piece contains the separator and joining the pieces gives the text back |
| `LegacyConvert.SplitWhitespace` | CoordinateConvert__XY.py:18 | the tokens are non-empty and free of whitespace (every character `str.isspace` accepts, including `\x1c`-`\x1f`, `\x85`, `\xa0` and the Unicode space separators), one per run of other characters, and together they are the text without its whitespace |
| `LegacyConvert.SeparatorSplits` | CoordinateConvert__XY.py:18-19 | an information separator (`\x1c`) splits tokens as a space does |
| `LegacyConvert.ParseFields` | CoordinateConvert__XY.py:18-19 | each field parsed in order; fails exactly when some field does not parse |
| `LegacyConvert.ParseTokens` | CoordinateConvert__XY.py:18-19 | one row per token, each row the parsed comma fields; fails exactly when some field of some token does not parse |
| `LegacyConvert.LoadCoordinates` | CoordinateConvert__XY.py:16-22 | one row per `str.split()` token (any Python whitespace separates), each row the token's comma fields parsed in order |
| `LegacyConvert.LoadFailsIff` | CoordinateConvert__XY.py:16-22 | loading fails exactly when some comma field of some `str.split()` token does not parse as a number |
| `LegacyConvert.TransformCoordinates` | CoordinateConvert__XY.py:25-48 | same length and order; each point is flipped in Y, rotated clockwise, scaled and offset |
| `LegacyConvert.LegacyAgreesWithTransformer` | CoordinateConvert__XY.py:33-44 | the legacy map equals the transformer's rotation and scale applied to the Y-flipped point, plus the offset |
| `LegacyConvert.NoRotation` | CoordinateConvert__XY.py:33-44 | with angle 0 a point maps to `(x*scale + dx, -y*scale + dy)` |
| `LegacyConvert.SquaredDistanceScales` | CoordinateConvert__XY.py:35-44 | squared distances between transformed points are `scale^2` times the originals |
| `CirclePlanner.KeepOnSegment` | WenxingCircle.py:56-60 | every point kept is `P0 + t(P1 - P0)` for a root `t` in `[0, 1]` |
| `CirclePlanner.CircleHits` | WenxingCircle.py:34-62 | no points for a negative discriminant; fails (zero division) exactly for a zero-length edge with a non-negative discriminant; at most two points, each on the segment |
| `CirclePlanner.CircleHitsInRootOrder` | WenxingCircle.py:52-60 | for a non-degenerate edge and a non-negative discriminant, the points are those of the roots in `[0, 1]`, in the loop's order: `t1 = (-b + sqrt)/2a` before `t2 = (-b - sqrt)/2a` |
| `CirclePlanner.CircleHitsComplete` | WenxingCircle.py:34-62 | every point of a non-degenerate segment that lies on the circle is returned (exact sqrt) |
| `CirclePlanner.QuadraticRootReported` | WenxingCircle.py:45-60 | every root in `[0, 1]` of the edge's quadratic gives a returned point (exact sqrt) |
| `CirclePlanner.RootReported` | WenxingCircle.py:53-60 | a formula root that lies in `[0, 1]` gives a returned point |
| `CirclePlanner.ZeroLengthEdgeFails` | WenxingCircle.py:45-54 | a degenerate edge makes the search fail |
| `CirclePlanner.FindCircleIntersections` | WenxingCircle.py:34-62 | the looping search equals `CircleHits` |
| `CirclePlanner.QuadraticFormula` | WenxingCircle.py:49-54 | the quadratic-formula roots solve `a t^2 + b t + c = 0` |
| `CirclePlanner.RootOnCircle` | WenxingCircle.py:45-54 | a root gives a point with `x^2 + y^2 = radius^2` |
| `CirclePlanner.HitsOnCircle` | WenxingCircle.py:42-60 | every point returned is on the circle (exact sqrt) |
| `CirclePlanner.TangentTwice` | WenxingCircle.py:53-60 | at a tangent inside the segment, the same point is returned twice |
| `CirclePlanner.MirroredRadius` | WenxingCircle.py:47 | a negative radius finds the same points as its absolute value |
| `CirclePlanner.Range` | WenxingCircle.py:149-153 | `start + i*step`, strictly increasing, each below `stop`, and the next would not be |
| `CirclePlanner.Frange` | WenxingCircle.py:149-153 | the stepping loop equals `Range` |
| `CirclePlanner.Edges` | WenxingCircle.py:86-90 | exactly one edge per vertex, consecutive pairs, the last closing back to the first |
| `CirclePlanner.EdgeHits` | WenxingCircle.py:86-90 | the edge loop fails only with the zero-length-edge error |
| `CirclePlanner.EdgeHitsFailIff` | WenxingCircle.py:86-90 | a band fails exactly when one of its edges fails |
| `CirclePlanner.EdgeHitsSound` | WenxingCircle.py:86-90 | every point collected is a hit of some edge |
| `CirclePlanner.EdgeHitsComplete` | WenxingCircle.py:86-90 | every hit of every edge is collected |
| `CirclePlanner.PolarAngleRange` | WenxingCircle.py:27-31 | the polar angle in degrees lies in `[-180, 180]` |
| `CirclePlanner.PolarRadiusExact` | WenxingCircle.py:27-31 | the polar radius squared is the squared norm |
| `CirclePlanner.PolarRows` | WenxingCircle.py:95-103 | one row per point, in order |
| `CirclePlanner.Band` | WenxingCircle.py:86-105 | fails exactly when the edge search fails; otherwise rows sorted by polar radius, without duplicates, each from a hit, and every hit present |
| `CirclePlanner.DistinctRows` | WenxingCircle.py:93-103 | distinct points give distinct rows |
| `CirclePlanner.DistinctPoints` | WenxingCircle.py:93 | the rows of a band hold no point twice |
| `CirclePlanner.Sweep` | WenxingCircle.py:76-106 | fails exactly when the band of some radius fails; every row's radius is one of the sweep's radii |
| `CirclePlanner.VertexDistances` | WenxingCircle.py:72-74 | one distance per vertex |
| `CirclePlanner.SweepRowsFromBands` | WenxingCircle.py:76-106 | every row of the sweep belongs to the band of its own radius |
| `CirclePlanner.SweepAppend` | WenxingCircle.py:83-106 | the rows of two runs of radii are those of the first run followed by those of the second; the sweep fails when either run does |
| `CirclePlanner.SweepSingle` | WenxingCircle.py:83-106 | the rows of one radius are that radius's band |
| `CirclePlanner.SweepExtends` | WenxingCircle.py:83-106 | one more radius whose band succeeds appends exactly that band's rows |
| `CirclePlanner.SweepContainsBands` | WenxingCircle.py:83-106 | in a successful sweep, every radius's band succeeds and all its rows are written |
| `CirclePlanner.BandFailsSweep` | WenxingCircle.py:83-106 | one failing band makes the whole sweep fail |
| `CirclePlanner.SweepOrdered` | WenxingCircle.py:76-106 | for increasing radii, the rows are grouped by radius in sweep order |
| `CirclePlanner.EdgeFailsIff` | WenxingCircle.py:45-54 | an edge fails exactly when its squared length is zero |
| `CirclePlanner.SweepRadiiNonEmpty` | WenxingCircle.py:72-79 | the sweep has at least one radius |
| `CirclePlanner.PlanFailsIff` | WenxingCircle.py:65-106 | planning fails exactly when the closed polygon has a zero-length edge |
| `CirclePlanner.BandOnCircle` | WenxingCircle.py:86-103 | every row of a band lies on its circle and has polar radius `|radius|` |
| `CirclePlanner.Vertices` | WenxingCircle.py:6-24 | one vertex per usable row (two leading fields that `float` accepts): every usable row's vertex is present, every vertex comes from a usable row, and the result is empty exactly when no row is usable |
| `CirclePlanner.VerticesAppend` | WenxingCircle.py:12-19 | file order is kept: the vertices of two runs of rows are those of the first followed by those of the second |
| `CirclePlanner.VerticesSingle` | WenxingCircle.py:13-19 | a single row yields its vertex when usable and nothing otherwise |
| `CirclePlanner.VerticesGrow` | WenxingCircle.py:12-19 | one more row read appends its vertex, when it has one |
| `CirclePlanner.ReadCoordinates` | WenxingCircle.py:6-24 | the usable vertices, or an error when none survive |
| `CirclePlanner.CutBand` | WenxingCircle.py:86-105 | the loop over edges, dedup and sort equals `Band` |
| `CirclePlanner.ProcessShape` | WenxingCircle.py:65-106 | an error when no vertex is read; otherwise the plan of the vertices |
| `Kinematics.PolarDegreesRange` | countbyhand.py:17-31 | in degrees the angle lies in `[0, 360)` and differs from the radian angle by 0 or one full turn |
| `Kinematics.ElbowCosine` | countbyhand.py:40-43 | the cosine argument is clamped into `[-1, 1]`, and is unchanged when it already lies there |
| `Kinematics.ElbowRange` | countbyhand.py:46-48 | the elbow angle lies in `[-0.126..., pi - 0.126...]` |
| `Kinematics.ElbowLawOfCosines` | countbyhand.py:35-48 | for a reachable target the interior elbow angle satisfies the law of cosines over the reach |
| `Kinematics.ElevationInDomain` | countbyhand.py:52 | the elevation cosine is always a valid `acos` argument (exact sqrt) |
| `Kinematics.UpperArmInDomain` | countbyhand.py:54 | the second `acos` argument is valid exactly when the reach lies in `[l1 - l2, l1 + l2]` |
| `Kinematics.ReachBetween` | countbyhand.py:54 | for non-negative values, betweenness is preserved and reflected by squaring |
| `Kinematics.ShoulderDefinedIff` | countbyhand.py:49-55 | the unclamped shoulder angle is defined exactly for reachable targets; it fails by zero division exactly at the origin |
| `Kinematics.ShoulderRange` | countbyhand.py:55 | a defined shoulder angle lies in `[pi/2 - offset - 2 pi, pi/2 - offset]` |
| `Kinematics.AllAngles` | countbyhand.py:56-60 | defined exactly when the shoulder is; base is the radian `atan2(y, x)`, elbow the elbow angle |
| `Kinematics.AngleCommand` | countbyhand.py:62-65 | T = 102, roll equal to base, hand 3.14, speed and acceleration passed through, and `wrist + elbow + shoulder = pi - 0.1` |
| `Kinematics.CommandAngles` | countbyhand.py:56-65 | the command exists exactly for reachable targets and carries the three joint angles unchanged |
| `Kinematics.CommandDefaults` | countbyhand.py:62 | the default speed is 0 and the default acceleration 10 |
| `Configuration.FirstConfigError` | IgemArm_Optimized_v2.0/config.py:214-244 | no error exactly when device id >= 0, baudrate > 0, distance > 0 and every axis has min < max; an axis error names an empty axis |
| `Configuration.DefaultConfig` | IgemArm_Optimized_v2.0/config.py:15-112 | the default passes validation, with box x(-200, 400), y(-200, 200), z(50, 300) |
| `Configuration.MakeSystemConfig` | IgemArm_Optimized_v2.0/config.py:102-112 | every missing section takes its default |
| `Configuration.UpdateFromDictLaws` | IgemArm_Optimized_v2.0/config.py:151-189 | updating the default equals construction; an empty dictionary changes nothing; updating twice equals updating once |
| `Configuration.UpdateFromDictFrame` | IgemArm_Optimized_v2.0/config.py:151-189 | each part the dictionary names takes its value and every other part is kept |
| `Configuration.Assign` | IgemArm_Optimized_v2.0/config.py:200-206 | an unknown key leaves the configuration unchanged |
| `Configuration.KnownOnly` | IgemArm_Optimized_v2.0/config.py:200-206 | keeps exactly the assignments with a known key |
| `Configuration.UnknownKeysIgnored` | IgemArm_Optimized_v2.0/config.py:195-206 | applying the keyword arguments equals applying only the known ones |
| `Configuration.UnassignedKept` | IgemArm_Optimized_v2.0/config.py:195-206 | an attribute that no argument names keeps its value |
| `Configuration.ConfigManager.constructor` | IgemArm_Optimized_v2.0/config.py:117-120 | starts from the default configuration |
| `Configuration.ConfigManager.UpdateConfig` | IgemArm_Optimized_v2.0/config.py:195-206 | the configuration becomes the in-order application of the arguments |
| `Configuration.ConfigManager.ResetToDefault` | IgemArm_Optimized_v2.0/config.py:208-212 | the configuration equals a fresh default and is valid |
| `Configuration.ConfigManager.UpdateConfigFromDict` | IgemArm_Optimized_v2.0/config.py:151-189 | the configuration becomes the dictionary update of the old one |
| `Configuration.ConfigManager.ValidateCurrent` | IgemArm_Optimized_v2.0/config.py:214-244 | true exactly when the current configuration passes validation |
| `RobotControl.CheckPosition` | IgemArm_Optimized_v2.0/robot_controller_improved.py:94-109 | accepts exactly the points of the inclusive box; otherwise names the first failing axis in order x, y, z |
| `RobotControl.FirstOverLimit` | IgemArm_Optimized_v2.0/robot_controller_improved.py:111-127 | the first index whose absolute value exceeds its limit; none exactly when all are within |
| `RobotControl.ScanLimits` | IgemArm_Optimized_v2.0/robot_controller_improved.py:111-127 | the early-return loop equals `FirstOverLimit` |
| `RobotControl.CheckJointAngles` | IgemArm_Optimized_v2.0/robot_controller_improved.py:111-118 | the first joint in field order over its limit (shoulder pi/2, others pi) |
| `RobotControl.CheckJointLoads` | IgemArm_Optimized_v2.0/robot_controller_improved.py:120-127 | the first load in field order over its limit (wrist loads 500, others 1000) |
| `RobotControl.DefaultStatusWithinLimits` | IgemArm_Optimized_v2.0/robot_controller_improved.py:52-70 | the default status passes both joint checks |
| `RobotControl.CheckMovementSafety` | IgemArm_Optimized_v2.0/robot_controller_improved.py:129-155 | the loop equals the verdict: start, then end, then the samples `t = i/steps`, `1 <= i < steps`, `steps = floor(d/10)` above 100 mm |
| `RobotControl.SamplesInBox` | IgemArm_Optimized_v2.0/robot_controller_improved.py:140-153 | between two points of the box, no sample leaves the box |
| `RobotControl.MovementReducesToEndpoints` | IgemArm_Optimized_v2.0/robot_controller_improved.py:129-155 | the path is safe exactly when both endpoints are in the box; the midpoint verdict never occurs |
| `RobotControl.ApplyTelemetry` | IgemArm_Optimized_v2.0/robot_controller_improved.py:480-504 | a frame without `T == 1051` changes nothing; state and connection are never changed |
| `RobotControl.TelemetryRoundTrip` | IgemArm_Optimized_v2.0/robot_controller_improved.py:480-504 | a feedback frame sets exactly the position, angles and loads it carries |
| `RobotControl.TelemetryPartialFrame` | IgemArm_Optimized_v2.0/robot_controller_improved.py:480-504 | for a feedback frame, each of the fourteen fields takes its key's value when the frame has the key and 0 when it does not; the error message is kept |
| `RobotControl.BareFeedbackZeroes` | IgemArm_Optimized_v2.0/robot_controller_improved.py:480-504 | a frame holding only `T = 1051` zeroes the position, the angles and the loads |
| `RobotControl.PositionOf` | IgemArm_Optimized_v2.0/robot_controller_improved.py:363-372 | a position exactly when the reply holds `x`, `y` and `z` |
| `RobotControl.PositionRoundTrip` | IgemArm_Optimized_v2.0/robot_controller_improved.py:363-372 | a feedback frame reads back its own position |
| `RobotControl.SubTargets` | IgemArm_Optimized_v2.0/robot_controller_improved.py:343-349 | `steps` sub-targets for positive `steps`, none otherwise |
| `RobotControl.SubTargetsReachTarget` | IgemArm_Optimized_v2.0/robot_controller_improved.py:343-349 | the last sub-target is the target; between two points of the box all sub-targets are in the box |
| `RobotControl.Controller.constructor` | IgemArm_Optimized_v2.0/robot_controller_improved.py:160-197 | default status, the configured box, then the corrected connection attempt (`ConnectIntended`, see Findings): connected and IDLE exactly when the port opens and the arm answers; the configured default speed and acceleration are the ones every move falls back to; a port that does not open is reported, and nothing else is |
| `RobotControl.Controller.AsWritten` | IgemArm_Optimized_v2.0/robot_controller_improved.py:160-197 | `__init__` as written, through `connect`: never connected, default status, nothing written; the refused probe, or the port that does not open, is reported; the default speed and acceleration are the configured ones |
| `RobotControl.Controller.Send` | IgemArm_Optimized_v2.0/robot_controller_improved.py:246-263 | when connected, the command is written and the next reply returned; otherwise nothing is written, None is returned and a communication error is reported |
| `RobotControl.Controller.Connect` | IgemArm_Optimized_v2.0/robot_controller_improved.py:199-244 | as written: from a disconnected controller it never succeeds, writes nothing and reports the refused probe; a port that does not open is reported; an already connected controller is probed and succeeds exactly when answered; a failure leaves it disconnected with its status kept |
| `RobotControl.Controller.ConnectIntended` | IgemArm_Optimized_v2.0/robot_controller_improved.py:199-244 | connected and IDLE exactly when the port opens and the probe is answered |
| `RobotControl.Controller.Disconnect` | IgemArm_Optimized_v2.0/robot_controller_improved.py:265-281 | both connection flags drop and the state becomes DISCONNECTED |
| `RobotControl.Controller.GetCurrentPosition` | IgemArm_Optimized_v2.0/robot_controller_improved.py:363-372 | when connected, one query is written and the reply's position returned; otherwise None |
| `RobotControl.Controller.EmergencyStop` | IgemArm_Optimized_v2.0/robot_controller_improved.py:379-389 | the state becomes EMERGENCY_STOP; when connected the stop command is written and nothing is reported; otherwise nothing is written and a communication error is reported |
| `RobotControl.Controller.UpdateStatusFromData` | IgemArm_Optimized_v2.0/robot_controller_improved.py:480-504 | the status becomes `ApplyTelemetry` of the old status |
| `RobotControl.Controller.GuardedMove` | IgemArm_Optimized_v2.0/robot_controller_improved.py:299-331 | an unsafe path is reported with no move; otherwise the state ends IDLE; an unreachable target is reported; a computed command is written and succeeds exactly when answered |
| `RobotControl.Controller.MoveToPosition` | IgemArm_Optimized_v2.0/robot_controller_improved.py:283-331 | refused and reported, with nothing written, when disconnected; when connected, the commands written, the errors reported, the result and the final state are exactly those of `MoveStep` |
| `RobotControl.Controller.MoveStep` | IgemArm_Optimized_v2.0/robot_controller_improved.py:283-331 | a connected move succeeds only for a target in the box, with no error reported and the state IDLE; outside the box nothing is written; inside, a position query comes first; at most one error is reported, and none exactly when the angle command is written |
| `RobotControl.MoveStepSucceeds` | IgemArm_Optimized_v2.0/robot_controller_improved.py:299-331 | a successful move had its target in the box and an angle command, and wrote a position query followed by that command |
| `RobotControl.Controller.MoveToPositionSmooth` | IgemArm_Optimized_v2.0/robot_controller_improved.py:333-361 | refused and reported when disconnected; fails after the position query, reporting nothing, when the position is unknown; otherwise the query followed by `SmoothTrace` of the sub-targets: the commands, reports, result and final state of the sub-moves in order up to the first failure |
| `RobotControl.Controller.SmoothTrace` | IgemArm_Optimized_v2.0/robot_controller_improved.py:342-360 | a successful run of sub-moves reports no error |
| `RobotControl.SmoothTraceSucceeds` | IgemArm_Optimized_v2.0/robot_controller_improved.py:342-360 | a successful smooth move reports nothing and moved to every sub-target in order: each in the box, each with a position query followed by its angle command |
| `RobotControl.SmoothTraceFails` | IgemArm_Optimized_v2.0/robot_controller_improved.py:342-360 | a failed smooth move had at least one sub-target and reports at most one error, the one that stopped it |
| `RobotControl.Controller.SmoothLoop` | IgemArm_Optimized_v2.0/robot_controller_improved.py:342-360 | the sub-move loop writes, reports, returns and leaves the state exactly as `SmoothTrace` of the sub-targets |
| `RobotControl.Controller.SubMove` | IgemArm_Optimized_v2.0/robot_controller_improved.py:351-354 | one sub-move is a connected `move_to_position` with the default acceleration: its effect is `MoveStep` |
| `RobotControl.Controller.SmoothStep` | IgemArm_Optimized_v2.0/robot_controller_improved.py:351-356 | one turn of the loop: the state follows the outcome so far, and either the rest of the run remains or the run is over after a failure |
| `RobotControl.DefaultPositionOutsideBox` | IgemArm_Optimized_v2.0/robot_controller_improved.py:52-70 | the default status position fails the default box on axis z |
| `RobotControl.BoxCornerUnreachable` | IgemArm_Optimized_v2.0/config.py:72-78 | the corner (400, 200, 300) is in the default box, but its command fails with an `acos` domain error |
| `ArmControl.EndPositionCommand` | control.py:32-45 | T = 104 with the given x, y, z, t, g and speed |
| `ArmControl.EndPositionDefaults` | control.py:32 | the defaults are `t = 3.1415/2`, `g = 3.14`, speed 0 |
| `ArmControl.PidCommands` | control.py:57-60 | six T = 108 commands for joints 1..6 in order, each with the same p and i |
| `ArmControl.Linspace` | control.py:86 | `n` points from start, the last being end when `n >= 2`, evenly spaced |
| `ArmControl.LinspaceOnSegment` | control.py:86 | every waypoint lies on the segment from start to end |
| `ArmControl.WaypointCount` | control.py:83-84 | `max(1, floor(d/gap) + 1)`, at least 1 |
| `ArmControl.Waypoints` | control.py:83-86 | as written: the waypoints start at start, and reach end only when there are at least two |
| `ArmControl.ShortMoveMissesEnd` | control.py:83-86 | as written, a move shorter than the gap yields only the start point |
| `ArmControl.ShortMoveExample` | control.py:83-86 | the move (0,0,0)→(5,0,0) with gap 10 yields only the origin |
| `ArmControl.WaypointCountIntended` | control.py:83-84 | at least two waypoints |
| `ArmControl.WaypointsIntended` | control.py:83-86 | the waypoints always start at start and end at end |
| `ArmControl.IntendedAgreesOnLongMoves` | control.py:83-86 | whenever the written count is at least two, the corrected waypoints are the written ones |
| `ArmControl.PlanCommands` | control.py:88-91 | one command per waypoint in order, up to the first unreachable waypoint |
| `ArmControl.JointsOf` | control.py:88-91 | one joint command per computed command, in order |
| `ArmControl.RoArmControl.constructor` | control.py:9-19 | nothing sent yet |
| `ArmControl.RoArmControl.SendCommand` | control.py:21-28 | the command is appended to what was sent |
| `ArmControl.RoArmControl.SetEndPosition` | control.py:32-45 | sends exactly the end-position command |
| `ArmControl.RoArmControl.Zero` | control.py:51-55 | sends exactly `{"T": 100}` |
| `ArmControl.RoArmControl.SetPid` | control.py:57-60 | sends exactly the six PID commands |
| `ArmControl.RoArmControl.MoveToPosition` | control.py:93-95 | sends exactly the angle command, or fails without sending where Python raises |
| `ArmControl.RoArmControl.MoveToPositionStraight` | control.py:77-92 | sends one angle command per corrected waypoint, in order, stopping at the first unreachable one |
| `ArmControl.RoArmControl.MoveToPositionStraightAsWritten` | control.py:77-92 | as written: one angle command per written waypoint, in order, stopping at the first unreachable one; a move shorter than one gap commands only `start` |
| `ArmControl.RoArmControl.SendPlan` | control.py:88-91 | sends the joint command of each point, in order, up to the first point out of reach; fails exactly when the plan does |
| `ArmControl.StraightEndsAtTarget` | control.py:83-92 | when every corrected waypoint is reachable, the last command is the one for the target |
| `ArmControl.PlanStep` | control.py:88-91 | extending a plan with no failure by one waypoint appends that waypoint's command, or records its error |
| `ArmControl.PlanComplete` | control.py:88-91 | a plan with no failure ends with the command for the last waypoint |
| `ArmControl.PlanStops` | control.py:88-91 | once a prefix of the waypoints fails, later waypoints change nothing: the plan stops at the first unreachable one |
| `ImageProcessing.FilteredMembers` | image_processor.py:164-174 | a contour is kept exactly when it is in the input and its area exceeds the minimum |
| `ImageProcessing.FilteredAppend` | image_processor.py:164-174 | filtering distributes over concatenation, so order is kept |
| `ImageProcessing.FilterContours` | image_processor.py:164-174 | the loop equals `Filtered` |
| `ImageProcessing.Confidence` | image_processor.py:226-245 | lies in `[0, 1]`; with a non-positive perimeter only the area term counts |
| `ImageProcessing.RoundContourFullConfidence` | image_processor.py:226-245 | a perfect circle of area at least 1000 has confidence 1 |
| `ImageProcessing.RelativePoints` | image_processor.py:188-196 | adding the image centre back to each relative point gives the pixel |
| `ImageProcessing.Centroid` | image_processor.py:198-204 | the origin for no points; otherwise the mean of the x and y coordinates |
| `ImageProcessing.SumShifted` | image_processor.py:198-204 | shifting every value by `c` shifts the sum by `n c` |
| `ImageProcessing.CentroidTranslates` | image_processor.py:188-204 | the centroid of the relative points is the pixel centroid minus the image centre |
| `ImageProcessing.ContourInfoCenter` | image_processor.py:176-224 | the centre is the pixel centroid relative to `(w//2, h//2)`, or the origin with no points; area, perimeter and box are kept; confidence in `[0, 1]` |
| `ImageProcessing.DetectContours` | image_processor.py:127-162 | the filter, convert and sort steps equal `DetectedContours` |
| `ImageProcessing.DetectedContoursLaws` | image_processor.py:127-162 | sorted by area, descending; a permutation of the kept contours; every area above the minimum |
| `ImageProcessing.BestIndexLaws` | image_processor.py:302-319 | none exactly when every score is at most 0; otherwise the first contour with the strictly greatest score |
| `ImageProcessing.BestIndex` | image_processor.py:302-319 | a found index is the index of a contour |
| `ImageProcessing.SelectBestContour` | image_processor.py:302-319 | the loop equals `BestContour` |
| `ImageProcessing.DetectWound` | image_processor.py:256-299 | equals `WoundResult` of the detected contours |
| `ImageProcessing.WoundResultLaws` | image_processor.py:256-299 | fails exactly when no contour survives filtering, with no contours and a no-contour message; a success holds at most the best contour, and none exactly when every score is at most 0 |
| `ImageProcessing.Checks` | image_processor.py:323-324 | a count below 1 is treated as 1 |
| `ImageProcessing.SuccessesMembers` | image_processor.py:336 | the successes are exactly the successful results |
| `ImageProcessing.FirstArgMin` | image_processor.py:353-355 | the first index whose distance is strictly smallest |
| `ImageProcessing.StableChoice` | image_processor.py:321-359 | the last result if none succeeded, a success otherwise, the single success if exactly one, and the first success when no success has a contour |
| `ImageProcessing.Centers` | image_processor.py:346 | no centres exactly when no result has a contour |
| `ImageProcessing.StableChoiceSucceedsIff` | image_processor.py:321-359 | the choice is one of the results and succeeds exactly when some result does |
| `ImageProcessing.StableClosestToMean` | image_processor.py:345-357 | with two or more successes and a centre, the choice is the first success closest to the mean centre |
| `ImageProcessing.DetectWoundStable` | image_processor.py:321-359 | the loop of detections followed by the vote equals `StableChoice` |
| `ImageProcessing.StableRepeatsFirst` | image_processor.py:321-359 | on one image, the stable result is the first attempt if it succeeds, otherwise the last |

## Left out

- Serial I/O is not modelled: opening the port, byte encoding, `readline` and JSON parsing are the reply oracle. A reply is either a decoded map from keys to numbers or None.
- The `time.sleep` calls, threads and locks are not modelled, including the logging and position-monitor workers. Their point is concurrency.
- Logging text and message formatting are not modelled. Error messages are fixed tags.
- Timestamps and clocks are not modelled: `last_update` and `ErrorInfo.timestamp` are dropped. The processing time of a detection is a parameter.
- Real arithmetic stands in for IEEE-754 floats. Rounding, overflow and the inaccuracy of `sqrt`, `cos`, `sin`, `acos` and `atan2` are not modelled; the oracle laws are exact.
- OpenCV preprocessing, masking, `findContours` and `approxPolyDP` are not modelled. Contours arrive as `RawContour` values holding their area, perimeter, approximated vertices and bounding box.
- Drawing is not modelled.
- `ImageProcessing.ContourToInfo` does not model the exception path of `_contour_to_info`, which returns None. The decorator around `detect_wound` and its exception result are left out too.
- The SVD rotation estimate in `_calculate_rotation_angle` is not modelled. The rotation angle is an input, and numpy's median is an abstract function passed as a parameter.
- The `perform_calibration` success path is not modelled. That path calls `time.time()` without importing `time`, so `PerformCalibration` models its only reachable outcome. The fit itself is covered by `ScaleFactor`, `FitTranslation`, `Residuals` and the confidence lemmas.
- Configuration JSON load and save are not modelled, nor building sections from nested dictionaries. `ConfigDict` carries already-built sections.
- The CSV reading in `WenxingCircle.py` is left out (rows arrive as string fields with a `parse` oracle), and so are its CSV writing and plotting. The CSV branch, saving and plotting of `CoordinateConvert__XY.py` are left out too.
- In `control.py`, `getcurrentposition` and `close` are left out, as is the reply read in `send_command`.
- `Configuration.ConfigManager.constructor` does not model the `load_config` call, which may replace the defaults with the JSON file's values.
- `set_pid_parameters`, `save_position_data` and the context-manager methods of the improved controller are left out.
- `RobotControl.Controller.MoveToPosition`: the MOVING state set during the move is not observable from the model, because the `finally` always overwrites it. The contract states the final IDLE state.
- `RobotControl.Controller.MoveToPosition`: the `position_data` log of successful moves is not kept.
- `CoordinateTransform.ScaleFactor` states only the fallback value. What the median returns is stated through `ScaleFactorRecoversScale`, for a median that returns the common value of a constant list.
- `CirclePlanner.PolarAngleRange` states the `[-180, 180]` range that follows from `atan2`, not a half-open one.
- `RobotControl.Controller.constructor` makes the corrected connection attempt (`ConnectIntended`), so that the rest of the model can use a connected controller. The `__init__` as written, whose `connect` never succeeds, is `RobotControl.Controller.AsWritten`.
- `RobotControl.Controller.constructor` and `RobotControl.Controller.AsWritten` copy the default speed and acceleration from the configuration once. Python reads `self.config.robot.default_speed` and `default_acceleration` from the shared configuration object at every move (robot_controller_improved.py:315-316), so a later `update_config` changes what the program commands but not what the model commands. The workspace box is copied at construction in the source too (robot_controller_improved.py:174).
- `ArmControl.RoArmControl.MoveToPositionStraight` uses the corrected waypoints. The straight move as written, which commands only `start` for a move shorter than one gap, is `ArmControl.RoArmControl.MoveToPositionStraightAsWritten`.
- `ArmControl.WaypointCount` requires a non-zero gap: at gap 0 Python raises ZeroDivisionError in `int(distance / gap)` (control.py:83), and the model does not represent that raise. The same holds for `ArmControl.Waypoints`, `ArmControl.WaypointCountIntended` and `ArmControl.WaypointsIntended`.
- `ArmControl.RoArmControl.MoveToPositionStraightAsWritten` and `ArmControl.RoArmControl.MoveToPositionStraight` require a non-zero gap for the same reason.
- `Sorting.Dedup` keeps the first occurrence of each point, in input order. Python's `list(set(...))` (WenxingCircle.py:93) yields an order fixed by hashing, which the model does not reproduce. The stable sort by `polar_r` that follows makes the two agree except in the order of rows with equal `polar_r`.
- `CirclePlanner.Frange` and `CirclePlanner.Range` require a positive step. With `step <= 0` and `start < stop` the Python generator (WenxingCircle.py:149-153) never ends, which a terminating model cannot express. `process_shape` is called with the positive step 0.5.
- `CoordinateTransform.Transformer.constructor` copies the nozzle height and the workspace box from the configuration. Python reads `config.camera.nozzle_height` at every conversion (coordinate_transformer.py:122), so a later change to the configuration is not seen by the model.
- `CoordinateTransform.Transformer.ValidateTransformation` does not make the error reports of the conversions it calls: an out-of-box point reported by `pixel_to_physical` during validation is not recorded.
- `Configuration.UnassignedKept` states the property for the logging level and the robot section only; the other attributes follow the same case analysis in `Assign`.

## Findings

| source | as written | input that shows it | evidently intended | confidence | as-written member | corrected member |
|---|---|---|---|---|---|---|
| IgemArm_Optimized_v2.0/robot_controller_improved.py:218, 241, 249-250 | `connect` probes with `_send_command`, which raises while `is_connected` is still False; the decorator swallows this and the probe reports failure | a fresh controller whose port opens and whose arm answers the first query | the controller is connected when the port opens and the arm answers the probe | high; not executed | `RobotControl.Controller.Connect` | `RobotControl.Controller.ConnectIntended` |
| control.py:83-86 | `max(1, int(d/gap) + 1)` waypoints over `linspace(start, end, n)`; with `0 < d < gap` this is one waypoint, the start | start (0,0,0), end (5,0,0), gap 10 | the move always ends by commanding the end point | high; not executed | `ArmControl.ShortMoveMissesEnd` | `ArmControl.WaypointsIntended` |

Further behaviour of the source that the model keeps as written:

- The default status position (the origin) lies outside the default box: `RobotControl.DefaultPositionOutsideBox`.
- A corner of the default box is out of the arm's reach: `RobotControl.BoxCornerUnreachable`.
- A move that passes the guards resets the state to IDLE in its `finally`, even after an emergency stop. Nothing else consults the stopped state.
- The calibration confidence is not clamped below 0: `CoordinateTransform.ConfidenceCanBeNegative`. This is kept as the code has it, although a clamp might be expected.
- The reported transformation matrix omits the Y flip that the conversion applies: `CoordinateTransform.MatrixOmitsFlip`.
- The calibration fit rotates counter-clockwise while the transformer rotates clockwise: `CoordinateTransform.RotateCcwIsNegatedRotate`.
- Stable detection on the same image returns the first attempt: `ImageProcessing.StableRepeatsFirst`.
- A successful detection can carry an empty contour list when every score is at most 0: `ImageProcessing.WoundResultLaws`.
