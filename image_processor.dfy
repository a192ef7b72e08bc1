/** The selection rules of wound detection (image_processor.py): which contours are
    kept, how each is described and scored, which one is reported, and how repeated
    detections on one image are combined. Everything OpenCV computes from pixels
    (preprocessing, the red mask, `findContours`, `contourArea`, `arcLength`,
    `approxPolyDP`, `boundingRect`) arrives as data in `RawContour` and `Image`. */
module ImageProcessing {
  import opened Wrappers
  import opened Numerics
  import opened Geometry
  import opened Sorting

  /** One external contour as OpenCV measures it: its area, its closed perimeter, the
      vertices of its polygonal approximation (pixel coordinates) and its bounding
      rectangle `(x, y, w, h)`. */
  datatype RawContour = RawContour(
    area: real, perimeter: real, vertices: seq<(int, int)>, rect: (int, int, int, int))

  /** An image reduced to its shape and to the contours `findContours` returns for it
      after preprocessing and masking. */
  datatype Image = Image(height: int, width: int, contours: seq<RawContour>)

  /** `ContourInfo`: points and centre are relative to the image centre. */
  datatype ContourInfo = ContourInfo(
    points: seq<Point2D>, center: Point2D, area: real, perimeter: real,
    rect: (int, int, int, int), confidence: real)

  /** The `error_message` of a `DetectionResult`, as a tag. */
  datatype Message = NoMessage | NoContoursFound

  datatype DetectionResult = DetectionResult(
    success: bool, contours: seq<ContourInfo>, processingTime: real,
    imageCenter: Point2D, message: Message)

  // ---- contour filtering ----

  /** The contours whose area exceeds the configured minimum, in their original order. */
  function Filtered(cs: seq<RawContour>, minArea: int): seq<RawContour> {
    if cs == [] then []
    else
      var rest := Filtered(cs[..|cs| - 1], minArea);
      if cs[|cs| - 1].area > minArea as real then rest + [cs[|cs| - 1]] else rest
  }

  /** A contour survives the filter exactly when it is one of the input contours and its
      area is strictly above the minimum. */
  lemma {:induction false} FilteredMembers(cs: seq<RawContour>, minArea: int, c: RawContour)
    ensures c in Filtered(cs, minArea) <==> c in cs && c.area > minArea as real
  {
    if cs != [] {
      var init := cs[..|cs| - 1];
      FilteredMembers(init, minArea, c);
      assert cs == init + [cs[|cs| - 1]];
    }
  }

  /** Filtering commutes with concatenation: the kept contours of `a + b` are the kept
      contours of `a` followed by those of `b`, so the original order is preserved. */
  lemma {:induction false} FilteredAppend(a: seq<RawContour>, b: seq<RawContour>, minArea: int)
    ensures Filtered(a + b, minArea) == Filtered(a, minArea) + Filtered(b, minArea)
  {
    if b == [] {
      assert a + b == a;
    } else {
      var init := b[..|b| - 1];
      FilteredAppend(a, init, minArea);
      assert (a + b)[..|a + b| - 1] == a + init;
      assert (a + b)[|a + b| - 1] == b[|b| - 1];
    }
  }

  /** `ContourDetector._filter_contours`. */
  method FilterContours(contours: seq<RawContour>, minArea: int) returns (valid: seq<RawContour>)
    ensures valid == Filtered(contours, minArea)
  {
    valid := [];
    for i := 0 to |contours|
      invariant valid == Filtered(contours[..i], minArea)
    {
      assert contours[..i + 1][..i] == contours[..i];
      if contours[i].area > minArea as real {
        valid := valid + [contours[i]];
      }
    }
    assert contours[..|contours|] == contours;
  }

  // ---- confidence of one contour ----

  /** Isoperimetric compactness `4·pi·area / perimeter²`, 0 for a non-positive perimeter. */
  function Compactness(area: real, perimeter: real): real {
    if perimeter > 0.0 then 4.0 * Pi * area / (perimeter * perimeter) else 0.0
  }

  /** `ContourDetector._calculate_confidence`: 0.3 of the compactness plus 0.7 of the
      area saturating at 1000 square pixels, clamped to [0, 1]. */
  function Confidence(area: real, perimeter: real): (r: real)
    ensures 0.0 <= r <= 1.0
    ensures perimeter <= 0.0 ==> r == Clamp(Min(area / 1000.0, 1.0) * 0.7, 0.0, 1.0)
  {
    var raw := Compactness(area, perimeter) * 0.3 + Min(area / 1000.0, 1.0) * 0.7;
    Max(0.0, Min(1.0, raw))
  }

  lemma DivSelf(x: real)
    requires x > 0.0
    ensures x / x == 1.0
  {
  }

  /** A perfectly round contour (perimeter² = 4·pi·area) of at least 1000 square pixels
      has full confidence. */
  lemma RoundContourFullConfidence(area: real, perimeter: real)
    requires perimeter > 0.0 && perimeter * perimeter == 4.0 * Pi * area
    requires area >= 1000.0
    ensures Confidence(area, perimeter) == 1.0
  {
    DivSelf(4.0 * Pi * area);
    assert Compactness(area, perimeter) == 1.0;
    DivAtLeast(area, 1000.0, 1.0);
  }

  // ---- points relative to the image centre, and their centroid ----

  /** `Point2D(w // 2, h // 2)`; Dafny's division by a positive divisor floors, like `//`. */
  function ImageCenter(width: int, height: int): Point2D {
    Point2D((width / 2) as real, (height / 2) as real)
  }

  function PixelPoint(v: (int, int)): Point2D {
    Point2D(v.0 as real, v.1 as real)
  }

  function PixelPoints(vs: seq<(int, int)>): (r: seq<Point2D>)
    ensures |r| == |vs|
  {
    seq(|vs|, i requires 0 <= i < |vs| => PixelPoint(vs[i]))
  }

  /** The approximated vertices made relative to `center`; adding the centre back gives
      each pixel position. */
  function RelativePoints(vs: seq<(int, int)>, center: Point2D): (r: seq<Point2D>)
    ensures |r| == |vs|
    ensures forall i :: 0 <= i < |r| ==> Add(r[i], center) == PixelPoint(vs[i])
  {
    seq(|vs|, i requires 0 <= i < |vs| => Sub(PixelPoint(vs[i]), center))
  }

  function Xs(ps: seq<Point2D>): (r: seq<real>)
    ensures |r| == |ps|
  {
    seq(|ps|, i requires 0 <= i < |ps| => ps[i].x)
  }

  function Ys(ps: seq<Point2D>): (r: seq<real>)
    ensures |r| == |ps|
  {
    seq(|ps|, i requires 0 <= i < |ps| => ps[i].y)
  }

  /** The arithmetic mean of the points, or the origin when there are none. */
  function Centroid(ps: seq<Point2D>): (c: Point2D)
    ensures ps == [] ==> c == Point2D(0.0, 0.0)
    ensures ps != [] ==> c.x * (|ps| as real) == Sum(Xs(ps)) && c.y * (|ps| as real) == Sum(Ys(ps))
  {
    if ps == [] then Point2D(0.0, 0.0)
    else Point2D(Sum(Xs(ps)) / (|ps| as real), Sum(Ys(ps)) / (|ps| as real))
  }

  function Shifted(s: seq<real>, c: real): (r: seq<real>)
    ensures |r| == |s|
  {
    seq(|s|, i requires 0 <= i < |s| => s[i] - c)
  }

  lemma {:induction false} SumShifted(s: seq<real>, c: real)
    ensures Sum(Shifted(s, c)) == Sum(s) - (|s| as real) * c
  {
    if s != [] {
      var init := s[..|s| - 1];
      SumShifted(init, c);
      assert Shifted(s, c)[..|s| - 1] == Shifted(init, c);
    }
  }

  lemma DivShift(t: real, a: real, n: real, c: real)
    requires n > 0.0 && t == a - n * c
    ensures t / n == a / n - c
  {
    var q := t / n;
    var p := a / n - c;
    assert q * n == t;
    assert (a / n) * n == a;
    assert p * n == a - n * c;
    if q > p {
      MulPos(q - p, n);
    } else if q < p {
      MulPos(p - q, n);
    }
  }

  /** The mean of shifted values is the shifted mean. */
  lemma MeanShifted(s: seq<real>, c: real)
    requires s != []
    ensures Sum(Shifted(s, c)) / (|s| as real) == Sum(s) / (|s| as real) - c
  {
    SumShifted(s, c);
    DivShift(Sum(Shifted(s, c)), Sum(s), |s| as real, c);
  }

  /** Translating every point translates the centroid by the same amount. */
  lemma CentroidTranslates(vs: seq<(int, int)>, center: Point2D)
    requires vs != []
    ensures Centroid(RelativePoints(vs, center)) == Sub(Centroid(PixelPoints(vs)), center)
  {
    var rel := RelativePoints(vs, center);
    var pix := PixelPoints(vs);
    assert Xs(rel) == Shifted(Xs(pix), center.x);
    assert Ys(rel) == Shifted(Ys(pix), center.y);
    MeanShifted(Xs(pix), center.x);
    MeanShifted(Ys(pix), center.y);
  }

  /** The part of `ContourDetector._contour_to_info` that does not call OpenCV. */
  function ContourToInfo(raw: RawContour, height: int, width: int): ContourInfo {
    var points := RelativePoints(raw.vertices, ImageCenter(width, height));
    ContourInfo(points, Centroid(points), raw.area, raw.perimeter, raw.rect,
                Confidence(raw.area, raw.perimeter))
  }

  /** The reported centre is the pixel centroid of the approximated vertices seen from
      the image centre (and the origin when there are no vertices); area, perimeter and
      rectangle are OpenCV's, and the confidence lies in [0, 1]. */
  lemma ContourInfoCenter(raw: RawContour, height: int, width: int)
    ensures var info := ContourToInfo(raw, height, width);
      && (raw.vertices != [] ==>
            info.center == Sub(Centroid(PixelPoints(raw.vertices)), ImageCenter(width, height)))
      && (raw.vertices == [] ==> info.center == Point2D(0.0, 0.0) && info.points == [])
      && info.area == raw.area && info.perimeter == raw.perimeter && info.rect == raw.rect
      && 0.0 <= info.confidence <= 1.0
  {
    if raw.vertices != [] {
      CentroidTranslates(raw.vertices, ImageCenter(width, height));
    }
  }

  // ---- detect_contours ----

  function Infos(cs: seq<RawContour>, height: int, width: int): (r: seq<ContourInfo>)
    ensures |r| == |cs|
  {
    seq(|cs|, i requires 0 <= i < |cs| => ContourToInfo(cs[i], height, width))
  }

  /** Sort key of `sort(key=area, reverse=True)`: ascending by the negated area. */
  function NegatedArea(c: ContourInfo): real {
    -c.area
  }

  /** What `detect_contours` returns for an image. */
  function DetectedContours(img: Image, minArea: int): seq<ContourInfo> {
    SortBy(Infos(Filtered(img.contours, minArea), img.height, img.width), NegatedArea)
  }

  /** `ContourDetector.detect_contours` after `findContours`. */
  method DetectContours(img: Image, minArea: int) returns (infos: seq<ContourInfo>)
    ensures infos == DetectedContours(img, minArea)
  {
    if img.contours == [] {
      return [];
    }
    var valid := FilterContours(img.contours, minArea);
    infos := [];
    for i := 0 to |valid|
      invariant infos == Infos(valid[..i], img.height, img.width)
    {
      infos := infos + [ContourToInfo(valid[i], img.height, img.width)];
    }
    assert valid[..|valid|] == valid;
    infos := SortBy(infos, NegatedArea);
  }

  /** The detected contours come largest first, are exactly the descriptions of the
      contours that pass the area filter (with multiplicity), and each is larger than
      the minimum. */
  lemma DetectedContoursLaws(img: Image, minArea: int)
    ensures var r := DetectedContours(img, minArea);
      && (forall i, j :: 0 <= i < j < |r| ==> r[i].area >= r[j].area)
      && multiset(r) == multiset(Infos(Filtered(img.contours, minArea), img.height, img.width))
      && (forall i :: 0 <= i < |r| ==> r[i].area > minArea as real)
  {
    var kept := Filtered(img.contours, minArea);
    var infos := Infos(kept, img.height, img.width);
    var r := DetectedContours(img, minArea);
    forall i, j | 0 <= i < j < |r|
      ensures r[i].area >= r[j].area
    {
      assert NegatedArea(r[i]) <= NegatedArea(r[j]);
    }
    forall i | 0 <= i < |r|
      ensures r[i].area > minArea as real
    {
      assert r[i] in multiset(infos);
      var k :| 0 <= k < |infos| && infos[k] == r[i];
      FilteredMembers(img.contours, minArea, kept[k]);
    }
  }

  // ---- choosing the best contour ----

  /** Weighted score: 0.6 of the area plus 0.4 of the confidence scaled to 1000. */
  function Score(c: ContourInfo): real {
    c.area * 0.6 + c.confidence * 1000.0 * 0.4
  }

  /** The index `_select_best_contour` settles on, as the loop computes it: a contour
      replaces the current best only when its score is strictly greater, starting from a
      best score of 0. */
  function BestIndex(cs: seq<ContourInfo>): (k: Option<nat>)
    ensures k.Some? ==> k.value < |cs|
  {
    if cs == [] then None
    else
      var prev := BestIndex(cs[..|cs| - 1]);
      var bar := if prev.None? then 0.0 else Score(cs[prev.value]);
      if Score(cs[|cs| - 1]) > bar then Some(|cs| - 1) else prev
  }

  function BestContour(cs: seq<ContourInfo>): Option<ContourInfo> {
    match BestIndex(cs)
    case None => None
    case Some(k) => Some(cs[k])
  }

  /** `k` is the first position of the strictly greatest positive score. */
  predicate FirstBest(cs: seq<ContourInfo>, k: nat) {
    && k < |cs|
    && Score(cs[k]) > 0.0
    && (forall j :: 0 <= j < k ==> Score(cs[j]) < Score(cs[k]))
    && (forall j :: k < j < |cs| ==> Score(cs[j]) <= Score(cs[k]))
  }

  /** Nothing is chosen exactly when no score is positive (in particular for no
      contours); otherwise the choice is the first contour of greatest score. */
  lemma {:induction false} BestIndexLaws(cs: seq<ContourInfo>)
    ensures BestIndex(cs).None? <==> forall j :: 0 <= j < |cs| ==> Score(cs[j]) <= 0.0
    ensures BestIndex(cs).Some? ==> FirstBest(cs, BestIndex(cs).value)
  {
    if cs != [] {
      var init := cs[..|cs| - 1];
      BestIndexLaws(init);
      assert forall j :: 0 <= j < |init| ==> init[j] == cs[j];
    }
  }

  /** `WoundDetector._select_best_contour`. */
  method SelectBestContour(contours: seq<ContourInfo>) returns (best: Option<ContourInfo>)
    ensures best == BestContour(contours)
  {
    if contours == [] {
      return None;
    }
    best := None;
    var bestScore := 0.0;
    ghost var at: Option<nat> := None;
    for i := 0 to |contours|
      invariant at == BestIndex(contours[..i])
      invariant at.Some? ==> at.value < i && best == Some(contours[at.value])
      invariant at.None? ==> best == None
      invariant bestScore == if at.None? then 0.0 else Score(contours[at.value])
    {
      assert contours[..i + 1][..i] == contours[..i];
      var score := contours[i].area * 0.6 + contours[i].confidence * 1000.0 * 0.4;
      if score > bestScore {
        bestScore := score;
        best := Some(contours[i]);
        at := Some(i);
      }
    }
    assert contours[..|contours|] == contours;
  }

  // ---- detect_wound ----

  /** What `detect_wound` reports for the detected contours of one image. */
  function WoundResult(contours: seq<ContourInfo>, center: Point2D, elapsed: real): DetectionResult {
    if contours == [] then DetectionResult(false, [], elapsed, center, NoContoursFound)
    else
      var chosen := match BestContour(contours) case None => [] case Some(b) => [b];
      DetectionResult(true, chosen, elapsed, center, NoMessage)
  }

  /** `WoundDetector.detect_wound`; `elapsed` is the processing time the clock yields. */
  method DetectWound(img: Image, minArea: int, elapsed: real) returns (r: DetectionResult)
    ensures r == WoundResult(DetectedContours(img, minArea), ImageCenter(img.width, img.height), elapsed)
  {
    var center := ImageCenter(img.width, img.height);
    var contours := DetectContours(img, minArea);
    if contours == [] {
      return DetectionResult(false, [], elapsed, center, NoContoursFound);
    }
    var best := SelectBestContour(contours);
    r := DetectionResult(true, if best.Some? then [best.value] else [], elapsed, center, NoMessage);
  }

  /** Detection fails, with no contours and the "no contours" message, exactly when no
      contour passes the area filter. A success carries at most one contour: none when
      no score is positive, otherwise the first of greatest score. */
  lemma WoundResultLaws(img: Image, minArea: int, elapsed: real)
    ensures var cs := DetectedContours(img, minArea);
      var r := WoundResult(cs, ImageCenter(img.width, img.height), elapsed);
      && (!r.success <==> Filtered(img.contours, minArea) == [])
      && (!r.success ==> r.contours == [] && r.message == NoContoursFound)
      && (r.success ==> r.message == NoMessage && |r.contours| <= 1)
      && (r.success && r.contours == [] <==> r.success && forall j :: 0 <= j < |cs| ==> Score(cs[j]) <= 0.0)
      && (r.success && r.contours != [] ==> exists k: nat :: FirstBest(cs, k) && r.contours[0] == cs[k])
      && r.imageCenter == ImageCenter(img.width, img.height) && r.processingTime == elapsed
  {
    var cs := DetectedContours(img, minArea);
    BestIndexLaws(cs);
    if BestIndex(cs).Some? {
      assert FirstBest(cs, BestIndex(cs).value);
    }
  }

  // ---- detect_wound_stable ----

  /** `num_checks < 1` is treated as 1. */
  function Checks(numChecks: int): (n: nat)
    ensures n >= 1 && (numChecks >= 1 ==> n == numChecks)
  {
    if numChecks < 1 then 1 else numChecks
  }

  function Successes(rs: seq<DetectionResult>): seq<DetectionResult> {
    if rs == [] then []
    else
      var rest := Successes(rs[..|rs| - 1]);
      if rs[|rs| - 1].success then rest + [rs[|rs| - 1]] else rest
  }

  lemma {:induction false} SuccessesMembers(rs: seq<DetectionResult>, r: DetectionResult)
    ensures r in Successes(rs) <==> r in rs && r.success
  {
    if rs != [] {
      var init := rs[..|rs| - 1];
      SuccessesMembers(init, r);
      assert rs == init + [rs[|rs| - 1]];
    }
  }

  /** The first contour's centre of each result that has a contour. */
  function Centers(rs: seq<DetectionResult>): (r: seq<Point2D>)
    ensures r == [] <==> forall i :: 0 <= i < |rs| ==> rs[i].contours == []
  {
    if rs == [] then []
    else
      var rest := Centers(rs[..|rs| - 1]);
      var last := rs[|rs| - 1];
      if last.contours != [] then rest + [last.contours[0].center] else rest
  }

  /** `min`'s key: distance of the first contour's centre to `avg`; no contour is
      infinitely far (`None`). */
  function Key(m: Oracle, r: DetectionResult, avg: Point2D): Option<real> {
    if r.contours == [] then None else Some(Distance2(m, r.contours[0].center, avg))
  }

  function Keys(m: Oracle, rs: seq<DetectionResult>, avg: Point2D): (ks: seq<Option<real>>)
    ensures |ks| == |rs|
  {
    seq(|rs|, i requires 0 <= i < |rs| => Key(m, rs[i], avg))
  }

  /** Python's `<` on the keys, with `None` for infinity. */
  predicate KeyLess(a: Option<real>, b: Option<real>) {
    a.Some? && (b.None? || a.value < b.value)
  }

  /** The position `min` returns: the first one of least key. */
  function FirstArgMin(keys: seq<Option<real>>): (k: nat)
    requires keys != []
    ensures k < |keys|
    ensures forall j :: 0 <= j < k ==> KeyLess(keys[k], keys[j])
    ensures forall j :: k < j < |keys| ==> !KeyLess(keys[j], keys[k])
  {
    if |keys| == 1 then 0
    else
      var p := FirstArgMin(keys[..|keys| - 1]);
      assert forall j :: 0 <= j < |keys| - 1 ==> keys[..|keys| - 1][j] == keys[j];
      if KeyLess(keys[|keys| - 1], keys[p]) then |keys| - 1 else p
  }

  /** The result `detect_wound_stable` returns from the results of its attempts. */
  function StableChoice(m: Oracle, rs: seq<DetectionResult>): (r: DetectionResult)
    requires rs != []
    ensures Successes(rs) == [] ==> r == rs[|rs| - 1]
    ensures Successes(rs) != [] ==> r in Successes(rs)
    ensures |Successes(rs)| == 1 ==> r == Successes(rs)[0]
    ensures var ok := Successes(rs);
      ok != [] && (forall i :: 0 <= i < |ok| ==> ok[i].contours == []) ==> r == ok[0]
  {
    var ok := Successes(rs);
    if ok == [] then rs[|rs| - 1]
    else if |ok| == 1 then ok[0]
    else
      var centers := Centers(ok);
      if centers == [] then ok[0]
      else ok[FirstArgMin(Keys(m, ok, Centroid(centers)))]
  }

  /** The combined result is one of the attempts, and it succeeds exactly when some
      attempt succeeded. */
  lemma StableChoiceSucceedsIff(m: Oracle, rs: seq<DetectionResult>)
    requires rs != []
    ensures StableChoice(m, rs) in rs
    ensures StableChoice(m, rs).success <==> exists i :: 0 <= i < |rs| && rs[i].success
  {
    var r := StableChoice(m, rs);
    SuccessesMembers(rs, r);
    if exists i :: 0 <= i < |rs| && rs[i].success {
      var i :| 0 <= i < |rs| && rs[i].success;
      SuccessesMembers(rs, rs[i]);
    }
  }

  /** With two or more successes, at least one of them with a contour, the combined
      result is the first success whose contour centre lies nearest the mean of their
      centres: it has a contour, no success is nearer, every earlier one is farther. */
  lemma StableClosestToMean(m: Oracle, rs: seq<DetectionResult>)
    requires rs != []
    requires |Successes(rs)| >= 2 && Centers(Successes(rs)) != []
    ensures var ok := Successes(rs); var r := StableChoice(m, rs);
      var avg := Centroid(Centers(ok));
      && r.contours != []
      && exists k :: 0 <= k < |ok| && r == ok[k]
           && (forall j :: 0 <= j < k ==> KeyLess(Key(m, r, avg), Key(m, ok[j], avg)))
           && (forall j :: k < j < |ok| ==> !KeyLess(Key(m, ok[j], avg), Key(m, r, avg)))
  {
    var ok := Successes(rs);
    var avg := Centroid(Centers(ok));
    var k := FirstArgMin(Keys(m, ok, avg));
    assert StableChoice(m, rs) == ok[k];
    CentersHaveContour(ok);
    NearestHasContour(m, ok, avg);
    NearestKeys(m, ok, avg);
    assert 0 <= k < |ok| && StableChoice(m, rs) == ok[k];
  }

  /** The nearest result, by key, has a contour when some result does. */
  lemma NearestHasContour(m: Oracle, ok: seq<DetectionResult>, avg: Point2D)
    requires exists w :: 0 <= w < |ok| && ok[w].contours != []
    ensures ok[FirstArgMin(Keys(m, ok, avg))].contours != []
  {
    var keys := Keys(m, ok, avg);
    var k := FirstArgMin(keys);
    var w :| 0 <= w < |ok| && ok[w].contours != [];
    if ok[k].contours == [] {
      assert keys[k].None? && keys[w].Some?;
      assert KeyLess(keys[w], keys[k]);
      assert false;
    }
  }

  /** The key order around the nearest result, stated on the results themselves. */
  lemma NearestKeys(m: Oracle, ok: seq<DetectionResult>, avg: Point2D)
    requires ok != []
    ensures var k := FirstArgMin(Keys(m, ok, avg));
      && (forall j :: 0 <= j < k ==> KeyLess(Key(m, ok[k], avg), Key(m, ok[j], avg)))
      && (forall j :: k < j < |ok| ==> !KeyLess(Key(m, ok[j], avg), Key(m, ok[k], avg)))
  {
    var keys := Keys(m, ok, avg);
    assert forall j :: 0 <= j < |ok| ==> keys[j] == Key(m, ok[j], avg);
  }

  /** Some result has a contour whenever there is a centre to average. */
  lemma {:induction false} CentersHaveContour(rs: seq<DetectionResult>)
    requires Centers(rs) != []
    ensures exists w :: 0 <= w < |rs| && rs[w].contours != []
  {
    var last := rs[|rs| - 1];
    if last.contours == [] {
      CentersHaveContour(rs[..|rs| - 1]);
      var w :| 0 <= w < |rs| - 1 && rs[..|rs| - 1][w].contours != [];
      assert rs[w] == rs[..|rs| - 1][w];
    }
  }

  /** The results of `n` attempts on one image, the `i`-th taking `elapsed(i)`. */
  function Attempts(img: Image, minArea: int, elapsed: nat -> real, n: nat): (rs: seq<DetectionResult>)
    ensures |rs| == n
  {
    seq(n, i requires 0 <= i < n =>
      WoundResult(DetectedContours(img, minArea), ImageCenter(img.width, img.height), elapsed(i)))
  }

  /** `WoundDetector.detect_wound_stable`; the pause between attempts is not modelled. */
  method DetectWoundStable(m: Oracle, img: Image, minArea: int, elapsed: nat -> real, numChecks: int)
    returns (r: DetectionResult)
    ensures r == StableChoice(m, Attempts(img, minArea, elapsed, Checks(numChecks)))
  {
    var n := if numChecks < 1 then 1 else numChecks;
    var results: seq<DetectionResult> := [];
    for i := 0 to n
      invariant results == Attempts(img, minArea, elapsed, i)
    {
      var attempt := DetectWound(img, minArea, elapsed(i));
      AttemptsStep(img, minArea, elapsed, i);
      results := results + [attempt];
    }
    assert n == Checks(numChecks);
    r := StableChoice(m, results);
  }

  /** One more attempt appends its result. */
  lemma AttemptsStep(img: Image, minArea: int, elapsed: nat -> real, i: nat)
    ensures Attempts(img, minArea, elapsed, i + 1)
      == Attempts(img, minArea, elapsed, i)
         + [WoundResult(DetectedContours(img, minArea), ImageCenter(img.width, img.height), elapsed(i))]
  {
    var longer := Attempts(img, minArea, elapsed, i + 1);
    var shorter := Attempts(img, minArea, elapsed, i);
    assert forall j :: 0 <= j < i ==> longer[j] == shorter[j];
  }

  /** Repeating the detection on the same image cannot change its outcome: the combined
      result is the first attempt when detection succeeds and the last one when it
      fails; the attempts differ only in their processing time. */
  lemma StableRepeatsFirst(m: Oracle, img: Image, minArea: int, elapsed: nat -> real, n: nat)
    requires n >= 1
    ensures var rs := Attempts(img, minArea, elapsed, n);
      StableChoice(m, rs) == (if rs[0].success then rs[0] else rs[n - 1])
  {
    var rs := Attempts(img, minArea, elapsed, n);
    forall i | 0 <= i < n
      ensures rs[i].success == rs[0].success && rs[i].contours == rs[0].contours
    {
      var cs := DetectedContours(img, minArea);
      var center := ImageCenter(img.width, img.height);
      assert rs[i] == WoundResult(cs, center, elapsed(i));
      assert rs[0] == WoundResult(cs, center, elapsed(0));
    }
    UniformChoice(m, rs);
  }

  /** Results that agree in success and contours combine to the first one when they
      succeed and to the last one when they fail. */
  lemma UniformChoice(m: Oracle, rs: seq<DetectionResult>)
    requires rs != []
    requires forall i :: 0 <= i < |rs| ==> rs[i].success == rs[0].success && rs[i].contours == rs[0].contours
    ensures StableChoice(m, rs) == (if rs[0].success then rs[0] else rs[|rs| - 1])
  {
    if rs[0].success {
      AllSucceed(rs);
      var ok := Successes(rs);
      if |ok| >= 2 && Centers(ok) != [] {
        var avg := Centroid(Centers(ok));
        var keys := Keys(m, ok, avg);
        assert keys[FirstArgMin(keys)] == keys[0];
      }
    } else {
      NoneSucceed(rs);
    }
  }

  lemma {:induction false} AllSucceed(rs: seq<DetectionResult>)
    requires forall i :: 0 <= i < |rs| ==> rs[i].success
    ensures Successes(rs) == rs
  {
    if rs != [] {
      AllSucceed(rs[..|rs| - 1]);
    }
  }

  lemma {:induction false} NoneSucceed(rs: seq<DetectionResult>)
    requires forall i :: 0 <= i < |rs| ==> !rs[i].success
    ensures Successes(rs) == []
  {
    if rs != [] {
      NoneSucceed(rs[..|rs| - 1]);
    }
  }
}
