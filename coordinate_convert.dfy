/** The stand-alone conversion script CoordinateConvert__XY.py: parse "x,y x,y ..."
    text and map each point through flip-Y, clockwise rotation, scaling and an offset. */
module LegacyConvert {
  import opened Wrappers
  import opened Numerics
  import opened Geometry
  import CoordinateTransform

  // ---- parsing the command-line string ----

  /** The characters Python's `str.split()` treats as whitespace (those for which
      `str.isspace()` holds): tab to carriage return, the four information separators
      U+001C-U+001F, space, U+0085, U+00A0, U+1680, U+2000-U+200A, U+2028, U+2029,
      U+202F, U+205F and U+3000. */
  predicate IsSpace(c: char) {
    || '\t' <= c <= '\r'
    || '\U{1C}' <= c <= ' '
    || c == '\U{85}' || c == '\U{A0}' || c == '\U{1680}'
    || '\U{2000}' <= c <= '\U{200A}'
    || c == '\U{2028}' || c == '\U{2029}' || c == '\U{202F}' || c == '\U{205F}' || c == '\U{3000}'
  }

  /** The pieces joined back with the separator between them. */
  function Join(pieces: seq<string>, sep: char): string
    requires |pieces| >= 1
  {
    if |pieces| == 1 then pieces[0] else pieces[0] + [sep] + Join(pieces[1..], sep)
  }

  /** `s.split(sep)`: always at least one piece, empty pieces kept, none containing the
      separator, and joining them back gives `s`. */
  function SplitOn(s: string, sep: char): (r: seq<string>)
    ensures |r| >= 1
    ensures forall i :: 0 <= i < |r| ==> sep !in r[i]
    ensures Join(r, sep) == s
  {
    if s == [] then [[]]
    else
      var rest := SplitOn(s[1..], sep);
      if s[0] == sep then
        assert Join([[]] + rest, sep) == [sep] + Join(rest, sep) by {
          assert ([[]] + rest)[1..] == rest;
        }
        [[]] + rest
      else
        var r := [[s[0]] + rest[0]] + rest[1..];
        assert Join(r, sep) == [s[0]] + Join(rest, sep) by {
          if |rest| > 1 {
            assert r[1..] == rest[1..];
          }
        }
        r
  }

  /** All pieces glued together. */
  function Concat(pieces: seq<string>): string {
    if pieces == [] then [] else pieces[0] + Concat(pieces[1..])
  }

  /** `s` with its whitespace removed. */
  function WithoutSpaces(s: string): string {
    if s == [] then [] else (if IsSpace(s[0]) then [] else [s[0]]) + WithoutSpaces(s[1..])
  }

  /** The number of maximal runs of non-whitespace characters in `s`, where
      `afterSpace` says whether the character before `s` was whitespace (or absent). */
  function RunCount(s: string, afterSpace: bool): nat {
    if s == [] then 0
    else (if afterSpace && !IsSpace(s[0]) then 1 else 0) + RunCount(s[1..], IsSpace(s[0]))
  }

  /** A non-empty string free of whitespace. */
  predicate IsToken(t: string) {
    |t| > 0 && forall j :: 0 <= j < |t| ==> !IsSpace(t[j])
  }

  /** `s.split()`: the maximal runs of non-whitespace characters, in order. Every
      token is non-empty and free of whitespace, the tokens together are `s` without
      its whitespace, and there is one token per run. */
  function SplitWhitespace(s: string): (r: seq<string>)
    ensures forall i :: 0 <= i < |r| ==> IsToken(r[i])
    ensures Concat(r) == WithoutSpaces(s)
    ensures |r| == RunCount(s, true)
    ensures |s| > 0 && !IsSpace(s[0]) ==> |r| > 0 && |r[0]| > 0 && r[0][0] == s[0]
  {
    if s == [] then []
    else if IsSpace(s[0]) then SplitWhitespace(s[1..])
    else
      var rest := SplitWhitespace(s[1..]);
      if |s| > 1 && !IsSpace(s[1]) then
        GlueFirst(s[0], rest);
        [[s[0]] + rest[0]] + rest[1..]
      else
        assert Concat([[s[0]]] + rest) == [s[0]] + Concat(rest) by {
          assert ([[s[0]]] + rest)[1..] == rest;
        }
        [[s[0]]] + rest
  }

  /** An information separator splits tokens as a space does. */
  lemma SeparatorSplits()
    ensures SplitWhitespace("1\U{1C}2") == ["1", "2"]
  {
    assert "2"[1..] == [];
    assert SplitWhitespace("2") == ["2"];
    assert "\U{1C}2"[1..] == "2" && IsSpace('\U{1C}');
    assert SplitWhitespace("\U{1C}2") == ["2"];
    assert "1\U{1C}2"[1..] == "\U{1C}2";
  }

  /** Gluing a non-whitespace character onto the first token. */
  lemma GlueFirst(c: char, rest: seq<string>)
    requires !IsSpace(c) && |rest| > 0
    requires forall i :: 0 <= i < |rest| ==> IsToken(rest[i])
    ensures forall i :: 0 <= i < |rest| ==> IsToken(([[c] + rest[0]] + rest[1..])[i])
    ensures Concat([[c] + rest[0]] + rest[1..]) == [c] + Concat(rest)
    ensures |[[c] + rest[0]] + rest[1..]| == |rest|
  {
    var r := [[c] + rest[0]] + rest[1..];
    assert r[1..] == rest[1..];
    forall i | 0 <= i < |rest|
      ensures IsToken(r[i])
    {
      if i == 0 {
        assert IsToken(rest[0]);
      } else {
        assert r[i] == rest[i];
      }
    }
  }

  /** Why loading stopped: a field that `float()` rejects ends the script. */
  datatype LoadError = FormatError

  /** Field `j` of token `i` is one `float()` rejects. */
  predicate BadField(tokens: seq<string>, parseFloat: string -> Option<real>, i: int, j: int) {
    && 0 <= i < |tokens|
    && 0 <= j < |SplitOn(tokens[i], ',')|
    && parseFloat(SplitOn(tokens[i], ',')[j]).None?
  }

  /** The non-CSV branch of `load_coordinates`: whitespace-separated tokens, each split
      on ',' and every field converted with `parseFloat` (Python's `float`). Any field
      it rejects ends the script. */
  function LoadCoordinates(text: string, parseFloat: string -> Option<real>): (r: Result<seq<seq<real>>, LoadError>)
    ensures r.Ok? ==> |r.value| == |SplitWhitespace(text)|
    ensures r.Ok? ==> forall i :: 0 <= i < |r.value| ==>
      && |r.value[i]| == |SplitOn(SplitWhitespace(text)[i], ',')|
      && forall j :: 0 <= j < |r.value[i]| ==>
           parseFloat(SplitOn(SplitWhitespace(text)[i], ',')[j]) == Some(r.value[i][j])
  {
    ParseTokens(SplitWhitespace(text), parseFloat)
  }

  /** Loading fails exactly when some field of some token is not a number. */
  lemma LoadFailsIff(text: string, parseFloat: string -> Option<real>)
    ensures LoadCoordinates(text, parseFloat).Err? <==>
      exists i, j :: BadField(SplitWhitespace(text), parseFloat, i, j)
  {
    var tokens := SplitWhitespace(text);
    var r := ParseTokens(tokens, parseFloat);
    assert LoadCoordinates(text, parseFloat) == r;
    if r.Err? {
      var i, j :| BadField(tokens, parseFloat, i, j);
      assert BadField(SplitWhitespace(text), parseFloat, i, j);
    } else {
      forall i, j
        ensures !BadField(SplitWhitespace(text), parseFloat, i, j)
      {
        assert !BadField(tokens, parseFloat, i, j);
      }
    }
  }

  function ParseFields(fields: seq<string>, parseFloat: string -> Option<real>): (r: Option<seq<real>>)
    ensures r.Some? ==> |r.value| == |fields| && forall j :: 0 <= j < |fields| ==> parseFloat(fields[j]) == Some(r.value[j])
    ensures r.None? <==> exists j :: 0 <= j < |fields| && parseFloat(fields[j]).None?
  {
    if fields == [] then Some([])
    else match (parseFloat(fields[0]), ParseFields(fields[1..], parseFloat))
      case (Some(v), Some(vs)) => Some([v] + vs)
      case (None, _) => None
      case (_, None) =>
        var j :| 0 <= j < |fields[1..]| && parseFloat(fields[1..][j]).None?;
        assert parseFloat(fields[j + 1]).None?;
        None
  }

  function ParseTokens(tokens: seq<string>, parseFloat: string -> Option<real>): (r: Result<seq<seq<real>>, LoadError>)
    ensures r.Ok? ==> |r.value| == |tokens|
    ensures r.Ok? ==> forall i :: 0 <= i < |tokens| ==>
      && |r.value[i]| == |SplitOn(tokens[i], ',')|
      && forall j :: 0 <= j < |r.value[i]| ==> parseFloat(SplitOn(tokens[i], ',')[j]) == Some(r.value[i][j])
    ensures r.Err? <==> exists i, j :: BadField(tokens, parseFloat, i, j)
  {
    if tokens == [] then Ok([])
    else
      assert forall i :: 1 <= i < |tokens| ==> tokens[i] == tokens[1..][i - 1];
      match (ParseFields(SplitOn(tokens[0], ','), parseFloat), ParseTokens(tokens[1..], parseFloat))
      case (Some(row), Ok(rows)) =>
        forall i, j | 0 < i < |tokens|
          ensures BadField(tokens, parseFloat, i, j) == BadField(tokens[1..], parseFloat, i - 1, j)
        {
        }
        Ok([row] + rows)
      case (None, _) =>
        var j :| 0 <= j < |SplitOn(tokens[0], ',')| && parseFloat(SplitOn(tokens[0], ',')[j]).None?;
        assert BadField(tokens, parseFloat, 0, j);
        Err(FormatError)
      case (_, Err(e)) =>
        var i, j :| BadField(tokens[1..], parseFloat, i, j);
        assert BadField(tokens, parseFloat, i + 1, j);
        Err(e)
  }

  // ---- the transform ----

  /** One point through `transform_coordinates`: Y negated, rotated clockwise by
      `theta_deg` degrees, scaled, then offset. */
  function LegacyMap(m: Oracle, p: Point2D, xOffset: real, yOffset: real, thetaDeg: real, scale: real): Point2D {
    Add(Scale(CoordinateTransform.RotatePoint(m, Point2D(p.x, 0.0 - p.y), Radians(thetaDeg)), scale),
        Point2D(xOffset, yOffset))
  }

  /** `transform_coordinates`: one output per input point, in the same order. */
  method TransformCoordinates(m: Oracle, coords: seq<Point2D>, xOffset: real, yOffset: real,
                              thetaDeg: real, scale: real) returns (transformed: seq<Point2D>)
    ensures |transformed| == |coords|
    ensures forall i :: 0 <= i < |coords| ==>
      transformed[i] == LegacyMap(m, coords[i], xOffset, yOffset, thetaDeg, scale)
  {
    var theta := Radians(thetaDeg);
    var cosTheta, sinTheta := m.cos(theta), m.sin(theta);
    transformed := [];
    for i := 0 to |coords|
      invariant |transformed| == i
      invariant forall j :: 0 <= j < i ==>
        transformed[j] == LegacyMap(m, coords[j], xOffset, yOffset, thetaDeg, scale)
    {
      var x, y := coords[i].x, coords[i].y;
      y := 0.0 - y;
      var rx := x * cosTheta + y * sinTheta;
      var ry := -x * sinTheta + y * cosTheta;
      var sx, sy := rx * scale, ry * scale;
      transformed := transformed + [Point2D(sx + xOffset, sy + yOffset)];
    }
  }

  /** The script is the transformer's pixel-to-physical chain with the image centre at
      the origin, the angle converted from degrees, and the offset as translation. */
  lemma LegacyAgreesWithTransformer(m: Oracle, p: Point2D, xOffset: real, yOffset: real,
                                    thetaDeg: real, scale: real, confidence: real)
    ensures LegacyMap(m, p, xOffset, yOffset, thetaDeg, scale)
      == CoordinateTransform.ToPhysical(m,
           CoordinateTransform.CalibrationData(scale, Radians(thetaDeg), Point2D(xOffset, yOffset), confidence),
           Point2D(0.0, 0.0), p)
  {
    assert Sub(p, Point2D(0.0, 0.0)) == p;
    assert CoordinateTransform.FlipY(p) == Point2D(p.x, 0.0 - p.y);
  }

  /** Without rotation a point maps to `(x * scale + x_offset, -y * scale + y_offset)`. */
  lemma NoRotation(m: Oracle, p: Point2D, xOffset: real, yOffset: real, scale: real)
    requires m.cos(0.0) == 1.0 && m.sin(0.0) == 0.0
    ensures LegacyMap(m, p, xOffset, yOffset, 0.0, scale)
      == Point2D(p.x * scale + xOffset, -p.y * scale + yOffset)
  {
    assert Radians(0.0) == 0.0;
    var r := CoordinateTransform.RotatePoint(m, Point2D(p.x, 0.0 - p.y), 0.0);
    assert r == Point2D(p.x, -p.y);
    assert Scale(r, scale) == Point2D(p.x * scale, (-p.y) * scale);
    assert LegacyMap(m, p, xOffset, yOffset, 0.0, scale) == Add(Scale(r, scale), Point2D(xOffset, yOffset));
  }

  lemma DifferenceArith(a: real, b: real, c: real, d: real, k: real, l: real)
    ensures (a * k + b * l) - (c * k + d * l) == (a - c) * k + (b - d) * l
  {
  }

  /** The map is a similarity: squared distances are multiplied by `scale^2`. */
  lemma SquaredDistanceScales(m: Oracle, p: Point2D, q: Point2D, xOffset: real,
                              yOffset: real, thetaDeg: real, scale: real)
    requires UnitCircleAt(m, Radians(thetaDeg))
    ensures SquaredNorm2(Sub(LegacyMap(m, p, xOffset, yOffset, thetaDeg, scale),
                             LegacyMap(m, q, xOffset, yOffset, thetaDeg, scale)))
      == (scale * scale) * SquaredNorm2(Sub(p, q))
  {
    var a := Radians(thetaDeg);
    var fp, fq := Point2D(p.x, 0.0 - p.y), Point2D(q.x, 0.0 - q.y);
    var rp := CoordinateTransform.RotatePoint(m, fp, a);
    var rq := CoordinateTransform.RotatePoint(m, fq, a);
    var d := Sub(LegacyMap(m, p, xOffset, yOffset, thetaDeg, scale),
                 LegacyMap(m, q, xOffset, yOffset, thetaDeg, scale));
    ScaledDifference(rp, rq, scale, Point2D(xOffset, yOffset));
    assert d == Scale(Sub(rp, rq), scale);
    RotateDifference(m, fp, fq, a);
    CoordinateTransform.RotationPreservesNorm(m, Sub(fp, fq), a);
    FlipKeepsNorm(p, q);
    assert SquaredNorm2(Sub(rp, rq)) == SquaredNorm2(Sub(p, q));
    ScaleSquaredNorm(Sub(rp, rq), scale);
  }

  /** Flipping the y axis keeps squared distances. */
  lemma FlipKeepsNorm(p: Point2D, q: Point2D)
    ensures SquaredNorm2(Sub(Point2D(p.x, 0.0 - p.y), Point2D(q.x, 0.0 - q.y))) == SquaredNorm2(Sub(p, q))
  {
  }

  /** Rotation commutes with taking differences. */
  lemma RotateDifference(m: Oracle, u: Point2D, v: Point2D, a: real)
    ensures Sub(CoordinateTransform.RotatePoint(m, u, a), CoordinateTransform.RotatePoint(m, v, a))
      == CoordinateTransform.RotatePoint(m, Sub(u, v), a)
  {
    DifferenceArith(u.x, u.y, v.x, v.y, m.cos(a), m.sin(a));
    DifferenceArith(-u.x, u.y, -v.x, v.y, m.sin(a), m.cos(a));
  }

  /** A common offset cancels, and scaling commutes with taking differences. */
  lemma ScaledDifference(u: Point2D, v: Point2D, k: real, offset: Point2D)
    ensures Sub(Add(Scale(u, k), offset), Add(Scale(v, k), offset)) == Scale(Sub(u, v), k)
  {
    DifferenceArith(u.x, 0.0, v.x, 0.0, k, 0.0);
    DifferenceArith(u.y, 0.0, v.y, 0.0, k, 0.0);
  }

  lemma ScaleSquaredNorm(v: Point2D, k: real)
    ensures SquaredNorm2(Scale(v, k)) == (k * k) * SquaredNorm2(v)
  {
  }
}
