/** RotationUtil: rotating a viewport point about the canvas centre, with a
    process-wide one-entry cache of the last angle's sine and cosine. */
module Rotation {
  import opened Graphics

  /** `Math.sin` and `Math.cos`. Their values are not part of this model; only
      their values at angle 0 are relied on. */
  datatype Trig = Trig(sin: real -> real, cos: real -> real) {
    predicate AnchoredAtZero() {
      sin(0.0) == 0.0 && cos(0.0) == 1.0
    }

    /** The identities of sine and cosine that make rotating by -a undo rotating by a. */
    predicate Reversible(a: real) {
      sin(-a) == -sin(a) && cos(-a) == cos(a) && sin(a) * sin(a) + cos(a) * cos(a) == 1.0
    }
  }

  /** The rotation of (x, y) about (halfWidth, halfHeight) by the matrix [c -s; s c]. */
  function RotateAbout(x: real, y: real, s: real, c: real, halfWidth: real, halfHeight: real): Point {
    var px := x - halfWidth;
    var py := y - halfHeight;
    Point(px * c - py * s + halfWidth, px * s + py * c + halfHeight)
  }

  /** What `getRotatedPoint` returns: (x, y) itself for angle 0, and otherwise the
      rotation by the sine and cosine of the requested angle. */
  function RotatedPoint(trig: Trig, x: real, y: real, degreeRad: real, halfWidth: real, halfHeight: real): Point {
    if degreeRad == 0.0 then Point(x, y)
    else RotateAbout(x, y, trig.sin(degreeRad), trig.cos(degreeRad), halfWidth, halfHeight)
  }

  /** The angle-0 fast path returns what the rotation formula would. */
  lemma FastPathIsRotation(trig: Trig, x: real, y: real, degreeRad: real, halfWidth: real, halfHeight: real)
    requires trig.AnchoredAtZero()
    ensures RotatedPoint(trig, x, y, degreeRad, halfWidth, halfHeight)
         == RotateAbout(x, y, trig.sin(degreeRad), trig.cos(degreeRad), halfWidth, halfHeight)
  {
  }

  /** The pivot does not move, whatever the angle. */
  lemma PivotIsFixed(trig: Trig, degreeRad: real, halfWidth: real, halfHeight: real)
    ensures RotatedPoint(trig, halfWidth, halfHeight, degreeRad, halfWidth, halfHeight) == Point(halfWidth, halfHeight)
  {
  }

  /** Rotating back by the opposite matrix restores the point. */
  lemma RotateAboutInverse(x: real, y: real, s: real, c: real, halfWidth: real, halfHeight: real)
    requires s * s + c * c == 1.0
    ensures var p := RotateAbout(x, y, s, c, halfWidth, halfHeight);
            RotateAbout(p.x, p.y, -s, c, halfWidth, halfHeight) == Point(x, y)
  {
    var px, py := x - halfWidth, y - halfHeight;
    var qx, qy := px * c - py * s, px * s + py * c;
    calc {
      qx * c - qy * (-s);
      px * c * c - py * s * c + px * s * s + py * c * s;
      px * (s * s + c * c);
      px;
    }
    calc {
      qx * (-s) + qy * c;
      -(px * c * s) + py * s * s + px * s * c + py * c * c;
      py * (s * s + c * c);
      py;
    }
  }

  /** Rotation by -a undoes rotation by a. */
  lemma RotatedPointInverse(trig: Trig, x: real, y: real, degreeRad: real, halfWidth: real, halfHeight: real)
    requires trig.Reversible(degreeRad)
    ensures var p := RotatedPoint(trig, x, y, degreeRad, halfWidth, halfHeight);
            RotatedPoint(trig, p.x, p.y, -degreeRad, halfWidth, halfHeight) == Point(x, y)
  {
    if degreeRad != 0.0 {
      RotateAboutInverse(x, y, trig.sin(degreeRad), trig.cos(degreeRad), halfWidth, halfHeight);
    }
  }

  /** Everything that decides where a geographic point lands on the canvas during
      one draw call. */
  datatype Frame = Frame(ext: Externals, trig: Trig, mapSize: int, topLeft: Point, degreeRad: real, canvas: Canvas) {
    /** Projected, made relative to the canvas, then rotated about the canvas centre. */
    function PointOf(ll: LatLong): Point {
      var p := Project(ext, ll, mapSize, topLeft);
      RotatedPoint(trig, p.x, p.y, degreeRad, canvas.HalfWidth(), canvas.HalfHeight())
    }
  }

  /** The static cache of RotationUtil.java, as one object. */
  class RotationUtil {
    const trig: Trig
    var prevDegreeRad: real
    var prevSin: real
    var prevCos: real

    /** The cache holds the sine and cosine of the cached angle. */
    predicate Coherent()
      reads this
    {
      prevSin == trig.sin(prevDegreeRad) && prevCos == trig.cos(prevDegreeRad)
    }

    /** The static initialisers: angle 0, sine 0, cosine 1. */
    constructor (trig: Trig)
      requires trig.AnchoredAtZero()
      ensures this.trig == trig
      ensures prevDegreeRad == 0.0 && prevSin == 0.0 && prevCos == 1.0
      ensures Coherent()
    {
      this.trig := trig;
      prevDegreeRad := 0.0;
      prevSin := 0.0;
      prevCos := 1.0;
    }

    /** `getRotatedPoint(x, y, degreeRad, halfWidth, halfHeight)`. */
    method GetRotatedPoint(x: real, y: real, degreeRad: real, halfWidth: real, halfHeight: real) returns (p: Point)
      requires Coherent()
      modifies this
      ensures Coherent()
      ensures p == RotatedPoint(trig, x, y, degreeRad, halfWidth, halfHeight)
      ensures degreeRad == 0.0 || degreeRad == old(prevDegreeRad) ==> unchanged(this)
      ensures degreeRad != 0.0 ==> prevDegreeRad == degreeRad
    {
      if degreeRad == 0.0 {
        p := Point(x, y);
      } else {
        if prevDegreeRad != degreeRad {
          prevDegreeRad := degreeRad;
          prevSin := trig.sin(degreeRad);
          prevCos := trig.cos(degreeRad);
        }
        p := RotateAbout(x, y, prevSin, prevCos, halfWidth, halfHeight);
      }
    }

    /** `getRotatedPoint(point, degreeRad, halfWidth, halfHeight)`: the same point for
        angle 0, otherwise the coordinate overload. */
    method GetRotatedPointOf(point: Point, degreeRad: real, halfWidth: real, halfHeight: real) returns (p: Point)
      requires Coherent()
      modifies this
      ensures Coherent()
      ensures degreeRad == 0.0 ==> p == point && unchanged(this)
      ensures p == RotatedPoint(trig, point.x, point.y, degreeRad, halfWidth, halfHeight)
      ensures degreeRad == old(prevDegreeRad) ==> unchanged(this)
      ensures degreeRad != 0.0 ==> prevDegreeRad == degreeRad
    {
      if degreeRad == 0.0 {
        p := point;
      } else {
        p := GetRotatedPoint(point.x, point.y, degreeRad, halfWidth, halfHeight);
      }
    }
  }

  /** Where a geographic point lands on the canvas: projected relative to the top-left
      corner, then rotated about the canvas centre through the cache. */
  method ScreenPoint(latLong: LatLong, ext: Externals, mapSize: int, topLeftPoint: Point, degreeRad: real,
                     canvas: Canvas, rot: RotationUtil) returns (point: Point)
    requires rot.Coherent()
    modifies rot
    ensures rot.Coherent()
    ensures point == Frame(ext, rot.trig, mapSize, topLeftPoint, degreeRad, canvas).PointOf(latLong)
  {
    var halfWidth := 0.5 * canvas.width as real;
    var halfHeight := 0.5 * canvas.height as real;
    var proj := Project(ext, latLong, mapSize, topLeftPoint);
    point := rot.GetRotatedPoint(proj.x, proj.y, degreeRad, halfWidth, halfHeight);
  }
}
