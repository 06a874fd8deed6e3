/** The level-of-detail rules of Polyline.draw: the vertex stride chosen from the
    polyline's type and the zoom level, the vertices the iterator walk keeps, and
    the stroke width scaled down with the zoom level. */
module Decimation {
  import opened Numbers

  datatype PolylineType = ROUTE | TRACK | TESTING

  /** The number of vertices one round of the draw loop advances (`iInterval`). */
  function Stride(polylineType: PolylineType, zoomLevel: int): (s: nat)
    ensures 1 <= s <= 20
    ensures polylineType == TESTING || zoomLevel > 16 ==> s == 1
    ensures polylineType == ROUTE ==> s <= 8 && (zoomLevel > 12 <==> s == 1)
  {
    match polylineType
    case ROUTE =>
      if zoomLevel <= 8 then 8 else if zoomLevel <= 10 then 4 else if zoomLevel <= 12 then 2 else 1
    case TRACK =>
      if zoomLevel <= 8 then 20 else if zoomLevel <= 10 then 10 else if zoomLevel <= 12 then 6
      else if zoomLevel <= 14 then 3 else if zoomLevel <= 16 then 2 else 1
    case TESTING => 1
  }

  /** Zooming in never makes the stride larger. */
  lemma StrideNonIncreasing(polylineType: PolylineType, zoomLevel: int, deeper: int)
    requires zoomLevel <= deeper
    ensures Stride(polylineType, deeper) <= Stride(polylineType, zoomLevel)
  {
  }

  /** The number of times the stroke width is divided by 1.5:
      `min(20 - zoomLevel, 6)` rounds of a loop that runs no round when that is negative. */
  function ScaleDownCount(zoomLevel: int): (k: nat)
    ensures k <= 6
    ensures k == 0 <==> zoomLevel >= 20
    ensures zoomLevel <= 14 ==> k == 6
    ensures 14 <= zoomLevel <= 20 ==> k == 20 - zoomLevel
  {
    var loops := Min(20 - zoomLevel, 6);
    if loops < 0 then 0 else loops
  }

  function Power(b: real, k: nat): (p: real)
    ensures b >= 1.0 ==> p >= 1.0
  {
    if k == 0 then 1.0 else b * Power(b, k - 1)
  }

  /** The width the stroke is drawn with at `zoomLevel`. */
  function ScaledStrokeWidth(initialStrokeWidth: real, zoomLevel: int): real {
    initialStrokeWidth / Power(1.5, ScaleDownCount(zoomLevel))
  }

  /** The scale-down loop of Polyline.draw (`strokeWidth /= 1.5f` once per round). */
  method ScaleDownStroke(initialStrokeWidth: real, zoomLevel: int) returns (strokeWidth: real)
    ensures strokeWidth * Power(1.5, ScaleDownCount(zoomLevel)) == initialStrokeWidth
    ensures strokeWidth == ScaledStrokeWidth(initialStrokeWidth, zoomLevel)
  {
    strokeWidth := initialStrokeWidth;
    var scaleDownLoops := Min(20 - zoomLevel, 6);
    var i := 0;
    while i < scaleDownLoops
      invariant 0 <= i && (scaleDownLoops >= 0 ==> i <= scaleDownLoops)
      invariant scaleDownLoops < 0 ==> i == 0
      invariant strokeWidth * Power(1.5, i) == initialStrokeWidth
    {
      var before := strokeWidth;
      strokeWidth := strokeWidth / 1.5;
      assert strokeWidth * 1.5 == before;
      calc {
        strokeWidth * Power(1.5, i + 1);
        strokeWidth * (1.5 * Power(1.5, i));
        (strokeWidth * 1.5) * Power(1.5, i);
        before * Power(1.5, i);
      }
      i := i + 1;
    }
    assert i == ScaleDownCount(zoomLevel);
  }

  /** The vertex indices the draw loop emits after the first one, when the list
      iterator has consumed `pos` of the `n` vertices: a round advances the iterator
      by up to `stride` vertices, stopping at the end of the list, and emits the last
      vertex it consumed. */
  function Walk(pos: nat, n: nat, stride: nat): seq<nat>
    requires stride >= 1
    decreases n - pos
  {
    if pos >= n then []
    else
      var next := if pos + stride < n then pos + stride else n;
      [next - 1] + Walk(next, n, stride)
  }

  /** The indices of the vertices Polyline.draw puts on screen, in order. */
  function Retained(n: nat, stride: nat): seq<nat>
    requires stride >= 1
  {
    if n == 0 then [] else [0] + Walk(1, n, stride)
  }

  function CeilDiv(a: nat, b: nat): nat
    requires b >= 1
  {
    (a + b - 1) / b
  }

  lemma MulMonotone(x: int, y: int, b: int)
    requires x <= y && b >= 0
    ensures x * b <= y * b
  {
    assert y * b - x * b == (y - x) * b;
  }

  /** The quotient is the only q with q * b <= a < (q + 1) * b. */
  lemma DivUnique(a: int, b: int, q: int)
    requires b >= 1 && q * b <= a < q * b + b
    ensures a / b == q
  {
    var q0 := a / b;
    assert q0 * b <= a < q0 * b + b;
    if q0 < q {
      MulMonotone(q0 + 1, q, b);
    } else if q0 > q {
      MulMonotone(q + 1, q0, b);
    }
  }

  lemma DivAddOne(a: nat, b: nat)
    requires b >= 1
    ensures (a + b) / b == a / b + 1
  {
    var q := a / b;
    assert q * b <= a < q * b + b;
    assert (q + 1) * b == q * b + b;
    DivUnique(a + b, b, q + 1);
  }

  /** A walk from `pos` emits ceil((n - pos) / stride) vertices. */
  lemma {:induction false} WalkLength(pos: nat, n: nat, stride: nat)
    requires stride >= 1 && pos <= n
    ensures |Walk(pos, n, stride)| == CeilDiv(n - pos, stride)
    decreases n - pos
  {
    if pos == n {
      DivUnique(stride - 1, stride, 0);
    } else if pos + stride < n {
      WalkLength(pos + stride, n, stride);
      DivAddOne(n - pos - 1, stride);
    } else {
      assert Walk(pos, n, stride) == [n - 1];
      DivUnique(n - pos + stride - 1, stride, 1);
    }
  }

  /** The j-th vertex a walk from `pos` emits is `min(pos - 1 + (j + 1) * stride, n - 1)`. */
  lemma {:induction false} WalkElements(pos: nat, n: nat, stride: nat)
    requires stride >= 1 && 1 <= pos <= n
    ensures forall j :: 0 <= j < |Walk(pos, n, stride)| ==>
              Walk(pos, n, stride)[j] == Min(pos - 1 + (j + 1) * stride, n - 1)
    decreases n - pos
  {
    var w := Walk(pos, n, stride);
    if pos < n {
      var next := if pos + stride < n then pos + stride else n;
      var rest := Walk(next, n, stride);
      assert w == [next - 1] + rest;
      WalkElements(next, n, stride);
      forall j | 0 <= j < |w|
        ensures w[j] == Min(pos - 1 + (j + 1) * stride, n - 1)
      {
        if j == 0 {
          assert (j + 1) * stride == stride;
        } else {
          assert w[j] == rest[j - 1];
          assert (j + 1) * stride == j * stride + stride;

        }
      }
    }
  }

  /** A walk from `pos` emits strictly increasing indices of not-yet-consumed
      vertices and ends on the last vertex. */
  lemma {:induction false} WalkOrdered(pos: nat, n: nat, stride: nat)
    requires stride >= 1 && pos <= n
    ensures var w := Walk(pos, n, stride);
      && (forall j :: 0 <= j < |w| ==> pos <= w[j] < n)
      && (forall i, j :: 0 <= i < j < |w| ==> w[i] < w[j])
      && (|w| > 0 ==> w[|w| - 1] == n - 1)
    decreases n - pos
  {
    if pos < n {
      var next := if pos + stride < n then pos + stride else n;
      assert Walk(pos, n, stride) == [next - 1] + Walk(next, n, stride);
      WalkOrdered(next, n, stride);
    }
  }

  /** The retained vertices: index 0, then `min(k * stride, n - 1)` for
      k = 1 .. ceil((n - 1) / stride); strictly increasing, from the first vertex to
      the last whatever the stride. */
  lemma RetainedShape(n: nat, stride: nat)
    requires stride >= 1 && n >= 1
    ensures var r := Retained(n, stride);
      && |r| == 1 + CeilDiv(n - 1, stride)
      && r[0] == 0 && r[|r| - 1] == n - 1
      && (forall k :: 1 <= k < |r| ==> r[k] == Min(k * stride, n - 1))
      && (forall k :: 0 <= k < |r| ==> r[k] < n)
      && (forall i, j :: 0 <= i < j < |r| ==> r[i] < r[j])
  {
    var r := Retained(n, stride);
    var w := Walk(1, n, stride);
    assert r == [0] + w;
    WalkLength(1, n, stride);
    WalkElements(1, n, stride);
    WalkOrdered(1, n, stride);
    forall k | 1 <= k < |r| ensures r[k] == Min(k * stride, n - 1) {
      assert r[k] == w[k - 1];
    }
  }

  /** A route of 100 vertices at zoom 8: every 8th vertex and then the last one. */
  lemma RouteAtZoomEight()
    ensures Retained(100, Stride(ROUTE, 8)) == [0, 8, 16, 24, 32, 40, 48, 56, 64, 72, 80, 88, 96, 99]
  {
    var r := Retained(100, 8);
    var expected: seq<nat> := [0, 8, 16, 24, 32, 40, 48, 56, 64, 72, 80, 88, 96, 99];
    RetainedShape(100, 8);
    assert |r| == 14;
    forall k | 0 <= k < 14 ensures r[k] == expected[k] {
      if k > 0 {
        assert r[k] == Min(k * 8, 99);
      }
    }
  }
}
