/** Polyline: a connected series of line segments over a list of LatLongs, drawn
    with a stride that depends on the polyline's type and the zoom level. */
module Polylines {
  import opened Numbers
  import opened Graphics
  import opened Rotation
  import opened Layers
  import opened Decimation

  /** Every index in `idx` is below `n`. */
  predicate Below(idx: seq<nat>, n: nat) {
    forall k :: 0 <= k < |idx| ==> idx[k] < n
  }

  /** The screen positions of the vertices `idx` of `latLongs`, in that order. */
  function VertexPoints(latLongs: seq<LatLong>, idx: seq<nat>, f: Frame): (pts: seq<Point>)
    requires Below(idx, |latLongs|)
    ensures |pts| == |idx|
    decreases |idx|
  {
    if idx == [] then []
    else VertexPoints(latLongs, idx[..|idx| - 1], f) + [f.PointOf(latLongs[idx[|idx| - 1]])]
  }

  /** The k-th point is where the k-th selected vertex lands. */
  lemma {:induction false} VertexPointsShape(latLongs: seq<LatLong>, idx: seq<nat>, f: Frame)
    requires Below(idx, |latLongs|)
    ensures forall k :: 0 <= k < |idx| ==> VertexPoints(latLongs, idx, f)[k] == f.PointOf(latLongs[idx[k]])
    decreases |idx|
  {
    if idx != [] {
      VertexPointsShape(latLongs, idx[..|idx| - 1], f);
    }
  }

  /** The path through `pts`: a `moveTo` to the first point and a `lineTo` to each
      later one, at the points' `(int)` coordinates. */
  function PathOf(pts: seq<Point>): (path: seq<PathOp>)
    ensures |path| == |pts|
    decreases |pts|
  {
    if |pts| == 0 then []
    else if |pts| == 1 then [MoveTo(Trunc(pts[0].x), Trunc(pts[0].y))]
    else
      var last := pts[|pts| - 1];
      PathOf(pts[..|pts| - 1]) + [LineTo(Trunc(last.x), Trunc(last.y))]
  }

  /** The path starts with a `moveTo` to the first point and continues with one
      `lineTo` per later point, in order. */
  lemma {:induction false} PathOfShape(pts: seq<Point>)
    ensures |pts| > 0 ==> PathOf(pts)[0] == MoveTo(Trunc(pts[0].x), Trunc(pts[0].y))
    ensures forall k :: 1 <= k < |pts| ==> PathOf(pts)[k] == LineTo(Trunc(pts[k].x), Trunc(pts[k].y))
    decreases |pts|
  {
    if |pts| > 1 {
      PathOfShape(pts[..|pts| - 1]);
    }
  }

  /** The developer-mode labels: one per point, in order. */
  function IndexLabels(pts: seq<Point>, color: int): (cmds: seq<DrawCmd>)
    ensures |cmds| == |pts|
    decreases |pts|
  {
    if |pts| == 0 then []
    else
      var last := pts[|pts| - 1];
      IndexLabels(pts[..|pts| - 1], color)
        + [DrawText(DecimalString(|pts| - 1), Trunc(last.x) as real, Trunc(last.y) as real, color)]
  }

  /** The k-th point is labelled with the number k, at its `(int)` coordinates. */
  lemma {:induction false} IndexLabelsShape(pts: seq<Point>, color: int)
    ensures forall k :: 0 <= k < |pts| ==>
              IndexLabels(pts, color)[k]
              == DrawText(DecimalString(k), Trunc(pts[k].x) as real, Trunc(pts[k].y) as real, color)
    decreases |pts|
  {
    if |pts| > 0 {
      IndexLabelsShape(pts[..|pts| - 1], color);
    }
  }

  /** What Polyline.draw reads of a polyline and of its layer. */
  datatype PolylineState = PolylineState(
    latLongs: seq<LatLong>,
    hasStroke: bool,
    initialStrokeWidth: real,
    boundingBoxLine: Option<BoundingBox>,
    polylineType: PolylineType,
    developerModeEnabled: bool,
    labelColor: int,
    displayModel: Option<DisplayModel>)

  /** The polyline is drawn at all: it has vertices and a stroke, and its bounding
      box, when one was computed, meets the viewport's. */
  predicate Visible(st: PolylineState, boundingBox: BoundingBox, ext: Externals) {
    && |st.latLongs| > 0
    && st.hasStroke
    && (st.boundingBoxLine.None? || ext.boxIntersects(boundingBox, st.boundingBoxLine.value))
  }

  /** What Polyline.draw issues on the canvas. */
  function PolylineDrawing(st: PolylineState, boundingBox: BoundingBox, zoomLevel: int, canvas: Canvas,
                           topLeftPoint: Point, degreeRad: real, ext: Externals, trig: Trig): DrawResult
  {
    if !Visible(st, boundingBox, ext) then Drawn([])
    else if st.displayModel.None? then NullDereference
    else
      var n := |st.latLongs|;
      var stride := Stride(st.polylineType, zoomLevel);
      RetainedShape(n, stride);
      var f := Frame(ext, trig, ext.mapSize(zoomLevel, st.displayModel.value.tileSize), topLeftPoint, degreeRad, canvas);
      var pts := VertexPoints(st.latLongs, Retained(n, stride), f);
      if st.developerModeEnabled then Drawn(IndexLabels(pts, st.labelColor))
      else Drawn([DrawPath(PathOf(pts), ScaledStrokeWidth(st.initialStrokeWidth, zoomLevel))])
  }

  /** An empty polyline, one without a stroke, and one whose bounding box misses the
      viewport draw nothing; with no bounding box computed there is no culling. */
  lemma InvisibleDrawsNothing(st: PolylineState, boundingBox: BoundingBox, zoomLevel: int, canvas: Canvas,
                              topLeftPoint: Point, degreeRad: real, ext: Externals, trig: Trig)
    ensures !Visible(st, boundingBox, ext) ==>
              PolylineDrawing(st, boundingBox, zoomLevel, canvas, topLeftPoint, degreeRad, ext, trig) == Drawn([])
    ensures |st.latLongs| > 0 && st.hasStroke && st.boundingBoxLine.None? ==> Visible(st, boundingBox, ext)
  {
  }

  /** A visible polyline draws, at the zoom level's stride, one point per retained
      vertex from the first vertex to the last: as one stroked path, or in developer
      mode as the labels 0, 1, 2, ... and no path. */
  lemma VisibleDrawing(st: PolylineState, boundingBox: BoundingBox, zoomLevel: int, canvas: Canvas,
                       topLeftPoint: Point, degreeRad: real, ext: Externals, trig: Trig)
    requires Visible(st, boundingBox, ext) && st.displayModel.Some?
    ensures var r := PolylineDrawing(st, boundingBox, zoomLevel, canvas, topLeftPoint, degreeRad, ext, trig);
      var n := |st.latLongs|;
      var count := 1 + CeilDiv(n - 1, Stride(st.polylineType, zoomLevel));
      var f := Frame(ext, trig, ext.mapSize(zoomLevel, st.displayModel.value.tileSize), topLeftPoint, degreeRad, canvas);
      var first := f.PointOf(st.latLongs[0]);
      var last := f.PointOf(st.latLongs[n - 1]);
      && r.Drawn?
      && (st.developerModeEnabled ==>
            && |r.cmds| == count
            && (forall k :: 0 <= k < count ==> r.cmds[k].DrawText? && r.cmds[k].text == DecimalString(k))
            && r.cmds[0].x == Trunc(first.x) as real && r.cmds[0].y == Trunc(first.y) as real
            && r.cmds[count - 1].x == Trunc(last.x) as real && r.cmds[count - 1].y == Trunc(last.y) as real)
      && (!st.developerModeEnabled ==>
            && |r.cmds| == 1 && r.cmds[0].DrawPath?
            && r.cmds[0].strokeWidth == ScaledStrokeWidth(st.initialStrokeWidth, zoomLevel)
            && |r.cmds[0].path| == count
            && r.cmds[0].path[0] == MoveTo(Trunc(first.x), Trunc(first.y))
            && (count > 1 ==> r.cmds[0].path[count - 1] == LineTo(Trunc(last.x), Trunc(last.y))))
  {
    var n := |st.latLongs|;
    var stride := Stride(st.polylineType, zoomLevel);
    var f := Frame(ext, trig, ext.mapSize(zoomLevel, st.displayModel.value.tileSize), topLeftPoint, degreeRad, canvas);
    RetainedShape(n, stride);
    var idx := Retained(n, stride);
    VertexPointsShape(st.latLongs, idx, f);
    var pts := VertexPoints(st.latLongs, idx, f);
    PathOfShape(pts);
    IndexLabelsShape(pts, st.labelColor);
  }

  /** Every vertex lies inside the box. */
  predicate Encloses(box: BoundingBox, latLongs: seq<LatLong>) {
    forall k :: 0 <= k < |latLongs| ==>
      && box.minLatitude <= latLongs[k].latitude <= box.maxLatitude
      && box.minLongitude <= latLongs[k].longitude <= box.maxLongitude
  }

  /** Each side of the box is reached by some vertex. */
  predicate Tight(box: BoundingBox, latLongs: seq<LatLong>) {
    && (exists k :: 0 <= k < |latLongs| && latLongs[k].latitude == box.minLatitude)
    && (exists k :: 0 <= k < |latLongs| && latLongs[k].latitude == box.maxLatitude)
    && (exists k :: 0 <= k < |latLongs| && latLongs[k].longitude == box.minLongitude)
    && (exists k :: 0 <= k < |latLongs| && latLongs[k].longitude == box.maxLongitude)
  }

  /** The min/max loop of finalizeCoordinates: the smallest box holding every vertex. */
  method BoundsOf(latLongs: seq<LatLong>) returns (box: BoundingBox)
    requires |latLongs| > 0
    ensures Encloses(box, latLongs) && Tight(box, latLongs)
  {
    var latmin, latmax := latLongs[0].latitude, latLongs[0].latitude;
    var longmin, longmax := latLongs[0].longitude, latLongs[0].longitude;
    ghost var iLatMin, iLatMax, iLongMin, iLongMax := 0, 0, 0, 0;
    var i := 1;
    while i < |latLongs|
      invariant 1 <= i <= |latLongs|
      invariant Encloses(BoundingBox(latmin, longmin, latmax, longmax), latLongs[..i])
      invariant iLatMin < i && latLongs[iLatMin].latitude == latmin
      invariant iLatMax < i && latLongs[iLatMax].latitude == latmax
      invariant iLongMin < i && latLongs[iLongMin].longitude == longmin
      invariant iLongMax < i && latLongs[iLongMax].longitude == longmax
    {
      var latLong := latLongs[i];
      if latLong.latitude < latmin { latmin, iLatMin := latLong.latitude, i; }
      if latLong.latitude > latmax { latmax, iLatMax := latLong.latitude, i; }
      if latLong.longitude < longmin { longmin, iLongMin := latLong.longitude, i; }
      if latLong.longitude > longmax { longmax, iLongMax := latLong.longitude, i; }
      i := i + 1;
    }
    assert latLongs[..i] == latLongs;
    box := BoundingBox(latmin, longmin, latmax, longmax);
  }

  /** One round of the draw loop's inner `for`: advances the iterator by up to
      `interval` vertices, stopping at the end of the list, and returns the position
      reached and the last vertex read. */
  method AdvanceIterator(latLongs: seq<LatLong>, pos: nat, interval: nat, current: LatLong)
    returns (next: nat, latLong: LatLong)
    requires 1 <= pos <= |latLongs| && 1 <= interval && current == latLongs[pos - 1]
    ensures next == Min(pos + interval, |latLongs|)
    ensures latLong == latLongs[next - 1]
  {
    next, latLong := pos, current;
    var counter := 0;
    while counter < interval
      invariant 0 <= counter <= interval
      invariant next == Min(pos + counter, |latLongs|)
      invariant latLong == latLongs[next - 1]
    {
      if next < |latLongs| {
        latLong := latLongs[next];
        next := next + 1;
      }
      counter := counter + 1;
    }
  }

  /** One round of the walk: the vertex it emits and where the next round starts. */
  lemma WalkStep(pos: nat, n: nat, stride: nat)
    requires stride >= 1 && pos < n
    ensures Walk(pos, n, stride) == [Min(pos + stride, n) - 1] + Walk(Min(pos + stride, n), n, stride)
  {
  }

  /** Taking one more vertex appends its point. */
  lemma VertexPointsSnoc(latLongs: seq<LatLong>, idx: seq<nat>, i: nat, f: Frame)
    requires Below(idx, |latLongs|) && i < |latLongs|
    ensures Below(idx + [i], |latLongs|)
    ensures VertexPoints(latLongs, idx + [i], f) == VertexPoints(latLongs, idx, f) + [f.PointOf(latLongs[i])]
  {
    assert (idx + [i])[..|idx|] == idx;
  }

  /** Extending the points by one extends the path by one `lineTo`. */
  lemma PathOfSnoc(pts: seq<Point>, q: Point)
    requires |pts| >= 1
    ensures PathOf(pts + [q]) == PathOf(pts) + [LineTo(Trunc(q.x), Trunc(q.y))]
  {
    assert (pts + [q])[..|pts|] == pts;
  }

  /** Extending the points by one adds the next label. */
  lemma IndexLabelsSnoc(pts: seq<Point>, q: Point, color: int)
    ensures IndexLabels(pts + [q], color)
         == IndexLabels(pts, color) + [DrawText(DecimalString(|pts|), Trunc(q.x) as real, Trunc(q.y) as real, color)]
  {
    assert (pts + [q])[..|pts|] == pts;
  }

  /** One round of the draw loop keeps the emitted indices a prefix of the retained
      ones and below the vertex count. */
  lemma {:induction false} TakenStep(taken: seq<nat>, pos: nat, n: nat, stride: nat)
    requires stride >= 1 && pos < n
    requires taken + Walk(pos, n, stride) == Retained(n, stride) && Below(taken, n)
    ensures (taken + [Min(pos + stride, n) - 1]) + Walk(Min(pos + stride, n), n, stride) == Retained(n, stride)
    ensures Below(taken + [Min(pos + stride, n) - 1], n)
  {
    WalkStep(pos, n, stride);
    assert (taken + [Min(pos + stride, n) - 1]) + Walk(Min(pos + stride, n), n, stride)
        == taken + Walk(pos, n, stride);
  }

  /** One round of the path loop: the next vertex's point extends the path. */
  lemma PathStep(latLongs: seq<LatLong>, taken: seq<nat>, i: nat, f: Frame)
    requires Below(taken, |latLongs|) && 1 <= |taken| && i < |latLongs|
    ensures Below(taken + [i], |latLongs|)
    ensures PathOf(VertexPoints(latLongs, taken + [i], f))
         == PathOf(VertexPoints(latLongs, taken, f)) + [LineTo(Trunc(f.PointOf(latLongs[i]).x), Trunc(f.PointOf(latLongs[i]).y))]
  {
    VertexPointsSnoc(latLongs, taken, i, f);
    PathOfSnoc(VertexPoints(latLongs, taken, f), f.PointOf(latLongs[i]));
  }

  /** One round of the label loop: the next vertex's point adds the next label. */
  lemma LabelStep(latLongs: seq<LatLong>, taken: seq<nat>, i: nat, f: Frame, color: int)
    requires Below(taken, |latLongs|) && i < |latLongs|
    ensures Below(taken + [i], |latLongs|)
    ensures IndexLabels(VertexPoints(latLongs, taken + [i], f), color)
         == IndexLabels(VertexPoints(latLongs, taken, f), color)
            + [DrawText(DecimalString(|taken|), Trunc(f.PointOf(latLongs[i]).x) as real,
                        Trunc(f.PointOf(latLongs[i]).y) as real, color)]
  {
    VertexPointsSnoc(latLongs, taken, i, f);
    IndexLabelsSnoc(VertexPoints(latLongs, taken, f), f.PointOf(latLongs[i]), color);
  }

  /** The vertex loop of Polyline.draw outside developer mode: the path through the
      retained vertices. */
  method TracePath(latLongs: seq<LatLong>, interval: nat, ext: Externals, mapSize: int, topLeftPoint: Point,
                   degreeRad: real, canvas: Canvas, rot: RotationUtil) returns (path: seq<PathOp>)
    requires |latLongs| > 0 && interval >= 1 && rot.Coherent()
    modifies rot
    ensures rot.Coherent()
    ensures Below(Retained(|latLongs|, interval), |latLongs|) &&
            path == PathOf(VertexPoints(latLongs, Retained(|latLongs|, interval),
                                        Frame(ext, rot.trig, mapSize, topLeftPoint, degreeRad, canvas)))
  {
    ghost var f := Frame(ext, rot.trig, mapSize, topLeftPoint, degreeRad, canvas);
    var n := |latLongs|;
    var latLong := latLongs[0];
    var pos := 1;
    var point := ScreenPoint(latLong, ext, mapSize, topLeftPoint, degreeRad, canvas, rot);
    path := [MoveTo(Trunc(point.x), Trunc(point.y))];
    ghost var taken: seq<nat> := [0];
    while pos < n
      invariant 1 <= pos <= n && 1 <= |taken|
      invariant taken + Walk(pos, n, interval) == Retained(n, interval)
      invariant Below(taken, n)
      invariant path == PathOf(VertexPoints(latLongs, taken, f))
      invariant latLong == latLongs[pos - 1]
      invariant rot.Coherent()
      decreases n - pos
    {
      TakenStep(taken, pos, n, interval);
      pos, latLong := AdvanceIterator(latLongs, pos, interval, latLong);
      point := ScreenPoint(latLong, ext, mapSize, topLeftPoint, degreeRad, canvas, rot);
      path := path + [LineTo(Trunc(point.x), Trunc(point.y))];
      PathStep(latLongs, taken, pos - 1, f);
      taken := taken + [pos - 1];
    }
    assert taken == Retained(n, interval);
    RetainedShape(n, interval);
  }

  /** The vertex loop of Polyline.draw in developer mode: each retained vertex
      labelled with its running number. */
  method TraceLabels(latLongs: seq<LatLong>, interval: nat, ext: Externals, mapSize: int, topLeftPoint: Point,
                     degreeRad: real, canvas: Canvas, rot: RotationUtil, color: int) returns (cmds: seq<DrawCmd>)
    requires |latLongs| > 0 && interval >= 1 && rot.Coherent()
    modifies rot
    ensures rot.Coherent()
    ensures Below(Retained(|latLongs|, interval), |latLongs|) &&
            cmds == IndexLabels(VertexPoints(latLongs, Retained(|latLongs|, interval),
                                             Frame(ext, rot.trig, mapSize, topLeftPoint, degreeRad, canvas)), color)
  {
    ghost var f := Frame(ext, rot.trig, mapSize, topLeftPoint, degreeRad, canvas);
    var n := |latLongs|;
    var latLong := latLongs[0];
    var pos := 1;
    var point := ScreenPoint(latLong, ext, mapSize, topLeftPoint, degreeRad, canvas, rot);
    var iIndex := 0;
    cmds := [DrawText(DecimalString(iIndex), Trunc(point.x) as real, Trunc(point.y) as real, color)];
    iIndex := iIndex + 1;
    ghost var taken: seq<nat> := [0];
    while pos < n
      invariant 1 <= pos <= n && iIndex == |taken|
      invariant taken + Walk(pos, n, interval) == Retained(n, interval)
      invariant Below(taken, n)
      invariant cmds == IndexLabels(VertexPoints(latLongs, taken, f), color)
      invariant latLong == latLongs[pos - 1]
      invariant rot.Coherent()
      decreases n - pos
    {
      TakenStep(taken, pos, n, interval);
      pos, latLong := AdvanceIterator(latLongs, pos, interval, latLong);
      point := ScreenPoint(latLong, ext, mapSize, topLeftPoint, degreeRad, canvas, rot);
      cmds := cmds + [DrawText(DecimalString(iIndex), Trunc(point.x) as real, Trunc(point.y) as real, color)];
      iIndex := iIndex + 1;
      LabelStep(latLongs, taken, pos - 1, f, color);
      taken := taken + [pos - 1];
    }
    assert taken == Retained(n, interval);
    RetainedShape(n, interval);
  }

  class Polyline {
    const layer: Layer
    const polylineType: PolylineType
    const keepAligned: bool
    /** The vertex list; `getLatLongs` hands it out for callers to change. */
    var latLongs: seq<LatLong>
    var paintStroke: Paint?
    var initialStrokeWidth: real
    var boundingBoxLine: Option<BoundingBox>
    var developerModeEnabled: bool
    /** The paint of the developer-mode labels. */
    var paint: Paint?

    /** Developer mode always comes with its label paint. */
    predicate Valid()
      reads this
    {
      developerModeEnabled ==> paint != null
    }

    function State(): PolylineState
      reads this, layer, paint
    {
      PolylineState(latLongs, paintStroke != null, initialStrokeWidth, boundingBoxLine, polylineType,
                    developerModeEnabled, if paint != null then paint.color else 0, layer.displayModel)
    }

    constructor (paintStroke: Paint?, polylineType: PolylineType, keepAligned: bool)
      ensures Valid() && fresh(layer)
      ensures layer.visible && layer.assignedRedrawer == None && layer.redrawRequests == []
      ensures this.paintStroke == paintStroke && this.polylineType == polylineType && this.keepAligned == keepAligned
      ensures initialStrokeWidth == if paintStroke != null then paintStroke.strokeWidth else 0.0
      ensures latLongs == [] && boundingBoxLine == None && !developerModeEnabled && paint == null
    {
      layer := new Layer();
      this.keepAligned := keepAligned;
      this.polylineType := polylineType;
      this.paintStroke := paintStroke;
      initialStrokeWidth := if paintStroke != null then paintStroke.strokeWidth else 0.0;
      latLongs := [];
      boundingBoxLine := None;
      developerModeEnabled := false;
      paint := null;
    }

    method Draw(boundingBox: BoundingBox, zoomLevel: int, canvas: Canvas, topLeftPoint: Point,
                degreeRad: real, ext: Externals, rot: RotationUtil) returns (r: DrawResult)
      requires Valid() && rot.Coherent()
      modifies rot, paintStroke
      ensures rot.Coherent()
      ensures r == old(PolylineDrawing(State(), boundingBox, zoomLevel, canvas, topLeftPoint, degreeRad, ext, rot.trig))
      ensures old(Visible(State(), boundingBox, ext)) ==>
                paintStroke.strokeWidth == ScaledStrokeWidth(initialStrokeWidth, zoomLevel)
      ensures !old(Visible(State(), boundingBox, ext)) && paintStroke != null ==> unchanged(paintStroke)
      ensures keepAligned && !developerModeEnabled && r.Drawn? && r.cmds != [] ==>
                paintStroke.bitmapShaderShift == Some(topLeftPoint)
      ensures paintStroke != null ==>
                paintStroke.color == old(paintStroke.color) && paintStroke.textSize == old(paintStroke.textSize)
      ensures paintStroke != null && (!keepAligned || developerModeEnabled || r == NullDereference) ==>
                paintStroke.bitmapShaderShift == old(paintStroke.bitmapShaderShift)
    {
      ghost var st := State();
      ghost var paint0 := if paintStroke == null then (0, 0.0, None) else (paintStroke.color, paintStroke.textSize, paintStroke.bitmapShaderShift);
      if |latLongs| == 0 || paintStroke == null {
        return Drawn([]);
      }
      if boundingBoxLine.Some? && !ext.boxIntersects(boundingBox, boundingBoxLine.value) {
        return Drawn([]);
      }
      assert Visible(st, boundingBox, ext);
      var strokeWidth := ScaleDownStroke(initialStrokeWidth, zoomLevel);
      paintStroke.strokeWidth := strokeWidth;
      assert (paintStroke.color, paintStroke.textSize, paintStroke.bitmapShaderShift) == paint0;
      var interval := Stride(polylineType, zoomLevel);
      if layer.displayModel.None? {
        return NullDereference;
      }
      var mapSize := ext.mapSize(zoomLevel, layer.displayModel.value.tileSize);
      if developerModeEnabled {
        assert paint.color == st.labelColor;
        var cmds := TraceLabels(latLongs, interval, ext, mapSize, topLeftPoint, degreeRad, canvas, rot, paint.color);
        r := Drawn(cmds);
      } else {
        var path := TracePath(latLongs, interval, ext, mapSize, topLeftPoint, degreeRad, canvas, rot);
        if keepAligned {
          paintStroke.bitmapShaderShift := Some(topLeftPoint);
        }
        r := Drawn([DrawPath(path, strokeWidth)]);
      }
    }

    /** Replaces the stroke; a non-null one also becomes the width to scale down from. */
    method SetPaintStroke(paintStroke: Paint?)
      modifies this`paintStroke, this`initialStrokeWidth, layer`redrawRequests
      ensures this.paintStroke == paintStroke
      ensures initialStrokeWidth == if paintStroke != null then paintStroke.strokeWidth else old(initialStrokeWidth)
      ensures layer.redrawRequests == old(layer.redrawRequests) + layer.RedrawNotice()
    {
      this.paintStroke := paintStroke;
      if paintStroke != null {
        initialStrokeWidth := paintStroke.strokeWidth;
      }
      layer.RequestRedraw();
    }

    /** Switches developer mode and builds the label paint from the stroke. Without a
        stroke it throws a NullPointerException (`completed` is false) after the flag
        and the fresh paint were stored, and before any redraw request. */
    method SetDeveloperModeEnabled(developerModeEnabled: bool) returns (completed: bool)
      requires Valid()
      modifies this`developerModeEnabled, this`paint, layer`redrawRequests
      ensures Valid() && this.developerModeEnabled == developerModeEnabled
      ensures paint != null && fresh(paint)
      ensures completed <==> paintStroke != null
      ensures completed ==> paint.color == paintStroke.color && paint.textSize == 0.3 * paintStroke.strokeWidth
      ensures layer.redrawRequests == old(layer.redrawRequests) + (if completed then layer.RedrawNotice() else [])
    {
      this.developerModeEnabled := developerModeEnabled;
      paint := new Paint(0, 0.0);
      if paintStroke == null {
        return false;
      }
      paint.color := paintStroke.color;
      paint.textSize := 0.3 * paintStroke.strokeWidth;
      layer.RequestRedraw();
      completed := true;
    }

    /** Computes the bounding box used for culling. On an empty list it throws a
        NoSuchElementException (`completed` is false) and keeps the old box. */
    method FinalizeCoordinates() returns (completed: bool)
      modifies this`boundingBoxLine
      ensures completed <==> |latLongs| > 0
      ensures completed ==> boundingBoxLine.Some? && Encloses(boundingBoxLine.value, latLongs)
                            && Tight(boundingBoxLine.value, latLongs)
      ensures !completed ==> boundingBoxLine == old(boundingBoxLine)
    {
      if |latLongs| == 0 {
        return false;
      }
      var box := BoundsOf(latLongs);
      boundingBoxLine := Some(box);
      completed := true;
    }
  }
}
