/** CircleView: an Android view that draws a circle of a radius given in metres
    around a geographic centre, outlined by a stroke paint and filled by a fill
    paint, either of which may be missing. The view is laid out over the map, so
    the circle is drawn at the view's own centre. */
module CircleViews {
  import opened Numbers
  import opened Graphics

  /** A Java `float` argument: a number or NaN. Float rounding is not modelled. */
  datatype FloatValue = Num(v: real) | NaN

  /** How `setRadius` ended: the radius was stored, or an IllegalArgumentException
      was thrown. */
  datatype RadiusOutcome = Accepted | InvalidRadius

  /** The map view a circle view is initialised with: only whether there is one
      matters here, its zoom level and tile size are read at draw time. */
  datatype MapViewRef = MapViewRef(id: nat)

  /** Whether `setRadius` accepts a value: neither negative nor NaN. */
  predicate AcceptableRadius(radius: FloatValue) {
    radius.Num? && radius.v >= 0.0
  }

  /** The radius in whole pixels: the metres converted at the centre's latitude on a
      map of the current zoom level, truncated toward zero. It is non-negative
      whenever the conversion is, and never more than one pixel short of it. */
  function RadiusInPixels(radius: real, latitude: real, zoomLevel: int, tileSize: int, ext: Externals): (px: int)
    ensures ext.metersToPixels(radius, latitude, ext.mapSize(zoomLevel, tileSize)) >= 0.0 ==>
              0 <= px && px as real <= ext.metersToPixels(radius, latitude, ext.mapSize(zoomLevel, tileSize)) < px as real + 1.0
  {
    Trunc(ext.metersToPixels(radius, latitude, ext.mapSize(zoomLevel, tileSize)))
  }

  /** The circle commands of one draw, stroke before fill, each only for a paint that
      is there. */
  function Circles(cx: int, cy: int, px: int, hasStroke: bool, hasFill: bool): (cmds: seq<DrawCmd>)
    ensures |cmds| == (if hasStroke then 1 else 0) + (if hasFill then 1 else 0)
    ensures forall k :: 0 <= k < |cmds| ==>
              cmds[k].DrawCircle? && cmds[k].cx == cx && cmds[k].cy == cy && cmds[k].radius == px
    ensures hasStroke <==> DrawCircle(cx, cy, px, StrokeRole) in cmds
    ensures hasFill <==> DrawCircle(cx, cy, px, FillRole) in cmds
    ensures hasStroke && hasFill ==> cmds[0].role == StrokeRole && cmds[1].role == FillRole
  {
    (if hasStroke then [DrawCircle(cx, cy, px, StrokeRole)] else [])
    + (if hasFill then [DrawCircle(cx, cy, px, FillRole)] else [])
  }

  class CircleView {
    var latLong: Option<LatLong>
    var mapView: Option<MapViewRef>
    var paintFill: Paint?
    var paintStroke: Paint?
    /** The radius in metres. */
    var radius: real
    /** How many times the view has called `invalidate()`. */
    var invalidations: nat

    /** The radius is never negative: it starts at 0 and `setRadius` stores no
        negative value. */
    predicate Valid()
      reads this
    {
      radius >= 0.0
    }

    /** A new view has no centre, no map view, no paints and a radius of 0. */
    constructor ()
      ensures Valid()
      ensures latLong == None && mapView == None && paintFill == null && paintStroke == null
      ensures radius == 0.0 && invalidations == 0
    {
      latLong := None;
      mapView := None;
      paintFill := null;
      paintStroke := null;
      radius := 0.0;
      invalidations := 0;
    }

    method Initialize(mapView: MapViewRef, paintFill: Paint?, paintStroke: Paint?)
      modifies this`mapView, this`paintFill, this`paintStroke
      ensures this.mapView == Some(mapView) && this.paintFill == paintFill && this.paintStroke == paintStroke
    {
      this.mapView := Some(mapView);
      this.paintFill := paintFill;
      this.paintStroke := paintStroke;
    }

    /** What one draw call does on a view of `viewWidth` by `viewHeight`, with the
        map view at `zoomLevel` and tiles of `tileSize`: nothing without a paint; a
        NullPointerException without a centre or a map view; nothing when the circle
        misses the canvas; otherwise the stroke and then the fill, both centred on
        the view. */
    function Drawing(viewWidth: nat, viewHeight: nat, zoomLevel: int, tileSize: int,
                     canvas: Canvas, ext: Externals): (r: DrawResult)
      reads this
      ensures paintStroke == null && paintFill == null ==> r == Drawn([])
      ensures r == NullDereference <==>
                (paintStroke != null || paintFill != null) && (latLong.None? || mapView.None?)
      ensures r.Drawn? && r.cmds != [] ==>
                latLong.Some? && mapView.Some?
                && |r.cmds| == (if paintStroke != null then 1 else 0) + (if paintFill != null then 1 else 0)
                && ext.intersectsCircle(canvas.Bounds(), (viewWidth / 2) as real, (viewHeight / 2) as real,
                                        RadiusInPixels(radius, latLong.value.latitude, zoomLevel, tileSize, ext) as real)
      ensures r.Drawn? ==> forall k :: 0 <= k < |r.cmds| ==>
                r.cmds[k].DrawCircle? && r.cmds[k].cx == viewWidth / 2 && r.cmds[k].cy == viewHeight / 2
                && r.cmds[k].radius == RadiusInPixels(radius, latLong.value.latitude, zoomLevel, tileSize, ext)
      ensures r.Drawn? && r.cmds != [] ==>
                r.cmds == Circles(viewWidth / 2, viewHeight / 2,
                                  RadiusInPixels(radius, latLong.value.latitude, zoomLevel, tileSize, ext),
                                  paintStroke != null, paintFill != null)
    {
      if paintStroke == null && paintFill == null then Drawn([])
      else if latLong.None? || mapView.None? then NullDereference
      else
        var pixelX := viewWidth / 2;
        var pixelY := viewHeight / 2;
        var px := RadiusInPixels(radius, latLong.value.latitude, zoomLevel, tileSize, ext);
        if !ext.intersectsCircle(canvas.Bounds(), pixelX as real, pixelY as real, px as real) then Drawn([])
        else Drawn(Circles(pixelX, pixelY, px, paintStroke != null, paintFill != null))
    }

    method Draw(viewWidth: nat, viewHeight: nat, zoomLevel: int, tileSize: int, canvas: Canvas, ext: Externals)
      returns (r: DrawResult)
      ensures r == Drawing(viewWidth, viewHeight, zoomLevel, tileSize, canvas, ext)
    {
      if paintStroke == null && paintFill == null {
        return Drawn([]);
      }
      var pixelX := viewWidth / 2;
      var pixelY := viewHeight / 2;
      if latLong.None? || mapView.None? {
        return NullDereference;
      }
      var radiusInPixel := Trunc(ext.metersToPixels(radius, latLong.value.latitude, ext.mapSize(zoomLevel, tileSize)));
      var canvasRectangle := Rectangle(0.0, 0.0, canvas.width as real, canvas.height as real);
      if !ext.intersectsCircle(canvasRectangle, pixelX as real, pixelY as real, radiusInPixel as real) {
        return Drawn([]);
      }
      var cmds := [];
      if paintStroke != null {
        cmds := cmds + [DrawCircle(pixelX, pixelY, radiusInPixel, StrokeRole)];
      }
      if paintFill != null {
        cmds := cmds + [DrawCircle(pixelX, pixelY, radiusInPixel, FillRole)];
      }
      r := Drawn(cmds);
    }

    method SetLatLong(latLong: Option<LatLong>)
      modifies this`latLong, this`invalidations
      ensures this.latLong == latLong && invalidations == old(invalidations) + 1
    {
      this.latLong := latLong;
      invalidations := invalidations + 1;
    }

    method SetPaintFill(paintFill: Paint?)
      modifies this`paintFill, this`invalidations
      ensures this.paintFill == paintFill && invalidations == old(invalidations) + 1
    {
      this.paintFill := paintFill;
      invalidations := invalidations + 1;
    }

    method SetPaintStroke(paintStroke: Paint?)
      modifies this`paintStroke, this`invalidations
      ensures this.paintStroke == paintStroke && invalidations == old(invalidations) + 1
    {
      this.paintStroke := paintStroke;
      invalidations := invalidations + 1;
    }

    /** A negative or NaN radius is refused with an IllegalArgumentException and
        changes nothing; any other is stored as given and the view invalidated. So
        the radius never becomes negative. */
    method SetRadius(radius: FloatValue) returns (outcome: RadiusOutcome)
      modifies this`radius, this`invalidations
      ensures outcome == Accepted <==> AcceptableRadius(radius)
      ensures outcome == Accepted ==> this.radius == radius.v && invalidations == old(invalidations) + 1
      ensures outcome == InvalidRadius ==> this.radius == old(this.radius) && invalidations == old(invalidations)
      ensures old(Valid()) ==> Valid()
    {
      if radius.NaN? || radius.v < 0.0 {
        return InvalidRadius;
      }
      this.radius := radius.v;
      invalidations := invalidations + 1;
      outcome := Accepted;
    }
  }

  /** Once set, a radius survives every refused value after it. */
  method RefusedRadiusKeepsOld(view: CircleView, meters: real)
    requires meters >= 0.0
    modifies view
  {
    var first := view.SetRadius(Num(meters));
    assert first == Accepted && view.radius == meters;
    var second := view.SetRadius(Num(-1.0));
    var third := view.SetRadius(NaN);
    assert second == InvalidRadius && third == InvalidRadius;
    assert view.radius == meters && view.Valid();
  }
}
