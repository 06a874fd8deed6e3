/** MarkerRotating: a marker whose bitmap is turned by its own angle on top of
    the map's rotation, and which is hidden at zoom levels up to 12 unless told to
    be drawn always. */
module RotatingMarkers {
  import opened Numbers
  import opened Graphics
  import opened Rotation
  import opened Layers

  /** The highest zoom level at which a marker not drawn always stays hidden. */
  const HIDDEN_UP_TO_ZOOM: int := 12

  /** How many canvas states a command list leaves saved: each Save pushes one,
      each Restore pops one. */
  function Depth(cmds: seq<DrawCmd>): int
    decreases |cmds|
  {
    if |cmds| == 0 then 0
    else Depth(cmds[..|cmds| - 1]) + (match cmds[|cmds| - 1]
                                       case Save => 1
                                       case Restore => -1
                                       case _ => 0)
  }

  /** Every Restore has a Save before it, and the list ends with nothing saved:
      the canvas comes back in the state it was handed over in. */
  predicate Balanced(cmds: seq<DrawCmd>) {
    Depth(cmds) == 0 && forall k :: 0 <= k <= |cmds| ==> Depth(cmds[..k]) >= 0
  }

  /** Where the bitmap goes: centred on the point, moved by the marker's offsets,
      each corner truncated toward zero to whole pixels. */
  function MarkerRect(p: Point, b: Bitmap, horizontalOffset: int, verticalOffset: int): (r: IntRect)
    ensures r.right - r.left == b.width && r.bottom - r.top == b.height
    ensures -1.0 < r.left as real - (p.x - (b.width / 2) as real + horizontalOffset as real) < 1.0
    ensures -1.0 < r.top as real - (p.y - (b.height / 2) as real + verticalOffset as real) < 1.0
  {
    var left := Trunc(p.x - (b.width / 2) as real + horizontalOffset as real);
    var top := Trunc(p.y - (b.height / 2) as real + verticalOffset as real);
    IntRect(left, top, left + b.width, top + b.height)
  }

  /** The commands that put the bitmap on the canvas: straight for angle 0,
      otherwise between a save and a restore, after rotating the canvas about the
      marker's point by the map's angle in degrees plus the marker's own. */
  function Placement(b: Bitmap, rect: IntRect, point: Point, fRotation: real, degreeRad: real, ext: Externals): (cmds: seq<DrawCmd>)
    ensures fRotation == 0.0 <==> |cmds| == 1
  {
    var draw := DrawBitmap(b, rect.left, rect.top);
    if fRotation == 0.0 then [draw]
    else [Save, Rotate(ext.toDegrees(degreeRad) + fRotation, point.x, point.y), draw, Restore]
  }

  /** Bracketing two commands that neither save nor restore between a save and a
      restore leaves the canvas balanced. */
  lemma BracketBalanced(a: DrawCmd, b: DrawCmd)
    requires !a.Save? && !a.Restore? && !b.Save? && !b.Restore?
    ensures Balanced([Save, a, b, Restore])
  {
    var cmds := [Save, a, b, Restore];
    assert cmds[..0] == [] && cmds[..1] == [Save];
    assert cmds[..2] == [Save, a] && cmds[..2][..1] == [Save];
    assert cmds[..3] == [Save, a, b] && cmds[..3][..2] == [Save, a];
    assert cmds[..4] == cmds && cmds[..3] == [Save, a, b];
    assert Depth(cmds[..1]) == 1;
    assert Depth(cmds[..2]) == 1;
    assert Depth(cmds[..3]) == 1;
    assert Depth(cmds) == 0;
  }

  /** The bitmap is drawn exactly once, at its rectangle, whatever the angle; a
      turned bitmap is drawn after the canvas is saved and rotated by the map's
      angle plus its own about the marker's point, and the canvas is restored after
      it, so it is left as it was. */
  lemma PlacementShape(b: Bitmap, rect: IntRect, point: Point, fRotation: real, degreeRad: real, ext: Externals)
    ensures var cmds := Placement(b, rect, point, fRotation, degreeRad, ext);
      && Balanced(cmds)
      && DrawBitmap(b, rect.left, rect.top) in cmds
      && (forall k :: 0 <= k < |cmds| && cmds[k].DrawBitmap? ==> cmds[k] == DrawBitmap(b, rect.left, rect.top))
      && (forall i, j :: 0 <= i < j < |cmds| ==> !(cmds[i].DrawBitmap? && cmds[j].DrawBitmap?))
      && (fRotation == 0.0 ==> cmds == [DrawBitmap(b, rect.left, rect.top)])
      && (fRotation != 0.0 ==>
            && cmds[0] == Save
            && cmds[1] == Rotate(ext.toDegrees(degreeRad) + fRotation, point.x, point.y)
            && cmds[2] == DrawBitmap(b, rect.left, rect.top)
            && cmds[3] == Restore)
  {
    var draw := DrawBitmap(b, rect.left, rect.top);
    if fRotation == 0.0 {
      assert [draw][..0] == [] && [draw][..1] == [draw];
    } else {
      BracketBalanced(Rotate(ext.toDegrees(degreeRad) + fRotation, point.x, point.y), draw);
    }
  }

  class MarkerRotating {
    /** The layer this marker is (the Marker superclass extends Layer). */
    const layer: Layer
    const horizontalOffset: int
    const verticalOffset: int
    var latLong: Option<LatLong>
    var bitmap: Option<Bitmap>
    var fRotation: real
    var isAlwaysDrawn: bool

    constructor (latLong: Option<LatLong>, bitmap: Option<Bitmap>, horizontalOffset: int, verticalOffset: int)
      ensures fresh(layer) && layer.displayModel == None && layer.redrawRequests == []
      ensures this.latLong == latLong && this.bitmap == bitmap
      ensures this.horizontalOffset == horizontalOffset && this.verticalOffset == verticalOffset
      ensures fRotation == 0.0 && !isAlwaysDrawn
    {
      layer := new Layer();
      this.latLong := latLong;
      this.bitmap := bitmap;
      this.horizontalOffset := horizontalOffset;
      this.verticalOffset := verticalOffset;
      fRotation := 0.0;
      isAlwaysDrawn := false;
    }

    /** What one draw call does: nothing without a position or a live bitmap, nothing
        at zoom 12 or less unless always drawn, a NullPointerException without a
        display model, nothing when the bitmap is off the canvas, and otherwise the
        placement of the bitmap. */
    function Drawing(zoomLevel: int, canvas: Canvas, topLeftPoint: Point, degreeRad: real,
                     ext: Externals, trig: Trig): (r: DrawResult)
      reads this, layer
      ensures !isAlwaysDrawn && zoomLevel <= HIDDEN_UP_TO_ZOOM ==> r == Drawn([])
      ensures r == NullDereference <==>
                latLong.Some? && bitmap.Some? && !bitmap.value.destroyed
                && (isAlwaysDrawn || zoomLevel > HIDDEN_UP_TO_ZOOM) && layer.displayModel.None?
      ensures r.Drawn? && r.cmds != [] ==> bitmap.Some? && (fRotation == 0.0 <==> |r.cmds| == 1)
    {
      if latLong.None? || bitmap.None? || bitmap.value.destroyed then Drawn([])
      else if !(isAlwaysDrawn || zoomLevel > HIDDEN_UP_TO_ZOOM) then Drawn([])
      else if layer.displayModel.None? then NullDereference
      else
        var mapSize := ext.mapSize(zoomLevel, layer.displayModel.value.tileSize);
        var point := Frame(ext, trig, mapSize, topLeftPoint, degreeRad, canvas).PointOf(latLong.value);
        var rect := MarkerRect(point, bitmap.value, horizontalOffset, verticalOffset);
        if !ext.intersects(canvas.Bounds(), rect.AsRectangle()) then Drawn([])
        else Drawn(Placement(bitmap.value, rect, point, fRotation, degreeRad, ext))
    }

    /** Whatever a draw call draws, it draws the marker's own bitmap and hands the
        canvas back as it found it. */
    lemma DrawingBalanced(zoomLevel: int, canvas: Canvas, topLeftPoint: Point, degreeRad: real,
                          ext: Externals, trig: Trig)
      ensures var r := Drawing(zoomLevel, canvas, topLeftPoint, degreeRad, ext, trig);
        r.Drawn? ==> Balanced(r.cmds)
                     && forall k :: 0 <= k < |r.cmds| && r.cmds[k].DrawBitmap? ==> r.cmds[k].bitmap == bitmap.value
    {
      var r := Drawing(zoomLevel, canvas, topLeftPoint, degreeRad, ext, trig);
      if r.Drawn? && r.cmds != [] {
        var mapSize := ext.mapSize(zoomLevel, layer.displayModel.value.tileSize);
        var point := Frame(ext, trig, mapSize, topLeftPoint, degreeRad, canvas).PointOf(latLong.value);
        var rect := MarkerRect(point, bitmap.value, horizontalOffset, verticalOffset);
        PlacementShape(bitmap.value, rect, point, fRotation, degreeRad, ext);
      } else if r.Drawn? {
        assert r.cmds[..0] == [];
      }
    }

    /** A draw puts something on the canvas exactly when the marker has a position
        and a live bitmap, is always drawn or the zoom level is above 12, has a
        display model, and its rectangle meets the canvas; it is then the placement
        of the bitmap at the rectangle of the projected point. */
    lemma DrawingPlacement(zoomLevel: int, canvas: Canvas, topLeftPoint: Point, degreeRad: real,
                           ext: Externals, trig: Trig)
      ensures var r := Drawing(zoomLevel, canvas, topLeftPoint, degreeRad, ext, trig);
        (r.Drawn? && r.cmds != []) <==>
          (&& latLong.Some? && bitmap.Some? && !bitmap.value.destroyed
           && (isAlwaysDrawn || zoomLevel > HIDDEN_UP_TO_ZOOM) && layer.displayModel.Some?
           && ext.intersects(canvas.Bounds(),
                             MarkerRect(Frame(ext, trig, ext.mapSize(zoomLevel, layer.displayModel.value.tileSize),
                                              topLeftPoint, degreeRad, canvas).PointOf(latLong.value),
                                        bitmap.value, horizontalOffset, verticalOffset).AsRectangle()))
      ensures var r := Drawing(zoomLevel, canvas, topLeftPoint, degreeRad, ext, trig);
        r.Drawn? && r.cmds != [] ==>
          var point := Frame(ext, trig, ext.mapSize(zoomLevel, layer.displayModel.value.tileSize),
                             topLeftPoint, degreeRad, canvas).PointOf(latLong.value);
          r.cmds == Placement(bitmap.value, MarkerRect(point, bitmap.value, horizontalOffset, verticalOffset),
                              point, fRotation, degreeRad, ext)
    {
    }

    method Draw(zoomLevel: int, canvas: Canvas, topLeftPoint: Point, degreeRad: real, ext: Externals, rot: RotationUtil)
      returns (r: DrawResult)
      requires rot.Coherent()
      modifies rot
      ensures rot.Coherent()
      ensures r == old(Drawing(zoomLevel, canvas, topLeftPoint, degreeRad, ext, rot.trig))
    {
      if latLong.None? || bitmap.None? || bitmap.value.destroyed {
        return Drawn([]);
      }
      if !(isAlwaysDrawn || zoomLevel > HIDDEN_UP_TO_ZOOM) {
        return Drawn([]);
      }
      if layer.displayModel.None? {
        return NullDereference;
      }
      var mapSize := ext.mapSize(zoomLevel, layer.displayModel.value.tileSize);
      var point := ScreenPoint(latLong.value, ext, mapSize, topLeftPoint, degreeRad, canvas, rot);
      var b := bitmap.value;
      var halfBitmapWidth := b.width / 2;
      var halfBitmapHeight := b.height / 2;
      var left := Trunc(point.x - halfBitmapWidth as real + horizontalOffset as real);
      var top := Trunc(point.y - halfBitmapHeight as real + verticalOffset as real);
      var right := left + b.width;
      var bottom := top + b.height;
      var bitmapRectangle := Rectangle(left as real, top as real, right as real, bottom as real);
      var canvasRectangle := Rectangle(0.0, 0.0, canvas.width as real, canvas.height as real);
      if !ext.intersects(canvasRectangle, bitmapRectangle) {
        return Drawn([]);
      }
      if fRotation == 0.0 {
        r := Drawn([DrawBitmap(b, left, top)]);
      } else {
        r := Drawn([Save, Rotate(ext.toDegrees(degreeRad) + fRotation, point.x, point.y), DrawBitmap(b, left, top), Restore]);
      }
    }

    method SetRotation(fRotation: real)
      modifies this`fRotation, layer`redrawRequests
      ensures this.fRotation == fRotation
      ensures layer.redrawRequests == old(layer.redrawRequests) + layer.RedrawNotice()
    {
      this.fRotation := fRotation;
      layer.RequestRedraw();
    }

    method SetIsAlwaysDrawn(isAlwaysDrawn: bool)
      modifies this`isAlwaysDrawn, layer`redrawRequests
      ensures this.isAlwaysDrawn == isAlwaysDrawn
      ensures layer.redrawRequests == old(layer.redrawRequests) + layer.RedrawNotice()
    {
      this.isAlwaysDrawn := isAlwaysDrawn;
      layer.RequestRedraw();
    }
  }
}
