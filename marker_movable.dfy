/** MarkerMovableLocation: a draggable pin. It swaps its bitmap while it is being
    moved, remembers whether its position changed since, and shows the 1-based
    number of its via point over the pin. */
module MovableMarkers {
  import opened Numbers
  import opened Graphics
  import opened Rotation
  import opened Layers

  /** android.graphics.Color.WHITE as a signed 32-bit ARGB value. */
  const WHITE: int := -1

  /** The label for via index `i`: none for -1, otherwise `i + 1` in decimal, the
      sum taken in 32-bit arithmetic. */
  function ViaIndexText(i: int32): (s: string)
    ensures s == "" <==> i == -1
  {
    if i == -1 then "" else DecimalString(Wrap32(i as int + 1) as int)
  }

  /** The label reads back as the next number, so index 0 shows "1"; only the
      largest index wraps round to the smallest `int`. */
  lemma ViaIndexNumbersFromOne(i: int32)
    requires i != -1
    ensures IsDecimal(ViaIndexText(i))
    ensures ParseDecimal(ViaIndexText(i)) == if i as int == INT_MAX then INT_MIN else i as int + 1
  {
    var n := i as int + 1;
    if i as int == INT_MAX {
      assert Wrap32(n) as int == INT_MIN;
    } else {
      assert Wrap32(n) as int == n;
    }
    DecimalRoundTrip(Wrap32(n) as int);
  }

  lemma ViaIndexExamples()
    ensures ViaIndexText(-1) == ""
    ensures ViaIndexText(0) == "1"
    ensures ViaIndexText(2) == "3"
  {
    assert Wrap32(1) == 1 && Wrap32(3) == 3;
  }

  /** Where the pin's bitmap goes: its bottom centre on the point, each corner
      truncated toward zero to whole pixels. */
  function PinRect(p: Point, b: Bitmap): (r: IntRect)
    ensures r.right - r.left == b.width && r.bottom - r.top == b.height
    ensures -1.0 < r.left as real - (p.x - (b.width / 2) as real) < 1.0
    ensures -1.0 < r.top as real - (p.y - b.height as real) < 1.0
  {
    var left := Trunc(p.x - (b.width / 2) as real);
    var top := Trunc(p.y - b.height as real);
    IntRect(left, top, left + b.width, top + b.height)
  }

  /** Where the via-point number is drawn: centred across the pin, six tenths of
      the way down it, so always on the pin. */
  function LabelPoint(r: IntRect, b: Bitmap): (p: Point)
    ensures r.left as real <= p.x <= (r.left + b.width) as real
    ensures r.top as real <= p.y <= (r.top + b.height) as real
  {
    Point((r.left + b.width / 2) as real, (r.top + b.height * 6 / 10) as real)
  }

  class MarkerMovableLocation {
    /** The layer this marker is (the Marker superclass extends Layer). */
    const layer: Layer
    const bitmapNormal: Bitmap
    const bitmapMoving: Option<Bitmap>
    /** The paint of the via-point number. */
    const paint: Paint
    const horizontalOffset: int
    const verticalOffset: int
    var latLong: Option<LatLong>
    var bitmap: Option<Bitmap>
    var wasMoved: bool
    var viaIndex: string

    /** The pin starts with its normal bitmap, raised by half its height, with no
        number and a white label of half the bitmap's height. */
    constructor (latLong: Option<LatLong>, bitmapNormal: Bitmap, bitmapMoving: Option<Bitmap>)
      ensures fresh(layer) && fresh(paint)
      ensures layer.displayModel == None && layer.redrawRequests == []
      ensures this.latLong == latLong && bitmap == Some(bitmapNormal)
      ensures this.bitmapNormal == bitmapNormal && this.bitmapMoving == bitmapMoving
      ensures horizontalOffset == 0 && verticalOffset == -(bitmapNormal.height / 2)
      ensures !wasMoved && viaIndex == ""
      ensures paint.color == WHITE && paint.textSize == (bitmapNormal.height / 2) as real
    {
      layer := new Layer();
      this.latLong := latLong;
      bitmap := Some(bitmapNormal);
      horizontalOffset := 0;
      verticalOffset := -(bitmapNormal.height / 2);
      this.bitmapNormal := bitmapNormal;
      this.bitmapMoving := bitmapMoving;
      wasMoved := false;
      viaIndex := "";
      var p := new Paint(WHITE, 0.0);
      p.textSize := (bitmapNormal.height / 2) as real;
      paint := p;
    }

    /** What one draw call does: nothing without a position or a live bitmap, a
        NullPointerException without a display model, nothing when the pin is off
        the canvas, and otherwise the pin followed by its number, if it has one. */
    function Drawing(zoomLevel: int, canvas: Canvas, topLeftPoint: Point, degreeRad: real,
                     ext: Externals, trig: Trig): (r: DrawResult)
      reads this, layer, paint
      ensures r == NullDereference <==>
                latLong.Some? && bitmap.Some? && !bitmap.value.destroyed && layer.displayModel.None?
      ensures r.Drawn? && r.cmds != [] ==>
                bitmap.Some? && r.cmds[0].DrawBitmap? && r.cmds[0].bitmap == bitmap.value
                && |r.cmds| == (if viaIndex == "" then 1 else 2)
      ensures r.Drawn? && |r.cmds| == 2 ==>
                r.cmds[1].DrawText? && r.cmds[1].text == viaIndex && r.cmds[1].color == paint.color
                && r.cmds[0].left as real <= r.cmds[1].x <= (r.cmds[0].left + bitmap.value.width) as real
                && r.cmds[0].top as real <= r.cmds[1].y <= (r.cmds[0].top + bitmap.value.height) as real
    {
      if latLong.None? || bitmap.None? || bitmap.value.destroyed then Drawn([])
      else if layer.displayModel.None? then NullDereference
      else
        var mapSize := ext.mapSize(zoomLevel, layer.displayModel.value.tileSize);
        var point := Frame(ext, trig, mapSize, topLeftPoint, degreeRad, canvas).PointOf(latLong.value);
        var rect := PinRect(point, bitmap.value);
        if !ext.intersects(canvas.Bounds(), rect.AsRectangle()) then Drawn([])
        else
          var textAt := LabelPoint(rect, bitmap.value);
          Drawn([DrawBitmap(bitmap.value, rect.left, rect.top)]
                + (if viaIndex == "" then [] else [DrawText(viaIndex, textAt.x, textAt.y, paint.color)]))
    }

    /** A draw puts something on the canvas exactly when the pin has a position, a
        live bitmap and a display model and its rectangle meets the canvas; it is
        then the bitmap at the rectangle of the projected point, followed by the
        number at the label point of that rectangle. */
    lemma DrawingPlacement(zoomLevel: int, canvas: Canvas, topLeftPoint: Point, degreeRad: real,
                           ext: Externals, trig: Trig)
      ensures var r := Drawing(zoomLevel, canvas, topLeftPoint, degreeRad, ext, trig);
        (r.Drawn? && r.cmds != []) <==>
          (&& latLong.Some? && bitmap.Some? && !bitmap.value.destroyed && layer.displayModel.Some?
           && ext.intersects(canvas.Bounds(), PinRect(Frame(ext, trig, ext.mapSize(zoomLevel, layer.displayModel.value.tileSize),
                                                            topLeftPoint, degreeRad, canvas).PointOf(latLong.value),
                                                      bitmap.value).AsRectangle()))
      ensures var r := Drawing(zoomLevel, canvas, topLeftPoint, degreeRad, ext, trig);
        r.Drawn? && r.cmds != [] ==>
          var rect := PinRect(Frame(ext, trig, ext.mapSize(zoomLevel, layer.displayModel.value.tileSize),
                                    topLeftPoint, degreeRad, canvas).PointOf(latLong.value), bitmap.value);
          var at := LabelPoint(rect, bitmap.value);
          && r.cmds[0] == DrawBitmap(bitmap.value, rect.left, rect.top)
          && (viaIndex != "" ==> r.cmds[1] == DrawText(viaIndex, at.x, at.y, paint.color))
    {
    }

    method Draw(zoomLevel: int, canvas: Canvas, topLeftPoint: Point, degreeRad: real, ext: Externals, rot: RotationUtil)
      returns (r: DrawResult)
      requires rot.Coherent()
      modifies rot
      ensures rot.Coherent()
      ensures r == old(Drawing(zoomLevel, canvas, topLeftPoint, degreeRad, ext, rot.trig))
    {
      if latLong.None? || bitmap.None? || bitmap.value.destroyed {
        return Drawn([]);
      }
      if layer.displayModel.None? {
        return NullDereference;
      }
      var mapSize := ext.mapSize(zoomLevel, layer.displayModel.value.tileSize);
      var point := ScreenPoint(latLong.value, ext, mapSize, topLeftPoint, degreeRad, canvas, rot);
      var b := bitmap.value;
      var left := Trunc(point.x - (b.width / 2) as real);
      var top := Trunc(point.y - b.height as real);
      var right := left + b.width;
      var bottom := top + b.height;
      var bitmapRectangle := Rectangle(left as real, top as real, right as real, bottom as real);
      var canvasRectangle := Rectangle(0.0, 0.0, canvas.width as real, canvas.height as real);
      if !ext.intersects(canvasRectangle, bitmapRectangle) {
        return Drawn([]);
      }
      var cmds := [DrawBitmap(b, left, top)];
      if viaIndex != "" {
        cmds := cmds + [DrawText(viaIndex, (left + b.width / 2) as real, (top + b.height * 6 / 10) as real, paint.color)];
      }
      r := Drawn(cmds);
    }

    /** Shows the moving bitmap while the pin is dragged and the normal one after;
        resizes the label to the new bitmap and clears the moved flag. A missing
        moving bitmap throws a NullPointerException (`completed` is false) once the
        bitmap has been cleared, before anything else changes. */
    method SetIsBeingMoved(isBeingMoved: bool) returns (completed: bool)
      modifies this`bitmap, this`wasMoved, paint`textSize, layer`redrawRequests
      ensures bitmap == if isBeingMoved then bitmapMoving else Some(bitmapNormal)
      ensures completed <==> bitmap.Some?
      ensures completed ==> paint.textSize == (bitmap.value.height / 2) as real && !wasMoved
      ensures completed ==> layer.redrawRequests == old(layer.redrawRequests) + layer.RedrawNotice()
      ensures !completed ==> wasMoved == old(wasMoved) && paint.textSize == old(paint.textSize)
      ensures !completed ==> layer.redrawRequests == old(layer.redrawRequests)
    {
      if isBeingMoved {
        bitmap := bitmapMoving;
      } else {
        bitmap := Some(bitmapNormal);
      }
      if bitmap.None? {
        return false;
      }
      paint.textSize := (bitmap.value.height / 2) as real;
      wasMoved := false;
      layer.RequestRedraw();
      completed := true;
    }

    method SetViaIndex(iViaIndex: int32)
      modifies this`viaIndex, layer`redrawRequests
      ensures viaIndex == ViaIndexText(iViaIndex)
      ensures layer.redrawRequests == old(layer.redrawRequests) + layer.RedrawNotice()
    {
      if iViaIndex == -1 {
        viaIndex := "";
      } else {
        viaIndex := DecimalString(Wrap32(iViaIndex as int + 1) as int);
      }
      layer.RequestRedraw();
    }

    /** Moving the pin raises the moved flag. */
    method SetLatLong(latLong: Option<LatLong>)
      modifies this`wasMoved, this`latLong
      ensures wasMoved && this.latLong == latLong
    {
      wasMoved := true;
      this.latLong := latLong;
    }

    method GetWasMoved() returns (moved: bool)
      ensures moved == wasMoved
    {
      moved := wasMoved;
    }
  }

  /** A pin moved and then released reports no move: releasing clears the flag
      that moving raised. */
  method MoveThenRelease(start: LatLong, target: LatLong, normal: Bitmap, moving: Bitmap)
  {
    var m := new MarkerMovableLocation(Some(start), normal, Some(moving));
    var moved := m.GetWasMoved();
    assert !moved;
    var ok := m.SetIsBeingMoved(true);
    assert ok && m.bitmap == Some(moving);
    m.SetLatLong(Some(target));
    moved := m.GetWasMoved();
    assert moved;
    ok := m.SetIsBeingMoved(false);
    moved := m.GetWasMoved();
    assert ok && !moved && m.bitmap == Some(normal);
  }
}
