/** Values shared by the overlay renderers: geographic and screen points,
    rectangles, bitmaps, paints, the commands a renderer issues to its canvas,
    and the collaborators whose code is not part of this model. */
module Graphics {

  datatype Option<T> = None | Some(value: T)

  /** A pixel position in viewport space (a pair of doubles in the source). */
  datatype Point = Point(x: real, y: real)

  datatype LatLong = LatLong(latitude: real, longitude: real)

  datatype BoundingBox = BoundingBox(minLatitude: real, minLongitude: real, maxLatitude: real, maxLongitude: real)

  datatype Rectangle = Rectangle(left: real, top: real, right: real, bottom: real) {
    function Width(): real { right - left }
    function Height(): real { bottom - top }
  }

  /** A rectangle whose corners were computed in `int` pixels. */
  datatype IntRect = IntRect(left: int, top: int, right: int, bottom: int) {
    function AsRectangle(): Rectangle {
      Rectangle(left as real, top as real, right as real, bottom as real)
    }
  }

  /** A bitmap as the renderers see it: its size in pixels and whether it was destroyed. */
  datatype Bitmap = Bitmap(id: nat, width: nat, height: nat, destroyed: bool)

  /** The size of the canvas a layer draws on. */
  datatype Canvas = Canvas(width: nat, height: nat) {
    function HalfWidth(): real { 0.5 * width as real }
    function HalfHeight(): real { 0.5 * height as real }
    /** `new Rectangle(0, 0, canvas.getWidth(), canvas.getHeight())` */
    function Bounds(): Rectangle { Rectangle(0.0, 0.0, width as real, height as real) }
  }

  datatype PathOp = MoveTo(x: int, y: int) | LineTo(x: int, y: int)

  datatype CircleRole = StrokeRole | FillRole

  /** One call a renderer makes on its canvas. */
  datatype DrawCmd =
    | DrawBitmap(bitmap: Bitmap, left: int, top: int)
    | DrawText(text: string, x: real, y: real, color: int)
    | DrawPath(path: seq<PathOp>, strokeWidth: real)
    | DrawCircle(cx: int, cy: int, radius: int, role: CircleRole)
    | Save
    | Rotate(degrees: real, px: real, py: real)
    | Restore

  /** What a draw call did: the canvas calls it issued, or the NullPointerException
      it throws (in every such case before any canvas call). */
  datatype DrawResult = Drawn(cmds: seq<DrawCmd>) | NullDereference

  /** A colour filter; the concrete filters are not part of this model. */
  datatype Filter = NoFilter | ColorFilter(kind: nat)

  /** Code these renderers call but that is not part of this model: the Mercator
      projection, the rectangle and bounding-box intersection tests, the
      radian-to-degree conversion and the colour filter. */
  datatype Externals = Externals(
    mapSize: (int, int) -> int,
    longitudeToPixelX: (real, int) -> real,
    latitudeToPixelY: (real, int) -> real,
    metersToPixels: (real, real, int) -> real,
    intersects: (Rectangle, Rectangle) -> bool,
    intersectsCircle: (Rectangle, real, real, real) -> bool,
    boxIntersects: (BoundingBox, BoundingBox) -> bool,
    toDegrees: real -> real,
    filterColor: (int, Filter) -> int)

  /** The pixel position of `ll` on a map of `mapSize` pixels, relative to the
      canvas' top-left corner `topLeft`. */
  function Project(ext: Externals, ll: LatLong, mapSize: int, topLeft: Point): Point {
    Point(ext.longitudeToPixelX(ll.longitude, mapSize) - topLeft.x,
          ext.latitudeToPixelY(ll.latitude, mapSize) - topLeft.y)
  }

  /** A drawing style that the renderers change while drawing. */
  class Paint {
    var color: int
    var strokeWidth: real
    var textSize: real
    var bitmapShaderShift: Option<Point>

    constructor (color: int, strokeWidth: real)
      ensures this.color == color && this.strokeWidth == strokeWidth
      ensures textSize == 0.0 && bitmapShaderShift == None
    {
      this.color := color;
      this.strokeWidth := strokeWidth;
      textSize := 0.0;
      bitmapShaderShift := None;
    }
  }
}
