/** AndroidPointTextContainer: a text label placed next to a point. Its constructor
    wraps long labels and lays out the label's box from the position; `draw` puts
    the text on the canvas, first with the back (halo) paint and then with the
    front paint, both tinted by the colour filter for the duration of the call. */
module PointText {
  import opened Graphics
  import opened Rotation
  import opened LabelWrap

  /** Where the label sits relative to its point. */
  datatype Position = AUTO | CENTER | BELOW | BELOW_LEFT | BELOW_RIGHT | ABOVE | ABOVE_LEFT | ABOVE_RIGHT | LEFT | RIGHT

  /** The label's box relative to its point, for a text of `boxWidth` by
      `boxHeight`. Every position but AUTO lays out a box of exactly that size on
      the side the position names; AUTO keeps the boundary the label already had. */
  function BoundaryFor(position: Position, boxWidth: real, boxHeight: real, inherited: Option<Rectangle>): (b: Option<Rectangle>)
    ensures position == AUTO ==> b == inherited
    ensures position != AUTO ==>
              b.Some? && b.value.Width() == boxWidth && b.value.Height() == boxHeight
    ensures position in {BELOW_LEFT, ABOVE_LEFT, LEFT} ==> b.Some? && b.value.right == 0.0
    ensures position in {BELOW_RIGHT, ABOVE_RIGHT, RIGHT} ==> b.Some? && b.value.left == 0.0
    ensures position in {CENTER, BELOW, ABOVE} ==> b.Some? && b.value.left == -b.value.right
    ensures position in {BELOW, BELOW_LEFT, BELOW_RIGHT} ==> b.Some? && b.value.top == 0.0
    ensures position in {ABOVE, ABOVE_LEFT, ABOVE_RIGHT} ==> b.Some? && b.value.bottom == 0.0
    ensures position in {CENTER, LEFT, RIGHT} ==> b.Some? && b.value.top == -b.value.bottom
    ensures position != AUTO && boxWidth >= 0.0 && boxHeight >= 0.0 ==>
              b.Some? && b.value.left <= 0.0 <= b.value.right && b.value.top <= 0.0 <= b.value.bottom
  {
    match position
    case CENTER => Some(Rectangle(-boxWidth / 2.0, -boxHeight / 2.0, boxWidth / 2.0, boxHeight / 2.0))
    case BELOW => Some(Rectangle(-boxWidth / 2.0, 0.0, boxWidth / 2.0, boxHeight))
    case BELOW_LEFT => Some(Rectangle(-boxWidth, 0.0, 0.0, boxHeight))
    case BELOW_RIGHT => Some(Rectangle(0.0, 0.0, boxWidth, boxHeight))
    case ABOVE => Some(Rectangle(-boxWidth / 2.0, -boxHeight, boxWidth / 2.0, 0.0))
    case ABOVE_LEFT => Some(Rectangle(-boxWidth, -boxHeight, 0.0, 0.0))
    case ABOVE_RIGHT => Some(Rectangle(0.0, -boxHeight, boxWidth, 0.0))
    case LEFT => Some(Rectangle(-boxWidth, -boxHeight / 2.0, 0.0, boxHeight / 2.0))
    case RIGHT => Some(Rectangle(0.0, -boxHeight / 2.0, boxWidth, boxHeight / 2.0))
    case AUTO => inherited
  }

  /** How far below the point the text's base line goes: the text is drawn from
      its base line, so the base line is moved down to the bottom of the box. */
  function TextOffset(position: Position, textHeight: real): (o: real)
    ensures position == AUTO ==> o == 0.0
    ensures position != AUTO ==> o == BoundaryFor(position, 0.0, textHeight, None).value.bottom
  {
    match position
    case CENTER | LEFT | RIGHT => textHeight / 2.0
    case BELOW | BELOW_LEFT | BELOW_RIGHT => textHeight
    case _ => 0.0
  }

  /** Whatever the text's width, the base line lands on the bottom edge of the box. */
  lemma BaselineOnBoxBottom(position: Position, boxWidth: real, textHeight: real, inherited: Option<Rectangle>)
    requires position != AUTO
    ensures TextOffset(position, textHeight) == BoundaryFor(position, boxWidth, textHeight, inherited).value.bottom
  {
  }

  /** The colour a paint is drawn with under `filter`. */
  function Shown(color: int, filter: Filter, ext: Externals): int {
    if filter != NoFilter then ext.filterColor(color, filter) else color
  }

  /** What the constructor's wrap step does with a label: nothing for a short label
      or one without spaces; the wrapped text; or an ArrayIndexOutOfBoundsException
      when the split leaves no field at all. */
  datatype Wrap = NotWrapped | WrappedText(lines: string) | NoFields

  /** The wrap step of the constructor. */
  method LineBreakText(text: string) returns (w: Wrap)
    ensures !(|text| > LINE_LIMIT && ' ' in text) ==> w == NotWrapped
    ensures |text| > LINE_LIMIT && Blank(text) ==> w == NoFields
    ensures |text| > LINE_LIMIT && ' ' in text && !Blank(text) ==>
              w == WrappedText(Lines(Greedy(SplitOnSpace(text))))
  {
    assert |text| > LINE_LIMIT && Blank(text) ==> ' ' in text by {
      if |text| > LINE_LIMIT && Blank(text) {
        assert text[0] == ' ';
      }
    }
    if |text| > LINE_LIMIT && ' ' in text {
      var splitText := SplitOnSpace(text);
      if |splitText| == 0 {
        return NoFields;
      }
      var linebreakText, charCount := WrapWords(splitText);
      w := WrappedText(linebreakText);
    } else {
      w := NotWrapped;
    }
  }

  /** The wrapped label is the label without its trailing spaces, with some of its
      spaces turned into line breaks. */
  lemma WrapKeepsText(text: string)
    requires ' ' in text && !Blank(text)
    ensures var lines := Lines(Greedy(SplitOnSpace(text)));
      && |lines| <= |text|
      && Unbreak(lines) == Unbreak(text[..|lines|])
      && Blank(text[|lines|..])
  {
    var split := SplitOnSpace(text);
    SplitShape(text);
    WrapOnlyChangesSeparators(split);
    var joined := Join(' ', split);
    assert |Unbreak(Lines(Greedy(split)))| == |Unbreak(joined)|;
    assert text[..|joined|] == joined;
  }

  class PointTextContainer {
    const xy: Point
    const text: string
    const paintFront: Paint
    const paintBack: Paint?
    const position: Position
    const textWidth: real
    const textHeight: real
    const boundary: Option<Rectangle>
    var isVisible: bool

    /** The fields once construction is over. The measured text size, the boundary
        the superclass left and the visibility flag come from the superclass'
        constructor. */
    constructor (xy: Point, text: string, paintFront: Paint, paintBack: Paint?, position: Position,
                 textWidth: real, textHeight: real, inherited: Option<Rectangle>, isVisible: bool)
      ensures this.xy == xy && this.text == text && this.position == position
      ensures this.paintFront == paintFront && this.paintBack == paintBack
      ensures this.textWidth == textWidth && this.textHeight == textHeight
      ensures boundary == BoundaryFor(position, textWidth, textHeight, inherited)
      ensures this.isVisible == isVisible
    {
      this.xy := xy;
      this.text := text;
      this.paintFront := paintFront;
      this.paintBack := paintBack;
      this.position := position;
      this.textWidth := textWidth;
      this.textHeight := textHeight;
      boundary := BoundaryFor(position, textWidth, textHeight, inherited);
      this.isVisible := isVisible;
    }

    /** The whole Java constructor: the wrap step, which throws (null here) for a
        label of more than 15 spaces and nothing else, and whose result is not
        kept, then the box layout. */
    static method Create(xy: Point, text: string, paintFront: Paint, paintBack: Paint?, position: Position,
                         textWidth: real, textHeight: real, inherited: Option<Rectangle>, isVisible: bool)
      returns (c: PointTextContainer?)
      ensures c == null <==> |text| > LINE_LIMIT && Blank(text)
      ensures c != null ==> fresh(c) && c.text == text && c.xy == xy && c.position == position
      ensures c != null ==> c.paintFront == paintFront && c.paintBack == paintBack
      ensures c != null ==> c.boundary == BoundaryFor(position, textWidth, textHeight, inherited)
      ensures c != null ==> c.textWidth == textWidth && c.textHeight == textHeight && c.isVisible == isVisible
    {
      var w := LineBreakText(text);
      if w == NoFields {
        return null;
      }
      c := new PointTextContainer(xy, text, paintFront, paintBack, position, textWidth, textHeight, inherited, isVisible);
    }

    /** The back paint when there is one: the paints whose colour `draw` changes
        are the front paint and this one. */
    function BackOrFront(): Paint
      reads this
    {
      if paintBack == null then paintFront else paintBack
    }

    /** Where the text's base line starts: the point relative to `origin`, moved
        down by the text offset, then rotated about the canvas centre. */
    function Anchor(canvas: Canvas, origin: Point, degreeRad: real, trig: Trig): Point
      reads this
    {
      RotatedPoint(trig, xy.x - origin.x, xy.y - origin.y + TextOffset(position, textHeight), degreeRad,
                   canvas.HalfWidth(), canvas.HalfHeight())
    }

    /** The text commands of one visible draw at `p`: the back paint's (when there
        is one) and then the front paint's, the same text at the same point. */
    function Labels(p: Point, filter: Filter, ext: Externals): (cmds: seq<DrawCmd>)
      reads this, paintFront, paintBack
      ensures |cmds| == (if paintBack == null then 1 else 2)
      ensures forall k :: 0 <= k < |cmds| ==>
                cmds[k].DrawText? && cmds[k].text == text && cmds[k].x == p.x && cmds[k].y == p.y
      ensures paintBack != null ==> cmds[0].color == Shown(paintBack.color, filter, ext)
      ensures cmds[|cmds| - 1].color == Shown(paintFront.color, filter, ext)
    {
      (if paintBack != null then [DrawText(text, p.x, p.y, Shown(paintBack.color, filter, ext))] else [])
      + [DrawText(text, p.x, p.y, Shown(paintFront.color, filter, ext))]
    }

    /** `draw`: nothing while invisible; otherwise the labels at the anchor, each
        drawn in its paint's filtered colour, and both paints left with the colour
        they had. */
    method Draw(canvas: Canvas, origin: Point, filter: Filter, degreeRad: real, ext: Externals, rot: RotationUtil)
      returns (cmds: seq<DrawCmd>)
      requires rot.Coherent()
      modifies rot, paintFront`color, BackOrFront()`color
      ensures rot.Coherent()
      ensures !isVisible ==> cmds == [] && unchanged(rot)
      ensures isVisible ==> cmds == old(Labels(Anchor(canvas, origin, degreeRad, rot.trig), filter, ext))
      ensures paintFront.color == old(paintFront.color)
      ensures paintBack != null ==> paintBack.color == old(paintBack.color)
    {
      if !isVisible {
        return [];
      }
      ghost var expected := Labels(Anchor(canvas, origin, degreeRad, rot.trig), filter, ext);
      var textOffset := TextOffset(position, textHeight);
      var point := rot.GetRotatedPoint(xy.x - origin.x, xy.y - origin.y + textOffset, degreeRad,
                                       canvas.HalfWidth(), canvas.HalfHeight());
      cmds := [];
      if paintBack != null {
        var color := paintBack.color;
        if filter != NoFilter {
          paintBack.color := ext.filterColor(color, filter);
        }
        cmds := cmds + [DrawText(text, point.x, point.y, paintBack.color)];
        if filter != NoFilter {
          paintBack.color := color;
        }
      }
      var color := paintFront.color;
      if filter != NoFilter {
        paintFront.color := ext.filterColor(color, filter);
      }
      cmds := cmds + [DrawText(text, point.x, point.y, paintFront.color)];
      if filter != NoFilter {
        paintFront.color := color;
      }
      assert cmds == expected;
    }
  }
}
