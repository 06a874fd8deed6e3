# mapsforge overlay rendering, modelled in Dafny

This project models the overlay-drawing core of a mapsforge fork. It covers:

- the rotation helper with its one-entry sine/cosine cache (`RotationUtil`);
- the base `Layer`: visibility, the display model, and the assign/unassign life cycle of the redrawer;
- `Polyline`: drawing a route or track with level-of-detail decimation, the zoom-dependent stroke width, the developer-mode vertex labels and bounding-box culling;
- `AndroidPointTextContainer`: wrapping long labels, laying out the label box and drawing the label with halo and front paints;
- `MarkerMovableLocation`: a draggable pin that shows the number of its via point;
- `MarkerRotating`: a marker turned by its own angle and hidden at low zoom;
- `CircleView`: an Android view drawing a circle of a radius in metres, with radius validation.

A draw call is modelled as the list of canvas calls it makes (`Graphics.DrawCmd`). A draw that throws a `NullPointerException` before drawing anything becomes `NullDereference`. Code whose source is not part of this model is taken as function-valued parameters bundled in `Graphics.Externals`: the Mercator projection, the rectangle and bounding-box intersection tests, `Math.toDegrees` and the colour filter. `Math.sin`/`Math.cos` become `Rotation.Trig`. Each state-changing Java method is a Dafny method on a class. It is proved against a specification function, and the properties the code promises are proved about that function.

Files:

- `numbers.dfy`: Java `(int)` truncation, 32-bit wrap-around and `String.valueOf(int)`.
- `graphics.dfy`: shared values and the `Paint` class.
- `rotation.dfy`: `RotationUtil`.
- `layer.dfy`: `Layer`.
- `decimation.dfy`: the stride, walk and stroke-scaling rules of `Polyline.draw`.
- `polyline.dfy`: `Polyline`.
- `label_wrap.dfy`: Java `split(" ")` and the greedy 15-character line wrap.
- `point_text.dfy`: `AndroidPointTextContainer`.
- `marker_movable.dfy`, `marker_rotating.dfy` and `circle_view.dfy`: the markers and the circle view.

Where the code and its documentation disagree, the model follows the code:

- `Polyline.draw` always emits the last vertex, whatever the stride. A round of the inner `for` loop stops advancing at the end of the list and still emits the vertex it reached.
- The wrap loop of `AndroidPointTextContainer` does not count the separating space when it tests `charCount + length > 15`. So a line can reach 16 characters (`LabelWrap.GreedyLineLength`).
- The wrapped text `linebreakText` is never stored. The only observable effect of the wrap step on a container is the `ArrayIndexOutOfBoundsException` thrown for a label of more than 15 characters that are all spaces (`PointText.PointTextContainer.Create`).
- For position `AUTO`, the constructor's `switch` leaves the boundary computed by the superclass in place.

## Model

| member | source | states |
|---|---|---|
| Numbers.Trunc | mapsforge-map/src/main/java/org/mapsforge/map/layer/overlay/Polyline.java:155 | Java's `(int)` cast of a double rounds toward zero: the result is within one of the value, on the zero side |
| Numbers.Wrap32 | mapsforge-map-android/src/main/java/org/mapsforge/map/android/layer/overlay/MarkerMovableLocation.java:70 | Java `int` addition: the value itself when it fits in 32 bits, otherwise congruent to it modulo 2^32 |
| Numbers.DecimalRoundTrip | mapsforge-map/src/main/java/org/mapsforge/map/layer/overlay/Polyline.java:155 | `String.valueOf(int)` yields a decimal numeral that reads back as the same number |
| Numbers.DecimalStringInjective | mapsforge-map/src/main/java/org/mapsforge/map/layer/overlay/Polyline.java:171 | different numbers get different labels |
| Rotation.FastPathIsRotation | mapsforge-core/src/main/java/org/mapsforge/core/util/RotationUtil.java:25-39 | with sin 0 = 0 and cos 0 = 1, the angle-0 fast path returns what the rotation formula would |
| Rotation.PivotIsFixed | mapsforge-core/src/main/java/org/mapsforge/core/util/RotationUtil.java:29-38 | the centre of the canvas does not move under rotation |
| Rotation.RotateAboutInverse | mapsforge-core/src/main/java/org/mapsforge/core/util/RotationUtil.java:36-38 | rotating by the matrix of (s, c) and then by that of (-s, c) restores the point when s² + c² = 1 |
| Rotation.RotatedPointInverse | mapsforge-core/src/main/java/org/mapsforge/core/util/RotationUtil.java:25-39 | rotating by -a undoes rotating by a |
| Rotation.RotationUtil.constructor | mapsforge-core/src/main/java/org/mapsforge/core/util/RotationUtil.java:21-23 | the cache starts at angle 0 with sine 0 and cosine 1, which is coherent |
| Rotation.RotationUtil.GetRotatedPoint | mapsforge-core/src/main/java/org/mapsforge/core/util/RotationUtil.java:25-40 | returns the point rotated by the sine and cosine of the requested angle, whatever the cache held; keeps the cache coherent; refills it only for a new non-zero angle |
| Rotation.RotationUtil.GetRotatedPointOf | mapsforge-core/src/main/java/org/mapsforge/core/util/RotationUtil.java:42-48 | angle 0 returns the same point and leaves the cache alone; otherwise the same result as the coordinate overload |
| Rotation.ScreenPoint | mapsforge-map/src/main/java/org/mapsforge/map/layer/overlay/Polyline.java:145-151 | a geographic point is projected relative to the top-left corner and rotated about the canvas centre |
| Layers.Layer.constructor | mapsforge-map/src/main/java/org/mapsforge/map/layer/Layer.java:26-29 | a new layer is visible, unassigned and has no display model |
| Layers.Layer.RedrawNotice | mapsforge-map/src/main/java/org/mapsforge/map/layer/Layer.java:67-71 | a redraw request notifies the assigned redrawer exactly once, and nobody while unassigned |
| Layers.Layer.RequestRedraw | mapsforge-map/src/main/java/org/mapsforge/map/layer/Layer.java:67-71 | appends that notification to the layer's redraw trace |
| Layers.Layer.GetDisplayModel | mapsforge-map/src/main/java/org/mapsforge/map/layer/Layer.java:78-80 | returns the display model |
| Layers.Layer.SetDisplayModel | mapsforge-map/src/main/java/org/mapsforge/map/layer/Layer.java:88-90 | stores the display model |
| Layers.Layer.SetVisible | mapsforge-map/src/main/java/org/mapsforge/map/layer/Layer.java:97-99 | sets the flag and always requests a redraw |
| Layers.Layer.SetVisibleRedraw | mapsforge-map/src/main/java/org/mapsforge/map/layer/Layer.java:104-110 | sets the flag and requests a redraw exactly when asked to |
| Layers.Layer.Assign | mapsforge-map/src/main/java/org/mapsforge/map/layer/Layer.java:126-133 | attaches a redrawer; on an attached layer throws IllegalStateException("layer already assigned") and keeps the first redrawer |
| Layers.Layer.Unassign | mapsforge-map/src/main/java/org/mapsforge/map/layer/Layer.java:135-142 | detaches the redrawer; on an unattached layer throws IllegalStateException("layer is not assigned"); either way the layer ends unassigned |
| Decimation.Stride | mapsforge-map/src/main/java/org/mapsforge/map/layer/overlay/Polyline.java:118-140 | the vertex stride lies between 1 and 20; it is 1 for TESTING and above zoom 16; a ROUTE stride is at most 8 and is 1 exactly above zoom 12 |
| Decimation.StrideNonIncreasing | mapsforge-map/src/main/java/org/mapsforge/map/layer/overlay/Polyline.java:118-140 | zooming in never increases the stride |
| Decimation.ScaleDownCount | mapsforge-map/src/main/java/org/mapsforge/map/layer/overlay/Polyline.java:111-115 | the stroke is divided at most 6 times, 6 times up to zoom 14, 20 - zoom times between 14 and 20, and never from zoom 20 on |
| Decimation.ScaleDownStroke | mapsforge-map/src/main/java/org/mapsforge/map/layer/overlay/Polyline.java:110-116 | the loop's width times 1.5 to the power of the count gives back the initial width |
| Decimation.WalkLength | mapsforge-map/src/main/java/org/mapsforge/map/layer/overlay/Polyline.java:157-194 | a walk from position p emits ceil((n - p) / stride) vertices |
| Decimation.WalkElements | mapsforge-map/src/main/java/org/mapsforge/map/layer/overlay/Polyline.java:157-194 | the j-th emitted vertex is min(p - 1 + (j + 1) · stride, n - 1) |
| Decimation.WalkOrdered | mapsforge-map/src/main/java/org/mapsforge/map/layer/overlay/Polyline.java:157-194 | the emitted indices are in range, strictly increasing and end on the last vertex |
| Decimation.RetainedShape | mapsforge-map/src/main/java/org/mapsforge/map/layer/overlay/Polyline.java:144-194 | the drawn vertices are 0, then min(k · stride, n - 1); there are 1 + ceil((n - 1) / stride) of them, strictly increasing, from the first vertex to the last |
| Decimation.RouteAtZoomEight | mapsforge-map/src/main/java/org/mapsforge/map/layer/overlay/Polyline.java:121-122 | a 100-vertex route at zoom 8 draws vertices 0, 8, …, 96 and 99 |
| Polylines.VertexPointsShape | mapsforge-map/src/main/java/org/mapsforge/map/layer/overlay/Polyline.java:146-151 | the k-th drawn point is where the k-th retained vertex lands on screen |
| Polylines.PathOfShape | mapsforge-map/src/main/java/org/mapsforge/map/layer/overlay/Polyline.java:175-193 | the path is a moveTo to the first point's `(int)` coordinates, then one lineTo per further point |
| Polylines.IndexLabelsShape | mapsforge-map/src/main/java/org/mapsforge/map/layer/overlay/Polyline.java:153-173 | in developer mode the k-th point is labelled with the number k at its `(int)` coordinates |
| Polylines.InvisibleDrawsNothing | mapsforge-map/src/main/java/org/mapsforge/map/layer/overlay/Polyline.java:95-108 | an empty polyline, one without a stroke, and one whose bounding box misses the viewport draw nothing; without a bounding box there is no culling |
| Polylines.VisibleDrawing | mapsforge-map/src/main/java/org/mapsforge/map/layer/overlay/Polyline.java:110-200 | a visible polyline draws one point per retained vertex, from the first vertex to the last; this is either one path with the scaled stroke width, or in developer mode the labels 0, 1, … and no path |
| Polylines.BoundsOf | mapsforge-map/src/main/java/org/mapsforge/map/layer/overlay/Polyline.java:236-251 | the min/max loop yields a box holding every vertex, each side reached by some vertex |
| Polylines.AdvanceIterator | mapsforge-map/src/main/java/org/mapsforge/map/layer/overlay/Polyline.java:158-162 | one round of the inner loop advances up to the stride, stops at the end of the list, and holds the last vertex it consumed |
| Polylines.TracePath | mapsforge-map/src/main/java/org/mapsforge/map/layer/overlay/Polyline.java:175-194 | the path loop builds the path through the retained vertices' screen points |
| Polylines.TraceLabels | mapsforge-map/src/main/java/org/mapsforge/map/layer/overlay/Polyline.java:153-173 | the label loop labels each retained vertex with its running number |
| Polylines.Polyline.constructor | mapsforge-map/src/main/java/org/mapsforge/map/layer/overlay/Polyline.java:81-91 | a new polyline is empty and visible; its initial stroke width is the paint's width when there is a paint |
| Polylines.Polyline.Draw | mapsforge-map/src/main/java/org/mapsforge/map/layer/overlay/Polyline.java:94-201 | issues what PolylineDrawing prescribes; a drawn polyline leaves the paint at the scaled width, and with keepAligned its shader is shifted to the top-left point; the paint's colour and text size never change, nor does its shader shift off that path; an undrawn one leaves the paint untouched |
| Polylines.Polyline.SetPaintStroke | mapsforge-map/src/main/java/org/mapsforge/map/layer/overlay/Polyline.java:228-234 | replaces the stroke, takes a non-null stroke's width as the new initial width, and requests a redraw |
| Polylines.Polyline.SetDeveloperModeEnabled | mapsforge-map/src/main/java/org/mapsforge/map/layer/overlay/Polyline.java:255-264 | sets the flag and builds a label paint with the stroke's colour and 0.3 times its width; without a stroke it throws a NullPointerException and does not request a redraw |
| Polylines.Polyline.FinalizeCoordinates | mapsforge-map/src/main/java/org/mapsforge/map/layer/overlay/Polyline.java:236-253 | the culling box encloses every vertex; on an empty list it throws and keeps the old box |
| LabelWrap.FieldsRoundTrip | mapsforge-map-android/src/main/java/org/mapsforge/map/android/graphics/AndroidPointTextContainer.java:38 | the space-separated fields contain no space and join back to the text |
| LabelWrap.FieldsEmptyIffBlank | mapsforge-map-android/src/main/java/org/mapsforge/map/android/graphics/AndroidPointTextContainer.java:38 | every field is empty exactly when the text is all spaces |
| LabelWrap.DropEmptyIffAllEmpty | mapsforge-map-android/src/main/java/org/mapsforge/map/android/graphics/AndroidPointTextContainer.java:38 | dropping trailing empty fields leaves nothing exactly when every field is empty |
| LabelWrap.DropTrailingJoin | mapsforge-map-android/src/main/java/org/mapsforge/map/android/graphics/AndroidPointTextContainer.java:38 | what `split` keeps joins to a prefix of the text, and what it drops is only spaces |
| LabelWrap.SplitOnSpace | mapsforge-map-android/src/main/java/org/mapsforge/map/android/graphics/AndroidPointTextContainer.java:38 | `split(" ")` returns no field exactly for a non-empty text made only of spaces; a text without a space, the empty one included, is its own single field |
| LabelWrap.SplitOnSpaceExamples | mapsforge-map-android/src/main/java/org/mapsforge/map/android/graphics/AndroidPointTextContainer.java:38 | the empty text splits into one empty field, three spaces into none |
| LabelWrap.SplitShape | mapsforge-map-android/src/main/java/org/mapsforge/map/android/graphics/AndroidPointTextContainer.java:38 | no field contains a space, and the fields joined by spaces are the text without its trailing spaces |
| LabelWrap.GreedyShape | mapsforge-map-android/src/main/java/org/mapsforge/map/android/graphics/AndroidPointTextContainer.java:41-50 | the wrap keeps every word in order, puts at least one word on each line, breaks only when the next word would overflow, and never breaks when it fits |
| LabelWrap.GreedyLineLength | mapsforge-map-android/src/main/java/org/mapsforge/map/android/graphics/AndroidPointTextContainer.java:43 | every line of two or more words is at most 16 characters, because the separator is not counted |
| LabelWrap.PlaceText | mapsforge-map-android/src/main/java/org/mapsforge/map/android/graphics/AndroidPointTextContainer.java:43-49 | one round appends the word after a newline and restarts the count when it overflows; otherwise it appends the word after a space and adds 1 plus its length to the count |
| LabelWrap.WrapOnlyChangesSeparators | mapsforge-map-android/src/main/java/org/mapsforge/map/android/graphics/AndroidPointTextContainer.java:41-50 | the wrapped text is the words joined by spaces, with some of the spaces turned into newlines |
| LabelWrap.WrappedIsGreedy | mapsforge-map-android/src/main/java/org/mapsforge/map/android/graphics/AndroidPointTextContainer.java:39-50 | the loop's text and count are the greedy lines and the length of the last line |
| LabelWrap.WrapWords | mapsforge-map-android/src/main/java/org/mapsforge/map/android/graphics/AndroidPointTextContainer.java:39-50 | the loop computes the greedy lines and the length of the last line |
| PointText.BoundaryFor | mapsforge-map-android/src/main/java/org/mapsforge/map/android/graphics/AndroidPointTextContainer.java:53-86 | each named position gives a box of exactly the text's size on the side it names, containing the point; AUTO keeps the inherited boundary |
| PointText.TextOffset | mapsforge-map-android/src/main/java/org/mapsforge/map/android/graphics/AndroidPointTextContainer.java:99-113 | the base-line offset is the bottom of the position's box, and 0 for AUTO |
| PointText.BaselineOnBoxBottom | mapsforge-map-android/src/main/java/org/mapsforge/map/android/graphics/AndroidPointTextContainer.java:53-113 | whatever the text's width, the base line lands on the bottom edge of the box |
| PointText.LineBreakText | mapsforge-map-android/src/main/java/org/mapsforge/map/android/graphics/AndroidPointTextContainer.java:37-51 | a short label or one without spaces is not wrapped; a long label of only spaces throws; any other is wrapped greedily |
| PointText.WrapKeepsText | mapsforge-map-android/src/main/java/org/mapsforge/map/android/graphics/AndroidPointTextContainer.java:37-51 | the wrapped label is the label without its trailing spaces, with some spaces turned into newlines |
| PointText.PointTextContainer.constructor | mapsforge-map-android/src/main/java/org/mapsforge/map/android/graphics/AndroidPointTextContainer.java:33-86 | stores the fields and lays out the boundary from the position |
| PointText.PointTextContainer.Create | mapsforge-map-android/src/main/java/org/mapsforge/map/android/graphics/AndroidPointTextContainer.java:33-86 | construction fails exactly for a label of more than 15 characters that are all spaces; otherwise the container holds the laid-out boundary |
| PointText.PointTextContainer.Labels | mapsforge-map-android/src/main/java/org/mapsforge/map/android/graphics/AndroidPointTextContainer.java:124-141 | one visible draw writes the same text at the same point, back paint (when there is one) before front paint, each in its filtered colour |
| PointText.PointTextContainer.Draw | mapsforge-map-android/src/main/java/org/mapsforge/map/android/graphics/AndroidPointTextContainer.java:90-142 | an invisible container draws nothing; a visible one draws those labels at the rotated, offset anchor and leaves both paints with the colours they had |
| MovableMarkers.ViaIndexText | mapsforge-map-android/src/main/java/org/mapsforge/map/android/layer/overlay/MarkerMovableLocation.java:65-71 | the label is empty exactly for index -1 |
| MovableMarkers.ViaIndexNumbersFromOne | mapsforge-map-android/src/main/java/org/mapsforge/map/android/layer/overlay/MarkerMovableLocation.java:67-71 | any other index is shown as the next number, in decimal; only the largest `int` wraps to the smallest |
| MovableMarkers.ViaIndexExamples | mapsforge-map-android/src/main/java/org/mapsforge/map/android/layer/overlay/MarkerMovableLocation.java:67-71 | index -1 shows nothing, 0 shows "1" and 2 shows "3" |
| MovableMarkers.PinRect | mapsforge-map-android/src/main/java/org/mapsforge/map/android/layer/overlay/MarkerMovableLocation.java:102-105 | the pin is exactly the bitmap's size with its bottom centre on the point, to within a pixel |
| MovableMarkers.LabelPoint | mapsforge-map-android/src/main/java/org/mapsforge/map/android/layer/overlay/MarkerMovableLocation.java:112 | the via number is drawn on the pin |
| MovableMarkers.MarkerMovableLocation.constructor | mapsforge-map-android/src/main/java/org/mapsforge/map/android/layer/overlay/MarkerMovableLocation.java:43-51 | stores the offset (0, -(h/2)), which this class's draw does not read (the bitmap's bottom centre sits on the point, by `PinRect`); shows the normal bitmap with no number, and a white label paint of text size h/2 |
| MovableMarkers.MarkerMovableLocation.Drawing | mapsforge-map-android/src/main/java/org/mapsforge/map/android/layer/overlay/MarkerMovableLocation.java:88-116 | draws nothing without a position or a live bitmap; throws without a display model; otherwise the pin, then its number (when set) in the label paint on the pin |
| MovableMarkers.MarkerMovableLocation.DrawingPlacement | mapsforge-map-android/src/main/java/org/mapsforge/map/android/layer/overlay/MarkerMovableLocation.java:89-113 | something is drawn exactly when the pin has a position, a live bitmap and a display model and its rectangle meets the canvas; the bitmap is then at the PinRect of the projected point, and the number at the LabelPoint of that rectangle |
| MovableMarkers.MarkerMovableLocation.Draw | mapsforge-map-android/src/main/java/org/mapsforge/map/android/layer/overlay/MarkerMovableLocation.java:88-116 | issues exactly what Drawing prescribes and keeps the rotation cache coherent |
| MovableMarkers.MarkerMovableLocation.SetIsBeingMoved | mapsforge-map-android/src/main/java/org/mapsforge/map/android/layer/overlay/MarkerMovableLocation.java:53-63 | shows the moving bitmap while dragged and the normal one after, resizes the label and clears the moved flag; with no moving bitmap it throws after clearing the bitmap, changing nothing else |
| MovableMarkers.MarkerMovableLocation.SetViaIndex | mapsforge-map-android/src/main/java/org/mapsforge/map/android/layer/overlay/MarkerMovableLocation.java:65-73 | stores the via label and requests a redraw |
| MovableMarkers.MarkerMovableLocation.SetLatLong | mapsforge-map-android/src/main/java/org/mapsforge/map/android/layer/overlay/MarkerMovableLocation.java:75-80 | moving the pin raises the moved flag |
| MovableMarkers.MarkerMovableLocation.GetWasMoved | mapsforge-map-android/src/main/java/org/mapsforge/map/android/layer/overlay/MarkerMovableLocation.java:82-85 | reports the moved flag |
| RotatingMarkers.MarkerRect | mapsforge-map-android/src/main/java/org/mapsforge/map/android/layer/overlay/MarkerRotating.java:63-69 | the bitmap is exactly its size, centred on the point and moved by the offsets, to within a pixel |
| RotatingMarkers.Placement | mapsforge-map-android/src/main/java/org/mapsforge/map/android/layer/overlay/MarkerRotating.java:75-82 | the bitmap is drawn straight (a single command) exactly when the marker's angle is 0 |
| RotatingMarkers.BracketBalanced | mapsforge-map-android/src/main/java/org/mapsforge/map/android/layer/overlay/MarkerRotating.java:78-81 | a save, two drawing calls and a restore leave the canvas as it was |
| RotatingMarkers.PlacementShape | mapsforge-map-android/src/main/java/org/mapsforge/map/android/layer/overlay/MarkerRotating.java:75-82 | the bitmap is drawn exactly once, at its rectangle; at angle 0 it is the only command; otherwise the order is save, rotate by the map's angle in degrees plus the marker's own about the point, draw, restore, so the canvas is left balanced |
| RotatingMarkers.MarkerRotating.constructor | mapsforge-map-android/src/main/java/org/mapsforge/map/android/layer/overlay/MarkerRotating.java:31-36 | a new marker has angle 0 and is not always drawn |
| RotatingMarkers.MarkerRotating.Drawing | mapsforge-map-android/src/main/java/org/mapsforge/map/android/layer/overlay/MarkerRotating.java:48-86 | hidden at zoom 12 and below unless always drawn; throws without a display model; draws a single command exactly when the angle is 0 |
| RotatingMarkers.MarkerRotating.DrawingBalanced | mapsforge-map-android/src/main/java/org/mapsforge/map/android/layer/overlay/MarkerRotating.java:73-83 | whatever a draw issues draws this marker's bitmap and restores every canvas state it saves |
| RotatingMarkers.MarkerRotating.DrawingPlacement | mapsforge-map-android/src/main/java/org/mapsforge/map/android/layer/overlay/MarkerRotating.java:49-83 | something is drawn exactly when the marker has a position and a live bitmap, is always drawn or above zoom 12, has a display model, and its rectangle meets the canvas; the commands are then the placement of the bitmap at the MarkerRect of the projected point |
| RotatingMarkers.MarkerRotating.Draw | mapsforge-map-android/src/main/java/org/mapsforge/map/android/layer/overlay/MarkerRotating.java:48-86 | issues exactly what Drawing prescribes and keeps the rotation cache coherent |
| RotatingMarkers.MarkerRotating.SetRotation | mapsforge-map-android/src/main/java/org/mapsforge/map/android/layer/overlay/MarkerRotating.java:38-41 | stores the angle and requests a redraw |
| RotatingMarkers.MarkerRotating.SetIsAlwaysDrawn | mapsforge-map-android/src/main/java/org/mapsforge/map/android/layer/overlay/MarkerRotating.java:42-45 | stores the flag and requests a redraw |
| CircleViews.RadiusInPixels | mapsforge-map-android/src/main/java/org/mapsforge/map/android/view/CircleView.java:107-109 | the pixel radius is the converted radius truncated, so it is non-negative and less than a pixel short whenever the conversion is non-negative |
| CircleViews.Circles | mapsforge-map-android/src/main/java/org/mapsforge/map/android/view/CircleView.java:96-101 | one circle per paint present, all with the same centre and radius, the stroke before the fill |
| CircleViews.CircleView.constructor | mapsforge-map-android/src/main/java/org/mapsforge/map/android/view/CircleView.java:39-51 | a new view has no centre, no map view, no paints and radius 0 |
| CircleViews.CircleView.Initialize | mapsforge-map-android/src/main/java/org/mapsforge/map/android/view/CircleView.java:64-69 | stores the map view and both paints |
| CircleViews.CircleView.Drawing | mapsforge-map-android/src/main/java/org/mapsforge/map/android/view/CircleView.java:82-102 | draws nothing without a paint; throws without a centre or map view; draws nothing when the circle misses the canvas; otherwise exactly the circles of Circles: one per paint present, stroke before fill, at the view's integer centre with the truncated pixel radius |
| CircleViews.CircleView.Draw | mapsforge-map-android/src/main/java/org/mapsforge/map/android/view/CircleView.java:82-102 | issues exactly what Drawing prescribes |
| CircleViews.CircleView.SetLatLong | mapsforge-map-android/src/main/java/org/mapsforge/map/android/view/CircleView.java:115-118 | stores the centre and invalidates the view |
| CircleViews.CircleView.SetPaintFill | mapsforge-map-android/src/main/java/org/mapsforge/map/android/view/CircleView.java:124-127 | stores the fill paint and invalidates the view |
| CircleViews.CircleView.SetPaintStroke | mapsforge-map-android/src/main/java/org/mapsforge/map/android/view/CircleView.java:133-136 | stores the stroke paint and invalidates the view |
| CircleViews.CircleView.SetRadius | mapsforge-map-android/src/main/java/org/mapsforge/map/android/view/CircleView.java:144-154 | refuses a negative or NaN radius with IllegalArgumentException, changing nothing; otherwise stores it exactly and invalidates; the radius never becomes negative |

## Left out

- Floating point: doubles and floats are modelled as reals. Rounding, `(float)` casts and NaN are not modelled, except that a NaN radius argument is represented as such.
- PointText.LineBreakText: counts the label's length in characters, where Java's `String.length()` counts UTF-16 code units. A character outside the Basic Multilingual Plane (an emoji, say) counts 2 in the source and 1 here, so the 15-character threshold differs for such labels. The only observable effect of the wrap step, the exception for a label of more than 15 spaces, involves spaces only and is the same.
- LabelWrap.WrapWords: counts word lengths in characters rather than UTF-16 code units, for the same reason.
- LabelWrap.Greedy: breaks lines by character counts rather than UTF-16 code units, for the same reason.
- LabelWrap.GreedyLineLength: bounds lines at 16 characters, not 16 UTF-16 code units, for the same reason.
- Numbers.Trunc: does not model the saturation of Java's `(int)` cast at the `int` range.
- Overflow of the `int` corner sums in the marker draws is not modelled.
- The Mercator projection, `Rectangle.intersects`, `Rectangle.intersectsCircle`, `BoundingBox.intersects` and the colour filter are not part of this model. They are parameters (`Graphics.Externals`).
- `Math.sin` and `Math.cos` are parameters. Only their values at 0 are relied on.
- `synchronized` and the process-wide sharing of the RotationUtil cache are not modelled. The cache is one object passed to every draw.
- Layer inheritance is modelled by composition: each overlay holds a `Layer`. `onAdd`, `onRemove`, `onDestroy`, `getPosition` and the abstract `draw` of Layer carry no behaviour here.
- `Marker` (the markers' superclass) is not part of this model. Its constructor is taken to store the position, bitmap and offsets, and its `setLatLong` to store the position only.
- The boundingBox parameter of the marker draws is unused by the source and left out.
- `PointTextContainer` (the superclass) is not part of this model. The text width and height it measures, the boundary it leaves and the visibility flag are constructor inputs.
- PointText.PointTextContainer: the front paint is typed non-null, so a null front paint is excluded by type. In the source it is read without a guard when drawing, which would throw a NullPointerException. The back paint may be null, as in the source.
- Paint typeface and text alignment are not modelled. The paint keeps only colour, stroke width, text size and shader shift.
- The circle view's size and the map view's zoom level and tile size are read at draw time and are parameters of `Draw`. `invalidate()` is a counter of calls.
- `Polyline.getLatLongs`, `getPaintStroke` and `isKeepAligned` are plain getters of fields the model exposes directly.
- `MapScaleBarView` and `CustomMapScaleBar` are context only and are not modelled.
