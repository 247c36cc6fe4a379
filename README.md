# ACPolygonView in Dafny

ACPolygonView is an iOS view for editing polygons drawn over an image.
`PolygonView` holds an ordered list of polygon layers. Each polygon layer
holds its corners as control-point sublayers and draws the closed path
through them. A press selects the control point under the finger, a drag
moves it inside its polygon's frame, and a release clears the selection.
While the finger is down, a loupe (`MagnifierView`) shows an enlarged,
edge-clamped window of a target view around the touch. The loupe moves to
the other top corner when the finger reaches it.

This project models that core, with `CGFloat` as `real`:

- `ControlPoints.dfy`: the control point layer and its selection style.
- `Polygons.dfy`: the polygon layer, its `points`, the control points it
  adds and the path it rebuilds.
- `Magnifier.dfy`: the loupe. It covers the sampling offsets of `draw`,
  the render transform, the once-only insertion of the touch marker and
  the defaults.
- `Touches.dfy`: the decisions of the touch handlers as functions of
  values:
  - which control point each polygon reports on a press;
  - where the press loop leaves `point`;
  - which polygon ends up selected;
  - how a drag is accepted;
  - where the loupe goes.
- `Scenes.dfy`: the polygons as a collection. Every control point belongs
  to exactly one polygon. It also holds the small state changes the
  handlers are built from.
- `PolygonViews.dfy`: the `PolygonView` class with `addPolygon`,
  `updatePolygonLayersFrame`, setting `magnifiedView`, `touchesBegan`,
  `touchesMoved` and `touchesEnded`.
- `Geometry.dfy` and `Styles.dfy`: the Core Graphics values and the two
  configuration records.

The classes keep their Swift fields and are changed in place. Each handler
is proved against value-level functions of the view's state:

- `PolygonPoints()`: the points of every polygon.
- `Selection()`: the flag of every polygon.
- `Marks()`: the flags of every control point.
- `Loupe()`: the loupe together with its marker.

The quirks of the code are modelled as written:

- The press loop never stops early. Every polygon that reports a hit
  raises its flag and its point's flag. The last such polygon becomes the
  selection, and earlier hits stay selected.
- `point` is converted for the loupe after every hit. Later polygons are
  tested against the converted value.
- A drag writes the raw touch as the control point's position. It is
  accepted when the touch lies in the polygon's frame with its edges
  included.
- A control point answers hit tests for its 20×20 bounds square. The
  configured `radius` is never read.

## Model

| member | source | states |
|---|---|---|
| Geometry.FrameOf | ACPolygonView/Classes/PolygonView.swift:108-111 | a layer's frame has its bounds' size and is centred on its position |
| Styles.PointStyle | ACPolygonView/Classes/ControlPointLayer.swift:47-51 | the selected fill, line colour and width when selected, the normal ones otherwise; applied by `ControlPointLayer.UpdateState` |
| Styles.PolygonStyle | ACPolygonView/Classes/PolygonLayer.swift:97-101 | the selected fill, line colour and width when selected, the normal ones otherwise; applied by `PolygonLayer.UpdateState` |
| ControlPoints.ControlPointLayer.constructor | ACPolygonView/Classes/ControlPointLayer.swift:24-28 | a missing configuration means the default; the new point is unselected with the normal style applied |
| ControlPoints.ControlPointLayer.Copy | ACPolygonView/Classes/ControlPointLayer.swift:34-41 | the configuration is copied from a control point source and is the default for any other layer; the flag is false |
| ControlPoints.ControlPointLayer.SetSelected | ACPolygonView/Classes/ControlPointLayer.swift:18-20 | after setting the flag, the style is the selected style exactly when the flag is true |
| ControlPoints.ControlPointLayer.UpdateState | ACPolygonView/Classes/ControlPointLayer.swift:47-51 | fill, stroke and line width come from the selected* fields when selected and from the normal fields otherwise |
| ControlPoints.ControlPointLayer.HitTest | ACPolygonView/Classes/PolygonView.swift:76 | a layer with non-negative size accepts exactly the points of its frame; with 20×20 bounds, exactly the 20×20 square centred on its position |
| Polygons.Positions | ACPolygonView/Classes/PolygonLayer.swift:24-26 | one position per sublayer, in sublayer order |
| Polygons.ClosedPath | ACPolygonView/Classes/PolygonLayer.swift:66-75 | the path through n points has n+1 commands |
| Polygons.ClosedPathVisitsPoints | ACPolygonView/Classes/PolygonLayer.swift:66-75 | the path visits exactly the points, each once, in order |
| Polygons.ClosedPathDrawsPolygon | ACPolygonView/Classes/PolygonLayer.swift:66-75 | drawn, the path is exactly the closed polygon: each point to the next and the last back to the first |
| Polygons.PolygonLayer.Points | ACPolygonView/Classes/PolygonLayer.swift:24-26 | `points` is the sublayers' positions in sublayer order, empty without sublayers |
| Polygons.PolygonLayer.constructor | ACPolygonView/Classes/PolygonLayer.swift:30-40 | `points == initialPoints` in order, unselected, configurations defaulted when missing, normal style, fresh unselected control points, consistent path |
| Polygons.PolygonLayer.Copy | ACPolygonView/Classes/PolygonLayer.swift:46-55 | both configurations are copied from a polygon source and are the defaults for any other layer; the flag is false |
| Polygons.PolygonLayer.Populate | ACPolygonView/Classes/PolygonLayer.swift:37-38 | adding the initial points and building the path leaves exactly those points, distinct 20×20 control points and a consistent path |
| Polygons.PolygonLayer.Seed | ACPolygonView/Classes/PolygonLayer.swift:37 | a layer without control points gets one fresh, unselected, distinct 20×20 control point per initial point, in order |
| Polygons.PolygonLayer.AddControlPoints | ACPolygonView/Classes/PolygonLayer.swift:80-93 | one fresh control point per element is appended in order; existing ones and their positions stay; each new one has 20×20 bounds at the origin, the polygon's point configuration and the unselected style |
| Polygons.PolygonLayer.UpdatePath | ACPolygonView/Classes/PolygonLayer.swift:60-76 | with no points it returns the diagnostic and keeps the path; otherwise the path is the closed path through the current points, so a second call changes nothing |
| Polygons.PolygonLayer.SetSelected | ACPolygonView/Classes/PolygonLayer.swift:20-22 | after setting the flag, the style is the selected style exactly when the flag is true, and consistency is kept |
| Polygons.PolygonLayer.UpdateState | ACPolygonView/Classes/PolygonLayer.swift:97-101 | fill, line colour and width come from the selected* fields when selected and from the normal fields otherwise |
| Polygons.PolygonLayer.SetFrame | ACPolygonView/Classes/PolygonView.swift:45 | setting the frame makes it the layer's frame and keeps the bounds' origin |
| Magnifier.ApplyTranslated | ACPolygonView/Classes/MagnifierView.swift:77 | `translateBy` acts on a point before the existing transform |
| Magnifier.ApplyScaled | ACPolygonView/Classes/MagnifierView.swift:78 | `scaleBy` acts on a point before the existing transform |
| Magnifier.RenderTransformMaps | ACPolygonView/Classes/MagnifierView.swift:77-79 | the render transform maps p to (w + s(p.x + dx), h + s(p.y + dy)) before the context's own transform |
| Magnifier.OffsetClampsSampleCentre | ACPolygonView/Classes/MagnifierView.swift:60-73 | the offset centres the sampled window on the touch, clamped to stay within the target when the target is at least one window wide |
| Magnifier.TouchCentredAwayFromEdges | ACPolygonView/Classes/MagnifierView.swift:60-61 | away from the edges the touch is drawn at the centre of the loupe |
| Magnifier.ShownIsWindow | ACPolygonView/Classes/MagnifierView.swift:77-79 | a target coordinate is drawn inside the loupe exactly when it lies in the sampled window [-offset - span/s, -offset] |
| Magnifier.ShownPointsInsideTarget | ACPolygonView/Classes/MagnifierView.swift:60-73 | nothing outside the target is ever shown when the target is at least one window wide |
| Magnifier.TouchShown | ACPolygonView/Classes/MagnifierView.swift:60-73 | a touch inside the target is always shown |
| Magnifier.SampleOffset | ACPolygonView/Classes/MagnifierView.swift:60-73 | the sampled window [-offset - side/scale, -offset] starts at the target's near edge when the touch is within half a window of it, ends at the far edge when the touch is that close to it, and is centred on the touch otherwise |
| Magnifier.RenderTransform | ACPolygonView/Classes/MagnifierView.swift:77-79 | the three context calls composed; what it maps each point to is stated by `RenderTransformMaps` |
| Magnifier.Affine.Translated | ACPolygonView/Classes/MagnifierView.swift:77 | `translateBy` on the context matrix; its action on points is stated by `ApplyTranslated` |
| Magnifier.Affine.Scaled | ACPolygonView/Classes/MagnifierView.swift:78 | `scaleBy` on the context matrix; its action on points is stated by `ApplyScaled` |
| Magnifier.ShownOn | ACPolygonView/Classes/PolygonView.swift:82-85 | showing a loupe makes it and its marker visible, puts its touch location and the marker's centre on the point and changes nothing else; no loupe stays no loupe |
| Magnifier.ShownOnAgain | ACPolygonView/Classes/PolygonView.swift:82-85 | showing the loupe on one point and then another is the same as showing it on the second |
| Magnifier.HiddenLoupe | ACPolygonView/Classes/PolygonView.swift:91-92 | hiding sets both hidden flags and changes nothing else in the loupe |
| Magnifier.HiddenLoupeTwice | ACPolygonView/Classes/PolygonView.swift:91-92 | hiding a hidden loupe changes nothing |
| Magnifier.MarkerView.constructor | ACPolygonView/Classes/MagnifierView.swift:20 | the touch marker is a 4×4 view at the origin |
| Magnifier.MagnifierView.constructor | ACPolygonView/Classes/MagnifierView.swift:19-41 | defaults: scale factor 2, square shape, no touch location, a fresh 4×4 marker |
| Magnifier.MagnifierView.SetMagnifiedView | ACPolygonView/Classes/MagnifierView.swift:19 | setting the target runs the marker insertion: without a target the marker is restyled and stays where it was; with one, the marker ends up among the target's subviews, appended, styled (hidden, red, clipped, round, same centre and size) and taken out of the view it was in only if the target did not hold it, otherwise left as it was; no frame changes |
| Magnifier.MagnifierView.UpdateMagnifiedView | ACPolygonView/Classes/MagnifierView.swift:45-54 | the marker is styled (hidden, red, clipped, round, same centre and size) when the target does not hold it, and then, with a target, taken out of the view it was in and appended, so it is never held twice; otherwise nothing changes; no frame changes |
| Magnifier.Without | ACPolygonView/Classes/MagnifierView.swift:52 | what `addSubview` leaves in the marker's previous view: every other subview with its multiplicity, and the marker no longer |
| Magnifier.MagnifierView.SetMagnifiedViewThereAndBack | ACPolygonView/Classes/MagnifierView.swift:19-54 | pointing the loupe at A, then B, then A leaves the marker in A only, hidden and red again |
| Magnifier.MagnifierView.Draw | ACPolygonView/Classes/MagnifierView.swift:56-84 | without a touch location nothing happens; otherwise the context is given the render transform with the edge-clamped offsets (left/top case first) and the loupe ends visible |
| Touches.FirstHit | ACPolygonView/Classes/PolygonView.swift:76 | the first control point in insertion order whose square contains the point; absent exactly when none does |
| Touches.HitsAt | ACPolygonView/Classes/PolygonView.swift:75-77 | polygon k reports the first of its points whose square contains the value `point` has after the polygons before it |
| Touches.ScanStep | ACPolygonView/Classes/PolygonView.swift:76-77 | one turn of the press loop converts `point` on a hit, and a polygon with a hit becomes the last hit |
| Touches.Raise | ACPolygonView/Classes/PolygonView.swift:81 | after the loop has passed n polygons, exactly the flags of those that reported a hit are raised; the others keep their value |
| Touches.Mark | ACPolygonView/Classes/PolygonView.swift:79 | after the loop has passed n polygons, the point each of them reported is raised; no other point flag changes |
| Touches.LastHitHits | ACPolygonView/Classes/PolygonView.swift:75-87 | the polygon left selected reported a hit |
| Touches.NoHitAfterLast | ACPolygonView/Classes/PolygonView.swift:75-87 | no polygon after the one left selected reported a hit |
| Touches.NoLastHitNoHits | ACPolygonView/Classes/PolygonView.swift:75-87 | there is no last hit exactly when no polygon reports a hit |
| Touches.LastHitIsLast | ACPolygonView/Classes/PolygonView.swift:75-87 | the selected polygon is the last one with a hit, and is absent exactly when none hits |
| Touches.MissRaisesNothing | ACPolygonView/Classes/PolygonView.swift:75-87 | a press no polygon answers raises no polygon flag and no point flag |
| Touches.NoHitKeepsTouch | ACPolygonView/Classes/PolygonView.swift:77 | without any hit, `point` stays the raw touch |
| Touches.UnscaledScanKeepsTouch | ACPolygonView/Classes/PolygonView.swift:77 | with an unscaled view at its superview's origin, every polygon is tested against the raw touch |
| Touches.HitAfterHitUsesConvertedPoint | ACPolygonView/Classes/PolygonView.swift:77 | after a hit, the next polygon is tested against the converted point |
| Touches.ToMagnifierSpace | ACPolygonView/Classes/PolygonView.swift:77 | the touch scaled by the layer's `a` and `d` and shifted by the frame origin; with the identity transform at the origin it is the touch itself |
| Touches.ScanPoint | ACPolygonView/Classes/PolygonView.swift:75-77 | the value of `point` after the loop has visited the given polygons; its properties are stated by `ScanStep`, `NoHitKeepsTouch` and `UnscaledScanKeepsTouch` |
| Touches.HitIn | ACPolygonView/Classes/PolygonView.swift:76 | what polygon i reports: the first hit against the value `point` has after the polygons before it; related to the loop by `HitsAt` and `ScanStep` |
| Touches.Hits | ACPolygonView/Classes/PolygonView.swift:76 | one report per polygon, in polygon order |
| Touches.LastHit | ACPolygonView/Classes/PolygonView.swift:75-81 | the index of a polygon; that it is the last one with a hit is stated by `LastHitHits`, `NoHitAfterLast` and `NoLastHitNoHits` |
| Touches.WithinClosed | ACPolygonView/Classes/PolygonView.swift:108-111 | the drag test accepts every point the frame contains, and its far edges as well |
| Touches.FlippedOrigin | ACPolygonView/Classes/PolygonView.swift:122-123 | the flipped loupe is always in one of the two top slots, and at the origin whenever it did not start at x == 0 |
| Touches.FlipTwiceReturns | ACPolygonView/Classes/PolygonView.swift:121-123 | flipping twice returns the loupe to its slot, for every view width |
| Touches.FlipClearsTouch | ACPolygonView/Classes/PolygonView.swift:121-128 | in a view at least 200 wide, the flipped loupe no longer contains the touch |
| Touches.Followed | ACPolygonView/Classes/PolygonView.swift:121-133 | a loupe containing the touch moves to (width - 100, 0) from x == 0 and to (0, 0) otherwise, else its frame stays; its touch location and marker centre become the converted touch; nothing else changes |
| Touches.FollowedClearsTouch | ACPolygonView/Classes/PolygonView.swift:121-128 | a drag keeps the loupe in its two slots and, in a view at least 200 wide, never leaves it over the touch |
| Touches.FollowAfterShow | ACPolygonView/Classes/PolygonView.swift:82-85 | a press and a drag both leave the loupe's location on its marker; a drag after a press is the press shown at the drag's point |
| Touches.RefitFrameDropsOrigin | ACPolygonView/Classes/PolygonView.swift:45-47 | after the refit, a polygon's frame is at the origin with the requested size, so it equals the request exactly when that origin is zero |
| Scenes.AppendKeepsSelection | ACPolygonView/Classes/PolygonView.swift:39 | appending a polygon keeps the selection at its indices |
| Scenes.FirstHitLayer | ACPolygonView/Classes/PolygonView.swift:76 | the index of the first sublayer whose hit test accepts the point: that sublayer accepts, none before it does, and the result is absent exactly when no sublayer accepts |
| Scenes.FirstHitLayerIsFirstHit | ACPolygonView/Classes/PolygonView.swift:76 | with 20×20 bounds, the sublayer search finds the same point as the square test on positions |
| Scenes.FlagPoint | ACPolygonView/Classes/PolygonView.swift:79 | setting a point's flag changes that one point flag and no polygon flag |
| Scenes.SelectPoint | ACPolygonView/Classes/PolygonView.swift:79 | setting a point's flag restyles it, changes only that flag, and keeps every polygon consistent and every point in place |
| Scenes.SelectPolygon | ACPolygonView/Classes/PolygonView.swift:81 | setting a polygon's flag restyles it, changes only that flag, and keeps every polygon consistent and every point in place |
| Scenes.Shift | ACPolygonView/Classes/PolygonView.swift:112-113 | the point takes the raw touch as its position and its polygon's path is rebuilt through the current points |
| Scenes.MoveCorner | ACPolygonView/Classes/PolygonView.swift:112-113 | exactly one point of one polygon moves; all other points and all flags stay; every polygon stays consistent |
| Scenes.Refit | ACPolygonView/Classes/PolygonView.swift:45-47 | the polygon gets bounds at the origin with the frame's size and its position at their midpoint |
| Scenes.RefitEach | ACPolygonView/Classes/PolygonView.swift:44-48 | every polygon is refitted; each stays consistent and no point moves |
| Scenes.Press | ACPolygonView/Classes/PolygonView.swift:78-81 | the point and its polygon are selected and restyled; no other flag changes |
| Scenes.AppendKeepsLayers | ACPolygonView/Classes/PolygonView.swift:39 | appending a polygon with new control points keeps ownership consistent and adds its points at the end |
| PolygonViews.PolygonView.constructor | ACPolygonView/Classes/PolygonView.swift:16-24 | no polygons, no selection, no loupe, no target, and no control point owned |
| PolygonViews.PolygonView.PlacedPolygon | ACPolygonView/Classes/PolygonView.swift:35-38 | a fresh consistent unselected polygon through the points, with the given configurations or the defaults, the view's bounds and positioned at their midpoint; its fresh control points are unselected and carry the points configuration |
| PolygonViews.PolygonView.AppendPolygon | ACPolygonView/Classes/PolygonView.swift:39 | the polygon is appended at the end, its control points become owned by it, and the view stays consistent |
| PolygonViews.PolygonView.AddPolygon | ACPolygonView/Classes/PolygonView.swift:33-41 | exactly one fresh polygon is appended, built from `initialPoints` in order with the given configurations or the defaults, its fresh control points unselected and carrying the points configuration and owned by it; earlier polygons and their order are unchanged |
| PolygonViews.PolygonView.SetMagnifiedView | ACPolygonView/Classes/PolygonView.swift:51-64 | with a target, a loupe is created on first use (100×100 at the origin, round, hidden, scale 2, no touch location, its marker styled and appended to the target's subviews) or an existing loupe changes only its target and, when the target does not hold the marker, moves the marker out of its previous view, appends it to the target's subviews and restyles it, while a target that holds it keeps its subviews; no frame changes; without a target nothing changes |
| PolygonViews.PolygonView.NewLoupe | ACPolygonView/Classes/PolygonView.swift:51-62 | with no loupe yet, the view's target becomes `target` and its loupe a new one pointed at it (100×100 at the origin, round, hidden, scale 2, no touch location), whose fresh marker is styled and appended to the target; the view stays consistent |
| PolygonViews.PolygonView.LoupeFor | ACPolygonView/Classes/PolygonView.swift:54-62 | the new loupe is 100×100 at the origin, round, hidden, scale 2, no touch location, pointed at the target, and its fresh marker is styled, recorded as the target's and appended to its subviews, whose frame stays |
| PolygonViews.PolygonView.Retarget | ACPolygonView/Classes/PolygonView.swift:51-62 | with a loupe already there, the view's target and the loupe's both become `target` and nothing else of the loupe changes; its marker and the target's subviews are left alone when the target holds it, and otherwise the marker is styled, taken out of the view it was in and appended after the target's other subviews; no frame changes; the view stays consistent |
| PolygonViews.PolygonView.UpdatePolygonLayersFrame | ACPolygonView/Classes/PolygonView.swift:43-49 | every polygon's bounds are at the origin with the frame's size and its frame is at the origin; count, order and points are unchanged |
| PolygonViews.PolygonView.ShowLoupe | ACPolygonView/Classes/PolygonView.swift:82-85 | the loupe and marker are shown at the point; the polygons are untouched |
| PolygonViews.PolygonView.Remember | ACPolygonView/Classes/PolygonView.swift:78-80 | the view refers to the pressed point and its polygon |
| PolygonViews.PolygonView.SelectAt | ACPolygonView/Classes/PolygonView.swift:77-85 | the pressed point and its polygon are selected and remembered, no other flag changes, and the loupe shows the converted point |
| PolygonViews.PolygonView.PressStep | ACPolygonView/Classes/PolygonView.swift:76-86 | one polygon's turn of the press loop keeps the loop's invariant |
| PolygonViews.PolygonView.Miss | ACPolygonView/Classes/PolygonView.swift:76 | a polygon without a hit leaves the press state as it was |
| PolygonViews.PolygonView.Hit | ACPolygonView/Classes/PolygonView.swift:76-86 | a polygon with a hit selects, remembers and shows its point |
| PolygonViews.PolygonView.PressAll | ACPolygonView/Classes/PolygonView.swift:73-87 | after the loop, every polygon with a hit and its point are raised, the last one with a hit is selected, and the loupe shows the final converted point |
| PolygonViews.PolygonView.TouchesBegan | ACPolygonView/Classes/PolygonView.swift:68-88 | without a touch, or when no polygon hits, the selection, all flags and the loupe are unchanged; otherwise the result of the whole loop; no point moves |
| PolygonViews.PolygonView.Drag | ACPolygonView/Classes/PolygonView.swift:108-114 | inside the polygon's frame with its edges, only the selected point moves to the raw touch; otherwise no point moves; no flag changes |
| PolygonViews.PolygonView.Follow | ACPolygonView/Classes/PolygonView.swift:117-133 | the loupe flips slots when it contains the touch and follows the converted touch; the polygons are untouched |
| PolygonViews.PolygonView.Move | ACPolygonView/Classes/PolygonView.swift:106-133 | with a selection: the drag, then the loupe following the touch |
| PolygonViews.PolygonView.TouchesMoved | ACPolygonView/Classes/PolygonView.swift:99-135 | without a touch, polygon or point selected nothing changes; otherwise only the selected point may move and the loupe follows; no flag and no selection changes |
| PolygonViews.PolygonView.HideLoupe | ACPolygonView/Classes/PolygonView.swift:91-92 | the loupe and its marker are hidden and nothing else about them changes; the polygons, their points, every flag and the selection stay as they were |
| PolygonViews.PolygonView.Deselect | ACPolygonView/Classes/PolygonView.swift:93-95 | the selected point and polygon are deselected and restyled; only flags and styles may change, so configurations, bounds and positions stay; no other flag changes and the loupe stays |
| PolygonViews.PolygonView.Forget | ACPolygonView/Classes/PolygonView.swift:94-96 | both selection references become nil |
| PolygonViews.PolygonView.ReleaseSelection | ACPolygonView/Classes/PolygonView.swift:93-96 | the previous selection is deselected and both references are nil; only flags and styles of the layers may change |
| PolygonViews.PolygonView.TouchesEnded | ACPolygonView/Classes/PolygonView.swift:90-97 | both references are nil, the previous point and polygon are deselected, no other flag changes, no point moves, only flags and styles of the layers may change, and the loupe and marker are hidden |
| PolygonViews.PolygonView.TouchesEndedTwice | ACPolygonView/Classes/PolygonView.swift:90-97 | releasing twice ends exactly as releasing once, changing no layer field but flags and styles |

## Left out

- Rendering and animation are not modelled. This covers the `CGPath` object (the path is a list of commands), `layer.render(in:)`, `setNeedsDisplay`, `layoutIfNeeded`, `UIView.animate`, and the loupe shape's corner-radius animation. The loupe's new frame is applied at once rather than over 0.25 s.
- `CATransaction` begin and commit are left out. The move and the path rebuild form one step.
- Layer and view hierarchy calls are left out: `addSublayer`, `addSubview`, `contentsScale`, the loupe's border and autoresizing flag, and each control point's oval path. Only the control points as a polygon's sublayers and the marker as a target subview are kept. For the marker, `addSubview` is modelled with its detach: the marker records the view it was last added to and is taken out of that view's subviews when it is added to another. The subviews of views the model does not create are taken as given, so a marker placed in them by other code is not tracked.
- Touches: the touch set is reduced to its first touch, already located in the view.
- The view's layer transform: only its `a` and `d` entries are kept, as view fields that the handlers read.
- `init?(coder:)` and its `fatalError` are left out. So is the host app's `ViewController`.
- `CGFloat` is modelled as `real`, so floating-point rounding, infinities and NaN are left out.
- `Magnifier.MagnifierView.Draw`: requires a positive scale factor, because the source divides by it, and requires a target whenever a touch location is set, because the source force-unwraps `magnifiedView`.
- `Magnifier.MagnifierView.Draw`: returns the context transform instead of rendering. The `isHidden` toggle around the rendering is modelled only as its end state.
- `Polygons.PolygonLayer.UpdatePath`: returns the printed diagnostic instead of writing it to the console.
- `Polygons.PolygonLayer.Copy`: states only the two configurations and the flag. The layer properties Core Animation copies from the source layer are not modelled.
- `ControlPoints.ControlPointLayer.Copy`: the copied position, bounds and style stand for whatever Core Animation copies.
- `PolygonViews.PolygonView.TouchesMoved`: its frame names every control point's position and every polygon's path. Its postconditions pin every point, and every path follows from its points.
- The configuration classes are plain records. Their `radius` and `selectedRadius` are carried but never read.
- The handlers' preconditions assume a consistent view: every polygon was added through `addPolygon`, and every control point belongs to one polygon.
