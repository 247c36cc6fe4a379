/** The editing view: it owns the polygons, tracks the control point being
    dragged and drives the loupe that shows the area under the finger. */
module PolygonViews {
  import opened Geometry
  import opened Styles
  import opened ControlPoints
  import opened Polygons
  import opened Magnifier
  import opened Touches
  import opened Scenes

  class PolygonView {
    var frame: Rect
    var bounds: Rect
    /** The `a` and `d` entries of the view layer's affine transform. */
    var layerScaleX: real
    var layerScaleY: real
    var polygonLayers: seq<PolygonLayer>
    var selectedControlPointLayer: ControlPointLayer?
    var selectedPolygonLayer: PolygonLayer?
    var magnifierView: MagnifierView?
    var magnifiedView: SurfaceView?
    /** The polygon each control point of the view belongs to. */
    ghost var Owner: map<ControlPointLayer, PolygonLayer>
    /** Where the selection sits: the polygon's index and the point's index in it. */
    ghost var selectedPolygon: nat
    ghost var selectedPoint: nat

    /** The view's polygons, their owners and its loupe are the ones it had. */
    twostate predicate Kept()
      reads this
    {
      && polygonLayers == old(polygonLayers) && Owner == old(Owner) && magnifierView == old(magnifierView)
      && layerScaleX == old(layerScaleX) && layerScaleY == old(layerScaleY) && frame == old(frame)
    }

    /** A change that keeps the view's polygons and touches none of them
        and none of their control points leaves the scene as it was. */
    twostate lemma SceneKept()
      requires polygonLayers == old(polygonLayers) && Owner == old(Owner)
      requires unchanged(polygonLayers) && unchanged(Owner.Keys)
      ensures SceneOf(polygonLayers, Owner) == old(SceneOf(polygonLayers, Owner))
    {
    }

    /** The loupe's touch marker, when there is a loupe. */
    function Marker(): MarkerView?
      reads this`magnifierView
    {
      if magnifierView == null then null else magnifierView.touchCenterView
    }

    /** The view the loupe's marker was last added to, if any. */
    function MarkerHost(): SurfaceView?
      reads this`magnifierView, Marker()
    {
      if Marker() == null then null else Marker().superview
    }

    /** The loupe with its marker, as a value, when there is a loupe. */
    function Loupe(): Option<LoupeState>
      reads this`magnifierView, magnifierView, Marker()
    {
      if magnifierView == null then None else Some(magnifierView.State())
    }

    /** What the touch handlers turn a touch into before handing it to the loupe. */
    function Transform(): ViewTransform
      reads this`layerScaleX, this`layerScaleY, this`frame
    {
      ViewTransform(layerScaleX, layerScaleY, frame.origin)
    }

    ghost function PolygonPoints(): seq<seq<Point>>
      requires Owned(polygonLayers, Owner)
      reads this`polygonLayers, this`Owner, polygonLayers, Owner.Keys
    {
      PointsOf(polygonLayers, Owner)
    }

    /** Each polygon is consistent, no layer is shared between polygons, the
        selection is in place and the loupe is ready. */
    ghost predicate Valid()
      reads this`polygonLayers, this`Owner, this`selectedPolygonLayer, this`selectedControlPointLayer
      reads this`selectedPolygon, this`selectedPoint, this`magnifierView, this`magnifiedView
      reads polygonLayers, Owner.Keys, selectedPolygonLayer, magnifierView
    {
      && LayersValid(polygonLayers, Owner)
      && SelectionAt(polygonLayers, selectedPolygonLayer, selectedControlPointLayer, selectedPolygon, selectedPoint)
      && LoupeReady(magnifierView, magnifiedView)
    }

    /** UIView.init(frame:): no polygons, nothing selected, no loupe and an
        identity layer transform. */
    constructor (frame: Rect)
      ensures Valid()
      ensures this.frame == frame && bounds == Rect(Origin, frame.size)
      ensures layerScaleX == 1.0 && layerScaleY == 1.0
      ensures polygonLayers == [] && selectedControlPointLayer == null && selectedPolygonLayer == null
      ensures magnifierView == null && magnifiedView == null && Owner == map[]
    {
      this.frame := frame;
      bounds := Rect(Origin, frame.size);
      layerScaleX, layerScaleY := 1.0, 1.0;
      polygonLayers := [];
      selectedControlPointLayer, selectedPolygonLayer := null, null;
      magnifierView, magnifiedView := null, null;
      Owner := map[];
      selectedPolygon, selectedPoint := 0, 0;
    }

    /** The layer `addPolygon` appends: a new polygon through the points,
        given the view's bounds and positioned at their midpoint. */
    static method PlacedPolygon(initialPoints: seq<Point>, polygonConfig: Option<PolygonConfig>,
                                pointsConfig: Option<PointConfig>, area: Rect) returns (p: PolygonLayer)
      ensures fresh(p) && p.Valid() && forall c :: c in p.sublayers ==> fresh(c)
      ensures Placed(p, initialPoints, polygonConfig, pointsConfig, area)
    {
      p := new PolygonLayer(initialPoints, polygonConfig, pointsConfig);
      p.bounds := area;
      p.position := Point(area.MidX(), area.MidY());
    }

    /** `polygonLayers.append(p)` for a consistent polygon whose layers are new. */
    method AppendPolygon(p: PolygonLayer)
      requires Valid() && p.Valid()
      requires p !in polygonLayers && forall c :: c in p.sublayers ==> c !in Owner
      modifies this`polygonLayers, this`Owner
      ensures Valid() && polygonLayers == old(polygonLayers) + [p]
      ensures Owner == old(Owner) + map c | c in p.sublayers :: p
    {
      ghost var ps, owner := polygonLayers, Owner;
      Owner, polygonLayers := Owner + map c | c in p.sublayers :: p, polygonLayers + [p];
      AppendKeepsLayers(ps, owner, p);
      AppendKeepsSelection(ps, p, selectedPolygonLayer, selectedControlPointLayer, selectedPolygon, selectedPoint);
    }

    /** addPolygon(initialPoints:polygonConfiguration:pointsConfiguration:):
        a new polygon through the points, covering the view's bounds, is
        appended after the existing ones, which are not modified. */
    method AddPolygon(initialPoints: seq<Point>, polygonConfig: Option<PolygonConfig>, pointsConfig: Option<PointConfig>)
      requires Valid()
      modifies this`polygonLayers, this`Owner
      ensures Valid()
      ensures |polygonLayers| == old(|polygonLayers|) + 1 && polygonLayers[..old(|polygonLayers|)] == old(polygonLayers)
      ensures Placed(polygonLayers[old(|polygonLayers|)], initialPoints, polygonConfig, pointsConfig, bounds)
      ensures var p := polygonLayers[old(|polygonLayers|)];
        && fresh(p) && (forall c :: c in p.sublayers ==> fresh(c))
        && Owner == old(Owner) + map c | c in p.sublayers :: p
    {
      var polygonLayer := PlacedPolygon(initialPoints, polygonConfig, pointsConfig, bounds);
      AppendPolygon(polygonLayer);
    }

    /** Setting `magnifiedView`: with a target, the loupe is created on
        first use (100x100 at the origin, round, hidden, with no touch
        location) and pointed at the target; an existing loupe only changes
        its target, and inserting the marker takes it out of the view it
        was in. Without a target nothing else changes. No frame changes. */
    method SetMagnifiedView(target: SurfaceView?)
      requires Valid()
      modifies this`magnifiedView, this`magnifierView, Marker(), Loupes(magnifierView)`magnifiedView, Targets(target)`subviews
      modifies Targets(MarkerHost())`subviews
      ensures Valid()
      ensures magnifiedView == target
      ensures target == null ==>
        magnifierView == old(magnifierView) && Loupe() == old(Loupe()) && unchanged(Targets(old(MarkerHost())))
      ensures target != null ==>
        && magnifierView != null
        && magnifierView.magnifiedView == target
        && magnifierView.touchCenterView in target.subviews
        && target.frame == old(target.frame)
      ensures target != null && old(magnifierView) == null ==>
        && fresh(magnifierView)
        && magnifierView.frame == Rect(Origin, Size(MagnifierSide, MagnifierSide))
        && magnifierView.shape == Round && magnifierView.isHidden
        && magnifierView.scaleFactor == DefaultScaleFactor
        && magnifierView.touchLocation == None
        && Styled(InitialMarker, magnifierView.touchCenterView.State())
        && magnifierView.touchCenterView.superview == target
        && target.subviews == old(target.subviews) + [magnifierView.touchCenterView]
      ensures target != null && old(magnifierView) != null && old(Marker() !in target.subviews) ==>
        target.subviews == old(target.subviews) + [Marker()]
      ensures target != null && old(magnifierView) != null && old(Marker() in target.subviews) ==>
        target.subviews == old(target.subviews)
      ensures var host := old(MarkerHost()); host != null ==> host.frame == old(host.frame)
      ensures var host := old(MarkerHost());
        target != null && old(magnifierView) != null && old(Marker() !in target.subviews) ==>
        && MarkerHost() == target
        && (host != null && host != target ==> host.subviews == Without(old(host.subviews), Marker()))
      ensures target != null && old(magnifierView) != null && old(Marker() in target.subviews) ==>
        unchanged(Targets(old(MarkerHost())))
      ensures target != null && old(magnifierView) != null ==>
        && magnifierView == old(magnifierView)
        && Loupe().value.(magnifiedView := old(magnifierView.magnifiedView), marker := old(Marker().State()))
           == old(Loupe()).value
        && (old(Marker() in target.subviews) ==> Loupe().value.marker == old(Loupe()).value.marker)
        && (old(Marker() !in target.subviews) ==> Styled(old(Marker().State()), Marker().State()))
    {
      if target == null {
        magnifiedView := null;
        SceneKept();
      } else if magnifierView == null {
        NewLoupe(target);
      } else {
        Retarget(target);
      }
    }

    /** The loupe `updateMagnifiedView` creates on first use: 100x100 at the
        origin, round and hidden, pointed at `target`, with a new marker
        styled and added to the target. */
    method NewLoupe(target: SurfaceView)
      requires Valid() && magnifierView == null
      modifies this`magnifiedView, this`magnifierView, target`subviews
      ensures Valid() && magnifiedView == target
      ensures magnifierView != null && fresh(magnifierView) && fresh(magnifierView.touchCenterView)
      ensures magnifierView.Valid() && magnifierView.magnifiedView == target
      ensures magnifierView.frame == Rect(Origin, Size(MagnifierSide, MagnifierSide))
      ensures magnifierView.shape == Round && magnifierView.isHidden
      ensures magnifierView.scaleFactor == DefaultScaleFactor && magnifierView.touchLocation == None
      ensures Styled(InitialMarker, magnifierView.touchCenterView.State())
      ensures magnifierView.touchCenterView.superview == target
      ensures target.subviews == old(target.subviews) + [magnifierView.touchCenterView]
      ensures target.frame == old(target.frame)
    {
      // The loupe is set up before the view's two references are updated;
      // nothing reads them in between.
      var loupe := LoupeFor(target);
      magnifiedView, magnifierView := target, loupe;
      SceneKept();
    }

    /** Lines 54-56 and 62 of the setter's observer: a 100x100 loupe at the
        origin, round and hidden, pointed at `target`, whose new marker is
        styled and added to the target. */
    static method LoupeFor(target: SurfaceView) returns (loupe: MagnifierView)
      modifies target`subviews
      ensures fresh(loupe) && fresh(loupe.touchCenterView)
      ensures loupe.Valid() && loupe.magnifiedView == target
      ensures loupe.frame == Rect(Origin, Size(MagnifierSide, MagnifierSide))
      ensures loupe.shape == Round && loupe.isHidden
      ensures loupe.scaleFactor == DefaultScaleFactor && loupe.touchLocation == None
      ensures Styled(InitialMarker, loupe.touchCenterView.State())
      ensures loupe.touchCenterView.superview == target
      ensures target.subviews == old(target.subviews) + [loupe.touchCenterView]
      ensures target.frame == old(target.frame)
    {
      loupe := new MagnifierView(Rect(Origin, Size(MagnifierSide, MagnifierSide)));
      loupe.shape := Round;
      loupe.isHidden := true;
      loupe.SetMagnifiedView(target);
    }

    /** `magnifierView.magnifiedView = magnifiedView`: the loupe's target
        changes and the marker goes into the target once, restyled there and
        taken out of the view it was in; nothing else of the loupe changes. */
    method Retarget(target: SurfaceView)
      requires Valid() && magnifierView != null
      modifies this`magnifiedView, Loupes(magnifierView)`magnifiedView, Marker(), target`subviews, Targets(MarkerHost())`subviews
      ensures Valid() && magnifiedView == target && magnifierView == old(magnifierView)
      ensures var host := old(MarkerHost()); host != null ==> host.frame == old(host.frame)
      ensures var host := old(MarkerHost());
        old(Marker() !in target.subviews) ==>
        && MarkerHost() == target
        && (host != null && host != target ==> host.subviews == Without(old(host.subviews), Marker()))
      ensures old(Marker() in target.subviews) ==> unchanged(Targets(old(MarkerHost())))
      ensures magnifierView.magnifiedView == target && magnifierView.touchCenterView in target.subviews
      ensures old(Marker() !in target.subviews) ==> target.subviews == old(target.subviews) + [Marker()]
      ensures old(Marker() in target.subviews) ==> target.subviews == old(target.subviews)
      ensures target.frame == old(target.frame)
      ensures Loupe().value.(magnifiedView := old(magnifierView.magnifiedView), marker := old(Marker().State()))
              == old(Loupe()).value
      ensures old(Marker() in target.subviews) ==> Loupe().value.marker == old(Loupe()).value.marker
      ensures old(Marker() !in target.subviews) ==> Styled(old(Marker().State()), Marker().State())
    {
      magnifiedView := target;
      magnifierView.SetMagnifiedView(target);
      SceneKept();
    }

    /** `updatePolygonLayersFrame(_:)`: every polygon is given the frame,
        then re-centred on bounds at the origin with the frame's size, so
        only the size of the frame is kept; no point moves. */
    method UpdatePolygonLayersFrame(f: Rect)
      requires Valid()
      modifies polygonLayers`position, polygonLayers`bounds
      ensures Valid() && PolygonPoints() == old(PolygonPoints())
      ensures forall p :: p in polygonLayers ==>
        p.bounds == Rect(Origin, f.size) && p.Frame() == Rect(Origin, f.size)
    {
      RefitEach(polygonLayers, f);
      Reshaped(Layers(polygonLayers, Owner));
    }

    /** Lines 82-85 of touchesBegan: the loupe and its marker are shown at `at`. */
    method ShowLoupe(at: Point)
      requires Valid()
      modifies magnifierView, Marker()
      ensures Valid() && SceneOf(polygonLayers, Owner) == old(SceneOf(polygonLayers, Owner))
      ensures Loupe() == ShownOn(old(Loupe()), at)
      ensures Kept()
    {
      if magnifierView != null {
        magnifierView.isHidden := false;
        magnifierView.touchCenterView.isHidden := false;
        magnifierView.touchCenterView.center := at;
        magnifierView.touchLocation := Some(at);
        SceneKept();
      }
    }

    /** Lines 78 and 80 of touchesBegan: the view remembers the control
        point at `(i, j)` and its polygon. */
    method Remember(i: nat, j: nat, polygon: PolygonLayer, pointLayer: ControlPointLayer)
      requires Valid() && i < |polygonLayers| && polygonLayers[i] == polygon
      requires j < |polygon.sublayers| && polygon.sublayers[j] == pointLayer
      modifies this`selectedControlPointLayer, this`selectedPolygonLayer, this`selectedPolygon, this`selectedPoint
      ensures Valid() && SceneOf(polygonLayers, Owner) == old(SceneOf(polygonLayers, Owner))
      ensures selectedPolygon == i && selectedPoint == j
      ensures selectedPolygonLayer == polygon && selectedControlPointLayer == pointLayer
      ensures Loupe() == old(Loupe())
    {
      selectedControlPointLayer, selectedPolygonLayer, selectedPolygon, selectedPoint := pointLayer, polygon, i, j;
      SceneKept();
    }

    /** Lines 77-85 of touchesBegan once polygon `i` reports its control
        point `j`: both are selected and remembered, and the loupe shows `at`. */
    method SelectAt(i: nat, j: nat, polygon: PolygonLayer, pointLayer: ControlPointLayer, at: Point)
      requires Valid() && i < |polygonLayers| && polygonLayers[i] == polygon
      requires j < |polygon.sublayers| && polygon.sublayers[j] == pointLayer
      modifies this`selectedControlPointLayer, this`selectedPolygonLayer, this`selectedPolygon, this`selectedPoint
      modifies polygon`selected, polygon`style, pointLayer`selected, pointLayer`style, magnifierView, Marker()
      ensures Valid() && PolygonPoints() == old(PolygonPoints())
      ensures selectedPolygon == i && selectedPoint == j
      ensures selectedPolygonLayer == polygon && selectedControlPointLayer == pointLayer
      ensures polygon.selected && pointLayer.selected
      ensures Selection() == old(Selection())[i := true]
      ensures Marks() == old(Marks())[i := old(Marks())[i][j := true]]
      ensures Loupe() == ShownOn(old(Loupe()), at)
      ensures Kept()
    {
      Press(polygonLayers, Owner, i, j, polygon, pointLayer);
      ShowLoupe(at);
      Remember(i, j, polygon, pointLayer);
    }

    /** The selection flag of every polygon, in drawing order. */
    function Selection(): seq<bool>
      reads this`polygonLayers, polygonLayers
    {
      PolygonFlags(polygonLayers)
    }

    /** The selection flags of every polygon's control points. */
    ghost function Marks(): seq<seq<bool>>
      requires Owned(polygonLayers, Owner)
      reads this`polygonLayers, this`Owner, polygonLayers, Owner.Keys
    {
      PointFlags(polygonLayers, Owner)
    }

    /** Where the press loop stands before polygon `n`, having started at
        `touch` over `corners` with the flags `flags0` and `marks0` and the
        selection `poly0` and `cp0`: `point` is
        where the hits so far have moved the touch, every polygon that
        reported a hit is raised together with the point it reported, and
        the last such polygon is the selection, with the loupe on `point`;
        before any hit the selection is the one the loop started with. */
    ghost predicate Pressing(corners: seq<seq<Point>>, touch: Point, flags0: seq<bool>, marks0: seq<seq<bool>>,
                             poly0: PolygonLayer?, cp0: ControlPointLayer?, loupe0: Option<LoupeState>,
                             n: nat, point: Point)
      reads this, polygonLayers, Owner.Keys, selectedPolygonLayer, magnifierView, Marker()
    {
      && Valid() && PolygonPoints() == corners && n <= |corners|
      && |flags0| == |corners| && |marks0| == |corners|
      && point == ScanPoint(corners[..n], touch, Transform())
      && Selection() == Raise(flags0, Hits(corners, touch, Transform()), n)
      && Marks() == Mark(marks0, Hits(corners, touch, Transform()), n)
      && (LastHit(corners[..n], touch, Transform()).None? ==>
            && selectedPolygonLayer == poly0 && selectedControlPointLayer == cp0
            && Loupe() == loupe0)
      && (LastHit(corners[..n], touch, Transform()).Some? ==>
            && selectedPolygonLayer != null
            && selectedPolygon == LastHit(corners[..n], touch, Transform()).value
            && HitIn(corners, selectedPolygon, touch, Transform()) == Some(selectedPoint)
            && Loupe() == ShownOn(loupe0, point))
    }

    /** Polygon `i`'s turn moves the press loop on by one polygon: its
        first control point whose hit test accepts `point` is pressed, and
        without one nothing changes. */
    method PressStep(i: nat, point: Point, ghost corners: seq<seq<Point>>, ghost touch: Point,
                     ghost flags0: seq<bool>, ghost marks0: seq<seq<bool>>,
                     ghost poly0: PolygonLayer?, ghost cp0: ControlPointLayer?, ghost loupe0: Option<LoupeState>)
      returns (next: Point)
      requires Pressing(corners, touch, flags0, marks0, poly0, cp0, loupe0, i, point) && i < |corners|
      modifies this`selectedControlPointLayer, this`selectedPolygonLayer, this`selectedPolygon, this`selectedPoint
      modifies polygonLayers`selected, polygonLayers`style, Owner.Keys`selected, Owner.Keys`style
      modifies magnifierView, Marker()
      ensures Pressing(corners, touch, flags0, marks0, poly0, cp0, loupe0, i + 1, next)
      ensures Kept()
    {
      var hit := FirstHitLayer(polygonLayers[i].sublayers, point);
      HitLayerOf(polygonLayers, Owner, i, point);
      if hit.None? {
        next := point;
        Miss(corners, touch, flags0, marks0, poly0, cp0, loupe0, i, point);
      } else {
        next := ToMagnifierSpace(Transform(), point);
        Hit(i, hit.value, point, next, corners, touch, flags0, marks0, poly0, cp0, loupe0);
      }
    }

    /** A polygon that reports no control point leaves everything as it was. */
    lemma Miss(corners: seq<seq<Point>>, touch: Point, flags0: seq<bool>, marks0: seq<seq<bool>>,
               poly0: PolygonLayer?, cp0: ControlPointLayer?, loupe0: Option<LoupeState>, i: nat, point: Point)
      requires Pressing(corners, touch, flags0, marks0, poly0, cp0, loupe0, i, point) && i < |corners|
      requires FirstHit(corners[i], point).None?
      ensures Pressing(corners, touch, flags0, marks0, poly0, cp0, loupe0, i + 1, point)
    {
      ScanStep(corners, i, touch, Transform());
      HitsAt(corners, touch, Transform(), i);
    }

    /** Polygon `i` reports its control point `j`: both are selected and
        remembered, and the loupe shows `next`, the converted point. */
    method Hit(i: nat, j: nat, point: Point, next: Point, ghost corners: seq<seq<Point>>, ghost touch: Point,
               ghost flags0: seq<bool>, ghost marks0: seq<seq<bool>>,
               ghost poly0: PolygonLayer?, ghost cp0: ControlPointLayer?, ghost loupe0: Option<LoupeState>)
      requires Pressing(corners, touch, flags0, marks0, poly0, cp0, loupe0, i, point) && i < |corners|
      requires FirstHit(corners[i], point) == Some(j) && next == ToMagnifierSpace(Transform(), point)
      modifies this`selectedControlPointLayer, this`selectedPolygonLayer, this`selectedPolygon, this`selectedPoint
      modifies polygonLayers`selected, polygonLayers`style, Owner.Keys`selected, Owner.Keys`style
      modifies magnifierView, Marker()
      ensures Pressing(corners, touch, flags0, marks0, poly0, cp0, loupe0, i + 1, next)
      ensures Kept()
    {
      Ahead(corners, touch, flags0, marks0, poly0, cp0, loupe0, i, j, point, next);
      OwnedAt(polygonLayers, Owner, i, j);
      SelectAt(i, j, polygonLayers[i], polygonLayers[i].sublayers[j], next);
    }

    /** What the press loop stands at once polygon `i` reports control
        point `j`, in terms of the state before it is pressed. */
    lemma Ahead(corners: seq<seq<Point>>, touch: Point, flags0: seq<bool>, marks0: seq<seq<bool>>,
                poly0: PolygonLayer?, cp0: ControlPointLayer?, loupe0: Option<LoupeState>, i: nat, j: nat, point: Point, next: Point)
      requires Pressing(corners, touch, flags0, marks0, poly0, cp0, loupe0, i, point) && i < |corners|
      requires FirstHit(corners[i], point) == Some(j) && next == ToMagnifierSpace(Transform(), point)
      ensures j < |polygonLayers[i].sublayers|
      ensures Raise(flags0, Hits(corners, touch, Transform()), i + 1) == Selection()[i := true]
      ensures Mark(marks0, Hits(corners, touch, Transform()), i + 1) == Marks()[i := Marks()[i][j := true]]
      ensures ScanPoint(corners[..i + 1], touch, Transform()) == next
      ensures LastHit(corners[..i + 1], touch, Transform()) == Some(i) && HitIn(corners, i, touch, Transform()) == Some(j)
      ensures ShownOn(Loupe(), next) == ShownOn(loupe0, next)
    {
      ScanStep(corners, i, touch, Transform());
      HitsAt(corners, touch, Transform(), i);
      ShownOnAgain(loupe0, point, next);
    }

    /** touchesBegan(_:with:): without a touch nothing happens. Otherwise
        every polygon in turn hit-tests the touch, each one that reports a
        control point selects it and itself, takes the selection and moves
        the loupe, and the touch is converted for the loupe, so that later
        polygons test the converted point; earlier hits stay selected. */
    method TouchesBegan(touch: Option<Point>)
      requires Valid()
      modifies this`selectedControlPointLayer, this`selectedPolygonLayer, this`selectedPolygon, this`selectedPoint
      modifies polygonLayers`selected, polygonLayers`style, Owner.Keys`selected, Owner.Keys`style
      modifies magnifierView, Marker()
      ensures Valid() && PolygonPoints() == old(PolygonPoints())
      ensures touch.None? ==>
        && Selection() == old(Selection()) && Marks() == old(Marks()) && Loupe() == old(Loupe())
        && selectedPolygonLayer == old(selectedPolygonLayer) && selectedControlPointLayer == old(selectedControlPointLayer)
      ensures touch.Some? ==>
        var corners := old(PolygonPoints());
        Pressing(corners, touch.value, old(Selection()), old(Marks()), old(selectedPolygonLayer), old(selectedControlPointLayer),
                 old(Loupe()), |corners|, ScanPoint(corners, touch.value, Transform()))
      ensures touch.Some? && LastHit(old(PolygonPoints()), touch.value, Transform()).None? ==>
        && Selection() == old(Selection()) && Marks() == old(Marks()) && Loupe() == old(Loupe())
        && selectedPolygonLayer == old(selectedPolygonLayer) && selectedControlPointLayer == old(selectedControlPointLayer)
    {
      if touch.None? {
        return;
      }
      ghost var corners, flags, marks := PolygonPoints(), Selection(), Marks();
      var point := PressAll(touch.value, corners, flags, marks, selectedPolygonLayer, selectedControlPointLayer, Loupe());
      WholePrefix(corners, touch.value, Transform());
      if LastHit(corners, touch.value, Transform()).None? {
        MissRaisesNothing(corners, touch.value, Transform(), flags, marks);
      }
    }

    /** Lines 73-87 of touchesBegan: the loop over the polygons, from the
        touch as delivered. */
    method PressAll(touch: Point, ghost corners: seq<seq<Point>>, ghost flags0: seq<bool>, ghost marks0: seq<seq<bool>>,
                    ghost poly0: PolygonLayer?, ghost cp0: ControlPointLayer?, ghost loupe0: Option<LoupeState>)
      returns (point: Point)
      requires Pressing(corners, touch, flags0, marks0, poly0, cp0, loupe0, 0, touch)
      modifies this`selectedControlPointLayer, this`selectedPolygonLayer, this`selectedPolygon, this`selectedPoint
      modifies polygonLayers`selected, polygonLayers`style, Owner.Keys`selected, Owner.Keys`style
      modifies magnifierView, Marker()
      ensures Pressing(corners, touch, flags0, marks0, poly0, cp0, loupe0, |corners|, point)
      ensures point == ScanPoint(corners, touch, Transform())
    {
      point := touch;
      for i := 0 to |polygonLayers|
        invariant Pressing(corners, touch, flags0, marks0, poly0, cp0, loupe0, i, point)
        invariant Kept()
      {
        point := PressStep(i, point, corners, touch, flags0, marks0, poly0, cp0, loupe0);
      }
      WholePrefix(corners, touch, Transform());
    }

    /** Lines 108-114 of touchesMoved: the selected control point moves to
        `p` and its polygon redraws, when `p` lies in the polygon's frame
        with its edges; otherwise nothing changes. */
    method Drag(p: Point)
      requires Valid() && selectedPolygonLayer != null
      modifies selectedControlPointLayer`position, selectedPolygonLayer`path
      ensures Valid() && Selection() == old(Selection()) && Marks() == old(Marks())
      ensures PolygonPoints() ==
        if WithinClosed(selectedPolygonLayer.Frame(), p)
        then old(PolygonPoints())[selectedPolygon := old(PolygonPoints())[selectedPolygon][selectedPoint := p]]
        else old(PolygonPoints())
      ensures Loupe() == old(Loupe())
    {
      if WithinClosed(selectedPolygonLayer.Frame(), p) {
        MoveCorner(polygonLayers, Owner, selectedPolygonLayer, selectedControlPointLayer, selectedPolygon, selectedPoint, p);
      }
    }

    /** Lines 117-133 of touchesMoved: a loupe whose frame contains the
        touch moves to its other slot, and the loupe and its marker follow
        the touch converted as in touchesBegan. */
    method Follow(p: Point)
      requires Valid()
      modifies magnifierView, Marker()
      ensures Valid() && SceneOf(polygonLayers, Owner) == old(SceneOf(polygonLayers, Owner))
      ensures PolygonPoints() == old(PolygonPoints()) && Selection() == old(Selection()) && Marks() == old(Marks())
      ensures Loupe() == Followed(old(Loupe()), p, ToMagnifierSpace(Transform(), p), frame.size.width)
      ensures Kept()
    {
      if magnifierView != null {
        if magnifierView.frame.Contains(p) {
          magnifierView.frame := Rect(FlippedOrigin(magnifierView.frame.origin, frame.size.width), magnifierView.frame.size);
        }
        var at := ToMagnifierSpace(Transform(), p);
        magnifierView.touchLocation := Some(at);
        magnifierView.touchCenterView.center := at;
        SceneKept();
      }
    }

    /** Lines 108-133 of touchesMoved, with a selection: the selected
        point is dragged to `p` when `p` lies in its polygon's frame, and
        the loupe follows `p`. */
    method Move(p: Point)
      requires Valid() && selectedPolygonLayer != null && selectedControlPointLayer != null
      modifies Owner.Keys`position, polygonLayers`path, magnifierView, Marker()
      ensures Valid() && Kept()
      ensures selectedPolygonLayer == old(selectedPolygonLayer) && selectedControlPointLayer == old(selectedControlPointLayer)
      ensures Selection() == old(Selection()) && Marks() == old(Marks())
      ensures PolygonPoints() ==
        if WithinClosed(selectedPolygonLayer.Frame(), p)
        then old(PolygonPoints())[selectedPolygon := old(PolygonPoints())[selectedPolygon][selectedPoint := p]]
        else old(PolygonPoints())
      ensures Loupe() == Followed(old(Loupe()), p, ToMagnifierSpace(Transform(), p), frame.size.width)
    {
      OwnedAt(polygonLayers, Owner, selectedPolygon, selectedPoint);
      Drag(p);
      Follow(p);
    }

    /** touchesMoved(_:with:) with the first touch, if any: with a
        selection, the selected point is dragged to the touch when the touch
        lies in its polygon's frame, and the loupe follows the touch;
        without one nothing changes. No selection flag changes. */
    method TouchesMoved(touch: Option<Point>)
      requires Valid()
      modifies Owner.Keys`position, polygonLayers`path, magnifierView, Marker()
      ensures Valid() && Kept()
      ensures selectedPolygonLayer == old(selectedPolygonLayer) && selectedControlPointLayer == old(selectedControlPointLayer)
      ensures Selection() == old(Selection()) && Marks() == old(Marks())
      ensures touch.None? || selectedPolygonLayer == null || selectedControlPointLayer == null ==>
        PolygonPoints() == old(PolygonPoints()) && Loupe() == old(Loupe())
      ensures touch.Some? && selectedPolygonLayer != null && selectedControlPointLayer != null ==>
        && PolygonPoints() ==
             (if WithinClosed(selectedPolygonLayer.Frame(), touch.value)
              then old(PolygonPoints())[selectedPolygon := old(PolygonPoints())[selectedPolygon][selectedPoint := touch.value]]
              else old(PolygonPoints()))
        && Loupe() == Followed(old(Loupe()), touch.value, ToMagnifierSpace(Transform(), touch.value), frame.size.width)
    {
      if touch.None? || selectedPolygonLayer == null || selectedControlPointLayer == null {
        return;
      }
      Move(touch.value);
    }

    /** Nothing is selected and the loupe, if any, is hidden with its
        marker. Flags raised by earlier hits of the press loop may still be up. */
    ghost predicate Released()
      reads this, magnifierView, Marker()
    {
      && selectedControlPointLayer == null && selectedPolygonLayer == null
      && (magnifierView != null ==> magnifierView.isHidden && magnifierView.touchCenterView.isHidden)
    }

    /** Lines 91-92 of touchesEnded: the loupe and its marker are hidden. */
    method HideLoupe()
      requires Valid()
      modifies magnifierView, Marker()
      ensures Valid() && Kept()
      ensures selectedControlPointLayer == old(selectedControlPointLayer) && selectedPolygonLayer == old(selectedPolygonLayer)
      ensures PolygonPoints() == old(PolygonPoints()) && Selection() == old(Selection()) && Marks() == old(Marks())
      ensures Loupe() == HiddenLoupe(old(Loupe()))
    {
      if magnifierView != null {
        magnifierView.isHidden := true;
        magnifierView.touchCenterView.isHidden := true;
        SceneKept();
      }
    }

    /** Lines 93 and 95 of touchesEnded: the selected control point and
        polygon are deselected, which restyles them. */
    method Deselect()
      requires Valid()
      modifies polygonLayers`selected, polygonLayers`style, Owner.Keys`selected, Owner.Keys`style
      ensures Valid()
      ensures selectedControlPointLayer != null ==> !selectedControlPointLayer.selected
      ensures selectedPolygonLayer != null ==> !selectedPolygonLayer.selected
      ensures PolygonPoints() == old(PolygonPoints())
      ensures Selection() == if selectedPolygonLayer == null then old(Selection()) else old(Selection())[selectedPolygon := false]
      ensures Marks() == if selectedControlPointLayer == null then old(Marks())
        else old(Marks())[selectedPolygon := old(Marks())[selectedPolygon][selectedPoint := false]]
      ensures Loupe() == old(Loupe())
    {
      if selectedControlPointLayer != null {
        OwnedAt(polygonLayers, Owner, selectedPolygon, selectedPoint);
        SelectPoint(polygonLayers, Owner, selectedPolygon, selectedPoint, selectedControlPointLayer, false);
      }
      if selectedPolygonLayer != null {
        SelectPolygon(polygonLayers, Owner, selectedPolygon, selectedPolygonLayer, false);
      }
    }

    /** Lines 94 and 96 of touchesEnded: the view forgets the selection. */
    method Forget()
      requires Valid()
      modifies this`selectedControlPointLayer, this`selectedPolygonLayer
      ensures Valid() && SceneOf(polygonLayers, Owner) == old(SceneOf(polygonLayers, Owner))
      ensures selectedControlPointLayer == null && selectedPolygonLayer == null
    {
      selectedControlPointLayer, selectedPolygonLayer := null, null;
      SceneKept();
    }

    /** Lines 93-96 of touchesEnded: the selected control point and polygon
        are deselected, which restyles them, and forgotten. */
    method ReleaseSelection()
      requires Valid()
      modifies this`selectedControlPointLayer, this`selectedPolygonLayer
      modifies polygonLayers`selected, polygonLayers`style, Owner.Keys`selected, Owner.Keys`style
      ensures Valid()
      ensures selectedControlPointLayer == null && selectedPolygonLayer == null
      ensures old(selectedControlPointLayer) != null ==> !old(selectedControlPointLayer).selected
      ensures old(selectedPolygonLayer) != null ==> !old(selectedPolygonLayer).selected
      ensures PolygonPoints() == old(PolygonPoints())
      ensures Selection() == if old(selectedPolygonLayer) == null then old(Selection()) else old(Selection())[old(selectedPolygon) := false]
      ensures Marks() == if old(selectedControlPointLayer) == null then old(Marks())
        else old(Marks())[old(selectedPolygon) := old(Marks())[old(selectedPolygon)][old(selectedPoint) := false]]
      ensures Loupe() == old(Loupe())
    {
      // Nothing observes the two view properties, so clearing both after
      // both flags are down is the same as clearing each after its flag.
      Deselect();
      Forget();
    }

    /** touchesEnded(_:with:): the loupe and its marker are hidden and the
        selected control point and polygon are deselected and forgotten. */
    method TouchesEnded()
      requires Valid()
      modifies this`selectedControlPointLayer, this`selectedPolygonLayer
      modifies polygonLayers`selected, polygonLayers`style, Owner.Keys`selected, Owner.Keys`style, magnifierView, Marker()
      ensures Valid() && Released()
      ensures old(selectedControlPointLayer) != null ==> !old(selectedControlPointLayer).selected
      ensures old(selectedPolygonLayer) != null ==> !old(selectedPolygonLayer).selected
      ensures PolygonPoints() == old(PolygonPoints())
      ensures Selection() == if old(selectedPolygonLayer) == null then old(Selection()) else old(Selection())[old(selectedPolygon) := false]
      ensures Marks() == if old(selectedControlPointLayer) == null then old(Marks())
        else old(Marks())[old(selectedPolygon) := old(Marks())[old(selectedPolygon)][old(selectedPoint) := false]]
      ensures Loupe() == HiddenLoupe(old(Loupe()))
    {
      HideLoupe();
      ReleaseSelection();
    }

    /** A second touchesEnded changes nothing: releasing twice ends as
        releasing once, since the second release finds nothing selected
        and the loupe already hidden. */
    method TouchesEndedTwice()
      requires Valid()
      modifies this`selectedControlPointLayer, this`selectedPolygonLayer
      modifies polygonLayers`selected, polygonLayers`style, Owner.Keys`selected, Owner.Keys`style, magnifierView, Marker()
      ensures Valid() && Released()
      ensures PolygonPoints() == old(PolygonPoints())
      ensures Selection() == if old(selectedPolygonLayer) == null then old(Selection()) else old(Selection())[old(selectedPolygon) := false]
      ensures Marks() == if old(selectedControlPointLayer) == null then old(Marks())
        else old(Marks())[old(selectedPolygon) := old(Marks())[old(selectedPolygon)][old(selectedPoint) := false]]
      ensures Loupe() == HiddenLoupe(old(Loupe()))
    {
      TouchesEnded();
      TouchesEnded();
      HiddenLoupeTwice(old(Loupe()));
    }
  }
}
