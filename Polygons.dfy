/** A polygon: a shape layer whose sublayers are its control points, in
    drawing order, and whose path is the closed polyline through them. */
module Polygons {
  import opened Geometry
  import opened Styles
  import opened ControlPoints

  const EmptyPathMessage := "Add the control points before updating the layer path."

  /** The positions of control points, in order. */
  function Positions(cps: seq<ControlPointLayer>): (r: seq<Point>)
    reads cps
    ensures |r| == |cps| && forall k :: 0 <= k < |cps| ==> r[k] == cps[k].position
  {
    seq(|cps|, k requires 0 <= k < |cps| reads cps => cps[k].position)
  }

  /** The selection flag of each control point of `cps`, in order. */
  function Selections(cps: seq<ControlPointLayer>): (r: seq<bool>)
    reads cps
    ensures |r| == |cps| && forall k :: 0 <= k < |cps| ==> r[k] == cps[k].selected
  {
    seq(|cps|, k requires 0 <= k < |cps| reads cps => cps[k].selected)
  }

  /** One `LineTo` per point of `ps[lo..hi]`, in order. */
  function LinesBetween(ps: seq<Point>, lo: nat, hi: nat): (r: seq<PathCommand>)
    requires lo <= hi <= |ps|
    ensures |r| == hi - lo && forall i :: 0 <= i < hi - lo ==> r[i] == LineTo(ps[lo + i])
  {
    seq(hi - lo, i requires 0 <= i < hi - lo => LineTo(ps[lo + i]))
  }

  /** The path `updatePath` builds: move to the first point, a line to each
      later point, then close. */
  function ClosedPath(ps: seq<Point>): (r: seq<PathCommand>)
    requires |ps| > 0
    ensures |r| == |ps| + 1
  {
    [MoveTo(ps[0])] + LinesBetween(ps, 1, |ps|) + [Close]
  }

  /** The edges of the closed polygon through `ps`: each point to the next,
      and the last back to the first. */
  function PolygonEdges(ps: seq<Point>): (r: seq<Segment>)
    requires |ps| > 0
  {
    seq(|ps|, i requires 0 <= i < |ps| => Segment(ps[i], if i + 1 < |ps| then ps[i + 1] else ps[0]))
  }

  lemma {:induction false} VerticesOfLines(ps: seq<Point>, lo: nat)
    requires lo <= |ps|
    ensures Vertices(LinesBetween(ps, lo, |ps|) + [Close]) == ps[lo..]
    decreases |ps| - lo
  {
    if lo < |ps| {
      assert LinesBetween(ps, lo, |ps|) + [Close] == [LineTo(ps[lo])] + (LinesBetween(ps, lo + 1, |ps|) + [Close]);
      VerticesOfLines(ps, lo + 1);
      assert ps[lo..] == [ps[lo]] + ps[lo + 1..];
    } else {
      assert LinesBetween(ps, lo, |ps|) + [Close] == [Close];
    }
  }

  /** The path visits every point exactly once, in insertion order. */
  lemma {:induction false} ClosedPathVisitsPoints(ps: seq<Point>)
    requires |ps| > 0
    ensures Vertices(ClosedPath(ps)) == ps
  {
    assert ClosedPath(ps) == [MoveTo(ps[0])] + (LinesBetween(ps, 1, |ps|) + [Close]);
    VerticesOfLines(ps, 1);
    assert [ps[0]] + ps[1..] == ps;
  }

  lemma {:induction false} TraceOfLines(ps: seq<Point>, lo: nat, start: Point, current: Point)
    requires lo <= |ps|
    ensures |Trace(LinesBetween(ps, lo, |ps|) + [Close], start, current)| == |ps| - lo + 1
    ensures forall i :: lo <= i < |ps| ==>
      Trace(LinesBetween(ps, lo, |ps|) + [Close], start, current)[i - lo] == Segment(if i == lo then current else ps[i - 1], ps[i])
    ensures Trace(LinesBetween(ps, lo, |ps|) + [Close], start, current)[|ps| - lo] ==
      Segment(if lo == |ps| then current else ps[|ps| - 1], start)
    decreases |ps| - lo
  {
    var path := LinesBetween(ps, lo, |ps|) + [Close];
    if lo < |ps| {
      assert path == [LineTo(ps[lo])] + (LinesBetween(ps, lo + 1, |ps|) + [Close]);
      assert path[1..] == LinesBetween(ps, lo + 1, |ps|) + [Close];
      TraceOfLines(ps, lo + 1, start, ps[lo]);
    } else {
      assert path == [Close];
    }
  }

  /** Drawn as it is recorded, the path is exactly the closed polygon: it
      returns from the last point to the first. */
  lemma ClosedPathDrawsPolygon(ps: seq<Point>, start: Point, current: Point)
    requires |ps| > 0
    ensures Trace(ClosedPath(ps), start, current) == PolygonEdges(ps)
  {
    var path := ClosedPath(ps);
    assert path[0] == MoveTo(ps[0]);
    assert path[1..] == LinesBetween(ps, 1, |ps|) + [Close];
    TraceOfLines(ps, 1, ps[0], ps[0]);
    var t := Trace(path, start, current);
    assert t == Trace(path[1..], ps[0], ps[0]);
  }

  /** What `init(layer:)` may be handed: another polygon, or some other layer. */
  datatype PolygonSource = PolygonLayerSource(layer: PolygonLayer) | OtherPolygonSource

  class PolygonLayer {
    var polygonConfiguration: PolygonConfig
    var controlPointsConfiguration: PointConfig
    var selected: bool
    /** fillColor, strokeColor and lineWidth. */
    var style: Style
    var sublayers: seq<ControlPointLayer>
    /** The shape layer's path; absent until the first successful `updatePath`. */
    var path: Option<seq<PathCommand>>
    var position: Point
    var bounds: Rect

    /** The `points` getter: the positions of the sublayers in sublayer
        order (an absent sublayer list reads as empty). */
    function Points(): (r: seq<Point>)
      reads this`sublayers, sublayers
      ensures |r| == |sublayers| && forall k :: 0 <= k < |sublayers| ==> r[k] == sublayers[k].position
    {
      Positions(sublayers)
    }

    /** The control points are distinct layers, each with the 20x20 bounds
        it was created with and a style matching its flag. */
    ghost predicate Structured()
      reads this`sublayers, sublayers
    {
      && (forall i, j :: 0 <= i < j < |sublayers| ==> sublayers[i] != sublayers[j])
      && (forall c :: c in sublayers ==> c.Valid() && c.bounds == PointBounds)
    }

    /** The path is never stale: it is the closed path through the current points. */
    ghost predicate PathConsistent()
      reads this`sublayers, this`path, sublayers
    {
      if |sublayers| == 0 then path == None else path == Some(ClosedPath(Points()))
    }

    ghost predicate Valid()
      reads this`sublayers, this`path, this`style, this`polygonConfiguration, this`selected, sublayers
    {
      Structured() && PathConsistent() && style == PolygonStyle(polygonConfiguration, selected)
    }

    /** init(initialPoints:polygonConfiguration:pointsConfiguration:). */
    constructor (initialPoints: seq<Point>, polygonConfig: Option<PolygonConfig>, pointsConfig: Option<PointConfig>)
      ensures Valid() && !selected
      ensures polygonConfiguration == (if polygonConfig.Some? then polygonConfig.value else DefaultPolygonConfig)
      ensures controlPointsConfiguration == (if pointsConfig.Some? then pointsConfig.value else DefaultPointConfig)
      ensures Points() == initialPoints
      ensures style == PolygonStyle(polygonConfiguration, false)
      ensures forall c :: c in sublayers ==> fresh(c) && !c.selected && c.configuration == controlPointsConfiguration
      ensures position == Origin && bounds == Rect(Origin, Size(0.0, 0.0))
    {
      polygonConfiguration := if polygonConfig.Some? then polygonConfig.value else DefaultPolygonConfig;
      controlPointsConfiguration := if pointsConfig.Some? then pointsConfig.value else DefaultPointConfig;
      selected := false;
      style := Style(Named("black"), Named("none"), 1.0);
      sublayers := [];
      path := None;
      position := Origin;
      bounds := Rect(Origin, Size(0.0, 0.0));
      new;
      Populate(initialPoints);
      UpdateState(selected);
    }

    /** init(layer:): both configurations are copied from a polygon and
        are the defaults otherwise; the flag starts false without running
        its observer. */
    constructor Copy(source: PolygonSource)
      ensures polygonConfiguration ==
        (if source.PolygonLayerSource? then source.layer.polygonConfiguration else DefaultPolygonConfig)
      ensures controlPointsConfiguration ==
        (if source.PolygonLayerSource? then source.layer.controlPointsConfiguration else DefaultPointConfig)
      ensures !selected
    {
      match source {
        case PolygonLayerSource(l) =>
          polygonConfiguration, controlPointsConfiguration := l.polygonConfiguration, l.controlPointsConfiguration;
        case OtherPolygonSource =>
          polygonConfiguration, controlPointsConfiguration := DefaultPolygonConfig, DefaultPointConfig;
      }
      selected := false;
      style := Style(Named("black"), Named("none"), 1.0);
      sublayers := [];
      path := None;
      position := Origin;
      bounds := Rect(Origin, Size(0.0, 0.0));
    }

    /** The body of the initializer on a layer without control points: the
        points are added and the path is built through them. */
    method Populate(initialPoints: seq<Point>)
      requires sublayers == [] && path == None
      modifies this`sublayers, this`path
      ensures Structured() && PathConsistent() && Points() == initialPoints
      ensures forall c :: c in sublayers ==> fresh(c) && !c.selected && c.configuration == controlPointsConfiguration
    {
      Seed(initialPoints);
      var _ := UpdatePath();
    }

    /** The control points of a layer that had none: one fresh, unselected
        point per initial point. */
    method Seed(initialPoints: seq<Point>)
      requires sublayers == []
      modifies this`sublayers
      ensures Structured() && Points() == initialPoints
      ensures forall c :: c in sublayers ==> fresh(c) && !c.selected && c.configuration == controlPointsConfiguration
    {
      AddControlPoints(initialPoints);
      forall c | c in sublayers ensures fresh(c) && !c.selected && c.configuration == controlPointsConfiguration {
        var k :| 0 <= k < |sublayers| && sublayers[k] == c;
      }
    }

    /** addControlPoints(_:): one new control point per element, appended in
        order after the existing ones, with 20x20 bounds at the origin. */
    method AddControlPoints(ps: seq<Point>)
      modifies this`sublayers
      ensures |sublayers| == old(|sublayers|) + |ps| && sublayers[..old(|sublayers|)] == old(sublayers)
      ensures Points() == old(Points()) + ps
      ensures forall k :: old(|sublayers|) <= k < |sublayers| ==>
        fresh(sublayers[k]) && sublayers[k].bounds == PointBounds && !sublayers[k].selected
        && sublayers[k].Valid() && sublayers[k].configuration == controlPointsConfiguration
      ensures old(Structured()) ==> Structured()
    {
      ghost var before := sublayers;
      ghost var pointsBefore := Points();
      for i := 0 to |ps|
        invariant |sublayers| == |before| + i && sublayers[..|before|] == before
        invariant Points() == pointsBefore + ps[..i]
        invariant forall k :: |before| <= k < |sublayers| ==>
          fresh(sublayers[k]) && sublayers[k].bounds == PointBounds && !sublayers[k].selected
          && sublayers[k].Valid() && sublayers[k].configuration == controlPointsConfiguration
        invariant forall j, k :: |before| <= j < k < |sublayers| ==> sublayers[j] != sublayers[k]
      {
        var pointLayer := new ControlPointLayer(Some(controlPointsConfiguration));
        pointLayer.bounds := PointBounds;
        pointLayer.position := ps[i];
        sublayers := sublayers + [pointLayer];
      }
      assert ps[..|ps|] == ps;
    }

    /** updatePath(): with no points it reports the diagnostic and keeps the
        old path; otherwise the path becomes the closed path through the
        current points, so a second call changes nothing. */
    method UpdatePath() returns (diagnostic: Option<string>)
      modifies this`path
      ensures |Points()| == 0 ==> path == old(path) && diagnostic == Some(EmptyPathMessage)
      ensures |Points()| > 0 ==> path == Some(ClosedPath(Points())) && diagnostic == None
      ensures old(PathConsistent()) ==> path == old(path)
    {
      var pts := Points();
      if |pts| == 0 {
        return Some(EmptyPathMessage);
      }
      var cmds := [MoveTo(pts[0])];
      for i := 1 to |pts|
        invariant cmds == [MoveTo(pts[0])] + LinesBetween(pts, 1, i)
      {
        assert LinesBetween(pts, 1, i + 1) == LinesBetween(pts, 1, i) + [LineTo(pts[i])];
        cmds := cmds + [LineTo(pts[i])];
      }
      path := Some(cmds + [Close]);
      diagnostic := None;
    }

    /** Setting `selected`; its observer applies the matching style. */
    method SetSelected(isSelected: bool)
      modifies this`selected, this`style
      ensures selected == isSelected
      ensures style == PolygonStyle(polygonConfiguration, isSelected)
      ensures old(Valid()) ==> Valid()
    {
      selected := isSelected;
      UpdateState(selected);
    }

    /** updateState(isSelected:): the selected fill, line colour and width
        when selected, the normal ones otherwise. */
    method UpdateState(isSelected: bool)
      modifies this`style
      ensures style == PolygonStyle(polygonConfiguration, isSelected)
    {
      var fill := if isSelected then polygonConfiguration.selectedFillColor else polygonConfiguration.fillColor;
      var stroke := if isSelected then polygonConfiguration.selectedLineColor else polygonConfiguration.lineColor;
      var width := if isSelected then polygonConfiguration.selectedLineWidth else polygonConfiguration.lineWidth;
      style := Style(fill, stroke, width);
    }

    /** The layer's frame in its superlayer. */
    function Frame(): Rect
      reads this`position, this`bounds
    {
      FrameOf(position, bounds)
    }

    /** Setting `frame`: the position moves to the frame's centre and the
        bounds take its size, keeping their origin. */
    method SetFrame(f: Rect)
      modifies this`position, this`bounds
      ensures Frame() == f && bounds.origin == old(bounds.origin)
    {
      position := Point(f.MidX(), f.MidY());
      bounds := Rect(bounds.origin, f.size);
    }
  }
}
