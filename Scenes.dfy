/** Collections of polygons as the view holds them: the control points they
    own, the points they draw and the consistency of the whole set. The
    program has no such file: these are `PolygonView`'s operations on its
    polygon list, kept apart so that each proof about the view stays small. */
module Scenes {
  import opened Geometry
  import opened Styles
  import opened ControlPoints
  import opened Polygons
  import opened Touches

  /** Every control point of every polygon in `ps` is recorded in `owner`
      as belonging to that polygon, so no point is shared. */
  ghost predicate Owned(ps: seq<PolygonLayer>, owner: map<ControlPointLayer, PolygonLayer>)
    reads ps
  {
    forall p, c :: p in ps && c in p.sublayers ==> c in owner && owner[c] == p
  }

  /** Control point `j` of polygon `i` is owned by that polygon. */
  lemma OwnedAt(ps: seq<PolygonLayer>, owner: map<ControlPointLayer, PolygonLayer>, i: nat, j: nat)
    requires Owned(ps, owner) && i < |ps| && j < |ps[i].sublayers|
    ensures ps[i].sublayers[j] in owner && owner[ps[i].sublayers[j]] == ps[i]
  {
    assert ps[i] in ps && ps[i].sublayers[j] in ps[i].sublayers;
  }

  /** The points of each polygon in `ps`, polygon by polygon. */
  ghost function PointsOf(ps: seq<PolygonLayer>, owner: map<ControlPointLayer, PolygonLayer>): (r: seq<seq<Point>>)
    requires Owned(ps, owner)
    reads ps, owner.Keys
    ensures |r| == |ps| && forall i :: 0 <= i < |ps| ==> r[i] == ps[i].Points()
  {
    seq(|ps|, i requires 0 <= i < |ps| && (forall c :: c in ps[i].sublayers ==> c in owner)
              reads ps, owner.Keys => ps[i].Points())
  }

  /** The selection flag of each polygon in `ps`. */
  function PolygonFlags(ps: seq<PolygonLayer>): (r: seq<bool>)
    reads ps
    ensures |r| == |ps| && forall i :: 0 <= i < |ps| ==> r[i] == ps[i].selected
  {
    seq(|ps|, i requires 0 <= i < |ps| reads ps => ps[i].selected)
  }

  /** The selection flags of the control points of each polygon in `ps`,
      polygon by polygon. */
  ghost function PointFlags(ps: seq<PolygonLayer>, owner: map<ControlPointLayer, PolygonLayer>): (r: seq<seq<bool>>)
    requires Owned(ps, owner)
    reads ps, owner.Keys
    ensures |r| == |ps| && forall i :: 0 <= i < |ps| ==> r[i] == Selections(ps[i].sublayers)
  {
    seq(|ps|, i requires 0 <= i < |ps| && (forall c :: c in ps[i].sublayers ==> c in owner)
              reads ps, owner.Keys => Selections(ps[i].sublayers))
  }

  /** `PointsOf` is determined by the points of each polygon. */
  lemma PointsOfIs(ps: seq<PolygonLayer>, owner: map<ControlPointLayer, PolygonLayer>, pts: seq<seq<Point>>)
    requires Owned(ps, owner) && |pts| == |ps| && forall k :: 0 <= k < |ps| ==> ps[k].Points() == pts[k]
    ensures PointsOf(ps, owner) == pts
  {
  }

  /** Every control point is accounted for, no polygon appears twice and
      every polygon is consistent. */
  ghost predicate LayersValid(ps: seq<PolygonLayer>, owner: map<ControlPointLayer, PolygonLayer>)
    reads ps, owner.Keys
  {
    && (forall i, j :: 0 <= i < j < |ps| ==> ps[i] != ps[j])
    && Owned(ps, owner)
    && (forall p :: p in ps ==> p.Valid())
  }

  /** Everything the polygons of `ps` hold, as one value. */
  datatype Scene = Scene(valid: bool, points: seq<seq<Point>>, flags: seq<bool>, marks: seq<seq<bool>>)

  /** The polygons of a view together with the owner of each control point. */
  datatype Layers = Layers(ps: seq<PolygonLayer>, owner: map<ControlPointLayer, PolygonLayer>)

  ghost function SceneOf(ps: seq<PolygonLayer>, owner: map<ControlPointLayer, PolygonLayer>): Scene
    reads ps, owner.Keys
  {
    if LayersValid(ps, owner) then Scene(true, PointsOf(ps, owner), PolygonFlags(ps), PointFlags(ps, owner))
    else Scene(false, [], [], [])
  }

  /** The selection is either empty or the control point `cp`, at index
      `j` of the polygon `poly`, which is at index `i` of `ps`. */
  ghost predicate SelectionAt(ps: seq<PolygonLayer>, poly: PolygonLayer?, cp: ControlPointLayer?, i: nat, j: nat)
    reads poly
  {
    && ((poly == null) == (cp == null))
    && (poly != null ==>
          && i < |ps| && ps[i] == poly
          && j < |poly.sublayers| && poly.sublayers[j] == cp)
  }

  /** Appending a polygon leaves an existing selection where it was. */
  lemma AppendKeepsSelection(ps: seq<PolygonLayer>, q: PolygonLayer, poly: PolygonLayer?, cp: ControlPointLayer?, i: nat, j: nat)
    requires SelectionAt(ps, poly, cp, i, j)
    ensures SelectionAt(ps + [q], poly, cp, i, j)
  {
  }

  /** `p` is the polygon `addPolygon` builds: through `points`, unselected,
      with the given configurations (or the defaults) and covering `area`;
      its control points are unselected and carry the points configuration. */
  ghost predicate Placed(p: PolygonLayer, points: seq<Point>, polygonConfig: Option<PolygonConfig>,
                         pointsConfig: Option<PointConfig>, area: Rect)
    reads p, p.sublayers
  {
    && p.Points() == points && !p.selected
    && p.bounds == area && p.position == Point(area.MidX(), area.MidY())
    && p.polygonConfiguration == (if polygonConfig.Some? then polygonConfig.value else DefaultPolygonConfig)
    && p.controlPointsConfiguration == (if pointsConfig.Some? then pointsConfig.value else DefaultPointConfig)
    && forall c :: c in p.sublayers ==> !c.selected && c.configuration == p.controlPointsConfiguration
  }

  /** A change that keeps every polygon's sublayers, path and configuration
      and every control point's position, bounds and configuration, with
      every style still in step with its flag, moves no point and keeps
      every polygon consistent. */
  twostate lemma ShapesKept(ps: seq<PolygonLayer>)
    requires old(forall p :: p in ps ==> p.Valid())
    requires forall p :: p in ps ==>
      && p.sublayers == old(p.sublayers) && p.path == old(p.path)
      && p.polygonConfiguration == old(p.polygonConfiguration)
      && p.style == PolygonStyle(p.polygonConfiguration, p.selected)
    requires forall p, c :: p in ps && c in p.sublayers ==>
      && c.position == old(c.position) && c.bounds == old(c.bounds)
      && c.configuration == old(c.configuration) && c.Valid()
    ensures forall p :: p in ps ==> p.Valid() && p.Points() == old(p.Points())
  {
    forall p | p in ps
      ensures p.Points() == old(p.Points()) && p.Valid()
    {
      assert p.Points() == old(p.Points());
    }
  }

  /** `sublayers.first(where: { $0.hitTest(point) != nil })`: the index of
      the first control point whose hit test accepts `p`. */
  function FirstHitLayer(cps: seq<ControlPointLayer>, p: Point): (r: Option<nat>)
    reads cps
    ensures r.Some? ==> r.value < |cps| && cps[r.value].HitTest(p)
    ensures r.Some? ==> forall j :: 0 <= j < r.value ==> !cps[j].HitTest(p)
    ensures r.None? <==> forall j :: 0 <= j < |cps| ==> !cps[j].HitTest(p)
    decreases |cps|
  {
    if cps == [] then None
    else if cps[0].HitTest(p) then Some(0)
    else match FirstHitLayer(cps[1..], p)
      case None => None
      case Some(k) => Some(k + 1)
  }

  /** With the 20x20 bounds every control point gets, the search over the
      layers finds the same point as the search over their positions. */
  lemma {:induction false} FirstHitLayerIsFirstHit(cps: seq<ControlPointLayer>, p: Point)
    requires forall c :: c in cps ==> c.bounds == PointBounds
    ensures FirstHitLayer(cps, p) == FirstHit(Positions(cps), p)
    decreases |cps|
  {
    if cps != [] {
      assert Positions(cps)[1..] == Positions(cps[1..]);
      FirstHitLayerIsFirstHit(cps[1..], p);
    }
  }

  /** Among consistent polygons the layer search over polygon `i` finds
      the same point as the search over its points. */
  lemma HitLayerOf(ps: seq<PolygonLayer>, owner: map<ControlPointLayer, PolygonLayer>, i: nat, p: Point)
    requires LayersValid(ps, owner) && i < |ps|
    ensures FirstHitLayer(ps[i].sublayers, p) == FirstHit(PointsOf(ps, owner)[i], p)
  {
    assert ps[i].Valid();
    FirstHitLayerIsFirstHit(ps[i].sublayers, p);
  }

  /** Polygon `i` is no other polygon, owns each of its control points,
      shares none with any other polygon and holds each of its own once. */
  lemma Separate(ps: seq<PolygonLayer>, owner: map<ControlPointLayer, PolygonLayer>, i: nat)
    requires LayersValid(ps, owner) && i < |ps|
    ensures forall c :: c in ps[i].sublayers ==> c in owner && owner[c] == ps[i]
    ensures forall k :: 0 <= k < |ps| && k != i ==> ps[k] != ps[i]
    ensures forall k, l :: 0 <= k < |ps| && k != i && 0 <= l < |ps[k].sublayers| ==> ps[k].sublayers[l] !in ps[i].sublayers
    ensures forall l, m :: 0 <= l < |ps[i].sublayers| && 0 <= m < |ps[i].sublayers| && l != m ==>
      ps[i].sublayers[l] != ps[i].sublayers[m]
  {
    forall k, l | 0 <= k < |ps| && k != i && 0 <= l < |ps[k].sublayers|
      ensures ps[k].sublayers[l] !in ps[i].sublayers
    {
      assert owner[ps[k].sublayers[l]] == ps[k];
    }
    assert ps[i].Valid();
  }

  /** A control point sits at exactly one place among consistent polygons. */
  lemma CornerAt(ps: seq<PolygonLayer>, owner: map<ControlPointLayer, PolygonLayer>, i: nat, j: nat, k: nat, l: nat)
    requires LayersValid(ps, owner)
    requires i < |ps| && j < |ps[i].sublayers| && k < |ps| && l < |ps[k].sublayers|
    requires ps[i].sublayers[j] == ps[k].sublayers[l]
    ensures i == k && j == l
  {
    var c := ps[i].sublayers[j];
    assert owner[c] == ps[i] && owner[c] == ps[k];
    assert ps[i].Valid();
  }

  /** Setting the flag of control point `j` of polygon `i` changes that
      one entry of the control-point flags and no polygon flag. */
  method FlagPoint(ghost ps: seq<PolygonLayer>, ghost owner: map<ControlPointLayer, PolygonLayer>,
                   ghost i: nat, ghost j: nat, cp: ControlPointLayer, isSelected: bool)
    requires Owned(ps, owner) && i < |ps| && j < |ps[i].sublayers| && ps[i].sublayers[j] == cp
    requires forall k, l :: 0 <= k < |ps| && k != i && 0 <= l < |ps[k].sublayers| ==> ps[k].sublayers[l] != cp
    requires forall l :: 0 <= l < |ps[i].sublayers| && l != j ==> ps[i].sublayers[l] != cp
    modifies cp`selected, cp`style
    ensures cp.selected == isSelected && cp.Valid() && cp.style == PointStyle(cp.configuration, isSelected)
    ensures PolygonFlags(ps) == old(PolygonFlags(ps))
    ensures PointFlags(ps, owner) == old(PointFlags(ps, owner))[i := old(PointFlags(ps, owner))[i][j := isSelected]]
  {
    ghost var before := PointFlags(ps, owner);
    cp.SetSelected(isSelected);
    forall k | 0 <= k < |ps|
      ensures Selections(ps[k].sublayers) == if k == i then before[i][j := isSelected] else before[k]
    {
    }
  }

  /** Setting the flag of control point `j` of polygon `i` restyles it,
      changes no other flag and leaves every polygon consistent and its
      points where they were. */
  method SelectPoint(ghost ps: seq<PolygonLayer>, ghost owner: map<ControlPointLayer, PolygonLayer>,
                     ghost i: nat, ghost j: nat, cp: ControlPointLayer, isSelected: bool)
    requires LayersValid(ps, owner) && i < |ps| && j < |ps[i].sublayers| && ps[i].sublayers[j] == cp
    modifies cp`selected, cp`style
    ensures cp.selected == isSelected
    ensures LayersValid(ps, owner) && PointsOf(ps, owner) == old(PointsOf(ps, owner))
    ensures PolygonFlags(ps) == old(PolygonFlags(ps))
    ensures PointFlags(ps, owner) == old(PointFlags(ps, owner))[i := old(PointFlags(ps, owner))[i][j := isSelected]]
  {
    Separate(ps, owner, i);
    ghost var pts := PointsOf(ps, owner);
    FlagPoint(ps, owner, i, j, cp, isSelected);
    ShapesKept(ps);
    PointsOfIs(ps, owner, pts);
  }

  /** A change that keeps every polygon's control points keeps their owners. */
  twostate lemma OwnedKept(l: Layers)
    requires old(Owned(l.ps, l.owner))
    requires forall p :: p in l.ps ==> p.sublayers == old(p.sublayers)
    ensures Owned(l.ps, l.owner)
  {
  }

  /** A change that keeps every polygon consistent, with the same control
      points at the same positions, keeps the polygons consistent together
      and their points. */
  twostate lemma Reshaped(l: Layers)
    requires old(LayersValid(l.ps, l.owner))
    requires forall p :: p in l.ps ==> p.sublayers == old(p.sublayers) && p.Valid() && p.Points() == old(p.Points())
    ensures LayersValid(l.ps, l.owner) && PointsOf(l.ps, l.owner) == old(PointsOf(l.ps, l.owner))
  {
    OwnedKept(l);
    PointsOfIs(l.ps, l.owner, old(PointsOf(l.ps, l.owner)));
  }

  /** When no polygon's control points and no control point change,
      ownership and the control-point flags stay as they were. */
  twostate lemma MarksKept(l: Layers)
    requires old(Owned(l.ps, l.owner))
    requires forall p :: p in l.ps ==> p.sublayers == old(p.sublayers)
    requires unchanged(l.owner.Keys)
    ensures Owned(l.ps, l.owner) && PointFlags(l.ps, l.owner) == old(PointFlags(l.ps, l.owner))
  {
    forall k | 0 <= k < |l.ps| ensures Selections(l.ps[k].sublayers) == old(Selections(l.ps[k].sublayers)) {
    }
  }

  /** A change that only restyles polygons, each in step with its flag,
      keeps the polygons consistent, their points and the control-point
      flags. */
  twostate lemma Restyled(l: Layers)
    requires old(LayersValid(l.ps, l.owner))
    requires unchanged(l.owner.Keys)
    requires forall p :: p in l.ps ==>
      && p.sublayers == old(p.sublayers) && p.path == old(p.path)
      && p.polygonConfiguration == old(p.polygonConfiguration)
      && p.style == PolygonStyle(p.polygonConfiguration, p.selected)
    ensures LayersValid(l.ps, l.owner) && PointsOf(l.ps, l.owner) == old(PointsOf(l.ps, l.owner))
    ensures PointFlags(l.ps, l.owner) == old(PointFlags(l.ps, l.owner))
  {
    ShapesKept(l.ps);
    MarksKept(l);
    PointsOfIs(l.ps, l.owner, old(PointsOf(l.ps, l.owner)));
  }

  /** Setting the flag of polygon `i` restyles it, changes no other flag
      and leaves every polygon consistent and its points where they were. */
  method SelectPolygon(ghost ps: seq<PolygonLayer>, ghost owner: map<ControlPointLayer, PolygonLayer>,
                       ghost i: nat, poly: PolygonLayer, isSelected: bool)
    requires LayersValid(ps, owner) && i < |ps| && ps[i] == poly
    modifies poly`selected, poly`style
    ensures poly.selected == isSelected
    ensures LayersValid(ps, owner) && PointsOf(ps, owner) == old(PointsOf(ps, owner))
    ensures PolygonFlags(ps) == old(PolygonFlags(ps))[i := isSelected]
    ensures PointFlags(ps, owner) == old(PointFlags(ps, owner))
  {
    poly.SetSelected(isSelected);
    Restyled(Layers(ps, owner));
  }

  /** Moving control points keeps every polygon consistent as long as
      each polygon either rebuilt its path or kept its path and points. */
  twostate lemma Repositioned(ps: seq<PolygonLayer>)
    requires old(forall p :: p in ps ==> p.Valid())
    requires forall p :: p in ps ==>
      && p.sublayers == old(p.sublayers) && p.style == old(p.style)
      && p.polygonConfiguration == old(p.polygonConfiguration) && p.selected == old(p.selected)
      && (forall c :: c in p.sublayers ==>
            && c.bounds == old(c.bounds) && c.style == old(c.style)
            && c.configuration == old(c.configuration) && c.selected == old(c.selected))
      && (|| p.PathConsistent()
          || (p.path == old(p.path) && forall c :: c in p.sublayers ==> c.position == old(c.position)))
    ensures forall p :: p in ps ==> p.Valid()
  {
    forall p | p in ps ensures p.Valid() {
      assert old(p.Valid());
      if p.path == old(p.path) && forall c :: c in p.sublayers ==> c.position == old(c.position) {
        assert p.Points() == old(p.Points());
      }
    }
  }

  /** The control point at `(i, j)` belongs to no other polygon and sits
      at no other index of its own. */
  lemma CornerUnique(ps: seq<PolygonLayer>, owner: map<ControlPointLayer, PolygonLayer>, i: nat, j: nat)
    requires LayersValid(ps, owner)
    requires i < |ps| && j < |ps[i].sublayers|
    ensures forall p, c :: p in ps && p != ps[i] && c in p.sublayers ==> c != ps[i].sublayers[j]
    ensures forall k, l :: 0 <= k < |ps| && 0 <= l < |ps[k].sublayers| && ps[k].sublayers[l] == ps[i].sublayers[j] ==>
      k == i && l == j
  {
    forall p, c | p in ps && p != ps[i] && c in p.sublayers ensures c != ps[i].sublayers[j] {
      assert owner[c] == p && owner[ps[i].sublayers[j]] == ps[i];
    }
    forall k, l | 0 <= k < |ps| && 0 <= l < |ps[k].sublayers| && ps[k].sublayers[l] == ps[i].sublayers[j]
      ensures k == i && l == j
    {
      CornerAt(ps, owner, i, j, k, l);
    }
  }

  /** The control point takes the new position and its polygon rebuilds
      its path through the points as they now are. */
  method Shift(poly: PolygonLayer, cp: ControlPointLayer, to: Point)
    requires cp in poly.sublayers
    modifies cp`position, poly`path
    ensures cp.position == to && poly.PathConsistent()
  {
    cp.position := to;
    var _ := poly.UpdatePath();
  }

  /** `Shift` among consistent polygons keeps all of them consistent. */
  method ShiftWithin(ghost ps: seq<PolygonLayer>, ghost owner: map<ControlPointLayer, PolygonLayer>,
                     poly: PolygonLayer, cp: ControlPointLayer, to: Point)
    requires LayersValid(ps, owner) && poly in ps && cp in poly.sublayers
    requires forall p, c :: p in ps && p != poly && c in p.sublayers ==> c != cp
    modifies cp`position, poly`path
    ensures cp.position == to
    ensures LayersValid(ps, owner)
  {
    Shift(poly, cp, to);
    Repositioned(ps);
    OwnedKept(Layers(ps, owner));
  }

  /** Lines 112-113 of touchesMoved: one control point of one polygon
      moves, every other point stays and every polygon stays consistent. */
  method MoveCorner(ghost ps: seq<PolygonLayer>, ghost owner: map<ControlPointLayer, PolygonLayer>,
                    poly: PolygonLayer, cp: ControlPointLayer, ghost i: nat, ghost j: nat, to: Point)
    requires LayersValid(ps, owner)
    requires i < |ps| && ps[i] == poly && j < |poly.sublayers| && poly.sublayers[j] == cp
    modifies cp`position, poly`path
    ensures LayersValid(ps, owner)
    ensures PointsOf(ps, owner) == old(PointsOf(ps, owner))[i := old(poly.Points())[j := to]]
    ensures PolygonFlags(ps) == old(PolygonFlags(ps)) && PointFlags(ps, owner) == old(PointFlags(ps, owner))
  {
    ghost var flags, marks := PolygonFlags(ps), PointFlags(ps, owner);
    CornerUnique(ps, owner, i, j);
    ghost var moved := PointsOf(ps, owner)[i := poly.Points()[j := to]];
    ShiftWithin(ps, owner, poly, cp, to);
    forall k | 0 <= k < |ps| ensures ps[k].Points() == moved[k] && Selections(ps[k].sublayers) == marks[k] {
      assert |ps[k].Points()| == |moved[k]|;
      assert |Selections(ps[k].sublayers)| == |marks[k]|;
    }
    FlagsAre(ps, flags);
    MarksAre(ps, owner, marks);
  }

  /** The polygon flags are determined by each polygon's flag. */
  lemma FlagsAre(ps: seq<PolygonLayer>, flags: seq<bool>)
    requires |flags| == |ps| && forall k :: 0 <= k < |ps| ==> ps[k].selected == flags[k]
    ensures PolygonFlags(ps) == flags
  {
  }

  /** The control point flags are determined polygon by polygon. */
  lemma MarksAre(ps: seq<PolygonLayer>, owner: map<ControlPointLayer, PolygonLayer>, marks: seq<seq<bool>>)
    requires Owned(ps, owner)
    requires |marks| == |ps| && forall k :: 0 <= k < |ps| ==> Selections(ps[k].sublayers) == marks[k]
    ensures PointFlags(ps, owner) == marks
  {
  }

  /** The body of `updatePolygonLayersFrame`'s closure for one polygon: the
      frame is set, then the bounds are reset to the origin with the
      frame's size and the position to their midpoint. */
  method Refit(p: PolygonLayer, f: Rect)
    modifies p`position, p`bounds
    ensures p.bounds == Rect(Origin, f.size)
    ensures p.position == Point(f.size.width / 2.0, f.size.height / 2.0)
    ensures p.Frame() == Rect(Origin, f.size)
  {
    p.SetFrame(f);
    p.bounds := Rect(Origin, f.size);
    p.position := Point(p.bounds.MidX(), p.bounds.MidY());
  }

  /** The loop of `updatePolygonLayersFrame(_:)`: each polygon in turn is
      refitted to the frame's size at the origin, which keeps it
      consistent and moves none of its points. */
  method RefitEach(ps: seq<PolygonLayer>, f: Rect)
    requires forall p :: p in ps ==> p.Valid()
    modifies ps`position, ps`bounds
    ensures forall k :: 0 <= k < |ps| ==> ps[k].bounds == Rect(Origin, f.size) && ps[k].Frame() == Rect(Origin, f.size)
    ensures forall p :: p in ps ==> p.Valid() && p.Points() == old(p.Points())
  {
    for i := 0 to |ps|
      invariant forall k :: 0 <= k < i ==> ps[k].bounds == Rect(Origin, f.size) && ps[k].Frame() == Rect(Origin, f.size)
    {
      Refit(ps[i], f);
    }
    ShapesKept(ps);
  }

  /** Lines 78-81 of touchesBegan: the control point and its polygon are
      selected; no other flag changes (the modifies clause), so a flag
      already up, from an earlier polygon or an earlier gesture, stays up. */
  method Press(ghost ps: seq<PolygonLayer>, ghost owner: map<ControlPointLayer, PolygonLayer>,
               ghost i: nat, ghost j: nat, poly: PolygonLayer, cp: ControlPointLayer)
    requires LayersValid(ps, owner) && i < |ps| && ps[i] == poly && j < |poly.sublayers| && poly.sublayers[j] == cp
    modifies cp`selected, cp`style, poly`selected, poly`style
    ensures LayersValid(ps, owner) && PointsOf(ps, owner) == old(PointsOf(ps, owner))
    ensures poly.selected && cp.selected
    ensures PolygonFlags(ps) == old(PolygonFlags(ps))[i := true]
    ensures PointFlags(ps, owner) == old(PointFlags(ps, owner))[i := old(PointFlags(ps, owner))[i][j := true]]
  {
    SelectPoint(ps, owner, i, j, cp, true);
    SelectPolygon(ps, owner, i, poly, true);
  }

  /** Appending a consistent polygon whose control points are new keeps
      the collection consistent and adds its points at the end. */
  lemma AppendKeepsLayers(ps: seq<PolygonLayer>, owner: map<ControlPointLayer, PolygonLayer>, p: PolygonLayer)
    requires LayersValid(ps, owner) && p.Valid()
    requires p !in ps
    requires forall c :: c in p.sublayers ==> c !in owner
    ensures LayersValid(ps + [p], owner + map c | c in p.sublayers :: p)
    ensures PointsOf(ps + [p], owner + map c | c in p.sublayers :: p) == PointsOf(ps, owner) + [p.Points()]
  {
    var qs := ps + [p];
    forall i, j | 0 <= i < j < |qs|
      ensures qs[i] != qs[j]
    {
      if j == |ps| {
        assert qs[i] in ps;
      }
    }
  }
}
