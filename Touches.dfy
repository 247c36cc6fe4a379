/** The decisions the touch handlers make, as functions of values: which
    control point a press hits in each polygon, which polygon ends up
    selected, whether a drag is accepted, and where the loupe moves. */
module Touches {
  import opened Geometry
  import opened ControlPoints
  import opened Magnifier

  /** The loupe's fixed side length, used by the slot flip. */
  const MagnifierSide := 100.0

  /** The view layer's scale components `a` and `d` and the view's frame
      origin: what turns a touch into the loupe's target coordinates. */
  datatype ViewTransform = ViewTransform(a: real, d: real, origin: Point)

  /** The touch scaled by the layer transform's `a` and `d` and shifted by
      the view's frame origin; with the identity it stays where it is. */
  function ToMagnifierSpace(t: ViewTransform, p: Point): (r: Point)
    ensures t.a == 1.0 && t.d == 1.0 && t.origin == Origin ==> r == p
  {
    Point(p.x * t.a + t.origin.x, p.y * t.d + t.origin.y)
  }

  /** `first(where:)` over a polygon's control points with their hit test:
      the first point, in insertion order, whose square contains `p`. */
  function FirstHit(positions: seq<Point>, p: Point): (r: Option<nat>)
    ensures r.Some? ==> r.value < |positions| && HitSquare(positions[r.value]).Contains(p)
    ensures r.Some? ==> forall j :: 0 <= j < r.value ==> !HitSquare(positions[j]).Contains(p)
    ensures r.None? <==> forall j :: 0 <= j < |positions| ==> !HitSquare(positions[j]).Contains(p)
    decreases |positions|
  {
    if positions == [] then None
    else if HitSquare(positions[0]).Contains(p) then Some(0)
    else match FirstHit(positions[1..], p)
      case None => None
      case Some(k) => Some(k + 1)
  }

  /** The value of `point` after the press loop has visited the polygons
      `corners`: it is converted to loupe space after every polygon that
      reports a hit, and the next polygon is tested against the converted value. */
  function ScanPoint(corners: seq<seq<Point>>, touch: Point, t: ViewTransform): Point
    decreases |corners|
  {
    if corners == [] then touch
    else
      var n := |corners| - 1;
      var q := ScanPoint(corners[..n], touch, t);
      if FirstHit(corners[n], q).Some? then ToMagnifierSpace(t, q) else q
  }

  /** The control point polygon `i` reports during the press loop. */
  function HitIn(corners: seq<seq<Point>>, i: nat, touch: Point, t: ViewTransform): Option<nat>
    requires i < |corners|
  {
    FirstHit(corners[i], ScanPoint(corners[..i], touch, t))
  }

  /** What each polygon reports during the press loop, polygon by polygon. */
  function Hits(corners: seq<seq<Point>>, touch: Point, t: ViewTransform): (r: seq<Option<nat>>)
    ensures |r| == |corners|
    decreases |corners|
  {
    if corners == [] then []
    else
      var n := |corners| - 1;
      Hits(corners[..n], touch, t) + [HitIn(corners, n, touch, t)]
  }

  lemma {:induction false} HitsAt(corners: seq<seq<Point>>, touch: Point, t: ViewTransform, k: nat)
    requires k < |corners|
    ensures Hits(corners, touch, t)[k] == HitIn(corners, k, touch, t)
    decreases |corners|
  {
    var n := |corners| - 1;
    if k < n {
      HitsAt(corners[..n], touch, t, k);
      PrefixHit(corners, n, k, touch, t);
    }
  }

  /** The polygon flags once the press loop has passed polygons `0..n`:
      each of them that reported a hit is raised, the others keep `flags`. */
  function Raise(flags: seq<bool>, hits: seq<Option<nat>>, n: nat): (r: seq<bool>)
    requires |hits| == |flags| && n <= |flags|
    ensures |r| == |flags| && forall k :: 0 <= k < |r| ==> r[k] == (flags[k] || (k < n && hits[k].Some?))
  {
    if n == 0 then flags
    else if hits[n - 1].Some? then Raise(flags, hits, n - 1)[n - 1 := true]
    else Raise(flags, hits, n - 1)
  }

  /** The control-point flags once the press loop has passed polygons
      `0..n`: in each of them the point it reported is raised. */
  function Mark(marks: seq<seq<bool>>, hits: seq<Option<nat>>, n: nat): (r: seq<seq<bool>>)
    requires |hits| == |marks| && n <= |marks|
    ensures |r| == |marks| && forall k :: 0 <= k < |r| ==>
      r[k] == if k < n && hits[k].Some? && hits[k].value < |marks[k]| then marks[k][hits[k].value := true] else marks[k]
  {
    if n == 0 then marks
    else
      var before := Mark(marks, hits, n - 1);
      if hits[n - 1].Some? && hits[n - 1].value < |marks[n - 1]| then before[n - 1 := before[n - 1][hits[n - 1].value := true]]
      else before
  }

  /** The scan over all of `corners`, written as its full prefix. */
  lemma WholePrefix(corners: seq<seq<Point>>, touch: Point, t: ViewTransform)
    ensures ScanPoint(corners[..|corners|], touch, t) == ScanPoint(corners, touch, t)
    ensures LastHit(corners[..|corners|], touch, t) == LastHit(corners, touch, t)
  {
    assert corners[..|corners|] == corners;
  }

  /** One more turn of the press loop: polygon `i` is tested against the
      point the earlier turns left, converts it on a hit and then becomes
      the last polygon with a hit. */
  lemma ScanStep(corners: seq<seq<Point>>, i: nat, touch: Point, t: ViewTransform)
    requires i < |corners|
    ensures var q := ScanPoint(corners[..i], touch, t);
      ScanPoint(corners[..i + 1], touch, t) == if HitIn(corners, i, touch, t).Some? then ToMagnifierSpace(t, q) else q
    ensures LastHit(corners[..i + 1], touch, t) ==
      if HitIn(corners, i, touch, t).Some? then Some(i) else LastHit(corners[..i], touch, t)
  {
    var pre := corners[..i + 1];
    assert pre[..i] == corners[..i];
  }

  /** The polygon the press loop leaves selected: the loop never stops
      early, so it is the last polygon that reports a hit. */
  function LastHit(corners: seq<seq<Point>>, touch: Point, t: ViewTransform): (r: Option<nat>)
    ensures r.Some? ==> r.value < |corners|
    decreases |corners|
  {
    if corners == [] then None
    else
      var n := |corners| - 1;
      if HitIn(corners, n, touch, t).Some? then Some(n)
      else LastHit(corners[..n], touch, t)
  }

  /** Polygon `j` reports the same hit whether the loop runs over all of
      `corners` or over a prefix that contains it. */
  lemma PrefixHit(corners: seq<seq<Point>>, m: nat, j: nat, touch: Point, t: ViewTransform)
    requires j < m <= |corners|
    ensures HitIn(corners[..m], j, touch, t) == HitIn(corners, j, touch, t)
  {
    assert corners[..m][..j] == corners[..j];
  }

  /** The polygon `LastHit` names reports a hit. */
  lemma {:induction false} LastHitHits(corners: seq<seq<Point>>, touch: Point, t: ViewTransform)
    ensures LastHit(corners, touch, t).Some? ==> HitIn(corners, LastHit(corners, touch, t).value, touch, t).Some?
    decreases |corners|
  {
    if corners != [] {
      var n := |corners| - 1;
      if HitIn(corners, n, touch, t).None? {
        LastHitHits(corners[..n], touch, t);
        if LastHit(corners[..n], touch, t).Some? {
          PrefixHit(corners, n, LastHit(corners[..n], touch, t).value, touch, t);
        }
      }
    }
  }

  /** No polygon after the one `LastHit` names reports a hit. */
  lemma {:induction false} NoHitAfterLast(corners: seq<seq<Point>>, touch: Point, t: ViewTransform)
    ensures LastHit(corners, touch, t).Some? ==>
      forall j :: LastHit(corners, touch, t).value < j < |corners| ==> HitIn(corners, j, touch, t).None?
    decreases |corners|
  {
    if corners != [] {
      var n := |corners| - 1;
      if HitIn(corners, n, touch, t).None? {
        var pre := corners[..n];
        NoHitAfterLast(pre, touch, t);
        forall j | LastHit(pre, touch, t).Some? && LastHit(pre, touch, t).value < j < n
          ensures HitIn(corners, j, touch, t).None?
        {
          PrefixHit(corners, n, j, touch, t);
        }
      }
    }
  }

  /** `LastHit` is absent exactly when no polygon reports a hit. */
  lemma {:induction false} NoLastHitNoHits(corners: seq<seq<Point>>, touch: Point, t: ViewTransform)
    ensures LastHit(corners, touch, t).None? <==> forall j :: 0 <= j < |corners| ==> HitIn(corners, j, touch, t).None?
    decreases |corners|
  {
    if corners != [] {
      var n := |corners| - 1;
      if HitIn(corners, n, touch, t).None? {
        var pre := corners[..n];
        NoLastHitNoHits(pre, touch, t);
        forall j | 0 <= j < n ensures HitIn(pre, j, touch, t) == HitIn(corners, j, touch, t) {
          PrefixHit(corners, n, j, touch, t);
        }
      }
    }
  }

  /** `LastHit` names a polygon that reports a hit and after which none
      does, and it is absent exactly when no polygon reports one. */
  lemma LastHitIsLast(corners: seq<seq<Point>>, touch: Point, t: ViewTransform)
    ensures var r := LastHit(corners, touch, t);
      && (r.Some? ==> HitIn(corners, r.value, touch, t).Some?)
      && (r.Some? ==> forall j :: r.value < j < |corners| ==> HitIn(corners, j, touch, t).None?)
      && (r.None? <==> forall j :: 0 <= j < |corners| ==> HitIn(corners, j, touch, t).None?)
  {
    LastHitHits(corners, touch, t);
    NoHitAfterLast(corners, touch, t);
    NoLastHitNoHits(corners, touch, t);
  }

  /** A press that no polygon answers raises no polygon flag and no
      control-point flag. */
  lemma MissRaisesNothing(corners: seq<seq<Point>>, touch: Point, t: ViewTransform,
                          flags: seq<bool>, marks: seq<seq<bool>>)
    requires |flags| == |corners| && |marks| == |corners|
    requires LastHit(corners, touch, t).None?
    ensures Raise(flags, Hits(corners, touch, t), |corners|) == flags
    ensures Mark(marks, Hits(corners, touch, t), |corners|) == marks
  {
    NoLastHitNoHits(corners, touch, t);
    forall j | 0 <= j < |corners| ensures Hits(corners, touch, t)[j].None? {
      HitsAt(corners, touch, t, j);
    }
  }

  /** Without any hit the press leaves `point` as the raw touch. */
  lemma {:induction false} NoHitKeepsTouch(corners: seq<seq<Point>>, touch: Point, t: ViewTransform)
    requires LastHit(corners, touch, t).None?
    ensures ScanPoint(corners, touch, t) == touch
    decreases |corners|
  {
    if corners != [] {
      var n := |corners| - 1;
      LastHitIsLast(corners, touch, t);
      NoHitKeepsTouch(corners[..n], touch, t);
    }
  }

  /** With an unscaled view at its superview's origin the conversion is the
      identity, so every polygon is tested against the raw touch. */
  lemma {:induction false} UnscaledScanKeepsTouch(corners: seq<seq<Point>>, touch: Point)
    ensures ScanPoint(corners, touch, ViewTransform(1.0, 1.0, Origin)) == touch
    decreases |corners|
  {
    if corners != [] {
      UnscaledScanKeepsTouch(corners[..|corners| - 1], touch);
    }
  }

  /** Once a polygon has reported a hit, the next polygon is tested against
      the converted point rather than the touch. */
  lemma HitAfterHitUsesConvertedPoint(corners: seq<seq<Point>>, touch: Point, t: ViewTransform)
    requires |corners| >= 2 && FirstHit(corners[0], touch).Some?
    ensures HitIn(corners, 1, touch, t) == FirstHit(corners[1], ToMagnifierSpace(t, touch))
  {
    var first := corners[..1];
    assert first[..0] == [] && first[0] == corners[0];
    assert ScanPoint(first, touch, t) == ToMagnifierSpace(t, touch);
  }

  /** The acceptance test of a drag: the touch lies in the polygon frame's
      closed range on both axes, edges included. */
  predicate WithinClosed(r: Rect, p: Point)
    ensures r.Contains(p) ==> WithinClosed(r, p)
  {
    p.x >= r.MinX() && p.y >= r.MinY() && p.x <= r.MaxX() && p.y <= r.MaxY()
  }

  /** The loupe's new origin when the touch enters it: the top-right slot
      if it sat at x == 0, the top-left slot otherwise. */
  function FlippedOrigin(origin: Point, viewWidth: real): (r: Point)
    ensures r == Origin || r == Point(viewWidth - MagnifierSide, 0.0)
    ensures origin.x != 0.0 ==> r == Origin
  {
    Point(if origin.x == 0.0 then viewWidth - MagnifierSide else 0.0, 0.0)
  }

  /** Flipping twice from either slot returns to it; in a view exactly one
      loupe wide both slots are the origin, which flips to itself. */
  lemma FlipTwiceReturns(origin: Point, viewWidth: real)
    requires origin == Origin || origin == Point(viewWidth - MagnifierSide, 0.0)
    ensures FlippedOrigin(FlippedOrigin(origin, viewWidth), viewWidth) == origin
  {
  }

  /** In a view at least two loupes wide, a touch that was inside the loupe
      in either slot is outside it after the flip. */
  lemma FlipClearsTouch(frame: Rect, viewWidth: real, p: Point)
    requires frame.size == Size(MagnifierSide, MagnifierSide)
    requires frame.origin == Origin || frame.origin == Point(viewWidth - MagnifierSide, 0.0)
    requires viewWidth >= 2.0 * MagnifierSide
    requires frame.Contains(p)
    ensures !Rect(FlippedOrigin(frame.origin, viewWidth), frame.size).Contains(p)
  {
  }

  /** The loupe, if any, after a drag to `p` that it shows at `at`: it
      moves to the other slot when its frame contains `p`, and its touch
      location and marker centre follow `at`; nothing else changes. */
  function Followed(loupe: Option<LoupeState>, p: Point, at: Point, viewWidth: real): (r: Option<LoupeState>)
    ensures r.Some? <==> loupe.Some?
    ensures r.Some? ==>
      && r.value.frame == (if loupe.value.frame.Contains(p)
                           then Rect(FlippedOrigin(loupe.value.frame.origin, viewWidth), loupe.value.frame.size)
                           else loupe.value.frame)
      && r.value.touchLocation == Some(at) && r.value.marker.center == at
      && r.value.(frame := loupe.value.frame, touchLocation := loupe.value.touchLocation,
                  marker := r.value.marker.(center := loupe.value.marker.center)) == loupe.value
  {
    if loupe.None? then None
    else
      var s := loupe.value;
      var f := if s.frame.Contains(p) then Rect(FlippedOrigin(s.frame.origin, viewWidth), s.frame.size) else s.frame;
      Some(s.(frame := f, touchLocation := Some(at), marker := s.marker.(center := at)))
  }

  /** The loupe sits in one of its two slots along the top edge of a view
      `viewWidth` wide, at its fixed size. */
  predicate InSlot(loupe: Option<LoupeState>, viewWidth: real)
  {
    loupe.Some? ==>
      && loupe.value.frame.size == Size(MagnifierSide, MagnifierSide)
      && (loupe.value.frame.origin == Origin || loupe.value.frame.origin == Point(viewWidth - MagnifierSide, 0.0))
  }

  /** A drag keeps the loupe in its slots, and in a view at least two
      loupes wide the loupe never covers the touch that moved it. */
  lemma FollowedClearsTouch(loupe: Option<LoupeState>, p: Point, at: Point, viewWidth: real)
    requires InSlot(loupe, viewWidth) && viewWidth >= 2.0 * MagnifierSide
    ensures InSlot(Followed(loupe, p, at, viewWidth), viewWidth)
    ensures Followed(loupe, p, at, viewWidth).Some? ==> !Followed(loupe, p, at, viewWidth).value.frame.Contains(p)
  {
    if loupe.Some? && loupe.value.frame.Contains(p) {
      FlipClearsTouch(loupe.value.frame, viewWidth, p);
    }
  }

  /** The loupe's touch location and its marker's centre name the same
      point, as every press and drag leaves them. */
  predicate OnTouch(loupe: Option<LoupeState>)
  {
    loupe.Some? ==> loupe.value.touchLocation == Some(loupe.value.marker.center)
  }

  /** A press and a drag both leave the loupe on the point it shows; a drag
      after a press shows the loupe as if the press had shown it where the
      drag did, since both set the same location and marker. */
  lemma FollowAfterShow(loupe: Option<LoupeState>, a: Point, p: Point, at: Point, viewWidth: real)
    ensures OnTouch(ShownOn(loupe, a)) && OnTouch(Followed(loupe, p, at, viewWidth))
    ensures Followed(ShownOn(loupe, a), p, at, viewWidth) == ShownOn(Followed(loupe, p, at, viewWidth), at)
  {
  }

  /** The frame a layer is left with by `updatePolygonLayersFrame(f)`:
      bounds at the origin with f's size and the position at the bounds'
      midpoint, so f's origin is discarded. */
  lemma RefitFrameDropsOrigin(f: Rect)
    ensures var b := Rect(Origin, f.size);
      && FrameOf(Point(b.MidX(), b.MidY()), b) == Rect(Origin, f.size)
      && (FrameOf(Point(b.MidX(), b.MidY()), b) == f <==> f.origin == Origin)
  {
  }
}
