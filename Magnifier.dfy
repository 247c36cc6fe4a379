/** The loupe: a view that draws a scaled snapshot of a target view around
    the touch location, shifting the sampled window inward near the target's
    edges, and a small marker view it places inside the target. */
module Magnifier {
  import opened Geometry
  import opened Styles

  datatype MagnifierShape = Round | Square

  const DefaultScaleFactor := 2.0
  const MarkerSize := Size(4.0, 4.0)

  /** A drawing context's current transformation matrix, restricted to the
      scale-and-translate matrices the loupe builds. */
  datatype Affine = Affine(sx: real, sy: real, tx: real, ty: real) {

    function Apply(p: Point): Point
    {
      Point(sx * p.x + tx, sy * p.y + ty)
    }

    /** CGContext.translateBy. */
    function Translated(dx: real, dy: real): Affine
    {
      Affine(sx, sy, tx + sx * dx, ty + sy * dy)
    }

    /** CGContext.scaleBy. */
    function Scaled(kx: real, ky: real): Affine
    {
      Affine(sx * kx, sy * ky, tx, ty)
    }
  }

  /** A translation concatenated onto a matrix acts before it. */
  lemma ApplyTranslated(m: Affine, dx: real, dy: real, p: Point)
    ensures m.Translated(dx, dy).Apply(p) == m.Apply(Point(p.x + dx, p.y + dy))
  {
    var l, r := m.Translated(dx, dy).Apply(p), m.Apply(Point(p.x + dx, p.y + dy));
    assert l.x == r.x by { Distributes(m.sx, p.x, dx); }
    assert l.y == r.y by { Distributes(m.sy, p.y, dy); }
  }

  lemma Distributes(a: real, b: real, c: real)
    ensures a * (b + c) == a * b + a * c
  {
  }

  /** A scaling concatenated onto a matrix acts before it. */
  lemma ApplyScaled(m: Affine, kx: real, ky: real, p: Point)
    ensures m.Scaled(kx, ky).Apply(p) == m.Apply(Point(kx * p.x, ky * p.y))
  {
    assert (m.sx * kx) * p.x == m.sx * (kx * p.x);
    assert (m.sy * ky) * p.y == m.sy * (ky * p.y);
  }

  /** The context transform `draw` renders the target with: translate by the
      loupe's size, scale, then translate by the sampling offset. */
  function RenderTransform(base: Affine, w: real, h: real, s: real, dx: real, dy: real): Affine
  {
    base.Translated(w, h).Scaled(s, s).Translated(dx, dy)
  }

  /** A target point p lands at (w + s(p.x + dx), h + s(p.y + dy)) before
      the context's own transform. */
  lemma {:induction false} RenderTransformMaps(base: Affine, w: real, h: real, s: real, dx: real, dy: real, p: Point)
    ensures RenderTransform(base, w, h, s, dx, dy).Apply(p) == base.Apply(Point(w + s * (p.x + dx), h + s * (p.y + dy)))
  {
    var m1 := base.Translated(w, h);
    var m2 := m1.Scaled(s, s);
    var q := Point(p.x + dx, p.y + dy);
    var r := Point(s * q.x, s * q.y);
    calc {
      RenderTransform(base, w, h, s, dx, dy).Apply(p);
      m2.Translated(dx, dy).Apply(p);
      { ApplyTranslated(m2, dx, dy, p); }
      m2.Apply(q);
      { ApplyScaled(m1, s, s, q); }
      m1.Apply(r);
      { ApplyTranslated(base, w, h, r); }
      base.Apply(Point(r.x + w, r.y + h));
      { assert Point(r.x + w, r.y + h) == Point(w + s * (p.x + dx), h + s * (p.y + dy)); }
      base.Apply(Point(w + s * (p.x + dx), h + s * (p.y + dy)));
    }
  }

  /** The sampling offset along one axis (dx with widths, dy with heights):
      `location` is the touch, `span` the loupe's extent, `targetSpan` the
      target's extent. The left/top case is tested first. */
  function SampleOffset(location: real, span: real, targetSpan: real, scale: real): (r: real)
    requires scale > 0.0
    // the sampled window is [-r - span/scale, -r]: it starts at the target's
    // near edge, is centred on the touch, or ends at the target's far edge
    ensures var w := span / scale; location <= w / 2.0 ==> -r - w == 0.0
    ensures var w := span / scale; w / 2.0 < location < targetSpan - w / 2.0 ==> -r - w / 2.0 == location
    ensures var w := span / scale; w / 2.0 < location && targetSpan - w / 2.0 <= location ==> -r == targetSpan
  {
    var half := span / scale / 2.0;
    if location <= half then -1.0 * span / scale
    else if location >= targetSpan - half then -1.0 * targetSpan
    else -1.0 * (location + half)
  }

  function Clamp(v: real, lo: real, hi: real): (r: real)
    requires lo <= hi
    ensures lo <= r <= hi
    ensures lo <= v <= hi ==> r == v
  {
    if v < lo then lo else if v > hi then hi else v
  }

  /** A target coordinate that the render transform places inside the loupe. */
  ghost predicate Shown(p: real, span: real, scale: real, offset: real)
  {
    0.0 <= span + scale * (p + offset) <= span
  }

  /** The offset is a clamped centring: the sampled centre is the touch,
      pulled into [half, targetSpan - half] where half is half the sampled
      window, whenever the target is at least one window wide. */
  lemma OffsetClampsSampleCentre(location: real, span: real, targetSpan: real, scale: real)
    requires scale > 0.0 && span >= 0.0 && targetSpan >= span / scale
    ensures var half := span / scale / 2.0;
      SampleOffset(location, span, targetSpan, scale) == -1.0 * (Clamp(location, half, targetSpan - half) + half)
  {
    var half := span / scale / 2.0;
    assert span / scale == 2.0 * half;
  }

  /** Away from the edges the touch is drawn at the loupe's centre. */
  lemma TouchCentredAwayFromEdges(location: real, span: real, targetSpan: real, scale: real)
    requires scale > 0.0
    requires span / scale / 2.0 < location < targetSpan - span / scale / 2.0
    ensures span + scale * (location + SampleOffset(location, span, targetSpan, scale)) == span / 2.0
  {
    var half := span / scale / 2.0;
    assert scale * half == span / 2.0;
  }

  /** Shown exactly when p lies in the sampled window [-offset - span/scale, -offset]. */
  lemma ShownIsWindow(p: real, span: real, scale: real, offset: real)
    requires scale > 0.0
    ensures Shown(p, span, scale, offset) <==> -offset - span / scale <= p <= -offset
  {
    var w := span / scale;
    assert scale * w == span;
    assert span + scale * (p + offset) == scale * (p + offset + w);
    SignOfProduct(scale, p + offset);
    SignOfProduct(scale, p + offset + w);
  }

  lemma SignOfProduct(k: real, q: real)
    requires k > 0.0
    ensures k * q <= 0.0 <==> q <= 0.0
    ensures k * q >= 0.0 <==> q >= 0.0
  {
  }

  /** The loupe never shows anything outside the target when the target is
      at least one sampled window wide. */
  lemma ShownPointsInsideTarget(p: real, location: real, span: real, targetSpan: real, scale: real)
    requires scale > 0.0 && span >= 0.0 && targetSpan >= span / scale
    requires Shown(p, span, scale, SampleOffset(location, span, targetSpan, scale))
    ensures 0.0 <= p <= targetSpan
  {
    ShownIsWindow(p, span, scale, SampleOffset(location, span, targetSpan, scale));
  }

  /** A touch inside the target is always shown in the loupe. */
  lemma TouchShown(location: real, span: real, targetSpan: real, scale: real)
    requires scale > 0.0 && span >= 0.0 && 0.0 <= location <= targetSpan
    ensures Shown(location, span, scale, SampleOffset(location, span, targetSpan, scale))
  {
    var w := span / scale;
    assert -1.0 * span / scale == -w;
    assert w >= 0.0 by { SignOfProduct(scale, w); }
    ShownIsWindow(location, span, scale, SampleOffset(location, span, targetSpan, scale));
  }

  /** Everything a marker view holds, as one value. */
  datatype MarkerState = MarkerState(isHidden: bool, center: Point, size: Size, backgroundColor: Option<Color>,
                                     clipsToBounds: bool, cornerRadius: real, superview: SurfaceView?)

  /** Everything a loupe holds, its marker included, as one value. */
  datatype LoupeState = LoupeState(frame: Rect, isHidden: bool, scaleFactor: real, shape: MagnifierShape,
                                   touchLocation: Option<Point>, magnifiedView: SurfaceView?, marker: MarkerState)

  /** The loupe, if any, once it and its marker are shown on `p`. */
  function ShownOn(loupe: Option<LoupeState>, p: Point): (r: Option<LoupeState>)
    ensures r.Some? <==> loupe.Some?
    ensures r.Some? ==> !r.value.isHidden && !r.value.marker.isHidden
    ensures r.Some? ==> r.value.touchLocation == Some(p) && r.value.marker.center == p
    ensures r.Some? ==> r.value.(isHidden := loupe.value.isHidden, touchLocation := loupe.value.touchLocation,
                                 marker := r.value.marker.(isHidden := loupe.value.marker.isHidden,
                                                           center := loupe.value.marker.center)) == loupe.value
  {
    if loupe.None? then None
    else
      var s := loupe.value;
      Some(s.(isHidden := false, touchLocation := Some(p), marker := s.marker.(isHidden := false, center := p)))
  }

  /** Showing the loupe on `p` and then on `q` leaves it as showing it on
      `q` alone: the last point shown wins. */
  lemma ShownOnAgain(loupe: Option<LoupeState>, p: Point, q: Point)
    ensures ShownOn(ShownOn(loupe, p), q) == ShownOn(loupe, q)
  {
  }

  /** The loupe, if any, once it and its marker are hidden. */
  function HiddenLoupe(loupe: Option<LoupeState>): (r: Option<LoupeState>)
    ensures r.Some? <==> loupe.Some?
    ensures r.Some? ==> r.value.isHidden && r.value.marker.isHidden
    ensures r.Some? ==> r.value.(isHidden := loupe.value.isHidden, marker := r.value.marker.(isHidden := loupe.value.marker.isHidden)) == loupe.value
  {
    if loupe.None? then None
    else Some(loupe.value.(isHidden := true, marker := loupe.value.marker.(isHidden := true)))
  }

  /** Hiding a hidden loupe changes nothing. */
  lemma HiddenLoupeTwice(loupe: Option<LoupeState>)
    ensures HiddenLoupe(HiddenLoupe(loupe)) == HiddenLoupe(loupe)
  {
  }

  /** The marker as `updateMagnifiedView` leaves it when it inserts it:
      hidden, red, clipped and round, at its old centre and size. */
  ghost predicate Styled(before: MarkerState, after: MarkerState)
  {
    && after.isHidden && after.backgroundColor == Some(Named("red"))
    && after.clipsToBounds && after.cornerRadius == after.size.height / 2.0
    && after.center == before.center && after.size == before.size
  }

  /** The target a possibly-nil reference names, as a set. */
  function Targets(v: SurfaceView?): set<SurfaceView>
  {
    if v == null then {} else {v}
  }

  /** The loupe a possibly-nil reference names, as a set. */
  function Loupes(m: MagnifierView?): set<MagnifierView>
  {
    if m == null then {} else {m}
  }

  /** A new marker: a visible 4x4 view at the origin with no styling. */
  const InitialMarker := MarkerState(false, Point(2.0, 2.0), MarkerSize, None, false, 0.0, null)

  /** `subviews` once `removeFromSuperview` has taken `v` out of it. */
  function Without(subviews: seq<object>, v: object): (r: seq<object>)
    ensures v !in r
    ensures multiset(r) == multiset(subviews)[v := 0]
    ensures v !in subviews ==> r == subviews
  {
    if subviews == [] then []
    else
      assert subviews == [subviews[0]] + subviews[1..];
      if subviews[0] == v then Without(subviews[1..], v)
      else [subviews[0]] + Without(subviews[1..], v)
  }

  /** The touch-centre marker. */
  class MarkerView {
    var isHidden: bool
    var center: Point
    var size: Size
    var backgroundColor: Option<Color>
    var clipsToBounds: bool
    var cornerRadius: real
    /** The view the marker was last added to, if any. */
    var superview: SurfaceView?

    function State(): MarkerState
      reads this
    {
      MarkerState(isHidden, center, size, backgroundColor, clipsToBounds, cornerRadius, superview)
    }

    /** A view with frame (0, 0, 4, 4). */
    constructor ()
      ensures State() == InitialMarker
    {
      size := MarkerSize;
      center := Point(2.0, 2.0);
      isHidden := false;
      backgroundColor := None;
      clipsToBounds := false;
      cornerRadius := 0.0;
      superview := null;
    }
  }

  /** The view being magnified, with its subview list. */
  class SurfaceView {
    var frame: Rect
    var subviews: seq<object>

    constructor (frame: Rect)
      ensures this.frame == frame && subviews == []
    {
      this.frame := frame;
      subviews := [];
    }
  }

  /** A loupe, once there, has a positive scale and a target, and it is
      pointed at `target` whenever there is one. */
  ghost predicate LoupeReady(m: MagnifierView?, target: SurfaceView?)
    reads m
  {
    && (m != null ==> m.Valid() && m.magnifiedView != null)
    && (target != null ==> m != null && m.magnifiedView == target)
  }

  class MagnifierView {
    var frame: Rect
    var isHidden: bool
    var scaleFactor: real
    var shape: MagnifierShape
    var touchLocation: Option<Point>
    var magnifiedView: SurfaceView?
    const touchCenterView: MarkerView

    ghost predicate Valid()
      reads this
    {
      scaleFactor > 0.0
    }

    function State(): LoupeState
      reads this, touchCenterView
    {
      LoupeState(frame, isHidden, scaleFactor, shape, touchLocation, magnifiedView, touchCenterView.State())
    }

    /** init(frame:) with the property defaults: scale factor 2, square
        shape, no touch location and a 4x4 marker. */
    constructor (frame: Rect)
      ensures Valid() && fresh(touchCenterView)
      ensures this.frame == frame && !isHidden && magnifiedView == null
      ensures scaleFactor == DefaultScaleFactor && shape == Square && touchLocation == None
      ensures touchCenterView.State() == InitialMarker
    {
      this.frame := frame;
      isHidden := false;
      scaleFactor := DefaultScaleFactor;
      shape := Square;
      touchLocation := None;
      magnifiedView := null;
      touchCenterView := new MarkerView();
    }

    /** Setting `magnifiedView`; its observer runs `updateMagnifiedView`.
        With a target that does not hold the marker, `addSubview` first
        takes the marker out of the view it was in, then appends it. Only
        subview lists change, never a frame; without a target the marker
        is restyled and stays where it was. */
    method SetMagnifiedView(target: SurfaceView?)
      modifies this`magnifiedView, touchCenterView, Targets(target)`subviews
      modifies Targets(touchCenterView.superview)`subviews
      ensures magnifiedView == target
      ensures var host := old(touchCenterView.superview);
        host != null ==> host.frame == old(host.frame)
      ensures target == null ==>
        && Styled(old(touchCenterView.State()), touchCenterView.State())
        && touchCenterView.superview == old(touchCenterView.superview)
        && unchanged(Targets(old(touchCenterView.superview)))
      ensures target != null ==> touchCenterView in target.subviews && target.frame == old(target.frame)
      ensures target != null && old(touchCenterView in target.subviews) ==>
        && target.subviews == old(target.subviews) && unchanged(touchCenterView)
        && unchanged(Targets(old(touchCenterView.superview)))
      ensures var host := old(touchCenterView.superview);
        target != null && old(touchCenterView !in target.subviews) ==>
        && target.subviews == old(target.subviews) + [touchCenterView]
        && Styled(old(touchCenterView.State()), touchCenterView.State())
        && touchCenterView.superview == target
        && (host != null && host != target ==> host.subviews == Without(old(host.subviews), touchCenterView))
    {
      magnifiedView := target;
      UpdateMagnifiedView();
    }

    /** updateMagnifiedView(): the marker is styled, hidden and added to the
        target only when the target does not already hold it, so repeated
        calls add it once; adding it takes it out of the view it was in.
        Without a target the marker is still restyled. No frame changes. */
    method UpdateMagnifiedView()
      modifies touchCenterView, Targets(magnifiedView)`subviews, Targets(touchCenterView.superview)`subviews
      ensures var had := old(magnifiedView != null && touchCenterView in magnifiedView.subviews);
              var host := old(touchCenterView.superview);
        && (had ==> unchanged(touchCenterView) && unchanged(Targets(magnifiedView)) && unchanged(Targets(host)))
        && (!had ==> Styled(old(touchCenterView.State()), touchCenterView.State()))
        && (!had && magnifiedView == null ==> touchCenterView.superview == host && unchanged(Targets(host)))
        && (!had && magnifiedView != null ==>
              && magnifiedView.subviews == old(magnifiedView.subviews) + [touchCenterView]
              && touchCenterView.superview == magnifiedView
              && (host != null && host != magnifiedView ==> host.subviews == Without(old(host.subviews), touchCenterView)))
      ensures magnifiedView != null ==> magnifiedView.frame == old(magnifiedView.frame)
      ensures var host := old(touchCenterView.superview);
        host != null ==> host.frame == old(host.frame)
      ensures magnifiedView != null ==>
        touchCenterView in magnifiedView.subviews
        && multiset(magnifiedView.subviews)[touchCenterView] ==
           if old(touchCenterView in magnifiedView.subviews)
           then old(multiset(magnifiedView.subviews)[touchCenterView]) else 1
    {
      var hasCenterView := magnifiedView != null && touchCenterView in magnifiedView.subviews;
      if !hasCenterView {
        touchCenterView.isHidden := true;
        touchCenterView.backgroundColor := Some(Named("red"));
        touchCenterView.clipsToBounds := true;
        touchCenterView.cornerRadius := touchCenterView.size.height / 2.0;
        if magnifiedView != null {
          var host := touchCenterView.superview;
          if host != null {
            host.subviews := Without(host.subviews, touchCenterView);
          }
          magnifiedView.subviews := magnifiedView.subviews + [touchCenterView];
          touchCenterView.superview := magnifiedView;
        }
      }
    }

    /** Pointing a loupe at `a`, then at `b`, then at `a` again leaves its
        marker in `a` alone, hidden again by the restyling, because the
        move to `b` took it out of `a`. */
    method SetMagnifiedViewThereAndBack(a: SurfaceView, b: SurfaceView)
      requires a != b && touchCenterView.superview == null
      requires touchCenterView !in a.subviews && touchCenterView !in b.subviews
      modifies this`magnifiedView, touchCenterView, a`subviews, b`subviews
      ensures magnifiedView == a && touchCenterView.superview == a
      ensures touchCenterView in a.subviews && touchCenterView !in b.subviews
      ensures touchCenterView.isHidden && touchCenterView.backgroundColor == Some(Named("red"))
    {
      SetMagnifiedView(a);
      SetMagnifiedView(b);
      SetMagnifiedView(a);
    }

    /** draw(_:): with no touch location nothing happens. Otherwise the
        sampling offsets are computed, the target is rendered through
        `RenderTransform` into the current context (when there is one) and
        the loupe ends up visible. */
    method Draw(context: Option<Affine>) returns (rendered: Option<Affine>)
      requires Valid()
      requires touchLocation.Some? ==> magnifiedView != null
      modifies this`isHidden
      ensures touchLocation.None? ==> rendered == None && isHidden == old(isHidden)
      ensures touchLocation.Some? ==>
        && !isHidden
        && rendered == if context.None? then None else
             var location := touchLocation.value;
             var s := scaleFactor;
             Some(RenderTransform(context.value, frame.Width(), frame.Height(), s,
                                  SampleOffset(location.x, frame.Width(), magnifiedView.frame.Width(), s),
                                  SampleOffset(location.y, frame.Height(), magnifiedView.frame.Height(), s)))
    {
      rendered := None;
      if touchLocation.Some? {
        var location := touchLocation.value;
        var w, h, s := frame.Width(), frame.Height(), scaleFactor;
        var dx := -1.0 * (location.x + w / s / 2.0);
        var dy := -1.0 * (location.y + h / s / 2.0);

        if location.x <= w / s / 2.0 {
          dx := -1.0 * w / s;
        } else if location.x >= magnifiedView.frame.Width() - w / s / 2.0 {
          dx := -1.0 * magnifiedView.frame.Width();
        }

        if location.y <= h / s / 2.0 {
          dy := -1.0 * h / s;
        } else if location.y >= magnifiedView.frame.Height() - h / s / 2.0 {
          dy := -1.0 * magnifiedView.frame.Height();
        }

        isHidden := true;
        if context.Some? {
          rendered := Some(context.value.Translated(w, h).Scaled(s, s).Translated(dx, dy));
          assert rendered == Some(RenderTransform(context.value, w, h, s, dx, dy));
        }
        isHidden := false;
      }
    }
  }
}
