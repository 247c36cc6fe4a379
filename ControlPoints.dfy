/** A draggable polygon corner: a shape layer with a position, 20x20 bounds
    and a selection flag whose observer restyles the layer. */
module ControlPoints {
  import opened Geometry
  import opened Styles

  /** The bounds every control point is given when a polygon adds it. */
  const PointBounds := Rect(Origin, Size(20.0, 20.0))

  /** The square a control point at `center` with `PointBounds` answers hit tests for. */
  function HitSquare(center: Point): Rect
  {
    Rect(Point(center.x - 10.0, center.y - 10.0), Size(20.0, 20.0))
  }

  /** What `init(layer:)` may be handed: another control point, or some other layer
      whose framework properties are copied but which has no configuration. */
  datatype LayerSource =
    | ControlPointSource(layer: ControlPointLayer)
    | OtherLayer(position: Point, bounds: Rect, style: Style)

  class ControlPointLayer {
    var configuration: PointConfig
    var selected: bool
    /** fillColor, strokeColor and lineWidth. */
    var style: Style
    var position: Point
    var bounds: Rect

    /** The style always reflects the selection flag, because every write
        of `selected` runs `updateState`. */
    ghost predicate Valid()
      reads this`style, this`configuration, this`selected
    {
      style == PointStyle(configuration, selected)
    }

    /** init(config:): a missing configuration means the default one. */
    constructor (config: Option<PointConfig>)
      ensures configuration == (if config.Some? then config.value else DefaultPointConfig)
      ensures !selected && Valid()
      ensures style == PointStyle(configuration, false)
      ensures position == Origin && bounds == Rect(Origin, Size(0.0, 0.0))
    {
      configuration := if config.Some? then config.value else DefaultPointConfig;
      selected := false;
      position := Origin;
      bounds := Rect(Origin, Size(0.0, 0.0));
      style := Style(Named("black"), Named("none"), 1.0);
      new;
      UpdateState(selected);
    }

    /** init(layer:): the configuration is copied from a control point and
        defaults otherwise; the framework copies position, bounds and style.
        The flag starts false and no observer runs, so a copy of a selected
        point keeps the selected style with `selected == false`. */
    constructor Copy(source: LayerSource)
      ensures configuration == (if source.ControlPointSource? then source.layer.configuration else DefaultPointConfig)
      ensures !selected
      ensures source.ControlPointSource? ==>
        position == source.layer.position && bounds == source.layer.bounds && style == source.layer.style
      ensures source.OtherLayer? ==>
        position == source.position && bounds == source.bounds && style == source.style
    {
      selected := false;
      match source
      case ControlPointSource(l) =>
        configuration := l.configuration;
        position, bounds, style := l.position, l.bounds, l.style;
      case OtherLayer(p, b, s) =>
        configuration := DefaultPointConfig;
        position, bounds, style := p, b, s;
    }

    /** Setting `selected`; its `didSet` observer applies the matching style. */
    method SetSelected(isSelected: bool)
      modifies this`selected, this`style
      ensures selected == isSelected && Valid()
      ensures style == PointStyle(configuration, isSelected)
    {
      selected := isSelected;
      UpdateState(selected);
    }

    /** updateState(isSelected:): the selected* fields of the configuration
        when selected, the normal fields otherwise. */
    method UpdateState(isSelected: bool)
      modifies this`style
      ensures style == PointStyle(configuration, isSelected)
    {
      var fill := if isSelected then configuration.selectedFillColor else configuration.fillColor;
      var stroke := if isSelected then configuration.selectedLineColor else configuration.lineColor;
      var width := if isSelected then configuration.selectedLineWidth else configuration.lineWidth;
      style := Style(fill, stroke, width);
    }

    /** The layer's frame in its superlayer. */
    function Frame(): Rect
      reads this`position, this`bounds
    {
      FrameOf(position, bounds)
    }

    /** CALayer.hitTest(_:) for a layer without sublayers: `p`, given in the
        superlayer's space, is converted into the layer's own space and
        tested against its bounds. For a layer with non-negative size this is
        the same as testing the frame. */
    predicate HitTest(p: Point)
      reads this`position, this`bounds
      ensures bounds.size.width >= 0.0 && bounds.size.height >= 0.0 ==>
        (HitTest(p) <==> Frame().Contains(p))
      ensures bounds == PointBounds ==> (HitTest(p) <==> HitSquare(position).Contains(p))
    {
      var local := Point(p.x - position.x + bounds.size.width / 2.0 + bounds.origin.x,
                         p.y - position.y + bounds.size.height / 2.0 + bounds.origin.y);
      bounds.Contains(local)
    }
  }
}
