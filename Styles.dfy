/** The styling records the layers read. Colours are opaque names; nothing in
    the model interprets them beyond equality. */
module Styles {

  datatype Color = Named(name: string)

  /** The three CAShapeLayer properties a selection change rewrites. */
  datatype Style = Style(fillColor: Color, strokeColor: Color, lineWidth: real)

  /** ControlPointLayerConfiguration. `radius` and `selectedRadius` are
      carried but never read by the layers. */
  datatype PointConfig = PointConfig(
    radius: real, lineWidth: real, lineColor: Color, fillColor: Color,
    selectedRadius: real, selectedLineWidth: real, selectedLineColor: Color, selectedFillColor: Color)

  /** PolygonLayerConfiguration. */
  datatype PolygonConfig = PolygonConfig(
    lineWidth: real, lineColor: Color, fillColor: Color,
    selectedLineWidth: real, selectedLineColor: Color, selectedFillColor: Color)

  const DefaultPointConfig := PointConfig(30.0, 3.0, Named("green"), Named("blue"),
                                          40.0, 3.0, Named("green"), Named("blue"))

  const DefaultPolygonConfig := PolygonConfig(3.0, Named("red"), Named("yellow"),
                                              3.0, Named("red"), Named("yellow"))

  /** The style `updateState(isSelected:)` applies to a control point. */
  function PointStyle(config: PointConfig, isSelected: bool): Style
  {
    if isSelected then Style(config.selectedFillColor, config.selectedLineColor, config.selectedLineWidth)
    else Style(config.fillColor, config.lineColor, config.lineWidth)
  }

  /** The style `updateState(isSelected:)` applies to a polygon. */
  function PolygonStyle(config: PolygonConfig, isSelected: bool): Style
  {
    if isSelected then Style(config.selectedFillColor, config.selectedLineColor, config.selectedLineWidth)
    else Style(config.fillColor, config.lineColor, config.lineWidth)
  }
}
