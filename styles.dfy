/** The parts of the style tree that decide what is drawn. Everything else
    in a style (colours, fonts, sizes) is carried as an opaque name. */
module Styles {

  datatype MarkerStyle = MarkerStyle(visible: bool, name: string)

  datatype LabelStyle = LabelStyle(visible: bool, name: string)

  datatype LineStyle = LineStyle(visible: bool, name: string)

  datatype PolygonStyle = PolygonStyle(name: string)

  /** Style of a plotted object: `style.marker` and `style.label`. */
  datatype ObjectStyle = ObjectStyle(marker: MarkerStyle, labelStyle: LabelStyle)

  /** Style of a path such as the ecliptic or the constellation lines. */
  datatype PathStyle = PathStyle(line: LineStyle, labelStyle: LabelStyle)

  datatype LegendLocation = Inside | OutsideTop | OutsideBottom

  datatype LegendStyle = LegendStyle(visible: bool, location: LegendLocation)

  datatype PlotStyle = PlotStyle(
    star: ObjectStyle,
    dso: ObjectStyle,
    planets: ObjectStyle,
    moon: ObjectStyle,
    constellation: PathStyle,
    ecliptic: PathStyle,
    legend: LegendStyle,
    textOffsetX: real,
    textOffsetY: real,
    starMarkerSize: real)
}
