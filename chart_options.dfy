/** The option record that each chart builder hands to the charting library:
    a title, a tooltip, an optional legend, two axes, a grid, an optional
    visual map and a list of series. A field the record leaves out is `None`. */
module ChartOptions {

  import opened Options

  /** A colour as the source writes it, e.g. "#1e3a8a". */
  type Color = string

  /** A JavaScript number carried through unchanged (see README). */
  type Number = real

  datatype Title = Title(text: string, color: Color, fontSize: int)

  datatype Trigger = AxisTrigger | ItemTrigger

  datatype Tooltip = Tooltip(trigger: Trigger, backgroundColor: Color, textColor: Color)

  datatype Legend = Legend(names: seq<string>, textColor: Color)

  /** A category axis carries its labels; a value axis is scaled to the data. */
  datatype AxisKind = CategoryAxis(labels: seq<string>) | ValueAxis

  datatype Axis = Axis(kind: AxisKind, lineColor: Color, labelColor: Color, labelFontSize: int)

  datatype Grid = Grid(left: string, right: string, bottom: string, containLabel: bool)

  datatype LineType = Dashed | DashDot

  datatype LineStyle = LineStyle(lineType: Option<LineType>, width: int, color: Option<Color>)

  datatype Marker = Circle | Rect | Triangle | TriangleDown | NoMarker

  datatype ItemStyle = ItemStyle(color: Option<Color>, borderColor: Option<Color>,
                                 borderWidth: Option<int>, opacity: Option<Number>)

  datatype AreaStyle = AreaStyle(color: Color, opacity: Number)

  datatype SeriesKind = LineSeries | ScatterSeries

  /** A series' data: plain values, [x, y] pairs or [x, y, value] triples. */
  datatype SeriesData =
    | Values(values: seq<Number>)
    | Pairs(pairs: seq<(Number, Number)>)
    | Triples(triples: seq<(Number, Number, Number)>)

  datatype Series = Series(
    name: Option<string>,
    kind: SeriesKind,
    data: SeriesData,
    lineStyle: Option<LineStyle>,
    marker: Option<Marker>,
    markerSize: Option<int>,
    itemStyle: Option<ItemStyle>,
    areaStyle: Option<AreaStyle>,
    smooth: bool)

  /** A continuous colour scale over one dimension of the data. */
  datatype VisualMap = VisualMap(min: Number, max: Number, dimension: nat,
                                 colors: seq<Color>, textColor: Color)

  datatype ChartSpec = ChartSpec(
    title: Title,
    tooltip: Tooltip,
    legend: Option<Legend>,
    xAxis: Axis,
    yAxis: Axis,
    grid: Grid,
    visualMap: Option<VisualMap>,
    series: seq<Series>)

  /** The grid every chart uses. */
  const StandardGrid := Grid("3%", "4%", "3%", true)

  /** The colour of a series' line, when it sets one. */
  function LineColor(s: Series): Option<Color> {
    if s.lineStyle.Some? then s.lineStyle.value.color else None
  }

  /** The colour of a series' markers, when it sets one. */
  function ItemColor(s: Series): Option<Color> {
    if s.itemStyle.Some? then s.itemStyle.value.color else None
  }

  /** The title uses the selected font size and both axis labels one less. */
  predicate FontSizesFollow(spec: ChartSpec, fontSize: int) {
    && spec.title.fontSize == fontSize
    && spec.xAxis.labelFontSize == fontSize - 1
    && spec.yAxis.labelFontSize == fontSize - 1
  }

  /** Text is drawn in the page's text colour, axis lines in its muted colour,
      and the tooltip is white on the theme's primary colour. */
  predicate ThemedText(spec: ChartSpec, primary: Color, text: Color, muted: Color) {
    && spec.title.color == text
    && spec.tooltip.backgroundColor == primary
    && spec.tooltip.textColor == "#fff"
    && spec.xAxis.lineColor == muted && spec.xAxis.labelColor == text
    && spec.yAxis.lineColor == muted && spec.yAxis.labelColor == text
    && (spec.legend.Some? ==> spec.legend.value.textColor == text)
    && (spec.visualMap.Some? ==> spec.visualMap.value.textColor == text)
  }

  /** The legend has one entry per series, and entry i is the name of series i. */
  predicate LegendMatchesSeries(spec: ChartSpec) {
    && spec.legend.Some?
    && |spec.legend.value.names| == |spec.series|
    && forall i :: 0 <= i < |spec.series| ==> spec.series[i].name == Some(spec.legend.value.names[i])
  }

  /** Series i draws both its line and its markers in palette[i]. */
  predicate ColoredFromPalette(series: seq<Series>, palette: seq<Color>, count: nat) {
    && count <= |series| && count <= |palette|
    && forall i :: 0 <= i < count ==>
         LineColor(series[i]) == Some(palette[i]) && ItemColor(series[i]) == Some(palette[i])
  }
}
