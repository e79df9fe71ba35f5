/** The five chart builders. Each turns the theme's chart colours, the
    selected colour map, the font size and a dataset into the option record
    of one chart; `AllCharts` is one rebuild of the whole dashboard. */
module Builders {

  import opened Options
  import opened ChartOptions
  import opened Tables
  import opened Transforms

  /** The colours a chart is drawn with: three roles of the theme, and the
      page's text and muted colours. */
  datatype ChartColors = ChartColors(primary: Color, secondary: Color, accent: Color,
                                     text: Color, muted: Color)

  /** What the page's computed style supplies at a rebuild: the text and
      muted colours. */
  datatype PageContext = PageContext(textColor: Color, mutedColor: Color)

  /** The colours of theme `themeId`, with the page's text and muted colours. */
  function GetChartColors(themeId: string, text: Color, muted: Color): ChartColors
    requires themeId in ThemeSchemes
  {
    ChartColors(ThemeSchemes[themeId].colors["primary"], ThemeSchemes[themeId].colors["secondary"],
                ThemeSchemes[themeId].colors["accent"], text, muted)
  }

  /** Every theme defines the three roles the charts read, and the chart
      colours are those roles of the selected theme; text and muted come
      from the page unchanged. */
  lemma ChartColorsOfTheme(themeId: string, text: Color, muted: Color)
    requires themeId in ThemeSchemes
    ensures var c := GetChartColors(themeId, text, muted);
      && "primary" in ThemeSchemes[themeId].colors && c.primary == ThemeSchemes[themeId].colors["primary"]
      && "secondary" in ThemeSchemes[themeId].colors && c.secondary == ThemeSchemes[themeId].colors["secondary"]
      && "accent" in ThemeSchemes[themeId].colors && c.accent == ThemeSchemes[themeId].colors["accent"]
      && c.text == text && c.muted == muted
  {
  }

  function ChartTitle(text: string, colors: ChartColors, fontSize: int): Title {
    Title(text, colors.text, fontSize)
  }

  function AxisTooltip(colors: ChartColors): Tooltip {
    Tooltip(AxisTrigger, colors.primary, "#fff")
  }

  function ChartAxis(kind: AxisKind, colors: ChartColors, fontSize: int): Axis {
    Axis(kind, colors.muted, colors.text, fontSize - 1)
  }

  /** A line series drawn in one colour, line and markers alike. */
  function ColoredLine(name: string, data: seq<Number>, lineType: Option<LineType>, width: int,
                       color: Color, marker: Marker, markerSize: int, item: ItemStyle): Series
  {
    Series(Some(name), LineSeries, Values(data), Some(LineStyle(lineType, width, Some(color))),
           Some(marker), Some(markerSize), Some(item), None, false)
  }

  function PlainItem(color: Color): ItemStyle {
    ItemStyle(Some(color), None, None, None)
  }

  /** Chart 1: the July 2017 and July 2019 USD/CNY rates. */
  function BuildExchangeRate(colors: ChartColors, palette: seq<Color>, fontSize: int,
                             data: ExchangeRateData): (spec: ChartSpec)
    requires |palette| >= 2
    ensures FontSizesFollow(spec, fontSize)
    ensures ThemedText(spec, colors.primary, colors.text, colors.muted)
    ensures spec.tooltip.trigger == AxisTrigger
    ensures LegendMatchesSeries(spec) && spec.legend.value.names == ["2017年7月汇率", "2019年7月汇率"]
    ensures |spec.series| == 2 && ColoredFromPalette(spec.series, palette, 2)
    ensures spec.series[0].data == Values(data.rate2017) && spec.series[1].data == Values(data.rate2019)
    ensures spec.xAxis.kind.CategoryAxis? && |spec.xAxis.kind.labels| == |data.dates|
    ensures forall i :: 0 <= i < |data.dates| ==>
              ParseJulyDayLabel(spec.xAxis.kind.labels[i]) == Some(data.dates[i])
    ensures forall i :: 0 <= i < |data.dates| ==> spec.xAxis.kind.labels[i] == JulyDayLabel(data.dates[i])
    ensures spec.yAxis.kind == ValueAxis && spec.visualMap == None && spec.grid == StandardGrid
  {
    ChartSpec(
      ChartTitle("2017年7月与2019年7月美元/人民币汇率走势", colors, fontSize),
      AxisTooltip(colors),
      Some(Legend(["2017年7月汇率", "2019年7月汇率"], colors.text)),
      ChartAxis(CategoryAxis(JulyDayLabels(data.dates)), colors, fontSize),
      ChartAxis(ValueAxis, colors, fontSize),
      StandardGrid,
      None,
      [ ColoredLine("2017年7月汇率", data.rate2017, Some(DashDot), 1, palette[0], Circle, 6, PlainItem(palette[0])),
        ColoredLine("2019年7月汇率", data.rate2019, Some(Dashed), 3, palette[1], Rect, 8, PlainItem(palette[1])) ])
  }

  /** The third sales series: A minus C, drawn only as a light-blue area. */
  function DifferenceSeries(a: seq<Number>, c: seq<Number>): Series
    requires |a| <= |c|
  {
    Series(Some("A/C销售差"), LineSeries, Values(SalesDifference(a, c)), Some(LineStyle(None, 0, None)),
           None, None, None, Some(AreaStyle("#ADD8E6", 0.3)), false)
  }

  /** Chart 2: quarterly sales of products A and C and their difference. */
  function BuildProductSales(colors: ChartColors, palette: seq<Color>, fontSize: int,
                             data: ProductSalesData): (spec: ChartSpec)
    requires |palette| >= 2
    requires |data.salesA| <= |data.salesC|
    ensures FontSizesFollow(spec, fontSize)
    ensures ThemedText(spec, colors.primary, colors.text, colors.muted)
    ensures spec.tooltip.trigger == AxisTrigger
    ensures LegendMatchesSeries(spec) && spec.legend.value.names == ["产品A", "产品C", "A/C销售差"]
    ensures |spec.series| == 3 && ColoredFromPalette(spec.series, palette, 2)
    ensures spec.series[0].data == Values(data.salesA) && spec.series[1].data == Values(data.salesC)
    ensures spec.series[2].data.Values?
    ensures |spec.series[2].data.values| == |data.salesA|
    ensures forall idx :: 0 <= idx < |data.salesA| ==>
              spec.series[2].data.values[idx] == data.salesA[idx] - data.salesC[idx]
    ensures spec.series[2].areaStyle == Some(AreaStyle("#ADD8E6", 0.3))
    ensures spec.series[2].lineStyle == Some(LineStyle(None, 0, None))
    ensures spec.xAxis.kind == CategoryAxis(data.quarters)
    ensures spec.yAxis.kind == ValueAxis && spec.visualMap == None && spec.grid == StandardGrid
  {
    ChartSpec(
      ChartTitle("产品A与产品C各季度销售额对比", colors, fontSize),
      AxisTooltip(colors),
      Some(Legend(["产品A", "产品C", "A/C销售差"], colors.text)),
      ChartAxis(CategoryAxis(data.quarters), colors, fontSize),
      ChartAxis(ValueAxis, colors, fontSize),
      StandardGrid,
      None,
      [ ColoredLine("产品A", data.salesA, None, 2, palette[0], Circle, 8, PlainItem(palette[0])),
        ColoredLine("产品C", data.salesC, None, 2, palette[1], Circle, 8, PlainItem(palette[1])),
        DifferenceSeries(data.salesA, data.salesC) ])
  }

  /** Chart 3: the scatter sample, coloured by its third dimension. */
  function BuildScatter(colors: ChartColors, palette: seq<Color>, fontSize: int,
                        data: ScatterData): (spec: ChartSpec)
    requires ScatterParallel(data)
    ensures FontSizesFollow(spec, fontSize)
    ensures ThemedText(spec, colors.primary, colors.text, colors.muted)
    ensures spec.tooltip.trigger == ItemTrigger && spec.legend == None
    ensures spec.visualMap == Some(VisualMap(0.0, 1.0, 2, palette, colors.text))
    ensures |spec.series| == 1 && spec.series[0].kind == ScatterSeries
    ensures spec.series[0].data.Triples? && |spec.series[0].data.triples| == |data.x|
    ensures forall i :: 0 <= i < |data.x| ==>
              spec.series[0].data.triples[i] == (data.x[i], data.y[i], data.values[i])
    ensures spec.series[0].markerSize == Some(15)
    ensures spec.series[0].itemStyle == Some(ItemStyle(None, None, None, Some(0.7)))
    ensures spec.xAxis.kind == ValueAxis && spec.yAxis.kind == ValueAxis && spec.grid == StandardGrid
  {
    ChartSpec(
      ChartTitle("使用颜色映射表的散点图", colors, fontSize),
      Tooltip(ItemTrigger, colors.primary, "#fff"),
      None,
      ChartAxis(ValueAxis, colors, fontSize),
      ChartAxis(ValueAxis, colors, fontSize),
      StandardGrid,
      Some(VisualMap(0.0, 1.0, 2, palette, colors.text)),
      [ Series(None, ScatterSeries, Triples(ZipTriples(data.x, data.y, data.values)), None,
               None, Some(15), Some(ItemStyle(None, None, None, Some(0.7))), None, false) ])
  }

  /** Chart 4: daily maximum and minimum temperatures. */
  function BuildTemperature(colors: ChartColors, palette: seq<Color>, fontSize: int,
                            data: TemperatureData): (spec: ChartSpec)
    requires |palette| >= 2
    ensures FontSizesFollow(spec, fontSize)
    ensures ThemedText(spec, colors.primary, colors.text, colors.muted)
    ensures spec.tooltip.trigger == AxisTrigger
    ensures LegendMatchesSeries(spec) && spec.legend.value.names == ["最高温度", "最低温度"]
    ensures |spec.series| == 2 && ColoredFromPalette(spec.series, palette, 2)
    ensures spec.series[0].data == Values(data.maxTemp) && spec.series[1].data == Values(data.minTemp)
    ensures spec.series[0].itemStyle == Some(ItemStyle(Some(palette[0]), Some("#ff0000"), Some(2), None))
    ensures spec.xAxis.kind.CategoryAxis? && |spec.xAxis.kind.labels| == |data.dates|
    ensures forall i :: 0 <= i < |data.dates| ==>
              ParseDayLabel(spec.xAxis.kind.labels[i]) == Some(data.dates[i])
    ensures forall i :: 0 <= i < |data.dates| ==> spec.xAxis.kind.labels[i] == DayLabel(data.dates[i])
    ensures spec.yAxis.kind == ValueAxis && spec.visualMap == None && spec.grid == StandardGrid
  {
    ChartSpec(
      ChartTitle("每日最高温度与最低温度走势", colors, fontSize),
      AxisTooltip(colors),
      Some(Legend(["最高温度", "最低温度"], colors.text)),
      ChartAxis(CategoryAxis(DayLabels(data.dates)), colors, fontSize),
      ChartAxis(ValueAxis, colors, fontSize),
      StandardGrid,
      None,
      [ ColoredLine("最高温度", data.maxTemp, None, 2, palette[0], Triangle, 10,
                    ItemStyle(Some(palette[0]), Some("#ff0000"), Some(2), None)),
        ColoredLine("最低温度", data.minTemp, None, 2, palette[1], TriangleDown, 10, PlainItem(palette[1])) ])
  }

  /** Chart 5: the curve y = x * x as one smooth line without markers. */
  function BuildMathFunction(colors: ChartColors, palette: seq<Color>, fontSize: int,
                             data: MathFunctionData): (spec: ChartSpec)
    requires |palette| >= 1
    requires |data.x| <= |data.y|
    ensures FontSizesFollow(spec, fontSize)
    ensures ThemedText(spec, colors.primary, colors.text, colors.muted)
    ensures spec.tooltip.trigger == AxisTrigger && spec.legend == None
    ensures |spec.series| == 1 && LineColor(spec.series[0]) == Some(palette[0])
    ensures spec.series[0].lineStyle == Some(LineStyle(None, 3, Some(palette[0])))
    ensures spec.series[0].marker == Some(NoMarker) && spec.series[0].smooth
    ensures spec.series[0].data.Pairs? && |spec.series[0].data.pairs| == |data.x|
    ensures forall i :: 0 <= i < |data.x| ==> spec.series[0].data.pairs[i] == (data.x[i], data.y[i])
    ensures spec.xAxis.kind == ValueAxis && spec.yAxis.kind == ValueAxis
    ensures spec.visualMap == None && spec.grid == StandardGrid
  {
    ChartSpec(
      ChartTitle("数学函数可视化（y = x²）", colors, fontSize),
      AxisTooltip(colors),
      None,
      ChartAxis(ValueAxis, colors, fontSize),
      ChartAxis(ValueAxis, colors, fontSize),
      StandardGrid,
      None,
      [ Series(None, LineSeries, Pairs(ZipPairs(data.x, data.y)), Some(LineStyle(None, 3, Some(palette[0]))),
               Some(NoMarker), None, None, None, true) ])
  }

  /** The datasets a rebuild draws: the four fixed ones and the scatter sample. */
  datatype Datasets = Datasets(exchange: ExchangeRateData, sales: ProductSalesData, scatter: ScatterData,
                               temperature: TemperatureData, curve: MathFunctionData)

  /** The shapes the builders index: C as long as A, the scatter sample and
      the curve parallel. */
  predicate WellShaped(d: Datasets) {
    |d.sales.salesA| <= |d.sales.salesC| && ScatterParallel(d.scatter) && |d.curve.x| <= |d.curve.y|
  }

  /** The five charts in page order, built from chart colours, a colour map
      and the datasets: the rebuild after the table lookups. */
  function Rebuild(colors: ChartColors, palette: seq<Color>, fontSize: int, d: Datasets): (charts: seq<ChartSpec>)
    requires |palette| >= 2 && WellShaped(d)
    ensures |charts| == 5
  {
    [ BuildExchangeRate(colors, palette, fontSize, d.exchange),
      BuildProductSales(colors, palette, fontSize, d.sales),
      BuildScatter(colors, palette, fontSize, d.scatter),
      BuildTemperature(colors, palette, fontSize, d.temperature),
      BuildMathFunction(colors, palette, fontSize, d.curve) ]
  }

  /** The page's datasets around a scatter sample. */
  function PageData(scatter: ScatterData): (d: Datasets)
    requires ScatterParallel(scatter)
    ensures WellShaped(d)
  {
    Datasets(ExchangeRate, ProductSales, scatter, Temperature(), MathFunction())
  }

  /** One rebuild of all five charts from the selection, in page order. */
  function AllCharts(themeId: string, colormapId: string, fontSize: int, page: PageContext,
                     scatter: ScatterData): (charts: seq<ChartSpec>)
    requires themeId in ThemeSchemes && colormapId in Colormaps
    requires ScatterParallel(scatter)
    ensures |charts| == 5
  {
    Rebuild(GetChartColors(themeId, page.textColor, page.mutedColor), Palette(colormapId), fontSize,
            PageData(scatter))
  }

  lemma RebuiltChartsFollowFont(colors: ChartColors, palette: seq<Color>, fontSize: int, d: Datasets)
    requires |palette| >= 2 && WellShaped(d)
    ensures var charts := Rebuild(colors, palette, fontSize, d);
      && (forall i :: 0 <= i < 5 ==> FontSizesFollow(charts[i], fontSize))
      && (forall i :: 0 <= i < 5 ==> ThemedText(charts[i], colors.primary, colors.text, colors.muted))
  {
    var charts := Rebuild(colors, palette, fontSize, d);
    forall i | 0 <= i < 5
      ensures FontSizesFollow(charts[i], fontSize) && ThemedText(charts[i], colors.primary, colors.text, colors.muted)
    {
      // one case per chart, each closed by that builder's own contract
      if i == 0 {} else if i == 1 {} else if i == 2 {} else if i == 3 {} else {}
    }
  }

  lemma RebuiltChartsUsePalette(colors: ChartColors, palette: seq<Color>, fontSize: int, d: Datasets)
    requires |palette| >= 2 && WellShaped(d)
    ensures var charts := Rebuild(colors, palette, fontSize, d);
      && LegendMatchesSeries(charts[0]) && ColoredFromPalette(charts[0].series, palette, 2)
      && LegendMatchesSeries(charts[1]) && ColoredFromPalette(charts[1].series, palette, 2)
      && LegendMatchesSeries(charts[3]) && ColoredFromPalette(charts[3].series, palette, 2)
      && |charts[4].series| == 1 && LineColor(charts[4].series[0]) == Some(palette[0])
      && charts[2].visualMap.Some? && charts[2].visualMap.value.colors == palette
  {
  }

  /** Every chart of a rebuild follows the font size and draws its text in
      the page's colours and its tooltip on the theme's primary colour. */
  lemma RebuildFollowsFontAndTheme(themeId: string, colormapId: string, fontSize: int, page: PageContext,
                                   scatter: ScatterData)
    requires themeId in ThemeSchemes && colormapId in Colormaps
    requires ScatterParallel(scatter)
    ensures var charts := AllCharts(themeId, colormapId, fontSize, page, scatter);
      && "primary" in ThemeSchemes[themeId].colors
      && (forall i :: 0 <= i < 5 ==> FontSizesFollow(charts[i], fontSize))
      && (forall i :: 0 <= i < 5 ==>
            ThemedText(charts[i], ThemeSchemes[themeId].colors["primary"], page.textColor, page.mutedColor))
  {
    ChartColorsOfTheme(themeId, page.textColor, page.mutedColor);
    RebuiltChartsFollowFont(GetChartColors(themeId, page.textColor, page.mutedColor), Palette(colormapId),
                            fontSize, PageData(scatter));
  }

  /** How a rebuild uses the colour map: the three charts with a legend
      (exchange rate, sales, temperature) match it to their series and draw
      series 0 and 1 in colours 0 and 1; the curve's one line is in colour 0;
      the scatter ramp is the whole colour map. */
  lemma RebuildFollowsColormap(themeId: string, colormapId: string, fontSize: int, page: PageContext,
                               scatter: ScatterData)
    requires themeId in ThemeSchemes && colormapId in Colormaps
    requires ScatterParallel(scatter)
    ensures var charts, palette := AllCharts(themeId, colormapId, fontSize, page, scatter), Colormaps[colormapId];
      && LegendMatchesSeries(charts[0]) && ColoredFromPalette(charts[0].series, palette, 2)
      && LegendMatchesSeries(charts[1]) && ColoredFromPalette(charts[1].series, palette, 2)
      && LegendMatchesSeries(charts[3]) && ColoredFromPalette(charts[3].series, palette, 2)
      && |charts[4].series| == 1 && LineColor(charts[4].series[0]) == Some(palette[0])
      && charts[2].visualMap.Some? && charts[2].visualMap.value.colors == palette
  {
    RebuiltChartsUsePalette(GetChartColors(themeId, page.textColor, page.mutedColor), Palette(colormapId),
                            fontSize, PageData(scatter));
  }

  /** Two colour sets with the same page text and muted colours. */
  predicate SameButPrimary(c1: ChartColors, c2: ChartColors) {
    c1.text == c2.text && c1.muted == c2.muted
  }

  lemma ExchangeRateRethemes(c1: ChartColors, c2: ChartColors, p: seq<Color>, fontSize: int, d: ExchangeRateData)
    requires |p| >= 2 && SameButPrimary(c1, c2)
    ensures var a, b := BuildExchangeRate(c1, p, fontSize, d), BuildExchangeRate(c2, p, fontSize, d);
      a.(tooltip := b.tooltip) == b
  {
  }

  lemma ProductSalesRethemes(c1: ChartColors, c2: ChartColors, p: seq<Color>, fontSize: int, d: ProductSalesData)
    requires |p| >= 2 && |d.salesA| <= |d.salesC| && SameButPrimary(c1, c2)
    ensures var a, b := BuildProductSales(c1, p, fontSize, d), BuildProductSales(c2, p, fontSize, d);
      a.(tooltip := b.tooltip) == b
  {
  }

  lemma ScatterRethemes(c1: ChartColors, c2: ChartColors, p: seq<Color>, fontSize: int, d: ScatterData)
    requires ScatterParallel(d) && SameButPrimary(c1, c2)
    ensures var a, b := BuildScatter(c1, p, fontSize, d), BuildScatter(c2, p, fontSize, d);
      a.(tooltip := b.tooltip) == b
  {
  }

  lemma TemperatureRethemes(c1: ChartColors, c2: ChartColors, p: seq<Color>, fontSize: int, d: TemperatureData)
    requires |p| >= 2 && SameButPrimary(c1, c2)
    ensures var a, b := BuildTemperature(c1, p, fontSize, d), BuildTemperature(c2, p, fontSize, d);
      a.(tooltip := b.tooltip) == b
  {
  }

  lemma MathFunctionRethemes(c1: ChartColors, c2: ChartColors, p: seq<Color>, fontSize: int, d: MathFunctionData)
    requires |p| >= 1 && |d.x| <= |d.y| && SameButPrimary(c1, c2)
    ensures var a, b := BuildMathFunction(c1, p, fontSize, d), BuildMathFunction(c2, p, fontSize, d);
      a.(tooltip := b.tooltip) == b
  {
  }

  lemma RebuildRethemes(c1: ChartColors, c2: ChartColors, p: seq<Color>, fontSize: int, d: Datasets)
    requires |p| >= 2 && WellShaped(d) && SameButPrimary(c1, c2)
    ensures var a, b := Rebuild(c1, p, fontSize, d), Rebuild(c2, p, fontSize, d);
      forall i :: 0 <= i < 5 ==> a[i].(tooltip := b[i].tooltip) == b[i]
  {
    ExchangeRateRethemes(c1, c2, p, fontSize, d.exchange);
    ProductSalesRethemes(c1, c2, p, fontSize, d.sales);
    ScatterRethemes(c1, c2, p, fontSize, d.scatter);
    TemperatureRethemes(c1, c2, p, fontSize, d.temperature);
    MathFunctionRethemes(c1, c2, p, fontSize, d.curve);
  }

  /** Of the theme's role colours, the charts use only primary, for the
      tooltip: for the same page text and muted colours, two themes give the
      same charts apart from the tooltip background. */
  lemma ThemeAffectsOnlyTooltip(theme1: string, theme2: string, colormapId: string,
                                fontSize: int, page: PageContext, scatter: ScatterData)
    requires theme1 in ThemeSchemes && theme2 in ThemeSchemes && colormapId in Colormaps
    requires ScatterParallel(scatter)
    ensures var a, b := AllCharts(theme1, colormapId, fontSize, page, scatter),
                        AllCharts(theme2, colormapId, fontSize, page, scatter);
      forall i :: 0 <= i < 5 ==> a[i].(tooltip := b[i].tooltip) == b[i]
  {
    RebuildRethemes(GetChartColors(theme1, page.textColor, page.mutedColor),
                    GetChartColors(theme2, page.textColor, page.mutedColor),
                    Palette(colormapId), fontSize, PageData(scatter));
  }

  /** A series with the palette colours of its line and markers erased. */
  function WithoutPaletteColor(s: Series): Series {
    s.(lineStyle := if s.lineStyle.Some? then Some(s.lineStyle.value.(color := None)) else None,
       itemStyle := if s.itemStyle.Some? then Some(s.itemStyle.value.(color := None)) else None)
  }

  /** A chart with every colour taken from the colour map erased: the line
      and marker colours of its series and the visual map's colour ramp. */
  function WithoutPalette(c: ChartSpec): ChartSpec {
    c.(visualMap := if c.visualMap.Some? then Some(c.visualMap.value.(colors := [])) else None,
       series := seq(|c.series|, k requires 0 <= k < |c.series| => WithoutPaletteColor(c.series[k])))
  }

  /** Two charts that differ at most in the colours taken from the colour map. */
  predicate SameExceptColors(a: ChartSpec, b: ChartSpec) {
    WithoutPalette(a) == WithoutPalette(b)
  }

  lemma ExchangeRateRecolors(c: ChartColors, p1: seq<Color>, p2: seq<Color>, fontSize: int, d: ExchangeRateData)
    requires |p1| >= 2 && |p2| >= 2
    ensures SameExceptColors(BuildExchangeRate(c, p1, fontSize, d), BuildExchangeRate(c, p2, fontSize, d))
  {
  }

  lemma ProductSalesRecolors(c: ChartColors, p1: seq<Color>, p2: seq<Color>, fontSize: int, d: ProductSalesData)
    requires |p1| >= 2 && |p2| >= 2 && |d.salesA| <= |d.salesC|
    ensures SameExceptColors(BuildProductSales(c, p1, fontSize, d), BuildProductSales(c, p2, fontSize, d))
  {
  }

  lemma ScatterRecolors(c: ChartColors, p1: seq<Color>, p2: seq<Color>, fontSize: int, d: ScatterData)
    requires ScatterParallel(d)
    ensures SameExceptColors(BuildScatter(c, p1, fontSize, d), BuildScatter(c, p2, fontSize, d))
  {
  }

  lemma TemperatureRecolors(c: ChartColors, p1: seq<Color>, p2: seq<Color>, fontSize: int, d: TemperatureData)
    requires |p1| >= 2 && |p2| >= 2
    ensures SameExceptColors(BuildTemperature(c, p1, fontSize, d), BuildTemperature(c, p2, fontSize, d))
  {
  }

  lemma MathFunctionRecolors(c: ChartColors, p1: seq<Color>, p2: seq<Color>, fontSize: int, d: MathFunctionData)
    requires |p1| >= 1 && |p2| >= 1 && |d.x| <= |d.y|
    ensures SameExceptColors(BuildMathFunction(c, p1, fontSize, d), BuildMathFunction(c, p2, fontSize, d))
  {
  }

  lemma RebuildRecolors(c: ChartColors, p1: seq<Color>, p2: seq<Color>, fontSize: int, d: Datasets)
    requires |p1| >= 2 && |p2| >= 2 && WellShaped(d)
    ensures var a, b := Rebuild(c, p1, fontSize, d), Rebuild(c, p2, fontSize, d);
      forall i :: 0 <= i < 5 ==> SameExceptColors(a[i], b[i])
  {
    ExchangeRateRecolors(c, p1, p2, fontSize, d.exchange);
    ProductSalesRecolors(c, p1, p2, fontSize, d.sales);
    ScatterRecolors(c, p1, p2, fontSize, d.scatter);
    TemperatureRecolors(c, p1, p2, fontSize, d.temperature);
    MathFunctionRecolors(c, p1, p2, fontSize, d.curve);
  }

  /** A colour-map change recolours the charts and changes nothing else. */
  lemma ColormapAffectsOnlyColors(themeId: string, map1: string, map2: string,
                                  fontSize: int, page: PageContext, scatter: ScatterData)
    requires themeId in ThemeSchemes && map1 in Colormaps && map2 in Colormaps
    requires ScatterParallel(scatter)
    ensures var a, b := AllCharts(themeId, map1, fontSize, page, scatter),
                        AllCharts(themeId, map2, fontSize, page, scatter);
      forall i :: 0 <= i < 5 ==> SameExceptColors(a[i], b[i])
  {
    RebuildRecolors(GetChartColors(themeId, page.textColor, page.mutedColor), Palette(map1), Palette(map2),
                    fontSize, PageData(scatter));
  }
}
