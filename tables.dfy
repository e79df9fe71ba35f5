/** The constant tables: the theme schemes, the colour maps and the fixed
    datasets of the dashboard. */
module Tables {

  import opened ChartOptions

  /** A theme: a display name and a colour per role. */
  datatype Theme = Theme(name: string, colors: map<string, Color>)

  /** The colour roles every theme defines. */
  const Roles: set<string> := {"primary", "secondary", "accent", "background", "card"}

  const ThemeSchemes: map<string, Theme> := map[
    "business" := Theme("商务专业风", map[
      "primary" := "#1e3a8a", "secondary" := "#374151", "accent" := "#3b82f6",
      "background" := "#f8fafc", "card" := "#ffffff"]),
    "tech" := Theme("科技未来风", map[
      "primary" := "#06b6d4", "secondary" := "#0ea5e9", "accent" := "#10b981",
      "background" := "#0f172a", "card" := "#1e293b"]),
    "minimal" := Theme("简约清新风", map[
      "primary" := "#10b981", "secondary" := "#059669", "accent" := "#f59e0b",
      "background" := "#f0fdf4", "card" := "#ffffff"])
  ]

  const Colormaps: map<string, seq<Color>> := map[
    "viridis" := ["#440154", "#31688e", "#35b779", "#fde725"],
    "coolwarm" := ["#3b4cc0", "#9ebcf5", "#f7b6b1", "#b40426"],
    "tab10" := ["#1f77b4", "#ff7f0e", "#2ca02c", "#d62728", "#9467bd",
                "#8c564b", "#e377c2", "#7f7f7f", "#bcbd22", "#17becf"],
    "Set3" := ["#8dd3c7", "#ffffb3", "#bebada", "#fb8072", "#80b1d3",
               "#fdb462", "#b3de69", "#fccde5", "#d9d9d9", "#bc80bd"]
  ]

  /** The colour map `id`, which always has the two colours the line charts index. */
  function Palette(id: string): (p: seq<Color>)
    requires id in Colormaps
    ensures |p| >= 2
  {
    Colormaps[id]
  }

  /** The exchange-rate sample: days of July and the two years' rates. */
  datatype ExchangeRateData = ExchangeRateData(dates: seq<int>, rate2017: seq<Number>, rate2019: seq<Number>)

  /** The sales sample: quarter names and the two products' sales. */
  datatype ProductSalesData = ProductSalesData(quarters: seq<string>, salesA: seq<Number>, salesC: seq<Number>)

  /** The scatter sample: parallel coordinates and a value in [0, 1) per point. */
  datatype ScatterData = ScatterData(x: seq<Number>, y: seq<Number>, values: seq<Number>)

  /** The scatter coordinates and values line up, point by point. */
  predicate ScatterParallel(d: ScatterData) {
    |d.x| <= |d.y| && |d.x| <= |d.values|
  }

  /** The temperature sample: days and the daily maximum and minimum. */
  datatype TemperatureData = TemperatureData(dates: seq<int>, maxTemp: seq<Number>, minTemp: seq<Number>)

  /** The function sample: x values and y = x * x. */
  datatype MathFunctionData = MathFunctionData(x: seq<Number>, y: seq<Number>)

  const ExchangeRate := ExchangeRateData(
    [3, 8, 13, 17, 25, 31],
    [6.8007, 6.8060, 6.7835, 6.7700, 6.7511, 6.7265],
    [6.8640, 6.8881, 6.8662, 6.8827, 6.8737, 6.8841])

  const ProductSales := ProductSalesData(
    ["第1季度", "第2季度", "第3季度", "第4季度"],
    [2144.0, 4617.0, 7674.0, 4409.0],
    [153.0, 1214.0, 2414.0, 680.0])

  /** The temperature sample; its days are generated, 4 up to 18. */
  function Temperature(): TemperatureData {
    TemperatureData(
      seq(15, i => i + 4),
      [28.0, 30.0, 32.0, 34.0, 31.0, 29.0, 27.0, 28.0, 30.0, 31.0, 29.0, 28.0, 27.0, 26.0, 25.0],
      [18.0, 20.0, 22.0, 23.0, 21.0, 19.0, 17.0, 18.0, 20.0, 21.0, 19.0, 18.0, 17.0, 16.0, 15.0])
  }

  /** The function sample, generated: x runs over i * 0.05 for i < 100. */
  function MathFunction(): MathFunctionData {
    MathFunctionData(
      seq(100, i => (i as real) * 0.05),
      seq(100, i => ((i as real) * 0.05) * ((i as real) * 0.05)))
  }

  /** Every theme defines the same five roles, and those only. */
  lemma ThemesDefineRoles()
    ensures ThemeSchemes.Keys == {"business", "tech", "minimal"}
    ensures forall id :: id in ThemeSchemes ==> ThemeSchemes[id].colors.Keys == Roles
  {
  }

  /** Every colour map has at least the two colours the line charts use. */
  lemma ColormapsHaveTwoColors()
    ensures Colormaps.Keys == {"viridis", "coolwarm", "tab10", "Set3"}
    ensures forall id :: id in Colormaps ==> |Colormaps[id]| >= 2
  {
  }

  /** The fixed datasets have parallel sequences of equal length, and the
      temperature days run from 4 to 18. */
  lemma DatasetsAreParallel()
    ensures |ExchangeRate.dates| == |ExchangeRate.rate2017| == |ExchangeRate.rate2019| == 6
    ensures |ProductSales.quarters| == |ProductSales.salesA| == |ProductSales.salesC| == 4
    ensures |Temperature().dates| == |Temperature().maxTemp| == |Temperature().minTemp| == 15
    ensures forall i :: 0 <= i < 15 ==> Temperature().dates[i] == 4 + i
    ensures |MathFunction().x| == |MathFunction().y| == 100
  {
  }
}
