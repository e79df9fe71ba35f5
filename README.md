# Themeable chart dashboard — Dafny model

This project models the core of `script.js`, a dashboard page that draws five
preset charts with a third-party charting library. The five charts are an
exchange-rate trend, a sales comparison, a scatter plot, a temperature trend
and the curve y = x². The model has three parts:

- **Selection state**: the three globals `currentTheme`, `currentColormap` and
  `currentFontSize`. Three change handlers each overwrite one of them and then
  rebuild every chart. Here they are the class `Dashboard.Selection`. Each
  handler returns the five option records that the rebuild hands to the library.
- **Constant tables** (`Tables`): the three theme schemes with their five
  colour roles, the four colour maps, and the fixed datasets.
- **Chart-option builders** (`Builders`): the five `create*Chart` functions,
  with the library calls removed. Each one turns the theme's chart colours,
  the selected colour map, the font size and a dataset into an option record
  (`ChartOptions.ChartSpec`). That record holds a title, a tooltip, a legend,
  two axes, a grid, a visual map and a list of series. The builders contain
  some small transforms, modelled in `Transforms`: date labels (with the
  decimal rendering in `Decimal`), the A−C sales difference, and the zips of
  parallel arrays into points.

Modules: `Options`, `Decimal`, `ChartOptions`, `Tables`, `Transforms`,
`Builders`, `Dashboard`, `Scenarios` (the fixed data run through the builders).

Inputs that come from outside the code are parameters:
- the text and muted colours, which the source reads from the page's computed
  style at each rebuild (`Builders.PageContext`);
- the random scatter sample drawn once at load, which is the constructor's
  argument and a constant of `Dashboard.Selection` from then on.

Theme and colour-map ids are strings, and every operation that reads one
requires it to be a key of its table. The code has no error handling, so the
model has no error cases. Two more things the code does not do, and the model
does not do either:
- the axis font size is `fontSize - 1` whatever the font size, with no
  clamping;
- the line charts index colours 0 and 1 of the colour map directly, with no
  wrap-around. `Tables.ColormapsHaveTwoColors` proves every colour map is long
  enough, and `Tables.Palette` carries that bound to the builders.

A rebuild is modelled in two layers: `Builders.Rebuild` runs the five
builders on given chart colours, colour map and datasets, and
`Builders.AllCharts` first looks up the selected theme and colour map, as
every builder does through `getChartColors()` and `colormaps[currentColormap]`.

## Model

| member | source | states |
|---|---|---|
| `Tables.ThemesDefineRoles` | script.js:7-38 | there are exactly the themes business, tech and minimal, and each defines exactly the five roles primary, secondary, accent, background and card |
| `Tables.ColormapsHaveTwoColors` | script.js:41-46 | there are exactly the four colour maps, and each has at least two colours, so indices 0 and 1 are always in range |
| `Tables.Palette` | script.js:205 | the colour map looked up by a known id has at least two colours |
| `Tables.DatasetsAreParallel` | script.js:49-83 | each fixed dataset's parallel arrays have equal length (6, 4, 15, 100), and the temperature days are 4 + i |
| `Decimal.ParseRendered` | script.js:182 | parsing the decimal text of an integer, as written by `${d}`, gives the integer back |
| `Decimal.ParseIsInverse` | script.js:182 | a text parses to n exactly when it is the decimal text of n: leading zeros, "-0" and a bare sign are rejected |
| `Decimal.RenderingInjective` | script.js:388 | two integers have the same decimal text exactly when they are equal |
| `Transforms.JulyDayLabelParseExact` | script.js:182 | a text reads back, as `7月…日`, to day d exactly when it is the label `7月${d}日` |
| `Transforms.DayLabelParseExact` | script.js:388 | a text reads back, as `…日`, to day d exactly when it is the label `${d}日` |
| `Transforms.JulyDayLabels` | script.js:182 | one label per date, in order; label i reads back, as `7月…日`, to date i, which by the exact parser pins it to `7月${d}日` |
| `Transforms.DayLabels` | script.js:388 | one label per date, in order; label i reads back, as `…日`, to date i, which by the exact parser pins it to `${d}日` |
| `Transforms.JulyDayLabelsDistinct` | script.js:182 | distinct dates get distinct exchange-rate category labels |
| `Transforms.DayLabelsDistinct` | script.js:388 | distinct dates get distinct temperature category labels |
| `Transforms.SalesDifference` | script.js:292 | the result has the length of salesA, and element idx is salesA[idx] − salesC[idx] |
| `Transforms.ZipTriples` | script.js:352 | one triple per x entry; triple i is (x[i], y[i], values[i]) |
| `Transforms.UnzipZipTriples` | script.js:352 | splitting the triples back gives x and the first \|x\| entries of y and values |
| `Transforms.ZipPairs` | script.js:469 | one pair per x entry; pair i is (x[i], y[i]) |
| `Transforms.UnzipZipPairs` | script.js:469 | splitting the pairs back gives x and the first \|x\| entries of y |
| `Builders.ChartColorsOfTheme` | script.js:133-142 | every theme has the primary, secondary and accent roles, and the chart colours are those three role colours of the selected theme; text and muted come from the page unchanged |
| `Builders.BuildExchangeRate` | script.js:159-229 | title font = fontSize, both axis label fonts = fontSize − 1; tooltip white on primary; legend = the two series' names in order; series i uses palette[i] for both line and markers; series data are the two rate arrays; category label i is `7月${d}日` of date i |
| `Builders.BuildProductSales` | script.js:232-304 | same font, tooltip and legend facts over three series; A and C use palette[0] and palette[1]; the difference series has salesA's length, element idx is salesA[idx] − salesC[idx], and it is a #ADD8E6 area at opacity 0.3 with line width 0 |
| `Builders.BuildScatter` | script.js:307-362 | same font and tooltip facts, item tooltip, no legend; the visual map spans [0, 1] on dimension 2 and uses the whole selected colour map; one triple per x entry, triple i = (x[i], y[i], values[i]) |
| `Builders.BuildTemperature` | script.js:365-431 | same font, tooltip and legend facts; series i uses palette[i]; the maximum series has a #ff0000 border of width 2; category label i is `${d}日` of date i |
| `Builders.BuildMathFunction` | script.js:434-481 | same font and tooltip facts, no legend; a single smooth line without markers of width 3 in palette[0]; one pair per x entry, pair i = (x[i], y[i]) |
| `Builders.RebuiltChartsFollowFont` | script.js:145-151 | for any chart colours, colour map and well-shaped datasets, all five rebuilt charts follow the font size, draw text in the page colours and the tooltip on the primary colour |
| `Builders.RebuiltChartsUsePalette` | script.js:145-151 | for any chart colours, colour map and well-shaped datasets, the three legend charts match their series and use colours 0 and 1, the curve is in colour 0, and the scatter ramp is the whole colour map |
| `Builders.RebuildFollowsFontAndTheme` | script.js:145-151 | a rebuild of the selection gives five charts that follow the font size and draw the tooltip on the selected theme's primary colour |
| `Builders.RebuildFollowsColormap` | script.js:145-151 | in a rebuild of the selection, the three legend charts use colours 0 and 1 of the selected colour map, the curve colour 0, and the scatter ramp the whole map |
| `Builders.ThemeAffectsOnlyTooltip` | script.js:133-142 | for the same page text and muted colours, two themes give the same charts except for the tooltip: of a theme's roles only primary is used |
| `Builders.ColormapAffectsOnlyColors` | script.js:159-481 | two colour maps give charts that are equal once the colours taken from the colour map (series line and marker colours, the scatter ramp) are erased |
| `Dashboard.Selection.constructor` | script.js:2-4 | the page starts with business, viridis and font size 12, over the scatter sample drawn at load |
| `Dashboard.Selection.RenderAll` | script.js:154-156 | rebuilding all charts gives the five option records of the current selection and the load-time scatter sample, each following the font size |
| `Dashboard.Selection.ChangeTheme` | script.js:100-104 | sets only the theme, leaves the colour map and font size as they were, and returns the full rebuild under the new theme |
| `Dashboard.Selection.ChangeColormap` | script.js:107-110 | sets only the colour map, leaves the theme and font size as they were, and returns the full rebuild |
| `Dashboard.Selection.ChangeFontSize` | script.js:113-118 | sets only the font size, leaves the theme and colour map as they were, and returns the full rebuild |
| `Scenarios.SampleJulyDayLabels` | script.js:52 | the sample days become 7月3日, 7月8日, 7月13日, 7月17日, 7月25日 and 7月31日 |
| `Scenarios.InitialExchangeRateChart` | script.js:197-224 | under business, viridis and 12: two series named 2017年7月汇率 and 2019年7月汇率 in #440154 and #31688e, six points each; title font 12, both axis fonts 11; tooltip #1e3a8a |
| `Scenarios.SalesSampleDifference` | script.js:58-62 | the sample's difference series is 1991, 3403, 5260, 3729 |
| `Scenarios.TemperatureSampleLabels` | script.js:73 | the temperature axis has 15 labels; label i is the label of day 4 + i, from 4日 to 18日 |

## Left out

- DOM work is not modelled: `getElementById`, and the controls' event registration.
- `applyTheme` is not modelled: it writes the `data-theme` attribute and one CSS variable per role. That is page styling (script.js:122-130). The theme handler's call to it is left out too.
- The font-size handler's two page writes are not modelled: the `font-size-value` text and the `--font-size` variable (script.js:115-116).
- The text and muted colours are parameters, not values the model computes. The source reads them from the page's computed style (script.js:139-140).
- The charting library is not modelled: `echarts.init`, `setOption` and `resize`. Each builder's output is the option record it would pass to `setOption`.
- The `resize` listener that every rebuild registers is not modelled (script.js:228, 303, 361, 430, 480). A long session piles these listeners up; that is event plumbing outside the model.
- The scatter sample comes from `Math.random()` (script.js:66-68). The model takes it as any parallel `ScatterData`, given to the `Dashboard.Selection` constructor and kept for every later rebuild, as the source draws it once at load.
- Numbers are modelled as exact `real`s, not as IEEE doubles. The decimal exchange rates and the generated curve values (`i * 0.05`, `Math.pow`) are exact in the model. The one computation on them is the sales difference, whose operands are integers, so rounding does not matter there.
- `parseInt` of the slider value is not modelled (script.js:114). `ChangeFontSize` takes the parsed integer. A `NaN` result is not represented.
- Unknown theme or colour-map ids are excluded by the requires clauses. In the source, an unknown theme id makes `themeSchemes[currentTheme]` `undefined`, and reading `.colors` of it throws a TypeError (script.js:127, 136). An unknown colour-map id throws the same way at `colormaps[currentColormap][0]` (script.js:205). The handler has already stored the bad id (script.js:101, 108), so every later rebuild throws too.
- Colour maps with fewer than two colours are excluded the same way. No table has one.
- Builders.BuildProductSales: requires salesC to be at least as long as salesA. If salesC were shorter, the source would subtract `undefined` and produce `NaN`; the fixed data never do this.
- Builders.BuildScatter: requires y and values to be at least as long as x, for the same reason.
- Builders.BuildMathFunction: requires y to be at least as long as x, for the same reason.
- Scenarios.TemperatureSampleLabels: states the first and last labels literally, and every label i as the label of day 4 + i. It does not spell out all fifteen strings.
- Decimal.IntToDecimal: renders every integer in plain decimal. JavaScript writes numbers of magnitude 10^21 and above in exponent form (`1e+21`), and integers past 2^53 are not exact. The dates the page labels (3 to 31, 4 to 18) are far below both limits. `Builders.BuildExchangeRate` and `Builders.BuildTemperature` inherit this: for such dates the source's label text differs from the model's.
- Builders.ThemeAffectsOnlyTooltip: holds for one fixed pair of page text and muted colours. In the page, the theme handler first runs `applyTheme`, which sets `data-theme` (script.js:102, 124), and the rebuild then reads `--text-color` and `--text-muted` from computed style (script.js:139-140). A stylesheet may give those different values per theme, which would change the title, axis, legend and visual-map text colours as well. The stylesheet is not part of this model.
