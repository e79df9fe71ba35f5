/** The dashboard controller: the three selection fields and the change
    handlers that overwrite one of them and then rebuild every chart. The
    option records a rebuild hands to the charting library are returned. */
module Dashboard {

  import opened ChartOptions
  import opened Tables
  import opened Builders

  class Selection {
    var currentTheme: string
    var currentColormap: string
    var currentFontSize: int
    /** The scatter sample, drawn once when the page loads and shown by every rebuild. */
    const scatter: ScatterData

    /** The selected theme and colour map are entries of their tables, and
        the scatter sample is parallel. */
    ghost predicate Valid()
      reads this
    {
      currentTheme in ThemeSchemes && currentColormap in Colormaps && ScatterParallel(scatter)
    }

    /** The selection the page starts with, over the sample drawn at load. */
    constructor (sample: ScatterData)
      requires ScatterParallel(sample)
      ensures Valid()
      ensures currentTheme == "business" && currentColormap == "viridis" && currentFontSize == 12
      ensures scatter == sample
    {
      currentTheme := "business";
      currentColormap := "viridis";
      currentFontSize := 12;
      scatter := sample;
    }

    /** Builds every chart from the current selection. */
    method RenderAll(page: PageContext) returns (charts: seq<ChartSpec>)
      requires Valid()
      ensures charts == AllCharts(currentTheme, currentColormap, currentFontSize, page, scatter)
      ensures |charts| == 5
      ensures forall i :: 0 <= i < 5 ==> FontSizesFollow(charts[i], currentFontSize)
    {
      var colors := GetChartColors(currentTheme, page.textColor, page.mutedColor);
      var palette := Palette(currentColormap);
      var exchange := BuildExchangeRate(colors, palette, currentFontSize, ExchangeRate);
      var sales := BuildProductSales(colors, palette, currentFontSize, ProductSales);
      var scatterChart := BuildScatter(colors, palette, currentFontSize, scatter);
      var temperature := BuildTemperature(colors, palette, currentFontSize, Temperature());
      var curve := BuildMathFunction(colors, palette, currentFontSize, MathFunction());
      charts := [exchange, sales, scatterChart, temperature, curve];
      RebuildFollowsFontAndTheme(currentTheme, currentColormap, currentFontSize, page, scatter);
    }

    /** A theme change: sets the theme only, then rebuilds every chart. */
    method ChangeTheme(value: string, page: PageContext) returns (charts: seq<ChartSpec>)
      requires Valid()
      requires value in ThemeSchemes
      modifies this
      ensures Valid()
      ensures currentTheme == value
      ensures currentColormap == old(currentColormap) && currentFontSize == old(currentFontSize)
      ensures charts == AllCharts(value, old(currentColormap), old(currentFontSize), page, scatter)
    {
      currentTheme := value;
      charts := RenderAll(page);
    }

    /** A colour-map change: sets the colour map only, then rebuilds every chart. */
    method ChangeColormap(value: string, page: PageContext) returns (charts: seq<ChartSpec>)
      requires Valid()
      requires value in Colormaps
      modifies this
      ensures Valid()
      ensures currentColormap == value
      ensures currentTheme == old(currentTheme) && currentFontSize == old(currentFontSize)
      ensures charts == AllCharts(old(currentTheme), value, old(currentFontSize), page, scatter)
    {
      currentColormap := value;
      charts := RenderAll(page);
    }

    /** A font-size change: sets the font size only, then rebuilds every chart. */
    method ChangeFontSize(value: int, page: PageContext) returns (charts: seq<ChartSpec>)
      requires Valid()
      modifies this
      ensures Valid()
      ensures currentFontSize == value
      ensures currentTheme == old(currentTheme) && currentColormap == old(currentColormap)
      ensures charts == AllCharts(old(currentTheme), old(currentColormap), value, page, scatter)
    {
      currentFontSize := value;
      charts := RenderAll(page);
    }
  }
}
