/** The dashboard's fixed data run through the builders: what the first
    page shows, and what the sales difference and the day labels come to. */
module Scenarios {

  import opened Options
  import opened ChartOptions
  import opened Tables
  import opened Builders
  import opened Transforms
  import opened Decimal

  /** The six July days of the exchange-rate sample as axis labels. */
  lemma SampleJulyDayLabels()
    ensures JulyDayLabels(ExchangeRate.dates) == ["7月3日", "7月8日", "7月13日", "7月17日", "7月25日", "7月31日"]
  {
    var labels := JulyDayLabels(ExchangeRate.dates);
    assert labels == [JulyDayLabel(3), JulyDayLabel(8), JulyDayLabel(13),
                      JulyDayLabel(17), JulyDayLabel(25), JulyDayLabel(31)];
    assert NatToDecimal(13) == "13" && NatToDecimal(17) == "17";
    assert NatToDecimal(25) == "25" && NatToDecimal(31) == "31";
    assert JulyDayLabel(3) == "7月3日" && JulyDayLabel(8) == "7月8日";
    assert JulyDayLabel(13) == "7月13日" && JulyDayLabel(17) == "7月17日";
    assert JulyDayLabel(25) == "7月25日" && JulyDayLabel(31) == "7月31日";
  }

  /** With the initial selection (business, viridis, 12) the exchange-rate
      chart has the two named series in the first two viridis colours, six
      points each, over the days 3, 8, 13, 17, 25 and 31 of July. */
  lemma InitialExchangeRateChart(text: Color, muted: Color)
    ensures var spec := BuildExchangeRate(GetChartColors("business", text, muted),
                                          Colormaps["viridis"], 12, ExchangeRate);
      && spec.title.fontSize == 12 && spec.xAxis.labelFontSize == 11 && spec.yAxis.labelFontSize == 11
      && spec.tooltip.backgroundColor == "#1e3a8a"
      && |spec.series| == 2
      && spec.series[0].name == Some("2017年7月汇率") && spec.series[1].name == Some("2019年7月汇率")
      && LineColor(spec.series[0]) == Some("#440154") && LineColor(spec.series[1]) == Some("#31688e")
      && |spec.series[0].data.values| == 6 && |spec.series[1].data.values| == 6
      && spec.xAxis.kind.labels == ["7月3日", "7月8日", "7月13日", "7月17日", "7月25日", "7月31日"]
  {
    SampleJulyDayLabels();
  }

  /** Product A outsold product C in every quarter, by these amounts. */
  lemma SalesSampleDifference(colors: ChartColors, palette: seq<Color>, fontSize: int)
    requires |palette| >= 2
    ensures var spec := BuildProductSales(colors, palette, fontSize, ProductSales);
      spec.series[2].data == Values([1991.0, 3403.0, 5260.0, 3729.0])
  {
  }

  /** The temperature days 4 to 18 become the labels 4日 to 18日, in order. */
  lemma TemperatureSampleLabels(colors: ChartColors, palette: seq<Color>, fontSize: int)
    requires |palette| >= 2
    ensures var spec := BuildTemperature(colors, palette, fontSize, Temperature());
      && spec.xAxis.kind.CategoryAxis?
      && |spec.xAxis.kind.labels| == 15
      && (forall i :: 0 <= i < 15 ==> spec.xAxis.kind.labels[i] == DayLabel(4 + i))
      && spec.xAxis.kind.labels[0] == "4日" && spec.xAxis.kind.labels[14] == "18日"
  {
    var labels := DayLabels(Temperature().dates);
    assert forall i :: 0 <= i < 15 ==> labels[i] == DayLabel(4 + i);
    assert labels[0] == DayLabel(4) == "4日";
    assert labels[14] == DayLabel(18) == "18日";
  }
}
