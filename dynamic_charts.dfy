/**
 * The chart screen that renders typed chart descriptors: each descriptor
 * becomes a card with its title and, by its type, a bar, line, pie or
 * scatter chart whose keys and colours come from the descriptor's series.
 */
module DynamicCharts {
  import opened Wrappers
  import opened Charts

  /** One series of `ChartConfig.series`. */
  datatype Series = Series(dataKey: string, name: string, stroke: Option<string>, fill: Option<string>)

  /** `ChartConfig.xAxis`; its `label` (here `axisLabel`) only labels the drawing. */
  datatype XAxis = XAxis(dataKey: string, axisLabel: Option<string>)

  /**
   * `ChartConfig`. `kind` is the `type` field: declared as one of four
   * names, but read from the uploaded file, so any string can arrive.
   */
  datatype ChartConfig = ChartConfig(kind: string, title: string, xAxis: Option<XAxis>, series: seq<Series>)

  /** `ChartData`: a descriptor and its rows. */
  datatype ChartData = ChartData(chartConfig: ChartConfig, data: seq<Row>)

  /** `xAxis?.dataKey`. */
  function XKey(xAxis: Option<XAxis>): Option<string> {
    match xAxis
    case Some(a) => Some(a.dataKey)
    case None => None
  }

  /** `series.map((s, i) => <Bar ... />)`. */
  function Bars(series: seq<Series>): (bars: seq<Mark>) {
    seq(|series|, i requires 0 <= i < |series| =>
      Mark(Some(series[i].dataKey), Some(series[i].name), BarColor(series[i].fill, series[i].stroke, i)))
  }

  /** `series.map((s, i) => <Line ... />)`: a line's colour is `s.stroke || chartColors[i % 9]`. */
  function Lines(series: seq<Series>): (lines: seq<Mark>) {
    seq(|series|, i requires 0 <= i < |series| =>
      Mark(Some(series[i].dataKey), Some(series[i].name), OrElse(series[i].stroke, PaletteColor(i))))
  }

  /** `series[0]?.<field>`. */
  function FirstSeries(series: seq<Series>): Option<Series> {
    if series == [] then None else Some(series[0])
  }

  /** The chart body of a card, by the descriptor's type; none for any other type. */
  function Body(chart: ChartData): (body: Option<ChartBody>)
    ensures body.Some? <==> chart.chartConfig.kind in {"bar", "line", "pie", "scatter"}
  {
    var config := chart.chartConfig;
    var first := FirstSeries(config.series);
    if config.kind == "bar" then
      Some(BarChart(chart.data, XKey(config.xAxis), Bars(config.series)))
    else if config.kind == "line" then
      Some(LineChart(chart.data, XKey(config.xAxis), Lines(config.series)))
    else if config.kind == "pie" then
      Some(PieChart(chart.data, if first.Some? then Some(first.value.dataKey) else None,
                    XKey(config.xAxis), PieCellColors(chart.data)))
    else if config.kind == "scatter" then
      Some(ScatterChart(chart.data, XKey(config.xAxis),
                        if first.Some? then Some(first.value.dataKey) else None,
                        if first.Some? then Some(first.value.name) else None,
                        OrElse(if first.Some? then first.value.stroke else None, PaletteColor(0))))
    else
      None
  }

  /** One card of `charts.map(...)`: the descriptor's title and its chart body. */
  function RenderChart(chart: ChartData): ChartCard {
    ChartCard(chart.chartConfig.title, Body(chart))
  }

  /** `{!loading && !error && charts.map(...)}`: one card per descriptor, in order, or no cards at all. */
  function RenderAll(loading: bool, error: Option<string>, charts: seq<ChartData>): seq<ChartCard> {
    if loading || Truthy(error) then []
    else seq(|charts|, i requires 0 <= i < |charts| => RenderChart(charts[i]))
  }

  /** `setCharts(res.data.charts || [])`: the charts a response carries, none when it carries no list. */
  function ChartsOf(response: Option<seq<ChartData>>): seq<ChartData> {
    ChartsOrEmpty(response)
  }

  // ---------------------------------------------------------------------------
  // What each chart type gets
  // ---------------------------------------------------------------------------

  /**
   * A bar chart has one bar per series, in series order, keyed and named by
   * the series; its colour is the fill, else the stroke, else the palette
   * colour of its position.
   */
  lemma BarPerSeries(chart: ChartData)
    requires chart.chartConfig.kind == "bar"
    ensures var body := RenderChart(chart).body; var series := chart.chartConfig.series;
      && RenderChart(chart).title == chart.chartConfig.title
      && body.Some? && body.value.BarChart? && body.value.data == chart.data
      && body.value.xKey == (if chart.chartConfig.xAxis.None? then None else Some(chart.chartConfig.xAxis.value.dataKey))
      && |body.value.bars| == |series|
      && forall i :: 0 <= i < |series| ==>
           && body.value.bars[i].dataKey == Some(series[i].dataKey)
           && body.value.bars[i].name == Some(series[i].name)
           && body.value.bars[i].color ==
                (if Truthy(series[i].fill) then series[i].fill.value
                 else if Truthy(series[i].stroke) then series[i].stroke.value
                 else ChartColors[i % 9])
  {
  }

  /** A line chart has one line per series; its colour is the stroke, else the palette colour of its position. */
  lemma LinePerSeries(chart: ChartData)
    requires chart.chartConfig.kind == "line"
    ensures var body := RenderChart(chart).body; var series := chart.chartConfig.series;
      && RenderChart(chart).title == chart.chartConfig.title
      && body.Some? && body.value.LineChart? && body.value.data == chart.data
      && body.value.xKey == (if chart.chartConfig.xAxis.None? then None else Some(chart.chartConfig.xAxis.value.dataKey))
      && |body.value.lines| == |series|
      && forall i :: 0 <= i < |series| ==>
           && body.value.lines[i].dataKey == Some(series[i].dataKey)
           && body.value.lines[i].name == Some(series[i].name)
           && body.value.lines[i].color ==
                (if Truthy(series[i].stroke) then series[i].stroke.value else ChartColors[i % 9])
  {
  }

  /** Same series but for their fills. */
  predicate SameButFills(a: seq<Series>, b: seq<Series>) {
    |a| == |b| && forall i :: 0 <= i < |a| ==> a[i].(fill := None) == b[i].(fill := None)
  }

  /** A series' fill plays no part in a line chart. */
  lemma LineIgnoresFill(chart: ChartData, series: seq<Series>)
    requires chart.chartConfig.kind == "line"
    requires SameButFills(chart.chartConfig.series, series)
    ensures RenderChart(chart.(chartConfig := chart.chartConfig.(series := series))) == RenderChart(chart)
  {
    var a := chart.chartConfig.series;
    forall i | 0 <= i < |a|
      ensures Lines(series)[i] == Lines(a)[i]
    {
      assert a[i].(fill := None).stroke == a[i].stroke;
      assert series[i].(fill := None).stroke == series[i].stroke;
    }
    assert Lines(series) == Lines(a);
  }

  /**
   * A pie chart takes its value key from the first series (none without
   * series), its name key from the x axis, and gets one cell per row.
   */
  lemma PieKeysAndCells(chart: ChartData)
    requires chart.chartConfig.kind == "pie"
    ensures var body := RenderChart(chart).body; var config := chart.chartConfig;
      && RenderChart(chart).title == config.title
      && body.Some? && body.value.PieChart? && body.value.data == chart.data
      && body.value.valueKey == (if config.series == [] then None else Some(config.series[0].dataKey))
      && body.value.nameKey == (if config.xAxis.None? then None else Some(config.xAxis.value.dataKey))
      && |body.value.cellColors| == |chart.data|
      && forall i :: 0 <= i < |chart.data| ==> body.value.cellColors[i] == ChartColors[i % 9]
  {
    var config := chart.chartConfig;
    assert config.kind != "bar" && config.kind != "line";
    var valueKey := if config.series == [] then None else Some(config.series[0].dataKey);
    assert Body(chart) == Some(PieChart(chart.data, valueKey, XKey(config.xAxis), PieCellColors(chart.data)));
  }

  /** A scatter chart takes its y key, name and colour from the first series; its colour defaults to the first palette colour. */
  lemma ScatterUsesFirstSeries(chart: ChartData)
    requires chart.chartConfig.kind == "scatter"
    ensures var body := RenderChart(chart).body; var series := chart.chartConfig.series;
      && RenderChart(chart).title == chart.chartConfig.title
      && body.Some? && body.value.ScatterChart? && body.value.data == chart.data
      && body.value.xKey == (if chart.chartConfig.xAxis.None? then None else Some(chart.chartConfig.xAxis.value.dataKey))
      && body.value.yKey == (if series == [] then None else Some(series[0].dataKey))
      && body.value.name == (if series == [] then None else Some(series[0].name))
      && body.value.color == (if series != [] && Truthy(series[0].stroke) then series[0].stroke.value else ChartColors[0])
  {
  }

  /** Only the first series matters to a scatter chart: the later ones are ignored. */
  lemma ScatterIgnoresLaterSeries(chart: ChartData, later: seq<Series>)
    requires chart.chartConfig.kind == "scatter" && chart.chartConfig.series != []
    ensures var series := [chart.chartConfig.series[0]] + later;
      RenderChart(chart.(chartConfig := chart.chartConfig.(series := series))) == RenderChart(chart)
  {
  }

  /** A descriptor of any other type gets a card with its title and no chart. */
  lemma UnknownTypeTitleOnly(chart: ChartData)
    requires chart.chartConfig.kind !in {"bar", "line", "pie", "scatter"}
    ensures RenderChart(chart) == ChartCard(chart.chartConfig.title, None)
  {
  }

  // ---------------------------------------------------------------------------
  // What the screen shows
  // ---------------------------------------------------------------------------

  /**
   * No card is shown exactly while loading, after an error, or when there
   * are no descriptors; otherwise every descriptor gets its card.
   */
  lemma RenderAllEmptyIff(loading: bool, error: Option<string>, charts: seq<ChartData>)
    ensures RenderAll(loading, error, charts) == [] <==> loading || Truthy(error) || charts == []
    ensures !loading && !Truthy(error) ==> |RenderAll(loading, error, charts)| == |charts|
  {
    if !loading && !Truthy(error) && charts != [] {
      assert RenderAll(loading, error, charts)[0] == RenderChart(charts[0]);
    }
  }

  /**
   * Descriptors are rendered one by one: the cards of two lists placed one
   * after the other are the cards of the first followed by those of the
   * second.
   */
  lemma RenderAllAppend(loading: bool, error: Option<string>, a: seq<ChartData>, b: seq<ChartData>)
    ensures RenderAll(loading, error, a + b) == RenderAll(loading, error, a) + RenderAll(loading, error, b)
  {
    if !loading && !Truthy(error) {
      var all := RenderAll(loading, error, a + b);
      forall i | 0 <= i < |a + b|
        ensures all[i] == (RenderAll(loading, error, a) + RenderAll(loading, error, b))[i]
      {
        if i >= |a| {
          assert (a + b)[i] == b[i - |a|];
        }
      }
    }
  }

  /**
   * After a response, the screen shows one card per descriptor of its
   * `charts` list, each with that descriptor's title, unless it is loading or
   * showing an error; a response without the list shows nothing, like an
   * empty list.
   */
  lemma ResponseShown(loading: bool, error: Option<string>, response: Option<seq<ChartData>>)
    ensures var cards := RenderAll(loading, error, ChartsOf(response));
      && (loading || Truthy(error) || response.None? ==> cards == [])
      && (!loading && !Truthy(error) && response.Some? ==>
            && |cards| == |response.value|
            && forall i :: 0 <= i < |cards| ==> cards[i].title == response.value[i].chartConfig.title)
    ensures ChartsOf(None) == ChartsOf(Some([]))
  {
  }
}
