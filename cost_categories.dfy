/**
 * The cost-categories chart screen. Its descriptors are untyped JSON, so
 * every field may be missing: a descriptor without a configuration or
 * without rows renders nothing, only pie and bar charts render, and missing
 * keys and titles fall back to defaults.
 */
module CostCategories {
  import opened Wrappers
  import opened Charts

  /** One entry of `chartConfig.series`; any of its fields may be missing. */
  datatype LooseSeries = LooseSeries(dataKey: Option<string>, name: Option<string>, stroke: Option<string>, fill: Option<string>)

  /** `chartConfig.xAxis`; its labels only label the drawing. */
  datatype LooseAxis = LooseAxis(dataKey: Option<string>)

  /** `chartConfig`, with `type` as `kind`. */
  datatype LooseConfig = LooseConfig(kind: Option<string>, title: Option<string>, xAxis: Option<LooseAxis>,
                                     series: Option<seq<LooseSeries>>)

  /** One entry of `charts`: `{ chartConfig, data }`. */
  datatype Descriptor = Descriptor(chartConfig: Option<LooseConfig>, data: Option<seq<Row>>)

  /** `xAxis?.dataKey`. */
  function AxisKey(xAxis: Option<LooseAxis>): (key: Option<string>)
    ensures key.Some? ==> xAxis.Some? && xAxis.value.dataKey == key
    ensures xAxis.Some? ==> key == xAxis.value.dataKey
  {
    match xAxis
    case Some(a) => a.dataKey
    case None => None
  }

  /** `series?.[0]?.dataKey`. */
  function FirstDataKey(series: Option<seq<LooseSeries>>): (key: Option<string>)
    ensures key.Some? ==> series.Some? && series.value != [] && series.value[0].dataKey == key
    ensures series.Some? && series.value != [] ==> key == series.value[0].dataKey
  {
    if series.Some? && series.value != [] then series.value[0].dataKey else None
  }

  /** `series?.map((s, i) => <Bar ... />)`: no bars when `series` is missing. */
  function LooseBars(series: Option<seq<LooseSeries>>): (bars: seq<Mark>)
    ensures series.None? ==> bars == []
    ensures series.Some? ==> |bars| == |series.value|
  {
    match series
    case None => []
    case Some(ss) =>
      seq(|ss|, i requires 0 <= i < |ss| => Mark(ss[i].dataKey, ss[i].name, BarColor(ss[i].fill, ss[i].stroke, i)))
  }

  /** `renderChart`: a pie or bar card, or nothing. */
  function RenderChart(chart: Descriptor): (card: Option<ChartCard>)
    ensures card.Some? <==>
      && chart.chartConfig.Some? && chart.data.Some?
      && chart.chartConfig.value.kind in {Some("pie"), Some("bar")}
    ensures card.Some? ==> card.value.body.Some?
  {
    match (chart.chartConfig, chart.data)
    case (Some(config), Some(data)) =>
      if config.kind == Some("pie") then
        Some(ChartCard(OrElse(config.title, "Pie Chart"),
          Some(PieChart(data, Some(OrElse(FirstDataKey(config.series), "value")),
                        Some(OrElse(AxisKey(config.xAxis), "name")), PieCellColors(data)))))
      else if config.kind == Some("bar") then
        Some(ChartCard(OrElse(config.title, "Bar Chart"),
          Some(BarChart(data, AxisKey(config.xAxis), LooseBars(config.series)))))
      else
        None
    case _ => None
  }

  /** `!loading && !error && charts.length > 0`. */
  predicate ChartsVisible(loading: bool, error: Option<string>, charts: seq<Descriptor>) {
    !loading && !Truthy(error) && |charts| > 0
  }

  /** The cards the descriptors render, in order, skipping those that render nothing. */
  function Rendered(charts: seq<Descriptor>): (cards: seq<ChartCard>)
    ensures |cards| <= |charts|
    ensures forall c :: c in cards ==> exists j :: 0 <= j < |charts| && RenderChart(charts[j]) == Some(c)
  {
    if charts == [] then []
    else
      var last := charts[|charts| - 1];
      var init := Rendered(charts[..|charts| - 1]);
      assert forall j :: 0 <= j < |charts| - 1 ==> charts[..|charts| - 1][j] == charts[j];
      match RenderChart(last)
      case Some(card) => init + [card]
      case None => init
  }

  /** The cards on screen: none unless the charts are visible, else the rendered ones. */
  function ShownCards(loading: bool, error: Option<string>, charts: seq<Descriptor>): seq<ChartCard> {
    if ChartsVisible(loading, error, charts) then Rendered(charts) else []
  }

  // ---------------------------------------------------------------------------
  // Properties of the rendering
  // ---------------------------------------------------------------------------

  /**
   * A pie card: title defaulting to "Pie Chart", value key to `value`, name
   * key to `name`, and one palette-coloured cell per row.
   */
  lemma PieDefaults(chart: Descriptor)
    requires chart.chartConfig.Some? && chart.data.Some? && chart.chartConfig.value.kind == Some("pie")
    ensures var config := chart.chartConfig.value; var card := RenderChart(chart);
      && card.Some?
      && card.value.title == (if Truthy(config.title) then config.title.value else "Pie Chart")
      && card.value.body.value.PieChart?
      && card.value.body.value.data == chart.data.value
      && card.value.body.value.valueKey ==
           Some(if config.series.Some? && config.series.value != [] && Truthy(config.series.value[0].dataKey)
                then config.series.value[0].dataKey.value else "value")
      && card.value.body.value.nameKey ==
           Some(if config.xAxis.Some? && Truthy(config.xAxis.value.dataKey) then config.xAxis.value.dataKey.value else "name")
      && |card.value.body.value.cellColors| == |chart.data.value|
      && forall i :: 0 <= i < |chart.data.value| ==> card.value.body.value.cellColors[i] == ChartColors[i % 9]
  {
  }

  /**
   * A bar card: title defaulting to "Bar Chart" and one bar per series entry,
   * coloured by fill, else stroke, else palette; a missing `series` gives no bars.
   */
  lemma BarDefaults(chart: Descriptor)
    requires chart.chartConfig.Some? && chart.data.Some? && chart.chartConfig.value.kind == Some("bar")
    ensures var config := chart.chartConfig.value; var card := RenderChart(chart);
      && card.Some?
      && card.value.title == (if Truthy(config.title) then config.title.value else "Bar Chart")
      && card.value.body.value.BarChart?
      && (config.series.None? ==> card.value.body.value.bars == [])
      && (config.series.Some? ==>
            var ss := config.series.value;
            && |card.value.body.value.bars| == |ss|
            && forall i :: 0 <= i < |ss| ==>
                 card.value.body.value.bars[i] == Mark(ss[i].dataKey, ss[i].name, BarColor(ss[i].fill, ss[i].stroke, i)))
  {
  }

  /** When every descriptor renders, every one of them is shown, in order. */
  lemma {:induction false} AllRenderAllShown(charts: seq<Descriptor>)
    requires forall j :: 0 <= j < |charts| ==> RenderChart(charts[j]).Some?
    ensures |Rendered(charts)| == |charts|
    ensures forall j :: 0 <= j < |charts| ==> Some(Rendered(charts)[j]) == RenderChart(charts[j])
    decreases |charts|
  {
    if charts != [] {
      var init := charts[..|charts| - 1];
      forall j | 0 <= j < |init|
        ensures RenderChart(init[j]).Some?
      {
        assert init[j] == charts[j];
      }
      AllRenderAllShown(init);
      var card := RenderChart(charts[|charts| - 1]).value;
      assert Rendered(charts) == Rendered(init) + [card];
      forall j | 0 <= j < |charts|
        ensures Some(Rendered(charts)[j]) == RenderChart(charts[j])
      {
        if j < |init| {
          assert Rendered(charts)[j] == Rendered(init)[j];
          assert init[j] == charts[j];
        }
      }
    }
  }

  /** One descriptor is shown as its card, or not at all when it renders nothing. */
  lemma RenderedOne(chart: Descriptor)
    ensures RenderChart(chart).Some? ==> Rendered([chart]) == [RenderChart(chart).value]
    ensures RenderChart(chart).None? ==> Rendered([chart]) == []
  {
    assert [chart][..0] == [];
  }

  /**
   * Rendering works descriptor by descriptor: the cards of two lists placed
   * one after the other are the cards of the first followed by those of the
   * second, so order is kept and each descriptor contributes once.
   */
  lemma {:induction false} RenderedAppend(a: seq<Descriptor>, b: seq<Descriptor>)
    ensures Rendered(a + b) == Rendered(a) + Rendered(b)
    decreases |b|
  {
    if b == [] {
      assert a + b == a;
    } else {
      var init := b[..|b| - 1];
      assert (a + b)[..|a + b| - 1] == a + init;
      assert (a + b)[|a + b| - 1] == b[|b| - 1];
      RenderedAppend(a, init);
    }
  }

  /** Descriptors that render nothing (say, line charts) add nothing to what is shown. */
  lemma {:induction false} NothingRenderedIsSkipped(charts: seq<Descriptor>, others: seq<Descriptor>)
    requires forall j :: 0 <= j < |others| ==> RenderChart(others[j]).None?
    ensures Rendered(charts + others) == Rendered(charts)
    decreases |others|
  {
    if others != [] {
      var init := others[..|others| - 1];
      assert (charts + others)[..|charts + others| - 1] == charts + init;
      NothingRenderedIsSkipped(charts, init);
    } else {
      assert charts + others == charts;
    }
  }

  /** Nothing is rendered exactly when no descriptor renders. */
  lemma {:induction false} RenderedEmptyIff(charts: seq<Descriptor>)
    ensures Rendered(charts) == [] <==> forall j :: 0 <= j < |charts| ==> RenderChart(charts[j]).None?
    decreases |charts|
  {
    if charts != [] {
      var init := charts[..|charts| - 1];
      RenderedEmptyIff(init);
      assert forall j :: 0 <= j < |init| ==> init[j] == charts[j];
    }
  }

  /**
   * Cards are shown exactly when the screen is neither loading nor showing
   * an error and some descriptor renders.
   */
  lemma ShownCardsNonEmptyIff(loading: bool, error: Option<string>, charts: seq<Descriptor>)
    ensures ShownCards(loading, error, charts) != [] <==>
      !loading && !Truthy(error) && exists j :: 0 <= j < |charts| && RenderChart(charts[j]).Some?
  {
    RenderedEmptyIff(charts);
  }

  /**
   * The `charts.length > 0` part of the guard makes no difference to what
   * is shown: an empty list renders no cards anyway.
   */
  lemma LengthGuardRedundant(loading: bool, error: Option<string>, charts: seq<Descriptor>)
    ensures ShownCards(loading, error, charts) == (if loading || Truthy(error) then [] else Rendered(charts))
  {
  }
}
