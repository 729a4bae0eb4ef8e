/**
 * What the two chart screens share: the nine-colour palette, JavaScript's
 * `||` on optional strings, the bar colour rule, and the description of a
 * rendered chart card (which chart body it gets, which keys feed it and
 * which colour each series or slice gets) that stands in for the drawing.
 */
module Charts {
  import opened Wrappers

  /** `chartColors`, the same nine colours on both screens. */
  const ChartColors: seq<string> :=
    ["#8884d8", "#82ca9d", "#ffc658", "#ff7300", "#ff0000", "#0088FE", "#00C49F", "#FFBB28", "#FF8042"]

  /** The nine palette colours are distinct. */
  lemma ChartColorsDistinct()
    ensures |ChartColors| == 9
    ensures forall i, j :: 0 <= i < j < |ChartColors| ==> ChartColors[i] != ChartColors[j]
  {
  }

  /** `chartColors[i % chartColors.length]`. */
  function PaletteColor(i: nat): (color: string)
    ensures color in ChartColors
    ensures color == ChartColors[i % |ChartColors|]
  {
    ChartColors[i % |ChartColors|]
  }

  /** The palette repeats every nine indexes, and nine consecutive indexes get nine different colours. */
  lemma PaletteCycles(i: nat, j: nat)
    ensures PaletteColor(i) == PaletteColor(i + 9)
    ensures i < j < i + 9 ==> PaletteColor(i) != PaletteColor(j)
  {
    ChartColorsDistinct();
    if i < j < i + 9 {
      assert i % 9 != j % 9;
    }
  }

  /** JavaScript truthiness of a property that may be absent: a string is truthy unless it is empty. */
  predicate Truthy(s: Option<string>) {
    s.Some? && s.value != ""
  }

  /**
   * `a || b` where `a` may be absent and `b` is a string: the result is one
   * of the two operands, and it is truthy exactly when either operand is.
   */
  function OrElse(a: Option<string>, b: string): (r: string)
    ensures a == Some(r) || r == b
    ensures r != "" <==> Truthy(a) || b != ""
  {
    if Truthy(a) then a.value else b
  }

  /** `s.fill || s.stroke || chartColors[i % chartColors.length]`. */
  function BarColor(fill: Option<string>, stroke: Option<string>, i: nat): string {
    OrElse(fill, OrElse(stroke, PaletteColor(i)))
  }

  /** A bar colour is the series' own fill, its own stroke, or a palette colour; and never empty. */
  lemma BarColorChoices(fill: Option<string>, stroke: Option<string>, i: nat)
    ensures var c := BarColor(fill, stroke, i);
      && (fill == Some(c) || stroke == Some(c) || c in ChartColors)
      && c != ""
  {
  }

  /** A JSON value in a data row. */
  datatype JsonValue = JNull | JBool(b: bool) | JNumber(n: real) | JString(s: string)

  /** A data row: an object of named values, passed through to the chart unchanged. */
  type Row = map<string, JsonValue>

  /** A `<Bar>` or `<Line>`: the series key, its legend name and its colour. */
  datatype Mark = Mark(dataKey: Option<string>, name: Option<string>, color: string)

  /** The chart inside a card. `xKey` is the x-axis key, absent when no `<XAxis>` is drawn. */
  datatype ChartBody =
    | BarChart(data: seq<Row>, xKey: Option<string>, bars: seq<Mark>)
    | LineChart(data: seq<Row>, xKey: Option<string>, lines: seq<Mark>)
    | PieChart(data: seq<Row>, valueKey: Option<string>, nameKey: Option<string>, cellColors: seq<string>)
    | ScatterChart(data: seq<Row>, xKey: Option<string>, yKey: Option<string>, name: Option<string>, color: string)

  /** A card: its title and the chart it holds, if any. */
  datatype ChartCard = ChartCard(title: string, body: Option<ChartBody>)

  /** `data.map((entry, i) => <Cell fill={chartColors[i % chartColors.length]} />)`. */
  function PieCellColors(data: seq<Row>): seq<string> {
    seq(|data|, i requires 0 <= i < |data| => PaletteColor(i))
  }

  /** Pie slices cycle through the palette: slices nine apart share a colour, nearer ones do not. */
  lemma PieCellsCycle(data: seq<Row>, i: nat, j: nat)
    requires i < j < |data|
    ensures j == i + 9 ==> PieCellColors(data)[i] == PieCellColors(data)[j]
    ensures j < i + 9 ==> PieCellColors(data)[i] != PieCellColors(data)[j]
  {
    PaletteCycles(i, j);
  }

  /** `res.data.charts || []`: an array is truthy even when empty, a missing list gives none. */
  function ChartsOrEmpty<T>(charts: Option<seq<T>>): seq<T> {
    match charts
    case Some(cs) => cs
    case None => []
  }
}
