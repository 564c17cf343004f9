/** The customize page: the user picks the x and y columns, a chart family
    and a colour, and presses Apply. The dataset and the column list arrive
    through navigation and never change. */
module Customize {
  import opened Seqs
  import opened Js
  import opened Charts
  import opened Histogram
  import opened Nav

  const DefaultColor := "#4CAF50"
  const MissingAxesMessage := "Please select both X and Y axes!"
  const SameAxesMessage := "X-axis and Y-axis cannot be the same!"
  const NoDataMessage := "No data available to return to visualization."

  // ---------------------------------------------------------------------
  // Column classification

  /** `data.every(item => !isNaN(parseFloat(item[column])))`, row by row. */
  function IsNumerical(data: Dataset, column: string): bool {
    if data == [] then true
    else Numeric(Get(data[0], column)) && IsNumerical(data[1..], column)
  }

  /** A column is numerical exactly when every row's cell parses as a
      number; with no rows this holds vacuously. */
  lemma {:induction false} IsNumericalIff(data: Dataset, column: string)
    ensures IsNumerical(data, column) <==>
              forall i :: 0 <= i < |data| ==> Numeric(Get(data[i], column))
  {
    if data != [] {
      IsNumericalIff(data[1..], column);
      assert forall i :: 1 <= i < |data| ==> data[1..][i - 1] == data[i];
    }
  }

  /** A column that some row lacks is categorical: `parseFloat(undefined)`
      is NaN. */
  lemma MissingColumnIsCategorical(data: Dataset, column: string, i: nat)
    requires i < |data| && column !in data[i]
    ensures !IsNumerical(data, column)
  {
    IsNumericalIff(data, column);
  }

  /** With no rows every column, even one no row has, is numerical. */
  lemma EmptyDataIsNumerical(column: string)
    ensures IsNumerical([], column)
  {
  }

  /** Before an axis is picked its selection is `null`; unless the file has
      a column named "null", a non-empty dataset then reads as categorical
      on that axis. */
  lemma UnpickedAxisIsCategorical(data: Dataset)
    requires |data| > 0 && "null" !in data[0]
    ensures !AxisNumerical(data, None)
  {
  }

  /** `!value` is false: a column has been picked. A column named "" would
      count as unpicked. */
  predicate Chosen(v: Option<string>) {
    v.Some? && v.value != ""
  }

  /** `isNumerical(selected)`; before anything is picked the selection is
      `null`, and `item[null]` reads the key "null". */
  function AxisNumerical(data: Dataset, v: Option<string>): bool {
    IsNumerical(data, SelectionKey(v))
  }

  // ---------------------------------------------------------------------
  // Series

  /** `data.map(item => item[column])`. */
  function Cells(data: Dataset, column: string): (r: seq<Option<string>>)
    ensures |r| == |data|
  {
    seq(|data|, i requires 0 <= i < |data| => Get(data[i], column))
  }

  /** The keys under which the reduction counts each row: the cell coerced to
      a property key. */
  function RowKeys(data: Dataset, column: string): (r: seq<string>)
    ensures |r| == |data|
  {
    seq(|data|, i requires 0 <= i < |data| => CellKey(Get(data[i], column)))
  }

  /** The identity sequence 0, 1, ..., n - 1. */
  function Indices(n: nat): (r: seq<nat>)
    ensures |r| == n
  {
    seq(n, i requires 0 <= i < n => i)
  }

  datatype Labels = RowIndices(indices: seq<nat>) | Categories(values: seq<Option<string>>)

  /** A chart series: one point per row, bar counts, or the bar entries that
      the `{}` accumulator as written holds (a height may be text). */
  datatype Series =
    | Points(points: seq<(Number, Number)>)
    | Counts(bars: seq<(string, nat)>)
    | Entries(entries: seq<(string, Slot)>)

  datatype ChartData = ChartData(
    labels: Labels,
    caption: string,   // the dataset's `label`
    series: Series,
    backgroundColor: string,
    borderColor: string,
    borderWidth: nat)

  /** The chart labels: row indices when x is numerical, else the distinct x
      cells (`[...new Set(...)]`). */
  function LabelsOf(data: Dataset, x: Option<string>): Labels {
    if AxisNumerical(data, x) then RowIndices(Indices(|data|))
    else Categories(Dedup(Cells(data, SelectionKey(x))))
  }

  /** The intended series: one (x, y) point per row when both axes are
      numerical, else the bar counts of the x column. */
  function SeriesOf(data: Dataset, x: Option<string>, y: Option<string>): Series {
    var xk, yk := SelectionKey(x), SelectionKey(y);
    if AxisNumerical(data, x) && AxisNumerical(data, y) then
      Points(seq(|data|, i requires 0 <= i < |data| =>
        (ParseFloat(Get(data[i], xk)), ParseFloat(Get(data[i], yk)))))
    else Counts(Bars(RowKeys(data, xk)))
  }

  /** The series as written: the same points, and the entries of the `{}`
      accumulator in place of the bar counts. */
  function SeriesAsWritten(data: Dataset, x: Option<string>, y: Option<string>): Series {
    if AxisNumerical(data, x) && AxisNumerical(data, y) then SeriesOf(data, x, y)
    else Entries(BarsAsWritten(RowKeys(data, SelectionKey(x))))
  }

  /** The `chartData` object, rebuilt from the current selection. */
  function ChartOf(data: Dataset, x: Option<string>, y: Option<string>, color: string): (c: ChartData)
    ensures c.backgroundColor == color && c.borderColor == color
  {
    ChartData(LabelsOf(data, x), SelectionKey(x) + " vs " + SelectionKey(y),
              SeriesAsWritten(data, x, y), color, color, 1)
  }

  /** The series as written is the intended one: the points always, and the
      bars entry by entry whenever no row key names a member of
      Object.prototype. */
  lemma SeriesAsWrittenAgrees(data: Dataset, x: Option<string>, y: Option<string>)
    ensures AxisNumerical(data, x) && AxisNumerical(data, y) ==>
              SeriesAsWritten(data, x, y) == SeriesOf(data, x, y)
    ensures var keys := RowKeys(data, SelectionKey(x));
      !(AxisNumerical(data, x) && AxisNumerical(data, y)) &&
      (forall i :: 0 <= i < |keys| ==> Ordinary(keys[i])) ==>
        var es, bars := SeriesAsWritten(data, x, y).entries, SeriesOf(data, x, y).bars;
        |es| == |bars| && forall i :: 0 <= i < |bars| ==> es[i] == (bars[i].0, Count(bars[i].1))
  {
    var keys := RowKeys(data, SelectionKey(x));
    if forall i :: 0 <= i < |keys| ==> Ordinary(keys[i]) {
      BarsAsWrittenAgrees(keys);
    }
  }

  /** When x is numerical the labels are the row indices, one per row. */
  lemma NumericalLabels(data: Dataset, x: Option<string>)
    requires AxisNumerical(data, x)
    ensures LabelsOf(data, x).RowIndices?
    ensures var ix := LabelsOf(data, x).indices;
      |ix| == |data| && forall i :: 0 <= i < |ix| ==> ix[i] == i
  {
  }

  /** Otherwise the labels are the distinct x cells (a missing cell being
      `undefined`), each once, in order of first occurrence. */
  lemma CategoricalLabels(data: Dataset, x: Option<string>)
    requires !AxisNumerical(data, x)
    ensures LabelsOf(data, x).Categories?
    ensures var vs, cells := LabelsOf(data, x).values, Cells(data, SelectionKey(x));
      Distinct(vs) &&
      (forall v :: v in cells ==> v in vs) &&
      (forall i :: 0 <= i < |vs| ==> vs[i] in cells) &&
      (forall i, j :: 0 <= i < j < |vs| ==> FirstIndex(cells, vs[i]) < FirstIndex(cells, vs[j]))
  {
    DedupSpec(Cells(data, SelectionKey(x)));
  }

  /** With both axes numerical there is exactly one point per row, in row
      order, and every coordinate is a number read from that row. */
  lemma PointsPerRow(data: Dataset, x: Option<string>, y: Option<string>)
    requires AxisNumerical(data, x) && AxisNumerical(data, y)
    ensures SeriesOf(data, x, y).Points?
    ensures var ps := SeriesOf(data, x, y).points;
      |ps| == |data| &&
      forall i :: 0 <= i < |ps| ==>
        ps[i] == (ParseFloat(Get(data[i], SelectionKey(x))), ParseFloat(Get(data[i], SelectionKey(y)))) &&
        ps[i].0.Float? && ps[i].1.Float?
  {
    IsNumericalIff(data, SelectionKey(x));
    IsNumericalIff(data, SelectionKey(y));
  }

  /** Otherwise the bars count the rows by their x cell: distinct keys, each
      count the number of rows with that key and at least 1, counts adding up
      to the number of rows. The y column plays no part. */
  lemma BarsPerCategory(data: Dataset, x: Option<string>, y: Option<string>)
    requires !(AxisNumerical(data, x) && AxisNumerical(data, y))
    ensures SeriesOf(data, x, y).Counts?
    ensures var bars, keys := SeriesOf(data, x, y).bars, RowKeys(data, SelectionKey(x));
      Distinct(BarKeys(bars)) &&
      (forall k :: k in BarKeys(bars) <==> k in keys) &&
      (forall i :: 0 <= i < |bars| ==> 1 <= bars[i].1 == multiset(keys)[bars[i].0]) &&
      Total(bars) == |data|
    ensures forall y' :: SeriesOf(data, x, y') == SeriesOf(data, x, y) ||
                         (AxisNumerical(data, x) && AxisNumerical(data, y'))
  {
    BarsKeys(RowKeys(data, SelectionKey(x)));
    BarsCounts(RowKeys(data, SelectionKey(x)));
    BarsTotal(RowKeys(data, SelectionKey(x)));
  }

  /** The reduction itself: one pass over the rows, bumping the count of
      each row's key and remembering the order in which keys were created. */
  method CountRows(data: Dataset, column: string) returns (acc: map<string, nat>, created: seq<string>)
    ensures acc == Tally(RowKeys(data, column))
    ensures created == Dedup(RowKeys(data, column))
  {
    ghost var keys := RowKeys(data, column);
    acc, created := map[], [];
    for i := 0 to |data|
      invariant acc == Tally(keys[..i])
      invariant created == Dedup(keys[..i])
    {
      var key := CellKey(Get(data[i], column));
      assert keys[..i + 1] == keys[..i] + [key] && keys[..i + 1][..i] == keys[..i];
      TallyDomain(keys[..i]);
      if key !in acc {
        created := created + [key];
      }
      acc := acc[key := if key in acc then acc[key] + 1 else 1];
    }
    assert keys[..|data|] == keys;
  }

  // ---------------------------------------------------------------------
  // What the page shows

  datatype View = Spinner | ScatterPlot | LinePlot | BarChart | Prompt

  /** `renderPlot`. */
  function Render(data: Dataset, x: Option<string>, y: Option<string>,
                  plotType: Option<Family>, loading: bool): View
  {
    if loading then Spinner
    else if AxisNumerical(data, x) && AxisNumerical(data, y) then
      if plotType == Some(Scatter) then ScatterPlot
      else if plotType == Some(Line) then LinePlot
      else Prompt
    else if AxisNumerical(data, x) || AxisNumerical(data, y) then BarChart
    else Prompt
  }

  datatype Button = Hidden | Disabled | Enabled

  datatype Menu = Menu(scatter: Button, line: Button, bar: Button, colorPicker: bool)

  function ButtonOf(shown: bool, disabled: bool): Button {
    if !shown then Hidden else if disabled then Disabled else Enabled
  }

  /** The plot-type buttons and the colour picker. */
  function MenuOf(data: Dataset, x: Option<string>, y: Option<string>, plotType: Option<Family>): Menu {
    var nx, ny := AxisNumerical(data, x), AxisNumerical(data, y);
    var picked := Chosen(x) && Chosen(y);
    Menu(ButtonOf(nx && ny, !picked || plotType == Some(Scatter)),
         ButtonOf(nx && ny, !picked || plotType == Some(Line)),
         ButtonOf(!nx || !ny, nx || ny || plotType == Some(Bar)),
         plotType.Some?)
  }

  /** The menu offers scatter and line exactly when both axes are numerical,
      and the bar button otherwise; it is clickable only when neither axis
      is numerical. */
  lemma MenuByColumnTypes(data: Dataset, x: Option<string>, y: Option<string>, plotType: Option<Family>)
    ensures var m, nx, ny := MenuOf(data, x, y, plotType), AxisNumerical(data, x), AxisNumerical(data, y);
      (m.scatter != Hidden <==> nx && ny) && (m.line != Hidden <==> nx && ny) &&
      (m.bar != Hidden <==> !(nx && ny)) &&
      (m.bar == Enabled <==> !nx && !ny && plotType != Some(Bar))
  {
  }

  /** A chart that is drawn always belongs to a family whose button is on
      screen. */
  lemma RenderedFamilyIsOffered(data: Dataset, x: Option<string>, y: Option<string>,
                                plotType: Option<Family>, loading: bool)
    ensures var v, m := Render(data, x, y, plotType, loading), MenuOf(data, x, y, plotType);
      (v == ScatterPlot ==> m.scatter != Hidden) &&
      (v == LinePlot ==> m.line != Hidden) &&
      (v == BarChart ==> m.bar != Hidden)
  {
  }

  /** Pressing an enabled scatter or line button draws that chart once the
      spinner is gone. */
  lemma EnabledButtonDraws(data: Dataset, x: Option<string>, y: Option<string>, plotType: Option<Family>)
    ensures MenuOf(data, x, y, plotType).scatter == Enabled ==>
              Render(data, x, y, Some(Scatter), false) == ScatterPlot
    ensures MenuOf(data, x, y, plotType).line == Enabled ==>
              Render(data, x, y, Some(Line), false) == LinePlot
  {
  }

  /** The bar button does not work as its label suggests: when it can be
      pressed, pressing it leaves the prompt in place; a bar chart is drawn
      only when exactly one axis is numerical, where the button is disabled
      and the chosen plot type plays no part. */
  lemma BarButtonNeverDraws(data: Dataset, x: Option<string>, y: Option<string>,
                            plotType: Option<Family>)
    ensures MenuOf(data, x, y, plotType).bar == Enabled ==>
              Render(data, x, y, Some(Bar), false) == Prompt
    ensures Render(data, x, y, plotType, false) == BarChart <==>
              AxisNumerical(data, x) != AxisNumerical(data, y)
    ensures Render(data, x, y, plotType, false) == BarChart ==>
              MenuOf(data, x, y, plotType).bar == Disabled
  {
  }

  /** What is drawn does not wait for Apply: the same numerical column on
      both axes is plotted as soon as a plot type is chosen, although Apply
      would reject that selection. */
  lemma SameAxesStillDrawn(data: Dataset, x: Option<string>)
    requires AxisNumerical(data, x)
    ensures Render(data, x, x, Some(Scatter), false) == ScatterPlot
    ensures Render(data, x, x, Some(Line), false) == LinePlot
  {
  }

  // ---------------------------------------------------------------------
  // Explanation

  datatype Explanation = NoExplanation | BothContinuous | ContinuousX | ContinuousY | BothCategorical

  /** `renderExplanation` as written: when x is categorical it always
      describes both axes as categorical. */
  function ExplanationAsWritten(data: Dataset, x: Option<string>, y: Option<string>): Explanation {
    if !Chosen(x) || !Chosen(y) then NoExplanation
    else if AxisNumerical(data, x) && AxisNumerical(data, y) then BothContinuous
    else if AxisNumerical(data, x) then ContinuousX
    else BothCategorical
  }

  /** A categorical x with a numerical y is described as "categorical data
      for both axes". */
  lemma ExplanationMislabelsNumericalY()
    ensures var data := [map["a" := "red", "b" := "1"]];
      AxisNumerical(data, Some("b")) && !AxisNumerical(data, Some("a")) &&
      ExplanationAsWritten(data, Some("a"), Some("b")) == BothCategorical
  {
    var data := [map["a" := "red", "b" := "1"]];
    assert Get(data[0], "b") == Some("1") && TrimStart("1") == "1";
    assert Get(data[0], "a") == Some("red") && TrimStart("red") == "red";
    assert data[1..] == [];
  }

  /** The explanation with the missing case added. */
  function ExplanationFor(data: Dataset, x: Option<string>, y: Option<string>): Explanation {
    if !Chosen(x) || !Chosen(y) then NoExplanation
    else if AxisNumerical(data, x) && AxisNumerical(data, y) then BothContinuous
    else if AxisNumerical(data, x) then ContinuousX
    else if AxisNumerical(data, y) then ContinuousY
    else BothCategorical
  }

  /** Once both axes are picked, the explanation describes each axis's type
      correctly and agrees with the menu: continuous for both exactly when
      scatter and line are offered. The version as written differs only where
      x is categorical and y numerical. */
  lemma ExplanationMatchesMenu(data: Dataset, x: Option<string>, y: Option<string>, plotType: Option<Family>)
    requires Chosen(x) && Chosen(y)
    ensures var e, nx, ny := ExplanationFor(data, x, y), AxisNumerical(data, x), AxisNumerical(data, y);
      (e == BothContinuous <==> MenuOf(data, x, y, plotType).scatter != Hidden) &&
      (e == ContinuousX <==> nx && !ny) && (e == ContinuousY <==> !nx && ny) &&
      (e == BothCategorical <==> !nx && !ny)
    ensures ExplanationAsWritten(data, x, y) != ExplanationFor(data, x, y) <==>
              !AxisNumerical(data, x) && AxisNumerical(data, y)
  {
  }

  // ---------------------------------------------------------------------
  // Navigation

  /** `const { data = [], columns = [] } = state || {}`. */
  function Received(state: Option<NavState>): (Dataset, seq<string>) {
    if state.None? then ([], [])
    else
      ((if state.value.data.Some? then state.value.data.value else []),
       (if state.value.columns.Some? then state.value.columns.value else []))
  }

  /** `handleBack`. */
  function BackFrom(data: Dataset, columns: seq<string>): Navigation {
    if |data| > 0 && |columns| > 0 then Navigate("/visualization", NavState(Some(data), Some(columns)))
    else Notify(NoDataMessage)
  }

  /** Going back forwards the dataset and columns the page received,
      unchanged, exactly when both are non-empty; otherwise it reports that
      there is no data. */
  lemma BackRoundTrip(state: Option<NavState>)
    ensures var (data, columns) := Received(state);
      (BackFrom(data, columns).Navigate? <==> |data| > 0 && |columns| > 0) &&
      (BackFrom(data, columns).Navigate? ==>
         BackFrom(data, columns).path == "/visualization" &&
         state.Some? && BackFrom(data, columns).state == state.value) &&
      (BackFrom(data, columns).Notify? ==> BackFrom(data, columns).message == NoDataMessage)
  {
  }

  // ---------------------------------------------------------------------
  // The page state

  datatype ApplyResult = Started | Rejected(message: string)

  class Session {
    const data: Dataset
    const columns: seq<string>
    var selectedX: Option<string>
    var selectedY: Option<string>
    var plotType: Option<Family>
    var loading: bool
    var plotColor: string

    constructor (state: Option<NavState>)
      ensures (data, columns) == Received(state)
      ensures selectedX == None && selectedY == None && plotType == None
      ensures !loading && plotColor == DefaultColor
    {
      var (d, c) := Received(state);
      data, columns := d, c;
      selectedX, selectedY, plotType := None, None, None;
      loading, plotColor := false, DefaultColor;
    }

    /** `handleXChange`: the plot type is kept. */
    method SelectX(v: string)
      modifies this`selectedX
      ensures selectedX == Some(v)
      ensures selectedY == old(selectedY) && plotType == old(plotType) && plotColor == old(plotColor)
    {
      selectedX := Some(v);
    }

    /** `handleYChange`: the plot type is kept. */
    method SelectY(v: string)
      modifies this`selectedY
      ensures selectedY == Some(v)
      ensures selectedX == old(selectedX) && plotType == old(plotType) && plotColor == old(plotColor)
    {
      selectedY := Some(v);
    }

    /** `handlePlotChange`. */
    method ChoosePlot(f: Family)
      modifies this`plotType
      ensures plotType == Some(f)
      ensures selectedX == old(selectedX) && selectedY == old(selectedY) && plotColor == old(plotColor)
    {
      plotType := Some(f);
    }

    /** The colour picker's `onChangeComplete`. */
    method ChooseColor(hex: string)
      modifies this`plotColor
      ensures plotColor == hex
      ensures selectedX == old(selectedX) && selectedY == old(selectedY) && plotType == old(plotType)
    {
      plotColor := hex;
    }

    /** `handleApply`: with an axis unpicked, or both the same, it reports an
      error and changes nothing; otherwise it starts the spinner. */
    method Apply() returns (r: ApplyResult)
      modifies this`loading
      ensures !Chosen(selectedX) || !Chosen(selectedY) ==>
                r == Rejected(MissingAxesMessage) && loading == old(loading)
      ensures Chosen(selectedX) && Chosen(selectedY) && selectedX == selectedY ==>
                r == Rejected(SameAxesMessage) && loading == old(loading)
      ensures Chosen(selectedX) && Chosen(selectedY) && selectedX != selectedY ==>
                r == Started && loading
    {
      if !Chosen(selectedX) || !Chosen(selectedY) {
        return Rejected(MissingAxesMessage);
      }
      if selectedX == selectedY {
        return Rejected(SameAxesMessage);
      }
      loading := true;
      r := Started;
    }

    /** The timer callback Apply schedules. */
    method LoadingElapsed()
      modifies this`loading
      ensures !loading
    {
      loading := false;
    }

    function Chart(): ChartData
      reads this
    {
      ChartOf(data, selectedX, selectedY, plotColor)
    }

    function Plot(): View
      reads this
    {
      Render(data, selectedX, selectedY, plotType, loading)
    }

    function Buttons(): Menu
      reads this
    {
      MenuOf(data, selectedX, selectedY, plotType)
    }

    function Explain(): Explanation
      reads this
    {
      ExplanationAsWritten(data, selectedX, selectedY)
    }

    function Back(): Navigation
      reads this
    {
      BackFrom(data, columns)
    }
  }
}
