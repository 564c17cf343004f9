/** The default view: on entry it picks a chart family from the number of
    rows, shuffles the column list in place, takes its first two columns as
    the features and plots their parsed values. */
module Visualization {
  import opened Seqs
  import opened Js
  import opened Charts
  import opened Nav

  const NoDataText := "No data available. Please upload a CSV file on the home page."
  const FillColor := "rgba(75, 192, 192, 0.6)"
  const LineColor := "rgba(75, 192, 192, 1)"

  // ---------------------------------------------------------------------
  // Chart family from the size of the dataset

  function SizeFamily(rows: nat): Family {
    if rows < 50 then Scatter
    else if 50 <= rows <= 500 then Line
    else Bar
  }

  /** Families ordered from the least to the most aggregated. */
  function Rank(f: Family): nat {
    match f
    case Scatter => 0
    case Line => 1
    case Bar => 2
  }

  /** The thresholds partition the row counts into three consecutive
      ranges: below 50, 50 to 500 inclusive, above 500. */
  lemma SizeFamilyPartition(rows: nat)
    ensures SizeFamily(rows) == Scatter <==> rows < 50
    ensures SizeFamily(rows) == Line <==> 50 <= rows <= 500
    ensures SizeFamily(rows) == Bar <==> 500 < rows
  {
  }

  lemma SizeFamilyBoundaries()
    ensures SizeFamily(0) == Scatter && SizeFamily(49) == Scatter
    ensures SizeFamily(50) == Line && SizeFamily(500) == Line
    ensures SizeFamily(501) == Bar
  {
  }

  /** More rows never give a less aggregated chart. */
  lemma SizeFamilyMonotone(m: nat, n: nat)
    requires m <= n
    ensures Rank(SizeFamily(m)) <= Rank(SizeFamily(n))
  {
  }

  // ---------------------------------------------------------------------
  // Random pick of two features

  /** `columns.sort(() => 0.5 - Math.random())`: the comparator answers at
      random, so the array ends up in some order of the same elements. The
      model lets each swap choose freely. */
  method Shuffle(a: array<string>)
    modifies a
    ensures multiset(a[..]) == multiset(old(a[..]))
  {
    var i := a.Length;
    while i > 1
      invariant 0 <= i <= a.Length
      invariant multiset(a[..]) == multiset(old(a[..]))
    {
      var j :| 0 <= j < i;
      a[i - 1], a[j] := a[j], a[i - 1];
      i := i - 1;
    }
  }

  /** `.slice(0, 2)`. */
  function FirstTwo(s: seq<string>): (r: seq<string>)
    ensures |r| == if |s| < 2 then |s| else 2
    ensures r <= s
  {
    if |s| < 2 then s else s[..2]
  }

  /** The picked features come from the column list; when the columns are
      distinct so are the features, and there are two of them whenever
      there are at least two columns. */
  lemma PickedFeatures(before: seq<string>, after: seq<string>)
    requires multiset(after) == multiset(before)
    ensures forall f :: f in FirstTwo(after) ==> f in before
    ensures |FirstTwo(after)| == if |before| < 2 then |before| else 2
    ensures Distinct(before) ==> Distinct(FirstTwo(after))
  {
    assert |after| == |multiset(after)| == |before|;
    forall f | f in FirstTwo(after) ensures f in before {
      assert f in after && f in multiset(after);
    }
    if Distinct(before) {
      PermutationKeepsDistinct(after, before);
    }
  }

  // ---------------------------------------------------------------------
  // Plot data

  /** The key `row[randomFeatures[i]]` reads: past the end of the picks the
      feature is `undefined`, read as the key "undefined". */
  function FeatureKey(features: seq<string>, i: nat): string {
    if i < |features| then features[i] else "undefined"
  }

  /** `data.map(row => parseFloat(row[key]))`. */
  function ColumnValues(data: Dataset, key: string): seq<Number> {
    if data == [] then [] else [ParseFloat(Get(data[0], key))] + ColumnValues(data[1..], key)
  }

  lemma {:induction false} ColumnValuesAt(data: Dataset, key: string)
    ensures |ColumnValues(data, key)| == |data|
    ensures forall i :: 0 <= i < |data| ==> ColumnValues(data, key)[i] == ParseFloat(Get(data[i], key))
  {
    if data != [] {
      ColumnValuesAt(data[1..], key);
      assert forall i :: 1 <= i < |data| ==> data[1..][i - 1] == data[i];
    }
  }

  /** `xs.map((x, index) => ({ x, y: ys[index] }))` for equally long lists. */
  function Zip(xs: seq<Number>, ys: seq<Number>): seq<(Number, Number)>
    requires |xs| == |ys|
  {
    if xs == [] then [] else [(xs[0], ys[0])] + Zip(xs[1..], ys[1..])
  }

  lemma {:induction false} ZipAt(xs: seq<Number>, ys: seq<Number>)
    requires |xs| == |ys|
    ensures |Zip(xs, ys)| == |xs|
    ensures forall i :: 0 <= i < |xs| ==> Zip(xs, ys)[i] == (xs[i], ys[i])
  {
    if xs != [] {
      ZipAt(xs[1..], ys[1..]);
      assert forall i :: 1 <= i < |xs| ==> xs[1..][i - 1] == xs[i] && ys[1..][i - 1] == ys[i];
    }
  }

  datatype PlotSeries = PointSeries(points: seq<(Number, Number)>) | ValueSeries(values: seq<Number>)

  datatype PlotData = PlotData(
    labels: seq<Number>,
    caption: string,   // the dataset's `label`
    series: PlotSeries,
    backgroundColor: string,
    borderColor: string,
    borderWidth: nat)

  /** The object passed to `setPlotData`, for the plot type the effect's
      closure holds. */
  function BuildPlot(data: Dataset, features: seq<string>, family: Family): PlotData {
    var xData := ColumnValues(data, FeatureKey(features, 0));
    var yData := ColumnValues(data, FeatureKey(features, 1));
    SameLengthColumns(data, features);
    PlotData(xData, "Visualization: " + Name(family),
             if family == Scatter then PointSeries(Zip(xData, yData)) else ValueSeries(yData),
             FillColor, LineColor, 1)
  }

  lemma SameLengthColumns(data: Dataset, features: seq<string>)
    ensures |ColumnValues(data, FeatureKey(features, 0))| == |ColumnValues(data, FeatureKey(features, 1))|
  {
    ColumnValuesAt(data, FeatureKey(features, 0));
    ColumnValuesAt(data, FeatureKey(features, 1));
  }

  /** The labels are the parsed first feature, one per row in row order; a
      scatter plot pairs them with the parsed second feature row by row, any
      other family plots the second feature alone. */
  lemma BuildPlotSpec(data: Dataset, features: seq<string>, family: Family)
    ensures var p := BuildPlot(data, features, family);
      |p.labels| == |data| &&
      (forall i :: 0 <= i < |data| ==> p.labels[i] == ParseFloat(Get(data[i], FeatureKey(features, 0)))) &&
      (family == Scatter <==> p.series.PointSeries?) &&
      (p.series.PointSeries? ==>
         |p.series.points| == |data| &&
         forall i :: 0 <= i < |data| ==>
           p.series.points[i] == (p.labels[i], ParseFloat(Get(data[i], FeatureKey(features, 1))))) &&
      (p.series.ValueSeries? ==>
         |p.series.values| == |data| &&
         forall i :: 0 <= i < |data| ==>
           p.series.values[i] == ParseFloat(Get(data[i], FeatureKey(features, 1))))
  {
    var xData := ColumnValues(data, FeatureKey(features, 0));
    var yData := ColumnValues(data, FeatureKey(features, 1));
    ColumnValuesAt(data, FeatureKey(features, 0));
    ColumnValuesAt(data, FeatureKey(features, 1));
    ZipAt(xData, yData);
  }

  // ---------------------------------------------------------------------
  // The page

  datatype Screen =
    | NoData(message: string)
    | Shown(family: Family, features: seq<string>, plot: Option<PlotData>)

  class Page {
    const data: Option<Dataset>
    const columns: array?<string>   // null: the state had no columns
    var plotType: Family
    var plotData: Option<PlotData>
    var selectedFeatures: seq<string>

    /** The state as first rendered; `columns` is the navigation state's own
        array, not a copy. */
    constructor (data: Option<Dataset>, columns: array?<string>)
      ensures this.data == data && this.columns == columns
      ensures plotType == Scatter && plotData == None && selectedFeatures == []
    {
      this.data, this.columns := data, columns;
      plotType, plotData, selectedFeatures := Scatter, None, [];
    }

    predicate HasData()
      reads this
    {
      data.Some? && columns != null
    }

    /** One run of the effect. It sets the size-based plot type, but builds
        the plot from the plot type its closure captured, which is the one
        before the run. */
    method Effect()
      modifies this, columns
      ensures !HasData() ==>
                plotType == old(plotType) && plotData == old(plotData) &&
                selectedFeatures == old(selectedFeatures)
      ensures columns != null && !HasData() ==> columns[..] == old(columns[..])
      ensures HasData() ==>
                plotType == SizeFamily(|data.value|) &&
                multiset(columns[..]) == multiset(old(columns[..])) &&
                selectedFeatures == FirstTwo(columns[..]) &&
                plotData == Some(BuildPlot(data.value, selectedFeatures, old(plotType)))
    {
      if data.Some? && columns != null {
        var captured := plotType;
        plotType := SizeFamily(|data.value|);
        Shuffle(columns);
        selectedFeatures := FirstTwo(columns[..]);
        plotData := Some(BuildPlot(data.value, selectedFeatures, captured));
      }
    }

    /** Entering the page: the effect runs after the first render and again
        when the plot type it set differs from the one it saw, since the plot
        type is one of its dependencies. Afterwards the plot matches the
        size-based family. */
    method Mount()
      modifies this, columns
      ensures !HasData() ==>
                plotType == old(plotType) && plotData == old(plotData) &&
                selectedFeatures == old(selectedFeatures)
      ensures columns != null && !HasData() ==> columns[..] == old(columns[..])
      ensures HasData() ==>
                plotType == SizeFamily(|data.value|) &&
                multiset(columns[..]) == multiset(old(columns[..])) &&
                selectedFeatures == FirstTwo(columns[..]) &&
                plotData == Some(BuildPlot(data.value, selectedFeatures, plotType))
    {
      var seen := plotType;
      Effect();
      if plotType != seen {
        Effect();
      }
    }

    /** What the page shows. */
    function View(): (r: Screen)
      reads this
      ensures r.NoData? <==> data.None? || columns == null
      ensures r.NoData? ==> r.message == NoDataText
      ensures r.Shown? ==> r.family == plotType && r.plot == plotData
    {
      if !HasData() then NoData(NoDataText) else Shown(plotType, selectedFeatures, plotData)
    }

    /** `handleCustomize`: the data and the columns, in their current
        (shuffled) order, go to the customize page as they are. */
    function ToCustomize(): (r: Navigation)
      reads this, columns
      ensures r.Navigate? && r.path == "/customize" && r.state.data == data
      ensures r.state.columns == if columns == null then None else Some(columns[..])
    {
      Navigate("/customize", NavState(data, if columns == null then None else Some(columns[..])))
    }
  }
}
