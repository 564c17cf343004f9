# Chart configuration of a CSV visualization dashboard

This project models, in Dafny, the two pages of a browser dashboard that
turn an uploaded CSV file into a chart.

- The **default view** (`src/pages/Visualization.js`) picks a chart family
  from the number of rows: scatter below 50, line from 50 to 500, bar above
  500. It shuffles the column list in place, takes its first two columns as
  the x and y features, and plots their parsed values.
- The **customize view** (`src/pages/Customized.js`) lets the user pick the
  x and y columns, a chart family and a colour.
  - A column is *numerical* when every row's cell parses as a number.
  - If both axes are numerical, the series is one (x, y) point per row.
  - Otherwise the series is a frequency count of the x column's values.
  - Which plot-type buttons are on screen and enabled, which chart (if any)
    is drawn, and what the explanation says all follow from the two axes'
    classification.

The dataset is a sequence of rows, and each row is a map from column name
to cell text. The column list is a sequence of names. Both arrive through
navigation and are never changed, except that the default view reorders
the column *array*, which is shared by reference.

Modules:

- `Js` (js.dfy): the JavaScript behaviour the pages rely on.
  - `undefined` cells.
  - Property-key coercion: `row[null]` reads the key "null", and an
    `undefined` cell counts under the key "undefined".
  - `parseFloat`: skip leading white space, read an optional sign, then
    read the longest decimal literal or "Infinity". `Numeric` is
    `!isNaN(parseFloat(v))`.
  - The key order of `Object.entries`.
- `Seqs` (seqs.dfy): duplicate-freedom, first-occurrence de-duplication
  (the order of a `Set`), and permutations.
- `Histogram` (histogram.dfy): the `reduce` that counts rows per key, and
  the `(key, count)` bars built from it.
- `Charts`, `Nav`: the chart families and the navigation payload.
- `Customize` (customize.dfy): the classifier, the series builder, the
  render, button and explanation decisions, and `Session`. `Session` is a
  class whose fields are the page's state (`selectedX`, `selectedY`,
  `plotType`, `loading`, `plotColor`), and its methods are the event
  handlers.
- `Visualization` (visualization.dfy): the size thresholds, the in-place
  shuffle and pick on an `array`, the plot data, and `Page`, a class
  holding the page's state.
  - `Page.Effect` is one run of the `useEffect` body.
  - `Page.Mount` is the page entry. The effect runs once. The plot type is
    one of its dependencies, so it runs again only when it changed the plot
    type: when the size family is not scatter (50 rows or more), since the
    page starts on scatter.

Where the system's design and its code disagree, the model
follows the code:

- With no rows, `data.every` is vacuously true, so every column is
  numerical. The design calls an empty dataset categorical.
- Changing an axis keeps the chosen plot type. The design requires it to be
  reset.
- The bars always count by the x column, even when x is the numerical one
  and y the categorical one. The design groups by the categorical column.
- In the all-categorical case, the Bar button is enabled but pressing it
  draws nothing (`Customize.BarButtonNeverDraws`). A bar chart appears only
  when exactly one axis is numerical, and there the button is disabled.
- Apply does not gate the chart. The chart is recomputed from the live
  selection on every render, so even x == y is drawn
  (`Customize.SameAxesStillDrawn`). Apply only validates the selection and
  turns on the spinner. There is no separate "applied" state.
- A column name that is not in the data is not an error. Its cells are
  `undefined`, so the column is categorical and its rows count under
  "undefined".
- The default view's effect builds the plot from the plot type its closure
  captured, which is the value from before the run. With 50 rows or more
  that value is the initial scatter, and the rerun caused by the dependency
  on the plot type corrects the plot and shuffles the columns a second time.
  With fewer than 50 rows the captured scatter is already right, the effect
  runs once and the columns are shuffled once (`Visualization.Page.Effect`,
  `Visualization.Page.Mount`).

## Model

| member | source | states |
|---|---|---|
| Js.NumericIff | src/pages/Customized.js:23 | a missing cell never parses; a present cell parses as a number iff, after leading white space and an optional sign, some non-empty prefix of the rest is a StrUnsignedDecimalLiteral (the grammar of section 7.1.4.1 of ECMA-262), and then the number read is the sign followed by the longest such prefix |
| Js.DecimalPrefixIsLiteral | src/pages/Customized.js:23 | the prefix `parseFloat` reads is a StrUnsignedDecimalLiteral |
| Js.DecimalPrefixLongest | src/pages/Customized.js:23 | no longer prefix of the text is a StrUnsignedDecimalLiteral |
| Js.ParseFloatIgnoresSuffix | src/pages/Customized.js:23 | "3kg" parses as the number 3 (only a prefix is read) |
| Js.ParseFloatIncompleteExponent | src/pages/Customized.js:23 | "1e" parses as 1: an exponent marker without digits is not read |
| Js.ParseFloatRejectsWord | src/pages/Customized.js:23 | "abc" gives NaN |
| Js.ParseFloatRejectsEmpty | src/pages/Customized.js:23 | the empty cell and a missing cell give NaN |
| Js.OwnKeysSpec | src/pages/Customized.js:55-64 | `Object.entries` lists each key exactly once: the array-index keys first in ascending order, then the other keys in creation order |
| Seqs.DedupSpec | src/pages/Customized.js:46 | `[...new Set(s)]` holds each element of `s` exactly once, in first-occurrence order |
| Histogram.TallyCounts | src/pages/Customized.js:56-60 | after the reduction, the accumulator holds exactly the keys that occur, each mapped to its number of occurrences |
| Histogram.BarsKeys | src/pages/Customized.js:55-64 | there is one bar per key that occurs, keys pairwise distinct, listed in `Object.entries` order |
| Histogram.BarsCounts | src/pages/Customized.js:55-64 | each bar's count equals the number of rows with that key and is at least 1 |
| Histogram.BarsTotal | src/pages/Customized.js:55-64 | the counts sum to the number of rows |
| Histogram.TallyAsWrittenAgrees | src/pages/Customized.js:56-60 | with the `{}` accumulator as written, the tally is correct whenever no key names a member of Object.prototype |
| Histogram.CreatedAsWrittenIsDedup | src/pages/Customized.js:56-60 | without "__proto__" keys, the accumulator as written creates its keys in first-occurrence order |
| Histogram.BarsAsWrittenAgrees | src/pages/Customized.js:55-64 | with the `{}` accumulator as written, the bars equal the intended ones entry by entry whenever no key names a member of Object.prototype |
| Histogram.PrototypeKeysBreakCounts | src/pages/Customized.js:55-64 | with the `{}` accumulator as written, a "toString" row gets a bar whose height is text and a "__proto__" row yields no bar at all, where the intended tally counts each once |
| Customize.IsNumericalIff | src/pages/Customized.js:22-24 | a column is numerical iff every row's cell parses as a number |
| Customize.EmptyDataIsNumerical | src/pages/Customized.js:23 | with no rows, every column is numerical |
| Customize.MissingColumnIsCategorical | src/pages/Customized.js:23 | a column that some row lacks is not numerical |
| Customize.UnpickedAxisIsCategorical | src/pages/Customized.js:15-24 | an unpicked (`null`) axis is not numerical on a non-empty dataset that has no "null" column |
| Customize.NumericalLabels | src/pages/Customized.js:44-45 | when x is numerical, the labels are the row indices 0..n-1 |
| Customize.CategoricalLabels | src/pages/Customized.js:44-46 | otherwise, the labels are the distinct x cells, with no duplicates, all cells covered, in first-occurrence order |
| Customize.PointsPerRow | src/pages/Customized.js:50-54 | when both axes are numerical: one point per row, in row order, equal to (parseFloat of x cell, parseFloat of y cell), neither coordinate NaN |
| Customize.BarsPerCategory | src/pages/Customized.js:55-64 | otherwise: counts keyed by the x cell, keys distinct and exactly those that occur, each count equal to the rows with that key and at least 1, counts summing to the number of rows, and the y column has no influence |
| Customize.ChartOf | src/pages/Customized.js:43-70 | the chart's background and border colours are both the chosen colour |
| Customize.SeriesAsWrittenAgrees | src/pages/Customized.js:43-64 | the chart's series as written has the intended points when both axes are numerical, and otherwise the intended bars entry by entry whenever no x cell names a member of Object.prototype |
| Customize.CountRows | src/pages/Customized.js:56-60 | the loop over the rows builds exactly the tally, and the key creation order is the first-occurrence order |
| Customize.MenuByColumnTypes | src/pages/Customized.js:217-248 | the scatter and line buttons are shown iff both axes are numerical; otherwise the bar button is shown; the bar button is enabled iff neither axis is numerical and bar is not already chosen |
| Customize.RenderedFamilyIsOffered | src/pages/Customized.js:113-171 | a drawn chart's family always has its button on screen |
| Customize.EnabledButtonDraws | src/pages/Customized.js:113-157 | choosing an enabled scatter or line button draws that chart once the spinner is off |
| Customize.BarButtonNeverDraws | src/pages/Customized.js:158-170 | an enabled bar button never draws a bar chart; a bar chart is drawn iff exactly one axis is numerical, and there the bar button is disabled |
| Customize.SameAxesStillDrawn | src/pages/Customized.js:113-157 | the same numerical column on both axes is still drawn as scatter or line |
| Customize.ExplanationMislabelsNumericalY | src/pages/Customized.js:88-110 | with a categorical x and a numerical y, the explanation as written says both axes are categorical |
| Customize.ExplanationMatchesMenu | src/pages/Customized.js:72-111 | the corrected explanation names each axis's type correctly, and says "both continuous" iff scatter/line are offered; it differs from the one as written only when x is categorical and y numerical |
| Customize.BackRoundTrip | src/pages/Customized.js:173-179 | going back navigates to the default view with the received data and columns unchanged iff both are non-empty; otherwise it reports "no data" |
| Customize.Session.constructor | src/pages/Customized.js:14-19 | missing navigation fields default to empty; nothing is selected, the spinner is off, and the colour is #4CAF50 |
| Customize.Session.SelectX | src/pages/Customized.js:26 | sets only the x axis; the plot type and colour are kept |
| Customize.Session.SelectY | src/pages/Customized.js:27 | sets only the y axis; the plot type and colour are kept |
| Customize.Session.ChoosePlot | src/pages/Customized.js:28 | sets only the plot type |
| Customize.Session.ChooseColor | src/pages/Customized.js:257 | sets only the colour |
| Customize.Session.Apply | src/pages/Customized.js:30-41 | an unpicked axis or equal axes give the matching error and leave the state unchanged; otherwise the spinner is turned on |
| Customize.Session.LoadingElapsed | src/pages/Customized.js:40 | the timer callback turns the spinner off |
| Visualization.SizeFamilyPartition | src/pages/Visualization.js:17-24 | scatter iff fewer than 50 rows, line iff 50 to 500 rows, bar iff more than 500 rows |
| Visualization.SizeFamilyBoundaries | src/pages/Visualization.js:17-24 | 0 and 49 rows give scatter, 50 and 500 give line, 501 gives bar |
| Visualization.SizeFamilyMonotone | src/pages/Visualization.js:17-24 | more rows never give a less aggregated family |
| Visualization.Shuffle | src/pages/Visualization.js:27 | the random sort leaves the array a permutation of its former contents |
| Visualization.FirstTwo | src/pages/Visualization.js:27 | `slice(0, 2)` is a prefix of length min(2, n) |
| Visualization.PickedFeatures | src/pages/Visualization.js:27-28 | the picked features are min(2, n) members of the column list, distinct when the columns are |
| Visualization.ColumnValuesAt | src/pages/Visualization.js:30-31 | `xData`/`yData` have one entry per row, in row order: parseFloat of that row's feature cell |
| Visualization.ZipAt | src/pages/Visualization.js:39 | the scatter points pair `xData[i]` with `yData[i]` |
| Visualization.BuildPlotSpec | src/pages/Visualization.js:30-46 | labels are `xData`; the scatter series is the row-wise zip of x and y, of length n; every other family plots `yData` |
| Visualization.Page.constructor | src/pages/Visualization.js:10-13 | the page starts with plot type scatter, no plot data and no features, and holds the navigation state's own column array |
| Visualization.Page.Effect | src/pages/Visualization.js:15-48 | without data or columns nothing changes; otherwise the plot type becomes the size family, the columns are permuted in place, the features are their first two, and the plot is built with the plot type from before the run |
| Visualization.Page.Mount | src/pages/Visualization.js:15-48 | without data or columns nothing changes, the column array included; otherwise, after entry, the plot type is the size family, the columns are a permutation of the old ones, the features are their first two, and the plot is built with the size family |
| Visualization.Page.View | src/pages/Visualization.js:57-59 | the no-data message is shown iff data or columns are missing |
| Visualization.Page.ToCustomize | src/pages/Visualization.js:50-55 | the data and the columns, in their current shuffled order, are forwarded unchanged to /customize |

## Findings

| source | as written | input that shows it | evidently intended | confidence | as-written member | corrected member |
|---|---|---|---|---|---|---|
| src/pages/Customized.js:56-60 | the counts accumulate in a plain `{}`, which inherits Object.prototype | a categorical x column with a cell "toString" (or "constructor", "valueOf", ...) or "__proto__" | each row counted once under its own key | not executed; high | Histogram.PrototypeKeysBreakCounts | Histogram.BarsCounts |
| src/pages/Customized.js:88-110 | `renderExplanation` checks only whether x is numerical before falling back to "categorical data for both axes" | x a text column, y a numeric column | an explanation that describes a categorical x with a numerical y | not executed; medium | Customize.ExplanationMislabelsNumericalY | Customize.ExplanationMatchesMenu |

The page itself is modelled as written: `Customize.Session.Chart` builds
its series with `Customize.SeriesAsWritten`, whose bars are the entries of
the `{}` accumulator (`Histogram.BarsAsWritten`), and
`Customize.Session.Explain` is `Customize.ExplanationAsWritten`. The
corrected forms (`Customize.SeriesOf` counting with `Histogram.Tally`, and
`Customize.ExplanationFor`) are the reference that the lemmas above compare
them with. `Customize.CountRows` is the reduction loop on a dictionary with
no inherited keys, that is, the corrected tally.

## Left out

- Drawing the charts (react-chartjs-2 and its zoom and pan plugin), the antd
  widgets and the ChromePicker colour widget are foreign UI libraries. Only
  the choice of what to draw and which buttons are enabled is modelled.
- The explanation text and the other JSX markup are left out. Only the
  choice between the explanation cases is modelled.
- The conversion of a decimal literal to a binary double is floating point
  and is left out. `Js.Float(literal)` stands for "the double `parseFloat`
  reads from `literal`", so two literals for the same double are distinct
  values in the model.
- `Math.random` in the sort comparator is left out. The shuffle chooses each
  swap nondeterministically, so the model covers every order and claims
  only that the result is a permutation. How often a particular order
  occurs with a real sort is not captured.
- The 1000 ms `setTimeout` delay is a timer. Its callback is the separate
  event `Customize.Session.LoadingElapsed`.
- The message notifications (`message.error`) and `history.push` are UI and
  router calls. They are returned as values (`ApplyResult`, `Navigation`).
- React's scheduling is not modelled beyond the rerun that the plot-type
  dependency triggers in `Visualization.Page.Mount`.
- Visualization.Page.View: it does not model the heading text
  (`plotType.charAt(0).toUpperCase() + ...`). It models the family it
  names.
- src/pages/Home.js is not part of this model: file reading and CSV parsing
  are I/O and a foreign parser. Rows are taken as already parsed into
  string maps.
- src/pages/Learning.js and src/App.js are not part of this model: they are
  a network search client and the route table.
