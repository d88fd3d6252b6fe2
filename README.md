# Portfolio graph: hover snapping and chart helpers, in Dafny

This project models the logic of a price comparison chart. The chart draws
several date/price series on shared axes. When the pointer moves, it snaps
every series to its nearest point and shows one tooltip row and one circle per
series. The model covers:

- four modules:
  - `Chart`: points, series, the accessors, the tick counts for a height or
    width, the `newLine` price shift, the merge of all closes, and `Math.max`
    over them.
  - `Bisect`: d3's left bisection by date (`bisector(xSelector).left`), with a
    linear reference definition of the insertion point.
  - `Snap`: choosing between the two neighbours of the insertion point.
  - `GraphComponent`: the component class with its state (`data`, `lines`,
    `circlePositions`), the merge of all closes for the y axis, the y domain,
    and the hover handler.
- Dates are integer millisecond timestamps. Prices are exact reals. Pixel
  sizes are integers.
- The cursor date `x0` is an input: it is what `xScale.invert` returns.
- `xScale` and `yScale` are arbitrary function parameters.
- `setState({ circlePositions })` becomes an update of the `circlePositions`
  field. The `showTooltip` payload is returned as a value.

A tie keeps the earlier point `d0`, because the comparison at src/Graph.js:147
is a strict `>`. `Snap.NearestTieKeepsEarlier` proves it.

## Model

| member | source | states |
|---|---|---|
| `Chart.NumTicksForHeight` | src/Graph.js:33-37 | The result is one of 3, 5 or 10. It is 3 exactly when height ≤ 300, 5 exactly when 300 < height ≤ 600, and 10 exactly when height > 600. |
| `Chart.NumTicksForHeightMonotone` | src/Graph.js:33-37 | A larger height never gives fewer ticks. |
| `Chart.NumTicksForWidth` | src/Graph.js:39-43 | The result is one of 2, 5 or 10. It is 2 exactly when width ≤ 300, 5 exactly when 300 < width ≤ 400, and 10 exactly when width > 400. |
| `Chart.NumTicksForWidthMonotone` | src/Graph.js:39-43 | A larger width never gives fewer ticks. |
| `Chart.NewLine` | src/Graph.js:105-110 | The result has the same length and the same dates. Every close is exactly 100 higher. |
| `Chart.NewLineSorted` | src/Graph.js:105-110 | A series sorted by date stays sorted after the shift, so the derived series can be bisected. |
| `Chart.NewLineMax` | src/Graph.js:105-110 | The shift raises the largest close by exactly 100. |
| `Chart.Closes` | src/Graph.js:115 | The closes of a series in point order, one per point. |
| `Chart.AllClosesLength` | src/Graph.js:112-120 | The merged closes are as many as the points of all series together. |
| `Chart.AllClosesAt` | src/Graph.js:112-120 | Close j of series k sits at position (points of series 0..k-1) + j of the merge. The merge is series order, then point order. |
| `Chart.MathMax` | src/Graph.js:189 | `Math.max` over a list. It is -Infinity exactly for the empty list. Otherwise it is an element of the list and no element is larger. |
| `Chart.MathMaxAppend` | src/Graph.js:189 | The maximum of a concatenation is the larger of the two maxima. |
| `Bisect.InsertionIndex` | src/Graph.js:141 | Reference insertion point: the first index at or after `lo` whose date is not before `x`. Every index in [lo, i) has an earlier date. |
| `Bisect.InsertionIndexUnique` | src/Graph.js:141 | Only one index splits [lo, n) into earlier dates followed by dates not before `x`. |
| `Bisect.BisectDate` | src/Graph.js:29 | d3's left bisection loop, run from `lo` with `hi` = n (the call at src/Graph.js:141 passes `lo` = 1). For lo ≤ n the result is in [lo, n] (both ends included). For lo > n it is lo. For any input, the point before the result (if past lo) is earlier than `x`, and the point at the result (if any) is not earlier. On sorted input, all of [lo, i) is earlier, all of [i, n) is not, and the result equals `InsertionIndex`. |
| `Snap.NearestIndex` | src/Graph.js:141-148 | The source's choice on a date-sorted series, where d3's bisection stops at the reference insertion point `index`. The chosen index is `index-1` or `index`. When `index` = n there is no second neighbour and n-1 is chosen. |
| `Snap.Nearest` | src/Graph.js:143-149 | The point the source snaps to on a date-sorted series. It is always an element of the series. |
| `Snap.NearestLaterOnlyIfStrictlyCloser` | src/Graph.js:147 | For any input of `NearestIndex` (which uses the reference insertion point, not the bisection), `d1` is chosen only if strictly closer to `x0` than `d0`. On sorted input, `d1` is chosen exactly when it is strictly closer. |
| `Snap.NearestTieKeepsEarlier` | src/Graph.js:147 | When both neighbours are equally far from `x0`, `d0` is chosen. |
| `Snap.NearestIsOptimal` | src/Graph.js:141-148 | On a date-sorted series, no point is strictly closer to `x0` than the snapped one. |
| `Snap.NearestWithinHalfSpacing` | src/Graph.js:141-148 | On a sorted series, if `x0` lies between samples k-1 and k, the snapped date is within half their spacing of `x0`. |
| `Snap.NearestClampsAtStart` | src/Graph.js:141-148 | On a sorted series, a cursor date at or before the first date gives insertion index 1 and snaps to the first point. |
| `Snap.NearestClampsAtEnd` | src/Graph.js:141-148 | On a sorted series, a cursor date after the last date gives insertion index n and snaps to the last point. A cursor date equal to the last date snaps to a point with that date. |
| `GraphComponent.InitialLines` | src/Graph.js:54-76 | The constructor's three series: the fixture first, then `newLine` applied once, then twice. |
| `GraphComponent.InitialYDomainTop` | src/Graph.js:187-191 | For the initial series, the top of the y domain is the fixture's largest close plus 200. |
| `GraphComponent.Graph.constructor` | src/Graph.js:51-77 | The state holds the fixture, the three initial series and three null circle positions. The object invariant holds: series present, non-empty, date-sorted, one circle each. |
| `GraphComponent.Graph.MergeAxisYData` | src/Graph.js:112-120 | The `forEach`/`concat` loop returns the concatenation of every series' closes in series order. Its length is the total number of points. |
| `GraphComponent.Graph.YDomain` | src/Graph.js:187-191 | The y domain runs from 0 to the `Math.max` of the merged closes. That top is one of the closes, and no close of any series is above it. |
| `GraphComponent.Graph.HandleTooltip` | src/Graph.js:131-161 | The loop over `lines` runs the bisection and the neighbour choice per series. It returns exactly one point per series, in series order, each being `Nearest` of that series and an element of it. It sets one circle y position, `yScale(close)`, per series. The tooltip's x is `xScale` of the first series' point's date. The series and the fixture are unchanged. |

The accessors `XSelector` and `YSelector` (src/Graph.js:26-27), the predicate
`SortedByDate`, the functions `AllCloses`, `TotalPoints` and `Dist`, and the
lemmas `Chart.AllClosesOfThree` and `Chart.MathMaxShift` are helpers. The members above state what they mean.

## Left out

- Rendering (src/Graph.js:163-378) is not modelled because it is user interface only. This covers JSX, the legend and its `alert` click handler, grid, axes, line paths, bars, circles, and tooltip markup.
- The vx/d3 scales are left out because they are floating-point library code. This covers `scaleTime`, `scaleLinear` with `nice`, `extent`, `xScale.invert` and `timeFormat`. The inverted cursor date is an input. `xScale` and `yScale` are abstract functions.
- `localPoint`, `showTooltip`, `hideTooltip` and `setState` are framework and DOM side effects. The payloads are modelled as a return value and a field update.
- `fetchCryptoData` (src/Graph.js:90-103) is dead network code. Its only call (src/Graph.js:87) is commented out.
- `handleMouseOver` (src/Graph.js:122-129) is never used. `componentWillMount` (src/Graph.js:86-88) is empty.
- `getOrdinalScaleFromLines` and `ordinalColorScale` (src/Graph.js:45-48, 79-84) only build a library scale object.
- src/index.js only mounts the component with a constant margin, so it is not part of this model.
- An empty series or an empty `lines` makes the source throw at src/Graph.js:151 or src/Graph.js:159. `Graph.Valid` excludes both, and the constructor requires a non-empty, date-sorted fixture.
- HandleTooltip: the cursor date is taken once. The source recomputes it on every iteration from the same event, so the value is identical.
- HandleTooltip: the source's guard `d1 && d1.date` is modelled as "a point exists at `index`". A fixture date is a non-empty string, which is always truthy.
- Nearest: `Snap.Nearest` and `Snap.NearestIndex` use the reference insertion point. This equals d3's bisection only on a date-sorted series. `Graph.Valid` guarantees sortedness, and `HandleTooltip` runs the bisection itself.
- BisectDate: `(lo + hi) >>> 1` is modelled as an unbounded halving. The 32-bit unsigned shift matters only for arrays of more than 2^31 elements.
- Price and pixel arithmetic is exact. JavaScript floating-point rounding, NaN and infinite inputs are not modelled.
