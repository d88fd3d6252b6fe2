/** The hover "snap to nearest point" rule for one series: take the two
    neighbours around the left insertion point of the cursor date
    (searched from index 1) and keep the later one only when it is
    strictly closer. */
module Snap {
  import opened Chart
  import opened Bisect

  /** Distance between two timestamps. */
  function Dist(a: int, b: int): nat
  {
    if a >= b then a - b else b - a
  }

  /** Index of the point the cursor date `x0` snaps to in `data`: `d0` is
      data[index - 1], `d1` is data[index] when there is one, and `d1`
      wins only if `x0 - d0` exceeds `d1 - x0`. The index is the reference
      insertion point, which is where d3's bisection stops on a date-sorted
      series (the only kind the component holds); on an unsorted series the
      bisection may stop elsewhere. */
  function NearestIndex(data: seq<Point>, x0: int): (r: nat)
    requires |data| > 0
    ensures r < |data|
    ensures var index := InsertionIndex(data, x0, 1);
      r == index - 1 || (index < |data| && r == index)
    ensures InsertionIndex(data, x0, 1) == |data| ==> r == |data| - 1
  {
    var index := InsertionIndex(data, x0, 1);
    var d0 := data[index - 1];
    if index < |data| && x0 - XSelector(d0) > XSelector(data[index]) - x0
    then index
    else index - 1
  }

  /** The point the cursor date `x0` snaps to on a date-sorted series. */
  function Nearest(data: seq<Point>, x0: int): (d: Point)
    requires |data| > 0
    ensures d in data
  {
    data[NearestIndex(data, x0)]
  }

  /** Of the two neighbours `NearestIndex` compares, the later one is chosen
      only when it is strictly closer, so an equal distance keeps the earlier
      point; on a date-sorted series it is chosen exactly when it is strictly
      closer. */
  lemma NearestLaterOnlyIfStrictlyCloser(data: seq<Point>, x0: int)
    requires |data| > 0
    requires InsertionIndex(data, x0, 1) < |data|
    ensures var i := InsertionIndex(data, x0, 1);
      NearestIndex(data, x0) == i ==> Dist(x0, data[i].date) < Dist(x0, data[i - 1].date)
    ensures var i := InsertionIndex(data, x0, 1);
      SortedByDate(data) && Dist(x0, data[i].date) < Dist(x0, data[i - 1].date) ==> NearestIndex(data, x0) == i
  {
  }

  /** A tie between the two neighbours keeps the earlier one. */
  lemma NearestTieKeepsEarlier(data: seq<Point>, x0: int)
    requires |data| > 0
    requires InsertionIndex(data, x0, 1) < |data|
    requires var i := InsertionIndex(data, x0, 1);
      Dist(x0, data[i].date) == Dist(x0, data[i - 1].date)
    ensures NearestIndex(data, x0) == InsertionIndex(data, x0, 1) - 1
  {
  }

  /** On a date-sorted series no point is strictly closer to `x0` than the
      one the cursor snaps to. */
  lemma NearestIsOptimal(data: seq<Point>, x0: int, j: nat)
    requires SortedByDate(data) && j < |data|
    ensures Dist(x0, Nearest(data, x0).date) <= Dist(x0, data[j].date)
  {
  }

  /** Between two consecutive samples the snapped point lies within half
      their spacing of the cursor date. */
  lemma NearestWithinHalfSpacing(data: seq<Point>, x0: int, k: nat)
    requires SortedByDate(data) && 0 < k < |data|
    requires data[k - 1].date <= x0 <= data[k].date
    ensures 2 * Dist(x0, Nearest(data, x0).date) <= data[k].date - data[k - 1].date
  {
  }

  /** A cursor date at or before the first sample snaps to the first
      sample. */
  lemma NearestClampsAtStart(data: seq<Point>, x0: int)
    requires |data| > 0 && SortedByDate(data)
    requires x0 <= data[0].date
    ensures InsertionIndex(data, x0, 1) == 1
    ensures NearestIndex(data, x0) == 0
  {
  }

  /** A cursor date after the last sample snaps to the last sample; one
      equal to the last date snaps to a point of that date. */
  lemma NearestClampsAtEnd(data: seq<Point>, x0: int)
    requires |data| > 0 && SortedByDate(data)
    requires data[|data| - 1].date <= x0
    ensures data[|data| - 1].date < x0 ==> InsertionIndex(data, x0, 1) == |data|
    ensures data[|data| - 1].date < x0 ==> NearestIndex(data, x0) == |data| - 1
    ensures Nearest(data, x0).date == data[|data| - 1].date
  {
  }
}
