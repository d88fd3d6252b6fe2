/** The left bisection over a series by date, as d3's `bisector(f).left`
    with the upper bound defaulting to the length of the array. */
module Bisect {
  import opened Chart

  /** Reference definition of the left insertion point: the first index
      at or after `lo` whose date is not before `x`, or |a| if there is
      none. */
  function InsertionIndex(a: seq<Point>, x: int, lo: nat): (i: nat)
    requires lo <= |a|
    ensures lo <= i <= |a|
    ensures i < |a| ==> x <= a[i].date
    ensures forall j :: lo <= j < i ==> a[j].date < x
    decreases |a| - lo
  {
    if lo == |a| || x <= a[lo].date then lo else InsertionIndex(a, x, lo + 1)
  }

  /** The insertion point is the only index that splits [lo, |a|) into
      dates before `x` followed by dates not before `x`. */
  lemma InsertionIndexUnique(a: seq<Point>, x: int, lo: nat, i: nat)
    requires lo <= i <= |a|
    requires i < |a| ==> x <= a[i].date
    requires forall j :: lo <= j < i ==> a[j].date < x
    ensures i == InsertionIndex(a, x, lo)
  {
  }

  /** d3's left bisection of `a` by date for `x`, starting at `lo`.
      Whatever the input, the result sits right after a date before `x`
      (or at `lo`) and right before a date not before `x` (or at the
      end); on a date-sorted series it is the insertion point. */
  method BisectDate(a: seq<Point>, x: int, start: nat) returns (lo: nat)
    ensures start <= |a| ==> start <= lo <= |a|
    ensures start > |a| ==> lo == start
    ensures start < lo ==> a[lo - 1].date < x
    ensures lo < |a| ==> x <= a[lo].date
    ensures SortedByDate(a) ==> forall j :: start <= j < lo ==> a[j].date < x
    ensures SortedByDate(a) ==> forall j :: lo <= j < |a| ==> x <= a[j].date
    ensures SortedByDate(a) && start <= |a| ==> lo == InsertionIndex(a, x, start)
  {
    lo := start;
    var hi: nat := |a|;
    while lo < hi
      invariant start <= lo && hi <= |a|
      invariant start <= |a| ==> lo <= hi
      invariant start > |a| ==> lo == start
      invariant start < lo ==> lo <= |a| && a[lo - 1].date < x
      invariant hi < |a| ==> x <= a[hi].date
      invariant SortedByDate(a) ==> forall j :: start <= j < lo ==> a[j].date < x
      invariant SortedByDate(a) ==> forall j :: hi <= j < |a| ==> x <= a[j].date
      decreases hi - lo
    {
      var mid := (lo + hi) / 2;
      if a[mid].date < x {
        lo := mid + 1;
      } else {
        hi := mid;
      }
    }
    if SortedByDate(a) && start <= |a| {
      InsertionIndexUnique(a, x, start, lo);
    }
  }
}
