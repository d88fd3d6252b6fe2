/** Data model of the price chart: points, series, the accessors, the
    responsive tick counts and the helpers that derive extra series and
    the y-axis data from the fixture. */
module Chart {

  /** One sample of a series: its date as a millisecond timestamp and its
      closing price. */
  datatype Point = Point(date: int, close: real)

  /** One named, coloured line of the chart. */
  datatype Line = Line(data: seq<Point>, name: string, color: string)

  /** The x accessor: the point's date as a timestamp. */
  function XSelector(d: Point): int { d.date }

  /** The y accessor: the point's closing price. */
  function YSelector(d: Point): real { d.close }

  /** Every date in `a` is no later than every date after it. */
  predicate SortedByDate(a: seq<Point>)
  {
    forall j, k :: 0 <= j <= k < |a| ==> a[j].date <= a[k].date
  }

  // ---------------------------------------------------------------------
  // Responsive tick counts

  /** Number of horizontal grid rows and right-axis ticks for a drawing
      area of the given height. */
  function NumTicksForHeight(height: int): (n: int)
    ensures n == 3 || n == 5 || n == 10
    ensures n == 3 <==> height <= 300
    ensures n == 5 <==> 300 < height <= 600
    ensures n == 10 <==> 600 < height
  {
    if height <= 300 then 3
    else if 300 < height && height <= 600 then 5
    else 10
  }

  /** Number of bottom-axis ticks for a drawing area of the given width. */
  function NumTicksForWidth(width: int): (n: int)
    ensures n == 2 || n == 5 || n == 10
    ensures n == 2 <==> width <= 300
    ensures n == 5 <==> 300 < width <= 400
    ensures n == 10 <==> 400 < width
  {
    if width <= 300 then 2
    else if 300 < width && width <= 400 then 5
    else 10
  }

  /** A taller drawing area never gets fewer ticks. */
  lemma NumTicksForHeightMonotone(h1: int, h2: int)
    requires h1 <= h2
    ensures NumTicksForHeight(h1) <= NumTicksForHeight(h2)
  {
  }

  /** A wider drawing area never gets fewer ticks. */
  lemma NumTicksForWidthMonotone(w1: int, w2: int)
    requires w1 <= w2
    ensures NumTicksForWidth(w1) <= NumTicksForWidth(w2)
  {
  }

  // ---------------------------------------------------------------------
  // Derived series

  /** A copy of `data` with every closing price raised by 100 and every
      other field kept. */
  function NewLine(data: seq<Point>): (r: seq<Point>)
    ensures |r| == |data|
    ensures forall k :: 0 <= k < |data| ==> r[k].date == data[k].date
    ensures forall k :: 0 <= k < |data| ==> r[k].close == data[k].close + 100.0
  {
    if data == [] then []
    else [data[0].(close := data[0].close + 100.0)] + NewLine(data[1..])
  }

  /** Shifting the prices keeps a date-sorted series date-sorted. */
  lemma NewLineSorted(data: seq<Point>)
    requires SortedByDate(data)
    ensures SortedByDate(NewLine(data))
  {
  }

  /** The closing prices of a series, in order. */
  function Closes(data: seq<Point>): (r: seq<real>)
    ensures |r| == |data|
    ensures forall k :: 0 <= k < |data| ==> r[k] == data[k].close
  {
    if data == [] then [] else [data[0].close] + Closes(data[1..])
  }

  /** The closing prices of all series, series after series. */
  function AllCloses(lines: seq<Line>): seq<real>
  {
    if lines == [] then []
    else AllCloses(lines[..|lines| - 1]) + Closes(lines[|lines| - 1].data)
  }

  /** The total number of points over all series. */
  function TotalPoints(lines: seq<Line>): nat
  {
    if lines == [] then 0
    else TotalPoints(lines[..|lines| - 1]) + |lines[|lines| - 1].data|
  }

  /** For three series the merge is their closes one after the other. */
  lemma AllClosesOfThree(lines: seq<Line>)
    requires |lines| == 3
    ensures AllCloses(lines) == Closes(lines[0].data) + Closes(lines[1].data) + Closes(lines[2].data)
  {
    var first, firstTwo := lines[..1], lines[..2];
    assert firstTwo[..1] == first && first[..0] == [];
    assert AllCloses(first) == Closes(lines[0].data);
    assert AllCloses(firstTwo) == AllCloses(first) + Closes(lines[1].data);
  }

  /** The concatenation is as long as all series together. */
  lemma {:induction false} AllClosesLength(lines: seq<Line>)
    ensures |AllCloses(lines)| == TotalPoints(lines)
  {
    if lines != [] {
      AllClosesLength(lines[..|lines| - 1]);
    }
  }

  /** The j-th close of series k sits right after the points of the series
      before it: series order, then point order. */
  lemma {:induction false} AllClosesAt(lines: seq<Line>, k: nat, j: nat)
    requires k < |lines| && j < |lines[k].data|
    ensures TotalPoints(lines[..k]) + j < |AllCloses(lines)|
    ensures AllCloses(lines)[TotalPoints(lines[..k]) + j] == lines[k].data[j].close
  {
    var last := |lines| - 1;
    var init := lines[..last];
    AllClosesLength(init);
    if k == last {
      assert lines[..k] == init;
    } else {
      assert init[..k] == lines[..k];
      AllClosesAt(init, k, j);
    }
  }

  // ---------------------------------------------------------------------
  // Math.max over a list of prices

  /** A price or the -Infinity that Math.max returns for no arguments. */
  datatype Extended = NegInfinity | Finite(value: real)

  /** Math.max applied to every element of `s`. */
  function MathMax(s: seq<real>): (m: Extended)
    ensures m.NegInfinity? <==> s == []
    ensures m.Finite? ==> m.value in s
    ensures m.Finite? ==> forall k :: 0 <= k < |s| ==> s[k] <= m.value
  {
    if s == [] then NegInfinity
    else
      var rest := MathMax(s[1..]);
      if rest.NegInfinity? || s[0] >= rest.value then Finite(s[0]) else rest
  }

  /** The maximum of two concatenated lists is the larger of their maxima. */
  lemma MathMaxAppend(a: seq<real>, b: seq<real>, ma: real, mb: real)
    requires MathMax(a) == Finite(ma) && MathMax(b) == Finite(mb)
    ensures MathMax(a + b) == Finite(if ma >= mb then ma else mb)
  {
    var m := MathMax(a + b).value;
    assert ma in a + b && mb in b;
    var i :| 0 <= i < |a| && a[i] == ma;
    var j :| 0 <= j < |b| && b[j] == mb;
    assert (a + b)[i] == ma && (a + b)[|a| + j] == mb;
    var t :| 0 <= t < |a + b| && (a + b)[t] == m;
    if t < |a| {
      assert a[t] == m;
    } else {
      assert b[t - |a|] == m;
    }
  }

  /** Adding the same amount to every element adds it to the maximum. */
  lemma MathMaxShift(s: seq<real>, s': seq<real>, c: real, m: real)
    requires |s'| == |s|
    requires forall k :: 0 <= k < |s| ==> s'[k] == s[k] + c
    requires MathMax(s) == Finite(m)
    ensures MathMax(s') == Finite(m + c)
  {
  }

  /** Raising every price by 100 raises the maximum by 100. */
  lemma NewLineMax(data: seq<Point>, m: real)
    requires MathMax(Closes(data)) == Finite(m)
    ensures MathMax(Closes(NewLine(data))) == Finite(m + 100.0)
  {
    MathMaxShift(Closes(data), Closes(NewLine(data)), 100.0, m);
  }
}
