/** The chart component: its render state (the fixture, the three series
    built from it and the hover circle positions), the merge of all closes
    for the y axis, and the hover handler that snaps every series to its
    nearest point. */
module GraphComponent {
  import opened Chart
  import opened Bisect
  import opened Snap

  /** A circle position, or the null it holds before the first hover. */
  datatype Option<T> = None | Some(value: T)

  /** What the hover handler hands to the tooltip: one point per series and
      the horizontal pixel position of the tooltip. */
  datatype TooltipPayload = TooltipPayload(tooltipData: seq<Point>, tooltipLeft: real)

  /** The three series the component draws from the fixture: the fixture
      itself, then two copies raised by 100 and by 200. */
  function InitialLines(appleStock: seq<Point>): (lines: seq<Line>)
    ensures |lines| == 3
    ensures lines[0].data == appleStock
    ensures lines[1].data == NewLine(appleStock)
    ensures lines[2].data == NewLine(NewLine(appleStock))
  {
    var one := NewLine(appleStock);
    var two := NewLine(one);
    [Line(appleStock, "Apple", "green"), Line(one, "Bitcoin", "magenta"), Line(two, "Tesla", "blue")]
  }

  /** On the initial series the top of the y domain is the highest fixture
      close plus 200, the close of the highest copy. */
  lemma InitialYDomainTop(appleStock: seq<Point>, m: real)
    requires MathMax(Closes(appleStock)) == Finite(m)
    ensures MathMax(AllCloses(InitialLines(appleStock))) == Finite(m + 200.0)
  {
    var lines := InitialLines(appleStock);
    var one := NewLine(appleStock);
    var a, b, c := Closes(appleStock), Closes(one), Closes(NewLine(one));
    AllClosesOfThree(lines);
    assert MathMax(a + b) == Finite(m + 100.0) by {
      NewLineMax(appleStock, m);
      MathMaxAppend(a, b, m, m + 100.0);
    }
    assert MathMax(c) == Finite(m + 200.0) by {
      NewLineMax(appleStock, m);
      NewLineMax(one, m + 100.0);
    }
    MathMaxAppend(a + b, c, m + 100.0, m + 200.0);
  }

  class Graph {
    var data: seq<Point>
    var lines: seq<Line>
    var circlePositions: seq<Option<real>>

    /** There is at least one series, every series has a point, every
        series is sorted by date, and there is one circle per series. */
    ghost predicate Valid()
      reads this
    {
      && |lines| > 0
      && (forall k :: 0 <= k < |lines| ==> |lines[k].data| > 0 && SortedByDate(lines[k].data))
      && |circlePositions| == |lines|
    }

    constructor (appleStock: seq<Point>)
      requires |appleStock| > 0 && SortedByDate(appleStock)
      ensures Valid()
      ensures data == appleStock
      ensures lines == InitialLines(appleStock)
      ensures circlePositions == [None, None, None]
    {
      data := appleStock;
      lines := InitialLines(appleStock);
      circlePositions := [None, None, None];
      NewLineSorted(appleStock);
      NewLineSorted(NewLine(appleStock));
    }

    /** All closes of all series, series after series. */
    method MergeAxisYData() returns (arr: seq<real>)
      ensures arr == AllCloses(lines)
      ensures |arr| == TotalPoints(lines)
    {
      arr := [];
      for k := 0 to |lines|
        invariant arr == AllCloses(lines[..k])
      {
        var values := Closes(lines[k].data);
        assert lines[..k + 1][..k] == lines[..k];
        arr := arr + values;
      }
      assert lines[..|lines|] == lines;
      AllClosesLength(lines);
    }

    /** The y domain: from 0 up to the largest close of any series. */
    method YDomain() returns (bottom: real, top: real)
      requires Valid()
      ensures bottom == 0.0
      ensures MathMax(AllCloses(lines)) == Finite(top)
      ensures top in AllCloses(lines)
      ensures forall k, j :: 0 <= k < |lines| && 0 <= j < |lines[k].data| ==> lines[k].data[j].close <= top
    {
      var arr := MergeAxisYData();
      AllClosesAt(lines, 0, 0);
      var m := MathMax(arr);
      bottom, top := 0.0, m.value;
      forall k, j | 0 <= k < |lines| && 0 <= j < |lines[k].data|
        ensures lines[k].data[j].close <= top
      {
        AllClosesAt(lines, k, j);
      }
    }

    /** Snap every series to its nearest point for the cursor date `x0`,
        record each point's y position as the new circle positions, and
        return the tooltip payload anchored at the first series' point. */
    method HandleTooltip(x0: int, xScale: int -> real, yScale: real -> real)
      returns (payload: TooltipPayload)
      requires Valid()
      modifies this`circlePositions
      ensures Valid()
      ensures |payload.tooltipData| == |lines|
      ensures forall k :: 0 <= k < |lines| ==>
        payload.tooltipData[k] == Nearest(lines[k].data, x0) && payload.tooltipData[k] in lines[k].data
      ensures forall k :: 0 <= k < |lines| ==>
        circlePositions[k] == Some(yScale(YSelector(payload.tooltipData[k])))
      ensures payload.tooltipLeft == xScale(XSelector(payload.tooltipData[0]))
    {
      var dataPoints: seq<Point> := [];
      var positions: seq<Option<real>> := [];
      for i := 0 to |lines|
        invariant |dataPoints| == i && |positions| == i
        invariant forall k :: 0 <= k < i ==> dataPoints[k] == Nearest(lines[k].data, x0)
        invariant forall k :: 0 <= k < i ==> positions[k] == Some(yScale(YSelector(dataPoints[k])))
      {
        var line := lines[i];
        var index := BisectDate(line.data, x0, 1);
        var d0 := line.data[index - 1];
        var d := d0;
        if index < |line.data| {
          var d1 := line.data[index];
          d := if x0 - XSelector(d0) > XSelector(d1) - x0 then d1 else d0;
        }
        dataPoints := dataPoints + [d];
        var y := yScale(YSelector(d));
        positions := positions + [Some(y)];
      }
      circlePositions := positions;
      payload := TooltipPayload(dataPoints, xScale(XSelector(dataPoints[0])));
    }
  }
}
