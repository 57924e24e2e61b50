/** The coordinate and label arithmetic of updateChart in app.js: the casts, in date order,
    become points of a polyline on a canvas of fixed height and variable width. */
module Chart {
  import opened Seqs
  import opened Records
  import opened History
  import opened Stats

  /** The margin on all four sides. */
  const Padding: real := 60.0
  /** `canvas.height = 400`. */
  const CanvasHeight: real := 400.0
  /** `canvas.height - padding * 2`. */
  const ChartHeight: real := CanvasHeight - 2.0 * Padding

  /** `canvas.width - padding * 2` for a canvas `canvasWidth` pixels wide; negative on a
      canvas narrower than the two margins. */
  function ChartWidth(canvasWidth: nat): real {
    canvasWidth as real - 2.0 * Padding
  }

  /** `maxDistance - minDistance || 1`: the spread of the distances, or 1 when they are all
      equal, so that it can be divided by. */
  function Range(maxD: real, minD: real): (r: real)
    ensures r != 0.0
    ensures maxD >= minD ==> r > 0.0
    ensures maxD > minD ==> r == maxD - minD
  {
    if maxD - minD == 0.0 then 1.0 else maxD - minD
  }

  /** `sortedCasts.length - 1 || 1`: the number of gaps between `n` points, or 1 for a
      single point. */
  function Gaps(n: int): (g: real)
    ensures g != 0.0
    ensures n >= 1 ==> g > 0.0
  {
    if n - 1 == 0 then 1.0 else (n - 1) as real
  }

  /** The x of point `i` of `n` on a chart `w` wide. */
  function PointX(i: int, n: int, w: real): real {
    Padding + (w / Gaps(n)) * (i as real)
  }

  /** The y of distance `d`: the scale is inverted, so the smallest distance lies on the bottom
      line and larger distances lie higher up. */
  function PointY(d: real, minD: real, range: real): real
    requires range != 0.0
  {
    Padding + ChartHeight - ((d - minD) / range) * ChartHeight
  }

  /** The first point is on the left margin and, with more than one point, the last on the
      right one. */
  lemma PointXEnds(n: int, w: real)
    ensures PointX(0, n, w) == Padding
    ensures n > 1 ==> PointX(n - 1, n, w) == Padding + w
  {
    if n > 1 {
      var g := (n - 1) as real;
      assert (w / g) * g == w;
    }
  }

  /** Consecutive points are the same distance `w / Gaps(n)` apart. */
  lemma PointXEvenlySpaced(i: int, n: int, w: real)
    ensures PointX(i + 1, n, w) - PointX(i, n, w) == w / Gaps(n)
  {
    var q := w / Gaps(n);
    assert q * ((i + 1) as real) == q * (i as real) + q;
  }

  /** On a chart of positive width the points go from left to right. */
  lemma PointXIncreasing(i: int, j: int, n: int, w: real)
    requires n >= 1 && w > 0.0 && i < j
    ensures PointX(i, n, w) < PointX(j, n, w)
  {
    var q := w / Gaps(n);
    assert q > 0.0 by { assert w == q * Gaps(n); }
    assert q * (j as real) - q * (i as real) == q * ((j - i) as real);
  }

  /** A distance between the minimum and the maximum is drawn between the top line
      (`padding`) and the bottom line (`padding + chartHeight`). */
  lemma PointYBounds(d: real, minD: real, maxD: real)
    requires minD <= d <= maxD
    ensures Padding <= PointY(d, minD, Range(maxD, minD)) <= Padding + ChartHeight
  {
    var r := Range(maxD, minD);
    var t := (d - minD) / r;
    if maxD == minD {
      assert t == 0.0;
    } else {
      assert d - minD == t * r;
      DivideBounds(d - minD, r, 0.0, 1.0);
    }
  }

  /** The smallest distance is on the bottom line; when the distances differ, the largest is
      on the top line. */
  lemma PointYExtremes(minD: real, maxD: real)
    requires minD <= maxD
    ensures PointY(minD, minD, Range(maxD, minD)) == Padding + ChartHeight
    ensures minD < maxD ==> PointY(maxD, minD, Range(maxD, minD)) == Padding
  {
  }

  /** A longer cast is drawn higher up (a smaller y), an equal one at the same height. */
  lemma PointYInverted(d1: real, d2: real, minD: real, range: real)
    requires range > 0.0 && d1 <= d2
    ensures PointY(d2, minD, range) <= PointY(d1, minD, range)
    ensures d1 < d2 ==> PointY(d2, minD, range) < PointY(d1, minD, range)
  {
    var t1 := (d1 - minD) / range;
    var t2 := (d2 - minD) / range;
    assert d1 - minD == t1 * range;
    assert d2 - minD == t2 * range;
    assert (t2 - t1) * range == d2 - d1;
  }

  /** One of the six horizontal grid lines, with the distance printed beside it. */
  datatype GridLine = GridLine(y: real, value: real)

  /** The height of grid line `i`: six lines, the top one at the margin, evenly spaced. */
  function GridY(i: int): real {
    Padding + (ChartHeight / 5.0) * (i as real)
  }

  /** The distance printed beside grid line `i`: the maximum on the top line, going down by a
      fifth of the range per line. */
  function GridValue(i: int, maxD: real, range: real): real {
    maxD - (range / 5.0) * (i as real)
  }

  /** When the distances differ, the value printed beside every grid line is the distance a
      point on that line has: grid and points use the same scale. */
  lemma GridMatchesPoints(i: int, minD: real, maxD: real)
    requires minD < maxD
    ensures PointY(GridValue(i, maxD, Range(maxD, minD)), minD, Range(maxD, minD)) == GridY(i)
  {
    var r := maxD - minD;
    var t := i as real / 5.0;
    assert GridValue(i, maxD, r) - minD == r * (1.0 - t);
    DivCancel(1.0 - t, r);
  }

  lemma DivCancel(a: real, r: real)
    requires r != 0.0
    ensures (r * a) / r == a
  {
    var u := (r * a) / r;
    assert u * r == r * a;
  }

  /** When all distances are equal (`range` falls back to 1) every point lies on the bottom
      line, which is labelled `max - 1`; the top line carries the distance itself. */
  lemma FlatSeriesOnBottomLine(d: real)
    ensures PointY(d, d, Range(d, d)) == GridY(5)
    ensures GridValue(5, d, Range(d, d)) == d - 1.0
    ensures GridValue(0, d, Range(d, d)) == d
  {
  }

  /** The grid loop of updateChart, `for (let i = 0; i <= 5; i++)`: six lines from the top
      margin to the bottom line, labelled from `maxD` down to `maxD - range`. */
  method DrawGrid(maxD: real, range: real) returns (grid: seq<GridLine>)
    ensures |grid| == 6
    ensures forall i :: 0 <= i < 6 ==> grid[i] == GridLine(GridY(i), GridValue(i, maxD, range))
    ensures grid[0] == GridLine(Padding, maxD)
    ensures grid[5] == GridLine(Padding + ChartHeight, maxD - range)
    ensures forall i :: 0 <= i < 5 ==> grid[i + 1].y - grid[i].y == ChartHeight / 5.0
  {
    grid := [];
    var i := 0;
    while i <= 5
      invariant 0 <= i <= 6 && |grid| == i
      invariant forall j :: 0 <= j < i ==> grid[j] == GridLine(GridY(j), GridValue(j, maxD, range))
    {
      grid := grid + [GridLine(GridY(i), GridValue(i, maxD, range))];
      i := i + 1;
    }
  }

  /** One point of the polyline. */
  datatype Point = Point(x: real, y: real)

  /** The two `forEach` loops over the sorted casts (line, then dots) compute the same point
      for each cast: evenly spaced from the left margin, at the height of its distance. */
  method ProjectPoints(d: seq<real>, w: real) returns (points: seq<Point>)
    requires |d| > 0
    ensures |points| == |d|
    ensures forall i :: 0 <= i < |d| ==>
      points[i] == Point(PointX(i, |d|, w), PointY(d[i], Min(d), Range(Max(d), Min(d))))
    ensures points[0].x == Padding
    ensures |d| > 1 ==> points[|d| - 1].x == Padding + w
    ensures forall i :: 0 <= i < |d| ==> Padding <= points[i].y <= Padding + ChartHeight
    ensures forall i, j :: 0 <= i < |d| && 0 <= j < |d| && d[i] <= d[j] ==> points[j].y <= points[i].y
  {
    var minD, maxD := Min(d), Max(d);
    var range := Range(maxD, minD);
    points := [];
    var i := 0;
    while i < |d|
      invariant 0 <= i <= |d| && |points| == i
      invariant forall j :: 0 <= j < i ==> points[j] == Point(PointX(j, |d|, w), PointY(d[j], minD, range))
      invariant forall j :: 0 <= j < i ==> Padding <= points[j].y <= Padding + ChartHeight
    {
      assert d[i] in d;
      PointYBounds(d[i], minD, maxD);
      points := points + [Point(PointX(i, |d|, w), PointY(d[i], minD, range))];
      i := i + 1;
    }
    PointXEnds(|d|, w);
    forall i, j | 0 <= i < |d| && 0 <= j < |d| && d[i] <= d[j] ensures points[j].y <= points[i].y {
      PointYInverted(d[i], d[j], minD, range);
    }
  }

  /** `Math.ceil(sortedCasts.length / 10)`: the step between labelled points. */
  function LabelInterval(n: nat): (k: nat)
    ensures n > 0 ==> k >= 1 && 10 * (k - 1) < n <= 10 * k
  {
    (n + 9) / 10
  }

  /** Point `i` of `n` gets a date label: every `LabelInterval(n)`-th point, and the last. */
  predicate ShowsLabel(i: int, n: nat)
    requires n > 0
  {
    i % LabelInterval(n) == 0 || i == n - 1
  }

  lemma MulSign(a: int, k: int)
    requires k > 0
    ensures a >= 1 ==> a * k >= k
    ensures a <= -1 ==> a * k <= -k
  {
  }

  /** If `m * k` is the first multiple of `k` at or after `i`, then `i` is a multiple of `k`
      exactly when it is `m * k`. */
  lemma NextMultiple(i: nat, k: int, m: int)
    requires k > 0 && i <= m * k < i + k
    ensures i % k == 0 <==> i == m * k
  {
    var q := i / k;
    var r := i % k;
    assert i == q * k + r;
    assert (m - q) * k == m * k - q * k;
    MulSign(m - q, k);
  }

  lemma MulBelow(m: int, c: int, k: int)
    requires k > 0 && m * k < c * k
    ensures m < c
  {
    assert (c - m) * k == c * k - m * k;
    MulSign(c - m, k);
  }

  /** The label loop of updateChart: the indices of the labelled points, in increasing order.
      The last point is always labelled; up to ten points all are; and there are never more
      than eleven labels (ten multiples of the interval and the last point). */
  method SelectLabels(n: nat) returns (labels: seq<int>)
    ensures forall i :: i in labels <==> 0 <= i < n && ShowsLabel(i, n)
    ensures forall a, b :: 0 <= a < b < |labels| ==> labels[a] < labels[b]
    ensures n > 0 ==> n - 1 in labels
    ensures n <= 10 ==> |labels| == n
    ensures |labels| <= 11
  {
    var k := LabelInterval(n);
    labels := [];
    if n == 0 {
      return;
    }
    var i := 0;
    ghost var m := 0;
    while i < n
      invariant 0 <= i <= n
      invariant forall j :: j in labels <==> 0 <= j < i && ShowsLabel(j, n)
      invariant forall a, b :: 0 <= a < b < |labels| ==> labels[a] < labels[b]
      invariant forall a :: 0 <= a < |labels| ==> labels[a] < i
      invariant i <= m * k < i + k
      invariant |labels| == m || (i == n && |labels| == m + 1)
      invariant n <= 10 ==> |labels| == i
    {
      NextMultiple(i, k, m);
      if ShowsLabel(i, n) {
        labels := labels + [i];
      }
      if i % k == 0 {
        assert (m + 1) * k == m * k + k;
        m := m + 1;
      }
      i := i + 1;
    }
    MulBelow(m, 11, k);
  }

  /** Eleven labels do occur: of 100 points, the eleven at 0, 10, ..., 90 and 99 are labelled,
      one more than the "max 10 labels" the code's comment announces. */
  lemma ElevenLabelsForHundredPoints()
    ensures var shown := [0, 10, 20, 30, 40, 50, 60, 70, 80, 90, 99];
      && (forall a, b :: 0 <= a < b < |shown| ==> shown[a] < shown[b])
      && (forall a :: 0 <= a < |shown| ==> 0 <= shown[a] < 100 && ShowsLabel(shown[a], 100))
  {
  }

  /** What updateChart draws: nothing for an empty history, otherwise the casts in date order,
      the grid, one point per cast and the indices of the labelled points. */
  datatype ChartView = NoData | Plot(sorted: seq<Cast>, grid: seq<GridLine>, points: seq<Point>, labels: seq<int>)

  /** updateChart for a canvas `canvasWidth` pixels wide. */
  method UpdateChart(casts: seq<Cast>, canvasWidth: nat) returns (view: ChartView)
    ensures view.NoData? <==> casts == []
    ensures view.Plot? ==>
      var d := Distances(view.sorted);
      && multiset(view.sorted) == multiset(casts)
      && OrderedAs(view.sorted, DataAsc)
      && |view.grid| == 6
      && view.grid[0] == GridLine(Padding, Max(d))
      && view.grid[5] == GridLine(Padding + ChartHeight, Max(d) - Range(Max(d), Min(d)))
      && |view.points| == |casts|
      && (forall i :: 0 <= i < |casts| ==>
            view.points[i] == Point(PointX(i, |casts|, ChartWidth(canvasWidth)),
                                    PointY(view.sorted[i].distanza, Min(d), Range(Max(d), Min(d))))
            && Padding <= view.points[i].y <= Padding + ChartHeight)
      && (forall i :: 0 <= i < 6 ==>
            view.grid[i] == GridLine(GridY(i), GridValue(i, Max(d), Range(Max(d), Min(d)))))
      && (forall i :: i in view.labels <==> 0 <= i < |casts| && ShowsLabel(i, |casts|))
      && (forall a, b :: 0 <= a < b < |view.labels| ==> view.labels[a] < view.labels[b])
      && |view.labels| <= 11
      && |casts| - 1 in view.labels
  {
    var sorted := Sort(casts, DataAsc);
    assert |sorted| == |casts| by {
      assert |multiset(sorted)| == |multiset(casts)|;
    }
    if |sorted| == 0 {
      return NoData;
    }
    SortedByMeansOrderedAs(sorted, DataAsc);
    var d := Distances(sorted);
    var minD, maxD := Min(d), Max(d);
    var grid := DrawGrid(maxD, Range(maxD, minD));
    var points := ProjectPoints(d, ChartWidth(canvasWidth));
    var labels := SelectLabels(|sorted|);
    view := Plot(sorted, grid, points, labels);
  }
}
