/** The numbers `renderActivityChart` hands to the canvas: the scale, the
    six gridlines with their labels, and the position and height of every
    bar. Gradients, fonts and the drawing calls themselves are not modelled. */
module BarChart {
  import opened JsCore
  import opened Activity

  /** The margin on every side of the plot area, in pixels. */
  const Padding: real := 40.0

  /** A horizontal gridline at height `y`, labelled `value`. */
  datatype Gridline = Gridline(y: real, value: int)

  /** The two bars of one bucket: the "new" bar at `x`, the "converted" bar
      at `convertedX`, both `barWidth` wide, and the caption's centre. */
  datatype BarPair = BarPair(
    x: real,
    newHeight: real,
    convertedX: real,
    convertedHeight: real,
    captionX: real,
    caption: string)

  datatype Layout = Layout(
    maxValue: nat,
    chartWidth: real,
    chartHeight: real,
    barWidth: real,
    spacing: real,
    gridlines: seq<Gridline>,
    bars: seq<BarPair>)

  function Max(a: nat, b: nat): nat
  {
    if a >= b then a else b
  }

  /** `Math.max(...data.map(d => Math.max(d.new, d.converted)), 1)`. */
  function MaxValue(data: seq<Bucket>): (m: nat)
    ensures m >= 1
    ensures forall b | b in data :: b.newCount <= m && b.converted <= m
    ensures m == 1 || exists b | b in data :: m == b.newCount || m == b.converted
  {
    if data == [] then 1
    else
      var rest := MaxValue(data[1..]);
      assert forall b | b in data[1..] :: b in data;
      Max(Max(data[0].newCount, data[0].converted), rest)
  }

  /** The y coordinate of gridline `i`: `padding + (chartHeight / 5) * i`. */
  function GridY(chartHeight: real, i: int): real
  {
    Padding + (chartHeight / 5.0) * i as real
  }

  /** The label of gridline `i`: `Math.round(maxValue - (maxValue / 5) * i)`. */
  function GridValue(maxValue: nat, i: int): int
  {
    Round(maxValue as real - (maxValue as real / 5.0) * i as real)
  }

  /** The left edge of bucket `k`'s bar pair:
      `padding + index * (barWidth * 2 + spacing)`. */
  function PairX(barWidth: real, k: int): real
  {
    Padding + k as real * (barWidth * 2.0 + barWidth * 0.5)
  }

  /** Height of a bar for `value`: `(value / maxValue) * chartHeight`. */
  function BarHeight(value: nat, maxValue: nat, chartHeight: real): real
    requires maxValue >= 1
  {
    (value as real / maxValue as real) * chartHeight
  }

  /** The six gridlines, top to bottom. */
  function Gridlines(maxValue: nat, chartHeight: real): (g: seq<Gridline>)
    requires maxValue >= 1
    ensures |g| == 6
    ensures g[0].value == maxValue && g[5].value == 0
    ensures forall i, j | 0 <= i < j < 6 :: g[i].value >= g[j].value
    ensures g[0].y == Padding && g[5].y == Padding + chartHeight
    ensures forall i | 0 <= i < 6 :: g[i].y == Padding + chartHeight * i as real / 5.0
    ensures forall i | 0 <= i < 5 :: g[i + 1].y - g[i].y == chartHeight / 5.0
    ensures forall i | 0 <= i < 6 ::
              var exact := maxValue as real * (5 - i) as real / 5.0;
              exact - 0.5 < g[i].value as real <= exact + 0.5
  {
    GridValuesDescend(maxValue);
    assert GridY(chartHeight, 5) == Padding + chartHeight;
    forall i | 0 <= i < 6 {
      GridlineAt(maxValue, chartHeight, i);
    }
    seq(6, i => Gridline(GridY(chartHeight, i), GridValue(maxValue, i)))
  }

  /** Gridline `i` sits `i` fifths of the plot height below the top, one
      fifth below line `i - 1`, and its label is `5 - i` fifths of the
      maximum, rounded. */
  lemma GridlineAt(maxValue: nat, chartHeight: real, i: int)
    ensures GridY(chartHeight, i) == Padding + chartHeight * i as real / 5.0
    ensures GridY(chartHeight, i + 1) - GridY(chartHeight, i) == chartHeight / 5.0
    ensures var exact := maxValue as real * (5 - i) as real / 5.0;
            exact - 0.5 < GridValue(maxValue, i) as real <= exact + 0.5
  {
    FifthsOf(chartHeight, i);
    FifthsOf(chartHeight, i + 1);
    FifthsOf(maxValue as real, i);
  }

  /** `i` fifths of `x`, taken as `(x / 5) * i`, and what is left of `x`
      after them. */
  lemma FifthsOf(x: real, i: int)
    ensures (x / 5.0) * i as real == x * i as real / 5.0
    ensures x - (x / 5.0) * i as real == x * (5 - i) as real / 5.0
  {
    var f := x / 5.0;
    assert f * 5.0 == x;
    assert x * i as real == f * i as real * 5.0;
    assert x * (5 - i) as real == 5.0 * x - x * i as real;
    assert x * (5 - i) as real == 5.0 * (x - f * i as real);
  }

  /** The bar pair of bucket `b` at position `k`. */
  function Pair(b: Bucket, k: nat, maxValue: nat, chartHeight: real, barWidth: real): BarPair
    requires maxValue >= 1
  {
    var spacing := barWidth * 0.5;
    var x := PairX(barWidth, k);
    BarPair(x, BarHeight(b.newCount, maxValue, chartHeight),
            x + barWidth + spacing / 2.0, BarHeight(b.converted, maxValue, chartHeight),
            x + barWidth + spacing / 4.0, b.caption)
  }

  /** One bar pair per bucket, in bucket order. */
  function Bars(data: seq<Bucket>, maxValue: nat, chartHeight: real, barWidth: real): (bars: seq<BarPair>)
    requires maxValue >= 1
    ensures |bars| == |data|
    ensures forall k | 0 <= k < |data| :: bars[k] == Pair(data[k], k, maxValue, chartHeight, barWidth)
  {
    seq(|data|, k requires 0 <= k < |data| => Pair(data[k], k, maxValue, chartHeight, barWidth))
  }

  /** The layout of a canvas of `width` by `height` pixels for `data`. */
  function LayOut(width: nat, height: nat, data: seq<Bucket>): (c: Layout)
    requires |data| > 0
    ensures c.maxValue >= 1
    ensures forall b | b in data :: b.newCount <= c.maxValue && b.converted <= c.maxValue
    ensures c.chartWidth == width as real - 2.0 * Padding
    ensures c.chartHeight == height as real - 2.0 * Padding
    ensures |c.gridlines| == 6
    ensures c.gridlines[0].value == c.maxValue && c.gridlines[5].value == 0
    ensures forall i, j | 0 <= i < j < 6 :: c.gridlines[i].value >= c.gridlines[j].value
    ensures c.gridlines[0].y == Padding && c.gridlines[5].y == Padding + c.chartHeight
    ensures c.gridlines == Gridlines(c.maxValue, c.chartHeight)
    ensures |c.bars| == |data|
    ensures forall k | 0 <= k < |data| :: c.bars[k].caption == data[k].caption
    ensures c.maxValue == MaxValue(data) && c == ScaledLayout(width, height, data, c.maxValue)
  {
    ScaledLayout(width, height, data, MaxValue(data))
  }

  /** The layout for a given scale maximum. */
  function ScaledLayout(width: nat, height: nat, data: seq<Bucket>, maxValue: nat): (c: Layout)
    requires |data| > 0 && maxValue >= 1
  {
    var chartWidth := width as real - Padding * 2.0;
    var chartHeight := height as real - Padding * 2.0;
    var barWidth := chartWidth / |data| as real / 2.5;
    Layout(maxValue, chartWidth, chartHeight, barWidth, barWidth * 0.5,
           Gridlines(maxValue, chartHeight), Bars(data, maxValue, chartHeight, barWidth))
  }

  /** Every bar's height is its value's share of `maxValue` of the chart
      height, so when the chart height is not negative every bar fits
      between the baseline and the top gridline. Stated for any scale
      maximum that bounds every value, as `MaxValue(data)`, the one
      `LayOut` uses, does. */
  lemma BarHeightsScale(width: nat, height: nat, data: seq<Bucket>, m: nat, k: nat)
    requires k < |data| && m >= 1
    requires forall b | b in data :: b.newCount <= m && b.converted <= m
    ensures var c := ScaledLayout(width, height, data, m);
            var bar := c.bars[k];
            && bar.newHeight * m as real == data[k].newCount as real * c.chartHeight
            && bar.convertedHeight * m as real == data[k].converted as real * c.chartHeight
            && (c.chartHeight >= 0.0 ==>
                  && 0.0 <= bar.newHeight <= c.chartHeight
                  && 0.0 <= bar.convertedHeight <= c.chartHeight)
  {
    var c := ScaledLayout(width, height, data, m);
    assert data[k] in data;
    BarsScale(data, m, c.chartHeight, c.barWidth, k);
  }

  /** The same for one bar pair of `Bars`. */
  lemma BarsScale(data: seq<Bucket>, m: nat, h: real, bw: real, k: nat)
    requires k < |data| && 1 <= m && data[k].newCount <= m && data[k].converted <= m
    ensures var bar := Bars(data, m, h, bw)[k];
            && bar.newHeight * m as real == data[k].newCount as real * h
            && bar.convertedHeight * m as real == data[k].converted as real * h
            && (h >= 0.0 ==>
                  && 0.0 <= bar.newHeight <= h
                  && 0.0 <= bar.convertedHeight <= h)
  {
    PairFits(data[k], k, m, h, bw);
  }

  /** The same for a single `Pair`. */
  lemma PairFits(b: Bucket, k: nat, m: nat, h: real, bw: real)
    requires 1 <= m && b.newCount <= m && b.converted <= m
    ensures var bar := Pair(b, k, m, h, bw);
            && bar.newHeight * m as real == b.newCount as real * h
            && bar.convertedHeight * m as real == b.converted as real * h
            && (h >= 0.0 ==>
                  && 0.0 <= bar.newHeight <= h
                  && 0.0 <= bar.convertedHeight <= h)
  {
    ScaledFits(b.newCount, m, h);
    ScaledFits(b.converted, m, h);
  }

  /** `chartWidth / n / 2.5` bar widths, 2.5 of them per bucket, fill the
      chart width exactly. */
  lemma SlotWidth(w: real, n: real)
    requires n > 0.0
    ensures (w / n / 2.5) * 2.5 * n == w
    ensures (w / n / 2.5) * 2.5 == w / n
  {
    var slot := w / n;
    assert slot * n == w;
    assert (slot / 2.5) * 2.5 == slot;
  }

  lemma GridValuesDescend(maxValue: nat)
    requires maxValue >= 1
    ensures GridValue(maxValue, 0) == maxValue && GridValue(maxValue, 5) == 0
    ensures forall i, j | 0 <= i < j < 6 :: GridValue(maxValue, i) >= GridValue(maxValue, j)
  {
    var m := maxValue as real;
    var step := m / 5.0;
    assert step * 5.0 == m;
    assert GridValue(maxValue, 0) == Round(m);
    assert GridValue(maxValue, 5) == Round(0.0);
    forall i, j | 0 <= i < j < 6 ensures GridValue(maxValue, i) >= GridValue(maxValue, j) {
      StepsGrow(step, i as real, j as real);
      RoundMonotone(m - step * j as real, m - step * i as real);
    }
  }

  lemma StepsGrow(step: real, a: real, b: real)
    requires step >= 0.0 && a <= b
    ensures step * a <= step * b
  {
    assert step * b - step * a == step * (b - a);
  }

  lemma ScaledFits(v: nat, m: nat, h: real)
    requires 1 <= m && v <= m
    ensures BarHeight(v, m, h) * m as real == v as real * h
    ensures h >= 0.0 ==> 0.0 <= BarHeight(v, m, h) <= h
  {
    var f := v as real / m as real;
    assert f * m as real == v as real;
    assert 0.0 <= f <= 1.0;
    if h >= 0.0 {
      assert f * h <= 1.0 * h;
    }
  }

  /** Bar pairs tile the plot area: pair `k` starts at the `k`-th of `n`
      equal slots and its converted bar ends inside that slot, so no bar
      crosses into the right margin. */
  lemma PairsTileChartWidth(width: nat, height: nat, data: seq<Bucket>, m: nat, k: nat)
    requires k < |data| && m >= 1
    requires width as real >= 2.0 * Padding
    ensures var c := ScaledLayout(width, height, data, m);
            var slot := c.chartWidth / |data| as real;
            && c.bars[k].x == Padding + k as real * slot
            && c.bars[k].x <= c.bars[k].convertedX
            && c.bars[k].convertedX + c.barWidth <= Padding + (k + 1) as real * slot
            && Padding + (k + 1) as real * slot <= width as real - Padding
  {
    var c := ScaledLayout(width, height, data, m);
    var n := |data| as real;
    var w := c.chartWidth;
    SlotWidth(w, n);
    TileSlot(w, n, k, c.barWidth);
  }

  /** Pair `k` of `n` with bar width `w / n / 2.5` sits in slot `k`. */
  lemma TileSlot(w: real, n: real, k: nat, bw: real)
    requires n > 0.0 && w >= 0.0 && k as real + 1.0 <= n
    requires bw == w / n / 2.5 && bw * 2.5 == w / n && (w / n) * n == w
    ensures PairX(bw, k) == Padding + k as real * (w / n)
    ensures bw >= 0.0
    ensures PairX(bw, k) + bw * 1.25 + bw <= Padding + (k + 1) as real * (w / n)
    ensures Padding + (k + 1) as real * (w / n) <= Padding + w
  {
    var slot := w / n;
    assert bw * 2.0 + bw * 0.5 == slot;
    assert slot >= 0.0;
    assert (k + 1) as real * slot <= n * slot;
  }

  /** `renderActivityChart()`: the layout of the activity data on a canvas
      of the given size. */
  function RenderActivityChart(width: nat, height: nat, leads: seq<Leads.Lead>, activityPeriod: string,
                               now: int, cal: Leads.Calendar): (c: Layout)
    ensures |c.bars| == (if activityPeriod == "daily" then 7 else 6)
    ensures c.maxValue >= 1
    ensures forall b | b in GetActivityData(leads, activityPeriod, now, cal) ::
              b.converted <= b.newCount <= c.maxValue
  {
    LayOut(width, height, GetActivityData(leads, activityPeriod, now, cal))
  }
}
