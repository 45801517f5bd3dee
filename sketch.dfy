/** The thermostat chart: the sample buffer the page keeps, the two linear
    coordinate mappings, the temperature and time gridlines, and the
    per-sample draw loop that walks the buffer from newest to oldest.

    A redraw is modelled as the sequence of drawing primitives it issues
    (`line`, `point` and `text` calls); background, transforms and fill
    state are canvas plumbing and are not part of it. */
module Sketch {

  /** One thermostat state record as the chart reads it. */
  datatype Sample = Sample(
    time: int,                       // epoch seconds of the indoor reading
    currentTemp: real,
    desiredTemp: real,
    outsideTemp: real,
    outsideTempCollectionTime: int,  // epoch seconds of the outdoor reading
    heaterIsOn: bool)

  /** The canvas size the page gives the sketch. */
  datatype Viewport = Viewport(width: int, height: int)

  /** The stroke colour selected before a primitive is drawn. */
  datatype Pen =
    | GridGrey   // temperature gridlines, stroke(200)
    | TimeGrey   // time gridlines, stroke(128)
    | Blue       // measured temperature
    | Green      // setpoint
    | Amber      // outside temperature, stroke(255, 190, 0)
    | Rust       // heater marker, '#9C2A00'

  /** What a text label shows: a whole number of degrees, or the hour of day
      of a time gridline (kept as the line's epoch time, since the hour
      itself depends on the local time zone). */
  datatype LabelText = Degrees(degrees: int) | HourOf(lineTime: int)

  datatype Prim =
    | Line(x1: real, y1: real, x2: real, y2: real, weight: nat, pen: Pen)
    | Point(x: real, y: real, weight: nat, pen: Pen)
    | Label(text: LabelText, x: real, y: real)

  const YAxisMarginDegrees: real := 1.0
  const ChartYBase: real := 20.0
  const RightMargin: int := 20
  const MinSeed: real := 50.0
  const MaxSeed: real := -50.0
  const FifteenMins: int := 900    // 60 * 15 seconds
  const SixtyMins: int := 3600     // 60 * 60 seconds
  const HeaterMarkY: real := ChartYBase - 6.0

  // ---------------------------------------------------------------------
  // JavaScript arithmetic

  /** JavaScript's `%` on integers: the remainder truncates toward zero, so
      it has the sign of the dividend (Dafny's `%` is Euclidean). */
  function JsRem(a: int, b: int): (r: int)
    requires b > 0
    ensures -b < r < b
    ensures a >= 0 ==> r == a % b
    ensures r == 0 <==> a % b == 0
    ensures a < 0 ==> -b < r <= 0 && (a - r) % b == 0
  {
    if a >= 0 then a % b
    else
      NegatedMultiple(a, b);
      TruncatedRemainder(a, b);
      -((-a) % b)
  }

  /** Subtracting the truncated remainder leaves a multiple of `b`. */
  lemma TruncatedRemainder(a: int, b: int)
    requires b > 0
    ensures (a + (-a) % b) % b == 0
  {
    var q := (-a) / b;
    assert -a == b * q + (-a) % b;
    assert a + (-a) % b == b * (-q);
    MultipleMod(b, -q);
  }

  lemma MultipleMod(b: int, k: int)
    requires b > 0
    ensures (b * k) % b == 0
  {
    var m := b * k;
    assert m == b * (m / b) + m % b;
    assert m % b == b * (k - m / b);
    OnlyZeroMultipleBelow(b, k - m / b);
  }

  /** Negating an integer does not change whether `b` divides it. */
  lemma NegatedMultiple(a: int, b: int)
    requires b > 0
    ensures (-a) % b == 0 <==> a % b == 0
  {
    var q, r := a / b, a % b;
    var q', r' := (-a) / b, (-a) % b;
    assert a == b * q + r && -a == b * q' + r';
    if r == 0 {
      assert r' == b * (-q - q');
      OnlyZeroMultipleBelow(b, -q - q');
    }
    if r' == 0 {
      assert r == b * (-q - q');
      OnlyZeroMultipleBelow(b, -q - q');
    }
  }

  lemma OnlyZeroMultipleBelow(b: int, k: int)
    requires b > 0 && 0 <= b * k < b
    ensures k == 0
  {
  }

  /** Math.ceil on a temperature. */
  function Ceil(r: real): (c: int)
    ensures r <= c as real < r + 1.0
  {
    if r.Floor as real == r then r.Floor else r.Floor + 1
  }

  // ---------------------------------------------------------------------
  // Temperature bounds: a reduce over the buffer with Math.min / Math.max

  /** Whether `t` is one of the three temperatures a sample carries. */
  predicate HasTemp(s: Sample, t: real)
  {
    t == s.currentTemp || t == s.desiredTemp || t == s.outsideTemp
  }

  function Min(a: real, b: real): real { if a <= b then a else b }
  function Max(a: real, b: real): real { if a >= b then a else b }

  /** `recs.reduce((a, c) => Math.min(a, c.current_temp, c.desired_temp, c.outside_temp), acc)`:
      the least of the seed and every temperature in the buffer. */
  function FoldMin(recs: seq<Sample>, acc: real): (m: real)
    ensures m <= acc
    ensures forall i :: 0 <= i < |recs| ==>
      m <= recs[i].currentTemp && m <= recs[i].desiredTemp && m <= recs[i].outsideTemp
    ensures m == acc || exists i :: 0 <= i < |recs| && HasTemp(recs[i], m)
    decreases |recs|
  {
    if recs == [] then acc
    else
      var m := FoldMin(recs[1..], Min(Min(Min(acc, recs[0].currentTemp), recs[0].desiredTemp), recs[0].outsideTemp));
      assert forall i :: 1 <= i < |recs| ==> recs[i] == recs[1..][i - 1];
      m
  }

  /** The same reduce with Math.max: the greatest of the seed and every
      temperature in the buffer. */
  function FoldMax(recs: seq<Sample>, acc: real): (m: real)
    ensures m >= acc
    ensures forall i :: 0 <= i < |recs| ==>
      m >= recs[i].currentTemp && m >= recs[i].desiredTemp && m >= recs[i].outsideTemp
    ensures m == acc || exists i :: 0 <= i < |recs| && HasTemp(recs[i], m)
    decreases |recs|
  {
    if recs == [] then acc
    else
      var m := FoldMax(recs[1..], Max(Max(Max(acc, recs[0].currentTemp), recs[0].desiredTemp), recs[0].outsideTemp));
      assert forall i :: 1 <= i < |recs| ==> recs[i] == recs[1..][i - 1];
      m
  }

  function TempMin(recs: seq<Sample>): real
  {
    FoldMin(recs, MinSeed) - YAxisMarginDegrees
  }

  function TempMax(recs: seq<Sample>): real
  {
    FoldMax(recs, MaxSeed) + YAxisMarginDegrees
  }

  /** For a non-empty buffer every temperature sits at least one degree
      inside [TempMin, TempMax], and the seeds keep the bounds from
      collapsing or straying from [-49, 49]. */
  lemma TempRange(recs: seq<Sample>)
    requires |recs| > 0
    ensures forall i :: 0 <= i < |recs| ==>
      TempMin(recs) <= recs[i].currentTemp - 1.0 && recs[i].currentTemp + 1.0 <= TempMax(recs) &&
      TempMin(recs) <= recs[i].desiredTemp - 1.0 && recs[i].desiredTemp + 1.0 <= TempMax(recs) &&
      TempMin(recs) <= recs[i].outsideTemp - 1.0 && recs[i].outsideTemp + 1.0 <= TempMax(recs)
    ensures TempMin(recs) <= 49.0 && TempMax(recs) >= -49.0
    ensures TempMax(recs) - TempMin(recs) >= 2.0
  {
  }

  // ---------------------------------------------------------------------
  // The two mappings

  /** Everything one redraw's mappings depend on. */
  datatype Axes = Axes(
    tempMin: real,
    tempMax: real,
    timeEnd: int,      // wall-clock seconds at the redraw
    sliceSecs: real,   // seconds per pixel (the zoom)
    width: int,
    height: int)

  /** Both mappings are defined: the temperature domain is not a single
      point and the zoom is not zero. */
  predicate Scaled(ax: Axes)
  {
    ax.tempMin != ax.tempMax && ax.sliceSecs != 0.0
  }

  /** The axes a redraw of a non-empty buffer uses. */
  function AxesFor(recs: seq<Sample>, view: Viewport, now: int, sliceSecs: real): (ax: Axes)
    requires |recs| > 0
    ensures ax.tempMax - ax.tempMin >= 2.0
    ensures sliceSecs != 0.0 ==> Scaled(ax)
  {
    assert FoldMin(recs, MinSeed) <= recs[0].currentTemp <= FoldMax(recs, MaxSeed);
    Axes(TempMin(recs), TempMax(recs), now, sliceSecs, view.width, view.height)
  }

  /** p5's `map`: linear interpolation of [start1, stop1] onto [start2, stop2]. */
  function P5Map(v: real, start1: real, stop1: real, start2: real, stop2: real): real
    requires start1 != stop1
  {
    (v - start1) / (stop1 - start1) * (stop2 - start2) + start2
  }

  function TempToY(ax: Axes, t: real): real
    requires ax.tempMin != ax.tempMax
  {
    P5Map(t, ax.tempMin, ax.tempMax, ChartYBase, ax.height as real)
  }

  function XRight(ax: Axes): real
  {
    (ax.width - RightMargin) as real
  }

  function TimeToX(ax: Axes, time: int): real
    requires ax.sliceSecs != 0.0
  {
    var secondsFromEnd := ax.timeEnd - time;
    var pixelsFromEnd := secondsFromEnd as real / ax.sliceSecs;
    XRight(ax) - pixelsFromEnd
  }

  /** The temperature domain's ends land on the chart base and the top. */
  lemma TempToYEnds(ax: Axes)
    requires ax.tempMin != ax.tempMax
    ensures TempToY(ax, ax.tempMin) == ChartYBase
    ensures TempToY(ax, ax.tempMax) == ax.height as real
  {
  }

  /** On a canvas taller than the chart base, warmer is higher. */
  lemma TempToYIncreasing(ax: Axes, t1: real, t2: real)
    requires ax.tempMin < ax.tempMax && ChartYBase < ax.height as real
    requires t1 < t2
    ensures TempToY(ax, t1) < TempToY(ax, t2)
  {
    var d := ax.tempMax - ax.tempMin;
    var h := ax.height as real - ChartYBase;
    assert (t1 - ax.tempMin) / d < (t2 - ax.tempMin) / d;
    MulMonotone((t1 - ax.tempMin) / d, (t2 - ax.tempMin) / d, h);
  }

  lemma MulMonotone(a: real, b: real, h: real)
    requires a < b && h > 0.0
    ensures a * h < b * h
  {
  }

  /** The current time sits on the right edge. */
  lemma TimeToXRightEdge(ax: Axes)
    requires ax.sliceSecs != 0.0
    ensures TimeToX(ax, ax.timeEnd) == XRight(ax)
  {
  }

  /** Horizontal distance is elapsed time divided by the zoom. */
  lemma TimeToXSpacing(ax: Axes, t1: int, t2: int)
    requires ax.sliceSecs != 0.0
    ensures TimeToX(ax, t2) - TimeToX(ax, t1) == (t2 - t1) as real / ax.sliceSecs
  {
    var s := ax.sliceSecs;
    assert (ax.timeEnd - t1) as real / s - (ax.timeEnd - t2) as real / s == (t2 - t1) as real / s;
  }

  /** With a positive zoom, later is further right. */
  lemma TimeToXIncreasing(ax: Axes, t1: int, t2: int)
    requires ax.sliceSecs > 0.0 && t1 < t2
    ensures TimeToX(ax, t1) < TimeToX(ax, t2)
  {
    TimeToXSpacing(ax, t1, t2);
  }

  /** Multiplying the zoom by `k` divides every horizontal distance by `k`. */
  lemma ZoomScalesDistances(ax: Axes, k: real, t1: int, t2: int)
    requires ax.sliceSecs != 0.0 && k != 0.0
    ensures var zoomed := ax.(sliceSecs := ax.sliceSecs * k);
      TimeToX(zoomed, t2) - TimeToX(zoomed, t1) == (TimeToX(ax, t2) - TimeToX(ax, t1)) / k
  {
    var zoomed := ax.(sliceSecs := ax.sliceSecs * k);
    TimeToXSpacing(ax, t1, t2);
    TimeToXSpacing(zoomed, t1, t2);
    var d := (t2 - t1) as real;
    assert d / (ax.sliceSecs * k) == (d / ax.sliceSecs) / k;
  }

  // ---------------------------------------------------------------------
  // Views of a primitive sequence

  /** The line primitives, in drawing order. */
  function Lines(ps: seq<Prim>): seq<Prim>
  {
    if ps == [] then [] else (if ps[0].Line? then [ps[0]] else []) + Lines(ps[1..])
  }

  /** What the text labels show, in drawing order. */
  function LabelTexts(ps: seq<Prim>): seq<LabelText>
  {
    if ps == [] then [] else (if ps[0].Label? then [ps[0].text] else []) + LabelTexts(ps[1..])
  }

  lemma {:induction false} LinesAppend(a: seq<Prim>, b: seq<Prim>)
    ensures Lines(a + b) == Lines(a) + Lines(b)
  {
    if a == [] {
      assert a + b == b;
    } else {
      var head := if a[0].Line? then [a[0]] else [];
      assert (a + b)[0] == a[0] && (a + b)[1..] == a[1..] + b;
      assert Lines(a + b) == head + Lines(a[1..] + b);
      LinesAppend(a[1..], b);
      assert head + (Lines(a[1..]) + Lines(b)) == (head + Lines(a[1..])) + Lines(b);
    }
  }

  lemma {:induction false} LabelTextsAppend(a: seq<Prim>, b: seq<Prim>)
    ensures LabelTexts(a + b) == LabelTexts(a) + LabelTexts(b)
  {
    if a == [] {
      assert a + b == b;
    } else {
      var head := if a[0].Label? then [a[0].text] else [];
      assert (a + b)[0] == a[0] && (a + b)[1..] == a[1..] + b;
      assert LabelTexts(a + b) == head + LabelTexts(a[1..] + b);
      LabelTextsAppend(a[1..], b);
      assert head + (LabelTexts(a[1..]) + LabelTexts(b)) == (head + LabelTexts(a[1..])) + LabelTexts(b);
    }
  }

  // ---------------------------------------------------------------------
  // Temperature gridlines

  function GridLow(ax: Axes): int { ax.tempMin.Floor }
  function GridHigh(ax: Axes): int { Ceil(ax.tempMax) }

  /** Fewer than five degrees across: every gridline is labelled. */
  predicate SmallRange(ax: Axes)
  {
    GridHigh(ax) - GridLow(ax) < 5
  }

  /** The full-width line drawn for one whole degree. */
  function DegreeLine(ax: Axes, gt: int): Prim
    requires ax.tempMin != ax.tempMax
  {
    var gly := TempToY(ax, gt as real);
    Line(0.0, gly, ax.width as real, gly, 1, GridGrey)
  }

  /** What one pass of the gridline loop draws for degree `gt`. */
  function DegreeGridline(ax: Axes, gt: int): seq<Prim>
    requires ax.tempMin != ax.tempMax
  {
    [DegreeLine(ax, gt)]
    + if SmallRange(ax) || JsRem(gt, 5) == 0
      then [Label(Degrees(gt), (ax.width - 3) as real, -TempToY(ax, gt as real))]
      else []
  }

  /** The gridline loop's output from degree `gt` up to GridHigh. */
  function VertGridFrom(ax: Axes, gt: int): seq<Prim>
    requires ax.tempMin != ax.tempMax
    decreases GridHigh(ax) - gt
  {
    if gt >= GridHigh(ax) then [] else DegreeGridline(ax, gt) + VertGridFrom(ax, gt + 1)
  }

  function VertGrid(ax: Axes): seq<Prim>
    requires ax.tempMin != ax.tempMax
  {
    VertGridFrom(ax, GridLow(ax))
  }

  lemma DegreeGridlineParts(ax: Axes, g: int)
    requires ax.tempMin != ax.tempMax
    ensures Lines(DegreeGridline(ax, g)) == [DegreeLine(ax, g)]
    ensures LabelTexts(DegreeGridline(ax, g)) == if SmallRange(ax) || g % 5 == 0 then [Degrees(g)] else []
  {
    var line := [DegreeLine(ax, g)];
    if SmallRange(ax) || JsRem(g, 5) == 0 {
      var tag := [Label(Degrees(g), (ax.width - 3) as real, -TempToY(ax, g as real))];
      assert DegreeGridline(ax, g) == line + tag;
      LinesAppend(line, tag);
      LabelTextsAppend(line, tag);
    } else {
      assert DegreeGridline(ax, g) == line;
    }
  }

  /** The k-th line the temperature-gridline loop draws from `g` on is the
      one at degree g + k. */
  lemma {:induction false} VertGridLineAt(ax: Axes, g: int, k: nat)
    requires ax.tempMin != ax.tempMax && k < |Lines(VertGridFrom(ax, g))|
    ensures Lines(VertGridFrom(ax, g))[k] == DegreeLine(ax, g + k)
    decreases k
  {
    LinesAppend(DegreeGridline(ax, g), VertGridFrom(ax, g + 1));
    DegreeGridlineParts(ax, g);
    if k > 0 {
      VertGridLineAt(ax, g + 1, k - 1);
    }
  }

  lemma {:induction false} VertGridFromLines(ax: Axes, g: int)
    requires ax.tempMin != ax.tempMax
    ensures |Lines(VertGridFrom(ax, g))| == if g < GridHigh(ax) then GridHigh(ax) - g else 0
    ensures forall k :: 0 <= k < |Lines(VertGridFrom(ax, g))| ==>
      Lines(VertGridFrom(ax, g))[k] == DegreeLine(ax, g + k)
    decreases GridHigh(ax) - g
  {
    if g < GridHigh(ax) {
      VertGridFromLines(ax, g + 1);
      LinesAppend(DegreeGridline(ax, g), VertGridFrom(ax, g + 1));
      DegreeGridlineParts(ax, g);
    }
    forall k | 0 <= k < |Lines(VertGridFrom(ax, g))| {
      VertGridLineAt(ax, g, k);
    }
  }

  lemma {:induction false} VertGridFromLabels(ax: Axes, g: int)
    requires ax.tempMin != ax.tempMax
    ensures forall t :: t in LabelTexts(VertGridFrom(ax, g)) ==> t.Degrees?
    ensures forall v :: Degrees(v) in LabelTexts(VertGridFrom(ax, g)) <==>
      g <= v < GridHigh(ax) && (SmallRange(ax) || v % 5 == 0)
    decreases GridHigh(ax) - g
  {
    if g < GridHigh(ax) {
      VertGridFromLabels(ax, g + 1);
      LabelTextsAppend(DegreeGridline(ax, g), VertGridFrom(ax, g + 1));
      DegreeGridlineParts(ax, g);
    }
  }

  /** Temperature gridlines: one full-width line per whole degree `g` with
      floor(tempMin) <= g < ceil(tempMax), ascending; the labels are exactly
      the degrees of those lines that are multiples of 5, or all of them
      when the range spans fewer than five degrees. */
  lemma VertGridlines(ax: Axes)
    requires ax.tempMin != ax.tempMax
    ensures var lines := Lines(VertGrid(ax));
      |lines| == (if GridLow(ax) < GridHigh(ax) then GridHigh(ax) - GridLow(ax) else 0) &&
      forall k :: 0 <= k < |lines| ==> lines[k] == DegreeLine(ax, GridLow(ax) + k)
    ensures forall t :: t in LabelTexts(VertGrid(ax)) ==> t.Degrees?
    ensures forall v :: Degrees(v) in LabelTexts(VertGrid(ax)) <==>
      GridLow(ax) <= v < GridHigh(ax) && (GridHigh(ax) - GridLow(ax) < 5 || v % 5 == 0)
  {
    VertGridFromLines(ax, GridLow(ax));
    VertGridFromLabels(ax, GridLow(ax));
  }

  /** A domain of [59, 71] gets the twelve lines 59..70 (the loop is
      half-open and starts at floor(tempMin)); only 60, 65 and 70 are
      labelled. */
  lemma VertGridFiftyNineToSeventyOne(ax: Axes)
    requires ax.tempMin == 59.0 && ax.tempMax == 71.0
    ensures |Lines(VertGrid(ax))| == 12
    ensures Lines(VertGrid(ax))[0] == DegreeLine(ax, 59)
    ensures Lines(VertGrid(ax))[11] == DegreeLine(ax, 70)
    ensures forall v :: Degrees(v) in LabelTexts(VertGrid(ax)) <==> v == 60 || v == 65 || v == 70
  {
    assert GridLow(ax) == 59 && GridHigh(ax) == 71;
    VertGridlines(ax);
  }

  // ---------------------------------------------------------------------
  // Time gridlines

  /** `timeStart - timeStart % fifteenMins + fifteenMins` with JavaScript's `%`. */
  function FirstLineTime(timeStart: int): int
  {
    timeStart - JsRem(timeStart, FifteenMins) + FifteenMins
  }

  /** For a non-negative start the first time line is the next quarter hour
      strictly after it. */
  lemma FirstLineTimeIsNextQuarterHour(timeStart: int)
    requires timeStart >= 0
    ensures FirstLineTime(timeStart) % FifteenMins == 0
    ensures timeStart < FirstLineTime(timeStart) <= timeStart + FifteenMins
  {
  }

  /** Before the epoch the truncating `%` makes the first time line skip a
      quarter hour: unless the start is itself on a quarter hour, the
      quarter hour just before the first line is also after the start. */
  lemma FirstLineTimeBeforeEpoch(timeStart: int)
    requires timeStart < 0
    ensures FirstLineTime(timeStart) % FifteenMins == 0
    ensures timeStart % FifteenMins == 0 ==> FirstLineTime(timeStart) == timeStart + FifteenMins
    ensures timeStart % FifteenMins != 0 ==>
      timeStart < FirstLineTime(timeStart) - FifteenMins < timeStart + FifteenMins
  {
    var r := JsRem(timeStart, FifteenMins);
    assert (timeStart - r) % FifteenMins == 0;
    QuarterHourShift(timeStart - r + FifteenMins);
  }

  /** The line one pass of the time-gridline loop draws at `lineTime`. */
  function QuarterHourLine(ax: Axes, lineTime: int, onHour: bool): Prim
    requires ax.sliceSecs != 0.0
  {
    var lineX := TimeToX(ax, lineTime);
    Line(lineX, ChartYBase, lineX, ax.height as real, if onHour then 2 else 1, TimeGrey)
  }

  /** What one pass of the time-gridline loop draws at `lineTime`. */
  function QuarterHourGridline(ax: Axes, lineTime: int): seq<Prim>
    requires ax.sliceSecs != 0.0
  {
    var is60MinMultiple := JsRem(lineTime, SixtyMins) == 0;
    [QuarterHourLine(ax, lineTime, is60MinMultiple)]
    + if is60MinMultiple then [Label(HourOf(lineTime), TimeToX(ax, lineTime), 0.0)] else []
  }

  /** The time-gridline loop's output from `lineTime` on, while before timeEnd. */
  function HorzGridFrom(ax: Axes, lineTime: int): seq<Prim>
    requires ax.sliceSecs != 0.0
    decreases ax.timeEnd - lineTime
  {
    if lineTime >= ax.timeEnd then []
    else QuarterHourGridline(ax, lineTime) + HorzGridFrom(ax, lineTime + FifteenMins)
  }

  function HorzGrid(ax: Axes, timeStart: int): seq<Prim>
    requires ax.sliceSecs != 0.0
  {
    HorzGridFrom(ax, FirstLineTime(timeStart))
  }

  lemma QuarterHourGridlineParts(ax: Axes, lt: int)
    requires ax.sliceSecs != 0.0
    ensures Lines(QuarterHourGridline(ax, lt)) == [QuarterHourLine(ax, lt, lt % SixtyMins == 0)]
    ensures LabelTexts(QuarterHourGridline(ax, lt)) == if lt % SixtyMins == 0 then [HourOf(lt)] else []
  {
    var line := [QuarterHourLine(ax, lt, lt % SixtyMins == 0)];
    if lt % SixtyMins == 0 {
      var tag := [Label(HourOf(lt), TimeToX(ax, lt), 0.0)];
      assert QuarterHourGridline(ax, lt) == line + tag;
      LinesAppend(line, tag);
      LabelTextsAppend(line, tag);
    } else {
      assert QuarterHourGridline(ax, lt) == line;
    }
  }

  /** The k-th line the time-gridline loop draws from `lt` on is the one at
      `lt + k` quarter hours, and that time is before timeEnd. */
  lemma {:induction false} HorzGridLineAt(ax: Axes, lt: int, k: nat)
    requires ax.sliceSecs != 0.0 && k < |Lines(HorzGridFrom(ax, lt))|
    ensures lt + FifteenMins * k < ax.timeEnd
    ensures Lines(HorzGridFrom(ax, lt))[k] ==
      QuarterHourLine(ax, lt + FifteenMins * k, (lt + FifteenMins * k) % SixtyMins == 0)
    decreases k
  {
    LinesAppend(QuarterHourGridline(ax, lt), HorzGridFrom(ax, lt + FifteenMins));
    QuarterHourGridlineParts(ax, lt);
    if k > 0 {
      HorzGridLineAt(ax, lt + FifteenMins, k - 1);
      assert lt + FifteenMins + FifteenMins * (k - 1) == lt + FifteenMins * k;
    }
  }

  lemma {:induction false} HorzGridFromLines(ax: Axes, lt: int)
    requires ax.sliceSecs != 0.0
    ensures forall k :: 0 <= k < |Lines(HorzGridFrom(ax, lt))| ==>
      lt + FifteenMins * k < ax.timeEnd &&
      Lines(HorzGridFrom(ax, lt))[k] ==
        QuarterHourLine(ax, lt + FifteenMins * k, (lt + FifteenMins * k) % SixtyMins == 0)
    ensures lt + FifteenMins * |Lines(HorzGridFrom(ax, lt))| >= ax.timeEnd
    decreases ax.timeEnd - lt
  {
    if lt < ax.timeEnd {
      HorzGridFromLines(ax, lt + FifteenMins);
      LinesAppend(QuarterHourGridline(ax, lt), HorzGridFrom(ax, lt + FifteenMins));
      QuarterHourGridlineParts(ax, lt);
      var rest := Lines(HorzGridFrom(ax, lt + FifteenMins));
      assert |Lines(HorzGridFrom(ax, lt))| == 1 + |rest|;
    }
    forall k | 0 <= k < |Lines(HorzGridFrom(ax, lt))| {
      HorzGridLineAt(ax, lt, k);
    }
  }

  lemma {:induction false} HorzGridFromLabels(ax: Axes, lt: int)
    requires ax.sliceSecs != 0.0
    ensures forall t :: t in LabelTexts(HorzGridFrom(ax, lt)) ==> t.HourOf?
    ensures forall t :: HourOf(t) in LabelTexts(HorzGridFrom(ax, lt)) <==>
      lt <= t < ax.timeEnd && (t - lt) % FifteenMins == 0 && t % SixtyMins == 0
    decreases ax.timeEnd - lt
  {
    if lt < ax.timeEnd {
      HorzGridFromLabels(ax, lt + FifteenMins);
      LabelTextsAppend(QuarterHourGridline(ax, lt), HorzGridFrom(ax, lt + FifteenMins));
      QuarterHourGridlineParts(ax, lt);
      var here := LabelTexts(QuarterHourGridline(ax, lt));
      var later := LabelTexts(HorzGridFrom(ax, lt + FifteenMins));
      assert LabelTexts(HorzGridFrom(ax, lt)) == here + later;
      forall t
        ensures HourOf(t) in LabelTexts(HorzGridFrom(ax, lt)) <==>
          lt <= t < ax.timeEnd && (t - lt) % FifteenMins == 0 && t % SixtyMins == 0
      {
        assert HourOf(t) in here <==> t == lt && lt % SixtyMins == 0;
        QuarterHourShift(t - lt);
      }
    }
  }

  lemma QuarterHourShift(d: int)
    ensures (d - FifteenMins) % FifteenMins == d % FifteenMins
  {
    assert d - FifteenMins == FifteenMins * (d / FifteenMins - 1) + d % FifteenMins;
  }

  lemma HourIsQuarterHour(t: int)
    requires t % SixtyMins == 0
    ensures t % FifteenMins == 0
  {
    var q := t / SixtyMins;
    assert t == 3600 * q;
    var m := 4 * q;
    assert t == 900 * m;
    assert t / 900 == m;
  }

  /** Time gridlines for a non-negative first sample time: lines at the
      quarter hours strictly after timeStart and strictly before timeEnd,
      ascending, each spanning the chart from its base to the top, of weight
      2 on the hour and 1 otherwise; the hour labels are exactly the on-hour
      lines. A short span may have no lines at all. */
  lemma HorzGridlines(ax: Axes, timeStart: int)
    requires ax.sliceSecs != 0.0 && timeStart >= 0
    ensures var first := FirstLineTime(timeStart);
      first % FifteenMins == 0 && timeStart < first <= timeStart + FifteenMins
    ensures var first := FirstLineTime(timeStart);
      var lines := Lines(HorzGrid(ax, timeStart));
      (forall k :: 0 <= k < |lines| ==>
        first + FifteenMins * k < ax.timeEnd &&
        lines[k] == QuarterHourLine(ax, first + FifteenMins * k, (first + FifteenMins * k) % SixtyMins == 0)) &&
      first + FifteenMins * |lines| >= ax.timeEnd
    ensures forall t :: t in LabelTexts(HorzGrid(ax, timeStart)) ==> t.HourOf?
    ensures forall t :: HourOf(t) in LabelTexts(HorzGrid(ax, timeStart)) <==>
      timeStart < t < ax.timeEnd && t % SixtyMins == 0
  {
    var first := FirstLineTime(timeStart);
    FirstLineTimeIsNextQuarterHour(timeStart);
    HorzGridFromLines(ax, first);
    HorzGridFromLabels(ax, first);
    forall t
      ensures HourOf(t) in LabelTexts(HorzGrid(ax, timeStart)) <==>
        timeStart < t < ax.timeEnd && t % SixtyMins == 0
    {
      if t % SixtyMins == 0 {
        HourOnLattice(timeStart, first, t);
      }
    }
  }

  /** An on-the-hour time lies on the quarter-hour lattice that starts at the
      first line time, and it is past timeStart exactly when it is not before
      that first line. */
  lemma HourOnLattice(timeStart: int, first: int, t: int)
    requires first % FifteenMins == 0 && timeStart < first <= timeStart + FifteenMins
    requires t % SixtyMins == 0
    ensures (t - first) % FifteenMins == 0
    ensures first <= t <==> timeStart < t
  {
    HourIsQuarterHour(t);
    var a, b := t / FifteenMins, first / FifteenMins;
    assert t == FifteenMins * a;
    assert first == FifteenMins * b;
    assert t - first == FifteenMins * (a - b);
  }

  lemma ConcatAssoc(a: seq<Prim>, b: seq<Prim>, c: seq<Prim>)
    ensures (a + b) + c == a + (b + c)
  {
  }

  // ---------------------------------------------------------------------
  // The per-sample draw loop

  /** The setpoint is drawn as a held segment back to the older sample. */
  predicate SetpointHeld(recs: seq<Sample>, i: nat)
    requires i < |recs|
  {
    i >= 1 && recs[i - 1].desiredTemp == recs[i].desiredTemp
  }

  /** What one pass of the draw loop issues for sample `i`. */
  function SampleAt(ax: Axes, recs: seq<Sample>, i: nat): seq<Prim>
    requires Scaled(ax) && i < |recs|
  {
    var rec := recs[i];
    var x := TimeToX(ax, rec.time);
    var step :=
      if i >= 1 then
        var prevTempY := TempToY(ax, recs[i - 1].currentTemp);
        [Line(x, prevTempY, TimeToX(ax, recs[i - 1].time), prevTempY, 3, Blue)]
      else [];
    var desiredTempY := TempToY(ax, rec.desiredTemp);
    var setpoint :=
      if SetpointHeld(recs, i) then [Line(x, desiredTempY, TimeToX(ax, recs[i - 1].time), desiredTempY, 3, Green)]
      else [Point(x, desiredTempY, 3, Green)];
    var outside := [Point(TimeToX(ax, rec.outsideTempCollectionTime), TempToY(ax, rec.outsideTemp), 6, Amber)];
    var heater := if rec.heaterIsOn then [Point(x, HeaterMarkY, 3, Rust)] else [];
    step + [Point(x, TempToY(ax, rec.currentTemp), 3, Blue)] + setpoint + outside + heater
  }

  /** The four channels of one sample: a measured-temperature point, with a
      held (step) segment back to the older sample when there is one; a
      setpoint segment back to the older sample exactly when the setpoint is
      unchanged, else a setpoint point; an outside-temperature point at its
      own collection time; and a heater marker exactly when the heater is on. */
  lemma SampleChannels(ax: Axes, recs: seq<Sample>, i: nat)
    requires Scaled(ax) && i < |recs|
    ensures forall p :: p in SampleAt(ax, recs, i) ==> !p.Label?
    ensures Point(TimeToX(ax, recs[i].time), TempToY(ax, recs[i].currentTemp), 3, Blue) in SampleAt(ax, recs, i)
    ensures i >= 1 ==>
      var prevTempY := TempToY(ax, recs[i - 1].currentTemp);
      Line(TimeToX(ax, recs[i].time), prevTempY, TimeToX(ax, recs[i - 1].time), prevTempY, 3, Blue) in SampleAt(ax, recs, i)
    ensures (exists p :: p in SampleAt(ax, recs, i) && p.Line? && p.pen == Blue) <==> i >= 1
    ensures SetpointHeld(recs, i) ==>
      var desiredTempY := TempToY(ax, recs[i].desiredTemp);
      Line(TimeToX(ax, recs[i].time), desiredTempY, TimeToX(ax, recs[i - 1].time), desiredTempY, 3, Green) in SampleAt(ax, recs, i)
    ensures !SetpointHeld(recs, i) ==>
      Point(TimeToX(ax, recs[i].time), TempToY(ax, recs[i].desiredTemp), 3, Green) in SampleAt(ax, recs, i)
    ensures forall p :: p in SampleAt(ax, recs, i) && !p.Label? && p.pen == Green ==> (p.Line? <==> SetpointHeld(recs, i))
    ensures Point(TimeToX(ax, recs[i].outsideTempCollectionTime), TempToY(ax, recs[i].outsideTemp), 6, Amber) in SampleAt(ax, recs, i)
    ensures recs[i].heaterIsOn <==> Point(TimeToX(ax, recs[i].time), HeaterMarkY, 3, Rust) in SampleAt(ax, recs, i)
    ensures |SampleAt(ax, recs, i)| == (if i >= 1 then 1 else 0) + 3 + (if recs[i].heaterIsOn then 1 else 0)
  {
  }

  /** The draw loop's output when it starts at index n - 1: it stops at the
      first sample (going back in time) left of the canvas. */
  function SamplesFrom(ax: Axes, recs: seq<Sample>, n: nat): seq<Prim>
    requires Scaled(ax) && n <= |recs|
  {
    if n == 0 then []
    else if TimeToX(ax, recs[n - 1].time) < 0.0 then []
    else SampleAt(ax, recs, n - 1) + SamplesFrom(ax, recs, n - 1)
  }

  /** The lowest index the loop draws when it starts at index n - 1. */
  function StopIndex(ax: Axes, recs: seq<Sample>, n: nat): nat
    requires ax.sliceSecs != 0.0 && n <= |recs|
  {
    if n == 0 then 0
    else if TimeToX(ax, recs[n - 1].time) < 0.0 then n
    else StopIndex(ax, recs, n - 1)
  }

  /** Samples n - 1 down to c, newest first, with no cut-off. */
  function SamplesBetween(ax: Axes, recs: seq<Sample>, c: nat, n: nat): seq<Prim>
    requires Scaled(ax) && c <= n <= |recs|
    decreases n - c
  {
    if n == c then [] else SampleAt(ax, recs, n - 1) + SamplesBetween(ax, recs, c, n - 1)
  }

  /** The draw loop visits the samples from the newest down and stops at the
      first one whose x is left of the canvas: every visited sample is on
      screen, the one that stopped it is not, and exactly the visited
      samples contribute primitives, newest first. */
  lemma {:induction false} SamplesStopAtLeftEdge(ax: Axes, recs: seq<Sample>, n: nat)
    requires Scaled(ax) && n <= |recs|
    ensures StopIndex(ax, recs, n) <= n
    ensures forall j :: StopIndex(ax, recs, n) <= j < n ==> TimeToX(ax, recs[j].time) >= 0.0
    ensures StopIndex(ax, recs, n) > 0 ==> TimeToX(ax, recs[StopIndex(ax, recs, n) - 1].time) < 0.0
    ensures SamplesFrom(ax, recs, n) == SamplesBetween(ax, recs, StopIndex(ax, recs, n), n)
  {
    if n > 0 && TimeToX(ax, recs[n - 1].time) >= 0.0 {
      SamplesStopAtLeftEdge(ax, recs, n - 1);
    }
  }

  /** Two samples fifteen seconds apart at a zoom of fifteen seconds per
      pixel, drawn at the second one's time: the newer sits on the right
      edge, the older one pixel left of it; both are drawn, newest first;
      the unchanged setpoint is a held segment between them; only the newer
      one, whose heater is on, gets a heater marker. */
  lemma TwoSampleScenario(view: Viewport, outsideTime0: int, outsideTime1: int)
    requires view.width >= 21
    ensures var recs := [Sample(1000, 70.0, 68.0, 50.0, outsideTime0, false),
                         Sample(1015, 69.5, 68.0, 49.0, outsideTime1, true)];
      var ax := AxesFor(recs, view, 1015, 15.0);
      TimeToX(ax, 1015) == XRight(ax) && TimeToX(ax, 1000) == XRight(ax) - 1.0 &&
      SamplesFrom(ax, recs, 2) == SampleAt(ax, recs, 1) + SampleAt(ax, recs, 0) &&
      Line(XRight(ax), TempToY(ax, 68.0), XRight(ax) - 1.0, TempToY(ax, 68.0), 3, Green) in SampleAt(ax, recs, 1) &&
      Point(XRight(ax), HeaterMarkY, 3, Rust) in SampleAt(ax, recs, 1) &&
      forall p :: p in SampleAt(ax, recs, 0) ==> !(p.Point? && p.pen == Rust)
  {
    var recs := [Sample(1000, 70.0, 68.0, 50.0, outsideTime0, false),
                 Sample(1015, 69.5, 68.0, 49.0, outsideTime1, true)];
    var ax := AxesFor(recs, view, 1015, 15.0);
    assert TimeToX(ax, 1000) == XRight(ax) - 1.0 >= 0.0;
    assert SamplesFrom(ax, recs, 1) == SampleAt(ax, recs, 0) + SamplesFrom(ax, recs, 0);
    assert SampleAt(ax, recs, 0) + [] == SampleAt(ax, recs, 0);
    SampleChannels(ax, recs, 1);
  }

  // ---------------------------------------------------------------------
  // A whole redraw

  /** Every primitive one redraw of `recs` issues, in order: temperature
      gridlines, time gridlines, then the samples newest first. An empty
      buffer draws nothing. */
  function Frame(recs: seq<Sample>, view: Viewport, now: int, sliceSecs: real): seq<Prim>
    requires sliceSecs != 0.0
  {
    if |recs| == 0 then []
    else
      var ax := AxesFor(recs, view, now, sliceSecs);
      VertGrid(ax) + HorzGrid(ax, recs[0].time) + SamplesFrom(ax, recs, |recs|)
  }

  /** The p5 sketch: the chart's sample buffer and one redraw of it. */
  class ThermoSketch {
    var stateRecords: seq<Sample>

    constructor ()
      ensures stateRecords == []
    {
      stateRecords := [];
    }

    /** Append one live sample. */
    method AddStateRecord(record: Sample)
      modifies this
      ensures stateRecords == old(stateRecords) + [record]
      ensures |stateRecords| == |old(stateRecords)| + 1
      ensures stateRecords[|stateRecords| - 1] == record
      ensures stateRecords[..|old(stateRecords)|] == old(stateRecords)
    {
      stateRecords := stateRecords + [record];
    }

    /** Replace the whole buffer with a bulk history. */
    method AddAllStateRecords(records: seq<Sample>)
      modifies this
      ensures stateRecords == records
    {
      stateRecords := records;
    }

    /** One redraw at wall-clock second `now` with zoom `sliceSecs`. */
    method Draw(view: Viewport, now: int, sliceSecs: real) returns (prims: seq<Prim>)
      requires sliceSecs != 0.0
      ensures prims == Frame(stateRecords, view, now, sliceSecs)
      ensures stateRecords == [] ==> prims == []
    {
      if |stateRecords| == 0 {
        return [];
      }
      var ax := AxesFor(stateRecords, view, now, sliceSecs);
      var vert := DrawVertGridLines(ax);
      var horz := DrawHorzGridLines(ax, stateRecords[0].time);
      var samples := DrawSamples(ax, stateRecords);
      prims := vert + horz + samples;
    }
  }

  /** The temperature gridline loop. */
  method DrawVertGridLines(ax: Axes) returns (prims: seq<Prim>)
    requires ax.tempMin != ax.tempMax
    ensures prims == VertGrid(ax)
  {
    var gridLow := ax.tempMin.Floor;
    var gridHigh := Ceil(ax.tempMax);
    var smallRange := gridHigh - gridLow < 5;
    prims := [];
    var gt := gridLow;
    while gt < gridHigh
      invariant prims + VertGridFrom(ax, gt) == VertGridFrom(ax, gridLow)
      decreases gridHigh - gt
    {
      ghost var done := prims;
      var gly := TempToY(ax, gt as real);
      prims := prims + [Line(0.0, gly, ax.width as real, gly, 1, GridGrey)];
      if smallRange || JsRem(gt, 5) == 0 {
        prims := prims + [Label(Degrees(gt), (ax.width - 3) as real, -gly)];
      }
      assert prims == done + DegreeGridline(ax, gt);
      ConcatAssoc(done, DegreeGridline(ax, gt), VertGridFrom(ax, gt + 1));
      gt := gt + 1;
    }
  }

  /** The time gridline loop. */
  method DrawHorzGridLines(ax: Axes, timeStart: int) returns (prims: seq<Prim>)
    requires ax.sliceSecs != 0.0
    ensures prims == HorzGrid(ax, timeStart)
  {
    var firstLineTime := timeStart - JsRem(timeStart, FifteenMins) + FifteenMins;
    prims := [];
    var lineTime := firstLineTime;
    while lineTime < ax.timeEnd
      invariant prims + HorzGridFrom(ax, lineTime) == HorzGridFrom(ax, firstLineTime)
      decreases ax.timeEnd - lineTime
    {
      ghost var done := prims;
      var lineX := TimeToX(ax, lineTime);
      var is60MinMultiple := JsRem(lineTime, SixtyMins) == 0;
      prims := prims + [Line(lineX, ChartYBase, lineX, ax.height as real, if is60MinMultiple then 2 else 1, TimeGrey)];
      if is60MinMultiple {
        prims := prims + [Label(HourOf(lineTime), lineX, 0.0)];
      }
      assert prims == done + QuarterHourGridline(ax, lineTime);
      ConcatAssoc(done, QuarterHourGridline(ax, lineTime), HorzGridFrom(ax, lineTime + FifteenMins));
      lineTime := lineTime + FifteenMins;
    }
  }

  /** The sample loop: from the newest sample back, until one is left of the canvas. */
  method DrawSamples(ax: Axes, recs: seq<Sample>) returns (prims: seq<Prim>)
    requires Scaled(ax)
    ensures prims == SamplesFrom(ax, recs, |recs|)
  {
    prims := [];
    var i := |recs| - 1;
    while i >= 0
      invariant -1 <= i < |recs|
      invariant prims + SamplesFrom(ax, recs, i + 1) == SamplesFrom(ax, recs, |recs|)
      decreases i
    {
      var rec := recs[i];
      var x := TimeToX(ax, rec.time);
      if x < 0.0 {
        break;
      }
      var step: seq<Prim> := [];
      if i >= 1 {
        var prevTempY := TempToY(ax, recs[i - 1].currentTemp);
        step := [Line(x, prevTempY, TimeToX(ax, recs[i - 1].time), prevTempY, 3, Blue)];
      }
      var desiredTempY := TempToY(ax, rec.desiredTemp);
      var setpoint: seq<Prim>;
      if i >= 1 && recs[i - 1].desiredTemp == rec.desiredTemp {
        setpoint := [Line(x, desiredTempY, TimeToX(ax, recs[i - 1].time), desiredTempY, 3, Green)];
      } else {
        setpoint := [Point(x, desiredTempY, 3, Green)];
      }
      var outside := [Point(TimeToX(ax, rec.outsideTempCollectionTime), TempToY(ax, rec.outsideTemp), 6, Amber)];
      var heater: seq<Prim> := [];
      if rec.heaterIsOn {
        heater := [Point(x, HeaterMarkY, 3, Rust)];
      }
      var drawn := step + [Point(x, TempToY(ax, rec.currentTemp), 3, Blue)] + setpoint + outside + heater;
      assert drawn == SampleAt(ax, recs, i);
      assert SamplesFrom(ax, recs, i + 1) == drawn + SamplesFrom(ax, recs, i);
      ConcatAssoc(prims, drawn, SamplesFrom(ax, recs, i));
      prims := prims + drawn;
      i := i - 1;
    }
  }
}
