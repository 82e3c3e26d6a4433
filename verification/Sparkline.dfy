/**
 * src/ui/Sparkline.tsx, sparkPoints: a series scaled into a 64 by 24 box. Numbers are reals, so every
 * known value is finite.
 */
module Sparkline {
  import opened Wrappers

  datatype Known = Known(index: nat, value: real)

  datatype Point = Point(x: real, y: real)

  const WIDTH: real := 64.0

  const HEIGHT: real := 24.0

  const INSET: real := 2.0

  /** `Math.round(v * 100) / 100`: to hundredths, halves upward. */
  function Rounded(v: real): real { (v * 100.0 + 0.5).Floor as real / 100.0 }

  /** The values that were read, with their places. */
  function KnownOf(values: seq<Option<real>>): seq<Known> {
    if values == [] then []
    else
      var before, last := KnownOf(values[..|values| - 1]), values[|values| - 1];
      if last.Some? then before + [Known(|values| - 1, last.value)] else before
  }

  function Least(known: seq<Known>): real
    requires known != []
  {
    var last := known[|known| - 1].value;
    if |known| == 1 then last
    else
      var before := Least(known[..|known| - 1]);
      if last < before then last else before
  }

  function Greatest(known: seq<Known>): real
    requires known != []
  {
    var last := known[|known| - 1].value;
    if |known| == 1 then last
    else
      var before := Greatest(known[..|known| - 1]);
      if last > before then last else before
  }

  /** The range drawn over: the values' own, or the floor's about its middle where that is wider. */
  datatype Range = Range(low: real, high: real) {
    function Span(): real { if high - low == 0.0 then 1.0 else high - low }
  }

  function RangeOf(known: seq<Known>, floor: real): Range
    requires known != []
  {
    var low, high := Least(known), Greatest(known);
    var middle := (high + low) / 2.0;
    if high - low < floor then Range(middle - floor / 2.0, middle + floor / 2.0) else Range(low, high)
  }

  function Step(first: nat, last: nat): real {
    (WIDTH - INSET * 2.0) / (if last == first then 1.0 else (last - first) as real)
  }

  function Across(index: nat, first: nat, last: nat): real { INSET + (index - first) as real * Step(first, last) }

  function Down(value: real, range: Range): real
    requires range.Span() != 0.0
  {
    HEIGHT - INSET - (value - range.low) / range.Span() * (HEIGHT - INSET * 2.0)
  }

  lemma SpanIsNotZero(range: Range)
    ensures range.Span() != 0.0
  {
  }

  function PointOf(k: Known, first: nat, last: nat, range: Range): Point {
    SpanIsNotZero(range);
    Point(Rounded(Across(k.index, first, last)), Rounded(Down(k.value, range)))
  }

  function SparkPoints(values: seq<Option<real>>, floor: real): seq<Point> {
    var known := KnownOf(values);
    if |known| < 2 then []
    else
      var first, last, range := known[0].index, known[|known| - 1].index, RangeOf(known, floor);
      seq(|known|, i requires 0 <= i < |known| => PointOf(known[i], first, last, range))
  }

  // --- Arithmetic ---

  lemma FloorIsMonotone(a: real, b: real)
    requires a <= b
    ensures a.Floor <= b.Floor
  {
  }

  lemma RoundedIsMonotone(a: real, b: real)
    requires a <= b
    ensures Rounded(a) <= Rounded(b)
  {
    var x, y := a * 100.0 + 0.5, b * 100.0 + 0.5;
    FloorIsMonotone(x, y);
    DividedKeepsOrder(x.Floor as real, y.Floor as real, 100.0);
  }

  lemma RoundedIsNear(a: real)
    ensures a - 0.005 < Rounded(a) <= a + 0.005
  {
  }

  lemma EdgesStay()
    ensures Rounded(2.0) == 2.0 && Rounded(22.0) == 22.0 && Rounded(62.0) == 62.0
  {
  }

  lemma DividedKeepsOrder(a: real, b: real, d: real)
    requires a <= b && d > 0.0
    ensures a / d <= b / d
  {
  }

  lemma TimesKeepsOrder(a: real, b: real, n: real)
    requires a <= b && n >= 0.0
    ensures a * n <= b * n
  {
  }

  // --- The known values ---

  lemma {:induction false} KnownInOrder(values: seq<Option<real>>)
    ensures forall i | 0 <= i < |KnownOf(values)| :: KnownOf(values)[i].index < |values|
    ensures forall i, j | 0 <= i < j < |KnownOf(values)| :: KnownOf(values)[i].index < KnownOf(values)[j].index
    ensures forall i | 0 <= i < |KnownOf(values)| :: values[KnownOf(values)[i].index] == Some(KnownOf(values)[i].value)
  {
    if values != [] { KnownInOrder(values[..|values| - 1]); }
  }

  /** No value is passed over. */
  lemma {:induction false} KnownIsAll(values: seq<Option<real>>, index: nat)
    requires index < |values| && values[index].Some?
    ensures Known(index, values[index].value) in KnownOf(values)
  {
    if index < |values| - 1 { KnownIsAll(values[..|values| - 1], index); }
  }

  lemma {:induction false} BetweenExtremes(known: seq<Known>, i: nat)
    requires i < |known|
    ensures Least(known) <= known[i].value <= Greatest(known)
  {
    if i < |known| - 1 { BetweenExtremes(known[..|known| - 1], i); }
    else if |known| > 1 { BetweenExtremes(known[..|known| - 1], 0); }
  }

  /** The extremes are two of the values. */
  lemma {:induction false} ExtremesAreKnown(known: seq<Known>) returns (least: nat, greatest: nat)
    requires known != []
    ensures least < |known| && known[least].value == Least(known)
    ensures greatest < |known| && known[greatest].value == Greatest(known)
  {
    least, greatest := 0, 0;
    if |known| > 1 {
      var before, last := known[..|known| - 1], |known| - 1;
      least, greatest := ExtremesAreKnown(before);
      if known[last].value < Least(before) { least := last; }
      if known[last].value > Greatest(before) { greatest := last; }
    }
  }

  lemma InRange(known: seq<Known>, floor: real, i: nat)
    requires i < |known|
    ensures var range := RangeOf(known, floor);
      range.low <= known[i].value <= range.high && range.low <= range.high && range.Span() > 0.0
  {
    BetweenExtremes(known, i);
  }

  lemma AcrossKeepsOrder(a: nat, b: nat, first: nat, last: nat)
    requires first <= a <= b <= last && first < last
    ensures 2.0 <= Across(a, first, last) <= Across(b, first, last) <= 62.0
    ensures Across(first, first, last) == 2.0 && Across(last, first, last) == 62.0
  {
    var step, n := Step(first, last), (last - first) as real;
    DividedKeepsOrder(0.0, 60.0, n);
    assert n * step == 60.0;
    TimesKeepsOrder(0.0, (a - first) as real, step);
    TimesKeepsOrder((a - first) as real, (b - first) as real, step);
    TimesKeepsOrder((b - first) as real, n, step);
  }

  lemma DownKeepsOrder(v: real, w: real, range: Range)
    requires range.low <= v <= w <= range.high && range.Span() > 0.0
    ensures 2.0 <= Down(w, range) <= Down(v, range) <= 22.0
  {
    var span := range.Span();
    DividedKeepsOrder(0.0, v - range.low, span);
    DividedKeepsOrder(v - range.low, w - range.low, span);
    DividedKeepsOrder(w - range.low, span, span);
    assert span / span == 1.0;
  }

  lemma WholeAndNothing(d: real)
    requires d > 0.0
    ensures d / d == 1.0 && 0.0 / d == 0.0
  {
  }

  lemma DownAtTheEnds(range: Range)
    requires range.low < range.high
    ensures Down(range.low, range) == 22.0 && Down(range.high, range) == 2.0
  {
    WholeAndNothing(range.high - range.low);
  }

  // --- The line ---

  /** One point for each known value, in their order, and none below two of them. */
  lemma PointsAreTheKnown(values: seq<Option<real>>, floor: real)
    ensures |SparkPoints(values, floor)| == if |KnownOf(values)| < 2 then 0 else |KnownOf(values)|
  {
  }

  lemma EndsAndOrder(known: seq<Known>, values: seq<Option<real>>, i: nat)
    requires known == KnownOf(values) && |known| >= 2 && i < |known|
    ensures known[0].index <= known[i].index <= known[|known| - 1].index && known[0].index < known[|known| - 1].index
  {
    KnownInOrder(values);
  }

  /** Every point is inside the box's inset, and the line runs over its whole width. */
  lemma LineFillsTheBox(values: seq<Option<real>>, floor: real, i: nat)
    requires i < |SparkPoints(values, floor)|
    ensures var p := SparkPoints(values, floor);
      2.0 <= p[i].x <= 62.0 && 2.0 <= p[i].y <= 22.0 && p[0].x == 2.0 && p[|p| - 1].x == 62.0
  {
    var known := KnownOf(values);
    var first, last, range := known[0].index, known[|known| - 1].index, RangeOf(known, floor);
    EdgesStay();
    EndsAndOrder(known, values, i);
    AcrossKeepsOrder(known[i].index, known[i].index, first, last);
    RoundedIsMonotone(2.0, Across(known[i].index, first, last));
    RoundedIsMonotone(Across(known[i].index, first, last), 62.0);
    InRange(known, floor, i);
    DownKeepsOrder(known[i].value, known[i].value, range);
    RoundedIsMonotone(2.0, Down(known[i].value, range));
    RoundedIsMonotone(Down(known[i].value, range), 22.0);
  }

  /** Time never runs back, and a larger value is never drawn lower. */
  lemma LineKeepsOrder(values: seq<Option<real>>, floor: real, i: nat, j: nat)
    requires i < |SparkPoints(values, floor)| && j < |SparkPoints(values, floor)|
    ensures i < j ==> SparkPoints(values, floor)[i].x <= SparkPoints(values, floor)[j].x
    ensures KnownOf(values)[i].value <= KnownOf(values)[j].value ==>
      SparkPoints(values, floor)[j].y <= SparkPoints(values, floor)[i].y
  {
    var known := KnownOf(values);
    var first, last, range := known[0].index, known[|known| - 1].index, RangeOf(known, floor);
    if i < j {
      KnownInOrder(values);
      EndsAndOrder(known, values, i);
      EndsAndOrder(known, values, j);
      AcrossKeepsOrder(known[i].index, known[j].index, first, last);
      RoundedIsMonotone(Across(known[i].index, first, last), Across(known[j].index, first, last));
    }
    if known[i].value <= known[j].value {
      InRange(known, floor, i);
      InRange(known, floor, j);
      DownKeepsOrder(known[i].value, known[j].value, range);
      RoundedIsMonotone(Down(known[j].value, range), Down(known[i].value, range));
    }
  }

  lemma AcrossIs(index: nat, first: nat, last: nat)
    requires first < last
    ensures Across(index, first, last) == 2.0 + (index - first) as real * 60.0 / (last - first) as real
  {
    var n := (last - first) as real;
    TimesOverN((index - first) as real, 60.0, n);
  }

  lemma TimesOverN(a: real, b: real, n: real)
    requires n > 0.0
    ensures a * (b / n) == a * b / n
  {
  }

  /** The reads between stand at their own times: as far across the line as their place among all the reads. */
  lemma ReadsAreEvenlySpread(values: seq<Option<real>>, floor: real, i: nat)
    requires i < |SparkPoints(values, floor)|
    ensures var known, p := KnownOf(values), SparkPoints(values, floor);
      var first, last := known[0].index, known[|known| - 1].index;
      && first <= known[i].index <= last && first < last
      && var x := 2.0 + (known[i].index - first) as real * 60.0 / (last - first) as real;
         x - 0.005 < p[i].x <= x + 0.005
  {
    var known := KnownOf(values);
    var first, last := known[0].index, known[|known| - 1].index;
    EndsAndOrder(known, values, i);
    AcrossIs(known[i].index, first, last);
    RoundedIsNear(Across(known[i].index, first, last));
  }

  /** Where the values' own range is wide enough, their extremes touch the top and the bottom. */
  lemma ExtremesTouch(values: seq<Option<real>>, floor: real, i: nat)
    requires i < |SparkPoints(values, floor)|
    requires var known := KnownOf(values); Least(known) < Greatest(known) && Greatest(known) - Least(known) >= floor
    ensures var known, p := KnownOf(values), SparkPoints(values, floor);
      && (known[i].value == Least(known) ==> p[i].y == 22.0)
      && (known[i].value == Greatest(known) ==> p[i].y == 2.0)
  {
    EdgesStay();
    var range := Range(Least(KnownOf(values)), Greatest(KnownOf(values)));
    assert RangeOf(KnownOf(values), floor) == range;
    DownAtTheEnds(range);
  }

  /** Where it is not, the line stays as flat as the floor makes it: a drop in proportion, to the rounding. */
  lemma NarrowLinesStayFlat(values: seq<Option<real>>, floor: real, i: nat, j: nat)
    requires i < |SparkPoints(values, floor)| && j < |SparkPoints(values, floor)|
    requires Greatest(KnownOf(values)) - Least(KnownOf(values)) < floor
    ensures var known, p := KnownOf(values), SparkPoints(values, floor);
      var drop := (known[j].value - known[i].value) / floor * 20.0;
      drop - 0.01 < p[i].y - p[j].y < drop + 0.01
  {
    var known := KnownOf(values);
    var range := RangeOf(known, floor);
    InRange(known, floor, i);
    DropIs(known[i].value, known[j].value, range);
    RoundedDrop(Down(known[i].value, range), Down(known[j].value, range));
  }

  lemma DropIs(v: real, w: real, range: Range)
    requires range.low < range.high
    ensures Down(v, range) - Down(w, range) == (w - v) / (range.high - range.low) * 20.0
  {
    Difference(w - range.low, v - range.low, range.high - range.low);
  }

  lemma RoundedDrop(a: real, b: real)
    ensures a - b - 0.01 < Rounded(a) - Rounded(b) < a - b + 0.01
  {
    RoundedIsNear(a);
    RoundedIsNear(b);
  }

  lemma Difference(a: real, b: real, d: real)
    requires d > 0.0
    ensures (a - b) / d == a / d - b / d
  {
  }
}
