/**
 * Bollinger Bands (`computeBollingerBands`, bollinger.js): the mean of a full window of source
 * values and that mean ± stdDev population standard deviations, shifted by `offset` candles and
 * rounded to `precision` decimals.
 */
module Bollinger {
  import opened Series
  import opened Sources

  /** `precision` is folded into the rounding function passed alongside. */
  datatype BollingerSettings = BollingerSettings(length: int, stdDev: real, source: string, offset: int)

  datatype BandRow = BandRow(basis: real, upper: real, lower: real)

  datatype BollingerResult = BollingerResult(basis: seq<Point>, upper: seq<Point>, lower: seq<Point>)

  /** `data.map(d => getSourceValue(d, source))` with bollinger.js's own, case-insensitive source names. */
  function BollingerSourceValues(data: seq<Candle>, source: string): (sv: seq<Option<real>>)
    ensures |sv| == |data|
  {
    var src := ParseBollingerSource(source);
    seq(|data|, i requires 0 <= i < |data| => CandleValue(data[i], src))
  }

  /** The window the inner loop collects at index i, newest first (gaps read as 0; used only on full windows). */
  function WindowValues(sv: seq<Option<real>>, length: int, i: int): (w: seq<real>)
    requires 0 <= length && 0 <= i - length + 1 && i < |sv|
    ensures |w| == length
  {
    seq(length, j requires 0 <= j < length => sv[i - j].GetOr(0.0))
  }

  /** `w.reduce((acc, v) => acc + (v - mean)², 0)`: the sum of squared deviations, folded from the left. */
  function SquaredDeviations(w: seq<real>, mean: real): real
  {
    if |w| == 0 then 0.0
    else SquaredDeviations(w[..|w| - 1], mean) + (w[|w| - 1] - mean) * (w[|w| - 1] - mean)
  }

  /** The bands of a full window of `length` values with the given sum: mean, then mean ± k·sqrt(population variance). */
  function BandsOf(window: seq<real>, sum: real, length: int, k: real, sqrt: real -> real): BandRow
    requires length >= 1
  {
    var mean := sum / length as real;
    var variance := SquaredDeviations(window, mean) / length as real;
    var std := sqrt(variance);
    BandRow(mean, mean + k * std, mean - k * std)
  }

  /** The bands of the full window ending at index i, before rounding and shifting; a gap otherwise. */
  function RowAt(sv: seq<Option<real>>, length: int, k: real, sqrt: real -> real, i: int): Option<BandRow>
    requires length >= 1 && 0 <= i < |sv|
  {
    if i < length - 1 || !AllSome(sv, i - length + 1, i + 1) then None
    else Some(BandsOf(WindowValues(sv, length, i), SumOpt(sv, i - length + 1, i + 1), length, k, sqrt))
  }

  /** The row of every window end, in index order. */
  function Rows(sv: seq<Option<real>>, length: int, k: real, sqrt: real -> real): (rows: seq<Option<BandRow>>)
    requires length >= 1
    ensures |rows| == |sv|
  {
    seq(|sv|, i requires 0 <= i < |sv| => RowAt(sv, length, k, sqrt, i))
  }

  /** The output after the rows of indices 0..m-1: each present row lands at i + offset when that is a candle. */
  function PlaceRows(data: seq<Candle>, rows: seq<Option<BandRow>>, offset: int, round: real -> real, m: int)
    : BollingerResult
    requires |rows| == |data| && 0 <= m <= |data|
  {
    if m == 0 then BollingerResult([], [], [])
    else
      var r := PlaceRows(data, rows, offset, round, m - 1);
      var t := m - 1 + offset;
      if rows[m - 1].Some? && 0 <= t < |data| then Place(r, data[t].time, rows[m - 1].value, round)
      else r
  }

  /** The output after the windows ending at indices 0..m-1. */
  function CollectUpTo(data: seq<Candle>, sv: seq<Option<real>>, s: BollingerSettings, sqrt: real -> real,
                       round: real -> real, m: int): BollingerResult
    requires s.length >= 1 && |sv| == |data| && 0 <= m <= |data|
  {
    PlaceRows(data, Rows(sv, s.length, s.stdDev, sqrt), s.offset, round, m)
  }

  /** The three pushes of one window's rounded bands at the given time. */
  function Place(r: BollingerResult, time: int, row: BandRow, round: real -> real): BollingerResult
  {
    BollingerResult(r.basis + [Point(time, round(row.basis))],
                    r.upper + [Point(time, round(row.upper))],
                    r.lower + [Point(time, round(row.lower))])
  }

  /** What `computeBollingerBands(data, settings)` returns; `sqrt` is `Math.sqrt`, `round` is `Number(x.toFixed(precision))`. */
  function BollingerSeries(data: seq<Candle>, s: BollingerSettings, sqrt: real -> real, round: real -> real)
    : BollingerResult
    requires s.length >= 1
  {
    if |data| < s.length then BollingerResult([], [], [])
    else CollectUpTo(data, BollingerSourceValues(data, s.source), s, sqrt, round, |data|)
  }

  /** `computeBollingerBands`: per index, the window's bands, placed at i + offset when that is a candle. */
  method ComputeBollingerBands(data: seq<Candle>, s: BollingerSettings, sqrt: real -> real, round: real -> real)
    returns (results: BollingerResult)
    requires s.length >= 1
    ensures results == BollingerSeries(data, s, sqrt, round)
  {
    if |data| < s.length {
      return BollingerResult([], [], []);
    }
    var sourceValues := BollingerSourceValues(data, s.source);
    results := BollingerResult([], [], []);
    for i := 0 to |data|
      invariant results == CollectUpTo(data, sourceValues, s, sqrt, round, i)
    {
      if i < s.length - 1 {
        assert RowAt(sourceValues, s.length, s.stdDev, sqrt, i).None?;
        continue;
      }
      results := PlaceWindow(data, sourceValues, s, sqrt, round, i, results);
    }
  }

  /** One full-length index of the main loop: the window's bands, pushed at i + offset when that is a candle. */
  method PlaceWindow(data: seq<Candle>, sourceValues: seq<Option<real>>, s: BollingerSettings, sqrt: real -> real,
                     round: real -> real, i: int, results: BollingerResult) returns (next: BollingerResult)
    requires s.length >= 1 && |sourceValues| == |data| && s.length - 1 <= i < |data|
    requires results == CollectUpTo(data, sourceValues, s, sqrt, round, i)
    ensures next == CollectUpTo(data, sourceValues, s, sqrt, round, i + 1)
  {
    next := results;
    var row := WindowBands(sourceValues, s.length, s.stdDev, sqrt, i);
    if row.Some? {
      var targetIndex := i + s.offset;
      if targetIndex >= 0 && targetIndex < |data| {
        var time := data[targetIndex].time;
        next := Place(results, time, row.value, round);
      }
    }
  }

  /** The body of the main loop at index i: one backwards pass over the window, then mean, variance and bands. */
  method WindowBands(sourceValues: seq<Option<real>>, length: int, stdDev: real, sqrt: real -> real, i: int)
    returns (row: Option<BandRow>)
    requires length >= 1 && length - 1 <= i < |sourceValues|
    ensures row == RowAt(sourceValues, length, stdDev, sqrt, i)
  {
    var sum := 0.0;
    var validCount := 0;
    var window: seq<real> := [];
    for j := 0 to length
      invariant sum == SumOpt(sourceValues, i - j + 1, i + 1)
      invariant validCount == CountSome(sourceValues, i - j + 1, i + 1)
      invariant validCount <= j
      invariant validCount == j ==> window == WindowValues(sourceValues, j, i)
    {
      CountSomeFull(sourceValues, i - j + 1, i + 1);
      var val := sourceValues[i - j];
      if val.Some? {
        sum := sum + val.value;
        assert WindowValues(sourceValues, j + 1, i) == WindowValues(sourceValues, j, i) + [val.value];
        window := window + [val.value];
        validCount := validCount + 1;
      }
    }
    CountSomeFull(sourceValues, i - length + 1, i + 1);
    if validCount == length {
      row := Some(BandsOf(window, sum, length, stdDev, sqrt));
    } else {
      row := None;
    }
  }

  // ---------------------------------------------------------------------------
  // Properties

  /** The population variance is never negative. */
  lemma {:induction false} SquaredDeviationsNonNegative(w: seq<real>, mean: real)
    ensures SquaredDeviations(w, mean) >= 0.0
    decreases |w|
  {
    if |w| > 0 {
      SquaredDeviationsNonNegative(w[..|w| - 1], mean);
      var d := w[|w| - 1] - mean;
      assert d * d >= 0.0;
    }
  }

  /** The deviations of a window equal to its mean everywhere sum to 0. */
  lemma {:induction false} SquaredDeviationsOfConstant(w: seq<real>, c: real)
    requires forall j :: 0 <= j < |w| ==> w[j] == c
    ensures SquaredDeviations(w, c) == 0.0
    decreases |w|
  {
    if |w| > 0 {
      SquaredDeviationsOfConstant(w[..|w| - 1], c);
    }
  }

  /** The three lines always have the same length and the same time at every position. */
  lemma {:induction false} PlaceRowsAligned(data: seq<Candle>, rows: seq<Option<BandRow>>, offset: int,
                                            round: real -> real, m: int)
    requires |rows| == |data| && 0 <= m <= |data|
    ensures var r := PlaceRows(data, rows, offset, round, m);
      |r.basis| == |r.upper| == |r.lower| &&
      forall j :: 0 <= j < |r.basis| ==> r.basis[j].time == r.upper[j].time == r.lower[j].time
  {
    if m > 0 {
      PlaceRowsAligned(data, rows, offset, round, m - 1);
    }
  }

  lemma BollingerAligned(data: seq<Candle>, s: BollingerSettings, sqrt: real -> real, round: real -> real)
    requires s.length >= 1
    ensures var r := BollingerSeries(data, s, sqrt, round);
      |r.basis| == |r.upper| == |r.lower| &&
      forall j :: 0 <= j < |r.basis| ==> r.basis[j].time == r.upper[j].time == r.lower[j].time
  {
    if |data| >= s.length {
      var sv := BollingerSourceValues(data, s.source);
      PlaceRowsAligned(data, Rows(sv, s.length, s.stdDev, sqrt), s.offset, round, |data|);
    }
  }

  /** A rounding that never reverses the order of two values. */
  ghost predicate MonotoneRounding(round: real -> real)
  {
    forall x, y :: x <= y ==> round(x) <= round(y)
  }

  /** A square root that is non-negative on non-negative arguments. */
  ghost predicate NonNegativeRoot(sqrt: real -> real)
  {
    forall x :: x >= 0.0 ==> sqrt(x) >= 0.0
  }

  lemma RowOrdered(sv: seq<Option<real>>, length: int, k: real, sqrt: real -> real, i: int)
    requires length >= 1 && 0 <= i < |sv|
    requires k >= 0.0 && NonNegativeRoot(sqrt)
    requires RowAt(sv, length, k, sqrt, i).Some?
    ensures var row := RowAt(sv, length, k, sqrt, i).value; row.lower <= row.basis <= row.upper
  {
    var mean := SumOpt(sv, i - length + 1, i + 1) / length as real;
    var w := WindowValues(sv, length, i);
    SquaredDeviationsNonNegative(w, mean);
    var std := sqrt(SquaredDeviations(w, mean) / length as real);
    assert std >= 0.0;
    assert k * std >= 0.0;
  }

  /** Every present row has lower <= basis <= upper. */
  ghost predicate RowsOrdered(rows: seq<Option<BandRow>>)
  {
    forall i :: 0 <= i < |rows| && rows[i].Some? ==> rows[i].value.lower <= rows[i].value.basis <= rows[i].value.upper
  }

  lemma {:induction false} PlaceRowsOrdered(data: seq<Candle>, rows: seq<Option<BandRow>>, offset: int,
                                            round: real -> real, m: int)
    requires |rows| == |data| && 0 <= m <= |data|
    requires RowsOrdered(rows) && MonotoneRounding(round)
    ensures var r := PlaceRows(data, rows, offset, round, m);
      |r.basis| == |r.upper| == |r.lower| &&
      forall j :: 0 <= j < |r.basis| ==> r.lower[j].value <= r.basis[j].value <= r.upper[j].value
  {
    if m > 0 {
      PlaceRowsOrdered(data, rows, offset, round, m - 1);
      var row := rows[m - 1];
      if row.Some? {
        assert round(row.value.lower) <= round(row.value.basis) <= round(row.value.upper);
      }
    }
  }

  /**
   * With a non-negative multiplier, a non-negative square root and a monotone rounding, the lower
   * band never exceeds the basis and the basis never exceeds the upper band.
   */
  lemma BollingerOrdered(data: seq<Candle>, s: BollingerSettings, sqrt: real -> real, round: real -> real)
    requires s.length >= 1 && s.stdDev >= 0.0 && NonNegativeRoot(sqrt) && MonotoneRounding(round)
    ensures var r := BollingerSeries(data, s, sqrt, round);
      |r.basis| == |r.upper| == |r.lower| &&
      forall j :: 0 <= j < |r.basis| ==> r.lower[j].value <= r.basis[j].value <= r.upper[j].value
  {
    if |data| >= s.length {
      var sv := BollingerSourceValues(data, s.source);
      var rows := Rows(sv, s.length, s.stdDev, sqrt);
      forall i | 0 <= i < |rows| && rows[i].Some?
        ensures rows[i].value.lower <= rows[i].value.basis <= rows[i].value.upper
      {
        RowOrdered(sv, s.length, s.stdDev, sqrt, i);
      }
      PlaceRowsOrdered(data, rows, s.offset, round, |data|);
    }
  }

  /**
   * The candle each output point is placed at: `targets[j]` is a valid index, below m + offset,
   * the targets strictly increase, and point j carries that candle's time.
   */
  lemma {:induction false} PlaceRowsTargets(data: seq<Candle>, rows: seq<Option<BandRow>>, offset: int,
                                            round: real -> real, m: int)
    returns (targets: seq<int>)
    requires |rows| == |data| && 0 <= m <= |data|
    ensures var r := PlaceRows(data, rows, offset, round, m);
      |targets| == |r.basis| &&
      (forall j :: 0 <= j < |targets| ==> 0 <= targets[j] < |data| && targets[j] < m + offset &&
                                          r.basis[j].time == data[targets[j]].time) &&
      (forall j1, j2 :: 0 <= j1 < j2 < |targets| ==> targets[j1] < targets[j2])
  {
    if m == 0 {
      targets := [];
    } else {
      targets := PlaceRowsTargets(data, rows, offset, round, m - 1);
      var t := m - 1 + offset;
      if rows[m - 1].Some? && 0 <= t < |data| {
        targets := targets + [t];
      }
    }
  }

  /** On an ascending feed the output times strictly increase, whatever the offset. */
  lemma BollingerTimesIncrease(data: seq<Candle>, s: BollingerSettings, sqrt: real -> real, round: real -> real)
    requires s.length >= 1 && Ascending(data)
    ensures IncreasingTimes(BollingerSeries(data, s, sqrt, round).basis)
  {
    if |data| >= s.length {
      var rows := Rows(BollingerSourceValues(data, s.source), s.length, s.stdDev, sqrt);
      var targets := PlaceRowsTargets(data, rows, s.offset, round, |data|);
    }
  }

  /** Every placed point is the rounded basis of a present row i, at the time of candle i + offset. */
  lemma {:induction false} PlaceRowsMembers(data: seq<Candle>, rows: seq<Option<BandRow>>, offset: int,
                                            round: real -> real, m: int, j: int)
    returns (i: int)
    requires |rows| == |data| && 0 <= m <= |data|
    requires 0 <= j < |PlaceRows(data, rows, offset, round, m).basis|
    ensures 0 <= i < m && 0 <= i + offset < |data| && rows[i].Some?
    ensures PlaceRows(data, rows, offset, round, m).basis[j] == Point(data[i + offset].time, round(rows[i].value.basis))
  {
    var r := PlaceRows(data, rows, offset, round, m - 1);
    if j < |r.basis| {
      i := PlaceRowsMembers(data, rows, offset, round, m - 1, j);
    } else {
      i := m - 1;
    }
  }

  /** Every output basis point is the rounded mean of a full window, placed offset candles after the window's end. */
  lemma CollectMembers(data: seq<Candle>, sv: seq<Option<real>>, s: BollingerSettings,
                       sqrt: real -> real, round: real -> real, m: int, j: int)
    returns (i: int)
    requires s.length >= 1 && |sv| == |data| && 0 <= m <= |data|
    requires 0 <= j < |CollectUpTo(data, sv, s, sqrt, round, m).basis|
    ensures 0 <= i < m && 0 <= i + s.offset < |data|
    ensures RowAt(sv, s.length, s.stdDev, sqrt, i).Some?
    ensures CollectUpTo(data, sv, s, sqrt, round, m).basis[j] ==
      Point(data[i + s.offset].time, round(RowAt(sv, s.length, s.stdDev, sqrt, i).value.basis))
  {
    var rows := Rows(sv, s.length, s.stdDev, sqrt);
    i := PlaceRowsMembers(data, rows, s.offset, round, m, j);
    assert rows[i] == RowAt(sv, s.length, s.stdDev, sqrt, i);
  }

  /** Rows present exactly from index length-1 on, as on a gap-free source. */
  ghost predicate RowsFrom(rows: seq<Option<BandRow>>, length: int)
  {
    forall i :: 0 <= i < |rows| ==> (rows[i].Some? <==> i >= length - 1)
  }

  /** A gap-free source has a row at every index from length-1 on. */
  lemma CompleteRows(sv: seq<Option<real>>, length: int, k: real, sqrt: real -> real)
    requires length >= 1 && forall i :: 0 <= i < |sv| ==> sv[i].Some?
    ensures RowsFrom(Rows(sv, length, k, sqrt), length)
  {
    var rows := Rows(sv, length, k, sqrt);
    forall i | 0 <= i < |rows|
      ensures rows[i].Some? <==> i >= length - 1
    {
      if i >= length - 1 {
        assert AllSome(sv, i - length + 1, i + 1);
      }
    }
  }

  /**
   * The number of points when rows start at length-1: one per window end i >= length-1
   * whose shifted index i + offset is a candle.
   */
  lemma {:induction false} PlaceRowsCount(data: seq<Candle>, rows: seq<Option<BandRow>>, offset: int,
                                          round: real -> real, length: int, m: int)
    requires length >= 1 && |rows| == |data| && 0 <= m <= |data| && RowsFrom(rows, length)
    ensures var lo := if length - 1 >= -offset then length - 1 else -offset;
      var hi := if |data| <= |data| - offset then |data| else |data| - offset;
      var top := if m <= hi then m else hi;
      |PlaceRows(data, rows, offset, round, m).basis| == if top <= lo then 0 else top - lo
  {
    if m > 0 {
      PlaceRowsCount(data, rows, offset, round, length, m - 1);
      assert rows[m - 1].Some? <==> m - 1 >= length - 1;
    }
  }

  /** With rows from length-1 on and no offset, point j is the row of index length-1+j, at that bar's time. */
  lemma {:induction false} PlaceRowsCompleteTimes(data: seq<Candle>, rows: seq<Option<BandRow>>,
                                                  round: real -> real, length: int, m: int)
    requires length >= 1 && |rows| == |data| && 0 <= m <= |data| && RowsFrom(rows, length)
    ensures |PlaceRows(data, rows, 0, round, m).basis| == if m < length then 0 else m - length + 1
    ensures forall j :: 0 <= j < |PlaceRows(data, rows, 0, round, m).basis| ==>
      PlaceRows(data, rows, 0, round, m).basis[j].time == data[length - 1 + j].time
  {
    if m > 0 {
      PlaceRowsCompleteTimes(data, rows, round, length, m - 1);
      var r := PlaceRows(data, rows, 0, round, m - 1);
      if m - 1 >= length - 1 {
        assert rows[m - 1].Some?;
        var p := Point(data[m - 1].time, round(rows[m - 1].value.basis));
        assert PlaceRows(data, rows, 0, round, m).basis == r.basis + [p];
      }
    }
  }

  /** On a gap-free source the rows run from index length-1 on. */
  lemma CompleteSourceRows(data: seq<Candle>, s: BollingerSettings, sqrt: real -> real)
    requires s.length >= 1
    requires forall i :: 0 <= i < |data| ==> CandleValue(data[i], ParseBollingerSource(s.source)).Some?
    ensures RowsFrom(Rows(BollingerSourceValues(data, s.source), s.length, s.stdDev, sqrt), s.length)
  {
    var sv := BollingerSourceValues(data, s.source);
    assert forall i :: 0 <= i < |sv| ==> sv[i].Some?;
    CompleteRows(sv, s.length, s.stdDev, sqrt);
  }

  /**
   * With complete source values and no offset there is one point per full window: n - length + 1
   * points, point j at the time of bar length-1+j.
   */
  lemma BollingerCompleteCount(data: seq<Candle>, s: BollingerSettings, sqrt: real -> real, round: real -> real)
    requires s.length >= 1 && s.offset == 0 && |data| >= s.length
    requires forall i :: 0 <= i < |data| ==> CandleValue(data[i], ParseBollingerSource(s.source)).Some?
    ensures |BollingerSeries(data, s, sqrt, round).basis| == |data| - s.length + 1
    ensures forall j :: 0 <= j < |data| - s.length + 1 ==>
      BollingerSeries(data, s, sqrt, round).basis[j].time == data[s.length - 1 + j].time
  {
    var rows := Rows(BollingerSourceValues(data, s.source), s.length, s.stdDev, sqrt);
    CompleteSourceRows(data, s, sqrt);
    PlaceRowsCompleteTimes(data, rows, round, s.length, |data|);
  }

  /**
   * With complete source values and any offset there is one point per window end i >= length-1
   * whose shifted index i + offset is a candle; windows shifted off either end are dropped.
   */
  lemma BollingerShiftedCount(data: seq<Candle>, s: BollingerSettings, sqrt: real -> real, round: real -> real)
    requires s.length >= 1 && |data| >= s.length
    requires forall i :: 0 <= i < |data| ==> CandleValue(data[i], ParseBollingerSource(s.source)).Some?
    ensures var lo := if s.length - 1 >= -s.offset then s.length - 1 else -s.offset;
      var hi := if |data| <= |data| - s.offset then |data| else |data| - s.offset;
      |BollingerSeries(data, s, sqrt, round).basis| == if hi <= lo then 0 else hi - lo
  {
    var rows := Rows(BollingerSourceValues(data, s.source), s.length, s.stdDev, sqrt);
    CompleteSourceRows(data, s, sqrt);
    PlaceRowsCount(data, rows, s.offset, round, s.length, |data|);
  }

  /** A window of one repeated value c has zero deviation: its three bands all collapse onto c. */
  lemma FlatWindowCollapses(sv: seq<Option<real>>, length: int, k: real, sqrt: real -> real, i: int, c: real)
    requires length >= 1 && length - 1 <= i < |sv|
    requires forall j :: i - length + 1 <= j <= i ==> sv[j] == Some(c)
    requires sqrt(0.0) == 0.0
    ensures RowAt(sv, length, k, sqrt, i) == Some(BandRow(c, c, c))
  {
    SumOptConstant(sv, i - length + 1, i + 1, c);
    var n := length as real;
    assert SumOpt(sv, i - length + 1, i + 1) == n * c;
    CancelFactor(n, c);
    SquaredDeviationsOfConstant(WindowValues(sv, length, i), c);
  }
}
