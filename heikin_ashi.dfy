/**
 * Heikin-Ashi candles (`computeHeikinAshi`, Chart.jsx): each output candle averages the input
 * candle's prices for its close and the previous output candle's open and close for its open.
 */
module HeikinAshi {
  import opened Series

  /** One output candle; every price is a number. */
  datatype HaCandle = HaCandle(time: int, open: real, high: real, low: real, close: real)

  /** The recurrence reads all four prices of every candle, so each must be present. */
  predicate HasOhlc(data: seq<Candle>)
  {
    forall k :: 0 <= k < |data| ==>
      data[k].open.Some? && data[k].high.Some? && data[k].low.Some? && data[k].close.Some?
  }

  /** A bar whose open and close lie between its low and its high. */
  predicate Consistent(c: Candle)
    requires c.open.Some? && c.high.Some? && c.low.Some? && c.close.Some?
  {
    c.low.value <= c.open.value <= c.high.value && c.low.value <= c.close.value <= c.high.value
  }

  // ---------------------------------------------------------------------------
  // Specification

  /** `haClose = (open + high + low + close) / 4` */
  function HaClose(data: seq<Candle>, i: int): real
    requires HasOhlc(data) && 0 <= i < |data|
  {
    (data[i].open.value + data[i].high.value + data[i].low.value + data[i].close.value) / 4.0
  }

  /** The open of output candle i: (open + close) / 2 at bar 0, then the mean of the previous output's open and close. */
  function HaOpen(data: seq<Candle>, i: int): real
    requires HasOhlc(data) && 0 <= i < |data|
  {
    if i == 0 then (data[0].open.value + data[0].close.value) / 2.0
    else (HaOpen(data, i - 1) + HaClose(data, i - 1)) / 2.0
  }

  /** Output candle i. */
  function HaAt(data: seq<Candle>, i: int): HaCandle
    requires HasOhlc(data) && 0 <= i < |data|
  {
    var open, close := HaOpen(data, i), HaClose(data, i);
    HaCandle(data[i].time, open, Max(Max(data[i].high.value, open), close), Min(Min(data[i].low.value, open), close), close)
  }

  // ---------------------------------------------------------------------------
  // The computation

  method ComputeHeikinAshi(data: seq<Candle>) returns (ha: seq<HaCandle>)
    requires HasOhlc(data)
    ensures |ha| == |data|
    ensures forall i :: 0 <= i < |data| ==> ha[i] == HaAt(data, i)
  {
    ha := [];
    for i := 0 to |data|
      invariant |ha| == i
      invariant forall k :: 0 <= k < i ==> ha[k] == HaAt(data, k)
    {
      var curr := data[i];
      var haClose := (curr.open.value + curr.high.value + curr.low.value + curr.close.value) / 4.0;
      var haOpen := if i == 0 then (curr.open.value + curr.close.value) / 2.0 else (ha[i - 1].open + ha[i - 1].close) / 2.0;
      var haHigh := Max(Max(curr.high.value, haOpen), haClose);
      var haLow := Min(Min(curr.low.value, haOpen), haClose);
      ha := ha + [HaCandle(curr.time, haOpen, haHigh, haLow, haClose)];
    }
  }

  // ---------------------------------------------------------------------------
  // Properties

  /** Every output candle keeps its input's time and is well formed: low <= open, close <= high. */
  lemma CandleShape(data: seq<Candle>, i: int)
    requires HasOhlc(data) && 0 <= i < |data|
    ensures HaAt(data, i).time == data[i].time
    ensures HaAt(data, i).low <= HaAt(data, i).open <= HaAt(data, i).high
    ensures HaAt(data, i).low <= HaAt(data, i).close <= HaAt(data, i).high
  {
  }

  /** The output range covers the input range: haLow <= low and high <= haHigh. */
  lemma CoversInput(data: seq<Candle>, i: int)
    requires HasOhlc(data) && 0 <= i < |data|
    ensures HaAt(data, i).low <= data[i].low.value
    ensures data[i].high.value <= HaAt(data, i).high
  {
  }

  /** A consistent bar's averaged close lies inside its own range. */
  lemma HaCloseInside(data: seq<Candle>, i: int)
    requires HasOhlc(data) && 0 <= i < |data| && Consistent(data[i])
    ensures data[i].low.value <= HaClose(data, i) <= data[i].high.value
  {
  }

  /**
   * Over consistent bars the open of output candle i never leaves the price range of the bars up
   * to i: it lies between their lowest low and highest high.
   */
  lemma {:induction false} HaOpenInRange(data: seq<Candle>, i: int)
    requires HasOhlc(data) && 0 <= i < |data|
    requires forall k :: 0 <= k <= i ==> Consistent(data[k])
    ensures MinRange(Lows(data), 0, i + 1) <= HaOpen(data, i) <= MaxRange(Highs(data), 0, i + 1)
  {
    var lows, highs := Lows(data), Highs(data);
    if i == 0 {
      assert lows[0] == data[0].low.value && highs[0] == data[0].high.value;
    } else {
      HaOpenInRange(data, i - 1);
      HaCloseInside(data, i - 1);
      MinMaxRangeBound(lows, 0, i, i - 1);
      MinMaxRangeBound(highs, 0, i, i - 1);
      MinMaxRangeSnoc(lows, highs, i);
    }
  }

  /** Extending a window by one bar can only lower its minimum and raise its maximum. */
  lemma {:induction false} MinMaxRangeSnoc(lows: seq<real>, highs: seq<real>, hi: int)
    requires 0 < hi < |lows| && hi < |highs|
    ensures MinRange(lows, 0, hi + 1) <= MinRange(lows, 0, hi)
    ensures MaxRange(highs, 0, hi) <= MaxRange(highs, 0, hi + 1)
  {
    var a := MinRangeAttained(lows, 0, hi);
    var b := MaxRangeAttained(highs, 0, hi);
    MinMaxRangeBound(lows, 0, hi + 1, a);
    MinMaxRangeBound(highs, 0, hi + 1, b);
  }

  /** A flat feed (every price p) gives flat Heikin-Ashi candles at the same price. */
  lemma {:induction false} FlatFeed(data: seq<Candle>, p: real, i: int)
    requires HasOhlc(data) && 0 <= i < |data|
    requires forall k :: 0 <= k < |data| ==>
      data[k].open.value == p && data[k].high.value == p && data[k].low.value == p && data[k].close.value == p
    ensures HaAt(data, i) == HaCandle(data[i].time, p, p, p, p)
  {
    if i > 0 {
      FlatFeed(data, p, i - 1);
    }
  }
}
