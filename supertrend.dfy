/**
 * SuperTrend (`computeSuperTrend`, supertrend.js): an ATR taken as the plain rolling mean of the
 * true range, basic bands at hl2 ± factor·ATR, final bands that only tighten while price stays
 * inside them, and a trend that flips when the close crosses the previous final band.
 */
module SuperTrend {
  import opened Series

  datatype SuperTrendSettings = SuperTrendSettings(atrLength: int, factor: real)

  /** The per-bar state the source keeps in `finalUpperBand`, `finalLowerBand` and `trend`. */
  datatype BandState = BandState(upper: real, lower: real, trend: int)

  /** One output point `{ time, value, trend }`. */
  datatype TrendPoint = TrendPoint(time: int, value: real, trend: int)

  /** A bar the band pass skips keeps the arrays' fill value 0 in all three. */
  const Unset := BandState(0.0, 0.0, 0)

  // ---------------------------------------------------------------------------
  // Specification

  /** The close the true range of bar i measures against: the previous bar's, or bar 0's own. */
  function PrevClose(data: seq<Candle>, i: int): Option<real>
    requires 0 <= i < |data|
  {
    if i > 0 then data[i - 1].close else data[i].close
  }

  /** The true range of bar i, a gap when its high, low or reference close is missing. */
  function TrueRange(data: seq<Candle>, i: int): Option<real>
    requires 0 <= i < |data|
  {
    var high := data[i].high;
    var low := data[i].low;
    var prevClose := PrevClose(data, i);
    if high.None? || low.None? || prevClose.None? then None
    else Some(Max3(high.value - low.value, Abs(high.value - prevClose.value), Abs(low.value - prevClose.value)))
  }

  function TrueRanges(data: seq<Candle>): (tr: seq<Option<real>>)
    ensures |tr| == |data|
  {
    seq(|data|, i requires 0 <= i < |data| => TrueRange(data, i))
  }

  /**
   * The ATR at bar i: where bar i has a true range and a full window behind it, the sum of the
   * window's true ranges (a missing one adds 0) over the length.
   */
  function AtrAt(tr: seq<Option<real>>, length: int, i: int): Option<real>
    requires length >= 1 && 0 <= i < |tr|
  {
    if tr[i].Some? && i >= length - 1 then Some(SumOpt(tr, i - length + 1, i + 1) / length as real)
    else None
  }

  function AtrLine(tr: seq<Option<real>>, length: int): (atr: seq<Option<real>>)
    requires length >= 1
    ensures |atr| == |tr|
  {
    seq(|tr|, i requires 0 <= i < |tr| => AtrAt(tr, length, i))
  }

  /** `x > y` where a missing x compares false. */
  predicate Above(x: Option<real>, y: real) { x.Some? && x.value > y }

  /** `x < y` where a missing x compares false. */
  predicate Below(x: Option<real>, y: real) { x.Some? && x.value < y }

  function Hl2(c: Candle): real
    requires c.high.Some? && c.low.Some?
  {
    (c.high.value + c.low.value) / 2.0
  }

  /** hl2 + factor·ATR */
  function BasicUpper(c: Candle, atr: real, factor: real): real
    requires c.high.Some? && c.low.Some?
  {
    Hl2(c) + factor * atr
  }

  /** hl2 - factor·ATR */
  function BasicLower(c: Candle, atr: real, factor: real): real
    requires c.high.Some? && c.low.Some?
  {
    Hl2(c) - factor * atr
  }

  /**
   * One bar of the band pass after the first: each final band takes the new basic band when that
   * tightens it or when the previous close broke through it, and otherwise keeps its old value;
   * the trend turns up above the old upper band, down below the old lower band, and otherwise
   * carries on (starting up when there is none yet).
   */
  function Step(prev: BandState, basicUpper: real, basicLower: real, close: Option<real>, prevClose: Option<real>): BandState
  {
    var upper := if basicUpper < prev.upper || Above(prevClose, prev.upper) then basicUpper else prev.upper;
    var lower := if basicLower > prev.lower || Below(prevClose, prev.lower) then basicLower else prev.lower;
    var trend :=
      if Above(close, prev.upper) then 1
      else if Below(close, prev.lower) then -1
      else if prev.trend != 0 then prev.trend
      else 1;
    BandState(upper, lower, trend)
  }

  /** The state of bar i after the band pass. */
  function StateAt(data: seq<Candle>, atr: seq<Option<real>>, factor: real, i: int): BandState
    requires |atr| == |data| && 0 <= i < |data| && HasRange(data, atr)
    decreases i
  {
    if atr[i].None? then Unset
    else
      var basicUpper := BasicUpper(data[i], atr[i].value, factor);
      var basicLower := BasicLower(data[i], atr[i].value, factor);
      if i == 0 then BandState(basicUpper, basicLower, 1)
      else Step(StateAt(data, atr, factor, i - 1), basicUpper, basicLower, data[i].close, data[i - 1].close)
  }

  /** The plotted line: the lower band in an up-trend, the upper band otherwise. */
  function Plot(s: BandState): real
  {
    if s.trend == 1 then s.lower else s.upper
  }

  /** Every bar with an ATR also has a high and a low. */
  predicate HasRange(data: seq<Candle>, atr: seq<Option<real>>)
    requires |atr| == |data|
  {
    forall k :: 0 <= k < |data| && atr[k].Some? ==> data[k].high.Some? && data[k].low.Some?
  }

  /** The points of the first m bars, one per bar with an ATR. */
  function PointsUpTo(data: seq<Candle>, atr: seq<Option<real>>, factor: real, m: int): seq<TrendPoint>
    requires |atr| == |data| && 0 <= m <= |data| && HasRange(data, atr)
  {
    if m == 0 then []
    else
      var s := StateAt(data, atr, factor, m - 1);
      PointsUpTo(data, atr, factor, m - 1)
        + (if atr[m - 1].Some? then [TrendPoint(data[m - 1].time, Plot(s), s.trend)] else [])
  }

  lemma AtrHasRange(data: seq<Candle>, length: int)
    requires length >= 1
    ensures HasRange(data, AtrLine(TrueRanges(data), length))
  {
  }

  /** What `computeSuperTrend(data, { atrLength, factor })` returns. */
  function SuperTrendSeries(data: seq<Candle>, s: SuperTrendSettings): seq<TrendPoint>
    requires s.atrLength >= 1
  {
    if |data| < s.atrLength then []
    else
      var atr := AtrLine(TrueRanges(data), s.atrLength);
      AtrHasRange(data, s.atrLength);
      PointsUpTo(data, atr, s.factor, |data|)
  }

  // ---------------------------------------------------------------------------
  // Properties

  /** True ranges are never negative, so neither is the ATR. */
  lemma AtrNonNegative(data: seq<Candle>, length: int, i: int)
    requires length >= 1 && 0 <= i < |data|
    ensures AtrAt(TrueRanges(data), length, i).Some? ==> AtrAt(TrueRanges(data), length, i).value >= 0.0
  {
    var tr := TrueRanges(data);
    if tr[i].Some? && i >= length - 1 {
      SumOptNonNegative(tr, i - length + 1, i + 1);
    }
  }

  /** A bar has a state (a nonzero trend) exactly when it has an ATR, and its trend is then 1 or -1. */
  lemma {:induction false} TrendValues(data: seq<Candle>, atr: seq<Option<real>>, factor: real, i: int)
    requires |atr| == |data| && 0 <= i < |data| && HasRange(data, atr)
    ensures atr[i].None? ==> StateAt(data, atr, factor, i) == Unset
    ensures atr[i].Some? ==> StateAt(data, atr, factor, i).trend in {1, -1}
    decreases i
  {
    if i > 0 {
      TrendValues(data, atr, factor, i - 1);
    }
  }

  /**
   * The final bands never lie outside the basic bands: the upper band is at most hl2 + factor·ATR
   * and the lower band at least hl2 - factor·ATR.
   */
  lemma FinalInsideBasic(data: seq<Candle>, atr: seq<Option<real>>, factor: real, i: int)
    requires |atr| == |data| && 0 <= i < |data| && HasRange(data, atr) && atr[i].Some?
    ensures StateAt(data, atr, factor, i).upper <= BasicUpper(data[i], atr[i].value, factor)
    ensures StateAt(data, atr, factor, i).lower >= BasicLower(data[i], atr[i].value, factor)
  {
  }

  /**
   * The ratchet: while the previous close stays at or below the previous upper band, the upper
   * band does not rise; while it stays at or above the previous lower band, the lower band does
   * not fall.
   */
  lemma Ratchet(data: seq<Candle>, atr: seq<Option<real>>, factor: real, i: int)
    requires |atr| == |data| && 0 < i < |data| && HasRange(data, atr) && atr[i].Some?
    ensures var prev := StateAt(data, atr, factor, i - 1);
      !Above(data[i - 1].close, prev.upper) ==> StateAt(data, atr, factor, i).upper <= prev.upper
    ensures var prev := StateAt(data, atr, factor, i - 1);
      !Below(data[i - 1].close, prev.lower) ==> StateAt(data, atr, factor, i).lower >= prev.lower
  {
  }

  /**
   * The trend only reverses on a crossing: from up to down when the close falls below the previous
   * lower band, from down to up when it rises above the previous upper band.
   */
  lemma TrendFlips(data: seq<Candle>, atr: seq<Option<real>>, factor: real, i: int)
    requires |atr| == |data| && 0 < i < |data| && HasRange(data, atr) && atr[i].Some?
    ensures var prev := StateAt(data, atr, factor, i - 1); var cur := StateAt(data, atr, factor, i);
      prev.trend == 1 && cur.trend == -1 ==> Below(data[i].close, prev.lower)
    ensures var prev := StateAt(data, atr, factor, i - 1); var cur := StateAt(data, atr, factor, i);
      prev.trend == -1 && cur.trend == 1 ==> Above(data[i].close, prev.upper)
  {
  }

  /** The points are the ATR's non-gap bars, in order, each carrying its bar's time. */
  lemma {:induction false} PointsUpToShape(data: seq<Candle>, atr: seq<Option<real>>, factor: real, m: int)
    requires |atr| == |data| && 0 <= m <= |data| && HasRange(data, atr)
    ensures |PointsUpTo(data, atr, factor, m)| == |CompactUpTo(Times(data), atr, m)|
    ensures forall j :: 0 <= j < |PointsUpTo(data, atr, factor, m)| ==>
      PointsUpTo(data, atr, factor, m)[j].time == CompactUpTo(Times(data), atr, m)[j].time
  {
    if m > 0 {
      PointsUpToShape(data, atr, factor, m - 1);
    }
  }

  /** Every output point is a bar with an ATR, plotting its lower band in an up-trend and its upper band in a down-trend. */
  lemma {:induction false} PointsUpToMembers(data: seq<Candle>, atr: seq<Option<real>>, factor: real, m: int, p: TrendPoint)
    returns (i: int)
    requires |atr| == |data| && 0 <= m <= |data| && HasRange(data, atr)
    requires p in PointsUpTo(data, atr, factor, m)
    ensures 0 <= i < m && atr[i].Some? && p.time == data[i].time
    ensures p.trend == StateAt(data, atr, factor, i).trend && p.trend in {1, -1}
    ensures p.value == (if p.trend == 1 then StateAt(data, atr, factor, i).lower else StateAt(data, atr, factor, i).upper)
  {
    var prefix := PointsUpTo(data, atr, factor, m - 1);
    if p in prefix {
      i := PointsUpToMembers(data, atr, factor, m - 1, p);
    } else {
      i := m - 1;
      TrendValues(data, atr, factor, i);
    }
  }

  /** Every point of the indicator carries a trend of 1 or -1. */
  lemma SuperTrendTrends(data: seq<Candle>, s: SuperTrendSettings, p: TrendPoint)
    requires s.atrLength >= 1 && p in SuperTrendSeries(data, s)
    ensures p.trend in {1, -1}
  {
    AtrHasRange(data, s.atrLength);
    var _ := PointsUpToMembers(data, AtrLine(TrueRanges(data), s.atrLength), s.factor, |data|, p);
  }

  /**
   * On bars whose high, low and close are all present, the indicator has |data| - atrLength + 1
   * points, at the times of data[atrLength-1..].
   */
  lemma CompleteSuperTrendCount(data: seq<Candle>, s: SuperTrendSettings)
    requires s.atrLength >= 1 && |data| >= s.atrLength
    requires forall i :: 0 <= i < |data| ==> data[i].high.Some? && data[i].low.Some? && data[i].close.Some?
    ensures |SuperTrendSeries(data, s)| == |data| - s.atrLength + 1
    ensures forall j :: 0 <= j < |data| - s.atrLength + 1 ==> SuperTrendSeries(data, s)[j].time == data[s.atrLength - 1 + j].time
  {
    var atr := AtrLine(TrueRanges(data), s.atrLength);
    AtrHasRange(data, s.atrLength);
    assert forall i :: 0 <= i < |data| ==> (atr[i].Some? <==> i >= s.atrLength - 1);
    CompactSuffix(Times(data), atr, s.atrLength - 1);
    PointsUpToShape(data, atr, s.factor, |data|);
  }

  // ---------------------------------------------------------------------------
  // The computation, on the source's arrays

  method ComputeSuperTrend(data: seq<Candle>, s: SuperTrendSettings) returns (results: seq<TrendPoint>)
    requires s.atrLength >= 1
    ensures results == SuperTrendSeries(data, s)
  {
    if |data| < s.atrLength {
      return [];
    }
    var n := |data|;
    var atrValues := RollingAtr(data, s.atrLength);
    AtrHasRange(data, s.atrLength);
    var upper, lower, trend, supertrend := BandPass(data, atrValues, s.factor);
    ghost var atr := atrValues[..];

    results := [];
    for i := 0 to n
      invariant results == PointsUpTo(data, atr, s.factor, i)
    {
      if supertrend[i].Some? {
        results := results + [TrendPoint(data[i].time, supertrend[i].value, trend[i])];
      }
    }
  }

  /** The first pass: true ranges and, from bar length-1 on, their rolling mean. */
  method RollingAtr(data: seq<Candle>, length: int) returns (atrValues: array<Option<real>>)
    requires length >= 1
    ensures fresh(atrValues)
    ensures atrValues[..] == AtrLine(TrueRanges(data), length)
  {
    var n := |data|;
    ghost var trs := TrueRanges(data);
    atrValues := new Option<real>[n](_ => None);
    var tr := new Option<real>[n](_ => None);
    for i := 0 to n
      invariant forall k :: 0 <= k < i ==> tr[k] == trs[k]
      invariant forall k :: i <= k < n ==> tr[k] == None
      invariant forall k :: 0 <= k < i ==> atrValues[k] == AtrAt(trs, length, k)
      invariant forall k :: i <= k < n ==> atrValues[k] == None
    {
      var high := data[i].high;
      var low := data[i].low;
      var prevClose := if i > 0 then data[i - 1].close else data[i].close;
      if high.None? || low.None? || prevClose.None? {
        continue;
      }
      tr[i] := Some(Max3(high.value - low.value, Abs(high.value - prevClose.value), Abs(low.value - prevClose.value)));
      if i >= length - 1 {
        var sum := 0.0;
        for j := 0 to length
          invariant sum == SumOpt(trs, i - j + 1, i + 1)
        {
          assert tr[i - j] == trs[i - j];
          sum := sum + tr[i - j].GetOr(0.0);
        }
        atrValues[i] := Some(sum / length as real);
      }
    }
  }

  /** The second pass: final bands, trend and plotted value of every bar with an ATR. */
  method BandPass(data: seq<Candle>, atrValues: array<Option<real>>, factor: real)
    returns (upper: array<real>, lower: array<real>, trend: array<int>, supertrend: array<Option<real>>)
    requires atrValues.Length == |data| && HasRange(data, atrValues[..])
    ensures fresh(upper) && fresh(lower) && fresh(trend) && fresh(supertrend)
    ensures upper.Length == lower.Length == trend.Length == supertrend.Length == |data|
    ensures forall k :: 0 <= k < |data| ==> upper[k] == StateAt(data, atrValues[..], factor, k).upper
    ensures forall k :: 0 <= k < |data| ==> lower[k] == StateAt(data, atrValues[..], factor, k).lower
    ensures forall k :: 0 <= k < |data| ==> trend[k] == StateAt(data, atrValues[..], factor, k).trend
    ensures forall k :: 0 <= k < |data| ==>
      supertrend[k] == if atrValues[k].Some? then Some(Plot(StateAt(data, atrValues[..], factor, k))) else None
  {
    var n := |data|;
    ghost var atr := atrValues[..];
    upper := new real[n](_ => 0.0);
    lower := new real[n](_ => 0.0);
    trend := new int[n](_ => 0);
    supertrend := new Option<real>[n](_ => None);
    for i := 0 to n
      invariant upper != lower
      invariant forall k :: 0 <= k < i ==> upper[k] == StateAt(data, atr, factor, k).upper
      invariant forall k :: 0 <= k < i ==> lower[k] == StateAt(data, atr, factor, k).lower
      invariant forall k :: 0 <= k < i ==> trend[k] == StateAt(data, atr, factor, k).trend
      invariant forall k :: i <= k < n ==> upper[k] == 0.0 && lower[k] == 0.0 && trend[k] == 0
      invariant forall k :: i <= k < n ==> supertrend[k] == None
      invariant atrValues[..] == atr
      invariant forall k :: 0 <= k < i ==>
        supertrend[k] == if atr[k].Some? then Some(Plot(StateAt(data, atr, factor, k))) else None
    {
      UpdateBar(data, atr, atrValues[i], factor, i, upper, lower, trend, supertrend);
    }
  }

  /**
   * The band pass on bar i, given the state of the bar before it: a bar without an ATR is skipped
   * and keeps the fill values.
   */
  method UpdateBar(data: seq<Candle>, ghost atr: seq<Option<real>>, atrValue: Option<real>, factor: real, i: int,
                   upper: array<real>, lower: array<real>, trend: array<int>, supertrend: array<Option<real>>)
    requires |atr| == |data| && HasRange(data, atr) && 0 <= i < |data| && atr[i] == atrValue
    requires upper.Length == lower.Length == trend.Length == supertrend.Length == |data| && upper != lower
    requires i > 0 ==> BandState(upper[i - 1], lower[i - 1], trend[i - 1]) == StateAt(data, atr, factor, i - 1)
    requires upper[i] == 0.0 && lower[i] == 0.0 && trend[i] == 0 && supertrend[i] == None
    modifies upper, lower, trend, supertrend
    ensures BandState(upper[i], lower[i], trend[i]) == StateAt(data, atr, factor, i)
    ensures supertrend[i] == if atrValue.Some? then Some(Plot(StateAt(data, atr, factor, i))) else None
    ensures forall k :: 0 <= k < |data| && k != i ==>
      upper[k] == old(upper[k]) && lower[k] == old(lower[k]) && trend[k] == old(trend[k]) && supertrend[k] == old(supertrend[k])
  {
    if atrValue.None? {
      return;
    }
    var basicUpper := BasicUpper(data[i], atrValue.value, factor);
    var basicLower := BasicLower(data[i], atrValue.value, factor);
    var next: BandState;
    if i > 0 {
      next := Step(BandState(upper[i - 1], lower[i - 1], trend[i - 1]), basicUpper, basicLower,
                   data[i].close, data[i - 1].close);
    } else {
      next := BandState(basicUpper, basicLower, 1);
    }
    upper[i], lower[i], trend[i] := next.upper, next.lower, next.trend;
    supertrend[i] := Some(if next.trend == 1 then next.lower else next.upper);
  }
}
