/**
 * Ichimoku Cloud (`computeIchimoku`, ichimoku.js): rolling high/low midpoints (tenkan, kijun),
 * two leading spans shifted forward by the base length, and the lagging close read from the future.
 */
module Ichimoku {
  import opened Series

  datatype IchimokuSettings = IchimokuSettings(conversionLength: int, baseLength: int, spanBLength: int, laggingLength: int)

  /** The five filtered lines of the result object. */
  datatype IchimokuResult = IchimokuResult(tenkan: seq<Point>, kijun: seq<Point>, spanA: seq<Point>,
                                           spanB: seq<Point>, chikou: seq<Point>)

  /** Window lengths are at least one bar; the lagging shift is not negative. */
  predicate ValidSettings(s: IchimokuSettings)
  {
    s.conversionLength >= 1 && s.baseLength >= 1 && s.spanBLength >= 1 && s.laggingLength >= 0
  }

  /** The midpoints read every bar's high and low, so every bar must have both. */
  predicate HasHighLow(data: seq<Candle>)
  {
    forall k :: 0 <= k < |data| ==> data[k].high.Some? && data[k].low.Some?
  }

  // ---------------------------------------------------------------------------
  // Specification

  /**
   * `getRollingHL2`: no value before a full window, otherwise the midpoint of the highest high and
   * the lowest low of the `length` bars ending at `index`.
   */
  function RollingHL2(data: seq<Candle>, length: int, index: int): Option<real>
    requires length >= 1 && 0 <= index < |data|
  {
    if index < length - 1 then None
    else Some((MaxRange(Highs(data), index - length + 1, index + 1) + MinRange(Lows(data), index - length + 1, index + 1)) / 2.0)
  }

  function MidpointLine(data: seq<Candle>, length: int): (line: seq<Option<real>>)
    requires length >= 1
    ensures |line| == |data|
  {
    seq(|data|, i requires 0 <= i < |data| => RollingHL2(data, length, i))
  }

  /** Leading span A at i: the average of tenkan and kijun at i - baseLength, where both exist. */
  function SpanAAt(data: seq<Candle>, s: IchimokuSettings, i: int): Option<real>
    requires ValidSettings(s) && 0 <= i < |data|
  {
    if i < s.baseLength then None
    else
      var conv := RollingHL2(data, s.conversionLength, i - s.baseLength);
      var base := RollingHL2(data, s.baseLength, i - s.baseLength);
      if conv.Some? && base.Some? then Some((conv.value + base.value) / 2.0) else None
  }

  /** Leading span B at i: the spanBLength midpoint at i - baseLength. */
  function SpanBAt(data: seq<Candle>, s: IchimokuSettings, i: int): Option<real>
    requires ValidSettings(s) && 0 <= i < |data|
  {
    if i < s.baseLength then None else RollingHL2(data, s.spanBLength, i - s.baseLength)
  }

  /** The lagging span at i: the close laggingLength bars later, while there is one. */
  function LaggingAt(data: seq<Candle>, s: IchimokuSettings, i: int): Option<real>
    requires ValidSettings(s) && 0 <= i < |data|
  {
    if i < |data| - s.laggingLength then data[i + s.laggingLength].close else None
  }

  function SpanALine(data: seq<Candle>, s: IchimokuSettings): (line: seq<Option<real>>)
    requires ValidSettings(s)
    ensures |line| == |data|
  {
    seq(|data|, i requires 0 <= i < |data| => SpanAAt(data, s, i))
  }

  function SpanBLine(data: seq<Candle>, s: IchimokuSettings): (line: seq<Option<real>>)
    requires ValidSettings(s)
    ensures |line| == |data|
  {
    seq(|data|, i requires 0 <= i < |data| => SpanBAt(data, s, i))
  }

  function LaggingLine(data: seq<Candle>, s: IchimokuSettings): (line: seq<Option<real>>)
    requires ValidSettings(s)
    ensures |line| == |data|
  {
    seq(|data|, i requires 0 <= i < |data| => LaggingAt(data, s, i))
  }

  /** What `computeIchimoku(data, settings)` returns. */
  function IchimokuSeries(data: seq<Candle>, s: IchimokuSettings): IchimokuResult
    requires ValidSettings(s)
  {
    var ts := Times(data);
    IchimokuResult(Compact(ts, MidpointLine(data, s.conversionLength)), Compact(ts, MidpointLine(data, s.baseLength)),
                   Compact(ts, SpanALine(data, s)), Compact(ts, SpanBLine(data, s)), Compact(ts, LaggingLine(data, s)))
  }

  // ---------------------------------------------------------------------------
  // The computation, on the source's arrays

  method ComputeIchimoku(data: seq<Candle>, s: IchimokuSettings) returns (r: IchimokuResult)
    requires ValidSettings(s) && HasHighLow(data)
    ensures r == IchimokuSeries(data, s)
  {
    var conversionLine, baseLine := MidpointLines(data, s.conversionLength, s.baseLength);
    var leadingSpanA, leadingSpanB := LeadingSpans(data, s, conversionLine, baseLine);
    var laggingSpan := LaggingSpan(data, s);
    var ts := Times(data);
    r := IchimokuResult(Compact(ts, conversionLine[..]), Compact(ts, baseLine[..]), Compact(ts, leadingSpanA[..]),
                        Compact(ts, leadingSpanB[..]), Compact(ts, laggingSpan[..]));
  }

  /** `getRollingHL2` with its running maximum and minimum. */
  method GetRollingHL2(data: seq<Candle>, length: int, index: int) returns (r: Option<real>)
    requires length >= 1 && 0 <= index < |data| && HasHighLow(data)
    ensures r == RollingHL2(data, length, index)
  {
    if index < length - 1 {
      return None;
    }
    ghost var highs, lows := Highs(data), Lows(data);
    // the first bar read replaces the source's -Infinity / Infinity starting values
    var max := 0.0;
    var min := 0.0;
    for j := 0 to length
      invariant j >= 1 ==> max == MaxRange(highs, index - j + 1, index + 1)
      invariant j >= 1 ==> min == MinRange(lows, index - j + 1, index + 1)
    {
      var val := data[index - j];
      if j == 0 || val.high.value > max {
        max := val.high.value;
      }
      if j == 0 || val.low.value < min {
        min := val.low.value;
      }
    }
    return Some((max + min) / 2.0);
  }

  /** The first loop: tenkan and kijun at every bar. */
  method MidpointLines(data: seq<Candle>, conversionLength: int, baseLength: int)
    returns (conversionLine: array<Option<real>>, baseLine: array<Option<real>>)
    requires conversionLength >= 1 && baseLength >= 1 && HasHighLow(data)
    ensures fresh(conversionLine) && fresh(baseLine)
    ensures conversionLine[..] == MidpointLine(data, conversionLength)
    ensures baseLine[..] == MidpointLine(data, baseLength)
  {
    var n := |data|;
    conversionLine := new Option<real>[n](_ => None);
    baseLine := new Option<real>[n](_ => None);
    for i := 0 to n
      invariant forall k :: 0 <= k < i ==> conversionLine[k] == RollingHL2(data, conversionLength, k)
      invariant forall k :: 0 <= k < i ==> baseLine[k] == RollingHL2(data, baseLength, k)
    {
      conversionLine[i] := GetRollingHL2(data, conversionLength, i);
      baseLine[i] := GetRollingHL2(data, baseLength, i);
    }
  }

  /** The second loop: both leading spans, read baseLength bars back. */
  method LeadingSpans(data: seq<Candle>, s: IchimokuSettings, conversionLine: array<Option<real>>, baseLine: array<Option<real>>)
    returns (leadingSpanA: array<Option<real>>, leadingSpanB: array<Option<real>>)
    requires ValidSettings(s) && HasHighLow(data)
    requires conversionLine[..] == MidpointLine(data, s.conversionLength)
    requires baseLine[..] == MidpointLine(data, s.baseLength)
    ensures fresh(leadingSpanA) && fresh(leadingSpanB)
    ensures leadingSpanA[..] == SpanALine(data, s) && leadingSpanB[..] == SpanBLine(data, s)
  {
    var n := |data|;
    leadingSpanA := new Option<real>[n](_ => None);
    leadingSpanB := new Option<real>[n](_ => None);
    for i := 0 to n
      invariant forall k :: 0 <= k < i ==> leadingSpanA[k] == SpanAAt(data, s, k)
      invariant forall k :: 0 <= k < i ==> leadingSpanB[k] == SpanBAt(data, s, k)
      invariant forall k :: i <= k < n ==> leadingSpanA[k] == None && leadingSpanB[k] == None
    {
      var spanA, spanB := SpansAt(data, s, conversionLine, baseLine, i);
      if spanA.Some? {
        leadingSpanA[i] := spanA;
      }
      if spanB.Some? {
        leadingSpanB[i] := spanB;
      }
    }
  }

  /** One iteration of the second loop: both spans at bar i, from the lines baseLength bars back. */
  method SpansAt(data: seq<Candle>, s: IchimokuSettings, conversionLine: array<Option<real>>, baseLine: array<Option<real>>,
                 i: int)
    returns (spanA: Option<real>, spanB: Option<real>)
    requires ValidSettings(s) && HasHighLow(data) && 0 <= i < |data|
    requires conversionLine[..] == MidpointLine(data, s.conversionLength)
    requires baseLine[..] == MidpointLine(data, s.baseLength)
    ensures spanA == SpanAAt(data, s, i) && spanB == SpanBAt(data, s, i)
  {
    spanA, spanB := None, None;
    if i >= s.baseLength {
      var prevConv := conversionLine[i - s.baseLength];
      var prevBase := baseLine[i - s.baseLength];
      assert prevConv == MidpointLine(data, s.conversionLength)[i - s.baseLength];
      assert prevBase == MidpointLine(data, s.baseLength)[i - s.baseLength];
      if prevConv.Some? && prevBase.Some? {
        spanA := Some((prevConv.value + prevBase.value) / 2.0);
      }
      spanB := GetRollingHL2(data, s.spanBLength, i - s.baseLength);
    }
  }

  /** The third loop: the close laggingLength bars ahead, for every bar that has one. */
  method LaggingSpan(data: seq<Candle>, s: IchimokuSettings) returns (laggingSpan: array<Option<real>>)
    requires ValidSettings(s)
    ensures fresh(laggingSpan) && laggingSpan[..] == LaggingLine(data, s)
  {
    var n := |data|;
    laggingSpan := new Option<real>[n](_ => None);
    var i := 0;
    while i < n - s.laggingLength
      invariant 0 <= i && (i <= n - s.laggingLength || i == 0)
      invariant forall k :: 0 <= k < i ==> laggingSpan[k] == LaggingAt(data, s, k)
      invariant forall k :: i <= k < n ==> laggingSpan[k] == None
    {
      laggingSpan[i] := data[i + s.laggingLength].close;
      i := i + 1;
    }
  }

  // ---------------------------------------------------------------------------
  // Properties

  /** Every bar's low is at most its high. */
  predicate OrderedBars(data: seq<Candle>)
    requires HasHighLow(data)
  {
    forall k :: 0 <= k < |data| ==> data[k].low.value <= data[k].high.value
  }

  /**
   * The midpoint exists exactly from index length-1 on, and then lies between the window's lowest
   * low and highest high.
   */
  lemma RollingHL2Between(data: seq<Candle>, length: int, index: int)
    requires length >= 1 && 0 <= index < |data| && HasHighLow(data) && OrderedBars(data)
    ensures RollingHL2(data, length, index).Some? <==> index >= length - 1
    ensures RollingHL2(data, length, index).Some? ==>
      MinRange(Lows(data), index - length + 1, index + 1) <= RollingHL2(data, length, index).value
        <= MaxRange(Highs(data), index - length + 1, index + 1)
  {
    if index >= length - 1 {
      MinMaxRangeBound(Lows(data), index - length + 1, index + 1, index);
      MinMaxRangeBound(Highs(data), index - length + 1, index + 1, index);
    }
  }

  /** Span A lies between the tenkan and kijun values it averages. */
  lemma SpanABetween(data: seq<Candle>, s: IchimokuSettings, i: int)
    requires ValidSettings(s) && 0 <= i < |data|
    ensures SpanAAt(data, s, i).Some? <==>
      i >= s.baseLength && RollingHL2(data, s.conversionLength, i - s.baseLength).Some?
        && RollingHL2(data, s.baseLength, i - s.baseLength).Some?
    ensures SpanAAt(data, s, i).Some? ==>
      var conv := RollingHL2(data, s.conversionLength, i - s.baseLength).value;
      var base := RollingHL2(data, s.baseLength, i - s.baseLength).value;
      Min(conv, base) <= SpanAAt(data, s, i).value <= Max(conv, base)
  {
  }

  /**
   * A midpoint line has |data| - length + 1 points (none if there are fewer bars), at the times of
   * data[length-1..].
   */
  lemma MidpointCount(data: seq<Candle>, length: int)
    requires length >= 1
    ensures |Compact(Times(data), MidpointLine(data, length))| == Max0(|data| - length + 1)
    ensures forall j :: 0 <= j < |Compact(Times(data), MidpointLine(data, length))| ==>
      Compact(Times(data), MidpointLine(data, length))[j].time == data[length - 1 + j].time
  {
    var line := MidpointLine(data, length);
    if |data| >= length - 1 {
      CompactSuffix(Times(data), line, length - 1);
    } else {
      CompactUpToNone(Times(data), line, |data|);
    }
  }

  function Max0(x: int): nat { if x >= 0 then x else 0 }

  /** Span B starts baseLength + spanBLength - 1 bars in and has a point at every bar after that. */
  lemma SpanBCount(data: seq<Candle>, s: IchimokuSettings)
    requires ValidSettings(s)
    ensures |Compact(Times(data), SpanBLine(data, s))| == Max0(|data| - s.baseLength - s.spanBLength + 1)
    ensures forall j :: 0 <= j < |Compact(Times(data), SpanBLine(data, s))| ==>
      Compact(Times(data), SpanBLine(data, s))[j].value == RollingHL2(data, s.spanBLength, s.spanBLength - 1 + j).value
    ensures forall j :: 0 <= j < |Compact(Times(data), SpanBLine(data, s))| ==>
      Compact(Times(data), SpanBLine(data, s))[j].time == data[s.baseLength + s.spanBLength - 1 + j].time
  {
    var line := SpanBLine(data, s);
    var m := s.baseLength + s.spanBLength - 1;
    if |data| >= m {
      CompactSuffix(Times(data), line, m);
    } else {
      CompactUpToNone(Times(data), line, |data|);
    }
  }

  /**
   * With every close present, the lagging span has max(0, |data| - laggingLength) points, the j-th
   * at bar j's time carrying the close of bar j + laggingLength.
   */
  lemma ChikouShift(data: seq<Candle>, s: IchimokuSettings)
    requires ValidSettings(s)
    requires forall k :: 0 <= k < |data| ==> data[k].close.Some?
    ensures |IchimokuSeries(data, s).chikou| == Max0(|data| - s.laggingLength)
    ensures forall j :: 0 <= j < |IchimokuSeries(data, s).chikou| ==>
      IchimokuSeries(data, s).chikou[j] == Point(data[j].time, data[j + s.laggingLength].close.value)
  {
    var line := LaggingLine(data, s);
    var e := Max0(|data| - s.laggingLength);
    PrefixCompact(Times(data), line, e, |data|);
  }

  lemma {:induction false} PrefixCompact(ts: seq<int>, vs: seq<Option<real>>, e: int, k: int)
    requires |ts| == |vs| && 0 <= e <= |vs| && 0 <= k <= |vs|
    requires forall i :: 0 <= i < |vs| ==> (vs[i].Some? <==> i < e)
    ensures |CompactUpTo(ts, vs, k)| == if k < e then k else e
    ensures forall j :: 0 <= j < |CompactUpTo(ts, vs, k)| ==> CompactUpTo(ts, vs, k)[j] == Point(ts[j], vs[j].value)
  {
    if k > 0 {
      PrefixCompact(ts, vs, e, k - 1);
    }
  }

  /** On an ascending feed every one of the five lines has strictly increasing times taken from the feed. */
  lemma IchimokuTimes(data: seq<Candle>, s: IchimokuSettings)
    requires ValidSettings(s) && Ascending(data)
    ensures var r := IchimokuSeries(data, s);
      IncreasingTimes(r.tenkan) && IncreasingTimes(r.kijun) && IncreasingTimes(r.spanA)
        && IncreasingTimes(r.spanB) && IncreasingTimes(r.chikou)
  {
    var ts := Times(data);
    CompactIncreasing(ts, MidpointLine(data, s.conversionLength));
    CompactIncreasing(ts, MidpointLine(data, s.baseLength));
    CompactIncreasing(ts, SpanALine(data, s));
    CompactIncreasing(ts, SpanBLine(data, s));
    CompactIncreasing(ts, LaggingLine(data, s));
  }
}
