/**
 * Relative Strength Index with Wilder smoothing, optional SMA smoothing of the RSI line and a
 * Bollinger envelope on the smoothed line (`computeRSI`, rsi.js).
 */
module Rsi {
  import opened Series
  import opened Sources

  datatype RsiSettings = RsiSettings(length: int, source: string, smoothingType: string,
                                     smoothingLength: int, bbStdDev: real)

  datatype RsiResult = RsiResult(rsi: seq<Point>, smoothed: seq<Point>, bbUpper: seq<Point>, bbLower: seq<Point>)

  datatype Band = Band(upper: real, lower: real)

  /** Lengths must be positive; the smoothing length only matters when smoothing is on. */
  predicate ValidSettings(s: RsiSettings)
  {
    s.length >= 1 && (s.smoothingType == "SMA" ==> s.smoothingLength >= 1)
  }

  // ---------------------------------------------------------------------------
  // Specification

  /** The gain of bar i: 0 at bar 0 and across a gap, otherwise the positive part of the change. */
  function Gain(sv: seq<Option<real>>, i: int): real
    requires 0 <= i < |sv|
  {
    if i == 0 || sv[i - 1].None? || sv[i].None? then 0.0 else Max(0.0, sv[i].value - sv[i - 1].value)
  }

  /** The loss of bar i: 0 at bar 0 and across a gap, otherwise the negative part of the change. */
  function Loss(sv: seq<Option<real>>, i: int): real
    requires 0 <= i < |sv|
  {
    if i == 0 || sv[i - 1].None? || sv[i].None? then 0.0 else Max(0.0, -(sv[i].value - sv[i - 1].value))
  }

  function Gains(sv: seq<Option<real>>): (g: seq<real>)
    ensures |g| == |sv| && forall i :: 0 <= i < |g| ==> g[i] >= 0.0
  {
    seq(|sv|, i requires 0 <= i < |sv| => Gain(sv, i))
  }

  function Losses(sv: seq<Option<real>>): (l: seq<real>)
    ensures |l| == |sv| && forall i :: 0 <= i < |l| ==> l[i] >= 0.0
  {
    seq(|sv|, i requires 0 <= i < |sv| => Loss(sv, i))
  }

  /** Wilder's average at index i: the plain mean of x[0..length] at length-1, then one WilderStep per further index. */
  function WilderAvg(x: seq<real>, length: int, i: int): real
    requires length >= 1 && length - 1 <= i < |x|
    decreases i
  {
    if i == length - 1 then Sum(x, 0, length) / length as real
    else WilderStep(WilderAvg(x, length, i - 1), x[i], length)
  }

  /** The RSI of two averages: 50 when both are 0, 100 when only the loss is 0, else 100 - 100/(1 + gain/loss). */
  function RsiOf(avgGain: real, avgLoss: real): real
    requires avgGain >= 0.0 && avgLoss >= 0.0
  {
    if avgLoss != 0.0 then 100.0 - 100.0 / (1.0 + avgGain / avgLoss)
    else if avgGain == 0.0 then 50.0
    else 100.0
  }

  predicate NonNegative(x: seq<real>)
  {
    forall k :: 0 <= k < |x| ==> x[k] >= 0.0
  }

  function RsiAt(gains: seq<real>, losses: seq<real>, length: int, i: int): Option<real>
    requires length >= 1 && 0 <= i < |gains| == |losses|
    requires NonNegative(gains) && NonNegative(losses)
  {
    if i < length - 1 then None
    else
      WilderAvgNonNegative(gains, length, i);
      WilderAvgNonNegative(losses, length, i);
      Some(RsiOf(WilderAvg(gains, length, i), WilderAvg(losses, length, i)))
  }

  /** The raw RSI line, one entry per candle, a gap before index length-1. */
  function RsiRaw(sv: seq<Option<real>>, length: int): (raw: seq<Option<real>>)
    requires length >= 1
    ensures |raw| == |sv|
  {
    var gains, losses := Gains(sv), Losses(sv);
    seq(|sv|, i requires 0 <= i < |sv| => RsiAt(gains, losses, length, i))
  }

  /** The SMA-smoothed RSI line; empty unless smoothing is 'SMA' and there are at least smoothingLength entries. */
  function SmoothedRaw(rsi: seq<Option<real>>, smoothingType: string, smoothingLength: int): (sm: seq<Option<real>>)
    requires smoothingType == "SMA" ==> smoothingLength >= 1
    ensures |sm| == 0 || |sm| == |rsi|
  {
    if smoothingType == "SMA" && |rsi| >= smoothingLength then
      seq(|rsi|, i requires 0 <= i < |rsi| => WindowMean(rsi, smoothingLength, i))
    else []
  }

  /** The sum of the squares of v[lo..hi], a gap adding 0. */
  function SumSq(v: seq<Option<real>>, lo: int, hi: int): real
    requires 0 <= lo <= hi <= |v|
    decreases hi - lo
  {
    if lo == hi then 0.0 else (if v[lo].Some? then v[lo].value * v[lo].value else 0.0) + SumSq(v, lo + 1, hi)
  }

  /**
   * The envelope at index i: mean ± k·sqrt(max(0, E[x²] - E[x]²)) over a full window of the smoothed
   * line, else a gap.
   */
  /** The envelope of `count` values with the given sum and sum of squares: mean ± k·sqrt(max(0, E[x²] - E[x]²)). */
  function Envelope(sum: real, sumSq: real, count: int, k: real, sqrt: real -> real): Band
    requires count >= 1
  {
    var mean := sum / count as real;
    var variance := (sumSq / count as real) - (mean * mean);
    var stdDev := sqrt(Max(0.0, variance));
    Band(mean + k * stdDev, mean - k * stdDev)
  }

  /** The envelope over a full window of the smoothed line ending at i, else a gap. */
  function BandAt(sm: seq<Option<real>>, length: int, k: real, sqrt: real -> real, i: int): Option<Band>
    requires length >= 1 && 0 <= i < |sm|
  {
    if i < length - 1 || !AllSome(sm, i - length + 1, i + 1) then None
    else Some(Envelope(SumOpt(sm, i - length + 1, i + 1), SumSq(sm, i - length + 1, i + 1), length, k, sqrt))
  }

  function BandsRaw(sm: seq<Option<real>>, smoothingType: string, length: int, k: real, sqrt: real -> real)
    : (bands: seq<Option<Band>>)
    requires smoothingType == "SMA" ==> length >= 1
    ensures |bands| == 0 || |bands| == |sm|
  {
    if smoothingType == "SMA" && |sm| >= length then
      seq(|sm|, i requires 0 <= i < |sm| => BandAt(sm, length, k, sqrt, i))
    else []
  }

  function Uppers(bands: seq<Option<Band>>): (u: seq<Option<real>>)
    ensures |u| == |bands|
  {
    seq(|bands|, i requires 0 <= i < |bands| => if bands[i].Some? then Some(bands[i].value.upper) else None)
  }

  function Lowers(bands: seq<Option<Band>>): (l: seq<Option<real>>)
    ensures |l| == |bands|
  {
    seq(|bands|, i requires 0 <= i < |bands| => if bands[i].Some? then Some(bands[i].value.lower) else None)
  }

  /** `filterNulls` over a raw line that is either empty or one entry per candle. */
  function Filtered(data: seq<Candle>, raw: seq<Option<real>>): seq<Point>
    requires |raw| == 0 || |raw| == |data|
  {
    if |raw| == 0 then [] else Compact(Times(data), raw)
  }

  /** What `computeRSI(data, options)` returns; `sqrt` stands for `Math.sqrt`. */
  function RsiSeries(data: seq<Candle>, s: RsiSettings, sqrt: real -> real): RsiResult
    requires ValidSettings(s)
  {
    if |data| < s.length then RsiResult([], [], [], [])
    else
      var rsi := RsiRaw(SourceValues(data, ParseSource(s.source), s.length), s.length);
      var sm := SmoothedRaw(rsi, s.smoothingType, s.smoothingLength);
      var bands := BandsRaw(sm, s.smoothingType, s.smoothingLength, s.bbStdDev, sqrt);
      RsiResult(Compact(Times(data), rsi), Filtered(data, sm), Filtered(data, Uppers(bands)), Filtered(data, Lowers(bands)))
  }

  // ---------------------------------------------------------------------------
  // The computation, step by step

  /** Step 2: per-bar gains and losses. */
  method GainsAndLosses(sv: seq<Option<real>>) returns (gains: seq<real>, losses: seq<real>)
    requires |sv| >= 1
    ensures gains == Gains(sv) && losses == Losses(sv)
    ensures NonNegative(gains) && NonNegative(losses)
  {
    gains, losses := [0.0], [0.0];
    for i := 1 to |sv|
      invariant |gains| == |losses| == i
      invariant forall k :: 0 <= k < i ==> gains[k] == Gain(sv, k) && losses[k] == Loss(sv, k)
    {
      var prev := sv[i - 1];
      var curr := sv[i];
      if prev.None? || curr.None? {
        gains, losses := gains + [0.0], losses + [0.0];
        continue;
      }
      var delta := curr.value - prev.value;
      gains, losses := gains + [Max(0.0, delta)], losses + [Max(0.0, -delta)];
    }
  }

  /** Step 3: the Wilder averages, accumulated from index 0 and carried across iterations. */
  method WilderRsi(gains: seq<real>, losses: seq<real>, length: int) returns (rsiValues: seq<Option<real>>)
    requires length >= 1 && |gains| == |losses|
    requires NonNegative(gains) && NonNegative(losses)
    ensures |rsiValues| == |gains|
    ensures forall i :: 0 <= i < |gains| ==> rsiValues[i] == RsiAt(gains, losses, length, i)
  {
    rsiValues := [];
    var avgGain := 0.0;
    var avgLoss := 0.0;
    for i := 0 to |gains|
      invariant |rsiValues| == i
      invariant forall k :: 0 <= k < i ==> rsiValues[k] == RsiAt(gains, losses, length, k)
      invariant i < length ==> avgGain == Sum(gains, 0, i) && avgLoss == Sum(losses, 0, i)
      invariant i >= length ==> avgGain == WilderAvg(gains, length, i - 1) && avgLoss == WilderAvg(losses, length, i - 1)
    {
      var gain := gains[i];
      var loss := losses[i];
      if i < length {
        SumSnoc(gains, 0, i);
        SumSnoc(losses, 0, i);
        avgGain := avgGain + gain;
        avgLoss := avgLoss + loss;
        if i == length - 1 {
          avgGain := avgGain / length as real;
          avgLoss := avgLoss / length as real;
          assert avgGain == WilderAvg(gains, length, i);
          assert avgLoss == WilderAvg(losses, length, i);
        } else {
          rsiValues := rsiValues + [None];
          continue;
        }
      } else {
        avgGain := WilderStep(avgGain, gain, length);
        avgLoss := WilderStep(avgLoss, loss, length);
      }
      WilderAvgNonNegative(gains, length, i);
      WilderAvgNonNegative(losses, length, i);
      var rsi := 100.0;
      if avgLoss != 0.0 {
        var rs := avgGain / avgLoss;
        rsi := 100.0 - (100.0 / (1.0 + rs));
      } else if avgGain == 0.0 {
        rsi := 50.0;
      }
      assert Some(rsi) == RsiAt(gains, losses, length, i);
      rsiValues := rsiValues + [Some(rsi)];
    }
  }

  /** Step 4: the optional SMA of the RSI line, counting the valid values of each window. */
  method SmoothRsi(rsiValues: seq<Option<real>>, smoothingType: string, smoothingLength: int)
    returns (smoothed: seq<Option<real>>)
    requires smoothingType == "SMA" ==> smoothingLength >= 1
    ensures smoothed == SmoothedRaw(rsiValues, smoothingType, smoothingLength)
  {
    smoothed := [];
    if smoothingType == "SMA" && |rsiValues| >= smoothingLength {
      for i := 0 to |rsiValues|
        invariant |smoothed| == i
        invariant forall k :: 0 <= k < i ==> smoothed[k] == WindowMean(rsiValues, smoothingLength, k)
      {
        if i < smoothingLength - 1 {
          smoothed := smoothed + [None];
          continue;
        }
        var sum := 0.0;
        var count := 0;
        for j := 0 to smoothingLength
          invariant sum == SumOpt(rsiValues, i - j + 1, i + 1)
          invariant count == CountSome(rsiValues, i - j + 1, i + 1)
        {
          var val := rsiValues[i - j];
          if val.Some? {
            sum := sum + val.value;
            count := count + 1;
          }
        }
        CountSomeFull(rsiValues, i - smoothingLength + 1, i + 1);
        smoothed := smoothed + [if count == smoothingLength then Some(sum / smoothingLength as real) else None];
      }
    }
  }

  /** Step 5: the optional envelope on the smoothed line, from running sums of values and squares. */
  method SmoothedBands(smoothed: seq<Option<real>>, smoothingType: string, smoothingLength: int, bbStdDev: real,
                       sqrt: real -> real)
    returns (bands: seq<Option<Band>>)
    requires smoothingType == "SMA" ==> smoothingLength >= 1
    ensures bands == BandsRaw(smoothed, smoothingType, smoothingLength, bbStdDev, sqrt)
  {
    bands := [];
    if smoothingType == "SMA" && |smoothed| >= smoothingLength {
      for i := 0 to |smoothed|
        invariant |bands| == i
        invariant forall k :: 0 <= k < i ==> bands[k] == BandAt(smoothed, smoothingLength, bbStdDev, sqrt, k)
      {
        if i < smoothingLength - 1 {
          bands := bands + [None];
          continue;
        }
        var sum := 0.0;
        var sumSq := 0.0;
        var count := 0;
        for j := 0 to smoothingLength
          invariant sum == SumOpt(smoothed, i - j + 1, i + 1)
          invariant sumSq == SumSq(smoothed, i - j + 1, i + 1)
          invariant count == CountSome(smoothed, i - j + 1, i + 1)
        {
          var val := smoothed[i - j];
          if val.Some? {
            sum := sum + val.value;
            sumSq := sumSq + val.value * val.value;
            count := count + 1;
          }
        }
        CountSomeFull(smoothed, i - smoothingLength + 1, i + 1);
        if count == smoothingLength {
          bands := bands + [Some(Envelope(sum, sumSq, count, bbStdDev, sqrt))];
        } else {
          bands := bands + [None];
        }
      }
    }
  }

  /** `computeRSI`: source values, gains and losses, Wilder RSI, smoothing, bands, then `filterNulls` on each line. */
  method ComputeRSI(data: seq<Candle>, s: RsiSettings, sqrt: real -> real) returns (r: RsiResult)
    requires ValidSettings(s)
    ensures r == RsiSeries(data, s, sqrt)
  {
    if |data| < s.length {
      return RsiResult([], [], [], []);
    }
    var src := ParseSource(s.source);
    var sourceValues: seq<Option<real>> := [];
    for i := 0 to |data|
      invariant |sourceValues| == i
      invariant forall k :: 0 <= k < i ==> sourceValues[k] == SourceValue(data, src, k, s.length)
    {
      var v := GetSourceValue(data, src, i, s.length);
      sourceValues := sourceValues + [v];
    }
    assert sourceValues == SourceValues(data, src, s.length);
    var gains, losses := GainsAndLosses(sourceValues);
    var rsiValues := WilderRsi(gains, losses, s.length);
    assert rsiValues == RsiRaw(sourceValues, s.length);
    var smoothed := SmoothRsi(rsiValues, s.smoothingType, s.smoothingLength);
    var bands := SmoothedBands(smoothed, s.smoothingType, s.smoothingLength, s.bbStdDev, sqrt);
    r := RsiResult(Compact(Times(data), rsiValues), Filtered(data, smoothed),
                   Filtered(data, Uppers(bands)), Filtered(data, Lowers(bands)));
  }

  // ---------------------------------------------------------------------------
  // Properties

  /** Gains and losses are never negative, never both positive, and both 0 at bar 0 and across a gap. */
  lemma GainLossSigns(sv: seq<Option<real>>, i: int)
    requires 0 <= i < |sv|
    ensures Gain(sv, i) >= 0.0 && Loss(sv, i) >= 0.0
    ensures Gain(sv, i) == 0.0 || Loss(sv, i) == 0.0
    ensures i == 0 || sv[i - 1].None? || sv[i].None? ==> Gain(sv, i) == 0.0 && Loss(sv, i) == 0.0
    ensures i > 0 && sv[i - 1].Some? && sv[i].Some? ==> Gain(sv, i) - Loss(sv, i) == sv[i].value - sv[i - 1].value
  {
  }

  /** Wilder's average of non-negative values is non-negative. */
  lemma {:induction false} WilderAvgNonNegative(x: seq<real>, length: int, i: int)
    requires length >= 1 && length - 1 <= i < |x|
    requires NonNegative(x)
    ensures WilderAvg(x, length, i) >= 0.0
    decreases i
  {
    if i == length - 1 {
      SumNonNegative(x, 0, length);
    } else {
      WilderAvgNonNegative(x, length, i - 1);
    }
  }

  /** Non-negative averages give an RSI in [0, 100]. */
  lemma RsiOfBounds(avgGain: real, avgLoss: real)
    requires avgGain >= 0.0 && avgLoss >= 0.0
    ensures 0.0 <= RsiOf(avgGain, avgLoss) <= 100.0
  {
    if avgLoss != 0.0 {
      var rs := avgGain / avgLoss;
      assert rs >= 0.0;
      assert 100.0 / (1.0 + rs) <= 100.0;
    }
  }

  /** Every entry of the raw RSI line lies in [0, 100]. */
  lemma RsiRawBounds(sv: seq<Option<real>>, length: int)
    requires length >= 1
    ensures forall i :: 0 <= i < |sv| && RsiRaw(sv, length)[i].Some? ==> 0.0 <= RsiRaw(sv, length)[i].value <= 100.0
  {
    var gains, losses := Gains(sv), Losses(sv);
    forall i | length - 1 <= i < |sv|
      ensures 0.0 <= RsiAt(gains, losses, length, i).value <= 100.0
    {
      WilderAvgNonNegative(gains, length, i);
      WilderAvgNonNegative(losses, length, i);
      RsiOfBounds(WilderAvg(gains, length, i), WilderAvg(losses, length, i));
    }
  }

  /** Every RSI point and every smoothed point lies in [0, 100]. */
  lemma RsiInRange(data: seq<Candle>, s: RsiSettings, sqrt: real -> real)
    requires ValidSettings(s)
    ensures forall p :: p in RsiSeries(data, s, sqrt).rsi ==> 0.0 <= p.value <= 100.0
    ensures forall p :: p in RsiSeries(data, s, sqrt).smoothed ==> 0.0 <= p.value <= 100.0
  {
    if |data| >= s.length {
      var sv := SourceValues(data, ParseSource(s.source), s.length);
      var rsi := RsiRaw(sv, s.length);
      RsiRawBounds(sv, s.length);
      CompactBounded(Times(data), rsi, 0.0, 100.0);
      var sm := SmoothedRaw(rsi, s.smoothingType, s.smoothingLength);
      if |sm| > 0 {
        forall i | 0 <= i < |sm| && sm[i].Some?
          ensures 0.0 <= sm[i].value <= 100.0
        {
          WindowMeanBounds(rsi, s.smoothingLength, i, 0.0, 100.0);
        }
        CompactBounded(Times(data), sm, 0.0, 100.0);
      }
    }
  }

  /** With at least `length` candles the RSI line has exactly n-length+1 points, at the times of data[length-1..]. */
  lemma RsiPointCount(data: seq<Candle>, s: RsiSettings, sqrt: real -> real)
    requires ValidSettings(s) && |data| >= s.length
    ensures |RsiSeries(data, s, sqrt).rsi| == |data| - s.length + 1
    ensures forall j :: 0 <= j < |data| - s.length + 1 ==> RsiSeries(data, s, sqrt).rsi[j].time == data[s.length - 1 + j].time
  {
    var rsi := RsiRaw(SourceValues(data, ParseSource(s.source), s.length), s.length);
    CompactSuffix(Times(data), rsi, s.length - 1);
  }

  /** Fewer candles than `length` give four empty lines; without 'SMA' smoothing there is no smoothed line and no envelope. */
  lemma RsiEmptyCases(data: seq<Candle>, s: RsiSettings, sqrt: real -> real)
    requires ValidSettings(s)
    ensures |data| < s.length ==> RsiSeries(data, s, sqrt) == RsiResult([], [], [], [])
    ensures s.smoothingType != "SMA" ==>
      RsiSeries(data, s, sqrt).smoothed == [] && RsiSeries(data, s, sqrt).bbUpper == [] && RsiSeries(data, s, sqrt).bbLower == []
  {
  }

  /** The smoothed line is a gap before index smoothingLength-1 and wherever its window holds a gap. */
  lemma SmoothedGaps(rsi: seq<Option<real>>, smoothingLength: int, i: int)
    requires smoothingLength >= 1 && |rsi| >= smoothingLength && 0 <= i < |rsi|
    requires i < smoothingLength - 1 || exists k :: i - smoothingLength + 1 <= k <= i && 0 <= k && rsi[k].None?
    ensures SmoothedRaw(rsi, "SMA", smoothingLength)[i].None?
  {
  }

  /**
   * For a non-negative multiplier and a square root that is non-negative on non-negative arguments,
   * the lower band lies at or below the window mean and the upper band at or above it, the two
   * being symmetric about the mean.
   */
  lemma BandsAroundMean(sm: seq<Option<real>>, length: int, k: real, sqrt: real -> real, i: int)
    requires length >= 1 && 0 <= i < |sm|
    requires k >= 0.0 && forall x :: x >= 0.0 ==> sqrt(x) >= 0.0
    requires BandAt(sm, length, k, sqrt, i).Some?
    ensures WindowMean(sm, length, i).Some?
    ensures BandAt(sm, length, k, sqrt, i).value.lower <= WindowMean(sm, length, i).value <= BandAt(sm, length, k, sqrt, i).value.upper
    ensures BandAt(sm, length, k, sqrt, i).value.upper - WindowMean(sm, length, i).value
         == WindowMean(sm, length, i).value - BandAt(sm, length, k, sqrt, i).value.lower
  {
    var mean := SumOpt(sm, i - length + 1, i + 1) / length as real;
    var variance := (SumSq(sm, i - length + 1, i + 1) / length as real) - (mean * mean);
    var std := sqrt(Max(0.0, variance));
    assert std >= 0.0;
    assert k * std >= 0.0;
  }

  /** The two band lines have the same number of points at the same times. */
  lemma BandLinesAligned(data: seq<Candle>, s: RsiSettings, sqrt: real -> real)
    requires ValidSettings(s)
    ensures |RsiSeries(data, s, sqrt).bbUpper| == |RsiSeries(data, s, sqrt).bbLower|
    ensures forall j :: 0 <= j < |RsiSeries(data, s, sqrt).bbUpper| ==>
      RsiSeries(data, s, sqrt).bbUpper[j].time == RsiSeries(data, s, sqrt).bbLower[j].time
  {
    if |data| >= s.length {
      var rsi := RsiRaw(SourceValues(data, ParseSource(s.source), s.length), s.length);
      var sm := SmoothedRaw(rsi, s.smoothingType, s.smoothingLength);
      var bands := BandsRaw(sm, s.smoothingType, s.smoothingLength, s.bbStdDev, sqrt);
      if |bands| > 0 {
        CompactSamePattern(Times(data), Uppers(bands), Lowers(bands));
      }
    }
  }

  /** A flat source (no net change anywhere) gives avgGain = avgLoss = 0, hence an RSI of 50 at every point. */
  lemma RsiOfFlatSourceIs50(sv: seq<Option<real>>, length: int, c: real, i: int)
    requires length >= 1 && length - 1 <= i < |sv|
    requires forall k :: 0 <= k < |sv| ==> sv[k] == Some(c)
    ensures RsiRaw(sv, length)[i] == Some(50.0)
  {
    var gains, losses := Gains(sv), Losses(sv);
    assert forall k :: 0 <= k < |sv| ==> gains[k] == 0.0 && losses[k] == 0.0;
    WilderAvgOfZeros(gains, length, i);
    WilderAvgOfZeros(losses, length, i);
  }

  lemma {:induction false} SumOfZeros(x: seq<real>, lo: int, hi: int)
    requires 0 <= lo <= hi <= |x|
    requires forall k :: 0 <= k < |x| ==> x[k] == 0.0
    ensures Sum(x, lo, hi) == 0.0
    decreases hi - lo
  {
    if lo < hi {
      SumOfZeros(x, lo + 1, hi);
    }
  }

  lemma {:induction false} WilderAvgOfZeros(x: seq<real>, length: int, i: int)
    requires length >= 1 && length - 1 <= i < |x|
    requires forall k :: 0 <= k < |x| ==> x[k] == 0.0
    ensures WilderAvg(x, length, i) == 0.0
    decreases i
  {
    if i == length - 1 {
      SumOfZeros(x, 0, length);
    } else {
      WilderAvgOfZeros(x, length, i - 1);
    }
  }

  /** Wilder's average of non-negative values that include a positive one at or after index 1 is positive from there on. */
  lemma {:induction false} WilderAvgPositive(x: seq<real>, length: int, i: int)
    requires length >= 1 && length - 1 <= i < |x| && i >= 1
    requires forall k :: 0 <= k < |x| ==> x[k] >= 0.0
    requires forall k :: 1 <= k < |x| ==> x[k] > 0.0
    ensures WilderAvg(x, length, i) > 0.0
    decreases i
  {
    if i == length - 1 {
      SumNonNegative(x, 0, i);
      SumSnoc(x, 0, i);
    } else {
      WilderAvgNonNegative(x, length, i - 1);
    }
  }

  /**
   * A strictly rising source with no gaps has only gains, so the RSI is 100 from index
   * max(length-1, 1) on (at index 0 with length 1 both averages are still 0, giving 50).
   */
  lemma RsiOfRisingSourceIs100(sv: seq<Option<real>>, length: int, i: int)
    requires length >= 1 && length - 1 <= i < |sv| && i >= 1
    requires forall k :: 0 <= k < |sv| ==> sv[k].Some?
    requires forall k :: 1 <= k < |sv| ==> sv[k - 1].value < sv[k].value
    ensures RsiRaw(sv, length)[i] == Some(100.0)
  {
    var gains, losses := Gains(sv), Losses(sv);
    forall k | 0 <= k < |sv|
      ensures gains[k] >= 0.0 && losses[k] == 0.0
      ensures k >= 1 ==> gains[k] > 0.0
    {
    }
    WilderAvgOfZeros(losses, length, i);
    WilderAvgPositive(gains, length, i);
  }

  /**
   * A strictly falling source with no gaps has only losses, so the average gain is 0 and the RSI is
   * 100 - 100 / (1 + 0) = 0 from index max(length-1, 1) on.
   */
  lemma RsiOfFallingSourceIs0(sv: seq<Option<real>>, length: int, i: int)
    requires length >= 1 && length - 1 <= i < |sv| && i >= 1
    requires forall k :: 0 <= k < |sv| ==> sv[k].Some?
    requires forall k :: 1 <= k < |sv| ==> sv[k - 1].value > sv[k].value
    ensures RsiRaw(sv, length)[i] == Some(0.0)
  {
    var gains, losses := Gains(sv), Losses(sv);
    forall k | 0 <= k < |sv|
      ensures losses[k] >= 0.0 && gains[k] == 0.0
      ensures k >= 1 ==> losses[k] > 0.0
    {
    }
    WilderAvgOfZeros(gains, length, i);
    WilderAvgPositive(losses, length, i);
  }
}
