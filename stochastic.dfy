/**
 * Stochastic oscillator (`computeStochastic`, stoch.js): %K places the close within the range of
 * the last `length` bars, %D is the simple moving average of %K over `dLength` bars.
 */
module Stochastic {
  import opened Series

  /** `precision` is folded into the rounding function passed alongside. */
  datatype StochSettings = StochSettings(length: int, dLength: int)

  datatype StochResult = StochResult(k: seq<Point>, d: seq<Point>)

  predicate ValidSettings(s: StochSettings)
  {
    s.length >= 1 && s.dLength >= 1
  }

  // ---------------------------------------------------------------------------
  // Specification

  /** The lows and highs as plain numbers; a missing one reads 0 but is only used inside valid windows. */
  /** Every bar in data[lo..hi] has a finite low and high. */
  predicate ValidBars(data: seq<Candle>, lo: int, hi: int)
    requires 0 <= lo <= hi <= |data|
  {
    forall j :: lo <= j < hi ==> data[j].low.Some? && data[j].high.Some?
  }

  /** Where the close sits in [lowestLow, highestHigh], scaled to [0, 100]; a flat range gives 50. */
  function KValue(close: real, lowestLow: real, highestHigh: real): real
  {
    var diff := highestHigh - lowestLow;
    if diff != 0.0 then 100.0 * (close - lowestLow) / diff else 50.0
  }

  /** %K at index i: a gap before a full window, when a bar of the window lacks a low or high, or when the close is missing. */
  function KAt(data: seq<Candle>, length: int, i: int): Option<real>
    requires length >= 1 && 0 <= i < |data|
  {
    if i < length - 1 || !ValidBars(data, i - length + 1, i + 1) || data[i].close.None? then None
    else Some(KValue(data[i].close.value, MinRange(Lows(data), i - length + 1, i + 1),
                     MaxRange(Highs(data), i - length + 1, i + 1)))
  }

  function KRaw(data: seq<Candle>, length: int): (k: seq<Option<real>>)
    requires length >= 1
    ensures |k| == |data|
  {
    seq(|data|, i requires 0 <= i < |data| => KAt(data, length, i))
  }

  /** %D: the mean of a full window of dLength %K values, else a gap. */
  function DRaw(k: seq<Option<real>>, dLength: int): (d: seq<Option<real>>)
    requires dLength >= 1
    ensures |d| == |k|
  {
    seq(|k|, i requires 0 <= i < |k| => WindowMean(k, dLength, i))
  }

  /** `.map(v => ({ ...v, value: Number(v.value.toFixed(precision)) }))` */
  function Rounded(ps: seq<Point>, round: real -> real): (r: seq<Point>)
    ensures |r| == |ps|
  {
    seq(|ps|, j requires 0 <= j < |ps| => Point(ps[j].time, round(ps[j].value)))
  }

  /** What `computeStochastic(data, settings)` returns; `round` is `Number(x.toFixed(precision))`. */
  function StochSeries(data: seq<Candle>, s: StochSettings, round: real -> real): StochResult
    requires ValidSettings(s)
  {
    if |data| < s.length then StochResult([], [])
    else
      var k := KRaw(data, s.length);
      StochResult(Rounded(Compact(Times(data), k), round), Rounded(Compact(Times(data), DRaw(k, s.dLength)), round))
  }

  // ---------------------------------------------------------------------------
  // The computation

  /** The %K loop: a backwards pass over each window tracking the lowest low and highest high, stopping at an invalid bar. */
  method ComputeK(data: seq<Candle>, length: int) returns (kValuesRaw: seq<Option<real>>)
    requires length >= 1
    ensures kValuesRaw == KRaw(data, length)
  {
    ghost var lows, highs := Lows(data), Highs(data);
    kValuesRaw := [];
    for i := 0 to |data|
      invariant |kValuesRaw| == i
      invariant forall t :: 0 <= t < i ==> kValuesRaw[t] == KAt(data, length, t)
    {
      if i < length - 1 {
        kValuesRaw := kValuesRaw + [None];
        continue;
      }
      // lowestLow and highestHigh start at +Infinity and -Infinity; the first bar read (j == 0) always replaces them
      var lowestLow := 0.0;
      var highestHigh := 0.0;
      var validWindow := true;
      var j := 0;
      while j < length
        invariant 0 <= j <= length
        invariant validWindow && ValidBars(data, i - j + 1, i + 1)
        invariant j >= 1 ==> lowestLow == MinRange(lows, i - j + 1, i + 1) && highestHigh == MaxRange(highs, i - j + 1, i + 1)
      {
        var bar := data[i - j];
        if bar.low.None? || bar.high.None? {
          validWindow := false;
          break;
        }
        if j == 0 || bar.low.value < lowestLow {
          lowestLow := bar.low.value;
        }
        if j == 0 || bar.high.value > highestHigh {
          highestHigh := bar.high.value;
        }
        j := j + 1;
      }
      if !validWindow || data[i].close.None? {
        kValuesRaw := kValuesRaw + [None];
        continue;
      }
      var diff := highestHigh - lowestLow;
      var k := 0.0;
      if diff != 0.0 {
        k := 100.0 * (data[i].close.value - lowestLow) / diff;
      } else {
        k := 50.0;
      }
      kValuesRaw := kValuesRaw + [Some(k)];
    }
  }

  /** The %D loop: the plain mean of the last dLength %K values, a gap as soon as one of them is missing. */
  method ComputeD(kValuesRaw: seq<Option<real>>, dLength: int) returns (dValuesRaw: seq<Option<real>>)
    requires dLength >= 1
    ensures dValuesRaw == DRaw(kValuesRaw, dLength)
  {
    dValuesRaw := [];
    for i := 0 to |kValuesRaw|
      invariant |dValuesRaw| == i
      invariant forall t :: 0 <= t < i ==> dValuesRaw[t] == WindowMean(kValuesRaw, dLength, t)
    {
      var startIdx := i - dLength + 1;
      if startIdx < 0 {
        dValuesRaw := dValuesRaw + [None];
        continue;
      }
      var sum := 0.0;
      var count := 0;
      var validSMA := true;
      var j := 0;
      while j < dLength
        invariant 0 <= j <= dLength
        invariant validSMA && count == j && AllSome(kValuesRaw, i - j + 1, i + 1)
        invariant sum == SumOpt(kValuesRaw, i - j + 1, i + 1)
      {
        var val := kValuesRaw[i - j];
        if val.None? {
          validSMA := false;
          break;
        }
        sum := sum + val.value;
        count := count + 1;
        j := j + 1;
      }
      dValuesRaw := dValuesRaw + [if validSMA && count == dLength then Some(sum / dLength as real) else None];
    }
  }

  /** `computeStochastic`: %K, %D, then drop the gaps and round. */
  method ComputeStochastic(data: seq<Candle>, s: StochSettings, round: real -> real) returns (r: StochResult)
    requires ValidSettings(s)
    ensures r == StochSeries(data, s, round)
  {
    if |data| < s.length {
      return StochResult([], []);
    }
    var kValuesRaw := ComputeK(data, s.length);
    var dValuesRaw := ComputeD(kValuesRaw, s.dLength);
    r := StochResult(Rounded(Compact(Times(data), kValuesRaw), round), Rounded(Compact(Times(data), dValuesRaw), round));
  }

  // ---------------------------------------------------------------------------
  // Properties

  /** Every bar that has all three prices has its close within [low, high]. */
  predicate WellFormedBars(data: seq<Candle>)
  {
    forall i :: 0 <= i < |data| && data[i].low.Some? && data[i].high.Some? && data[i].close.Some? ==>
      data[i].low.value <= data[i].close.value <= data[i].high.value
  }

  /** A close within [lowestLow, highestHigh] gives a %K in [0, 100]; a flat range gives exactly 50. */
  lemma KValueBounds(close: real, lowestLow: real, highestHigh: real)
    requires lowestLow <= close <= highestHigh
    ensures 0.0 <= KValue(close, lowestLow, highestHigh) <= 100.0
    ensures lowestLow == highestHigh ==> KValue(close, lowestLow, highestHigh) == 50.0
  {
    var diff := highestHigh - lowestLow;
    if diff != 0.0 {
      assert 0.0 <= close - lowestLow <= diff;
      assert 0.0 <= (close - lowestLow) / diff <= 1.0;
      assert 100.0 * (close - lowestLow) / diff == 100.0 * ((close - lowestLow) / diff);
    }
  }

  lemma KRawBounds(data: seq<Candle>, length: int)
    requires length >= 1 && WellFormedBars(data)
    ensures forall i :: 0 <= i < |data| && KRaw(data, length)[i].Some? ==> 0.0 <= KRaw(data, length)[i].value <= 100.0
  {
    var lows, highs := Lows(data), Highs(data);
    forall i | 0 <= i < |data| && KAt(data, length, i).Some?
      ensures 0.0 <= KAt(data, length, i).value <= 100.0
    {
      MinMaxRangeBound(lows, i - length + 1, i + 1, i);
      MinMaxRangeBound(highs, i - length + 1, i + 1, i);
      KValueBounds(data[i].close.value, MinRange(lows, i - length + 1, i + 1), MaxRange(highs, i - length + 1, i + 1));
    }
  }

  /** A rounding that never reverses order and keeps 0 and 100. */
  ghost predicate SaneRounding(round: real -> real)
  {
    (forall x, y :: x <= y ==> round(x) <= round(y)) && round(0.0) == 0.0 && round(100.0) == 100.0
  }

  lemma RoundedBounds(ps: seq<Point>, round: real -> real)
    requires SaneRounding(round)
    requires forall p :: p in ps ==> 0.0 <= p.value <= 100.0
    ensures forall p :: p in Rounded(ps, round) ==> 0.0 <= p.value <= 100.0
  {
    forall p | p in Rounded(ps, round)
      ensures 0.0 <= p.value <= 100.0
    {
      var j :| 0 <= j < |ps| && Rounded(ps, round)[j] == p;
      assert ps[j] in ps;
      assert round(0.0) <= round(ps[j].value) <= round(100.0);
    }
  }

  /** On bars whose close lies within their range, every %K and %D point lies in [0, 100]. */
  lemma StochInRange(data: seq<Candle>, s: StochSettings, round: real -> real)
    requires ValidSettings(s) && WellFormedBars(data) && SaneRounding(round)
    ensures forall p :: p in StochSeries(data, s, round).k ==> 0.0 <= p.value <= 100.0
    ensures forall p :: p in StochSeries(data, s, round).d ==> 0.0 <= p.value <= 100.0
  {
    if |data| >= s.length {
      var k := KRaw(data, s.length);
      KRawBounds(data, s.length);
      CompactBounded(Times(data), k, 0.0, 100.0);
      RoundedBounds(Compact(Times(data), k), round);
      var d := DRaw(k, s.dLength);
      forall i | 0 <= i < |d| && d[i].Some?
        ensures 0.0 <= d[i].value <= 100.0
      {
        WindowMeanBounds(k, s.dLength, i, 0.0, 100.0);
      }
      CompactBounded(Times(data), d, 0.0, 100.0);
      RoundedBounds(Compact(Times(data), d), round);
    }
  }

  /** A window whose highest high equals its lowest low (a flat market) gives %K = 50. */
  lemma FlatWindowIs50(data: seq<Candle>, length: int, i: int)
    requires length >= 1 && length - 1 <= i < |data|
    requires ValidBars(data, i - length + 1, i + 1) && data[i].close.Some?
    requires MinRange(Lows(data), i - length + 1, i + 1) == MaxRange(Highs(data), i - length + 1, i + 1)
    ensures KAt(data, length, i) == Some(50.0)
  {
  }

  /** Every bar has a low, a high and a close. */
  predicate CompleteBars(data: seq<Candle>)
  {
    forall i :: 0 <= i < |data| ==> data[i].low.Some? && data[i].high.Some? && data[i].close.Some?
  }

  /**
   * On complete bars %K has one point per full window, n-length+1 of them at the times of
   * data[length-1..], and %D one per full window of %K, n-length-dLength+2 of them from
   * data[length+dLength-2] on.
   */
  lemma StochCounts(data: seq<Candle>, s: StochSettings, round: real -> real)
    requires ValidSettings(s) && CompleteBars(data) && |data| >= s.length + s.dLength - 1
    ensures |StochSeries(data, s, round).k| == |data| - s.length + 1
    ensures forall j :: 0 <= j < |data| - s.length + 1 ==> StochSeries(data, s, round).k[j].time == data[s.length - 1 + j].time
    ensures |StochSeries(data, s, round).d| == |data| - s.length - s.dLength + 2
    ensures forall j :: 0 <= j < |data| - s.length - s.dLength + 2 ==>
      StochSeries(data, s, round).d[j].time == data[s.length + s.dLength - 2 + j].time
  {
    var k := KRaw(data, s.length);
    assert forall i :: 0 <= i < |k| ==> (k[i].Some? <==> i >= s.length - 1);
    CompactSuffix(Times(data), k, s.length - 1);
    var d := DRaw(k, s.dLength);
    forall i | 0 <= i < |d|
      ensures d[i].Some? <==> i >= s.length + s.dLength - 2
    {
      if i >= s.length + s.dLength - 2 {
        assert AllSome(k, i - s.dLength + 1, i + 1);
      } else if i >= s.dLength - 1 {
        assert k[i - s.dLength + 1].None?;
      }
    }
    CompactSuffix(Times(data), d, s.length + s.dLength - 2);
  }
}
